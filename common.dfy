/** Shared vocabulary of the portfolio model: optional values, the zero-guarded
    percentage the handlers use for profit/loss, and ASCII upper-casing. */
module Common {

  /** An optional value; `None` stands for Python's `None`. */
  datatype Option<+T> = None | Some(value: T) {
    function GetOr(default: T): T {
      match this
      case Some(v) => v
      case None => default
    }
  }

  /** Some element of a non-empty set. */
  ghost function Pick<T>(s: set<T>): (x: T)
    requires s != {}
    ensures x in s
  {
    NonEmptyHasElement(s);
    var x :| x in s; x
  }

  lemma NonEmptyHasElement<T>(s: set<T>)
    requires s != {}
    ensures exists x :: x in s
  {
    if forall x :: x !in s {
      assert false;
    }
  }

  /** Python truthiness of an optional float: both `None` and `0.0` are falsy. */
  predicate TruthyReal(p: Option<real>) {
    p.Some? && p.value != 0.0
  }

  /** Python truthiness of an optional string: both `None` and `""` are falsy. */
  predicate TruthyString(s: Option<string>) {
    s.Some? && s.value != ""
  }

  /** `(pl / base * 100) if base > 0 else 0`: the percentage of a gain over a
      base, defined as 0 when the base is not positive (never a division error). */
  function Percent(pl: real, base: real): (r: real)
    ensures base <= 0.0 ==> r == 0.0
    ensures base > 0.0 ==> r * base == pl * 100.0
    ensures base > 0.0 ==> (r > 0.0 <==> pl > 0.0) && (r == 0.0 <==> pl == 0.0)
  {
    if base > 0.0 then pl / base * 100.0 else 0.0
  }

  function UpperChar(c: char): (u: char)
    ensures 'a' <= c <= 'z' ==> 'A' <= u <= 'Z'
    ensures !('a' <= c <= 'z') ==> u == c
  {
    if 'a' <= c <= 'z' then (c as int - 'a' as int + 'A' as int) as char else c
  }

  /** `str.upper()` restricted to ASCII letters. */
  function Upper(s: string): (r: string)
    ensures |r| == |s|
    ensures forall i :: 0 <= i < |s| ==> r[i] == UpperChar(s[i])
    ensures forall i :: 0 <= i < |r| ==> !('a' <= r[i] <= 'z')
  {
    if s == [] then [] else [UpperChar(s[0])] + Upper(s[1..])
  }

  /** Upper-casing twice is upper-casing once: a symbol read back from the
      table and upper-cased again finds the same key. */
  lemma {:induction false} UpperIdempotent(s: string)
    ensures Upper(Upper(s)) == Upper(s)
  {
    if s != [] {
      UpperIdempotent(s[1..]);
    }
  }
}
