/** The automatic-trading endpoints: the statistics over the transaction
    history, and the update of the settings from a partial request. */
module AutoTrade {
  import opened Common

  /** The fields of a transaction the statistics read. */
  datatype Transaction = Transaction(
    strategy: Option<string>,
    kind: string,
    price: real,
    quantity: real,
    profitLoss: Option<real>)

  predicate IsAutoTrade(t: Transaction) {
    t.strategy == Some("auto_trade")
  }

  predicate IsCashout(t: Transaction) {
    t.kind == "auto_cashout"
  }

  /** The transactions satisfying `keep`, in history order. */
  function Filter(ts: seq<Transaction>, keep: Transaction -> bool): (r: seq<Transaction>)
    ensures |r| <= |ts|
    ensures forall t :: t in r <==> t in ts && keep(t)
  {
    if ts == [] then []
    else Filter(ts[..|ts| - 1], keep) + (if keep(ts[|ts| - 1]) then [ts[|ts| - 1]] else [])
  }

  /** Filtering a history split in two filters each part, keeping the
      parts in order; so the kept transactions stay in history order. */
  lemma {:induction false} FilterAppend(a: seq<Transaction>, b: seq<Transaction>, keep: Transaction -> bool)
    ensures Filter(a + b, keep) == Filter(a, keep) + Filter(b, keep)
  {
    if b == [] {
      assert a + b == a;
    } else {
      var init, last := b[..|b| - 1], b[|b| - 1];
      var ab := a + b;
      assert ab[..|ab| - 1] == a + init && ab[|ab| - 1] == last;
      var tail := if keep(last) then [last] else [];
      FilterAppend(a, init, keep);
      calc {
        Filter(ab, keep);
        Filter(a + init, keep) + tail;
        (Filter(a, keep) + Filter(init, keep)) + tail;
        Filter(a, keep) + (Filter(init, keep) + tail);
        Filter(a, keep) + Filter(b, keep);
      }
    }
  }

  /** Filtering keeps every occurrence of a kept transaction and none of the
      others, so the counts the statistics report are exact. */
  lemma {:induction false} FilterCounts(ts: seq<Transaction>, keep: Transaction -> bool)
    ensures forall t :: multiset(Filter(ts, keep))[t] == if keep(t) then multiset(ts)[t] else 0
  {
    if ts != [] {
      var init := ts[..|ts| - 1];
      FilterCounts(init, keep);
      assert ts == init + [ts[|ts| - 1]];
    }
  }

  /** `t.get('profit_loss', 0) or 0`: a missing profit counts as 0. */
  function ProfitOf(t: Transaction): real {
    t.profitLoss.GetOr(0.0)
  }

  function TotalProfit(ts: seq<Transaction>): real {
    if ts == [] then 0.0 else TotalProfit(ts[..|ts| - 1]) + ProfitOf(ts[|ts| - 1])
  }

  predicate IsWin(t: Transaction) {
    ProfitOf(t) > 0.0
  }

  function Wins(ts: seq<Transaction>): (n: nat)
    ensures n <= |ts|
    ensures n == |Filter(ts, IsWin)|
  {
    if ts == [] then 0 else Wins(ts[..|ts| - 1]) + (if IsWin(ts[|ts| - 1]) then 1 else 0)
  }

  /** `sum(c['price'] * c['quantity'] for c in cashouts)`. */
  function CashedOut(ts: seq<Transaction>): real {
    if ts == [] then 0.0 else CashedOut(ts[..|ts| - 1]) + ts[|ts| - 1].price * ts[|ts| - 1].quantity
  }

  /** The percentage of winning trades among `count` trades, 0 when there
      are none. */
  function SuccessRate(wins: nat, count: nat): (rate: real)
    requires wins <= count
    ensures 0.0 <= rate <= 100.0
    ensures count == 0 ==> rate == 0.0
    ensures count > 0 ==> rate * count as real == wins as real * 100.0
    ensures rate == 100.0 <==> count > 0 && wins == count
    ensures rate == 0.0 <==> wins == 0
  {
    if count > 0 then
      PercentOfPart(wins as real, count as real);
      Percent(wins as real, count as real)
    else 0.0
  }

  /** A share of a positive whole is a percentage between 0 and 100, reaching
      100 only for the whole itself. */
  lemma PercentOfPart(part: real, whole: real)
    requires 0.0 <= part <= whole && whole > 0.0
    ensures 0.0 <= Percent(part, whole) <= 100.0
    ensures Percent(part, whole) == 100.0 <==> part == whole
  {
    var r := Percent(part, whole);
    assert (100.0 - r) * whole == (whole - part) * 100.0;
    ProductSign(100.0 - r, whole);
  }

  lemma ProductSign(x: real, y: real)
    requires y > 0.0
    ensures x > 0.0 <==> x * y > 0.0
    ensures x == 0.0 <==> x * y == 0.0
  {
  }

  /** The first `k` elements, or all of them when there are fewer. */
  function Take(ts: seq<Transaction>, k: nat): (r: seq<Transaction>)
    ensures |r| == if |ts| < k then |ts| else k
    ensures r == ts[..|r|]
  {
    if |ts| < k then ts else ts[..k]
  }

  /** The first elements are elements of the whole list. */
  lemma TakeWithin(ts: seq<Transaction>, k: nat)
    ensures forall t :: t in Take(ts, k) ==> t in ts
  {
    var r := Take(ts, k);
    forall t | t in r
      ensures t in ts
    {
      var i :| 0 <= i < |r| && r[i] == t;
      assert ts[i] == t;
    }
  }

  datatype Stats = Stats(
    autoTrades: seq<Transaction>,
    cashouts: seq<Transaction>,
    totalAutoTrades: nat,
    totalCashouts: nat,
    totalProfit: real,
    successRate: real,
    totalCashedOut: real)

  /** The statistics endpoint: the lists are truncated to 50 and 20 entries,
      the counts and sums are over the whole history. */
  function StatsOf(ts: seq<Transaction>): (s: Stats)
    ensures |s.autoTrades| <= 50 && |s.cashouts| <= 20
    ensures forall t :: t in s.autoTrades ==> t in ts && IsAutoTrade(t)
    ensures forall t :: t in s.cashouts ==> t in ts && IsCashout(t)
    ensures s.totalAutoTrades == |Filter(ts, IsAutoTrade)| && s.totalCashouts == |Filter(ts, IsCashout)|
    ensures s.autoTrades == Take(Filter(ts, IsAutoTrade), 50) && s.cashouts == Take(Filter(ts, IsCashout), 20)
    ensures s.totalAutoTrades <= 50 ==> s.autoTrades == Filter(ts, IsAutoTrade)
    ensures s.totalCashouts <= 20 ==> s.cashouts == Filter(ts, IsCashout)
    ensures s.totalProfit == TotalProfit(Filter(ts, IsAutoTrade))
    ensures s.successRate == SuccessRate(Wins(Filter(ts, IsAutoTrade)), s.totalAutoTrades)
    ensures s.totalAutoTrades == 0 ==> s.successRate == 0.0 && s.totalProfit == 0.0
    ensures s.totalCashedOut == CashedOut(Filter(ts, IsCashout))
  {
    var trades := Filter(ts, IsAutoTrade);
    var cashouts := Filter(ts, IsCashout);
    var first := Take(trades, 50);
    TakeWithin(trades, 50);
    var firstCashouts := Take(cashouts, 20);
    TakeWithin(cashouts, 20);
    assert |trades| == 0 ==> trades == [];
    Stats(first, firstCashouts, |trades|, |cashouts|, TotalProfit(trades), SuccessRate(Wins(trades), |trades|), CashedOut(cashouts))
  }

  /** When every automatic trade made a profit, the total profit is
      positive as soon as there is one trade. */
  lemma {:induction false} AllWinsPositiveProfit(trades: seq<Transaction>)
    requires trades != []
    requires forall i :: 0 <= i < |trades| ==> IsWin(trades[i])
    ensures TotalProfit(trades) > 0.0
  {
    var init := trades[..|trades| - 1];
    if init != [] {
      assert forall i :: 0 <= i < |init| ==> init[i] == trades[i];
      AllWinsPositiveProfit(init);
    }
  }

  /** The settings of a user's automatic trading. */
  datatype Settings = Settings(
    enabled: bool,
    takeProfit: real,
    stopLoss: real,
    autoCashout: bool,
    cashoutPercentage: real,
    minProfitToCashout: real,
    maxPositionSize: real,
    tradingPairs: string)

  /** A JSON request body; `None` is a key the body does not contain, and
      `otherKeys` says whether the body holds any key besides the settings. */
  datatype Request = Request(
    enabled: Option<bool>,
    takeProfit: Option<real>,
    stopLoss: Option<real>,
    autoCashout: Option<bool>,
    cashoutPercentage: Option<real>,
    minProfitToCashout: Option<real>,
    maxPositionSize: Option<real>,
    tradingPairs: Option<seq<string>>,
    otherKeys: bool)

  /** The empty object `{}`, which is falsy and refused like a missing body. */
  predicate IsEmpty(r: Request) {
    r.enabled.None? && r.takeProfit.None? && r.stopLoss.None? && r.autoCashout.None? &&
    r.cashoutPercentage.None? && r.minProfitToCashout.None? && r.maxPositionSize.None? && r.tradingPairs.None? &&
    !r.otherKeys
  }

  /** `",".join(pairs)`. */
  function Join(pairs: seq<string>): (r: string)
    ensures pairs == [] ==> r == ""
    ensures |pairs| == 1 ==> r == pairs[0]
  {
    if pairs == [] then ""
    else if |pairs| == 1 then pairs[0]
    else Join(pairs[..|pairs| - 1]) + "," + pairs[|pairs| - 1]
  }

  /** Joining is a separator between each pair and the next, whichever end
      the string is built from: the first pair, a comma, then the rest. */
  lemma {:induction false} JoinHead(pairs: seq<string>)
    requires |pairs| >= 2
    ensures Join(pairs) == pairs[0] + "," + Join(pairs[1..])
  {
    var init := pairs[..|pairs| - 1];
    var last := pairs[|pairs| - 1];
    if |pairs| == 2 {
      assert pairs[1..] == [last];
    } else {
      JoinHead(init);
      assert init[1..] == pairs[1..][..|pairs| - 2];
      assert pairs[1..][|pairs| - 2] == last;
      calc {
        Join(pairs);
        Join(init) + "," + last;
        (pairs[0] + "," + Join(init[1..])) + "," + last;
        pairs[0] + "," + (Join(init[1..]) + "," + last);
        pairs[0] + "," + Join(pairs[1..]);
      }
    }
  }

  /** The pairs of a request; a body without them clears the pairs. */
  function PairsOf(r: Request): string {
    Join(r.tradingPairs.GetOr([]))
  }

  /** The merge as the handler writes it: `enabled` and the take-profit
      percentage are first reset to `False` and `5.0` when absent, so the
      later "keep the current value" reads see the reset values. */
  function MergeAsWritten(current: Settings, r: Request): (s: Settings)
    ensures s.enabled == r.enabled.GetOr(false)
    ensures s.takeProfit == r.takeProfit.GetOr(5.0)
    ensures s.stopLoss == r.stopLoss.GetOr(current.stopLoss)
    ensures s.autoCashout == r.autoCashout.GetOr(current.autoCashout)
    ensures s.cashoutPercentage == r.cashoutPercentage.GetOr(current.cashoutPercentage)
    ensures s.minProfitToCashout == r.minProfitToCashout.GetOr(current.minProfitToCashout)
    ensures s.maxPositionSize == r.maxPositionSize.GetOr(current.maxPositionSize)
    ensures s.tradingPairs == PairsOf(r)
  {
    var reset := current.(enabled := r.enabled.GetOr(false), takeProfit := r.takeProfit.GetOr(5.0));
    Merge(reset, r)
  }

  /** The merge the handler evidently intends: every setting absent from the
      body keeps its current value; the pairs are replaced by the body's. */
  function Merge(current: Settings, r: Request): (s: Settings)
    ensures s.enabled == r.enabled.GetOr(current.enabled)
    ensures s.takeProfit == r.takeProfit.GetOr(current.takeProfit)
    ensures s.stopLoss == r.stopLoss.GetOr(current.stopLoss)
    ensures s.autoCashout == r.autoCashout.GetOr(current.autoCashout)
    ensures s.cashoutPercentage == r.cashoutPercentage.GetOr(current.cashoutPercentage)
    ensures s.minProfitToCashout == r.minProfitToCashout.GetOr(current.minProfitToCashout)
    ensures s.maxPositionSize == r.maxPositionSize.GetOr(current.maxPositionSize)
    ensures s.tradingPairs == PairsOf(r)
  {
    Settings(
      r.enabled.GetOr(current.enabled),
      r.takeProfit.GetOr(current.takeProfit),
      r.stopLoss.GetOr(current.stopLoss),
      r.autoCashout.GetOr(current.autoCashout),
      r.cashoutPercentage.GetOr(current.cashoutPercentage),
      r.minProfitToCashout.GetOr(current.minProfitToCashout),
      r.maxPositionSize.GetOr(current.maxPositionSize),
      PairsOf(r))
  }

  /** A body that only changes the stop-loss switches trading off and resets
      the take-profit under the handler as written, but not under the
      intended merge. */
  lemma MergeAsWrittenResetsAbsentKeys()
    ensures var current := Settings(true, 10.0, 3.0, false, 50.0, 10.0, 100.0, "BTC/USDT");
      var r := Request(None, None, Some(4.0), None, None, None, None, Some(["BTC/USDT"]), false);
      !IsEmpty(r) &&
      MergeAsWritten(current, r).enabled == false && MergeAsWritten(current, r).takeProfit == 5.0 &&
      Merge(current, r) == current.(stopLoss := 4.0)
  {
  }

  /** The two merges differ exactly when the body lacks `enabled` or the
      take-profit and the current value is not the reset one. */
  lemma MergesAgreeIff(current: Settings, r: Request)
    ensures MergeAsWritten(current, r) == Merge(current, r) <==>
      (r.enabled.None? ==> current.enabled == false) && (r.takeProfit.None? ==> current.takeProfit == 5.0)
  {
    if MergeAsWritten(current, r) == Merge(current, r) {
      assert MergeAsWritten(current, r).enabled == Merge(current, r).enabled;
      assert MergeAsWritten(current, r).takeProfit == Merge(current, r).takeProfit;
    }
  }

  /** Sending the same body twice is sending it once. */
  lemma MergeIdempotent(current: Settings, r: Request)
    ensures Merge(Merge(current, r), r) == Merge(current, r)
  {
  }

  /** A body carrying every setting determines the result whatever the
      current settings were. */
  lemma FullRequestOverrides(a: Settings, b: Settings, r: Request)
    requires r.enabled.Some? && r.takeProfit.Some? && r.stopLoss.Some? && r.autoCashout.Some?
    requires r.cashoutPercentage.Some? && r.minProfitToCashout.Some? && r.maxPositionSize.Some?
    ensures Merge(a, r) == Merge(b, r)
  {
  }

  datatype Response = Updated(settings: Settings) | NoDataProvided

  /** A user's stored settings, updated in place by the settings endpoint. */
  class SettingsStore {
    var settings: Settings

    constructor (initial: Settings)
      ensures settings == initial
    {
      settings := initial;
    }

    /** The POST handler as written: a missing or empty body is refused and
        changes nothing; any other body, even one without a single setting,
        is merged with `enabled` and the take-profit reset when absent. */
    method Post(body: Option<Request>) returns (response: Response)
      modifies this
      ensures body.None? || IsEmpty(body.value) ==> response == NoDataProvided && settings == old(settings)
      ensures body.Some? && !IsEmpty(body.value) ==>
        settings == MergeAsWritten(old(settings), body.value) && response == Updated(settings)
    {
      if body.None? || IsEmpty(body.value) {
        return NoDataProvided;
      }
      settings := MergeAsWritten(settings, body.value);
      response := Updated(settings);
    }
  }
}
