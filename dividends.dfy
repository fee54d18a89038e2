/** Dividends: recording one with a received/upcoming status, and the
    page's split of amounts into upcoming and received. Times are integers
    (for instance seconds); `now` is the clock reading passed in. */
module Dividends {
  import opened Common

  datatype Dividend = Dividend(assetName: string, amount: real, paymentDate: int, status: string)

  /** The dividend the form records: the payment date defaults to now (a
      missing or unparsable date), the amount to 0, and the status says
      whether the date has passed. */
  function NewDividend(assetName: string, amount: Option<real>, paymentDate: Option<int>, now: int): (d: Dividend)
    ensures d.assetName == assetName && d.amount == amount.GetOr(0.0)
    ensures d.paymentDate == paymentDate.GetOr(now)
    ensures d.status == "received" <==> d.paymentDate <= now
    ensures d.status == "upcoming" <==> d.paymentDate > now
  {
    var date := paymentDate.GetOr(now);
    Dividend(assetName, amount.GetOr(0.0), date, if date <= now then "received" else "upcoming")
  }

  /** `sum(d.amount for d in dividends if d.payment_date > now)`. */
  function UpcomingTotal(ds: seq<Dividend>, now: int): real {
    if ds == [] then 0.0
    else UpcomingTotal(ds[..|ds| - 1], now) + (if ds[|ds| - 1].paymentDate > now then ds[|ds| - 1].amount else 0.0)
  }

  /** `sum(d.amount for d in dividends if d.payment_date <= now)`. */
  function ReceivedTotal(ds: seq<Dividend>, now: int): real {
    if ds == [] then 0.0
    else ReceivedTotal(ds[..|ds| - 1], now) + (if ds[|ds| - 1].paymentDate <= now then ds[|ds| - 1].amount else 0.0)
  }

  function Total(ds: seq<Dividend>): real {
    if ds == [] then 0.0 else Total(ds[..|ds| - 1]) + ds[|ds| - 1].amount
  }

  /** Every dividend falls in exactly one of the two totals. */
  lemma {:induction false} SplitIsPartition(ds: seq<Dividend>, now: int)
    ensures UpcomingTotal(ds, now) + ReceivedTotal(ds, now) == Total(ds)
  {
    if ds != [] {
      SplitIsPartition(ds[..|ds| - 1], now);
    }
  }

  /** With non-negative amounts, moving the clock forward can only move
      money from upcoming to received. */
  lemma {:induction false} ReceivedGrowsWithTime(ds: seq<Dividend>, now: int, later: int)
    requires now <= later
    requires forall i :: 0 <= i < |ds| ==> ds[i].amount >= 0.0
    ensures ReceivedTotal(ds, now) <= ReceivedTotal(ds, later)
    ensures UpcomingTotal(ds, later) <= UpcomingTotal(ds, now)
  {
    if ds != [] {
      var init := ds[..|ds| - 1];
      assert forall i :: 0 <= i < |init| ==> init[i] == ds[i];
      ReceivedGrowsWithTime(init, now, later);
    }
  }

  /** A dividend recorded as received is counted as received on every later
      page view; one recorded without a date is received at once. */
  lemma RecordedStatusAgreesLater(assetName: string, amount: Option<real>, paymentDate: Option<int>, now: int, view: int)
    requires now <= view
    ensures var d := NewDividend(assetName, amount, paymentDate, now);
      (d.status == "received" ==> ReceivedTotal([d], view) == d.amount && UpcomingTotal([d], view) == 0.0) &&
      (paymentDate.None? ==> d.status == "received")
  {
  }
}
