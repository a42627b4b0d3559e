/** The arithmetic of measured contractor billing (construction-contractor.engine.ts), next to the
    per-bill rounding of `runningBill` (construction.policy.ts). Quantities are integers in thousandths,
    rates in hundredths. */
module MeasuredBilling {
  import opened Outcomes
  import opened Rounding
  import opened Sums

  datatype WorkItem = WorkItem(id: nat, quantity: nat, rate: nat)

  datatype Totals = Totals(previous: int, current: int, retention: int, recovery: int, netPayable: int)

  /** One item of a bill: the completed quantity before and after, what each is worth, and the difference. */
  datatype Line = Line(before: nat, after: nat, previousAmount: nat, cumulativeAmount: nat, current: int)

  /** Quantity times rate, rounded once to whole currency. */
  function WorkValue(quantity: nat, rate: nat): nat { (quantity * rate + 50000) / 100000 }

  /** v is the whole amount nearest to quantity times rate, the higher one on a tie. */
  ghost predicate Worth(v: nat, quantity: nat, rate: nat) {
    200000 * v - 100000 <= 2 * (quantity * rate) < 200000 * v + 100000
  }

  /** Work is valued to the nearest whole amount. */
  lemma WorkValueMeans(quantity: nat, rate: nat)
    ensures Worth(WorkValue(quantity, rate), quantity, rate)
  {
  }

  /** The value of completed quantities, item by item. */
  function Value(items: seq<WorkItem>, done: seq<nat>): nat
    requires |done| == |items|
  {
    if items == [] then 0
    else Value(items[..|items| - 1], done[..|items| - 1]) + WorkValue(done[|items| - 1], items[|items| - 1].rate)
  }

  function Agreed(items: seq<WorkItem>): seq<nat> {
    seq(|items|, i requires 0 <= i < |items| => items[i].quantity)
  }

  function RetentionOn(amount: int, bps: nat): int { Round(amount * bps, BPS) }

  // --- Arithmetic ------------------------------------------------------------------------------

  lemma WorkValueMonotone(a: nat, b: nat, rate: nat)
    requires a <= b
    ensures WorkValue(a, rate) <= WorkValue(b, rate)
  {
    MulOrder(a, b, rate);
    assert rate * a == a * rate && rate * b == b * rate;
  }

  lemma {:induction false} ValueMonotone(items: seq<WorkItem>, before: seq<nat>, after: seq<nat>)
    requires |before| == |after| == |items| && forall i :: 0 <= i < |items| ==> before[i] <= after[i]
    ensures Value(items, before) <= Value(items, after)
  {
    if items != [] {
      var n := |items| - 1;
      ValueMonotone(items[..n], before[..n], after[..n]);
      WorkValueMonotone(before[n], after[n], items[n].rate);
    }
  }

  /** The lines of a bill that takes the completed quantities from `before` to `after`. */
  function Measured(items: seq<WorkItem>, before: seq<nat>, after: seq<nat>): seq<Line>
    requires |before| == |after| == |items|
  {
    seq(|items|, i requires 0 <= i < |items| => LineOf(items[i].rate, before[i], after[i]))
  }

  function LineOf(rate: nat, before: nat, after: nat): Line {
    Line(before, after, WorkValue(before, rate), WorkValue(after, rate),
         WorkValue(after, rate) - WorkValue(before, rate))
  }

  /** Line i is about item i: it says where its quantity was and is, and what both are worth to the nearest whole
      amount. */
  ghost predicate LinesMean(items: seq<WorkItem>, before: seq<nat>, after: seq<nat>, lines: seq<Line>) {
    && |before| == |after| == |lines| == |items|
    && forall i :: 0 <= i < |items| ==>
         var l := lines[i];
         && l.before == before[i] && l.after == after[i] && l.current == l.cumulativeAmount - l.previousAmount
         && Worth(l.previousAmount, before[i], items[i].rate) && Worth(l.cumulativeAmount, after[i], items[i].rate)
  }

  lemma MeasuredMeans(items: seq<WorkItem>, before: seq<nat>, after: seq<nat>)
    requires |before| == |after| == |items|
    ensures LinesMean(items, before, after, Measured(items, before, after))
  {
    hide WorkValue;
    forall i | 0 <= i < |items|
      ensures Worth(WorkValue(before[i], items[i].rate), before[i], items[i].rate)
      ensures Worth(WorkValue(after[i], items[i].rate), after[i], items[i].rate)
    {
      WorkValueMeans(before[i], items[i].rate);
      WorkValueMeans(after[i], items[i].rate);
    }
  }

  ghost const CURRENT_OF: Line -> int := (l: Line) => l.current

  /** The lines of a bill add up to the growth in value. */
  lemma {:induction false} LinesTotal(items: seq<WorkItem>, before: seq<nat>, after: seq<nat>)
    requires |before| == |after| == |items|
    ensures Sum(Measured(items, before, after), CURRENT_OF) == Value(items, after) - Value(items, before)
  {
    if items != [] {
      var n := |items| - 1;
      LinesTotal(items[..n], before[..n], after[..n]);
      assert Measured(items, before, after)[..n] == Measured(items[..n], before[..n], after[..n]);
    }
  }

  lemma ValueStep(items: seq<WorkItem>, done: seq<nat>, i: nat)
    requires i < |items| == |done|
    ensures Value(items[..i + 1], done[..i + 1]) == Value(items[..i], done[..i]) + WorkValue(done[i], items[i].rate)
  {
    assert items[..i + 1][..i] == items[..i] && done[..i + 1][..i] == done[..i];
  }

  // --- Per-bill rounding -------------------------------------------------------------------------

  ghost const AMOUNT: nat -> int := (n: nat) => n

  /** The retention of `runningBill` on one bill. */
  ghost function RoundedOn(bps: nat): nat -> int { (n: nat) => RetentionOn(n, bps) }

  lemma {:induction false} ApartExact(amounts: seq<nat>, bps: nat)
    ensures -|amounts| * BPS <= 2 * (Sum(amounts, RoundedOn(bps)) * BPS - Sum(amounts, AMOUNT) * bps) <= |amounts| * BPS
  {
    hide RetentionOn;
    if amounts != [] {
      var front, last := amounts[..|amounts| - 1], amounts[|amounts| - 1];
      ApartExact(front, bps);
      OneRounded(last, bps);
      MulAdds(Sum(front, AMOUNT), last, bps);
    }
  }

  lemma OneRounded(amount: int, bps: nat)
    ensures -BPS <= 2 * (RetentionOn(amount, bps) * BPS - amount * bps) <= BPS
  {
    RoundNearest(amount * bps, BPS, RetentionOn(amount, bps));
  }

  lemma MulAdds(a: int, b: int, c: int)
    ensures (a + b) * c == a * c + b * c
  {
  }

  /** Rounding every bill drifts from rounding the total once, by at most half a unit per bill plus one half. */
  lemma DriftBound(amounts: seq<nat>, bps: nat)
    ensures var drift := Sum(amounts, RoundedOn(bps)) - RetentionOn(Sum(amounts, AMOUNT), bps);
            -(|amounts| + 1) <= 2 * drift <= |amounts| + 1
  {
    hide RetentionOn;
    ApartExact(amounts, bps);
    OneRounded(Sum(amounts, AMOUNT), bps);
  }

  /** n equal bills whose share of retention is half a unit each drift upwards by a half a unit per bill. */
  lemma {:induction false} DriftGrows(amounts: seq<nat>, n: nat)
    requires |amounts| == 2 * n && forall i :: 0 <= i < |amounts| ==> amounts[i] == 10
    ensures Sum(amounts, RoundedOn(500)) - RetentionOn(Sum(amounts, AMOUNT), 500) == n
  {
    TensApart(amounts);
    RoundNearest(Sum(amounts, AMOUNT) * 500, BPS, n);
  }

  lemma {:induction false} TensApart(amounts: seq<nat>)
    requires forall i :: 0 <= i < |amounts| ==> amounts[i] == 10
    ensures Sum(amounts, RoundedOn(500)) == |amounts| && Sum(amounts, AMOUNT) == 10 * |amounts|
  {
    if amounts != [] {
      TensApart(amounts[..|amounts| - 1]);
    }
  }

  // --- Pricing a bill ------------------------------------------------------------------------------

  /** `runningBill`. */
  function RunningBill(revised: int, certified: int, bps: nat, advance: int, cumulative: int, recovery: int)
    : Result<Totals>
  {
    if cumulative > revised || cumulative <= certified then Err(BadRequest)
    else if recovery > advance then Err(BadRequest)
    else
      var current := cumulative - certified;
      var retention := RetentionOn(current, bps);
      var payable := current - retention - recovery;
      if !IsMoney(retention) || !IsMoney(payable) then Err(BadRequest)
      else Ok(Totals(certified, current, retention, recovery, payable))
  }

  /** A running bill without advance recovery that stays within the contract is never refused. */
  lemma RunningBillPayable(revised: int, certified: int, bps: nat, advance: nat, cumulative: int)
    requires 0 <= certified < cumulative <= revised <= MAX_MONEY && bps <= BPS
    ensures RunningBill(revised, certified, bps, advance, cumulative, 0).Ok?
  {
    ScaleWithin(cumulative - certified, bps, BPS);
  }

  /** Measured quantities are acceptable: one per item, none going back, none past the agreement, some progress. */
  ghost predicate Progress(items: seq<WorkItem>, before: seq<nat>, after: seq<nat>) {
    && |before| == |after| == |items|
    && (forall i :: 0 <= i < |items| ==> before[i] <= after[i] <= items[i].quantity)
    && exists i :: 0 <= i < |items| && before[i] < after[i]
  }

  /** `measuredTotals`: retention is rounded on the cumulative amount, and what is already held is taken off. */
  function MeasuredTotals(revised: int, certified: int, bps: nat, held: int, advance: int, cumulative: int,
                          recovery: int)
    : Result<Totals>
  {
    if cumulative < certified || cumulative > revised then Err(BadRequest)
    else if recovery > advance then Err(BadRequest)
    else
      var current := cumulative - certified;
      var retention := RetentionOn(cumulative, bps) - held;
      if current == 0 && recovery != 0 then Err(BadRequest)
      else if !IsMoney(retention) || !IsMoney(current - retention - recovery) then Err(BadRequest)
      else Ok(Totals(certified, current, retention, recovery, current - retention - recovery))
  }

  /** With the retention held for the certified amount, totals are refused only for a recovery that exceeds
      the advance or what the bill pays. */
  lemma MeasuredTotalsExact(revised: int, certified: int, bps: nat, advance: nat, cumulative: int, recovery: nat)
    requires 0 <= certified <= cumulative <= revised <= MAX_MONEY && bps <= BPS
    ensures var retention := RetentionOn(cumulative, bps) - RetentionOn(certified, bps);
            && 0 <= retention <= cumulative - certified
            && (MeasuredTotals(revised, certified, bps, RetentionOn(certified, bps), advance, cumulative,
                               recovery).Ok? <==>
                  recovery <= advance && recovery <= cumulative - certified - retention)
  {
    ScaleGap(certified, cumulative, bps, BPS);
  }

  /** What accepted totals mean: the bill pays the growth less the growth in retention and the recovery. */
  lemma TotalsMean(revised: int, certified: int, bps: nat, held: int, advance: int, cumulative: int, recovery: int,
                   t: Totals)
    requires MeasuredTotals(revised, certified, bps, held, advance, cumulative, recovery) == Ok(t)
    ensures certified <= cumulative <= revised && recovery <= advance && t.recovery == recovery
    ensures t.previous == certified && t.current == cumulative - certified
    ensures held + t.retention == RetentionOn(cumulative, bps) && (t.current == 0 ==> recovery == 0)
    ensures t.netPayable == t.current - t.retention - recovery >= 0
  {
    hide RetentionOn;
  }
}
