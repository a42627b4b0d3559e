/** An item-rate work agreement over its whole life: review, status, advances, measured bills and
    retention (construction-contractor.service.ts, construction.service.ts, and the status route of
    construction.routes.ts). Each transaction is one move. */
module ContractorAgreement {
  import opened Outcomes
  import opened Rounding
  import opened Sums
  import opened MeasuredBilling
  import opened Runs

  datatype Status = Proposed | Rejected | Active | Suspended | Closed

  /** What is agreed and never changes; `author` proposed it. */
  datatype Terms = Terms(items: seq<WorkItem>, bps: nat, author: nat)

  /** A bill as submitted: its lines, the value they come to, what it was priced at, and a wastage deduction. */
  datatype Bill = Bill(lines: seq<Line>, cumulative: int, totals: Totals, deduction: nat, createdBy: nat)

  datatype State = State(
    status: Status, certified: seq<nat>, certifiedAmount: int, retentionHeld: int, retentionReleased: int,
    advancePaid: int, advanceRecovered: int, pending: Option<Bill>, approved: seq<Bill>)

  datatype Move =
    | Review(user: nat, approve: bool)
    | SetStatus(target: Status)
    | Submit(quantities: seq<nat>, recovery: nat, deduction: nat, user: nat)
    | Approve(user: nat)
    | Reject(user: nat)
    | Advance(amount: nat)
    | Release(amount: nat)

  // --- The agreement -------------------------------------------------------------------------------

  ghost predicate UniqueItems(items: seq<WorkItem>) {
    forall i, j :: 0 <= i < j < |items| ==> items[i].id != items[j].id
  }

  /** Distinct items, each worth something, and together no more than the ledger can hold. */
  ghost predicate AgreementOk(items: seq<WorkItem>) {
    && UniqueItems(items) && (forall i :: 0 <= i < |items| ==> WorkValue(items[i].quantity, items[i].rate) > 0)
    && Value(items, Agreed(items)) <= MAX_MONEY
  }

  ghost predicate TermsOk(t: Terms) { AgreementOk(t.items) && t.bps <= BPS }

  function Revised(t: Terms): nat { Value(t.items, Agreed(t.items)) }

  lemma {:induction false} ValuePrefix(items: seq<WorkItem>, done: seq<nat>, k: nat)
    requires |done| == |items| && k <= |items|
    ensures Value(items[..k], done[..k]) <= Value(items, done)
    decreases |items|
  {
    if k < |items| {
      var n := |items| - 1;
      ValuePrefix(items[..n], done[..n], k);
      assert items[..n][..k] == items[..k] && done[..n][..k] == done[..k];
    } else {
      assert items[..k] == items && done[..k] == done;
    }
  }

  /** `agreementTotal`. */
  method AgreementTotal(items: seq<WorkItem>) returns (r: Result<nat>)
    ensures r.Ok? <==> AgreementOk(items)
    ensures r.Ok? ==> r.value == Value(items, Agreed(items))
  {
    hide Value, WorkValue;
    if exists i, j | 0 <= i < j < |items| :: items[i].id == items[j].id {
      return Err(BadRequest);
    }
    var agreed := Agreed(items);
    var total: nat := 0;
    assert items[..0] == [] && Value([], []) == 0 by { EmptyValue(); }
    for i := 0 to |items|
      invariant total == Value(items[..i], agreed[..i]) <= MAX_MONEY
      invariant forall j :: 0 <= j < i ==> WorkValue(items[j].quantity, items[j].rate) > 0
    {
      var value := WorkValue(items[i].quantity, items[i].rate);
      ValueStep(items, agreed, i);
      ValuePrefix(items, agreed, i + 1);
      if value <= 0 || total + value > MAX_MONEY {
        return Err(BadRequest);
      }
      total := total + value;
    }
    assert items[..|items|] == items && agreed[..|items|] == agreed;
    r := Ok(total);
  }

  lemma EmptyValue()
    ensures Value([], []) == 0
  {
  }

  // --- The moves -----------------------------------------------------------------------------------

  function Quantities(lines: seq<Line>): seq<nat> {
    seq(|lines|, i requires 0 <= i < |lines| => lines[i].after)
  }

  function Before(lines: seq<Line>): seq<nat> {
    seq(|lines|, i requires 0 <= i < |lines| => lines[i].before)
  }

  ghost function Outstanding(s: State): int { s.advancePaid - s.advanceRecovered }

  /** What the rest of the work would still pay out: its value less the retention still to come. */
  ghost function Remaining(t: Terms, s: State): int {
    Revised(t) - s.certifiedAmount - (RetentionOn(Revised(t), t.bps) - s.retentionHeld)
  }

  /** What a bill for these quantities pays before any recovery. */
  ghost function PaysFor(t: Terms, s: State, quantities: seq<nat>): int
    requires |quantities| == |t.items|
  {
    var value := Value(t.items, quantities);
    value - s.certifiedAmount - (RetentionOn(value, t.bps) - s.retentionHeld)
  }

  ghost function PricedAt(t: Terms, s: State, cumulative: int, recovery: int): Result<Totals> {
    MeasuredTotals(Revised(t), s.certifiedAmount, t.bps, s.retentionHeld, Outstanding(s), cumulative, recovery)
  }

  /** `verifyMeasuredBill` and the pricing after it find what the bill says. */
  ghost predicate Verified(t: Terms, s: State, b: Bill) {
    && |s.certified| == |b.lines| == |t.items| && Before(b.lines) == s.certified
    && Progress(t.items, s.certified, Quantities(b.lines))
    && Value(t.items, s.certified) == s.certifiedAmount == b.totals.previous
    && b.cumulative == Value(t.items, Quantities(b.lines))
    && b.lines == Measured(t.items, s.certified, Quantities(b.lines))
    && var totals := PricedAt(t, s, b.cumulative, b.totals.recovery);
       && totals.Ok? && totals.value.retention == b.totals.retention && totals.value.netPayable == b.totals.netPayable
  }

  ghost predicate Settled(t: Terms, s: State) {
    s.certified == Agreed(t.items) && s.certifiedAmount == Revised(t) && s.advancePaid == s.advanceRecovered
  }

  ghost predicate Allowed(t: Terms, s: State, m: Move) {
    match m
    case Review(user, approve) => s.status.Proposed? && user != t.author
    case SetStatus(target) =>
      && !s.status.Proposed? && !s.status.Rejected? && !target.Proposed? && !target.Rejected?
      && (s.status.Closed? ==> target.Closed?) && (target.Closed? ==> Settled(t, s))
    case Submit(quantities, recovery, deduction, user) =>
      && s.status.Active? && s.pending.None? && Progress(t.items, s.certified, quantities)
      && var totals := PricedAt(t, s, Value(t.items, quantities), recovery);
         totals.Ok? && deduction <= totals.value.netPayable
    case Approve(user) =>
      s.pending.Some? && s.pending.value.createdBy != user && s.status.Active? && Verified(t, s, s.pending.value)
    case Reject(user) => s.pending.Some? && s.pending.value.createdBy != user
    case Advance(amount) => s.status.Active? && amount <= Remaining(t, s) - Outstanding(s)
    case Release(amount) => s.status.Closed? && amount <= s.retentionHeld - s.retentionReleased
  }

  ghost function After(t: Terms, s: State, m: Move): State
    requires Allowed(t, s, m)
  {
    match m
    case Review(user, approve) => s.(status := if approve then Active else Rejected)
    case SetStatus(target) => s.(status := target)
    case Submit(quantities, recovery, deduction, user) =>
      var cumulative := Value(t.items, quantities);
      s.(pending := Some(Bill(Measured(t.items, s.certified, quantities), cumulative,
                              PricedAt(t, s, cumulative, recovery).value, deduction, user)))
    case Approve(user) =>
      var b := s.pending.value;
      s.(certified := Quantities(b.lines), certifiedAmount := b.cumulative,
         retentionHeld := s.retentionHeld + b.totals.retention,
         advanceRecovered := s.advanceRecovered + b.totals.recovery,
         pending := None, approved := s.approved + [b])
    case Reject(user) => s.(pending := None)
    case Advance(amount) => s.(advancePaid := s.advancePaid + amount)
    case Release(amount) => s.(retentionReleased := s.retentionReleased + amount)
  }

  ghost function Step(t: Terms, s: State, m: Move): State {
    if Allowed(t, s, m) then After(t, s, m) else s
  }

  ghost function Start(t: Terms): State {
    State(Proposed, seq(|t.items|, i => 0), 0, 0, 0, 0, 0, None, [])
  }

  /** The steps under fixed terms. */
  ghost function Under(t: Terms): (State, Move) -> State { (s, m) => Step(t, s, m) }

  ghost function Run(t: Terms, moves: seq<Move>): State { RunFrom(Under(t), Start(t), moves) }

  // --- What every move keeps -------------------------------------------------------------------------

  ghost const PAYABLE_OF: Bill -> int := (b: Bill) => b.totals.netPayable

  /** The current amount of item i on a bill. */
  ghost function CurrentOf(i: nat): Bill -> int {
    (b: Bill) => if i < |b.lines| then b.lines[i].current else 0
  }

  /** What a bill says about itself. */
  ghost predicate BillOk(t: Terms, b: Bill) {
    && |b.lines| == |t.items| && b.lines == Measured(t.items, Before(b.lines), Quantities(b.lines))
    && b.totals.current == Sum(b.lines, CURRENT_OF) && 0 <= b.deduction <= b.totals.netPayable
  }

  /** The approved bills chain: the first starts from nothing, each where the one before ended, and the last
      ends at the certified quantities. */
  ghost predicate Chained(t: Terms, approved: seq<Bill>, certified: seq<nat>) {
    if approved == [] then certified == seq(|t.items|, i => 0)
    else
      var front, b := approved[..|approved| - 1], approved[|approved| - 1];
      BillOk(t, b) && certified == Quantities(b.lines) && Chained(t, front, Before(b.lines))
  }

  ghost function EndOf(t: Terms, approved: seq<Bill>): seq<nat> {
    if approved == [] then seq(|t.items|, i => 0) else Quantities(approved[|approved| - 1].lines)
  }

  ghost predicate MoneyOk(t: Terms, s: State) {
    && |s.certified| == |t.items| && (forall i :: 0 <= i < |t.items| ==> s.certified[i] <= t.items[i].quantity)
    && s.certifiedAmount == Value(t.items, s.certified) && s.certifiedAmount <= Revised(t) <= MAX_MONEY
    && s.retentionHeld == RetentionOn(s.certifiedAmount, t.bps) && 0 <= s.retentionReleased <= s.retentionHeld
    && 0 <= s.advanceRecovered <= s.advancePaid
    && Sum(s.approved, PAYABLE_OF) + s.retentionHeld + s.advanceRecovered == s.certifiedAmount
  }

  ghost predicate StatusOk(t: Terms, s: State) {
    && (s.status.Proposed? || s.status.Rejected? ==> s.advancePaid == 0 && s.pending.None? && s.certifiedAmount == 0)
    && (s.status.Closed? ==> Settled(t, s))
    && (s.retentionReleased > 0 ==> s.status.Closed?)
  }

  /** A pending bill still says what pricing it now would say. */
  ghost predicate PendingOk(t: Terms, s: State) {
    s.pending.Some? ==>
      var b := s.pending.value;
      && Verified(t, s, b) && BillOk(t, b) && b.totals.recovery >= 0
      && PricedAt(t, s, b.cumulative, b.totals.recovery) == Ok(b.totals)
  }

  ghost predicate Inv(t: Terms, s: State) {
    TermsOk(t) && MoneyOk(t, s) && StatusOk(t, s) && PendingOk(t, s) && Chained(t, s.approved, s.certified)
  }

  lemma {:induction false} NothingDone(items: seq<WorkItem>)
    ensures Value(items, seq(|items|, i => 0)) == 0
  {
    if items != [] {
      var n := |items| - 1;
      NothingDone(items[..n]);
      assert seq(|items|, i => 0)[..n] == seq(n, i => 0);
      assert 0 * items[n].rate == 0;
    }
  }

  lemma StartOk(t: Terms)
    requires TermsOk(t)
    ensures Inv(t, Start(t))
  {
    NothingDone(t.items);
    RoundZero(BPS);
  }

  /** Measured lines start and end where they were told to. */
  lemma MeasuredEnds(items: seq<WorkItem>, before: seq<nat>, after: seq<nat>)
    requires |before| == |after| == |items|
    ensures Before(Measured(items, before, after)) == before && Quantities(Measured(items, before, after)) == after
  {
  }

  lemma SubmitKeeps(t: Terms, s: State, m: Move)
    requires Inv(t, s) && m.Submit? && Allowed(t, s, m)
    ensures Inv(t, After(t, s, m))
  {
    hide RetentionOn, Value, Chained, Agreed;
    MeasuredEnds(t.items, s.certified, m.quantities);
    LinesTotal(t.items, s.certified, m.quantities);
    TotalsMean(Revised(t), s.certifiedAmount, t.bps, s.retentionHeld, Outstanding(s), Value(t.items, m.quantities),
               m.recovery, PricedAt(t, s, Value(t.items, m.quantities), m.recovery).value);
  }

  lemma ChainGrows(t: Terms, approved: seq<Bill>, certified: seq<nat>, b: Bill)
    requires Chained(t, approved, certified) && BillOk(t, b) && Before(b.lines) == certified
    ensures Chained(t, approved + [b], Quantities(b.lines))
  {
    hide BillOk;
    assert (approved + [b])[..|approved|] == approved;
  }

  lemma ApproveKeeps(t: Terms, s: State, m: Move)
    requires Inv(t, s) && m.Approve? && Allowed(t, s, m)
    ensures Inv(t, After(t, s, m))
  {
    hide RetentionOn, Value, Chained, Agreed, MeasuredTotals, Sum, AgreementOk;
    var b := s.pending.value;
    TotalsMean(Revised(t), s.certifiedAmount, t.bps, s.retentionHeld, Outstanding(s), b.cumulative,
               b.totals.recovery, b.totals);
    RetentionGrows(t, s, b.cumulative);
    ChainGrows(t, s.approved, s.certified, b);
    SumAppend(s.approved, b, PAYABLE_OF);
  }

  lemma RetentionGrows(t: Terms, s: State, cumulative: int)
    requires MoneyOk(t, s) && t.bps <= BPS && s.certifiedAmount <= cumulative
    ensures s.retentionHeld <= RetentionOn(cumulative, t.bps)
  {
    ScaleGap(s.certifiedAmount, cumulative, t.bps, BPS);
  }

  lemma AdvanceKeeps(t: Terms, s: State, m: Move)
    requires Inv(t, s) && m.Advance? && Allowed(t, s, m)
    ensures Inv(t, After(t, s, m))
  {
    hide RetentionOn, Value, Chained, Agreed;
  }

  lemma StepKeeps(t: Terms, s: State, m: Move)
    requires Inv(t, s)
    ensures Inv(t, Step(t, s, m))
  {
    hide RetentionOn, Value, Chained, Agreed, MeasuredTotals, AgreementOk;
    if Allowed(t, s, m) {
      match m
      case Submit(_, _, _, _) => SubmitKeeps(t, s, m);
      case Approve(_) => ApproveKeeps(t, s, m);
      case Advance(_) => AdvanceKeeps(t, s, m);
      case _ =>
    }
  }

  lemma {:induction false} EveryRun(t: Terms, moves: seq<Move>)
    requires TermsOk(t)
    ensures Inv(t, Run(t, moves))
  {
    hide Inv, Step;
    if moves == [] {
      StartOk(t);
    } else {
      EveryRun(t, moves[..|moves| - 1]);
      StepKeeps(t, Run(t, moves[..|moves| - 1]), moves[|moves| - 1]);
    }
  }

  // --- When a bill is accepted ---------------------------------------------------------------------------

  /** A bill is accepted exactly for acceptable quantities, a recovery within the advance, and a recovery and
      deduction within what it pays: no rounding ever stands in its way. */
  lemma SubmitExact(t: Terms, s: State, quantities: seq<nat>, recovery: nat, deduction: nat, user: nat)
    requires Inv(t, s)
    ensures Allowed(t, s, Submit(quantities, recovery, deduction, user)) <==>
            && s.status.Active? && s.pending.None? && Progress(t.items, s.certified, quantities)
            && recovery <= Outstanding(s) && recovery + deduction <= PaysFor(t, s, quantities)
  {
    hide RetentionOn, Value, MeasuredTotals, Chained, PendingOk, StatusOk, AgreementOk;
    if Progress(t.items, s.certified, quantities) {
      var value := Value(t.items, quantities);
      ValueMonotone(t.items, s.certified, quantities);
      ValueMonotone(t.items, quantities, Agreed(t.items));
      MeasuredTotalsExact(Revised(t), s.certifiedAmount, t.bps, Outstanding(s), value, recovery);
      var totals := PricedAt(t, s, value, recovery);
      if totals.Ok? {
        TotalsMean(Revised(t), s.certifiedAmount, t.bps, s.retentionHeld, Outstanding(s), value, recovery,
                   totals.value);
      }
    }
  }

  /** While the agreement is active an independent approval never fails: what was submitted still verifies. */
  lemma ApproveExact(t: Terms, s: State, user: nat)
    requires Inv(t, s)
    ensures Allowed(t, s, Approve(user)) <==>
            s.status.Active? && s.pending.Some? && s.pending.value.createdBy != user
  {
    hide RetentionOn, Value, MeasuredTotals, Chained, MoneyOk, StatusOk, AgreementOk;
  }

  /** No acceptable bill pays more than the rest of the work does, and the final one pays exactly that. */
  lemma PaysAtMost(t: Terms, s: State, quantities: seq<nat>)
    requires Inv(t, s) && Progress(t.items, s.certified, quantities)
    ensures PaysFor(t, s, quantities) <= Remaining(t, s) == PaysFor(t, s, Agreed(t.items))
  {
    hide RetentionOn, Value, MeasuredTotals, Chained, PendingOk, StatusOk, AgreementOk;
    ValueMonotone(t.items, quantities, Agreed(t.items));
    RetentionGap(Value(t.items, quantities), Revised(t), t.bps);
  }

  lemma RetentionGap(x: int, y: int, bps: nat)
    requires x <= y && bps <= BPS
    ensures 0 <= RetentionOn(y, bps) - RetentionOn(x, bps) <= y - x
  {
    ScaleGap(x, y, bps, BPS);
  }

  // --- Stranded advances -----------------------------------------------------------------------------------

  /** More advance is outstanding than the rest of the work pays out. */
  ghost predicate Stranded(t: Terms, s: State) { Outstanding(s) > Remaining(t, s) }

  /** What a pending bill pays is what its quantities pay, less its recovery. */
  lemma PendingPays(t: Terms, s: State)
    requires Inv(t, s) && s.pending.Some?
    ensures var b := s.pending.value;
            && |b.lines| == |t.items|
            && b.totals.netPayable == PaysFor(t, s, Quantities(b.lines)) - b.totals.recovery
            && b.totals.netPayable == b.totals.current - b.totals.retention - b.totals.recovery
  {
    hide RetentionOn, Value, MeasuredTotals, Chained, MoneyOk, StatusOk, AgreementOk;
    var b := s.pending.value;
    TotalsMean(Revised(t), s.certifiedAmount, t.bps, s.retentionHeld, Outstanding(s), b.cumulative,
               b.totals.recovery, b.totals);
  }

  /** Exactly one thing strands an advance: approving a bill that pays out more than the rest of the work has
      to spare over the advance. Nothing takes it back. */
  lemma StrandsExactly(t: Terms, s: State, m: Move)
    requires Inv(t, s)
    ensures Stranded(t, Step(t, s, m)) <==>
            || Stranded(t, s)
            || (m.Approve? && Allowed(t, s, m)
                && s.pending.value.totals.netPayable > Remaining(t, s) - Outstanding(s))
  {
    hide RetentionOn, Value, MeasuredTotals, Chained, AgreementOk, Progress;
    if m.Approve? && Allowed(t, s, m) {
      var b := s.pending.value;
      TotalsMean(Revised(t), s.certifiedAmount, t.bps, s.retentionHeld, Outstanding(s), b.cumulative,
                 b.totals.recovery, b.totals);
    }
  }

  /** The same before the bill is submitted: a bill for these quantities will strand the advance exactly when
      it recovers less than what the work left after it cannot pay. */
  lemma BillStrands(t: Terms, s: State, quantities: seq<nat>, recovery: nat, deduction: nat, user: nat, approver: nat)
    requires Inv(t, s) && Allowed(t, s, Submit(quantities, recovery, deduction, user)) && approver != user
    ensures var next := Then(t, s, Submit(quantities, recovery, deduction, user), Approve(approver));
            && next.approved != s.approved
            && (Stranded(t, next) <==> Outstanding(s) - recovery > Remaining(t, s) - PaysFor(t, s, quantities))
  {
    hide RetentionOn, Value, MeasuredTotals, Chained, AgreementOk, Verified, BillOk;
    var m := Submit(quantities, recovery, deduction, user);
    var s1 := Step(t, s, m);
    StepKeeps(t, s, m);
    ApproveExact(t, s1, approver);
    PendingPays(t, s1);
    MeasuredEnds(t.items, s.certified, quantities);
    var value := Value(t.items, quantities);
    TotalsMean(Revised(t), s.certifiedAmount, t.bps, s.retentionHeld, Outstanding(s), value, recovery,
               PricedAt(t, s, value, recovery).value);
    StrandsExactly(t, s, m);
    StrandsExactly(t, s1, Approve(approver));
    SubmittedSlack(t, s, m);
  }

  /** Submitting moves no money. */
  lemma SubmittedSlack(t: Terms, s: State, m: Move)
    requires Inv(t, s) && m.Submit? && Allowed(t, s, m)
    ensures var s1 := Step(t, s, m);
            && Remaining(t, s1) == Remaining(t, s) && Outstanding(s1) == Outstanding(s)
            && s1.pending.Some? && s1.pending.value.totals.netPayable >= 0
            && s1.pending.value.totals == PricedAt(t, s, Value(t.items, m.quantities), m.recovery).value
            && s1.approved == s.approved
  {
    hide RetentionOn, Value, MeasuredTotals, Chained, AgreementOk;
    TotalsMean(Revised(t), s.certifiedAmount, t.bps, s.retentionHeld, Outstanding(s), Value(t.items, m.quantities),
               m.recovery, PricedAt(t, s, Value(t.items, m.quantities), m.recovery).value);
  }

  ghost function Then(t: Terms, s: State, m: Move, n: Move): State { Step(t, Step(t, s, m), n) }

  /** A stranded agreement is not closed and has released no retention. */
  lemma StrandedOpen(t: Terms, s: State)
    requires Inv(t, s) && Stranded(t, s)
    ensures !s.status.Closed? && s.retentionReleased == 0
  {
    hide RetentionOn, Value, Chained, AgreementOk, PendingOk;
  }

  /** A stranded agreement stays stranded: no later run closes it, and its retention is never released. */
  lemma {:induction false} StrandedForGood(t: Terms, moves: seq<Move>, more: seq<Move>)
    requires TermsOk(t) && Stranded(t, Run(t, moves))
    ensures var s := Run(t, moves + more);
            Stranded(t, s) && !s.status.Closed? && s.retentionReleased == 0
  {
    hide Inv, Step, Stranded;
    EveryRun(t, moves + more);
    if more == [] {
      assert moves + more == moves;
    } else {
      var front, m := more[..|more| - 1], more[|more| - 1];
      StrandedForGood(t, moves, front);
      assert (moves + more)[..|moves + more| - 1] == moves + front;
      EveryRun(t, moves + front);
      StrandsExactly(t, Run(t, moves + front), m);
    }
    StrandedOpen(t, Run(t, moves + more));
  }

  // --- What can still be closed ------------------------------------------------------------------------------

  /** Six moves that close whatever can be closed: review, reactivate, clear the pending bill, bill the rest
      with the whole outstanding advance, approve, close. */
  ghost function Closing(t: Terms, s: State): seq<Move> {
    [Review(t.author + 1, true), SetStatus(Active),
     Reject(if s.pending.Some? then s.pending.value.createdBy + 1 else 0),
     Submit(Agreed(t.items), if Outstanding(s) >= 0 then Outstanding(s) else 0, 0, 0), Approve(1), SetStatus(Closed)]
  }

  lemma SixSteps(t: Terms, s: State, a: Move, b: Move, c: Move, d: Move, e: Move, f: Move)
    ensures RunFrom(Under(t), s, [a, b, c, d, e, f]) == Then(t, Then(t, Then(t, s, a, b), c, d), e, f)
  {
    hide Step, RunFrom;
    TwoSteps(Under(t), s, a, b);
    OneMore(Under(t), s, [a, b], c);
    OneMore(Under(t), s, [a, b, c], d);
    OneMore(Under(t), s, [a, b, c, d], e);
    OneMore(Under(t), s, [a, b, c, d, e], f);
    assert [a, b] + [c] == [a, b, c] && [a, b, c] + [d] == [a, b, c, d];
    assert [a, b, c, d] + [e] == [a, b, c, d, e] && [a, b, c, d, e] + [f] == [a, b, c, d, e, f];
  }

  /** The first three moves only make the agreement active and clear its pending bill. */
  lemma Opened(t: Terms, s: State)
    requires Inv(t, s) && !s.status.Rejected? && !s.status.Closed?
    ensures var c := Closing(t, s);
            Step(t, Step(t, Step(t, s, c[0]), c[1]), c[2]) == s.(status := Active, pending := None)
  {
    hide RetentionOn, Value, Chained, AgreementOk, MeasuredTotals, MoneyOk;
  }

  /** Billing the rest of the work with the whole outstanding advance leaves nothing open. */
  lemma Cleared(t: Terms, s: State)
    requires Inv(t, s) && s.status.Active? && s.pending.None? && !Stranded(t, s)
    ensures Settled(t, Then(t, s, Submit(Agreed(t.items), Outstanding(s), 0, 0), Approve(1)))
    ensures Then(t, s, Submit(Agreed(t.items), Outstanding(s), 0, 0), Approve(1)).status.Active?
  {
    hide RetentionOn, Value, Chained, AgreementOk, MeasuredTotals;
    var m := Submit(Agreed(t.items), Outstanding(s), 0, 0);
    SubmitExact(t, s, m.quantities, m.recovery, 0, 0);
    if exists i :: 0 <= i < |t.items| && s.certified[i] < t.items[i].quantity {
      var s1 := Step(t, s, m);
      StepKeeps(t, s, m);
      ApproveExact(t, s1, 1);
      MeasuredEnds(t.items, s.certified, m.quantities);
      SubmittedSlack(t, s, m);
      TotalsMean(Revised(t), s.certifiedAmount, t.bps, s.retentionHeld, Outstanding(s), Revised(t), m.recovery,
                 PricedAt(t, s, Revised(t), m.recovery).value);
    } else {
      assert s.certified == Agreed(t.items);
    }
  }

  /** An agreement can still be closed, by whatever moves, exactly when it was not rejected and its advance is
      not stranded. */
  lemma ClosableExactly(t: Terms, moves: seq<Move>)
    requires TermsOk(t)
    ensures (exists more :: Run(t, moves + more).status.Closed?) <==>
            !Run(t, moves).status.Rejected? && !Stranded(t, Run(t, moves))
  {
    hide Inv, Step, Stranded, Settled;
    var s := Run(t, moves);
    EveryRun(t, moves);
    forall more | Run(t, moves + more).status.Closed?
      ensures !s.status.Rejected? && !Stranded(t, s)
    {
      if Stranded(t, s) {
        StrandedForGood(t, moves, more);
      }
      if s.status.Rejected? {
        RejectedForGood(t, moves, more);
      }
    }
    if !s.status.Rejected? && !Stranded(t, s) {
      if s.status.Closed? {
        assert moves + [] == moves;
      } else {
        ClosingCloses(t, s);
        RunTwice(Under(t), Start(t), moves, Closing(t, s));
      }
    }
  }

  lemma ClosingCloses(t: Terms, s: State)
    requires Inv(t, s) && !s.status.Rejected? && !s.status.Closed? && !Stranded(t, s)
    ensures RunFrom(Under(t), s, Closing(t, s)).status.Closed?
  {
    hide RetentionOn, Value, Chained, AgreementOk, MeasuredTotals, Allowed;
    var c := Closing(t, s);
    var open := s.(status := Active, pending := None);
    SixSteps(t, s, c[0], c[1], c[2], c[3], c[4], c[5]);
    Opened(t, s);
    OpenedOk(t, s);
    Cleared(t, open);
    CloseStep(t, Then(t, open, c[3], c[4]));
  }

  lemma OpenedOk(t: Terms, s: State)
    requires Inv(t, s) && !s.status.Closed?
    ensures Inv(t, s.(status := Active, pending := None))
  {
    hide RetentionOn, Value, Chained, AgreementOk;
  }

  lemma CloseStep(t: Terms, s: State)
    requires s.status.Active? && Settled(t, s)
    ensures Step(t, s, SetStatus(Closed)).status.Closed?
  {
  }

  lemma {:induction false} RejectedForGood(t: Terms, moves: seq<Move>, more: seq<Move>)
    requires TermsOk(t) && Run(t, moves).status.Rejected?
    ensures Run(t, moves + more).status.Rejected?
  {
    hide Inv, Step;
    if more == [] {
      assert moves + more == moves;
    } else {
      var front := more[..|more| - 1];
      RejectedForGood(t, moves, front);
      assert (moves + more)[..|moves + more| - 1] == moves + front;
      EveryRun(t, moves + front);
      RejectedStep(t, Run(t, moves + front), more[|more| - 1]);
    }
  }

  lemma RejectedStep(t: Terms, s: State, m: Move)
    requires Inv(t, s) && s.status.Rejected?
    ensures Step(t, s, m).status.Rejected?
  {
    hide RetentionOn, Value, Chained, AgreementOk, MeasuredTotals, MoneyOk;
  }

  /** One item of two units at 100 each, no retention. */
  const TWO_UNITS := Terms([WorkItem(0, 2000, 10000)], 0, 0)

  /** An advance of the whole price, and a first bill for half of the work that recovers none of it. */
  const HALF_UNRECOVERED: seq<Move> := [Review(1, true), Advance(200), Submit([1000], 0, 0, 1), Approve(2)]

  /** It does happen: this agreement can never be closed. */
  lemma StrandingHappens(more: seq<Move>)
    ensures TermsOk(TWO_UNITS) && Stranded(TWO_UNITS, Run(TWO_UNITS, HALF_UNRECOVERED))
    ensures !Run(TWO_UNITS, HALF_UNRECOVERED + more).status.Closed?
  {
    hide Inv, Step, Stranded;
    var t, first := TWO_UNITS, [Review(1, true), Advance(200)];
    TwoUnits();
    EveryRun(t, first);
    HalfStrands(Run(t, first));
    RunTwice(Under(t), Start(t), first, HALF_UNRECOVERED[2..]);
    assert first + HALF_UNRECOVERED[2..] == HALF_UNRECOVERED;
    TwoSteps(Under(t), Run(t, first), HALF_UNRECOVERED[2], HALF_UNRECOVERED[3]);
    StrandedForGood(t, HALF_UNRECOVERED, more);
  }

  lemma TwoUnits()
    ensures TermsOk(TWO_UNITS)
    ensures Run(TWO_UNITS, [Review(1, true), Advance(200)]) == Start(TWO_UNITS).(status := Active, advancePaid := 200)
  {
    var t := TWO_UNITS;
    assert Value(t.items, [2000]) == 200 && Agreed(t.items) == [2000];
    RunTwice(Under(t), Start(t), [], [Review(1, true), Advance(200)]);
    assert [] + [Review(1, true), Advance(200)] == [Review(1, true), Advance(200)];
    TwoSteps(Under(t), Start(t), Review(1, true), Advance(200));
    RoundZero(BPS);
  }

  lemma HalfStrands(s: State)
    requires s == Start(TWO_UNITS).(status := Active, advancePaid := 200) && Inv(TWO_UNITS, s)
    ensures Stranded(TWO_UNITS, Then(TWO_UNITS, s, Submit([1000], 0, 0, 1), Approve(2)))
  {
    var t := TWO_UNITS;
    assert Value(t.items, [2000]) == 200 && Value(t.items, [1000]) == 100 && Agreed(t.items) == [2000];
    RoundZero(BPS);
    assert Progress(t.items, s.certified, [1000]);
    hide Inv, Step, Value, Allowed;
    SubmitExact(t, s, [1000], 0, 0, 1);
    BillStrands(t, s, [1000], 0, 0, 1, 2);
  }

  // --- Path independence -------------------------------------------------------------------------------------

  /** For every item, the current amounts on the approved bills add up to the value of its certified quantity,
      however the work was split into bills. */
  lemma ItemsAddUp(t: Terms, s: State, i: nat)
    requires Inv(t, s) && i < |t.items|
    ensures Sum(s.approved, CurrentOf(i)) == WorkValue(s.certified[i], t.items[i].rate)
  {
    hide WorkValue, Value, RetentionOn, MeasuredTotals;
    ChainAddsUp(t, s.approved, s.certified, i);
  }

  lemma {:induction false} ChainAddsUp(t: Terms, approved: seq<Bill>, certified: seq<nat>, i: nat)
    requires Chained(t, approved, certified) && |certified| == |t.items| && i < |t.items|
    ensures Sum(approved, CurrentOf(i)) == WorkValue(certified[i], t.items[i].rate)
  {
    hide WorkValue, BillOk, Measured;
    if approved == [] {
      NoWork(t.items[i].rate);
    } else {
      var front, b := approved[..|approved| - 1], approved[|approved| - 1];
      LineSays(t, b, i);
      ChainAddsUp(t, front, Before(b.lines), i);
    }
  }

  lemma NoWork(rate: nat)
    ensures WorkValue(0, rate) == 0
  {
    assert 0 * rate == 0;
  }

  lemma LineSays(t: Terms, b: Bill, i: nat)
    requires BillOk(t, b) && i < |t.items|
    ensures |b.lines| == |t.items|
    ensures b.lines[i].current ==
            WorkValue(Quantities(b.lines)[i], t.items[i].rate) - WorkValue(Before(b.lines)[i], t.items[i].rate)
  {
  }

  /** Bill k starts where the bill before ended. */
  lemma {:induction false} ChainAt(t: Terms, approved: seq<Bill>, certified: seq<nat>, k: nat)
    requires Chained(t, approved, certified)
    ensures certified == EndOf(t, approved)
    ensures k < |approved| ==> BillOk(t, approved[k]) && Before(approved[k].lines) == EndOf(t, approved[..k])
  {
    hide BillOk;
    if approved != [] {
      var front, b := approved[..|approved| - 1], approved[|approved| - 1];
      ChainAt(t, front, Before(b.lines), k);
      if k < |front| {
        assert approved[..k] == front[..k];
      }
    }
  }

  /** The lines of every approved bill add up to what it certifies. */
  lemma LinesAddUp(t: Terms, moves: seq<Move>, k: nat)
    requires TermsOk(t) && k < |Run(t, moves).approved|
    ensures var b := Run(t, moves).approved[k];
            && b.totals.current == Sum(b.lines, CURRENT_OF) && |b.lines| == |t.items|
            && Before(b.lines) == EndOf(t, Run(t, moves).approved[..k])
  {
    hide Run;
    EveryRun(t, moves);
    ChainAt(t, Run(t, moves).approved, Run(t, moves).certified, k);
  }

  /** Path independence: the certified amount, the retention held, what every item was billed, and everything
      paid out or recovered depend only on the quantities completed, not on the bills that got there. */
  lemma PathIndependent(t: Terms, moves: seq<Move>, others: seq<Move>, i: nat)
    requires TermsOk(t) && Run(t, moves).certified == Run(t, others).certified && i < |t.items|
    ensures var s, u := Run(t, moves), Run(t, others);
            && |s.certified| == |t.items| && s.certifiedAmount == u.certifiedAmount == Value(t.items, s.certified)
            && s.retentionHeld == u.retentionHeld == RetentionOn(Value(t.items, s.certified), t.bps)
            && Sum(s.approved, CurrentOf(i)) == Sum(u.approved, CurrentOf(i))
            && Sum(s.approved, PAYABLE_OF) + s.advanceRecovered == Sum(u.approved, PAYABLE_OF) + u.advanceRecovered
  {
    hide Value, RetentionOn, Run;
    EveryRun(t, moves);
    EveryRun(t, others);
    ItemsAddUp(t, Run(t, moves), i);
    ItemsAddUp(t, Run(t, others), i);
  }

  // --- The contract row and its bills --------------------------------------------------------------------

  class Contract {
    const terms: Terms
    var status: Status
    var certified: seq<nat>
    var certifiedAmount: int
    var retentionHeld: int
    var retentionReleased: int
    var advancePaid: int
    var advanceRecovered: int
    var pending: Option<Bill>
    var approved: seq<Bill>

    ghost function Now(): State reads this {
      State(status, certified, certifiedAmount, retentionHeld, retentionReleased, advancePaid, advanceRecovered,
            pending, approved)
    }

    ghost predicate Valid() reads this { Inv(terms, Now()) }

    /** `submitWorkContract`: the agreement, once its total has been found acceptable. */
    constructor (terms: Terms)
      requires TermsOk(terms)
      ensures Valid() && this.terms == terms && Now() == Start(terms)
      ensures status == Proposed && certified == seq(|terms.items|, i => 0) && certifiedAmount == 0
      ensures retentionHeld == retentionReleased == advancePaid == advanceRecovered == 0
      ensures pending == None && approved == []
    {
      this.terms := terms;
      status, certified := Proposed, seq(|terms.items|, i => 0);
      certifiedAmount, retentionHeld, retentionReleased, advancePaid, advanceRecovered := 0, 0, 0, 0, 0;
      pending, approved := None, [];
      new;
      StartOk(terms);
    }

    /** `decideWorkContract`: somebody else reviews it, once. */
    method ReviewAgreement(user: nat, approve: bool) returns (r: Result<Status>)
      requires Valid()
      modifies this`status
      ensures Valid()
      ensures r.Ok? <==>
              user != terms.author && (old(status).Proposed? || old(status) == if approve then Active else Rejected)
      ensures status == if r.Ok? && old(status).Proposed? then (if approve then Active else Rejected) else old(status)
    {
      hide Inv;
      if user == terms.author {
        return Err(Conflict);
      }
      var wanted := if approve then Active else Rejected;
      if status == wanted {
        return Ok(status);
      }
      if status != Proposed {
        return Err(Conflict);
      }
      StepKeeps(terms, Now(), Review(user, approve));
      status := wanted;
      r := Ok(status);
    }

    /** The status route: a reviewed agreement is activated, suspended or closed; a closed one stays closed. */
    method ChangeStatus(target: Status) returns (r: Result<Status>)
      requires Valid() && (target.Active? || target.Suspended? || target.Closed?)
      modifies this`status
      ensures Valid()
      ensures r.Ok? <==>
                && !old(status).Proposed? && !old(status).Rejected? && (old(status).Closed? ==> target.Closed?)
                && (target.Closed? ==> (forall i :: 0 <= i < |certified| ==> certified[i] == terms.items[i].quantity)
                                       && certifiedAmount == Revised(terms) && advancePaid == advanceRecovered)
      ensures status == if r.Ok? then target else old(status)
      ensures old(Stranded(terms, Now())) && target.Closed? ==> r.Err?
    {
      hide Inv, RetentionOn, Value;
      if status == Proposed || status == Rejected || (status == Closed && target != Closed) {
        return Err(Conflict);
      }
      InvShape(terms, Now());
      if target == Closed && (certified != Agreed(terms.items) || certifiedAmount != Revised(terms)
                              || advancePaid != advanceRecovered) {
        return Err(Conflict);
      }
      StepKeeps(terms, Now(), SetStatus(target));
      status := target;
      r := Ok(status);
    }

    /** `measureWork`: the lines and the value of the claimed quantities, or a refusal. */
    method MeasureWork(quantities: seq<nat>) returns (r: Result<(seq<Line>, int)>)
      requires Valid()
      ensures r.Ok? <==> Progress(terms.items, certified, quantities)
      ensures r.Ok? ==>
                && r.value.1 == Value(terms.items, quantities) && certifiedAmount <= r.value.1 <= Revised(terms)
                && LinesMean(terms.items, certified, quantities, r.value.0)
                && r.value.0 == Measured(terms.items, certified, quantities)
                && Sum(r.value.0, CURRENT_OF) == r.value.1 - certifiedAmount
    {
      hide Inv, Value, WorkValue, Agreed;
      InvShape(terms, Now());
      var items := terms.items;
      if |quantities| != |items| {
        return Err(BadRequest);
      }
      var lines: seq<Line> := [];
      var cumulative, progress := 0, false;
      assert items[..0] == [] && Value([], []) == 0 by { EmptyValue(); }
      for i := 0 to |items|
        invariant cumulative == Value(items[..i], quantities[..i])
        invariant |lines| == i
        invariant forall j :: 0 <= j < i ==> lines[j] == LineOf(items[j].rate, certified[j], quantities[j])
        invariant forall j :: 0 <= j < i ==> certified[j] <= quantities[j] <= items[j].quantity
        invariant progress <==> exists j :: 0 <= j < i && certified[j] < quantities[j]
      {
        if quantities[i] < certified[i] || quantities[i] > items[i].quantity {
          return Err(BadRequest);
        }
        ValueStep(items, quantities, i);
        cumulative := cumulative + WorkValue(quantities[i], items[i].rate);
        lines := lines + [LineOf(items[i].rate, certified[i], quantities[i])];
        progress := progress || quantities[i] > certified[i];
      }
      assert items[..|items|] == items && quantities[..|items|] == quantities;
      if !progress {
        return Err(BadRequest);
      }
      assert lines == Measured(items, certified, quantities);
      ValueMonotone(items, certified, quantities);
      AgreedMost(items, quantities);
      LinesTotal(items, certified, quantities);
      MeasuredMeans(items, certified, quantities);
      r := Ok((lines, cumulative));
    }

    /** `submitMeasuredBill`: one pending bill at a time. It is refused only for its quantities, for a recovery
        beyond the advance, or for a recovery and deduction beyond what the bill pays. */
    method SubmitBill(quantities: seq<nat>, recovery: nat, deduction: nat, user: nat) returns (r: Result<Bill>)
      requires Valid()
      modifies this`pending
      ensures Valid()
      ensures r.Ok? <==> status.Active? && old(pending).None? && Progress(terms.items, certified, quantities)
                         && recovery <= Outstanding(Now()) && recovery + deduction <= PaysFor(terms, Now(), quantities)
      ensures r.Err? ==> pending == old(pending)
      ensures r.Ok? ==>
                var t := r.value.totals;
                && pending == Some(r.value) && r.value.createdBy == user && r.value.deduction == deduction
                && r.value.lines == Measured(terms.items, certified, quantities)
                && LinesMean(terms.items, certified, quantities, r.value.lines)
                && t.previous == certifiedAmount && t.recovery == recovery
                && t.current == r.value.cumulative - certifiedAmount
                && t.netPayable == PaysFor(terms, Now(), quantities) - recovery
    {
      hide Inv, Value, RetentionOn, MeasuredTotals, Agreed, LinesMean;
      ghost var before := Now();
      SubmitExact(terms, before, quantities, recovery, deduction, user);
      if status != Active {
        return Err(NotFound);
      }
      if pending.Some? {
        return Err(Conflict);
      }
      var measured := MeasureWork(quantities);
      if measured.Err? {
        return Err(measured.error);
      }
      var totals := MeasuredTotals(Revised(terms), certifiedAmount, terms.bps, retentionHeld,
                                   advancePaid - advanceRecovered, measured.value.1, recovery);
      if totals.Err? {
        return Err(totals.error);
      }
      if deduction > totals.value.netPayable {
        return Err(BadRequest);
      }
      StepKeeps(terms, before, Submit(quantities, recovery, deduction, user));
      TotalsMean(Revised(terms), certifiedAmount, terms.bps, retentionHeld, advancePaid - advanceRecovered,
                 measured.value.1, recovery, totals.value);
      InvShape(terms, before);
      var b := Bill(measured.value.0, measured.value.1, totals.value, deduction, user);
      pending := Some(b);
      r := Ok(b);
    }

    /** The approval of a running bill: verified and priced again, then written back to the contract. While the
        agreement is active an independent approval never fails. It strands the advance exactly when the bill
        pays out more than the rest of the work has to spare over the advance. */
    method ApproveBill(user: nat) returns (r: Result<Bill>)
      requires Valid()
      modifies this
      ensures Valid() && advancePaid == old(advancePaid) && status == old(status)
      ensures r.Ok? <==> old(status).Active? && old(pending).Some? && old(pending).value.createdBy != user
      ensures r.Err? ==> unchanged(this)
      ensures r.Ok? ==>
                && Some(r.value) == old(pending) && pending == None && approved == old(approved) + [r.value]
                && certified == Quantities(r.value.lines)
                && certifiedAmount == old(certifiedAmount) + r.value.totals.current == r.value.cumulative
                && retentionHeld == old(retentionHeld) + r.value.totals.retention
                && advanceRecovered == old(advanceRecovered) + r.value.totals.recovery
                && retentionReleased == old(retentionReleased)
      ensures r.Ok? ==>
                (Stranded(terms, Now()) <==>
                   r.value.totals.netPayable > old(Remaining(terms, Now()) - Outstanding(Now())))
      ensures r.Ok? ==>
                |r.value.lines| == |terms.items|
                && (Stranded(terms, Now()) <==>
                      old(Outstanding(Now())) - r.value.totals.recovery
                      > old(Remaining(terms, Now())) - PaysFor(terms, old(Now()), Quantities(r.value.lines)))
    {
      hide Inv, Value, RetentionOn, MeasuredTotals, Agreed;
      ghost var before := Now();
      ApproveExact(terms, before, user);
      if pending == None {
        return Err(NotFound);
      }
      var b := pending.value;
      if b.createdBy == user {
        return Err(Conflict);
      }
      if status != Active {
        return Err(NotFound);
      }
      var verified := VerifyBill(b);
      if !verified {
        return Err(Conflict);
      }
      StepKeeps(terms, before, Approve(user));
      StrandsExactly(terms, before, Approve(user));
      PendingPays(terms, before);
      PendingAdds(terms, before);
      certified := Quantities(b.lines);
      certifiedAmount := b.cumulative;
      retentionHeld := retentionHeld + b.totals.retention;
      advanceRecovered := advanceRecovered + b.totals.recovery;
      approved := approved + [b];
      pending := None;
      r := Ok(b);
    }

    /** `verifyMeasuredBill` and the comparison of the totals. */
    method VerifyBill(b: Bill) returns (ok: bool)
      requires Valid()
      ensures ok <==> Verified(terms, Now(), b)
    {
      hide Inv, Value, RetentionOn, MeasuredTotals, Agreed;
      InvShape(terms, Now());
      if |b.lines| != |terms.items| || Before(b.lines) != certified {
        return false;
      }
      var measured := MeasureWork(Quantities(b.lines));
      if measured.Err? {
        return false;
      }
      if certifiedAmount != b.totals.previous || measured.value.1 != b.cumulative || measured.value.0 != b.lines {
        return false;
      }
      var totals := MeasuredTotals(Revised(terms), certifiedAmount, terms.bps, retentionHeld,
                                   advancePaid - advanceRecovered, b.cumulative, b.totals.recovery);
      ok := totals.Ok? && totals.value.retention == b.totals.retention
          && totals.value.netPayable == b.totals.netPayable;
    }

    method RejectBill(user: nat) returns (r: Result<Bill>)
      requires Valid()
      modifies this`pending
      ensures Valid() && (r.Ok? <==> old(pending).Some? && old(pending).value.createdBy != user)
      ensures pending == if r.Ok? then None else old(pending)
    {
      hide Inv;
      if pending == None {
        return Err(NotFound);
      }
      if pending.value.createdBy == user {
        return Err(Conflict);
      }
      StepKeeps(terms, Now(), Reject(user));
      r := Ok(pending.value);
      pending := None;
    }

    /** Paying an advance: never more than the rest of the work would pay out. */
    method PayAdvance(amount: nat) returns (r: Result<nat>)
      requires Valid()
      modifies this`advancePaid
      ensures Valid()
      ensures r.Ok? <==> status.Active? && amount <= old(Remaining(terms, Now()) - Outstanding(Now()))
      ensures advancePaid == if r.Ok? then old(advancePaid) + amount else old(advancePaid)
      ensures Stranded(terms, Now()) <==> old(Stranded(terms, Now()))
    {
      hide Inv, RetentionOn, Value;
      var future := RetentionOn(Revised(terms), terms.bps) - retentionHeld;
      if status != Active || amount > Revised(terms) - certifiedAmount - future - (advancePaid - advanceRecovered) {
        return Err(Conflict);
      }
      StepKeeps(terms, Now(), Advance(amount));
      StrandsExactly(terms, Now(), Advance(amount));
      advancePaid := advancePaid + amount;
      r := Ok(amount);
    }

    /** Retention is released only from a closed agreement, which a stranded one never is. */
    method ReleaseRetention(amount: nat) returns (r: Result<nat>)
      requires Valid()
      modifies this`retentionReleased
      ensures Valid()
      ensures r.Ok? <==> status.Closed? && amount <= retentionHeld - old(retentionReleased)
      ensures retentionReleased == if r.Ok? then old(retentionReleased) + amount else old(retentionReleased)
      ensures r.Ok? ==> !Stranded(terms, Now())
    {
      hide Inv, RetentionOn, Value;
      if status != Closed || amount > retentionHeld - retentionReleased {
        return Err(Conflict);
      }
      if Stranded(terms, Now()) {
        StrandedOpen(terms, Now());
      }
      StepKeeps(terms, Now(), Release(amount));
      retentionReleased := retentionReleased + amount;
      r := Ok(amount);
    }
  }

  lemma InvShape(t: Terms, s: State)
    requires Inv(t, s)
    ensures |s.certified| == |t.items| && s.certifiedAmount == Value(t.items, s.certified)
    ensures Settled(t, s) ==> !Stranded(t, s)
    ensures s.certified == Agreed(t.items) <==> forall i :: 0 <= i < |t.items| ==> s.certified[i] == t.items[i].quantity
  {
  }

  lemma AgreedMost(items: seq<WorkItem>, done: seq<nat>)
    requires |done| == |items| && forall i :: 0 <= i < |items| ==> done[i] <= items[i].quantity
    ensures Value(items, done) <= Value(items, Agreed(items))
  {
    ValueMonotone(items, done, Agreed(items));
  }

  lemma PendingAdds(t: Terms, s: State)
    requires Inv(t, s) && s.pending.Some?
    ensures s.certifiedAmount + s.pending.value.totals.current == s.pending.value.cumulative
  {
    hide RetentionOn, Value, Chained, MoneyOk, StatusOk, AgreementOk;
  }
}
