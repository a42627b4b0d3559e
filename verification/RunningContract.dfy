/** A contract billed without items, over its whole life: running bills rounded one by one, change orders,
    advances, retention and status (construction.policy.ts, construction.service.ts and construction.routes.ts).
    Each transaction is one move. */
module RunningContract {
  import opened Outcomes
  import opened Rounding
  import opened Sums
  import opened Runs
  import opened MeasuredBilling

  datatype Status = Active | Suspended | Closed

  datatype Decision = Pending | Approved | Rejected

  /** What is agreed at first; `bps` never changes. */
  datatype Terms = Terms(amount: nat, bps: nat)

  /** A bill as submitted: the certified amount it asks for, what it was priced at, and a wastage deduction. */
  datatype Bill = Bill(cumulative: int, totals: Totals, deduction: nat, createdBy: nat, decision: Decision)

  datatype State = State(
    status: Status, revised: int, certified: int, held: int, released: int, paid: int, recovered: int,
    bills: seq<Bill>)

  datatype Move =
    | SetStatus(target: Status)
    | Submit(cumulative: int, recovery: nat, deduction: nat, user: nat)
    | Approve(k: nat, user: nat)
    | Reject(k: nat, user: nat)
    | Revise(change: int)
    | Advance(amount: nat)
    | Release(amount: nat)

  ghost predicate TermsOk(t: Terms) { 0 < t.amount <= MAX_MONEY && t.bps <= BPS }

  ghost function Outstanding(s: State): int { s.paid - s.recovered }

  /** What is left to certify. */
  ghost function Rest(s: State): int { s.revised - s.certified }

  ghost function PricedAt(t: Terms, s: State, cumulative: int, recovery: int): Result<Totals> {
    RunningBill(s.revised, s.certified, t.bps, Outstanding(s), cumulative, recovery)
  }

  ghost predicate Decidable(s: State, k: nat, user: nat) {
    k < |s.bills| && s.bills[k].decision.Pending? && s.bills[k].createdBy != user
  }

  /** Nothing was certified meanwhile and the bill still comes to what it said. */
  ghost predicate Verified(t: Terms, s: State, b: Bill) {
    && b.totals.previous == s.certified
    && var totals := PricedAt(t, s, b.cumulative, b.totals.recovery);
       totals.Ok? && totals.value.retention == b.totals.retention && totals.value.netPayable == b.totals.netPayable
  }

  ghost predicate Allowed(t: Terms, s: State, m: Move) {
    match m
    case SetStatus(target) => target.Closed? ==> s.certified == s.revised && s.paid == s.recovered
    case Submit(cumulative, recovery, deduction, user) =>
      && s.status.Active?
      && var totals := PricedAt(t, s, cumulative, recovery);
         totals.Ok? && deduction <= totals.value.netPayable
    case Approve(k, user) => Decidable(s, k, user) && s.status.Active? && Verified(t, s, s.bills[k])
    case Reject(k, user) => Decidable(s, k, user)
    case Revise(change) =>
      s.status.Active? && change != 0 && IsMoney(s.revised + change) && s.revised + change >= Max(s.certified, s.paid)
    case Advance(amount) => s.status.Active? && amount <= Rest(s) - Outstanding(s)
    case Release(amount) => s.status.Closed? && amount <= s.held - s.released
  }

  ghost function Moved(t: Terms, s: State, m: Move): State
    requires Allowed(t, s, m)
  {
    match m
    case SetStatus(target) => s.(status := target)
    case Submit(cumulative, recovery, deduction, user) =>
      s.(bills := s.bills
                  + [Bill(cumulative, PricedAt(t, s, cumulative, recovery).value, deduction, user, Pending)])
    case Approve(k, user) =>
      var b := s.bills[k];
      s.(certified := b.cumulative, held := s.held + b.totals.retention, recovered := s.recovered + b.totals.recovery,
         bills := s.bills[k := b.(decision := Approved)])
    case Reject(k, user) => s.(bills := s.bills[k := s.bills[k].(decision := Rejected)])
    case Revise(change) => s.(revised := s.revised + change)
    case Advance(amount) => s.(paid := s.paid + amount)
    case Release(amount) => s.(released := s.released + amount)
  }

  ghost function Step(t: Terms, s: State, m: Move): State {
    if Allowed(t, s, m) then Moved(t, s, m) else s
  }

  ghost function Under(t: Terms): (State, Move) -> State { (s, m) => Step(t, s, m) }

  ghost function Start(t: Terms): State { State(Active, t.amount, 0, 0, 0, 0, 0, []) }

  ghost function Run(t: Terms, moves: seq<Move>): State { RunFrom(Under(t), Start(t), moves) }

  // --- What every move keeps -------------------------------------------------------------------------

  ghost const PAYABLE_OF: Bill -> int := (b: Bill) => if b.decision.Approved? then b.totals.netPayable else 0

  ghost predicate MoneyOk(s: State) {
    && 0 <= s.certified <= s.revised <= MAX_MONEY && 0 <= s.recovered <= s.paid <= s.revised
    && 0 <= s.released <= s.held && s.recovered + s.held <= s.certified
    && Sum(s.bills, PAYABLE_OF) + s.held + s.recovered == s.certified
    && (s.status.Closed? ==> s.certified == s.revised && s.paid == s.recovered)
  }

  /** What a bill says about itself, and that it is priced against nothing later than what is certified. */
  ghost predicate BillOk(t: Terms, s: State, b: Bill) {
    var c := b.totals;
    && 0 <= c.previous <= s.certified && c.current == b.cumulative - c.previous > 0
    && c.retention == RetentionOn(c.current, t.bps) && c.recovery >= 0
    && c.netPayable == c.current - c.retention - c.recovery && b.deduction <= c.netPayable && IsMoney(c.retention)
    && c.netPayable <= MAX_MONEY && (b.decision.Pending? && c.previous == s.certified ==> c.recovery <= Outstanding(s))
  }

  ghost predicate Inv(t: Terms, s: State) {
    TermsOk(t) && MoneyOk(s) && forall k :: 0 <= k < |s.bills| ==> BillOk(t, s, s.bills[k])
  }

  lemma StartOk(t: Terms)
    requires TermsOk(t)
    ensures Inv(t, Start(t))
  {
  }

  lemma SubmitKeeps(t: Terms, s: State, m: Move)
    requires Inv(t, s) && m.Submit? && Allowed(t, s, m)
    ensures Inv(t, Moved(t, s, m))
  {
    hide RetentionOn, Sum;
    var b := Moved(t, s, m).bills[|s.bills|];
    SumAppend(s.bills, b, PAYABLE_OF);
  }

  lemma ApproveKeeps(t: Terms, s: State, m: Move)
    requires Inv(t, s) && m.Approve? && Allowed(t, s, m)
    ensures Inv(t, Moved(t, s, m))
  {
    hide RetentionOn, Sum;
    var b := s.bills[m.k];
    assert BillOk(t, s, b);
    SumUpdate(s.bills, m.k, b.(decision := Approved), PAYABLE_OF);
  }

  lemma RejectKeeps(t: Terms, s: State, m: Move)
    requires Inv(t, s) && m.Reject? && Allowed(t, s, m)
    ensures Inv(t, Moved(t, s, m))
  {
    hide RetentionOn, Sum;
    var b := s.bills[m.k];
    assert BillOk(t, s, b);
    SumUpdate(s.bills, m.k, b.(decision := Rejected), PAYABLE_OF);
  }

  lemma StepKeeps(t: Terms, s: State, m: Move)
    requires Inv(t, s)
    ensures Inv(t, Step(t, s, m))
  {
    hide RetentionOn, RunningBill, Sum;
    if Allowed(t, s, m) {
      match m
      case Submit(_, _, _, _) => SubmitKeeps(t, s, m);
      case Approve(_, _) => ApproveKeeps(t, s, m);
      case Reject(_, _) => RejectKeeps(t, s, m);
      case _ =>
    }
  }

  /** In every reachable state the net payables of the approved bills, the retention and what was recovered make
      up the certified amount, which stays within the price. */
  lemma {:induction false} EveryRun(t: Terms, moves: seq<Move>)
    requires TermsOk(t)
    ensures var s := Run(t, moves);
            && Inv(t, s) && 0 <= s.certified <= s.revised
            && Sum(s.bills, PAYABLE_OF) + s.held + s.recovered == s.certified
  {
    hide Inv, Step, Sum;
    if moves == [] {
      StartOk(t);
    } else {
      EveryRun(t, moves[..|moves| - 1]);
      StepKeeps(t, Run(t, moves[..|moves| - 1]), moves[|moves| - 1]);
    }
    Within(t, Run(t, moves));
  }

  // --- When a bill is accepted ---------------------------------------------------------------------------

  /** What a bill for an amount pays before any recovery. */
  ghost function Payout(bps: nat, amount: int): int { amount - RetentionOn(amount, bps) }

  /** A bill is accepted exactly for more certified work within the contract, a recovery within the advance,
      and a recovery and deduction within what it pays. */
  lemma SubmitExact(t: Terms, s: State, cumulative: int, recovery: nat, deduction: nat, user: nat)
    requires Inv(t, s)
    ensures Allowed(t, s, Submit(cumulative, recovery, deduction, user)) <==>
            && s.status.Active? && s.certified < cumulative <= s.revised && recovery <= Outstanding(s)
            && recovery + deduction <= Payout(t.bps, cumulative - s.certified)
  {
    if s.certified < cumulative <= s.revised {
      ScaleWithin(cumulative - s.certified, t.bps, BPS);
    }
  }

  /** A pending bill is approved by somebody else exactly while nothing else was certified and no change order
      took its work away. */
  lemma ApproveExact(t: Terms, s: State, k: nat, user: nat)
    requires Inv(t, s)
    ensures Allowed(t, s, Approve(k, user)) <==>
            && k < |s.bills| && s.bills[k].decision.Pending? && s.bills[k].createdBy != user
            && s.status.Active? && s.bills[k].totals.previous == s.certified
            && s.bills[k].cumulative <= s.revised
  {
    hide RetentionOn, Sum;
    if k < |s.bills| {
      assert BillOk(t, s, s.bills[k]);
    }
  }

  // --- How much advance a rest of work can recover --------------------------------------------------------

  /** The least bill that pays anything out. */
  ghost function First(bps: nat): nat
    requires bps < BPS
  {
    BPS / (2 * (BPS - bps)) + 1
  }

  lemma PayoutNearest(bps: nat, amount: int)
    ensures var p := Payout(bps, amount);
            2 * BPS * p - BPS < 2 * (amount * (BPS - bps)) <= 2 * BPS * p + BPS
  {
    RoundNearest(amount * bps, BPS, RetentionOn(amount, bps));
    assert amount * (BPS - bps) == amount * BPS - amount * bps;
  }

  lemma FirstNearest(bps: nat)
    requires bps < BPS
    ensures 2 * ((First(bps) - 1) * (BPS - bps)) <= BPS < 2 * (First(bps) * (BPS - bps))
  {
    var q := BPS - bps;
    QuotientUnique(BPS, 2 * q, BPS / (2 * q));
    assert First(bps) * q == (First(bps) - 1) * q + q;
    assert (2 * q) * (First(bps) - 1) == 2 * ((First(bps) - 1) * q);
  }

  /** A bill of this size pays one out, and no smaller bill pays anything. */
  lemma FirstPays(bps: nat, amount: nat)
    requires bps < BPS
    ensures First(bps) >= 1 && Payout(bps, First(bps)) == 1
    ensures amount < First(bps) ==> Payout(bps, amount) == 0
  {
    assert First(bps) >= 1;
    hide Payout, First;
    var q, f := BPS - bps, First(bps);
    FirstNearest(bps);
    PayoutNearest(bps, f);
    PayoutNearest(bps, amount);
    assert f * q == (f - 1) * q + q;
    if amount < f {
      MulOrder(amount, f - 1, q);
      MulOrder(0, amount, q);
    }
  }

  lemma PaysLate(bps: nat, amount: nat)
    requires bps < BPS && 2 * (BPS - bps) <= BPS && Payout(bps, amount) >= 1
    ensures Payout(bps, amount) * First(bps) <= amount
  {
    hide Payout, First;
    FirstNearest(bps);
    PayoutNearest(bps, amount);
    if amount < Payout(bps, amount) * First(bps) {
      TooSmall(BPS - bps, First(bps), Payout(bps, amount), amount);
    }
  }

  /** Less than p bills of size f are worth less than p, if a bill smaller than f is worth no more than a half. */
  lemma TooSmall(q: nat, f: int, p: nat, amount: nat)
    requires 2 * q <= BPS && 2 * ((f - 1) * q) <= BPS && p >= 1 && amount < p * f
    ensures 2 * (amount * q) <= 2 * BPS * p - BPS
  {
    MulOrder(amount, p * f - 1, q);
    Spread(p, f - 1, q);
    MulOrder(2 * q, BPS, p - 1);
    MulOrder(2 * ((f - 1) * q), BPS, p);
  }

  lemma Spread(p: int, g: int, q: int)
    ensures q * (p * (g + 1) - 1) == p * (g * q) + (p - 1) * q
  {
    assert p * (g + 1) - 1 == p * g + (p - 1);
    assert q * (p * g) == p * (g * q);
  }

  lemma FirstIsOne(bps: nat)
    requires 2 * bps < BPS
    ensures First(bps) == 1
  {
    assert 2 * (BPS - bps) > BPS;
  }

  /** No bill pays out more than one for every `First(bps)` of its amount, whatever the rounding does. */
  lemma PayoutBound(bps: nat, amount: nat)
    requires bps < BPS
    ensures Payout(bps, amount) * First(bps) <= amount
  {
    hide RetentionOn, First;
    PaysAtMostAll(bps, amount);
    if 2 * bps < BPS {
      FirstIsOne(bps);
    } else if Payout(bps, amount) >= 1 {
      PaysLate(bps, amount);
    } else {
      FirstPays(bps, amount);
      MulOrder(Payout(bps, amount), 0, First(bps));
    }
  }

  lemma PaysAtMostAll(bps: nat, amount: nat)
    requires bps <= BPS
    ensures 0 <= Payout(bps, amount) <= amount
  {
    ScaleWithin(amount, bps, BPS);
  }

  /** At full retention nothing is ever paid out. */
  lemma NothingPaid(amount: int)
    ensures Payout(BPS, amount) == 0
  {
    RoundWhole(amount, BPS);
  }

  /** The advance can still be recovered from this much work. */
  ghost predicate Recoverable(t: Terms, s: State, room: int) {
    Outstanding(s) == 0 || (t.bps < BPS && Outstanding(s) * First(t.bps) <= room)
  }

  ghost predicate IsRevision(m: Move) { m.Revise? }

  ghost predicate Unrevised(moves: seq<Move>) { forall i :: 0 <= i < |moves| ==> !IsRevision(moves[i]) }

  /** Work billed is used up faster than the advance it recovers. */
  lemma StaysLost(t: Terms, s: State, m: Move, ceiling: int)
    requires Inv(t, s) && s.revised <= ceiling && !Recoverable(t, s, ceiling - s.certified)
    ensures var u := Step(t, s, m); !Recoverable(t, u, ceiling - u.certified)
  {
    hide RetentionOn, Sum, First;
    if Allowed(t, s, m) {
      if m.Approve? {
        var b := s.bills[m.k];
        assert BillOk(t, s, b);
        if t.bps < BPS {
          PayoutBound(t.bps, b.totals.current);
          MulOrder(b.totals.recovery, Payout(t.bps, b.totals.current), First(t.bps));
          MulAdds(Outstanding(s) - b.totals.recovery, b.totals.recovery, First(t.bps));
        } else {
          NothingPaid(b.totals.current);
        }
      } else if m.Advance? && t.bps < BPS {
        MulOrder(Outstanding(s), Outstanding(s) + m.amount, First(t.bps));
      }
    }
  }

  lemma LostIsOpen(t: Terms, s: State, room: int)
    requires Inv(t, s) && !Recoverable(t, s, room)
    ensures !s.status.Closed?
  {
  }

  lemma {:induction false} LostForGood(t: Terms, s: State, more: seq<Move>, ceiling: int)
    requires Inv(t, s) && s.revised <= ceiling && !Recoverable(t, s, ceiling - s.certified)
    requires ceiling == MAX_MONEY || (ceiling == s.revised && Unrevised(more))
    ensures var u := RunFrom(Under(t), s, more);
            && Inv(t, u) && (ceiling == MAX_MONEY || u.revised == s.revised)
            && !Recoverable(t, u, ceiling - u.certified) && !u.status.Closed?
  {
    hide Inv, Step, Recoverable;
    if more == [] {
      LostIsOpen(t, s, ceiling - s.certified);
    } else {
      var front, m := more[..|more| - 1], more[|more| - 1];
      LostForGood(t, s, front, ceiling);
      var u := RunFrom(Under(t), s, front);
      assert ceiling != MAX_MONEY ==> !IsRevision(more[|more| - 1]);
      Within(t, u);
      StaysLost(t, u, m, ceiling);
      StepKeeps(t, u, m);
      OnlyRevisions(t, u, m);
      LostIsOpen(t, Step(t, u, m), ceiling - Step(t, u, m).certified);
    }
  }

  lemma Within(t: Terms, s: State)
    requires Inv(t, s)
    ensures 0 <= s.certified <= s.revised <= MAX_MONEY && 0 <= Outstanding(s)
    ensures Sum(s.bills, PAYABLE_OF) + s.held + s.recovered == s.certified
  {
  }

  lemma OnlyRevisions(t: Terms, s: State, m: Move)
    ensures !m.Revise? ==> Step(t, s, m).revised == s.revised
  {
  }

  // --- What can still be closed ------------------------------------------------------------------------------

  /** Recovers the advance one by one, from the least bills that pay anything, and then bills the rest. */
  lemma {:induction false} Closes(t: Terms, s: State) returns (more: seq<Move>)
    requires Inv(t, s) && s.status.Active? && Recoverable(t, s, Rest(s))
    ensures RunFrom(Under(t), s, more).status.Closed? && Unrevised(more)
    decreases Outstanding(s), Rest(s)
  {
    hide Inv, Step, First, Payout, RunFrom, RunningBill;
    Within(t, s);
    if Outstanding(s) == 0 && Rest(s) == 0 {
      CloseStep(t, s);
      return [SetStatus(Closed)];
    }
    var amount, recovery := Rest(s), 0;
    if Outstanding(s) > 0 {
      FirstPays(t.bps, 0);
      Split(Outstanding(s), First(t.bps));
      amount, recovery := First(t.bps), 1;
    } else {
      Unpaid(t, s);
    }
    var m, n := Submit(s.certified + amount, recovery, 0, 0), Approve(|s.bills|, 1);
    var s1 := Step(t, s, m);
    SubmitExact(t, s, m.cumulative, recovery, 0, 0);
    StepKeeps(t, s, m);
    Submitted(t, s, m);
    ApproveExact(t, s1, |s.bills|, 1);
    StepKeeps(t, s1, n);
    Billed(t, s1, n);
    TwoSteps(Under(t), s, m, n);
    more := Closes(t, Step(t, s1, n));
    RunTwice(Under(t), s, [m, n], more);
    more := [m, n] + more;
  }

  /** What an accepted bill and its approval change. */
  lemma Submitted(t: Terms, s: State, m: Move)
    requires m.Submit? && Allowed(t, s, m)
    ensures var u := Step(t, s, m);
            && u == s.(bills := u.bills) && |u.bills| == |s.bills| + 1
            && var b := u.bills[|s.bills|];
               && b.decision.Pending? && b.createdBy == m.user && b.cumulative == m.cumulative
               && b.totals.previous == s.certified && b.totals.recovery == m.recovery
  {
    hide RetentionOn;
  }

  lemma Billed(t: Terms, s: State, m: Move)
    requires m.Approve? && Allowed(t, s, m)
    ensures var u := Step(t, s, m);
            && u.status == s.status && u.certified == s.bills[m.k].cumulative && u.revised == s.revised
            && u.paid == s.paid && u.recovered == s.recovered + s.bills[m.k].totals.recovery
  {
    hide RetentionOn;
  }

  lemma Split(n: int, f: int)
    requires n >= 1 && f >= 0
    ensures n * f == (n - 1) * f + f && (n - 1) * f >= 0
  {
    MulOrder(0, n - 1, f);
  }

  lemma Unpaid(t: Terms, s: State)
    requires Inv(t, s)
    ensures 0 <= Payout(t.bps, Rest(s))
  {
    ScaleWithin(Rest(s), t.bps, BPS);
  }

  lemma CloseStep(t: Terms, s: State)
    requires s.certified == s.revised && s.paid == s.recovered
    ensures RunFrom(Under(t), s, [SetStatus(Closed)]).status.Closed?
  {
    OneMore(Under(t), s, [], SetStatus(Closed));
    assert [] + [SetStatus(Closed)] == [SetStatus(Closed)];
  }

  /** Without a change order, a contract can still be closed exactly when nothing of the advance is outstanding,
      or the rest of the work is at least the least paying bill for each unit that is. */
  lemma ClosableExactly(t: Terms, moves: seq<Move>)
    requires TermsOk(t)
    ensures (exists more :: Unrevised(more) && Run(t, moves + more).status.Closed?) <==>
            Recoverable(t, Run(t, moves), Rest(Run(t, moves)))
  {
    hide Inv, Step, Recoverable, RunFrom;
    var s := Run(t, moves);
    EveryRun(t, moves);
    Within(t, s);
    forall more | Unrevised(more) && Run(t, moves + more).status.Closed?
      ensures Recoverable(t, s, Rest(s))
    {
      RunTwice(Under(t), Start(t), moves, more);
      if !Recoverable(t, s, Rest(s)) {
        LostForGood(t, s, more, s.revised);
      }
    }
    if Recoverable(t, s, Rest(s)) {
      var more := Reopened(t, moves, 0);
      assert Unrevised(more);
    }
  }

  /** Reactivates a contract, changes its price when asked to, and closes it. */
  lemma Reopened(t: Terms, moves: seq<Move>, change: nat) returns (more: seq<Move>)
    requires TermsOk(t)
    requires var s := Run(t, moves); s.revised + change <= MAX_MONEY && Recoverable(t, s, Rest(s) + change)
    ensures Run(t, moves + more).status.Closed? && (change == 0 ==> Unrevised(more))
  {
    var s := Run(t, moves);
    EveryRun(t, moves);
    var first := if change == 0 then [SetStatus(Active)] else [SetStatus(Active), Revise(change)];
    var open := RunFrom(Under(t), s, first);
    OneMore(Under(t), s, [], SetStatus(Active));
    assert [] + [SetStatus(Active)] == [SetStatus(Active)];
    TwoSteps(Under(t), s, SetStatus(Active), Revise(change));
    assert open == s.(status := Active, revised := s.revised + change);
    StepKeeps(t, s, SetStatus(Active));
    StepKeeps(t, Step(t, s, SetStatus(Active)), Revise(change));
    hide Inv, Step, RunFrom;
    var rest := Closes(t, open);
    RunTwice(Under(t), s, first, rest);
    RunTwice(Under(t), Start(t), moves, first + rest);
    more := first + rest;
  }

  /** With change orders, it can exactly when the contract can still grow far enough. */
  lemma ClosableByRevision(t: Terms, moves: seq<Move>)
    requires TermsOk(t)
    ensures (exists more :: Run(t, moves + more).status.Closed?) <==>
            Recoverable(t, Run(t, moves), MAX_MONEY - Run(t, moves).certified)
  {
    hide Inv, Step, Recoverable, RunFrom;
    var s := Run(t, moves);
    EveryRun(t, moves);
    Within(t, s);
    forall more | Run(t, moves + more).status.Closed?
      ensures Recoverable(t, s, MAX_MONEY - s.certified)
    {
      RunTwice(Under(t), Start(t), moves, more);
      if !Recoverable(t, s, MAX_MONEY - s.certified) {
        LostForGood(t, s, more, MAX_MONEY);
      }
    }
    if Recoverable(t, s, MAX_MONEY - s.certified) {
      var more := Reopened(t, moves, MAX_MONEY - s.revised);
    }
  }

  /** Below a retention of one half, no advance that is accepted is ever out of reach when it is paid: bills of
      one unit each hold nothing back. */
  lemma AdvanceReachable(t: Terms, s: State, amount: nat)
    requires Inv(t, s) && 2 * t.bps < BPS && Allowed(t, s, Advance(amount))
    ensures var u := Step(t, s, Advance(amount)); Recoverable(t, u, Rest(u))
  {
    hide First;
    FirstIsOne(t.bps);
  }

  /** At one half or more it can be: an advance of the whole price is accepted and, unless the price grows,
      never recovered. */
  lemma WholeAdvanceLost(t: Terms, more: seq<Move>)
    requires TermsOk(t) && 2 * t.bps >= BPS && Unrevised(more)
    ensures var s := Run(t, [Advance(t.amount)]);
            s.paid == t.amount && !RunFrom(Under(t), s, more).status.Closed?
  {
    var s := Run(t, [Advance(t.amount)]);
    EveryRun(t, [Advance(t.amount)]);
    OneMore(Under(t), Start(t), [], Advance(t.amount));
    assert [] + [Advance(t.amount)] == [Advance(t.amount)];
    if t.bps < BPS {
      FirstNearest(t.bps);
      if First(t.bps) <= 1 {
        MulOrder(First(t.bps), 1, BPS - t.bps);
      }
      MulOrder(2, First(t.bps), t.amount);
    }
    LostForGood(t, s, more, s.revised);
  }

  // --- The contract row and its bills --------------------------------------------------------------------

  class Contract {
    const terms: Terms
    var status: Status
    var revised: int
    var certified: int
    var held: int
    var released: int
    var paid: int
    var recovered: int
    var bills: seq<Bill>

    ghost function Now(): State reads this { State(status, revised, certified, held, released, paid, recovered, bills) }

    ghost predicate Valid() reads this { Inv(terms, Now()) }

    constructor (terms: Terms)
      requires TermsOk(terms)
      ensures Valid() && this.terms == terms && Now() == Start(terms)
      ensures status == Active && revised == terms.amount && certified == held == released == paid == recovered == 0
      ensures bills == []
    {
      this.terms := terms;
      status, revised, certified, held, released, paid, recovered, bills := Active, terms.amount, 0, 0, 0, 0, 0, [];
      new;
      StartOk(terms);
    }

    /** The status route. A contract without items may be reopened. */
    method ChangeStatus(target: Status) returns (r: Result<Status>)
      requires Valid()
      modifies this`status
      ensures Valid()
      ensures r.Ok? <==> (target.Closed? ==> certified == revised && paid == recovered)
      ensures status == if r.Ok? then target else old(status)
    {
      hide Inv;
      if target == Closed && (certified != revised || paid != recovered) {
        return Err(Conflict);
      }
      StepKeeps(terms, Now(), SetStatus(target));
      status := target;
      r := Ok(status);
    }

    /** A running bill: any number may wait for a decision. */
    method SubmitBill(cumulative: int, recovery: nat, deduction: nat, user: nat) returns (r: Result<nat>)
      requires Valid()
      modifies this`bills
      ensures Valid()
      ensures r.Ok? <==> status.Active? && certified < cumulative <= revised && recovery <= paid - recovered
                         && recovery + deduction <= Payout(terms.bps, cumulative - certified)
      ensures r.Err? ==> bills == old(bills)
      ensures r.Ok? ==>
                && r.value == |old(bills)| && |bills| == r.value + 1 && bills[..r.value] == old(bills)
                && var b := bills[r.value];
                   && b.decision.Pending? && b.createdBy == user && b.cumulative == cumulative
                   && b.deduction == deduction && b.totals.previous == certified && b.totals.recovery == recovery
                   && b.totals.netPayable + recovery == Payout(terms.bps, cumulative - certified)
    {
      hide Inv, RetentionOn;
      SubmitExact(terms, Now(), cumulative, recovery, deduction, user);
      if status != Active {
        return Err(NotFound);
      }
      var totals := RunningBill(revised, certified, terms.bps, paid - recovered, cumulative, recovery);
      if totals.Err? {
        return Err(totals.error);
      }
      if deduction > totals.value.netPayable {
        return Err(BadRequest);
      }
      StepKeeps(terms, Now(), Submit(cumulative, recovery, deduction, user));
      r := Ok(|bills|);
      bills := bills + [Bill(cumulative, totals.value, deduction, user, Pending)];
    }

    /** The decision on a bill. Repeating it changes nothing. Approving it leaves the advance recoverable
        exactly when the work after it is enough for what it leaves outstanding. */
    method DecideBill(k: nat, user: nat, approve: bool) returns (r: Result<Bill>)
      requires Valid()
      modifies this
      ensures Valid() && paid == old(paid) && status == old(status) && revised == old(revised)
      ensures released == old(released)
      ensures r.Ok? <==>
                && k < |old(bills)|
                && (old(bills)[k].decision == (if approve then Approved else Rejected)
                    || (old(bills)[k].decision.Pending? && old(bills)[k].createdBy != user
                        && (approve ==> status.Active? && old(bills)[k].totals.previous == old(certified)
                                        && old(bills)[k].cumulative <= revised)))
      ensures r.Err? || !old(bills)[k].decision.Pending? ==> unchanged(this)
      ensures r.Ok? && old(bills)[k].decision.Pending? ==>
                var b := old(bills)[k];
                && bills == old(bills)[k := b.(decision := if approve then Approved else Rejected)]
                && certified == (if approve then b.cumulative else old(certified))
                && held == old(held) + (if approve then b.totals.retention else 0)
                && recovered == old(recovered) + (if approve then b.totals.recovery else 0)
      ensures r.Ok? && old(bills)[k].decision.Pending? && approve && terms.bps < BPS ==>
                var b := old(bills)[k];
                Recoverable(terms, Now(), Rest(Now())) <==>
                  || b.totals.recovery == old(paid - recovered)
                  || (old(paid - recovered) - b.totals.recovery) * First(terms.bps) <= revised - b.cumulative
    {
      hide Inv, RetentionOn, First;
      ApproveExact(terms, Now(), k, user);
      if k >= |bills| {
        return Err(NotFound);
      }
      var b := bills[k];
      if b.decision != Pending {
        return if b.decision == (if approve then Approved else Rejected) then Ok(b) else Err(Conflict);
      }
      if b.createdBy == user {
        return Err(Conflict);
      }
      if !approve {
        StepKeeps(terms, Now(), Reject(k, user));
        bills := bills[k := b.(decision := Rejected)];
        return Ok(bills[k]);
      }
      if status != Active {
        return Err(NotFound);
      }
      if b.totals.previous != certified {
        return Err(Conflict);
      }
      var totals := RunningBill(revised, certified, terms.bps, paid - recovered, b.cumulative, b.totals.recovery);
      if totals.Err? {
        return Err(totals.error);
      }
      if totals.value.retention != b.totals.retention || totals.value.netPayable != b.totals.netPayable {
        return Err(Conflict);
      }
      StepKeeps(terms, Now(), Approve(k, user));
      certified, held, recovered := b.cumulative, held + b.totals.retention, recovered + b.totals.recovery;
      bills := bills[k := b.(decision := Approved)];
      r := Ok(bills[k]);
    }

    /** The approval of a change order that somebody else asked for. */
    method ApproveChange(change: int) returns (r: Result<int>)
      requires Valid() && change != 0
      modifies this`revised
      ensures Valid()
      ensures r.Ok? <==> status.Active? && IsMoney(old(revised) + change)
                         && certified <= old(revised) + change && paid <= old(revised) + change
      ensures revised == if r.Ok? then old(revised) + change else old(revised)
    {
      hide Inv;
      if status != Active {
        return Err(NotFound);
      }
      if !IsMoney(revised + change) {
        return Err(BadRequest);
      }
      if revised + change < Max(certified, paid) {
        return Err(Conflict);
      }
      StepKeeps(terms, Now(), Revise(change));
      revised := revised + change;
      r := Ok(revised);
    }

    /** Paying an advance. Below a retention of one half it can always be recovered. */
    method PayAdvance(amount: nat) returns (r: Result<nat>)
      requires Valid()
      modifies this`paid
      ensures Valid()
      ensures r.Ok? <==> status.Active? && amount <= revised - certified - (old(paid) - recovered)
      ensures paid == if r.Ok? then old(paid) + amount else old(paid)
      ensures r.Ok? && 2 * terms.bps < BPS ==> Recoverable(terms, Now(), Rest(Now()))
    {
      hide Inv;
      if status != Active || amount > revised - certified - (paid - recovered) {
        return Err(Conflict);
      }
      if 2 * terms.bps < BPS {
        AdvanceReachable(terms, Now(), amount);
      }
      StepKeeps(terms, Now(), Advance(amount));
      paid := paid + amount;
      r := Ok(amount);
    }

    method ReleaseRetention(amount: nat) returns (r: Result<nat>)
      requires Valid()
      modifies this`released
      ensures Valid()
      ensures r.Ok? <==> status.Closed? && amount <= held - old(released)
      ensures released == if r.Ok? then old(released) + amount else old(released)
    {
      hide Inv;
      if status != Closed || amount > held - released {
        return Err(Conflict);
      }
      StepKeeps(terms, Now(), Release(amount));
      released := released + amount;
      r := Ok(amount);
    }
  }
}
