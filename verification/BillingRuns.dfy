/** Whole runs of customer billing: any sequence of the atomic steps that the billing transactions are made
    of, by anybody, in any order, with money moved in and out of the accounts elsewhere in between. */
module BillingRuns {
  import opened Outcomes
  import opened Sums
  import opened BillingBooks
  import opened BillingStatement
  import opened BillingService
  import A = AdvanceAllocation
  import opened Rounding

  datatype Move =
    | Issuing(invoice: Invoice)
    | Receiving(payment: Payment)
    | Requesting(adjustment: Adjustment)
    | Allocating(p: nat, i: nat, amount: int)
    | Rejecting(k: nat, who: nat, at: int)
    | Noting(k: nat, who: nat, at: int)
    | Refunding(k: nat, who: nat, at: int)
    | Cancelling(k: nat, who: nat, at: int)
    | Charging(i: nat, asOf: int, at: int)
    | Moving(account: nat, sum: int)

  /** The move is open in b and leads to c. */
  ghost predicate Leads(b: Books, c: Books, m: Move) {
    match m
    case Issuing(v) => Fresh(v) && c == Issue(b, v)
    case Receiving(p) => FreshPayment(b, p) && c == Receive(b, p)
    case Requesting(r) => FreshRequest(b, r) && c == Request(b, r)
    case Allocating(p, i, amount) =>
      CanAllocate(b, p, i, amount) && amount > 0 && c == BillingBooks.Allocate(b, p, i, amount)
    case Rejecting(k, who, at) => CanDecide(b, k, who) && c == Decide(b, k, Rejected(who, at))
    case Noting(k, who, at) => CanNote(b, k, who) && c == Note(b, k, who, at)
    case Refunding(k, who, at) => CanRefund(b, k, who) && c == PayBack(b, k, who, at)
    case Cancelling(k, who, at) => CanCancel(b, k, who) && IsCancellation(b, c, k, who, at)
    case Charging(i, asOf, at) => CanCharge(b, i, asOf) && c == Charge(b, i, asOf, at)
    case Moving(account, sum) => CanMove(b, account, sum) && c == MoveOutside(b, account, sum)
  }

  ghost predicate Opening(b: Books) {
    && b.invoices == [] && b.payments == [] && b.allocations == [] && b.adjustments == []
    && forall a :: 0 <= a < |b.accounts| ==>
         b.accounts[a].balance == b.accounts[a].opening && IsMoney(b.accounts[a].balance)
  }

  ghost predicate IsRun(states: seq<Books>, moves: seq<Move>) {
    && |states| == |moves| + 1 && Opening(states[0])
    && forall n :: 0 <= n < |moves| ==> Leads(states[n], states[n + 1], moves[n])
  }

  lemma MoveKeeps(b: Books, c: Books, m: Move)
    requires Consistent(b) && Leads(b, c, m)
    ensures Consistent(c)
  {
    hide Consistent, Note, PayBack, Charge, IsCancellation, BillingBooks.Allocate, Receive, MoveOutside;
    match m
    case Issuing(v) => IssueKeeps(b, v);
    case Receiving(p) => ReceiveKeeps(b, p);
    case Requesting(r) => RequestKeeps(b, r);
    case Allocating(p, i, amount) => AllocateKeeps(b, p, i, amount);
    case Rejecting(k, who, at) => RejectKeeps(b, k, who, at);
    case Noting(k, who, at) => NoteKeeps(b, k, who, at);
    case Refunding(k, who, at) => PayBackKeeps(b, k, who, at);
    case Cancelling(k, who, at) => CancelKeeps(b, c, k, who, at);
    case Charging(i, asOf, at) => ChargeKeeps(b, i, asOf, at);
    case Moving(account, sum) => MoveOutsideKeeps(b, account, sum);
  }

  lemma OpeningConsistent(b: Books)
    requires Opening(b)
    ensures Consistent(b)
  {
    assert forall a :: 0 <= a < |b.accounts| ==> AccountOk(b, a);
  }

  /** The books of every run are consistent throughout: payments split into what remains, was refunded and is
      allocated, invoices into what their events say, and accounts hold what was collected and not refunded. */
  lemma {:induction false} EveryRun(states: seq<Books>, moves: seq<Move>, n: nat)
    requires IsRun(states, moves) && n <= |moves|
    ensures Consistent(states[n])
  {
    hide Consistent, Leads, Opening;
    if n == 0 {
      OpeningConsistent(states[0]);
    } else {
      EveryRun(states, moves, n - 1);
      MoveKeeps(states[n - 1], states[n], moves[n - 1]);
    }
  }

  /** In every reachable state the statement of every customer, recomputed from the events alone, closes with
      what the customer's invoices still ask less what their payments still hold. */
  lemma StatementAlwaysAgrees(states: seq<Books>, moves: seq<Move>, n: nat, customer: nat)
    requires IsRun(states, moves) && n <= |moves|
    ensures Sum(EntriesOf(states[n], customer), ENTRY_AMOUNT) ==
            Sigma(|states[n].invoices|, DueOf(states[n], customer))
            - Sigma(|states[n].payments|, AdvanceOf(states[n], customer))
  {
    hide Consistent, Leads, Opening;
    EveryRun(states, moves, n);
    ClosingAgrees(states[n], customer);
  }

  // --- The statement is append-only ----------------------------------------------------------------------

  /** Whether e is an entry of customer c's statement, told from the tables. */
  ghost predicate Shows(b: Books, c: nat, e: Entry) {
    match e.source
    case OfInvoice(i) =>
      && i < |b.invoices| && b.invoices[i].customer == c
      && e == Entry(OfInvoice(i), b.invoices[i].invoiceDate, b.invoices[i].total, b.invoices[i].createdAt)
    case OfLateFee(i) =>
      && i < |b.invoices| && b.invoices[i].customer == c && b.invoices[i].lateFeeAt.Some?
      && var at := b.invoices[i].lateFeeAt.value;
         OnDay(e.date, at) && e == Entry(OfLateFee(i), e.date, b.invoices[i].lateFee, at)
    case OfPayment(p) =>
      && p < |b.payments| && b.payments[p].customer == c
      && e == Entry(OfPayment(p), b.payments[p].paymentDate, -b.payments[p].amount, b.payments[p].createdAt)
    case OfAdjustment(k) =>
      && k < |b.adjustments| && b.adjustments[k].customer == c && b.adjustments[k].decision.Approved?
      && var r, at := b.adjustments[k], b.adjustments[k].decision.at;
         OnDay(e.date, at)
         && e == Entry(OfAdjustment(k), e.date,
                       match r.kind
                       case DebitNote => r.amount
                       case Refund => r.amount
                       case _ => -r.amount, at)
  }

  /** The second `at` is one of day d. */
  ghost predicate OnDay(d: int, at: int) { 86400 * d <= at < 86400 * (d + 1) }

  lemma {:induction false} InvoiceEntriesShown(b: Books, c: nat, n: nat, e: Entry)
    requires n <= |b.invoices|
    ensures e in EntriesOfInvoices(b.invoices, c, n) <==>
            (e.source.OfInvoice? || e.source.OfLateFee?) && e.source.row < n && Shows(b, c, e)
  {
    if n > 0 {
      InvoiceEntriesShown(b, c, n - 1, e);
    }
  }

  lemma {:induction false} PaymentEntriesShown(b: Books, c: nat, n: nat, e: Entry)
    requires n <= |b.payments|
    ensures e in EntriesOfPayments(b.payments, c, n) <==> e.source.OfPayment? && e.source.row < n && Shows(b, c, e)
  {
    if n > 0 {
      PaymentEntriesShown(b, c, n - 1, e);
    }
  }

  lemma {:induction false} AdjustmentEntriesShown(b: Books, c: nat, n: nat, e: Entry)
    requires n <= |b.adjustments|
    ensures e in EntriesOfAdjustments(b.adjustments, c, n) <==>
            e.source.OfAdjustment? && e.source.row < n && Shows(b, c, e)
  {
    if n > 0 {
      AdjustmentEntriesShown(b, c, n - 1, e);
    }
  }

  lemma EntriesShown(b: Books, c: nat, e: Entry)
    ensures e in EntriesOf(b, c) <==> Shows(b, c, e)
  {
    hide Shows, EntriesOfInvoices, EntriesOfPayments, EntriesOfAdjustments;
    InvoiceEntriesShown(b, c, |b.invoices|, e);
    PaymentEntriesShown(b, c, |b.payments|, e);
    AdjustmentEntriesShown(b, c, |b.adjustments|, e);
    ShownInTable(b, c, e);
  }

  lemma ShownInTable(b: Books, c: nat, e: Entry)
    ensures Shows(b, c, e) && (e.source.OfInvoice? || e.source.OfLateFee?) ==> e.source.row < |b.invoices|
    ensures Shows(b, c, e) && e.source.OfPayment? ==> e.source.row < |b.payments|
    ensures Shows(b, c, e) && e.source.OfAdjustment? ==> e.source.row < |b.adjustments|
  {
  }

  lemma MoveKeepsEntry(b: Books, c: Books, m: Move, customer: nat, e: Entry)
    requires Leads(b, c, m) && Shows(b, customer, e)
    ensures Shows(c, customer, e)
  {
  }

  /** History is never rewritten: what a statement once showed it shows forever, with the same date and amount,
      whatever is corrected, refunded or cancelled afterwards. */
  lemma {:induction false} EntriesStay(states: seq<Books>, moves: seq<Move>, n: nat, k: nat, customer: nat, e: Entry)
    requires IsRun(states, moves) && n <= k <= |moves| && e in EntriesOf(states[n], customer)
    ensures e in EntriesOf(states[k], customer)
    decreases k
  {
    hide Leads, Opening, Shows, EntriesOf;
    if n < k {
      EntriesStay(states, moves, n, k - 1, customer, e);
      EntriesShown(states[k - 1], customer, e);
      MoveKeepsEntry(states[k - 1], states[k], moves[k - 1], customer, e);
      EntriesShown(states[k], customer, e);
    }
  }

  /** Money moved outside billing changes no statement and no running field. */
  lemma OutsideChangesNoStatement(b: Books, c: Books, account: nat, sum: int, customer: nat)
    requires Leads(b, c, Moving(account, sum))
    ensures EntriesOf(c, customer) == EntriesOf(b, customer)
    ensures c.invoices == b.invoices && c.payments == b.payments && c.allocations == b.allocations
    ensures c.adjustments == b.adjustments
  {
  }

  // --- When a refund is refused for its account ----------------------------------------------------------------

  /** A run in which a refund that the payment allows is refused because the account was emptied elsewhere. */
  const EMPTIED: seq<Move> := [
    Receiving(Payment(0, 0, 100, 100, 0, 0, 0)), Moving(0, -100), Requesting(Adjustment(0, 0, Refund, 100, 1, Pending))]

  ghost function EmptiedStates(): seq<Books> {
    var b := Books([], [], [], [], [Account(0, 0)]);
    var p := Payment(0, 0, 100, 100, 0, 0, 0);
    [b, Receive(b, p), MoveOutside(Receive(b, p), 0, -100),
     Request(MoveOutside(Receive(b, p), 0, -100), Adjustment(0, 0, Refund, 100, 1, Pending))]
  }

  lemma RefundRefused(who: nat)
    requires who != 1
    ensures IsRun(EmptiedStates(), EMPTIED)
    ensures var b := EmptiedStates()[3];
            && CanDecide(b, 0, who) && b.adjustments[0].amount <= b.payments[0].remaining
            && !CanRefund(b, 0, who)
  {
    var s := EmptiedStates();
    assert Leads(s[0], s[1], EMPTIED[0]) && Leads(s[1], s[2], EMPTIED[1]) && Leads(s[2], s[3], EMPTIED[2]);
  }

  // --- The transactions are runs -------------------------------------------------------------------------------

  ghost predicate IsPath(states: seq<Books>, moves: seq<Move>, b: Books, c: Books) {
    && |states| == |moves| + 1 && states[0] == b && states[|moves|] == c
    && forall n :: 0 <= n < |moves| ==> Leads(states[n], states[n + 1], moves[n])
  }

  /** Some sequence of moves leads from b to c. */
  ghost predicate Reaches(b: Books, c: Books) { exists states, moves :: IsPath(states, moves, b, c) }

  lemma ReachesItself(b: Books)
    ensures Reaches(b, b)
  {
    assert IsPath([b], [], b, b);
  }

  lemma ReachesOn(b: Books, c: Books, d: Books, m: Move)
    requires Reaches(b, c) && Leads(c, d, m)
    ensures Reaches(b, d)
  {
    hide Leads;
    var states, moves :| IsPath(states, moves, b, c);
    assert IsPath(states + [d], moves + [m], b, d);
  }

  lemma ReachesOne(b: Books, c: Books, m: Move)
    requires Leads(b, c, m)
    ensures Reaches(b, c)
  {
    ReachesItself(b);
    ReachesOn(b, b, c, m);
  }

  lemma ReachesThrough(b: Books, c: Books, d: Books)
    requires Reaches(b, c) && Reaches(c, d)
    ensures Reaches(b, d)
  {
    var states, moves :| IsPath(states, moves, c, d);
    PathOn(b, c, states, moves, |moves|);
  }

  lemma {:induction false} PathOn(b: Books, c: Books, states: seq<Books>, moves: seq<Move>, n: nat)
    requires Reaches(b, c) && n <= |moves| < |states| && IsPath(states, moves, c, states[|moves|])
    ensures Reaches(b, states[n])
  {
    hide Leads;
    if n > 0 {
      PathOn(b, c, states, moves, n - 1);
      ReachesOn(b, states[n - 1], states[n], moves[n - 1]);
    }
  }

  /** A path keeps the books consistent and every entry of every statement. */
  lemma {:induction false} ReachesKeeps(states: seq<Books>, moves: seq<Move>, b: Books, n: nat, customer: nat, e: Entry)
    requires n <= |moves| < |states| && IsPath(states, moves, b, states[|moves|]) && Consistent(b)
    ensures Consistent(states[n]) && (e in EntriesOf(b, customer) ==> e in EntriesOf(states[n], customer))
  {
    hide Leads, Consistent, EntriesOf, Shows;
    if n > 0 {
      ReachesKeeps(states, moves, b, n - 1, customer, e);
      MoveKeeps(states[n - 1], states[n], moves[n - 1]);
      EntriesShown(states[n - 1], customer, e);
      EntriesShown(states[n], customer, e);
      if Shows(states[n - 1], customer, e) {
        MoveKeepsEntry(states[n - 1], states[n], moves[n - 1], customer, e);
      }
    }
  }

  /** The allocations a collection was asked to make are moves. */
  lemma {:induction false} AllocationsReached(b: Books, customer: nat, p: nat, asked: seq<(nat, int)>)
    requires AllocateAll(b, customer, p, asked).Ok? && forall k :: 0 <= k < |asked| ==> asked[k].1 > 0
    ensures Reaches(b, AllocateAll(b, customer, p, asked).value)
  {
    hide Reaches;
    if asked == [] {
      ReachesItself(b);
    } else {
      var front := asked[..|asked| - 1];
      var (i, amount) := asked[|asked| - 1];
      AllocationsReached(b, customer, p, front);
      var c := AllocateAll(b, customer, p, front).value;
      ReachesOn(b, c, AllocateAll(b, customer, p, asked).value, Allocating(p, i, amount));
    }
  }

  /** Every moment of the nested loops of applyAdvance is reached by allocating. */
  lemma {:induction false} MomentReached(b: Books, customer: nat, ps: seq<nat>, vs: seq<nat>, k: nat,
                                         j: nat) returns (c: Books)
    requires Ready(b, customer, ps, vs) && k < |ps| && j <= |vs|
    ensures Midway(b, c, ps, vs, CreditsOf(b, ps), DuesOf(b, vs), k, j, A.Moved(CreditsOf(b, ps), DuesOf(b, vs), k, j))
    ensures Reaches(b, c)
    decreases k, j
  {
    hide Reaches, Midway, A.Moved, CanAllocate, BillingBooks.Allocate;
    var credit, due := CreditsOf(b, ps), DuesOf(b, vs);
    if j > 0 {
      var before := MomentReached(b, customer, ps, vs, k, j - 1);
      var applied := A.Moved(credit, due, k, j - 1);
      MidwayStep(b, before, customer, ps, vs, credit, due, k, j - 1, applied);
      var x := Min(before.payments[ps[k]].remaining, Outstanding(before.invoices[vs[j - 1]]));
      c := if x > 0 then BillingBooks.Allocate(before, ps[k], vs[j - 1], x) else before;
      if x > 0 {
        ReachesOn(b, before, c, Allocating(ps[k], vs[j - 1], x));
      }
      MovedIs(b, c, ps, vs, credit, due, k, j, applied + x);
    } else if k > 0 {
      c := MomentReached(b, customer, ps, vs, k - 1, |vs|);
      var applied := A.Moved(credit, due, k - 1, |vs|);
      MidwayNext(b, c, ps, vs, credit, due, k - 1, applied);
      MovedIs(b, c, ps, vs, credit, due, k, 0, applied);
    } else {
      c := b;
      MidwayFirst(b, customer, ps, vs);
      ReachesItself(b);
      MovedIs(b, c, ps, vs, credit, due, 0, 0, 0);
    }
  }

  lemma MovedIs(b: Books, c: Books, ps: seq<nat>, vs: seq<nat>, credit: seq<nat>, due: seq<nat>, k: nat, j: nat,
                applied: int)
    requires k < |credit| && j <= |due| && Midway(b, c, ps, vs, credit, due, k, j, applied)
    ensures applied == A.Moved(credit, due, k, j)
  {
    hide A.Moved, A.Left, A.Owed, A.Moves;
  }

  /** The closed form leaves no choice: it determines the books. */
  lemma ClosedFormUnique(b: Books, c: Books, d: Books, ps: seq<nat>, vs: seq<nat>, left: seq<nat>, owed: seq<nat>,
                         moves: seq<A.Move>)
    requires Holding(b, c, ps, vs, left, owed) && Holding(b, d, ps, vs, left, owed)
    requires Recorded(b, c, ps, vs, moves) && Recorded(b, d, ps, vs, moves)
    ensures c == d
  {
    forall p | 0 <= p < |b.payments|
      ensures c.payments[p] == d.payments[p]
    {
      if p in ps {
        var t :| 0 <= t < |ps| && ps[t] == p;
        assert c.payments[ps[t]] == d.payments[ps[t]];
      }
    }
    forall i | 0 <= i < |b.invoices|
      ensures c.invoices[i] == d.invoices[i]
    {
      if i in vs {
        var t :| 0 <= t < |vs| && vs[t] == i;
        assert c.invoices[vs[t]] == d.invoices[vs[t]];
      }
    }
    assert c.payments == d.payments && c.invoices == d.invoices;
  }

  /** Applying advances is a sequence of allocations. */
  lemma AdvanceReached(b: Books, c: Books, customer: nat, ps: seq<nat>, vs: seq<nat>)
    requires AdvanceApplied(b, c, customer, ps, vs)
    ensures Reaches(b, c)
  {
    hide Reaches, OpenRows, Holding, Recorded, A.Moves, A.Left, A.Owed, A.Moved;
    if ps == [] {
      ReachesItself(b);
    } else {
      var credit, due := CreditsOf(b, ps), DuesOf(b, vs);
      var d := MomentReached(b, customer, ps, vs, |ps| - 1, |vs|);
      ClosedFormUnique(b, c, d, ps, vs, A.Left(credit, due, |ps| - 1, |vs|), A.Owed(credit, due, |ps| - 1, |vs|),
                       A.Moves(credit, due, |ps| - 1, |vs|));
    }
  }

  /** Charging late fees is a sequence of charges, however far it gets. */
  lemma {:induction false} FeesReached(b: Books, c: Books, n: nat, asOf: int, now: int)
    requires Consistent(b) && n <= |b.invoices| && FeesThrough(b, c, n, asOf, now)
    ensures Reaches(b, c) && Consistent(c)
    decreases n
  {
    hide Reaches, Consistent;
    if n == 0 {
      assert c.invoices == b.invoices;
      ReachesItself(b);
    } else {
      var before := c.(invoices := c.invoices[n - 1 := b.invoices[n - 1]]);
      FeesReached(b, before, n - 1, asOf, now);
      FeeStep(b, before, n - 1, asOf, now);
      if CanCharge(before, n - 1, asOf) {
        assert c == Charge(before, n - 1, asOf, now);
        ReachesOn(b, before, c, Charging(n - 1, asOf, now));
        ChargeKeeps(before, n - 1, asOf, now);
      } else {
        assert c.invoices == before.invoices;
      }
    }
  }

  /** Issuing an invoice with automatic advances is a run. */
  lemma InvoiceIsRun(b: Books, c: Books, v: Invoice, ps: seq<nat>, vs: seq<nat>, applied: int, advance: int)
    requires Fresh(v) && AdvanceResult(Issue(b, v), c, v.customer, ps, vs, applied, advance)
    ensures Reaches(b, c)
  {
    hide Reaches, AdvanceApplied;
    ReachesOne(b, Issue(b, v), Issuing(v));
    AdvanceReached(Issue(b, v), c, v.customer, ps, vs);
    ReachesThrough(b, Issue(b, v), c);
  }

  /** A collection is a run, whether it allocates as asked or oldest first. */
  lemma CollectionIsRun(b: Books, c: Books, p: Payment, asked: Option<seq<(nat, int)>>, ps: seq<nat>, vs: seq<nat>,
                        applied: int, advance: int)
    requires FreshPayment(b, p)
    requires match asked
             case Some(wanted) =>
               && (forall k :: 0 <= k < |wanted| ==> wanted[k].1 > 0)
               && AllocateAll(Receive(b, p), p.customer, |b.payments|, wanted) == Ok(c)
             case None => AdvanceResult(Receive(b, p), c, p.customer, ps, vs, applied, advance)
    ensures Reaches(b, c)
  {
    hide Reaches, AdvanceApplied, AllocateAll;
    ReachesOne(b, Receive(b, p), Receiving(p));
    if asked.Some? {
      AllocationsReached(Receive(b, p), p.customer, |b.payments|, asked.value);
    } else {
      AdvanceReached(Receive(b, p), c, p.customer, ps, vs);
    }
    ReachesThrough(b, Receive(b, p), c);
  }
}
