/** The transactions of billing.service.ts over its tables. Each keeps the books consistent, and a
    transaction that fails leaves them exactly as they were. */
module BillingService {
  import opened Outcomes
  import opened Rounding
  import opened Sums
  import opened BillingBooks
  import A = AdvanceAllocation

  /** Rows in date order, ties by id. */
  ghost predicate InOrder(ids: seq<nat>, dates: seq<int>) {
    && (forall k :: 0 <= k < |ids| ==> ids[k] < |dates|)
    && forall x, y :: 0 <= x < y < |ids| ==> Precedes(ids[x], ids[y], dates)
  }

  ghost predicate Precedes(r: nat, s: nat, dates: seq<int>)
    requires r < |dates| && s < |dates|
  {
    dates[r] < dates[s] || (dates[r] == dates[s] && r < s)
  }

  function InsertByDate(ids: seq<nat>, r: nat, dates: seq<int>): (out: seq<nat>)
    requires r < |dates| && forall k :: 0 <= k < |ids| ==> ids[k] < |dates|
    ensures forall k :: 0 <= k < |out| ==> out[k] == r || out[k] in ids
  {
    if ids == [] || dates[ids[|ids| - 1]] <= dates[r] then ids + [r]
    else InsertByDate(ids[..|ids| - 1], r, dates) + [ids[|ids| - 1]]
  }

  lemma {:induction false} InsertMembers(ids: seq<nat>, r: nat, dates: seq<int>)
    requires r < |dates| && forall k :: 0 <= k < |ids| ==> ids[k] < |dates|
    ensures forall s: nat :: s in InsertByDate(ids, r, dates) <==> s in ids || s == r
  {
    if ids != [] {
      InsertMembers(ids[..|ids| - 1], r, dates);
      assert ids == ids[..|ids| - 1] + [ids[|ids| - 1]];
    }
  }

  lemma {:induction false} InsertKeepsOrder(ids: seq<nat>, r: nat, dates: seq<int>)
    requires InOrder(ids, dates) && r < |dates| && forall k :: 0 <= k < |ids| ==> ids[k] < r
    ensures InOrder(InsertByDate(ids, r, dates), dates)
  {
    if ids == [] {
    } else if dates[ids[|ids| - 1]] <= dates[r] {
      forall x | 0 <= x < |ids|
        ensures Precedes(ids[x], r, dates)
      {
        assert x < |ids| - 1 ==> Precedes(ids[x], ids[|ids| - 1], dates);
      }
    } else {
      var front, last := ids[..|ids| - 1], ids[|ids| - 1];
      InsertKeepsOrder(front, r, dates);
      var ins := InsertByDate(front, r, dates);
      forall x | 0 <= x < |ins|
        ensures Precedes(ins[x], last, dates)
      {
        if ins[x] != r {
          var k :| 0 <= k < |front| && front[k] == ins[x];
          assert Precedes(ids[k], ids[|ids| - 1], dates);
        }
      }
    }
  }

  /** The wanted rows among the first n, ordered by date and id: a query with an orderBy clause. */
  function OrderByDate(dates: seq<int>, wanted: seq<bool>, n: nat): (out: seq<nat>)
    requires |wanted| == |dates| && n <= |dates|
    ensures forall k :: 0 <= k < |out| ==> out[k] < n
  {
    if n == 0 then []
    else if wanted[n - 1] then InsertByDate(OrderByDate(dates, wanted, n - 1), n - 1, dates)
    else OrderByDate(dates, wanted, n - 1)
  }

  lemma {:induction false} OrderedMembers(dates: seq<int>, wanted: seq<bool>, n: nat)
    requires |wanted| == |dates| && n <= |dates|
    ensures forall r: nat :: r in OrderByDate(dates, wanted, n) <==> r < n && wanted[r]
  {
    hide InsertByDate;
    if n > 0 {
      OrderedMembers(dates, wanted, n - 1);
      if wanted[n - 1] {
        InsertMembers(OrderByDate(dates, wanted, n - 1), n - 1, dates);
      }
    }
  }

  lemma {:induction false} OrderByDateOk(dates: seq<int>, wanted: seq<bool>, n: nat)
    requires |wanted| == |dates| && n <= |dates|
    ensures InOrder(OrderByDate(dates, wanted, n), dates)
    ensures forall r: nat :: r in OrderByDate(dates, wanted, n) <==> r < n && wanted[r]
  {
    hide InsertByDate, InOrder;
    OrderedMembers(dates, wanted, n);
    if n > 0 {
      OrderByDateOk(dates, wanted, n - 1);
      if wanted[n - 1] {
        InsertKeepsOrder(OrderByDate(dates, wanted, n - 1), n - 1, dates);
      }
    } else {
      NoneInOrder(dates);
    }
  }

  lemma NoneInOrder(dates: seq<int>)
    ensures InOrder([], dates)
  {
  }

  /** The rows that the moves of an allocation write. */
  function Rows(moves: seq<A.Move>, ps: seq<nat>, vs: seq<nat>): seq<Allocation>
    requires forall m :: 0 <= m < |moves| ==> moves[m].payment < |ps| && moves[m].invoice < |vs|
  {
    seq(|moves|,
        m requires 0 <= m < |moves| => Allocation(vs[moves[m].invoice], ps[moves[m].payment], moves[m].amount, false))
  }

  /** Payment p was made before payment q, or on the same day and entered first. */
  ghost predicate PaidBefore(b: Books, p: nat, q: nat)
    requires p < |b.payments| && q < |b.payments|
  {
    var x, y := b.payments[p].paymentDate, b.payments[q].paymentDate;
    x < y || (x == y && p < q)
  }

  /** Invoice i is due before invoice j, or on the same day and entered first. */
  ghost predicate DueBefore(b: Books, i: nat, j: nat)
    requires i < |b.invoices| && j < |b.invoices|
  {
    var x, y := b.invoices[i].dueDate, b.invoices[j].dueDate;
    x < y || (x == y && i < j)
  }

  /** The open payments ps by the day they were made, and the issued invoices vs of a customer by the day they
      are due. */
  ghost predicate OpenRows(b: Books, customer: nat, ps: seq<nat>, vs: seq<nat>) {
    && (forall k :: 0 <= k < |ps| ==> ps[k] < |b.payments|) && (forall k :: 0 <= k < |vs| ==> vs[k] < |b.invoices|)
    && (forall x, y :: 0 <= x < y < |ps| ==> PaidBefore(b, ps[x], ps[y]))
    && (forall x, y :: 0 <= x < y < |vs| ==> DueBefore(b, vs[x], vs[y]))
    && (forall p: nat :: p in ps <==>
         p < |b.payments| && b.payments[p].customer == customer && b.payments[p].remaining > 0)
    && (forall i: nat :: i in vs <==>
         i < |b.invoices| && b.invoices[i].customer == customer && b.invoices[i].status.Issued?)
  }

  function PaymentDates(payments: seq<Payment>): seq<int> {
    seq(|payments|, p requires 0 <= p < |payments| => payments[p].paymentDate)
  }

  function DueDates(invoices: seq<Invoice>): seq<int> {
    seq(|invoices|, i requires 0 <= i < |invoices| => invoices[i].dueDate)
  }

  function OpenPayments(payments: seq<Payment>, customer: nat): seq<bool> {
    seq(|payments|, p requires 0 <= p < |payments| => payments[p].customer == customer && payments[p].remaining > 0)
  }

  function OpenInvoices(invoices: seq<Invoice>, customer: nat): seq<bool> {
    seq(|invoices|, i requires 0 <= i < |invoices| => invoices[i].customer == customer && invoices[i].status == Issued)
  }

  ghost function CreditsOf(b: Books, ps: seq<nat>): seq<nat>
    requires forall k :: 0 <= k < |ps| ==> ps[k] < |b.payments|
  {
    seq(|ps|, k requires 0 <= k < |ps| => Max(0, b.payments[ps[k]].remaining))
  }

  ghost function DuesOf(b: Books, vs: seq<nat>): seq<nat>
    requires forall j :: 0 <= j < |vs| ==> vs[j] < |b.invoices|
  {
    seq(|vs|, j requires 0 <= j < |vs| => Max(0, Outstanding(b.invoices[vs[j]])))
  }

  /** c is b, except that the payments ps hold `left` and the invoices vs still ask `owed`. */
  ghost predicate Holding(b: Books, c: Books, ps: seq<nat>, vs: seq<nat>, left: seq<nat>, owed: seq<nat>) {
    && c.adjustments == b.adjustments && c.accounts == b.accounts
    && |c.payments| == |b.payments| && |c.invoices| == |b.invoices| && |left| == |ps| && |owed| == |vs|
    && (forall p :: 0 <= p < |b.payments| && p !in ps ==> c.payments[p] == b.payments[p])
    && (forall i :: 0 <= i < |b.invoices| && i !in vs ==> c.invoices[i] == b.invoices[i])
    && (forall t :: 0 <= t < |ps| ==>
          ps[t] < |b.payments| && c.payments[ps[t]] == b.payments[ps[t]].(remaining := left[t]))
    && (forall t :: 0 <= t < |vs| ==>
          && vs[t] < |b.invoices|
          && c.invoices[vs[t]] == b.invoices[vs[t]].(paid := NetTotal(b.invoices[vs[t]]) - owed[t]))
  }

  /** c is b once payments before k, and payment k up to invoice j, have been offered around. */
  ghost predicate Offered(b: Books, c: Books, ps: seq<nat>, vs: seq<nat>, credit: seq<nat>, due: seq<nat>, k: nat,
                          j: nat)
    requires k < |credit| && j <= |due|
  {
    Holding(b, c, ps, vs, A.Left(credit, due, k, j), A.Owed(credit, due, k, j))
  }

  /** The allocations written for that. */
  ghost predicate Recorded(b: Books, c: Books, ps: seq<nat>, vs: seq<nat>, moves: seq<A.Move>) {
    && (forall m :: 0 <= m < |moves| ==> moves[m].payment < |ps| && moves[m].invoice < |vs|)
    && c.allocations == b.allocations + Rows(moves, ps, vs)
  }

  /** What a whole application of advances does. */
  ghost predicate AdvanceApplied(b: Books, c: Books, customer: nat, ps: seq<nat>, vs: seq<nat>) {
    && OpenRows(b, customer, ps, vs) && Ready(b, customer, ps, vs)
    && if ps == [] then c == b else
         var credit, due := CreditsOf(b, ps), DuesOf(b, vs);
         && Offered(b, c, ps, vs, credit, due, |ps| - 1, |vs|)
         && Recorded(b, c, ps, vs, A.Moves(credit, due, |ps| - 1, |vs|))
  }

  ghost predicate Distinct(ids: seq<nat>) {
    forall x, y :: 0 <= x < y < |ids| ==> ids[x] != ids[y]
  }

  ghost predicate Ready(b: Books, customer: nat, ps: seq<nat>, vs: seq<nat>) {
    && Distinct(ps) && Distinct(vs)
    && (forall t :: 0 <= t < |ps| ==>
          ps[t] < |b.payments| && b.payments[ps[t]].customer == customer && b.payments[ps[t]].remaining >= 0)
    && (forall t :: 0 <= t < |vs| ==>
          && vs[t] < |b.invoices| && b.invoices[vs[t]].customer == customer && b.invoices[vs[t]].status.Issued?
          && Outstanding(b.invoices[vs[t]]) >= 0)
  }

  lemma OpenRowsReady(b: Books, customer: nat, ps: seq<nat>, vs: seq<nat>)
    requires Consistent(b) && OpenRows(b, customer, ps, vs)
    ensures Ready(b, customer, ps, vs)
  {
    assert forall t :: 0 <= t < |ps| ==> ps[t] in ps;
    forall t | 0 <= t < |vs|
      ensures vs[t] in vs && Outstanding(b.invoices[vs[t]]) >= 0
    {
      assert vs[t] in vs;
      assert InvoiceOk(b, vs[t]);
    }
    assert forall x, y :: 0 <= x < y < |ps| ==> PaidBefore(b, ps[x], ps[y]) ==> ps[x] != ps[y];
    assert forall x, y :: 0 <= x < y < |vs| ==> DueBefore(b, vs[x], vs[y]) ==> vs[x] != vs[y];
  }

  /** Where applyAdvance stands: the books, the rows written and the amount moved so far. */
  ghost predicate Midway(b: Books, c: Books, ps: seq<nat>, vs: seq<nat>, credit: seq<nat>, due: seq<nat>,
                         k: nat, j: nat, applied: int)
    requires k < |credit| && j <= |due|
  {
    && Offered(b, c, ps, vs, credit, due, k, j)
    && Recorded(b, c, ps, vs, A.Moves(credit, due, k, j))
    && applied == A.Moved(credit, due, k, j)
  }

  lemma MidwayFirst(b: Books, customer: nat, ps: seq<nat>, vs: seq<nat>)
    requires Ready(b, customer, ps, vs) && ps != []
    ensures Midway(b, b, ps, vs, CreditsOf(b, ps), DuesOf(b, vs), 0, 0, 0)
  {
    hide A.Moved, A.Left, A.Owed;
    A.FirstLists(CreditsOf(b, ps), DuesOf(b, vs));
    A.MovedAtEnds(CreditsOf(b, ps), DuesOf(b, vs), 0, 0);
    assert b.allocations == b.allocations + Rows([], ps, vs);
  }

  lemma MidwayNext(b: Books, c: Books, ps: seq<nat>, vs: seq<nat>, credit: seq<nat>, due: seq<nat>, k: nat,
                   applied: int)
    requires k + 1 < |credit| && Midway(b, c, ps, vs, credit, due, k, |due|, applied)
    ensures Midway(b, c, ps, vs, credit, due, k + 1, 0, applied)
  {
    A.NextLists(credit, due, k);
    A.NextPayment(credit, due, k);
  }

  /** Allocating x from payment ps[k] to invoice vs[j] moves x out of both lists. */
  lemma HoldingStep(b: Books, c: Books, customer: nat, ps: seq<nat>, vs: seq<nat>, left: seq<nat>, owed: seq<nat>,
                    k: nat, j: nat, x: nat)
    requires Ready(b, customer, ps, vs) && Holding(b, c, ps, vs, left, owed)
    requires k < |ps| && j < |vs| && x <= left[k] && x <= owed[j]
    ensures Outstanding(c.invoices[vs[j]]) == owed[j] && c.payments[ps[k]].remaining == left[k]
    ensures CanAllocate(c, ps[k], vs[j], x)
    ensures Holding(b, BillingBooks.Allocate(c, ps[k], vs[j], x), ps, vs, left[k := left[k] - x],
                    owed[j := owed[j] - x])
  {
    assert ps[k] in ps && vs[j] in vs;
  }

  lemma RecordedStep(b: Books, c: Books, ps: seq<nat>, vs: seq<nat>, moves: seq<A.Move>, k: nat, j: nat, x: nat)
    requires Recorded(b, c, ps, vs, moves) && k < |ps| && j < |vs| && CanAllocate(c, ps[k], vs[j], x)
    ensures Recorded(b, BillingBooks.Allocate(c, ps[k], vs[j], x), ps, vs, moves + [A.Move(k, j, x)])
  {
    assert Rows(moves + [A.Move(k, j, x)], ps, vs) == Rows(moves, ps, vs) + [Allocation(vs[j], ps[k], x, false)];
  }

  /** One turn of the inner loop: the smaller of what is left on either side moves across. */
  lemma MidwayStep(b: Books, c: Books, customer: nat, ps: seq<nat>, vs: seq<nat>, credit: seq<nat>, due: seq<nat>,
                   k: nat, j: nat, applied: int)
    requires Ready(b, customer, ps, vs) && k < |ps| == |credit| && j < |vs| == |due|
    requires Midway(b, c, ps, vs, credit, due, k, j, applied)
    ensures ps[k] < |c.payments| && vs[j] < |c.invoices|
    ensures var x := Min(c.payments[ps[k]].remaining, Outstanding(c.invoices[vs[j]]));
            && x >= 0 && CanAllocate(c, ps[k], vs[j], x)
            && var d := if x > 0 then BillingBooks.Allocate(c, ps[k], vs[j], x) else c;
               Midway(b, d, ps, vs, credit, due, k, j + 1, applied + x)
  {
    var left, owed, x := A.Left(credit, due, k, j), A.Owed(credit, due, k, j), A.Overlap(credit, due, k, j);
    A.Turn(credit, due, k, j);
    A.TurnLists(credit, due, k, j);
    HoldingStep(b, c, customer, ps, vs, left, owed, k, j, x);
    if x > 0 {
      RecordedStep(b, c, ps, vs, A.Moves(credit, due, k, j), k, j, x);
    } else {
      assert left[k := left[k] - x] == left && owed[j := owed[j] - x] == owed;
    }
  }

  /** The outcome of applyAdvance: everything that could be moved has been. */
  ghost predicate AdvanceResult(b: Books, c: Books, customer: nat, ps: seq<nat>, vs: seq<nat>, applied: int,
                                advance: int) {
    && AdvanceApplied(b, c, customer, ps, vs)
    && applied == Min(Prefix(CreditsOf(b, ps), |ps|), Prefix(DuesOf(b, vs), |vs|))
    && applied + advance == Prefix(CreditsOf(b, ps), |ps|)
    && |c.allocations| <= |b.allocations| + |ps| + |vs|
  }

  lemma AdvanceNothing(b: Books, customer: nat, vs: seq<nat>)
    requires OpenRows(b, customer, [], vs) && Ready(b, customer, [], vs)
    ensures AdvanceResult(b, b, customer, [], vs, 0, 0)
  {
    PrefixOrder(DuesOf(b, vs), 0, |vs|);
  }

  lemma AdvanceDone(b: Books, c: Books, customer: nat, ps: seq<nat>, vs: seq<nat>, applied: int, advance: int)
    requires OpenRows(b, customer, ps, vs) && Ready(b, customer, ps, vs) && ps != []
    requires Midway(b, c, ps, vs, CreditsOf(b, ps), DuesOf(b, vs), |ps| - 1, |vs|, applied)
    requires advance == Max(0, Prefix(CreditsOf(b, ps), |ps|) - Prefix(DuesOf(b, vs), |vs|))
    ensures AdvanceResult(b, c, customer, ps, vs, applied, advance)
  {
    hide Holding, OpenRows, A.Moves, A.Left, A.Owed;
    A.MovesBound(CreditsOf(b, ps), DuesOf(b, vs));
  }

  lemma PaymentAfter(b: Books, c: Books, customer: nat, ps: seq<nat>, vs: seq<nat>, k: nat)
    requires AdvanceApplied(b, c, customer, ps, vs) && k < |ps|
    ensures c.payments[ps[k]].remaining == A.CreditLeft(CreditsOf(b, ps), DuesOf(b, vs), k, |vs|)
  {
    hide OpenRows, Recorded, A.Moves, A.CreditLeft, A.DueLeft;
    var credit, due := CreditsOf(b, ps), DuesOf(b, vs);
    assert A.Left(credit, due, |ps| - 1, |vs|)[k] == A.CreditLeft(credit, due, k, |vs|);
  }

  /** What payment ps[k] holds and invoice vs[j] asks once advances have been applied. */
  lemma AfterAdvance(b: Books, c: Books, customer: nat, ps: seq<nat>, vs: seq<nat>, k: nat, j: nat)
    requires AdvanceApplied(b, c, customer, ps, vs) && k < |ps| && j < |vs|
    ensures c.payments[ps[k]].remaining == A.CreditLeft(CreditsOf(b, ps), DuesOf(b, vs), k, |vs|)
    ensures Outstanding(c.invoices[vs[j]]) == A.DueLeft(CreditsOf(b, ps), DuesOf(b, vs), |ps|, j)
  {
    hide OpenRows, Recorded, A.Moves, A.CreditLeft, A.DueLeft;
    var credit, due := CreditsOf(b, ps), DuesOf(b, vs);
    PaymentAfter(b, c, customer, ps, vs, k);
    assert A.Owed(credit, due, |ps| - 1, |vs|)[j] == A.DueLeft(credit, due, |ps|, j);
  }

  /** Once advances have been applied, a customer never holds credit and owes money at once. (In consistent
      books no payment starts below zero.) */
  lemma AdvanceExhausts(b: Books, c: Books, customer: nat, ps: seq<nat>, vs: seq<nat>, p: nat, i: nat)
    requires AdvanceApplied(b, c, customer, ps, vs)
    requires p < |b.payments| == |c.payments| && c.payments[p].customer == customer && b.payments[p].remaining >= 0
    requires i < |c.invoices| && c.invoices[i].customer == customer
    ensures c.payments[p].remaining == 0 || Outstanding(c.invoices[i]) == 0
  {
    hide A.Left, A.Owed, A.Moves;
    if p in ps && i in vs {
      var k :| 0 <= k < |ps| && ps[k] == p;
      var j :| 0 <= j < |vs| && vs[j] == i;
      A.NeverBoth(CreditsOf(b, ps), DuesOf(b, vs), k, j);
      AfterAdvance(b, c, customer, ps, vs, k, j);
    }
  }

  /** Money reaches an invoice only if every open invoice that is due before it ends up settled. */
  lemma AdvanceOldestFirst(b: Books, c: Books, customer: nat, ps: seq<nat>, vs: seq<nat>, i: nat, j: nat)
    requires AdvanceApplied(b, c, customer, ps, vs)
    requires i < |b.invoices| && b.invoices[i].customer == customer && b.invoices[i].status.Issued?
    requires j < |b.invoices| == |c.invoices| && DueBefore(b, i, j)
    requires c.invoices[j].paid > b.invoices[j].paid
    ensures Outstanding(c.invoices[i]) == 0
  {
    hide A.Left, A.Owed, A.Moves;
    assert i in vs && j in vs;
    var x :| 0 <= x < |vs| && vs[x] == i;
    var y :| 0 <= y < |vs| && vs[y] == j;
    assert y < x ==> DueBefore(b, j, i);
    AfterAdvance(b, c, customer, ps, vs, 0, y);
    AfterAdvance(b, c, customer, ps, vs, 0, x);
    A.OldestFirst(CreditsOf(b, ps), DuesOf(b, vs), 0, y);
  }

  /** A payment is drawn on only if every open payment made before it ends up used up. */
  lemma AdvanceOldestPayment(b: Books, c: Books, customer: nat, ps: seq<nat>, vs: seq<nat>, p: nat, q: nat)
    requires AdvanceApplied(b, c, customer, ps, vs)
    requires p < |b.payments| && b.payments[p].customer == customer && b.payments[p].remaining > 0
    requires q < |b.payments| == |c.payments| && PaidBefore(b, p, q)
    requires c.payments[q].remaining < b.payments[q].remaining
    ensures c.payments[p].remaining == 0
  {
    hide A.Left, A.Owed, A.Moves;
    assert p in ps && q in ps;
    var x :| 0 <= x < |ps| && ps[x] == p;
    var y :| 0 <= y < |ps| && ps[y] == q;
    assert y < x ==> PaidBefore(b, q, p);
    var credit, due := CreditsOf(b, ps), DuesOf(b, vs);
    PaymentAfter(b, c, customer, ps, vs, x);
    PaymentAfter(b, c, customer, ps, vs, y);
    if vs == [] {
      PrefixOrder(credit, y, y + 1);
    } else {
      A.OldestFirst(credit, due, y, 0);
    }
  }

  /** The allocations a collection was asked to make, one after the other. */
  ghost function AllocateAll(b: Books, customer: nat, p: nat, wanted: seq<(nat, int)>): Result<Books> {
    if wanted == [] then Ok(b) else
      match AllocateAll(b, customer, p, wanted[..|wanted| - 1])
      case Err(e) => Err(e)
      case Ok(c) =>
        var (i, amount) := wanted[|wanted| - 1];
        if i >= |c.invoices| || c.invoices[i].customer != customer then Err(NotFound)
        else if !CanAllocate(c, p, i, amount) then Err(Conflict)
        else Ok(BillingBooks.Allocate(c, p, i, amount))
  }

  /** Why a collection by an active customer is refused, if it is. */
  ghost function Refusal(b: Books, p: Payment, asked: Option<seq<(nat, int)>>): Option<Error> {
    if p.account >= |b.accounts| then Some(NotFound)
    else if !IsMoney(b.accounts[p.account].balance + p.amount) then Some(BadRequest)
    else if asked.None? then None
    else if !NoRepeats(asked.value) || Sum(asked.value, AMOUNT_ASKED) > p.amount then Some(BadRequest)
    else
      var all := AllocateAll(Receive(b, p), p.customer, |b.payments|, asked.value);
      if all.Err? then Some(all.error) else None
  }

  ghost const AMOUNT_ASKED: ((nat, int)) -> int := (one: (nat, int)) => one.1

  function Wanted(wanted: seq<(nat, int)>): (total: int)
    ensures total == Sum(wanted, AMOUNT_ASKED)
  {
    if wanted == [] then 0 else Wanted(wanted[..|wanted| - 1]) + wanted[|wanted| - 1].1
  }

  lemma {:induction false} AllocateAllFails(b: Books, customer: nat, p: nat, wanted: seq<(nat, int)>, k: nat)
    requires k <= |wanted| && AllocateAll(b, customer, p, wanted[..k]).Err?
    ensures AllocateAll(b, customer, p, wanted) == AllocateAll(b, customer, p, wanted[..k])
    decreases |wanted| - k
  {
    if k < |wanted| {
      assert wanted[..k + 1][..k] == wanted[..k];
      AllocateAllFails(b, customer, p, wanted, k + 1);
    } else {
      assert wanted[..k] == wanted;
    }
  }

  ghost predicate NoRepeats(wanted: seq<(nat, int)>) {
    forall x, y :: 0 <= x < y < |wanted| ==> wanted[x].0 != wanted[y].0
  }

  /** What a collection or an adjustment request asks for, apart from its request key. */
  datatype CollectAsk = CollectAsk(customer: nat, account: nat, amount: int, date: int, asked: Option<seq<(nat, int)>>)

  datatype AdjustAsk = AdjustAsk(customer: nat, target: nat, kind: Kind, amount: int)

  class Service {
    /** Customers by id, and whether they are active. */
    var customers: map<nat, bool>
    /** What each request key was used for, and the row it made. */
    var collected: map<nat, (CollectAsk, nat)>
    var requested: map<nat, (AdjustAsk, nat)>
    var invoices: seq<Invoice>
    var payments: seq<Payment>
    var allocations: seq<Allocation>
    var adjustments: seq<Adjustment>
    var accounts: seq<Account>

    ghost function Books(): Books reads this {
      BillingBooks.Books(invoices, payments, allocations, adjustments, accounts)
    }

    ghost predicate Valid() reads this {
      Consistent(Books())
    }

    constructor (customers: map<nat, bool>, accounts: seq<Account>)
      requires forall k :: 0 <= k < |accounts| ==>
                 accounts[k].balance == accounts[k].opening && IsMoney(accounts[k].opening)
      ensures Valid() && Books() == BillingBooks.Books([], [], [], [], accounts) && this.customers == customers
    {
      this.customers, this.accounts := customers, accounts;
      collected, requested := map[], map[];
      invoices, payments, allocations, adjustments := [], [], [], [];
    }

    /** `allocate`: one payment, one invoice. */
    method Allocate(p: nat, i: nat, amount: int) returns (ok: bool)
      requires Valid() && amount > 0 && p < |payments| && i < |invoices|
      modifies this`invoices, this`payments, this`allocations, this`adjustments, this`accounts
      ensures Valid() && ok == CanAllocate(old(Books()), p, i, amount)
      ensures Books() == if ok then BillingBooks.Allocate(old(Books()), p, i, amount) else old(Books())
    {
      var v := invoices[i];
      if v.status != Issued || v.customer != payments[p].customer
         || amount > Outstanding(v) || amount > payments[p].remaining {
        return false;
      }
      AllocateKeeps(Books(), p, i, amount);
      allocations := allocations + [Allocation(i, p, amount, false)];
      payments := payments[p := payments[p].(remaining := payments[p].remaining - amount)];
      invoices := invoices[i := v.(paid := v.paid + amount)];
      ok := true;
    }

    method FindOpen(customer: nat) returns (ps: seq<nat>, vs: seq<nat>)
      requires Valid()
      ensures OpenRows(Books(), customer, ps, vs)
    {
      hide Consistent, OrderByDate;
      var wantedPayments := OpenPayments(payments, customer);
      var wantedInvoices := OpenInvoices(invoices, customer);
      ps := OrderByDate(PaymentDates(payments), wantedPayments, |payments|);
      vs := OrderByDate(DueDates(invoices), wantedInvoices, |invoices|);
      OrderByDateOk(PaymentDates(payments), wantedPayments, |payments|);
      OrderByDateOk(DueDates(invoices), wantedInvoices, |invoices|);
    }

    /** The inner loop of `applyAdvance`: offer payment ps[k] to every open invoice. */
    method OfferPayment(ghost b: Books, customer: nat, ps: seq<nat>, vs: seq<nat>, ghost credit: seq<nat>,
                        ghost due: seq<nat>,
                        k: nat, before: nat)
      returns (applied: nat)
      requires Valid() && Ready(b, customer, ps, vs) && k < |ps| == |credit| && |due| == |vs|
      requires Midway(b, Books(), ps, vs, credit, due, k, 0, before)
      modifies this`invoices, this`payments, this`allocations, this`adjustments, this`accounts
      ensures Valid() && Midway(b, Books(), ps, vs, credit, due, k, |vs|, applied)
    {
      hide Midway, Ready, Consistent;
      applied := before;
      for j := 0 to |vs|
        invariant Valid() && Midway(b, Books(), ps, vs, credit, due, k, j, applied)
      {
        MidwayStep(b, Books(), customer, ps, vs, credit, due, k, j, applied);
        var amount := Min(payments[ps[k]].remaining, Outstanding(invoices[vs[j]]));
        if amount > 0 {
          var ok := Allocate(ps[k], vs[j], amount);
          applied := applied + amount;
        }
      }
    }

    /** `applyAdvance`: spend the customer's unapplied payments on their open invoices, oldest first. */
    method ApplyAdvance(customer: nat) returns (applied: nat, advance: nat, ghost ps: seq<nat>, ghost vs: seq<nat>)
      requires Valid()
      modifies this`invoices, this`payments, this`allocations, this`adjustments, this`accounts
      ensures Valid() && AdvanceResult(old(Books()), Books(), customer, ps, vs, applied, advance)
    {
      hide Midway, Ready, Consistent, OpenRows, AdvanceResult;
      ghost var b := Books();
      var open, due := FindOpen(customer);
      ps, vs := open, due;
      OpenRowsReady(b, customer, ps, vs);
      applied, advance := 0, 0;
      if open == [] {
        AdvanceNothing(b, customer, vs);
        return;
      }
      ghost var credits, dues := CreditsOf(b, ps), DuesOf(b, vs);
      MidwayFirst(b, customer, ps, vs);
      applied := OfferPayment(b, customer, open, due, credits, dues, 0, 0);
      for k := 1 to |open|
        invariant Valid() && Midway(b, Books(), ps, vs, credits, dues, k - 1, |vs|, applied)
      {
        MidwayNext(b, Books(), ps, vs, credits, dues, k - 1, applied);
        applied := OfferPayment(b, customer, open, due, credits, dues, k, applied);
      }
      advance := RemainingOf(open, b, vs, credits, dues, applied);
      AdvanceDone(b, Books(), customer, ps, vs, applied, advance);
    }

    method RemainingOf(ps: seq<nat>, ghost b: Books, ghost vs: seq<nat>, ghost credit: seq<nat>, ghost due: seq<nat>,
                       ghost applied: int)
      returns (advance: nat)
      requires ps != [] && |ps| == |credit| && |vs| == |due|
      requires Midway(b, Books(), ps, vs, credit, due, |ps| - 1, |due|, applied)
      ensures advance == Max(0, Prefix(credit, |ps|) - Prefix(due, |due|))
    {
      advance := 0;
      PrefixOrder(due, 0, |due|);
      for t := 0 to |ps|
        invariant advance == Max(0, Prefix(credit, t) - Prefix(due, |due|))
      {
        assert payments[ps[t]].remaining == A.CreditLeft(credit, due, t, |due|);
        advance := advance + payments[ps[t]].remaining;
      }
    }

    /** `insertInvoice`: an invoice whose total has been settled, then advances if the project says so. */
    method InsertInvoice(v: Invoice, automatic: bool) returns (id: nat, ghost ps: seq<nat>, ghost vs: seq<nat>,
                                                               ghost applied: int, ghost advance: int)
      requires Valid() && Fresh(v)
      modifies this`invoices, this`payments, this`allocations, this`adjustments, this`accounts
      ensures Valid() && id == |old(invoices)|
      ensures if automatic then AdvanceResult(Issue(old(Books()), v), Books(), v.customer, ps, vs, applied, advance)
              else Books() == Issue(old(Books()), v)
    {
      id := |invoices|;
      IssueKeeps(Books(), v);
      invoices := invoices + [v];
      ps, vs, applied, advance := [], [], 0, 0;
      if automatic {
        applied, advance, ps, vs := ApplyAdvance(v.customer);
      }
    }

    /** `collect`: money received, and either the allocations asked for or whatever is oldest. */
    method Collect(customer: nat, account: nat, amount: int, date: int, now: int, asked: Option<seq<(nat, int)>>)
      returns (r: Result<nat>, ghost ps: seq<nat>, ghost vs: seq<nat>, ghost applied: int, ghost advance: int)
      requires Valid() && 0 < amount <= MAX_MONEY
      requires asked.Some? ==> forall k :: 0 <= k < |asked.value| ==> asked.value[k].1 > 0
      modifies this`invoices, this`payments, this`allocations, this`adjustments, this`accounts
      ensures Valid()
      ensures r.Err? ==> Books() == old(Books())
      ensures r.Ok? ==>
                && r.value == |old(payments)|
                && account < |old(accounts)| && IsMoney(old(accounts)[account].balance + amount)
      ensures r.Ok? && asked.Some? ==>
                var p := Payment(customer, account, amount, amount, 0, date, now);
                && NoRepeats(asked.value) && Sum(asked.value, AMOUNT_ASKED) <= amount
                && AllocateAll(Receive(old(Books()), p), customer, r.value, asked.value) == Ok(Books())
      ensures r.Ok? && asked.None? ==>
                var p := Payment(customer, account, amount, amount, 0, date, now);
                AdvanceResult(Receive(old(Books()), p), Books(), customer, ps, vs, applied, advance)
      ensures var p := Payment(customer, account, amount, amount, 0, date, now);
              r.Err? == Refusal(old(Books()), p, asked).Some?
              && (r.Err? ==> Some(r.error) == Refusal(old(Books()), p, asked))
    {
      hide Consistent, AdvanceResult;
      ps, vs, applied, advance := [], [], 0, 0;
      if account >= |accounts| {
        return Err(NotFound), [], [], 0, 0;
      }
      if !IsMoney(accounts[account].balance + amount) {
        return Err(BadRequest), [], [], 0, 0;
      }
      var twice := asked.Some? && exists x, y | 0 <= x < y < |asked.value| :: asked.value[x].0 == asked.value[y].0;
      if asked.Some? && (twice || Wanted(asked.value) > amount) {
        return Err(BadRequest), [], [], 0, 0;
      }
      var p := Payment(customer, account, amount, amount, 0, date, now);
      var id := |payments|;
      ReceiveKeeps(Books(), p);
      var saved := (invoices, payments, allocations, accounts);
      accounts := accounts[account := Credit(accounts[account], amount)];
      payments := payments + [p];
      if asked.None? {
        applied, advance, ps, vs := ApplyAdvance(customer);
      } else {
        var failed := AllocateAsked(customer, id, asked.value);
        if failed.Some? {
          invoices, payments, allocations, accounts := saved.0, saved.1, saved.2, saved.3;
          return Err(failed.value), [], [], 0, 0;
        }
      }
      r := Ok(id);
    }

    /** `collect` with its request key: a repeated request gives back the payment it made and changes nothing,
        another request with the same key is refused, and the customer must be active. */
    method CollectRequest(key: nat, ask: CollectAsk, now: int)
      returns (r: Result<nat>, ghost ps: seq<nat>, ghost vs: seq<nat>, ghost applied: int, ghost advance: int)
      requires Valid() && 0 < ask.amount <= MAX_MONEY
      requires ask.asked.Some? ==> forall k :: 0 <= k < |ask.asked.value| ==> ask.asked.value[k].1 > 0
      modifies this
      ensures Valid() && customers == old(customers) && requested == old(requested)
      ensures key in old(collected) ==>
                && Books() == old(Books()) && collected == old(collected)
                && r == if old(collected)[key].0 == ask then Ok(old(collected)[key].1) else Err(Conflict)
      ensures r.Err? ==> Books() == old(Books()) && collected == old(collected)
      ensures key !in old(collected) ==>
                var p := Payment(ask.customer, ask.account, ask.amount, ask.amount, 0, ask.date, now);
                if !(ask.customer in customers && customers[ask.customer]) then r == Err(NotFound)
                else
                  && (r.Ok? <==> Refusal(old(Books()), p, ask.asked).None?)
                  && (r.Err? ==> Some(r.error) == Refusal(old(Books()), p, ask.asked))
      ensures key !in old(collected) && r.Ok? ==>
                var p := Payment(ask.customer, ask.account, ask.amount, ask.amount, 0, ask.date, now);
                && r.value == |old(payments)| && collected == old(collected)[key := (ask, r.value)]
                && p.account < |old(accounts)| && IsMoney(old(accounts)[p.account].balance + p.amount)
                && if ask.asked.Some?
                   then AllocateAll(Receive(old(Books()), p), ask.customer, r.value, ask.asked.value) == Ok(Books())
                   else AdvanceResult(Receive(old(Books()), p), Books(), ask.customer, ps, vs, applied, advance)
    {
      hide Consistent, AdvanceResult, AllocateAll;
      if key in collected {
        return if collected[key].0 == ask then Ok(collected[key].1) else Err(Conflict), [], [], 0, 0;
      }
      if !(ask.customer in customers && customers[ask.customer]) {
        return Err(NotFound), [], [], 0, 0;
      }
      r, ps, vs, applied, advance := Collect(ask.customer, ask.account, ask.amount, ask.date, now, ask.asked);
      if r.Ok? {
        collected := collected[key := (ask, r.value)];
      }
    }

    /** The loop of `collect` over the requested allocations. */
    method AllocateAsked(customer: nat, p: nat, asked: seq<(nat, int)>) returns (failed: Option<Error>)
      requires Valid() && p < |payments| && forall k :: 0 <= k < |asked| ==> asked[k].1 > 0
      modifies this`invoices, this`payments, this`allocations, this`adjustments, this`accounts
      ensures failed.None? ==> Valid() && AllocateAll(old(Books()), customer, p, asked) == Ok(Books())
      ensures failed.Some? ==> AllocateAll(old(Books()), customer, p, asked) == Err(failed.value)
      ensures adjustments == old(adjustments)
    {
      hide Consistent;
      ghost var b := Books();
      for k := 0 to |asked|
        invariant Valid() && p < |payments| && adjustments == old(adjustments)
        invariant AllocateAll(b, customer, p, asked[..k]) == Ok(Books())
      {
        assert asked[..k + 1][..k] == asked[..k];
        var (i, amount) := asked[k];
        var missing := i >= |invoices| || invoices[i].customer != customer;
        if missing {
          AllocateAllFails(b, customer, p, asked, k + 1);
          return Some(NotFound);
        }
        var ok := Allocate(p, i, amount);
        if !ok {
          AllocateAllFails(b, customer, p, asked, k + 1);
          return Some(Conflict);
        }
      }
      assert asked[..|asked|] == asked;
      failed := None;
    }

    /** A transfer or an expense on one of the accounts. */
    method MoveOutside(account: nat, amount: int) returns (ok: bool)
      requires Valid()
      modifies this`accounts
      ensures Valid() && ok == CanMove(old(Books()), account, amount)
      ensures Books() == if ok then BillingBooks.MoveOutside(old(Books()), account, amount) else old(Books())
    {
      ok := account < |accounts| && IsMoney(accounts[account].balance + amount);
      if ok {
        MoveOutsideKeeps(Books(), account, amount);
        var was := accounts[account];
        accounts := accounts[account := Account(was.opening + amount, was.balance + amount)];
      }
    }

    /** `requestAdjustment`: a cancellation asks for whatever the invoice amounts to at that moment. */
    method RequestAdjustment(customer: nat, target: nat, kind: Kind, amount: int, user: nat) returns (r: Result<nat>)
      requires Valid() && (kind.Cancel? || 0 < amount <= MAX_MONEY)
      modifies this`invoices, this`payments, this`allocations, this`adjustments, this`accounts
      ensures Valid()
      ensures r.Ok? <==> (if kind.Refund? then target < |old(payments)| && old(payments)[target].customer == customer
                          else target < |old(invoices)| && old(invoices)[target].customer == customer
                               && old(invoices)[target].status.Issued?)
      ensures r.Err? ==> Books() == old(Books())
      ensures r.Ok? ==>
                var asked := if kind.Cancel? then NetTotal(old(invoices)[target]) else amount;
                && r.value == |old(adjustments)|
                && FreshRequest(old(Books()), Adjustment(customer, target, kind, asked, user, Pending))
                && Books() == Request(old(Books()), Adjustment(customer, target, kind, asked, user, Pending))
    {
      if kind == Refund {
        if target >= |payments| || payments[target].customer != customer {
          return Err(NotFound);
        }
      } else {
        if target >= |invoices| || invoices[target].customer != customer {
          return Err(NotFound);
        }
        if invoices[target].status != Issued {
          return Err(Conflict);
        }
        assert InvoiceOk(Books(), target);
      }
      var row := Adjustment(customer, target, kind, if kind == Cancel then NetTotal(invoices[target]) else amount,
                            user, Pending);
      RequestKeeps(Books(), row);
      r := Ok(|adjustments|);
      adjustments := adjustments + [row];
    }

    /** The row asked about is the customer's, and an invoice is still issued. */
    ghost predicate CanRequest(ask: AdjustAsk) reads this {
      if ask.kind.Refund? then ask.target < |payments| && payments[ask.target].customer == ask.customer
      else
        ask.target < |invoices| && invoices[ask.target].customer == ask.customer && invoices[ask.target].status.Issued?
    }

    /** The row that is recorded. */
    ghost function Asked(ask: AdjustAsk, user: nat): Adjustment
      reads this
      requires CanRequest(ask)
    {
      var amount := if ask.kind.Cancel? then NetTotal(invoices[ask.target]) else ask.amount;
      Adjustment(ask.customer, ask.target, ask.kind, amount, user, Pending)
    }

    /** `requestAdjustment` with its request key. The customer need not be active. */
    method AdjustRequest(key: nat, ask: AdjustAsk, user: nat) returns (r: Result<nat>)
      requires Valid() && (ask.kind.Cancel? || 0 < ask.amount <= MAX_MONEY)
      modifies this
      ensures Valid() && customers == old(customers) && collected == old(collected)
      ensures key in old(requested) ==>
                && Books() == old(Books()) && requested == old(requested)
                && r == if old(requested)[key].0 == ask then Ok(old(requested)[key].1) else Err(Conflict)
      ensures r.Err? ==> Books() == old(Books()) && requested == old(requested)
      ensures key !in old(requested) ==>
                && (r.Ok? <==> ask.customer in customers && old(CanRequest(ask)))
                && (r.Ok? ==>
                      && r.value == |old(adjustments)| && requested == old(requested)[key := (ask, r.value)]
                      && FreshRequest(old(Books()), old(Asked(ask, user)))
                      && Books() == Request(old(Books()), old(Asked(ask, user))))
    {
      hide Consistent;
      if key in requested {
        return if requested[key].0 == ask then Ok(requested[key].1) else Err(Conflict);
      }
      if ask.customer !in customers {
        return Err(NotFound);
      }
      r := RequestAdjustment(ask.customer, ask.target, ask.kind, ask.amount, user);
      if r.Ok? {
        requested := requested[key := (ask, r.value)];
      }
    }

    /** The release loop of an approved cancellation. */
    method ReleaseAllocations(i: nat)
      requires forall a :: 0 <= a < |allocations| ==> allocations[a].payment < |payments|
      modifies this`invoices, this`payments, this`allocations, this`adjustments, this`accounts
      ensures invoices == old(invoices) && adjustments == old(adjustments) && accounts == old(accounts)
      ensures |allocations| == |old(allocations)| && |payments| == |old(payments)|
      ensures forall a :: 0 <= a < |allocations| ==> allocations[a] == Released(old(allocations)[a], i)
      ensures forall p :: 0 <= p < |payments| ==>
                payments[p] ==
                  old(payments)[p].(remaining := old(payments)[p].remaining + GivenBack(old(Books()), i, p))
    {
      ghost var rows, pays := allocations, payments;
      for a := 0 to |allocations|
        invariant invoices == old(invoices) && adjustments == old(adjustments) && accounts == old(accounts)
        invariant |allocations| == |rows| && |payments| == |pays|
        invariant forall j :: 0 <= j < a ==> allocations[j] == Released(rows[j], i)
        invariant forall j :: a <= j < |rows| ==> allocations[j] == rows[j]
        invariant forall p :: 0 <= p < |pays| ==>
                    payments[p] == pays[p].(remaining := pays[p].remaining
                                                         + Sum(rows[..a], Share(ALLOCATION_PAYMENT, Drawn(i), p)))
      {
        var row := allocations[a];
        assert rows[..a + 1] == rows[..a] + [row];
        forall p | 0 <= p < |pays|
          ensures Sum(rows[..a + 1], Share(ALLOCATION_PAYMENT, Drawn(i), p)) ==
                  Sum(rows[..a], Share(ALLOCATION_PAYMENT, Drawn(i), p))
                  + if row.payment == p && row.invoice == i && !row.released then row.amount else 0
        {
          SumAppend(rows[..a], row, Share(ALLOCATION_PAYMENT, Drawn(i), p));
        }
        if row.invoice == i && !row.released {
          payments := payments[row.payment := payments[row.payment].(remaining :=
              payments[row.payment].remaining + row.amount)];
          allocations := allocations[a := row.(released := true)];
        }
      }
      assert rows[..|rows|] == rows;
    }

    /** `decideAdjustment`: a second person approves or rejects an open request. */
    method DecideAdjustment(k: nat, user: nat, approve: bool, now: int) returns (r: Result<nat>)
      requires Valid()
      modifies this`invoices, this`payments, this`allocations, this`adjustments, this`accounts
      ensures Valid()
      ensures r.Err? ==> Books() == old(Books())
      ensures k < |old(adjustments)| && !old(adjustments)[k].decision.Pending? ==>
                Books() == old(Books()) && (r.Ok? <==> old(adjustments)[k].decision.Approved? == approve)
      ensures k < |old(adjustments)| && old(adjustments)[k].decision.Pending? ==>
                var b, kind := old(Books()), old(adjustments)[k].kind;
                if !approve then
                  (r.Ok? <==> CanDecide(b, k, user)) && (r.Ok? ==> Books() == Decide(b, k, Rejected(user, now)))
                else if kind.Refund? then
                  (r.Ok? <==> CanRefund(b, k, user)) && (r.Ok? ==> Books() == PayBack(b, k, user, now))
                else if kind.Cancel? then
                  (r.Ok? <==> CanCancel(b, k, user)) && (r.Ok? ==> IsCancellation(b, Books(), k, user, now))
                else
                  (r.Ok? <==> CanNote(b, k, user)) && (r.Ok? ==> Books() == Note(b, k, user, now))
      ensures k >= |old(adjustments)| ==> r == Err(NotFound)
    {
      if k >= |adjustments| {
        return Err(NotFound);
      }
      var row := adjustments[k];
      if row.decision != Pending {
        return if row.decision.Approved? == approve then Ok(k) else Err(Conflict);
      }
      if row.createdBy == user {
        return Err(Conflict);
      }
      ghost var b := Books();
      if !approve {
        RejectKeeps(b, k, user, now);
        adjustments := adjustments[k := row.(decision := Rejected(user, now))];
        return Ok(k);
      }
      assert AdjustmentOk(b, k);
      if row.kind == Refund {
        r := ApproveRefund(k, user, now);
      } else if invoices[row.target].status != Issued {
        r := Err(Conflict);
      } else if row.kind == Cancel {
        r := ApproveCancellation(k, user, now);
      } else {
        r := ApproveNote(k, user, now);
      }
    }

    method ApproveRefund(k: nat, user: nat, now: int) returns (r: Result<nat>)
      requires Valid() && CanDecide(Books(), k, user)
      requires adjustments[k].kind.Refund? && adjustments[k].target < |payments|
      modifies this`invoices, this`payments, this`allocations, this`adjustments, this`accounts
      ensures Valid() && (r.Ok? <==> CanRefund(old(Books()), k, user))
      ensures Books() == if r.Ok? then PayBack(old(Books()), k, user, now) else old(Books())
    {
      var row := adjustments[k];
      var p := payments[row.target];
      if p.customer != row.customer || p.remaining < row.amount {
        return Err(Conflict);
      }
      assert PaymentOk(Books(), row.target);
      if accounts[p.account].balance < row.amount {
        return Err(Conflict);
      }
      PayBackKeeps(Books(), k, user, now);
      accounts := accounts[p.account := Credit(accounts[p.account], -row.amount)];
      payments := payments[row.target := p.(remaining := p.remaining - row.amount,
                                            refunded := p.refunded + row.amount)];
      adjustments := adjustments[k := row.(decision := Approved(user, now))];
      r := Ok(k);
    }

    method ApproveCancellation(k: nat, user: nat, now: int) returns (r: Result<nat>)
      requires Valid() && CanDecide(Books(), k, user)
      requires adjustments[k].kind.Cancel? && adjustments[k].target < |invoices|
      requires invoices[adjustments[k].target].status.Issued?
      modifies this`invoices, this`payments, this`allocations, this`adjustments, this`accounts
      ensures Valid() && (r.Ok? <==> CanCancel(old(Books()), k, user))
      ensures if r.Ok? then IsCancellation(old(Books()), Books(), k, user, now) else Books() == old(Books())
    {
      ghost var b := Books();
      var row := adjustments[k];
      if row.amount != NetTotal(invoices[row.target]) {
        return Err(Conflict);
      }
      forall a | 0 <= a < |allocations|
        ensures allocations[a].payment < |payments|
      {
        assert AllocationOk(b, a);
      }
      ReleaseAllocations(row.target);
      invoices := invoices[row.target := invoices[row.target].(status := Cancelled, paid := 0)];
      adjustments := adjustments[k := row.(decision := Approved(user, now))];
      CancelKeeps(b, Books(), k, user, now);
      r := Ok(k);
    }

    method ApproveNote(k: nat, user: nat, now: int) returns (r: Result<nat>)
      requires Valid() && CanDecide(Books(), k, user) && !adjustments[k].kind.Cancel? && !adjustments[k].kind.Refund?
      requires adjustments[k].target < |invoices| && invoices[adjustments[k].target].status.Issued?
      modifies this`invoices, this`payments, this`allocations, this`adjustments, this`accounts
      ensures Valid() && (r.Ok? <==> CanNote(old(Books()), k, user))
      ensures Books() == if r.Ok? then Note(old(Books()), k, user, now) else old(Books())
    {
      var row := adjustments[k];
      var v := invoices[row.target];
      if row.kind == DebitNote {
        if !IsMoney(NetTotal(v) + row.amount) || !IsMoney(v.debit + row.amount) {
          return Err(BadRequest);
        }
        NoteKeeps(Books(), k, user, now);
        invoices := invoices[row.target := v.(debit := v.debit + row.amount)];
      } else {
        if row.amount > Outstanding(v) {
          return Err(Conflict);
        }
        if !IsMoney(v.credit + row.amount) {
          return Err(BadRequest);
        }
        NoteKeeps(Books(), k, user, now);
        invoices := invoices[row.target := v.(credit := v.credit + row.amount)];
      }
      adjustments := adjustments[k := row.(decision := Approved(user, now))];
      r := Ok(k);
    }

    /** The transaction that applyLateFees runs for one invoice; None when the amount is refused. */
    method ChargeLateFee(i: nat, asOf: int, now: int) returns (fee: Option<nat>)
      requires Valid() && i < |invoices|
      modifies this`invoices, this`payments, this`allocations, this`adjustments, this`accounts
      ensures Valid()
      ensures fee == None || fee == Some(0) ==> Books() == old(Books())
      ensures fee == Some(0) <==> LateFee(old(invoices)[i], asOf) == Some(0)
      ensures fee.Some? && fee.value > 0 <==> CanCharge(old(Books()), i, asOf)
      ensures fee.Some? && fee.value > 0 ==>
                && Some(fee.value as int) == LateFee(old(invoices)[i], asOf)
                && Books() == Charge(old(Books()), i, asOf, now)
    {
      var v := invoices[i];
      var due := LateFee(v, asOf);
      if due.None? || (due.value > 0 && !IsMoney(NetTotal(v) + due.value)) {
        return None;
      }
      if due.value > 0 {
        ChargeKeeps(Books(), i, asOf, now);
        invoices := invoices[i := v.(lateFee := due.value, lateFeeAt := Some(now))];
      }
      fee := Some(due.value);
    }

    /** `applyLateFees`: one transaction per overdue invoice. A refused fee stops the loop and keeps
        the fees already charged. */
    method ApplyLateFees(asOf: int, now: int) returns (applied: nat, amount: nat, failed: bool, ghost stop: nat)
      requires Valid()
      modifies this`invoices, this`payments, this`allocations, this`adjustments, this`accounts
      ensures Valid() && stop <= |old(invoices)| && (failed <==> stop < |old(invoices)|)
      ensures FeesThrough(old(Books()), Books(), stop, asOf, now)
      ensures amount == Sum(invoices, FEE) - Sum(old(invoices), FEE)
      ensures applied == Sum(invoices, HAS_FEE) - Sum(old(invoices), HAS_FEE)
      ensures failed ==> Overdue(old(invoices)[stop], asOf) && !CanCharge(old(Books()), stop, asOf)
                         && LateFee(old(invoices)[stop], asOf) != Some(0)
    {
      hide Consistent, FeesThrough, Charge, CanCharge;
      ghost var b := Books();
      applied, amount, failed, stop := 0, 0, false, |invoices|;
      assert FeesThrough(b, b, 0, asOf, now) by { FeesFirst(b, asOf, now); }
      for i := 0 to |invoices|
        invariant Valid() && !failed && stop == |invoices| == |b.invoices|
        invariant FeesThrough(b, Books(), i, asOf, now)
        invariant amount == Sum(invoices, FEE) - Sum(b.invoices, FEE)
        invariant applied == Sum(invoices, HAS_FEE) - Sum(b.invoices, HAS_FEE)
      {
        FeeStep(b, Books(), i, asOf, now);
        if invoices[i].status == Issued && invoices[i].lateFeeAt == None && invoices[i].dueDate < asOf {
          var fee := ChargeLateFee(i, asOf, now);
          if fee == None {
            return applied, amount, true, i;
          }
          if fee.value > 0 {
            applied, amount := applied + 1, amount + fee.value;
          }
        }
      }
    }
  }

  /** c is b with the late fees of the overdue invoices before n charged. */
  ghost predicate FeesThrough(b: Books, c: Books, n: nat, asOf: int, now: int) {
    && c == b.(invoices := c.invoices) && |c.invoices| == |b.invoices|
    && forall i :: 0 <= i < |b.invoices| ==>
         c.invoices[i] == if i < n && CanCharge(b, i, asOf) then Charge(b, i, asOf, now).invoices[i] else b.invoices[i]
  }

  lemma FeesFirst(b: Books, asOf: int, now: int)
    ensures FeesThrough(b, b, 0, asOf, now)
  {
  }

  lemma FeeStep(b: Books, c: Books, i: nat, asOf: int, now: int)
    requires i < |b.invoices| && FeesThrough(b, c, i, asOf, now) && Consistent(c)
    ensures i < |c.invoices| && c.invoices[i] == b.invoices[i] && (CanCharge(c, i, asOf) <==> CanCharge(b, i, asOf))
    ensures !CanCharge(c, i, asOf) ==> FeesThrough(b, c, i + 1, asOf, now)
    ensures CanCharge(c, i, asOf) ==>
              var d := Charge(c, i, asOf, now);
              && Overdue(c.invoices[i], asOf)
              && FeesThrough(b, d, i + 1, asOf, now) && |d.invoices| == |c.invoices|
              && Sum(d.invoices, FEE) == Sum(c.invoices, FEE) + LateFee(c.invoices[i], asOf).value
              && Sum(d.invoices, HAS_FEE) == Sum(c.invoices, HAS_FEE) + 1
  {
    assert InvoiceOk(c, i);
    if CanCharge(c, i, asOf) {
      var d := Charge(c, i, asOf, now);
      SumUpdate(c.invoices, i, d.invoices[i], FEE);
      SumUpdate(c.invoices, i, d.invoices[i], HAS_FEE);
    }
  }

  ghost const FEE: Invoice -> int := (v: Invoice) => v.lateFee

  ghost const HAS_FEE: Invoice -> int := (v: Invoice) => if v.lateFeeAt.Some? then 1 else 0

  /** The invoices that applyLateFees selects. */
  ghost predicate Overdue(v: Invoice, asOf: int) {
    v.status.Issued? && v.lateFeeAt.None? && v.dueDate < asOf
  }
}
