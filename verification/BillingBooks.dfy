/** The tables of customer billing, what keeps them consistent, and the atomic effects that the
    billing transactions of billing.service.ts are made of. A row's id is its position in its
    table; rows are never deleted. Invoices and payments carry running amounts that repeat what
    the rows of allocations and adjustments add up to; every effect below keeps the two equal.
    Dates are day numbers, timestamps are seconds. */
module BillingBooks {
  import opened Outcomes
  import opened Rounding
  import opened Sums

  datatype InvoiceStatus = Issued | Cancelled

  datatype FeePolicy = NoFee | FixedFee(value: nat) | PercentFee(bps: nat)

  datatype Invoice = Invoice(
    customer: nat, total: int, paid: int, credit: int, debit: int, lateFee: int, lateFeeAt: Option<int>,
    status: InvoiceStatus, invoiceDate: int, dueDate: int, graceDays: nat, policy: FeePolicy, createdAt: int)

  datatype Payment = Payment(
    customer: nat, account: nat, amount: int, remaining: int, refunded: int, paymentDate: int, createdAt: int)

  datatype Allocation = Allocation(invoice: nat, payment: nat, amount: int, released: bool)

  datatype Kind = CreditNote | DebitNote | Waiver | WriteOff | Cancel | Refund

  datatype Decision = Pending | Approved(who: nat, at: int) | Rejected(who: nat, at: int)

  /** A refund's target is a payment; every other adjustment's target is an invoice. */
  datatype Adjustment = Adjustment(customer: nat, target: nat, kind: Kind, amount: int, createdBy: nat,
                                   decision: Decision)

  /** Accounts are shared with transfers and expenses: `opening` is what the account holds apart from the
      billing collections and refunds, and may be negative. */
  datatype Account = Account(opening: int, balance: int)

  datatype Books = Books(
    invoices: seq<Invoice>, payments: seq<Payment>, allocations: seq<Allocation>,
    adjustments: seq<Adjustment>, accounts: seq<Account>)

  function NetTotal(i: Invoice): int {
    i.total + i.debit + i.lateFee - i.credit
  }

  function Outstanding(i: Invoice): int {
    if i.status.Cancelled? then 0 else NetTotal(i) - i.paid
  }

  // What an event row says about the row it names.

  ghost const ALLOCATION_INVOICE: Allocation -> int := (a: Allocation) => a.invoice

  ghost const ALLOCATION_PAYMENT: Allocation -> int := (a: Allocation) => a.payment

  ghost const LIVE: Allocation -> int := (a: Allocation) => if a.released then 0 else a.amount

  ghost const TARGET: Adjustment -> int := (r: Adjustment) => r.target

  ghost const CREDITED: Adjustment -> int :=
    (r: Adjustment) =>
      if r.decision.Approved? && (r.kind.CreditNote? || r.kind.Waiver? || r.kind.WriteOff?) then r.amount else 0

  ghost const DEBITED: Adjustment -> int :=
    (r: Adjustment) => if r.decision.Approved? && r.kind.DebitNote? then r.amount else 0

  ghost const CANCELLED_BY: Adjustment -> int :=
    (r: Adjustment) => if r.decision.Approved? && r.kind.Cancel? then r.amount else 0

  ghost const REFUNDED_BY: Adjustment -> int :=
    (r: Adjustment) => if r.decision.Approved? && r.kind.Refund? then r.amount else 0

  ghost const ACCOUNT: Payment -> int := (p: Payment) => p.account

  ghost const HELD: Payment -> int := (p: Payment) => p.amount - p.refunded

  ghost function PaidOn(b: Books, i: int): int { Sum(b.allocations, Share(ALLOCATION_INVOICE, LIVE, i)) }

  ghost function SpentFrom(b: Books, p: int): int { Sum(b.allocations, Share(ALLOCATION_PAYMENT, LIVE, p)) }

  /** The incremental fields of an invoice say exactly what its event rows add up to. */
  ghost predicate InvoiceOk(b: Books, i: nat)
    requires i < |b.invoices|
  {
    var v := b.invoices[i];
    && v.paid == PaidOn(b, i)
    && v.credit == Sum(b.adjustments, Share(TARGET, CREDITED, i))
    && v.debit == Sum(b.adjustments, Share(TARGET, DEBITED, i))
    && Sum(b.adjustments, Share(TARGET, CANCELLED_BY, i)) == (if v.status.Cancelled? then NetTotal(v) else 0)
    && (v.status.Cancelled? ==> v.paid == 0)
    && 0 <= v.paid <= NetTotal(v) <= MAX_MONEY
    && 0 <= v.total && 0 <= v.credit && 0 <= v.debit && 0 <= v.lateFee
    && (v.lateFeeAt.None? ==> v.lateFee == 0)
  }

  ghost predicate PaymentOk(b: Books, p: nat)
    requires p < |b.payments|
  {
    var v := b.payments[p];
    && v.amount == v.remaining + v.refunded + SpentFrom(b, p)
    && v.refunded == Sum(b.adjustments, Share(TARGET, REFUNDED_BY, p))
    && 0 <= v.remaining && 0 <= v.refunded && 0 < v.amount <= MAX_MONEY
    && v.account < |b.accounts|
  }

  /** Money only moves between rows of one customer. */
  ghost predicate AllocationOk(b: Books, k: nat)
    requires k < |b.allocations|
  {
    var a := b.allocations[k];
    && a.invoice < |b.invoices| && a.payment < |b.payments| && a.amount > 0
    && b.invoices[a.invoice].customer == b.payments[a.payment].customer
  }

  ghost predicate AdjustmentOk(b: Books, k: nat)
    requires k < |b.adjustments|
  {
    var r := b.adjustments[k];
    && 0 <= r.amount && (r.kind.Cancel? || r.amount > 0)
    && (r.kind.Refund? ==> r.target < |b.payments| && b.payments[r.target].customer == r.customer)
    && (!r.kind.Refund? ==> r.target < |b.invoices| && b.invoices[r.target].customer == r.customer)
    && (r.decision.Approved? ==> r.decision.who != r.createdBy)
  }

  ghost predicate AccountOk(b: Books, k: nat)
    requires k < |b.accounts|
  {
    && b.accounts[k].balance == b.accounts[k].opening + Sum(b.payments, Share(ACCOUNT, HELD, k))
    && IsMoney(b.accounts[k].balance)
  }

  ghost predicate Consistent(b: Books) {
    && (forall i :: 0 <= i < |b.invoices| ==> InvoiceOk(b, i))
    && (forall p :: 0 <= p < |b.payments| ==> PaymentOk(b, p))
    && (forall k :: 0 <= k < |b.allocations| ==> AllocationOk(b, k))
    && (forall k :: 0 <= k < |b.adjustments| ==> AdjustmentOk(b, k))
    && (forall k :: 0 <= k < |b.accounts| ==> AccountOk(b, k))
  }

  // --- Issuing, paying, requesting -------------------------------------------------------

  ghost predicate Fresh(v: Invoice) {
    v.paid == v.credit == v.debit == v.lateFee == 0 && v.lateFeeAt.None? && v.status.Issued? && IsMoney(v.total)
  }

  ghost function Issue(b: Books, v: Invoice): Books { b.(invoices := b.invoices + [v]) }

  lemma NoShare<R>(rows: seq<R>, key: R -> int, amount: R -> int, k: int)
    requires forall j :: 0 <= j < |rows| ==> key(rows[j]) != k || amount(rows[j]) == 0
    ensures Sum(rows, Share(key, amount, k)) == 0
  {
    if rows != [] {
      var front := rows[..|rows| - 1];
      assert forall j :: 0 <= j < |front| ==> front[j] == rows[j];
      NoShare(front, key, amount, k);
    }
  }

  lemma IssueKeeps(b: Books, v: Invoice)
    requires Consistent(b) && Fresh(v)
    ensures Consistent(Issue(b, v))
  {
    var c, n := Issue(b, v), |b.invoices|;
    forall k | 0 <= k < |b.adjustments|
      ensures AdjustmentOk(c, k) && (TARGET(b.adjustments[k]) != n || b.adjustments[k].kind.Refund?)
    {
      assert AdjustmentOk(b, k);
    }
    forall k | 0 <= k < |b.allocations|
      ensures AllocationOk(c, k) && ALLOCATION_INVOICE(b.allocations[k]) != n
    {
      assert AllocationOk(b, k);
    }
    NoShare(b.allocations, ALLOCATION_INVOICE, LIVE, n);
    NoShare(b.adjustments, TARGET, CREDITED, n);
    NoShare(b.adjustments, TARGET, DEBITED, n);
    NoShare(b.adjustments, TARGET, CANCELLED_BY, n);
    forall i | 0 <= i <= n
      ensures InvoiceOk(c, i)
    {
      assert i < n ==> InvoiceOk(b, i);
    }
    assert forall p :: 0 <= p < |b.payments| ==> PaymentOk(b, p) ==> PaymentOk(c, p);
    assert forall k :: 0 <= k < |b.accounts| ==> AccountOk(b, k) ==> AccountOk(c, k);
  }

  ghost predicate FreshPayment(b: Books, p: Payment) {
    && p.remaining == p.amount && p.refunded == 0 && 0 < p.amount <= MAX_MONEY
    && p.account < |b.accounts| && IsMoney(b.accounts[p.account].balance + p.amount)
  }

  function Credit(a: Account, amount: int): Account { a.(balance := a.balance + amount) }

  ghost function Receive(b: Books, p: Payment): Books
    requires p.account < |b.accounts|
  {
    b.(payments := b.payments + [p],
       accounts := b.accounts[p.account := Credit(b.accounts[p.account], p.amount)])
  }

  lemma ReceiveKeeps(b: Books, p: Payment)
    requires Consistent(b) && FreshPayment(b, p)
    ensures Consistent(Receive(b, p))
  {
    var c, n := Receive(b, p), |b.payments|;
    forall k | 0 <= k < |b.adjustments|
      ensures AdjustmentOk(c, k) && (TARGET(b.adjustments[k]) != n || !b.adjustments[k].kind.Refund?)
    {
      assert AdjustmentOk(b, k);
    }
    forall k | 0 <= k < |b.allocations|
      ensures AllocationOk(c, k) && ALLOCATION_PAYMENT(b.allocations[k]) != n
    {
      assert AllocationOk(b, k);
    }
    NoShare(b.allocations, ALLOCATION_PAYMENT, LIVE, n);
    NoShare(b.adjustments, TARGET, REFUNDED_BY, n);
    forall q | 0 <= q <= n
      ensures PaymentOk(c, q)
    {
      assert q < n ==> PaymentOk(b, q);
    }
    forall k | 0 <= k < |c.accounts|
      ensures AccountOk(c, k)
    {
      assert AccountOk(b, k);
      SumAppend(b.payments, p, Share(ACCOUNT, HELD, k));
    }
    assert forall i :: 0 <= i < |b.invoices| ==> InvoiceOk(b, i) ==> InvoiceOk(c, i);
  }

  /** Money that comes or goes outside billing, as far as the account can hold it. */
  ghost predicate CanMove(b: Books, a: nat, amount: int) {
    a < |b.accounts| && IsMoney(b.accounts[a].balance + amount)
  }

  ghost function MoveOutside(b: Books, a: nat, amount: int): Books
    requires a < |b.accounts|
  {
    var was := b.accounts[a];
    b.(accounts := b.accounts[a := Account(was.opening + amount, was.balance + amount)])
  }

  lemma MoveOutsideKeeps(b: Books, a: nat, amount: int)
    requires Consistent(b) && CanMove(b, a, amount)
    ensures Consistent(MoveOutside(b, a, amount))
  {
    var c := MoveOutside(b, a, amount);
    forall k | 0 <= k < |c.accounts|
      ensures AccountOk(c, k)
    {
      assert AccountOk(b, k);
    }
    assert forall i :: 0 <= i < |b.invoices| ==> InvoiceOk(b, i) ==> InvoiceOk(c, i);
    assert forall p :: 0 <= p < |b.payments| ==> PaymentOk(b, p) ==> PaymentOk(c, p);
    assert forall k :: 0 <= k < |b.allocations| ==> AllocationOk(b, k) ==> AllocationOk(c, k);
    assert forall k :: 0 <= k < |b.adjustments| ==> AdjustmentOk(b, k) ==> AdjustmentOk(c, k);
  }

  ghost function Request(b: Books, r: Adjustment): Books { b.(adjustments := b.adjustments + [r]) }

  ghost predicate FreshRequest(b: Books, r: Adjustment) {
    && r.decision.Pending? && 0 <= r.amount && (r.kind.Cancel? || r.amount > 0)
    && (r.kind.Refund? ==> r.target < |b.payments| && b.payments[r.target].customer == r.customer)
    && (!r.kind.Refund? ==> r.target < |b.invoices| && b.invoices[r.target].customer == r.customer)
  }

  lemma RequestKeeps(b: Books, r: Adjustment)
    requires Consistent(b) && FreshRequest(b, r)
    ensures Consistent(Request(b, r))
  {
    var c := Request(b, r);
    forall i | 0 <= i < |c.invoices|
      ensures InvoiceOk(c, i)
    {
      assert InvoiceOk(b, i);
      SumAppend(b.adjustments, r, Share(TARGET, CREDITED, i));
      SumAppend(b.adjustments, r, Share(TARGET, DEBITED, i));
      SumAppend(b.adjustments, r, Share(TARGET, CANCELLED_BY, i));
    }
    forall p | 0 <= p < |c.payments|
      ensures PaymentOk(c, p)
    {
      assert PaymentOk(b, p);
      SumAppend(b.adjustments, r, Share(TARGET, REFUNDED_BY, p));
    }
    forall k | 0 <= k < |c.adjustments|
      ensures AdjustmentOk(c, k)
    {
      assert k < |b.adjustments| ==> AdjustmentOk(b, k);
    }
    assert forall k :: 0 <= k < |b.allocations| ==> AllocationOk(b, k) ==> AllocationOk(c, k);
    assert forall k :: 0 <= k < |b.accounts| ==> AccountOk(b, k) ==> AccountOk(c, k);
  }

  // --- Allocating a payment to an invoice ---------------------------------------------------

  ghost predicate CanAllocate(b: Books, p: nat, i: nat, amount: int) {
    && p < |b.payments| && i < |b.invoices|
    && b.invoices[i].status.Issued? && b.invoices[i].customer == b.payments[p].customer
    && amount <= Outstanding(b.invoices[i]) && amount <= b.payments[p].remaining
  }

  ghost function Allocate(b: Books, p: nat, i: nat, amount: int): Books
    requires CanAllocate(b, p, i, amount)
  {
    b.(allocations := b.allocations + [Allocation(i, p, amount, false)],
       payments := b.payments[p := b.payments[p].(remaining := b.payments[p].remaining - amount)],
       invoices := b.invoices[i := b.invoices[i].(paid := b.invoices[i].paid + amount)])
  }

  lemma AllocateInvoice(b: Books, p: nat, i: nat, amount: int, j: nat)
    requires CanAllocate(b, p, i, amount) && amount > 0 && j < |b.invoices| && InvoiceOk(b, j)
    ensures InvoiceOk(Allocate(b, p, i, amount), j)
  {
    hide Sum;
    SumAppend(b.allocations, Allocation(i, p, amount, false), Share(ALLOCATION_INVOICE, LIVE, j));
  }

  lemma AllocatePayment(b: Books, p: nat, i: nat, amount: int, q: nat)
    requires CanAllocate(b, p, i, amount) && q < |b.payments| && PaymentOk(b, q)
    ensures PaymentOk(Allocate(b, p, i, amount), q)
  {
    hide Sum;
    SumAppend(b.allocations, Allocation(i, p, amount, false), Share(ALLOCATION_PAYMENT, LIVE, q));
  }

  lemma AllocateAccount(b: Books, p: nat, i: nat, amount: int, k: nat)
    requires CanAllocate(b, p, i, amount) && k < |b.accounts| && AccountOk(b, k)
    ensures AccountOk(Allocate(b, p, i, amount), k)
  {
    hide Sum;
    SumUpdate(b.payments, p, Allocate(b, p, i, amount).payments[p], Share(ACCOUNT, HELD, k));
  }

  lemma AllocateKeeps(b: Books, p: nat, i: nat, amount: int)
    requires Consistent(b) && CanAllocate(b, p, i, amount) && amount > 0
    ensures Consistent(Allocate(b, p, i, amount))
  {
    hide InvoiceOk, PaymentOk, AccountOk;
    var c := Allocate(b, p, i, amount);
    forall j | 0 <= j < |c.invoices|
      ensures InvoiceOk(c, j)
    {
      AllocateInvoice(b, p, i, amount, j);
    }
    forall q | 0 <= q < |c.payments|
      ensures PaymentOk(c, q)
    {
      AllocatePayment(b, p, i, amount, q);
    }
    forall k | 0 <= k < |c.allocations|
      ensures AllocationOk(c, k)
    {
      assert k < |b.allocations| ==> AllocationOk(b, k);
    }
    forall k | 0 <= k < |c.adjustments|
      ensures AdjustmentOk(c, k)
    {
      assert AdjustmentOk(b, k);
    }
    forall k | 0 <= k < |c.accounts|
      ensures AccountOk(c, k)
    {
      AllocateAccount(b, p, i, amount, k);
    }
  }

  // --- Deciding adjustments ------------------------------------------------------------------

  ghost function Decide(b: Books, k: nat, d: Decision): Books
    requires k < |b.adjustments|
  {
    b.(adjustments := b.adjustments[k := b.adjustments[k].(decision := d)])
  }

  ghost function Adjusted(b: Books, k: nat, who: nat, at: int, i: nat, v: Invoice): Books
    requires k < |b.adjustments| && i < |b.invoices|
  {
    Decide(b, k, Approved(who, at)).(invoices := b.invoices[i := v])
  }

  /** A second person decides a request that is still open. */
  ghost predicate CanDecide(b: Books, k: nat, who: nat) {
    k < |b.adjustments| && b.adjustments[k].decision.Pending? && b.adjustments[k].createdBy != who
  }

  lemma RejectKeeps(b: Books, k: nat, who: nat, at: int)
    requires Consistent(b) && CanDecide(b, k, who)
    ensures Consistent(Decide(b, k, Rejected(who, at)))
  {
    var c := Decide(b, k, Rejected(who, at));
    forall i | 0 <= i < |c.invoices|
      ensures InvoiceOk(c, i)
    {
      assert InvoiceOk(b, i);
      SumUpdate(b.adjustments, k, c.adjustments[k], Share(TARGET, CREDITED, i));
      SumUpdate(b.adjustments, k, c.adjustments[k], Share(TARGET, DEBITED, i));
      SumUpdate(b.adjustments, k, c.adjustments[k], Share(TARGET, CANCELLED_BY, i));
    }
    forall p | 0 <= p < |c.payments|
      ensures PaymentOk(c, p)
    {
      assert PaymentOk(b, p);
      SumUpdate(b.adjustments, k, c.adjustments[k], Share(TARGET, REFUNDED_BY, p));
    }
    forall j | 0 <= j < |c.adjustments|
      ensures AdjustmentOk(c, j)
    {
      assert AdjustmentOk(b, j);
    }
    assert forall j :: 0 <= j < |b.allocations| ==> AllocationOk(b, j) ==> AllocationOk(c, j);
    assert forall j :: 0 <= j < |b.accounts| ==> AccountOk(b, j) ==> AccountOk(c, j);
  }

  ghost predicate CanNote(b: Books, k: nat, who: nat) {
    && CanDecide(b, k, who) && !b.adjustments[k].kind.Refund? && !b.adjustments[k].kind.Cancel?
    && b.adjustments[k].target < |b.invoices| && b.invoices[b.adjustments[k].target].status.Issued?
    && var r, v := b.adjustments[k], b.invoices[b.adjustments[k].target];
       if r.kind.DebitNote? then IsMoney(NetTotal(v) + r.amount) && IsMoney(v.debit + r.amount)
       else r.amount <= Outstanding(v) && IsMoney(v.credit + r.amount)
  }

  /** A debit note raises what an invoice asks; a credit note, waiver or write-off lowers it. */
  ghost function Note(b: Books, k: nat, who: nat, at: int): Books
    requires CanNote(b, k, who)
  {
    var r := b.adjustments[k];
    var v := b.invoices[r.target];
    Adjusted(b, k, who, at, r.target,
             if r.kind.DebitNote? then v.(debit := v.debit + r.amount) else v.(credit := v.credit + r.amount))
  }

  lemma NotedInvoice(b: Books, k: nat, who: nat, at: int, i: nat)
    requires CanNote(b, k, who) && AdjustmentOk(b, k) && i < |b.invoices| && InvoiceOk(b, i)
    ensures InvoiceOk(Note(b, k, who, at), i)
  {
    var c := Note(b, k, who, at);
    SumUpdate(b.adjustments, k, c.adjustments[k], Share(TARGET, CREDITED, i));
    SumUpdate(b.adjustments, k, c.adjustments[k], Share(TARGET, DEBITED, i));
    SumUpdate(b.adjustments, k, c.adjustments[k], Share(TARGET, CANCELLED_BY, i));
  }

  lemma NoteKeeps(b: Books, k: nat, who: nat, at: int)
    requires Consistent(b) && CanNote(b, k, who)
    ensures Consistent(Note(b, k, who, at))
  {
    hide InvoiceOk;
    var c := Note(b, k, who, at);
    assert AdjustmentOk(b, k);
    forall i | 0 <= i < |c.invoices|
      ensures InvoiceOk(c, i)
    {
      NotedInvoice(b, k, who, at, i);
    }
    forall p | 0 <= p < |c.payments|
      ensures PaymentOk(c, p)
    {
      assert PaymentOk(b, p);
      SumUpdate(b.adjustments, k, c.adjustments[k], Share(TARGET, REFUNDED_BY, p));
    }
    forall j | 0 <= j < |c.adjustments|
      ensures AdjustmentOk(c, j)
    {
      assert AdjustmentOk(b, j);
    }
    forall j | 0 <= j < |c.allocations|
      ensures AllocationOk(c, j)
    {
      assert AllocationOk(b, j);
    }
    assert forall j :: 0 <= j < |b.accounts| ==> AccountOk(b, j) ==> AccountOk(c, j);
  }

  ghost predicate CanRefund(b: Books, k: nat, who: nat) {
    && CanDecide(b, k, who) && b.adjustments[k].kind.Refund? && b.adjustments[k].target < |b.payments|
    && var r, p := b.adjustments[k], b.payments[b.adjustments[k].target];
       && p.customer == r.customer && r.amount <= p.remaining
       && p.account < |b.accounts| && r.amount <= b.accounts[p.account].balance
  }

  /** A refund pays unallocated credit back out of the account that received it. */
  ghost function PayBack(b: Books, k: nat, who: nat, at: int): Books
    requires CanRefund(b, k, who)
  {
    var r := b.adjustments[k];
    var p := b.payments[r.target];
    Decide(b, k, Approved(who, at)).(
      payments := b.payments[r.target := p.(remaining := p.remaining - r.amount, refunded := p.refunded + r.amount)],
      accounts := b.accounts[p.account := Credit(b.accounts[p.account], -r.amount)])
  }

  lemma PayBackKeeps(b: Books, k: nat, who: nat, at: int)
    requires Consistent(b) && CanRefund(b, k, who)
    ensures Consistent(PayBack(b, k, who, at))
  {
    var c, t := PayBack(b, k, who, at), b.adjustments[k].target;
    assert AdjustmentOk(b, k);
    forall i | 0 <= i < |c.invoices|
      ensures InvoiceOk(c, i)
    {
      assert InvoiceOk(b, i);
      SumUpdate(b.adjustments, k, c.adjustments[k], Share(TARGET, CREDITED, i));
      SumUpdate(b.adjustments, k, c.adjustments[k], Share(TARGET, DEBITED, i));
      SumUpdate(b.adjustments, k, c.adjustments[k], Share(TARGET, CANCELLED_BY, i));
    }
    forall p | 0 <= p < |c.payments|
      ensures PaymentOk(c, p)
    {
      assert PaymentOk(b, p);
      SumUpdate(b.adjustments, k, c.adjustments[k], Share(TARGET, REFUNDED_BY, p));
    }
    forall j | 0 <= j < |c.adjustments|
      ensures AdjustmentOk(c, j)
    {
      assert AdjustmentOk(b, j);
    }
    forall j | 0 <= j < |c.allocations|
      ensures AllocationOk(c, j)
    {
      assert AllocationOk(b, j);
    }
    forall j | 0 <= j < |c.accounts|
      ensures AccountOk(c, j)
    {
      assert AccountOk(b, j);
      SumUpdate(b.payments, t, c.payments[t], Share(ACCOUNT, HELD, j));
    }
  }

  // --- Late fees ---------------------------------------------------------------------------

  /** None stands for the refusal of an amount above the supported range. */
  function LateFee(v: Invoice, asOf: int): (fee: Option<int>)
    ensures fee.Some? ==> IsMoney(fee.value)
  {
    if v.status.Cancelled? || v.lateFeeAt.Some? || Outstanding(v) <= 0 || asOf <= v.dueDate + v.graceDays then Some(0)
    else
      var fee := match v.policy
        case NoFee => 0
        case FixedFee(value) => value
        case PercentFee(bps) => Round(Outstanding(v) * bps, BPS);
      if IsMoney(fee) then Some(fee) else None
  }

  /** An issued invoice that has no fee yet and still owes money is charged from the day after its days of grace
      on: a fixed fee, or the nearest whole amount to the percentage of what it owes. No other invoice is. */
  lemma LateFeeMeans(v: Invoice, asOf: int)
    ensures var owed, fee := v.total + v.debit + v.lateFee - v.credit - v.paid, LateFee(v, asOf);
            if v.status.Issued? && v.lateFeeAt.None? && owed > 0 && asOf >= v.dueDate + v.graceDays + 1 then
              match v.policy
              case NoFee => fee == Some(0)
              case FixedFee(value) => fee == if value <= 2147483647 then Some(value) else None
              case PercentFee(bps) =>
                if fee.Some? then 2 * BPS * fee.value - BPS <= 2 * (owed * bps) < 2 * BPS * fee.value + BPS
                else 2 * (owed * bps) >= 2 * BPS * MAX_MONEY + BPS
            else fee == Some(0)
  {
    var owed := v.total + v.debit + v.lateFee - v.credit - v.paid;
    if v.policy.PercentFee? && owed > 0 {
      MulOrder(0, v.policy.bps, owed);
      RoundNearest(owed * v.policy.bps, BPS, Round(owed * v.policy.bps, BPS));
    }
  }

  ghost predicate CanCharge(b: Books, i: nat, asOf: int) {
    && i < |b.invoices| && LateFee(b.invoices[i], asOf).Some? && LateFee(b.invoices[i], asOf).value > 0
    && IsMoney(NetTotal(b.invoices[i]) + LateFee(b.invoices[i], asOf).value)
  }

  ghost function Charge(b: Books, i: nat, asOf: int, at: int): Books
    requires CanCharge(b, i, asOf)
  {
    b.(invoices := b.invoices[i := b.invoices[i].(lateFee := LateFee(b.invoices[i], asOf).value,
                                                  lateFeeAt := Some(at))])
  }

  lemma ChargeKeeps(b: Books, i: nat, asOf: int, at: int)
    requires Consistent(b) && CanCharge(b, i, asOf)
    ensures Consistent(Charge(b, i, asOf, at))
  {
    var c := Charge(b, i, asOf, at);
    forall j | 0 <= j < |c.invoices|
      ensures InvoiceOk(c, j)
    {
      assert InvoiceOk(b, j);
    }
    forall j | 0 <= j < |c.adjustments|
      ensures AdjustmentOk(c, j)
    {
      assert AdjustmentOk(b, j);
    }
    forall j | 0 <= j < |c.allocations|
      ensures AllocationOk(c, j)
    {
      assert AllocationOk(b, j);
    }
    assert forall p :: 0 <= p < |b.payments| ==> PaymentOk(b, p) ==> PaymentOk(c, p);
    assert forall j :: 0 <= j < |b.accounts| ==> AccountOk(b, j) ==> AccountOk(c, j);
  }

  // --- What covers a refund ------------------------------------------------------------------

  /** As long as an account has not given away more outside billing than it got there, it covers every refund
      that the payment itself allows: the account's refusal is only ever the work of money moved elsewhere. */
  lemma RefundCovered(b: Books, p: nat)
    requires Consistent(b) && p < |b.payments| && b.payments[p].account < |b.accounts|
    requires b.accounts[b.payments[p].account].opening >= 0
    ensures b.payments[p].remaining <= b.accounts[b.payments[p].account].balance
  {
    var a := b.payments[p].account;
    assert PaymentOk(b, p) && AccountOk(b, a);
    forall q | 0 <= q < |b.payments|
      ensures Share(ACCOUNT, HELD, a)(b.payments[q]) >= 0
    {
      assert PaymentOk(b, q);
      SpentNonNegative(b, q);
    }
    SumNonNegative(b.payments, Share(ACCOUNT, HELD, a));
    SpentNonNegative(b, p);
  }

  lemma SpentNonNegative(b: Books, p: nat)
    requires Consistent(b)
    ensures SpentFrom(b, p) >= 0
  {
    forall k | 0 <= k < |b.allocations|
      ensures Share(ALLOCATION_PAYMENT, LIVE, p)(b.allocations[k]) >= 0
    {
      assert AllocationOk(b, k);
    }
    SumNonNegative(b.allocations, Share(ALLOCATION_PAYMENT, LIVE, p));
  }

  // --- Cancelling an invoice ---------------------------------------------------------------

  /** What invoice i's live allocations drew from payment p. */
  ghost function Drawn(i: int): Allocation -> int {
    (a: Allocation) => if a.invoice == i then LIVE(a) else 0
  }

  ghost function Released(a: Allocation, i: nat): Allocation {
    if a.invoice == i then a.(released := true) else a
  }

  ghost predicate CanCancel(b: Books, k: nat, who: nat) {
    && CanDecide(b, k, who) && b.adjustments[k].kind.Cancel? && b.adjustments[k].target < |b.invoices|
    && b.invoices[b.adjustments[k].target].status.Issued?
    && b.adjustments[k].amount == NetTotal(b.invoices[b.adjustments[k].target])
  }

  ghost function GivenBack(b: Books, i: nat, p: int): int {
    Sum(b.allocations, Share(ALLOCATION_PAYMENT, Drawn(i), p))
  }

  /** Cancelling returns what the invoice had received to the payments it came from. */
  ghost predicate IsCancellation(b: Books, c: Books, k: nat, who: nat, at: int)
    requires CanCancel(b, k, who)
  {
    var i := b.adjustments[k].target;
    && c.invoices == b.invoices[i := b.invoices[i].(status := Cancelled, paid := 0)]
    && c.adjustments == Decide(b, k, Approved(who, at)).adjustments
    && c.accounts == b.accounts
    && |c.allocations| == |b.allocations| && |c.payments| == |b.payments|
    && (forall j :: 0 <= j < |b.allocations| ==> c.allocations[j] == Released(b.allocations[j], i))
    && (forall p :: 0 <= p < |b.payments| ==>
          c.payments[p] == b.payments[p].(remaining := b.payments[p].remaining + GivenBack(b, i, p)))
  }

  lemma {:induction false} ReleaseShare(rows: seq<Allocation>, rows': seq<Allocation>, i: nat, key: Allocation -> int,
                                        p: int)
    requires |rows'| == |rows| && forall j :: 0 <= j < |rows| ==> rows'[j] == Released(rows[j], i)
    requires forall j :: 0 <= j < |rows| ==> key(rows'[j]) == key(rows[j])
    ensures Sum(rows', Share(key, LIVE, p)) == Sum(rows, Share(key, LIVE, p)) - Sum(rows, Share(key, Drawn(i), p))
  {
    if rows != [] {
      ReleaseShare(rows[..|rows| - 1], rows'[..|rows| - 1], i, key, p);
    }
  }

  lemma DrawnFromOwn(rows: seq<Allocation>, i: nat, j: int)
    ensures Sum(rows, Share(ALLOCATION_INVOICE, Drawn(i), j)) ==
            if i == j then Sum(rows, Share(ALLOCATION_INVOICE, LIVE, j)) else 0
  {
    if i == j {
      SumCong(rows, Share(ALLOCATION_INVOICE, Drawn(i), j), Share(ALLOCATION_INVOICE, LIVE, j));
    } else {
      NoShare(rows, ALLOCATION_INVOICE, Drawn(i), j);
    }
  }

  lemma CancelledInvoice(b: Books, c: Books, k: nat, who: nat, at: int, i: nat)
    requires CanCancel(b, k, who) && IsCancellation(b, c, k, who, at) && AdjustmentOk(b, k)
    requires i < |b.invoices| && InvoiceOk(b, i)
    ensures InvoiceOk(c, i)
  {
    var t := b.adjustments[k].target;
    ReleaseShare(b.allocations, c.allocations, t, ALLOCATION_INVOICE, i);
    DrawnFromOwn(b.allocations, t, i);
    SumUpdate(b.adjustments, k, c.adjustments[k], Share(TARGET, CREDITED, i));
    SumUpdate(b.adjustments, k, c.adjustments[k], Share(TARGET, DEBITED, i));
    SumUpdate(b.adjustments, k, c.adjustments[k], Share(TARGET, CANCELLED_BY, i));
  }

  lemma RefilledPayment(b: Books, c: Books, k: nat, who: nat, at: int, p: nat)
    requires CanCancel(b, k, who) && IsCancellation(b, c, k, who, at)
    requires forall j :: 0 <= j < |b.allocations| ==> AllocationOk(b, j)
    requires p < |b.payments| && PaymentOk(b, p)
    ensures PaymentOk(c, p)
  {
    var t := b.adjustments[k].target;
    ReleaseShare(b.allocations, c.allocations, t, ALLOCATION_PAYMENT, p);
    forall j | 0 <= j < |b.allocations|
      ensures Drawn(t)(b.allocations[j]) >= 0
    {
      assert AllocationOk(b, j);
    }
    SumNonNegative(b.allocations, Share(ALLOCATION_PAYMENT, Drawn(t), p));
    SumUpdate(b.adjustments, k, c.adjustments[k], Share(TARGET, REFUNDED_BY, p));
  }

  lemma CancelKeeps(b: Books, c: Books, k: nat, who: nat, at: int)
    requires Consistent(b) && CanCancel(b, k, who) && IsCancellation(b, c, k, who, at)
    ensures Consistent(c)
  {
    hide InvoiceOk, PaymentOk;
    assert AdjustmentOk(b, k);
    forall i | 0 <= i < |c.invoices|
      ensures InvoiceOk(c, i)
    {
      CancelledInvoice(b, c, k, who, at, i);
    }
    forall p | 0 <= p < |c.payments|
      ensures PaymentOk(c, p)
    {
      RefilledPayment(b, c, k, who, at, p);
    }
    forall j | 0 <= j < |c.allocations|
      ensures AllocationOk(c, j)
    {
      assert AllocationOk(b, j);
    }
    forall j | 0 <= j < |c.adjustments|
      ensures AdjustmentOk(c, j)
    {
      assert AdjustmentOk(b, j);
    }
    forall j | 0 <= j < |c.accounts|
      ensures AccountOk(c, j)
    {
      assert AccountOk(b, j);
      assert forall p :: 0 <= p < |b.payments| ==>
          Share(ACCOUNT, HELD, j)(c.payments[p]) == Share(ACCOUNT, HELD, j)(b.payments[p]);
      SumMatch(b.payments, c.payments, Share(ACCOUNT, HELD, j));
    }
  }
}
