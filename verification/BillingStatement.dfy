/** The customer statement of billing.reports.ts. It is recomputed from the raw events alone, and
    never looks at the running fields that the billing steps keep up to date. */
module BillingStatement {
  import opened Outcomes
  import opened Sums
  import opened BillingBooks

  datatype Source = OfInvoice(row: nat) | OfLateFee(row: nat) | OfPayment(row: nat) | OfAdjustment(row: nat)

  datatype Entry = Entry(source: Source, date: int, amount: int, recordedAt: int)

  datatype Row = Row(entry: Entry, balance: int)

  datatype Statement = Statement(opening: int, closing: int, rows: seq<Row>, outstanding: int, advance: int)

  function DayOf(timestamp: int): int { timestamp / 86400 }

  // --- The events ------------------------------------------------------------------------

  function InvoiceEntries(v: Invoice, i: nat): seq<Entry> {
    [Entry(OfInvoice(i), v.invoiceDate, v.total, v.createdAt)]
    + (if v.lateFeeAt.Some?
       then [Entry(OfLateFee(i), DayOf(v.lateFeeAt.value), v.lateFee, v.lateFeeAt.value)] else [])
  }

  function SignedAmount(r: Adjustment): int {
    if r.kind.Refund? || r.kind.DebitNote? then r.amount else -r.amount
  }

  function EntriesOfInvoices(invoices: seq<Invoice>, c: nat, n: nat): seq<Entry>
    requires n <= |invoices|
  {
    if n == 0 then [] else
      EntriesOfInvoices(invoices, c, n - 1)
      + (if invoices[n - 1].customer == c then InvoiceEntries(invoices[n - 1], n - 1) else [])
  }

  function EntriesOfPayments(payments: seq<Payment>, c: nat, n: nat): seq<Entry>
    requires n <= |payments|
  {
    if n == 0 then [] else
      EntriesOfPayments(payments, c, n - 1)
      + (var p := payments[n - 1];
         if p.customer == c then [Entry(OfPayment(n - 1), p.paymentDate, -p.amount, p.createdAt)] else [])
  }

  function EntriesOfAdjustments(adjustments: seq<Adjustment>, c: nat, n: nat): seq<Entry>
    requires n <= |adjustments|
  {
    if n == 0 then [] else
      EntriesOfAdjustments(adjustments, c, n - 1)
      + (var r := adjustments[n - 1];
         if r.customer == c && r.decision.Approved?
         then [Entry(OfAdjustment(n - 1), DayOf(r.decision.at), SignedAmount(r), r.decision.at)] else [])
  }

  function EntriesOf(b: Books, c: nat): seq<Entry> {
    EntriesOfInvoices(b.invoices, c, |b.invoices|)
    + EntriesOfPayments(b.payments, c, |b.payments|)
    + EntriesOfAdjustments(b.adjustments, c, |b.adjustments|)
  }

  ghost const ENTRY_AMOUNT: Entry -> int := (e: Entry) => e.amount

  // --- The running fields ----------------------------------------------------------------

  ghost function DueOf(b: Books, c: nat): int -> int {
    (i: int) => if 0 <= i < |b.invoices| && b.invoices[i].customer == c then Outstanding(b.invoices[i]) else 0
  }

  ghost function AdvanceOf(b: Books, c: nat): int -> int {
    (p: int) => if 0 <= p < |b.payments| && b.payments[p].customer == c then b.payments[p].remaining else 0
  }

  ghost function ChargedTo(b: Books, c: nat): int -> int {
    (i: int) =>
      if 0 <= i < |b.invoices| && b.invoices[i].customer == c then b.invoices[i].total + b.invoices[i].lateFee else 0
  }

  ghost function ReceivedFrom(b: Books, c: nat): int -> int {
    (p: int) => if 0 <= p < |b.payments| && b.payments[p].customer == c then b.payments[p].amount else 0
  }

  ghost function InvoiceOwner(b: Books, c: nat): int -> bool {
    (i: int) => 0 <= i < |b.invoices| && b.invoices[i].customer == c
  }

  ghost function PaymentOwner(b: Books, c: nat): int -> bool {
    (p: int) => 0 <= p < |b.payments| && b.payments[p].customer == c
  }

  ghost function SignedFor(c: nat): Adjustment -> int {
    (r: Adjustment) => if r.customer == c && r.decision.Approved? then SignedAmount(r) else 0
  }

  /** What an approved adjustment takes off the invoice it names. */
  ghost const LOWERED: Adjustment -> int :=
    (r: Adjustment) => if r.decision.Approved? && !r.kind.Refund? then -SignedAmount(r) else 0

  // --- Adding up the events --------------------------------------------------------------

  lemma OneInvoiceTotal(v: Invoice, i: nat)
    requires v.lateFeeAt.None? ==> v.lateFee == 0
    ensures Sum(InvoiceEntries(v, i), ENTRY_AMOUNT) == v.total + v.lateFee
  {
    var first := Entry(OfInvoice(i), v.invoiceDate, v.total, v.createdAt);
    SumAppend([], first, ENTRY_AMOUNT);
    assert [] + [first] == [first];
    if v.lateFeeAt.Some? {
      SumAppend([first], Entry(OfLateFee(i), DayOf(v.lateFeeAt.value), v.lateFee, v.lateFeeAt.value), ENTRY_AMOUNT);
    } else {
      assert [first] + [] == [first];
    }
  }

  lemma FeeSaysWhen(b: Books, i: nat)
    requires Consistent(b) && i < |b.invoices|
    ensures b.invoices[i].lateFeeAt.None? ==> b.invoices[i].lateFee == 0
  {
    assert InvoiceOk(b, i);
  }

  lemma {:induction false} InvoiceEntriesTotal(b: Books, c: nat, n: nat)
    requires Consistent(b) && n <= |b.invoices|
    ensures Sum(EntriesOfInvoices(b.invoices, c, n), ENTRY_AMOUNT) == Sigma(n, ChargedTo(b, c))
  {
    hide Consistent, InvoiceEntries;
    if n > 0 {
      InvoiceEntriesTotal(b, c, n - 1);
      var v, before := b.invoices[n - 1], EntriesOfInvoices(b.invoices, c, n - 1);
      if v.customer == c {
        FeeSaysWhen(b, n - 1);
        OneInvoiceTotal(v, n - 1);
        SumConcat(before, InvoiceEntries(v, n - 1), ENTRY_AMOUNT);
      } else {
        assert EntriesOfInvoices(b.invoices, c, n) == before;
      }
    }
  }

  lemma {:induction false} PaymentEntriesTotal(b: Books, c: nat, n: nat)
    requires n <= |b.payments|
    ensures Sum(EntriesOfPayments(b.payments, c, n), ENTRY_AMOUNT) == -Sigma(n, ReceivedFrom(b, c))
  {
    if n > 0 {
      PaymentEntriesTotal(b, c, n - 1);
      var p, before := b.payments[n - 1], EntriesOfPayments(b.payments, c, n - 1);
      if p.customer == c {
        SumAppend(before, Entry(OfPayment(n - 1), p.paymentDate, -p.amount, p.createdAt), ENTRY_AMOUNT);
      } else {
        assert EntriesOfPayments(b.payments, c, n) == before;
      }
    }
  }

  lemma {:induction false} AdjustmentEntriesTotal(b: Books, c: nat, n: nat)
    requires n <= |b.adjustments|
    ensures Sum(EntriesOfAdjustments(b.adjustments, c, n), ENTRY_AMOUNT) == Sum(b.adjustments[..n], SignedFor(c))
  {
    hide Sum, SignedAmount, DayOf;
    if n == 0 {
      NothingTotal(ENTRY_AMOUNT);
      NothingTotal(SignedFor(c));
      assert b.adjustments[..0] == [];
    } else {
      AdjustmentEntriesTotal(b, c, n - 1);
      var r, before := b.adjustments[n - 1], EntriesOfAdjustments(b.adjustments, c, n - 1);
      SumAppend(b.adjustments[..n - 1], r, SignedFor(c));
      assert b.adjustments[..n] == b.adjustments[..n - 1] + [r];
      if r.customer == c && r.decision.Approved? {
        SumAppend(before, Entry(OfAdjustment(n - 1), DayOf(r.decision.at), SignedAmount(r), r.decision.at),
                  ENTRY_AMOUNT);
      } else {
        assert EntriesOfAdjustments(b.adjustments, c, n) == before;
      }
    }
  }

  lemma {:induction false} LoweredSplits(rows: seq<Adjustment>, i: int)
    ensures Sum(rows, Share(TARGET, LOWERED, i)) ==
            Sum(rows, Share(TARGET, CREDITED, i)) + Sum(rows, Share(TARGET, CANCELLED_BY, i))
            - Sum(rows, Share(TARGET, DEBITED, i))
  {
    if rows != [] {
      LoweredSplits(rows[..|rows| - 1], i);
    }
  }

  /** What is outstanding, from the charges, the adjustments and the allocations of the customer. */
  lemma DueTotal(b: Books, c: nat)
    requires Consistent(b)
    ensures Sigma(|b.invoices|, DueOf(b, c)) ==
            Sigma(|b.invoices|, ChargedTo(b, c))
            - Sum(b.adjustments, Chosen(TARGET, LOWERED, InvoiceOwner(b, c)))
            - Sum(b.allocations, Chosen(ALLOCATION_INVOICE, LIVE, InvoiceOwner(b, c)))
  {
    var n, mine := |b.invoices|, InvoiceOwner(b, c);
    var lowered := OwnerTotal(b.adjustments, TARGET, LOWERED, mine);
    var paid := OwnerTotal(b.allocations, ALLOCATION_INVOICE, LIVE, mine);
    var asked := (i: int) => ChargedTo(b, c)(i) - lowered(i);
    forall i | 0 <= i < n
      ensures DueOf(b, c)(i) == asked(i) - paid(i)
    {
      assert InvoiceOk(b, i);
      LoweredSplits(b.adjustments, i);
    }
    SigmaMinus(n, ChargedTo(b, c), lowered, asked);
    SigmaMinus(n, asked, paid, DueOf(b, c));
    forall k | 0 <= k < |b.adjustments|
      ensures 0 <= TARGET(b.adjustments[k]) < n || LOWERED(b.adjustments[k]) == 0
    {
      assert AdjustmentOk(b, k);
    }
    forall k | 0 <= k < |b.allocations|
      ensures 0 <= ALLOCATION_INVOICE(b.allocations[k]) < n
    {
      assert AllocationOk(b, k);
    }
    Exchange(n, b.adjustments, TARGET, LOWERED, mine);
    Exchange(n, b.allocations, ALLOCATION_INVOICE, LIVE, mine);
  }

  /** The unapplied credit, from the payments, the refunds and the allocations of the customer. */
  lemma AdvanceTotal(b: Books, c: nat)
    requires Consistent(b)
    ensures Sigma(|b.payments|, AdvanceOf(b, c)) ==
            Sigma(|b.payments|, ReceivedFrom(b, c))
            - Sum(b.adjustments, Chosen(TARGET, REFUNDED_BY, PaymentOwner(b, c)))
            - Sum(b.allocations, Chosen(ALLOCATION_PAYMENT, LIVE, PaymentOwner(b, c)))
  {
    var n, mine := |b.payments|, PaymentOwner(b, c);
    var refunded := OwnerTotal(b.adjustments, TARGET, REFUNDED_BY, mine);
    var spent := OwnerTotal(b.allocations, ALLOCATION_PAYMENT, LIVE, mine);
    var kept := (p: int) => ReceivedFrom(b, c)(p) - refunded(p);
    forall p | 0 <= p < n
      ensures AdvanceOf(b, c)(p) == kept(p) - spent(p)
    {
      assert PaymentOk(b, p);
    }
    SigmaMinus(n, ReceivedFrom(b, c), refunded, kept);
    SigmaMinus(n, kept, spent, AdvanceOf(b, c));
    forall k | 0 <= k < |b.adjustments|
      ensures 0 <= TARGET(b.adjustments[k]) < n || REFUNDED_BY(b.adjustments[k]) == 0
    {
      assert AdjustmentOk(b, k);
    }
    forall k | 0 <= k < |b.allocations|
      ensures 0 <= ALLOCATION_PAYMENT(b.allocations[k]) < n
    {
      assert AllocationOk(b, k);
    }
    Exchange(n, b.adjustments, TARGET, REFUNDED_BY, mine);
    Exchange(n, b.allocations, ALLOCATION_PAYMENT, LIVE, mine);
  }

  /** The statement agrees with the running fields: in any consistent books, a customer's events add
      up to what their invoices still ask minus what their payments still hold. */
  lemma ClosingAgrees(b: Books, c: nat)
    requires Consistent(b)
    ensures Sum(EntriesOf(b, c), ENTRY_AMOUNT) ==
            Sigma(|b.invoices|, DueOf(b, c)) - Sigma(|b.payments|, AdvanceOf(b, c))
  {
    var onInvoices := Chosen(TARGET, LOWERED, InvoiceOwner(b, c));
    var onPayments := Chosen(TARGET, REFUNDED_BY, PaymentOwner(b, c));
    DueTotal(b, c);
    AdvanceTotal(b, c);
    forall k | 0 <= k < |b.adjustments|
      ensures SignedFor(c)(b.adjustments[k]) == onPayments(b.adjustments[k]) - onInvoices(b.adjustments[k])
    {
      assert AdjustmentOk(b, k);
    }
    SumMinus(b.adjustments, onPayments, onInvoices, SignedFor(c));
    var toInvoices := Chosen(ALLOCATION_INVOICE, LIVE, InvoiceOwner(b, c));
    var fromPayments := Chosen(ALLOCATION_PAYMENT, LIVE, PaymentOwner(b, c));
    forall k | 0 <= k < |b.allocations|
      ensures toInvoices(b.allocations[k]) == fromPayments(b.allocations[k])
    {
      assert AllocationOk(b, k);
    }
    SumCong(b.allocations, toInvoices, fromPayments);
    InvoiceEntriesTotal(b, c, |b.invoices|);
    PaymentEntriesTotal(b, c, |b.payments|);
    AdjustmentEntriesTotal(b, c, |b.adjustments|);
    assert b.adjustments[..|b.adjustments|] == b.adjustments;
    var first := EntriesOfInvoices(b.invoices, c, |b.invoices|);
    var second := EntriesOfPayments(b.payments, c, |b.payments|);
    SumConcat(first, second, ENTRY_AMOUNT);
    SumConcat(first + second, EntriesOfAdjustments(b.adjustments, c, |b.adjustments|), ENTRY_AMOUNT);
  }
}
