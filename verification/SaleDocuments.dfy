/** The document workflow of accounting/workflow.ts and accounting.routes.ts with the tax ledger of `postTax`: priced
    documents become sales, which post their tax when issued, reverse it when cancelled, and are paid while issued. */
module SaleDocuments {
  import opened Outcomes
  import opened Rounding
  import opened Sums
  import T = TaxEngine
  import D = TaxDocuments
  import M = TaxMeaning

  type RateId = T.RateId

  datatype DocKind = Quotation | Order | Sale

  datatype Status =
    | Draft | Sent | Accepted | Rejected | Expired | Converted
    | Confirmed | Fulfilling | Complete | Issued | Cancelled

  datatype Action = Send | Accept | Reject | Expire | Confirm | Fulfill | Issue | Cancel

  datatype Workflow = Workflow(quotations: bool, orders: bool, allowSkip: bool)

  /** One row of a tax snapshot's breakdown. */
  datatype TaxRow = TaxRow(rate: RateId, kind: T.RateKind, amount: int, base: int)

  /** `tax` is the snapshot's tax, or the amount entered by hand when there is none. */
  datatype Doc = Doc(
    kind: DocKind, status: Status, revision: nat, total: int, tax: int, snapshot: Option<T.Snapshot>, paid: int,
    source: Option<nat>, key: nat)

  datatype Payment = Payment(doc: nat, account: nat, amount: int, date: int, reference: Option<nat>, key: nat)

  /** What a request says about a document: line totals, discount, charges, tax, dates and the total it expects. */
  datatype Input = Input(
    amounts: seq<int>, discount: int, charges: seq<T.Charge>, selection: Option<T.Selection>, manualTax: int,
    documentDate: int, dueDate: Option<int>, expectedTotal: Option<int>)

  datatype Price = Price(total: int, tax: int, snapshot: Option<T.Snapshot>)

  /** A tax ledger row is keyed by document, rate and whether it is a reversal. */
  datatype EntryKey = EntryKey(doc: nat, rate: RateId, reversal: bool)

  datatype Entry = Entry(kind: T.RateKind, amount: int, base: int)

  // --- Pricing -------------------------------------------------------------------------------

  /** `calculate`: the total with a tax amount entered by hand. */
  function Calculate(input: Input): Result<int> {
    var items := Prefix(input.amounts, |input.amounts|);
    var subtotal := items + T.ChargesTotal(input.charges, |input.charges|);
    var total := subtotal - input.discount + input.manualTax;
    if input.discount > items || total <= 0 || subtotal > MAX_MONEY || total > MAX_MONEY
    then Err(BadRequest)
    else Ok(total)
  }

  function TaxDocument(kind: DocKind): T.Document { if kind.Quotation? then T.Quotation else T.Sale }

  /** The tax and the total of a document. */
  function PriceOf(setup: T.Setup, admin: bool, kind: DocKind, input: Input, previous: D.Previous): Result<Price> {
    var tax := D.DocumentTax(setup, admin, TaxDocument(kind), input.amounts, input.discount, input.selection,
                             input.manualTax, previous, input.charges);
    if tax.Err? then Err(tax.error)
    else
      var byHand := Calculate(input);
      if byHand.Err? then Err(byHand.error)
      else
        var price := match tax.value
          case Some(s) => Price(s.totals.payable, s.totals.tax, tax.value)
          case None => Price(byHand.value, input.manualTax, None);
        if input.expectedTotal.Some? && input.expectedTotal.value != price.total then Err(Conflict) else Ok(price)
  }

  /** A document priced for the first time. Without a snapshot its total is what the lines and charges come to, less
      the discount, plus the tax entered by hand; with one, it is the payable amount of a tax calculation for a
      quotation or, for orders and sales, a sale. A total that the client did not expect is refused. */
  lemma PriceMeans(setup: T.Setup, admin: bool, kind: DocKind, input: Input)
    requires T.RatesOk(setup.rates)
    ensures var r := PriceOf(setup, admin, kind, input, D.Nothing);
            r.Ok? ==>
              var p := r.value;
              && (input.expectedTotal.Some? ==> input.expectedTotal.value == p.total)
              && input.discount <= Prefix(input.amounts, |input.amounts|)
              && match p.snapshot
                 case None =>
                   && p.tax == input.manualTax && 0 < p.total <= 2147483647
                   && p.total == Prefix(input.amounts, |input.amounts|) + T.ChargesTotal(input.charges, |input.charges|)
                                 - input.discount + input.manualTax
                 case Some(s) =>
                   && p.total == s.totals.payable && p.tax == s.totals.tax
                   && M.Explained(setup.rates, if kind.Quotation? then T.Quotation else T.Sale, s.terms, input.amounts,
                                  input.discount, input.charges, s.totals)
  {
    hide M.Explained, T.Compute, T.RatesOk;
    var d := TaxDocument(kind);
    M.TaxExplained(setup, d, input.amounts, input.discount, D.PLAIN, input.charges);
    if input.selection.Some? {
      M.TaxExplained(setup, d, input.amounts, input.discount, input.selection.value, input.charges);
    }
  }

  /** Without configured rates and a selection a price is refused for nothing else than that. */
  lemma PricedByHand(setup: T.Setup, admin: bool, kind: DocKind, input: Input)
    requires setup.rates == [] && input.selection == None
    ensures var items := Prefix(input.amounts, |input.amounts|);
            var charged := T.ChargesTotal(input.charges, |input.charges|);
            var total := items + charged - input.discount + input.manualTax;
            PriceOf(setup, admin, kind, input, D.Nothing).Ok? <==>
              && input.discount <= items && 0 < total <= 2147483647 && items + charged <= 2147483647
              && (input.expectedTotal.Some? ==> input.expectedTotal.value == total)
  {
  }

  /** What a document held before it is edited. */
  function PreviousOf(d: Doc): D.Previous {
    if d.snapshot.Some? then D.Saved(d.snapshot.value) else D.FixedTax(d.tax)
  }

  /** Editing a document without touching its tax terms keeps its price, however the rates and defaults have changed
      since, under the kind it was priced as or the one it was converted into. */
  lemma PriceAgain(before: T.Setup, after: T.Setup, admin: bool, k: T.Document, input: Input, d: Doc,
                   selection: T.Selection)
    requires d.snapshot.Some? && Calculate(input).Ok? && input.expectedTotal == None
    requires T.TaxOf(before, k, input.amounts, input.discount, selection, input.charges) == Ok(d.snapshot.value)
    requires input.selection == Some(D.OwnSelection(d.snapshot.value))
    ensures var r := PriceOf(after, admin, d.kind, input, PreviousOf(d));
            && r.Ok? && r.value.total == d.snapshot.value.totals.payable && r.value.tax == d.snapshot.value.totals.tax
            && r.value.snapshot.Some? && r.value.snapshot.value.totals == d.snapshot.value.totals
            && r.value.snapshot.value.terms == d.snapshot.value.terms
  {
    hide D.DocumentTax, Calculate, T.TaxOf;
    D.Replay(before, after, admin, k, TaxDocument(d.kind), input.amounts, input.discount, selection, input.manualTax,
             input.charges);
  }

  /** A document from before rates were configured keeps the tax entered by hand, however rates have changed since. */
  lemma FixedAgain(after: T.Setup, admin: bool, input: Input, d: Doc)
    requires d.snapshot == None && input.selection == None && input.manualTax == d.tax && input.charges == []
    requires Calculate(input).Ok? && input.expectedTotal == None
    ensures PriceOf(after, admin, d.kind, input, PreviousOf(d)) == Ok(Price(Calculate(input).value, d.tax, None))
  {
    D.TaxByHand(after, admin, TaxDocument(d.kind), input.amounts, input.discount, d.tax, D.FixedTax(d.tax), []);
  }

  /** Which documents can be made directly: kinds that are in use, and the first of those unless steps may be
      skipped. */
  ghost predicate MayStart(kind: DocKind, w: Workflow) {
    match kind
    case Quotation => w.quotations
    case Order => w.orders && (w.allowSkip || !w.quotations)
    case Sale => w.allowSkip || (!w.quotations && !w.orders)
  }

  /** `allowDirect`. */
  function AllowDirect(kind: DocKind, w: Workflow): Option<Error> {
    if (kind.Quotation? && !w.quotations) || (kind.Order? && !w.orders) then Some(BadRequest)
    else if !w.allowSkip
            && ((kind.Order? && w.quotations) || (kind.Sale? && (w.quotations || w.orders))) then Some(Conflict)
    else None
  }

  function RowsOf(groups: seq<T.Group>): seq<TaxRow> {
    seq(|groups|, k requires 0 <= k < |groups| =>
      TaxRow(groups[k].rate, groups[k].kind, groups[k].amount, groups[k].base))
  }

  /** The rows that posting the tax of a document goes through. */
  function TaxRows(d: Doc): seq<TaxRow> {
    if d.snapshot.Some? then RowsOf(d.snapshot.value.totals.breakdown) else []
  }

  function NextStatus(kind: DocKind, current: Status, action: Action, paid: int): Option<Status> {
    match (kind, current, action)
    case (Quotation, Draft, Send) => Some(Sent)
    case (Quotation, Draft, Cancel) => Some(Cancelled)
    case (Quotation, Sent, Accept) => Some(Accepted)
    case (Quotation, Sent, Reject) => Some(Rejected)
    case (Quotation, Sent, Expire) => Some(Expired)
    case (Quotation, Sent, Cancel) => Some(Cancelled)
    case (Quotation, Accepted, Cancel) => Some(Cancelled)
    case (Order, Draft, Confirm) => Some(Confirmed)
    case (Order, Draft, Cancel) => Some(Cancelled)
    case (Order, Confirmed, Fulfill) => Some(Fulfilling)
    case (Order, Confirmed, Cancel) => Some(Cancelled)
    case (Order, Fulfilling, Cancel) => Some(Cancelled)
    case (Sale, Draft, Issue) => Some(Issued)
    case (Sale, Draft, Cancel) => if paid > 0 then None else Some(Cancelled)
    case (Sale, Issued, Cancel) => if paid > 0 then None else Some(Cancelled)
    case _ => None
  }

  /** The life of a document, by kind, status and action. */
  ghost const LIFE: set<(DocKind, Status, Action, Status)> := {
    (Quotation, Draft, Send, Sent), (Quotation, Sent, Accept, Accepted), (Quotation, Sent, Reject, Rejected),
    (Quotation, Sent, Expire, Expired), (Order, Draft, Confirm, Confirmed), (Order, Confirmed, Fulfill, Fulfilling),
    (Sale, Draft, Issue, Issued),
    (Quotation, Draft, Cancel, Cancelled), (Quotation, Sent, Cancel, Cancelled),
    (Quotation, Accepted, Cancel, Cancelled),
    (Order, Draft, Cancel, Cancelled), (Order, Confirmed, Cancel, Cancelled), (Order, Fulfilling, Cancel, Cancelled),
    (Sale, Draft, Cancel, Cancelled), (Sale, Issued, Cancel, Cancelled)}

  /** An action leads from one status to the next; a sale with payments is not cancelled. */
  ghost predicate LeadsTo(d: Doc, action: Action, next: Status) {
    (d.kind, d.status, action, next) in LIFE && (d.kind == Sale && action == Cancel ==> d.paid <= 0)
  }

  lemma NextStatusMeans(d: Doc, action: Action, next: Status)
    ensures NextStatus(d.kind, d.status, action, d.paid) == Some(next) <==> LeadsTo(d, action, next)
  {
  }

  /** An accepted quotation becomes an order if orders are in use, or a sale if they are not or may be skipped; a
      confirmed order becomes a sale. */
  ghost predicate Convertible(d: Doc, target: DocKind, w: Workflow) {
    match target
    case Quotation => false
    case Order => d.kind == Quotation && d.status == Accepted && w.orders
    case Sale => if d.kind == Order then d.status == Confirmed || d.status == Fulfilling
                 else d.kind == Quotation && d.status == Accepted && (w.orders ==> w.allowSkip)
  }

  predicate MayConvert(kind: DocKind, status: Status, target: DocKind, w: Workflow) {
    || (kind.Quotation? && status.Accepted? &&
        ((target.Order? && w.orders) || (target.Sale? && (!w.orders || w.allowSkip))))
    || (kind.Order? && (status.Confirmed? || status.Fulfilling?) && target.Sale?)
  }

  // --- The tax ledger ------------------------------------------------------------------------

  type TaxLedger = map<EntryKey, Entry>

  function RowEntry(row: TaxRow, reverse: bool): Entry {
    Entry(row.kind, row.amount * (if reverse then -1 else 1), row.base)
  }

  /** An upsert whose update is empty: the first write of a key stays. */
  function PutOnce(ledger: TaxLedger, key: EntryKey, e: Entry): TaxLedger {
    if key in ledger then ledger else ledger[key := e]
  }

  /** The ledger after the first n breakdown rows have been posted; rows without an amount are skipped. */
  function Posted(ledger: TaxLedger, doc: nat, rows: seq<TaxRow>, reverse: bool, n: nat): TaxLedger
    requires n <= |rows|
  {
    if n == 0 then ledger
    else
      var before := Posted(ledger, doc, rows, reverse, n - 1);
      if rows[n - 1].amount == 0 then before
      else PutOnce(before, EntryKey(doc, rows[n - 1].rate, reverse), RowEntry(rows[n - 1], reverse))
  }

  predicate DistinctRates(rows: seq<TaxRow>) {
    forall i, j :: 0 <= i < j < |rows| ==> rows[i].rate != rows[j].rate
  }

  /** The row of a rate that has something to post. */
  ghost predicate Posts(rows: seq<TaxRow>, n: nat, i: nat, rate: RateId)
    requires n <= |rows|
  {
    i < n && rows[i].rate == rate && rows[i].amount != 0
  }

  ghost predicate HasRate(rows: seq<TaxRow>, n: nat, rate: RateId)
    requires n <= |rows|
  {
    exists i: nat :: Posts(rows, n, i, rate)
  }

  ghost predicate Same(ledger: TaxLedger, after: TaxLedger, k: EntryKey) {
    (k in after <==> k in ledger) && (k in after ==> after[k] == ledger[k])
  }

  /** Posting writes exactly the rows with an amount, under this document and direction, and nothing else. */
  lemma {:induction false} PostedEntries(ledger: TaxLedger, doc: nat, rows: seq<TaxRow>, reverse: bool, n: nat)
    requires n <= |rows| && DistinctRates(rows)
    requires forall rate :: EntryKey(doc, rate, reverse) !in ledger
    ensures var after := Posted(ledger, doc, rows, reverse, n);
            && (forall k: EntryKey :: k.doc != doc || k.reversal != reverse ==> Same(ledger, after, k))
            && (forall rate :: EntryKey(doc, rate, reverse) in after <==> HasRate(rows, n, rate))
            && (forall i: nat, rate ::
                 Posts(rows, n, i, rate) ==> after[EntryKey(doc, rate, reverse)] == RowEntry(rows[i], reverse))
  {
    if n > 0 {
      PostedEntries(ledger, doc, rows, reverse, n - 1);
      var before, after, row :=
        Posted(ledger, doc, rows, reverse, n - 1), Posted(ledger, doc, rows, reverse, n), rows[n - 1];
      assert !HasRate(rows, n - 1, row.rate);
      forall rate
        ensures HasRate(rows, n, rate) <==> HasRate(rows, n - 1, rate) || (rate == row.rate && row.amount != 0)
      {
        if HasRate(rows, n - 1, rate) {
          var i: nat :| Posts(rows, n - 1, i, rate);
          assert Posts(rows, n, i, rate);
        }
        if rate == row.rate && row.amount != 0 {
          assert Posts(rows, n, n - 1, rate);
        }
        if HasRate(rows, n, rate) {
          var i: nat :| Posts(rows, n, i, rate);
          assert i < n - 1 ==> Posts(rows, n - 1, i, rate);
        }
      }
      forall i: nat, rate | Posts(rows, n, i, rate)
        ensures EntryKey(doc, rate, reverse) in after
                && after[EntryKey(doc, rate, reverse)] == RowEntry(rows[i], reverse)
      {
        assert HasRate(rows, n, rate);
        if i < n - 1 {
          assert Posts(rows, n - 1, i, rate);
        }
      }
    }
  }

  /** Posting again, after a retry, changes nothing. */
  lemma {:induction false} PostingIsIdempotent(ledger: TaxLedger, doc: nat, rows: seq<TaxRow>, reverse: bool, n: nat)
    requires n <= |rows|
    requires forall i :: 0 <= i < n && rows[i].amount != 0 ==> EntryKey(doc, rows[i].rate, reverse) in ledger
    ensures Posted(ledger, doc, rows, reverse, n) == ledger
  {
    if n > 0 {
      PostingIsIdempotent(ledger, doc, rows, reverse, n - 1);
    }
  }

  lemma {:induction false} PostedHas(ledger: TaxLedger, doc: nat, rows: seq<TaxRow>, reverse: bool, n: nat, i: nat)
    requires i < n <= |rows| && rows[i].amount != 0
    ensures EntryKey(doc, rows[i].rate, reverse) in Posted(ledger, doc, rows, reverse, n)
  {
    if i < n - 1 {
      PostedHas(ledger, doc, rows, reverse, n - 1, i);
    }
  }

  lemma PostTwice(ledger: TaxLedger, doc: nat, rows: seq<TaxRow>, reverse: bool)
    ensures var once := Posted(ledger, doc, rows, reverse, |rows|);
            Posted(once, doc, rows, reverse, |rows|) == once
  {
    var once := Posted(ledger, doc, rows, reverse, |rows|);
    forall i | 0 <= i < |rows| && rows[i].amount != 0
      ensures EntryKey(doc, rows[i].rate, reverse) in once
    {
      PostedHas(ledger, doc, rows, reverse, |rows|, i);
    }
    PostingIsIdempotent(once, doc, rows, reverse, |rows|);
  }

  /** What the ledger says about one rate of a document, with its reversal. */
  function Net(ledger: TaxLedger, doc: nat, rate: RateId): int {
    (if EntryKey(doc, rate, false) in ledger then ledger[EntryKey(doc, rate, false)].amount else 0)
    + (if EntryKey(doc, rate, true) in ledger then ledger[EntryKey(doc, rate, true)].amount else 0)
  }

  /** The snapshot's amount for a rate. */
  function TaxFor(rows: seq<TaxRow>, rate: RateId): int {
    if rows == [] then 0 else if rows[0].rate == rate then rows[0].amount else TaxFor(rows[1..], rate)
  }

  lemma {:induction false} TaxForRow(rows: seq<TaxRow>, i: nat, rate: RateId)
    requires DistinctRates(rows)
    ensures Posts(rows, |rows|, i, rate) ==> TaxFor(rows, rate) == rows[i].amount
    ensures !HasRate(rows, |rows|, rate) ==> TaxFor(rows, rate) == 0
  {
    if rows != [] {
      TaxForRow(rows[1..], if i > 0 then i - 1 else 0, rate);
      if !HasRate(rows, |rows|, rate) {
        assert !Posts(rows, |rows|, 0, rate);
        forall k: nat | Posts(rows[1..], |rows[1..]|, k, rate)
          ensures false
        {
          assert Posts(rows, |rows|, k + 1, rate);
        }
      }
    }
  }

  // --- Documents and payments ------------------------------------------------------------------

  ghost const DOC: Payment -> int := (p: Payment) => p.doc

  ghost const PAID_AMOUNT: Payment -> int := (p: Payment) => p.amount

  /** The tax rows of a document stand in the ledger as its status demands. */
  ghost predicate LedgerOk(ledger: TaxLedger, id: nat, d: Doc) {
    if d.kind.Sale? && d.status.Issued? then
      && (forall rate :: EntryKey(id, rate, true) !in ledger)
      && (forall rate :: EntryKey(id, rate, false) in ledger <==> HasRate(TaxRows(d), |TaxRows(d)|, rate))
      && (forall i: nat, rate ::
           Posts(TaxRows(d), |TaxRows(d)|, i, rate) ==>
             ledger[EntryKey(id, rate, false)] == RowEntry(TaxRows(d)[i], false))
    else if d.kind.Sale? && d.status.Cancelled? then
      forall rate ::
        && (EntryKey(id, rate, false) in ledger <==> EntryKey(id, rate, true) in ledger)
        && (EntryKey(id, rate, false) in ledger ==>
              && ledger[EntryKey(id, rate, true)].amount == -ledger[EntryKey(id, rate, false)].amount
              && ledger[EntryKey(id, rate, true)].base == ledger[EntryKey(id, rate, false)].base)
    else forall rate, reverse :: EntryKey(id, rate, reverse) !in ledger
  }

  /** A computed snapshot has one group per rate, adds up to the tax, and sets the total. */
  ghost predicate PricedOk(d: Doc) {
    d.snapshot.Some? ==>
      var t := d.snapshot.value.totals;
      && T.DistinctGroups(t.breakdown) && D.PreviousOk(D.Saved(d.snapshot.value))
      && T.AddedAmount(t.breakdown) == t.tax == d.tax && d.total == t.payable && 0 <= d.tax <= d.total <= MAX_MONEY
  }

  lemma RowsDistinct(d: Doc)
    requires PricedOk(d)
    ensures DistinctRates(TaxRows(d))
  {
  }

  /** Every price that can come about makes such a document. */
  lemma PriceGivesOk(setup: T.Setup, admin: bool, kind: DocKind, input: Input, previous: D.Previous, d: Doc)
    requires T.RatesOk(setup.rates) && D.PreviousOk(previous)
    requires PriceOf(setup, admin, kind, input, previous) == Ok(Price(d.total, d.tax, d.snapshot))
    ensures PricedOk(d)
  {
    hide T.RatesOk, T.DistinctGroups, D.DocumentTax, Calculate;
    D.DocumentTaxConserves(setup, admin, TaxDocument(kind), input.amounts, input.discount, input.selection,
                           input.manualTax, previous, input.charges);
  }

  /** What a document held can be replayed. */
  lemma PreviousIsOk(d: Doc)
    requires PricedOk(d)
    ensures D.PreviousOk(PreviousOf(d))
  {
  }

  ghost predicate DocOk(docs: seq<Doc>, payments: seq<Payment>, ledger: TaxLedger, id: nat)
    requires id < |docs|
  {
    var d := docs[id];
    && PricedOk(d) && LedgerOk(ledger, id, d)
    && d.paid == Sum(payments, Share(DOC, PAID_AMOUNT, id)) && 0 <= d.paid
    && (d.paid > 0 ==> d.kind.Sale? && d.status.Issued? && d.paid <= d.total)
    && (d.source.Some? ==>
          d.source.value < id && docs[d.source.value].status ==
                                 (if docs[d.source.value].kind.Quotation? then Converted else Complete))
  }

  /** The ledger of a document: its snapshot while it is issued, nothing in net otherwise. */
  lemma LedgerMeansTax(ledger: TaxLedger, id: nat, d: Doc, rate: RateId)
    requires DistinctRates(TaxRows(d)) && LedgerOk(ledger, id, d)
    ensures Net(ledger, id, rate) == if d.kind.Sale? && d.status.Issued? then TaxFor(TaxRows(d), rate) else 0
  {
    TaxForRow(TaxRows(d), 0, rate);
    if d.kind.Sale? && d.status.Issued? && HasRate(TaxRows(d), |TaxRows(d)|, rate) {
      var i: nat :| Posts(TaxRows(d), |TaxRows(d)|, i, rate);
      TaxForRow(TaxRows(d), i, rate);
    }
  }

  /** The ledger of an issued sale has every rate of its snapshot that comes to something, with its kind, its amount
      and its base, and nothing else. */
  lemma LedgerMeansGroups(docs: seq<Doc>, payments: seq<Payment>, ledger: TaxLedger, id: nat, rate: RateId)
    requires Consistent(docs, payments, ledger) && id < |docs| && docs[id].kind.Sale? && docs[id].status.Issued?
    ensures var d, key := docs[id], EntryKey(id, rate, false);
            if key in ledger then
              && d.snapshot.Some?
              && exists k :: 0 <= k < |d.snapshot.value.totals.breakdown|
                             && var g := d.snapshot.value.totals.breakdown[k];
                                g.rate == rate && g.amount != 0 && ledger[key] == Entry(g.kind, g.amount, g.base)
            else d.snapshot.Some? ==>
              forall k :: 0 <= k < |d.snapshot.value.totals.breakdown| ==>
                var g := d.snapshot.value.totals.breakdown[k]; g.rate == rate ==> g.amount == 0
  {
    var d, key := docs[id], EntryKey(id, rate, false);
    assert DocOk(docs, payments, ledger, id);
    if key in ledger {
      var i: nat :| Posts(TaxRows(d), |TaxRows(d)|, i, rate);
      var g := d.snapshot.value.totals.breakdown[i];
      assert g.rate == rate && g.amount != 0 && ledger[key] == Entry(g.kind, g.amount, g.base);
    } else if d.snapshot.Some? {
      forall k | 0 <= k < |TaxRows(d)|
        ensures TaxRows(d)[k].rate == rate ==> TaxRows(d)[k].amount == 0
      {
        assert TaxRows(d)[k].rate == rate && TaxRows(d)[k].amount != 0 ==> Posts(TaxRows(d), |TaxRows(d)|, k, rate);
      }
      var groups := d.snapshot.value.totals.breakdown;
      assert forall k :: 0 <= k < |groups| ==>
          TaxRows(d)[k].rate == groups[k].rate && TaxRows(d)[k].amount == groups[k].amount;
    }
  }

  /** The net of the added rates of a document, over its breakdown. */
  function AddedNet(ledger: TaxLedger, id: nat, rows: seq<TaxRow>): int {
    if rows == [] then 0
    else (if rows[0].kind.Add? then Net(ledger, id, rows[0].rate) else 0) + AddedNet(ledger, id, rows[1..])
  }

  lemma {:induction false} AddedNetTotals(ledger: TaxLedger, id: nat, groups: seq<T.Group>)
    requires forall k :: 0 <= k < |groups| ==> Net(ledger, id, groups[k].rate) == groups[k].amount
    ensures AddedNet(ledger, id, RowsOf(groups)) == T.AddedAmount(groups)
  {
    hide Net;
    if groups != [] {
      assert RowsOf(groups)[1..] == RowsOf(groups[1..]);
      assert forall k :: 0 <= k < |groups[1..]| ==> groups[1..][k] == groups[k + 1];
      AddedNetTotals(ledger, id, groups[1..]);
    }
  }

  lemma {:induction false} NoNet(ledger: TaxLedger, id: nat, rows: seq<TaxRow>)
    requires forall k :: 0 <= k < |rows| ==> Net(ledger, id, rows[k].rate) == 0
    ensures AddedNet(ledger, id, rows) == 0
  {
    if rows != [] {
      NoNet(ledger, id, rows[1..]);
    }
  }

  /** In the books, the added rates of an issued sale come to exactly the tax in its total, and those of every
      other document to nothing. */
  lemma LedgerMeansTotal(docs: seq<Doc>, payments: seq<Payment>, ledger: TaxLedger, id: nat)
    requires Consistent(docs, payments, ledger) && id < |docs| && docs[id].snapshot.Some?
    ensures var d := docs[id];
            AddedNet(ledger, id, TaxRows(d)) == if d.kind.Sale? && d.status.Issued? then d.tax else 0
  {
    hide Net, LedgerOk, DistinctRates, TaxFor;
    var d := docs[id];
    assert DocOk(docs, payments, ledger, id);
    RowsDistinct(d);
    forall k | 0 <= k < |TaxRows(d)|
      ensures Net(ledger, id, TaxRows(d)[k].rate) ==
              if d.kind.Sale? && d.status.Issued? then TaxRows(d)[k].amount else 0
    {
      LedgerMeansTax(ledger, id, d, TaxRows(d)[k].rate);
      TaxForEach(TaxRows(d), k);
    }
    if d.kind.Sale? && d.status.Issued? {
      var groups := d.snapshot.value.totals.breakdown;
      assert forall k :: 0 <= k < |groups| ==>
          TaxRows(d)[k].rate == groups[k].rate && TaxRows(d)[k].amount == groups[k].amount;
      AddedNetTotals(ledger, id, groups);
    } else {
      NoNet(ledger, id, TaxRows(d));
    }
  }

  lemma {:induction false} TaxForEach(rows: seq<TaxRow>, k: nat)
    requires DistinctRates(rows) && k < |rows|
    ensures TaxFor(rows, rows[k].rate) == rows[k].amount
  {
    if k > 0 {
      assert rows[0].rate != rows[k].rate;
      TaxForEach(rows[1..], k - 1);
    }
  }

  ghost predicate Consistent(docs: seq<Doc>, payments: seq<Payment>, ledger: TaxLedger) {
    && (forall id :: 0 <= id < |docs| ==> DocOk(docs, payments, ledger, id))
    && (forall k :: 0 <= k < |payments| ==> payments[k].doc < |docs| && payments[k].amount > 0)
    && (forall k: EntryKey :: k in ledger ==> k.doc < |docs|)
    && (forall i, j :: 0 <= i < j < |docs| && docs[i].source.Some? ==> docs[i].source != docs[j].source)
  }

  /** Replacing a document by one that its payments and its ledger rows fit keeps the rest as it is. */
  lemma ReplaceKeeps(docs: seq<Doc>, payments: seq<Payment>, ledger: TaxLedger, id: nat, d: Doc, ledger': TaxLedger)
    requires Consistent(docs, payments, ledger) && id < |docs|
    requires d.source == docs[id].source && d.kind == docs[id].kind && d.paid == docs[id].paid
    requires !docs[id].status.Converted? && !docs[id].status.Complete?
    requires PricedOk(d) && LedgerOk(ledger', id, d)
    requires d.paid > 0 ==> d.kind.Sale? && d.status.Issued? && d.paid <= d.total
    requires forall k: EntryKey :: k.doc != id ==> Same(ledger, ledger', k)
    ensures Consistent(docs[id := d], payments, ledger')
  {
    var docs' := docs[id := d];
    forall i | 0 <= i < |docs|
      ensures DocOk(docs', payments, ledger', i)
    {
      assert DocOk(docs, payments, ledger, i);
      if i != id {
        SameLedgerOk(ledger, ledger', i, docs[i]);
      }
    }
    forall k: EntryKey | k in ledger'
      ensures k.doc < |docs|
    {
      assert k.doc != id ==> Same(ledger, ledger', k);
    }
  }

  lemma SameLedgerOk(ledger: TaxLedger, ledger': TaxLedger, id: nat, d: Doc)
    requires LedgerOk(ledger, id, d) && forall rate, reverse :: Same(ledger, ledger', EntryKey(id, rate, reverse))
    ensures LedgerOk(ledger', id, d)
  {
    assert forall rate ::
        Same(ledger, ledger', EntryKey(id, rate, true)) && Same(ledger, ledger', EntryKey(id, rate, false));
  }

  /** Adding a draft, possibly converted from a source that is then closed. */
  lemma AppendKeeps(docs: seq<Doc>, payments: seq<Payment>, ledger: TaxLedger, d: Doc)
    requires Consistent(docs, payments, ledger) && d.status.Draft? && d.paid == 0 && PricedOk(d)
    requires d.source.Some? ==>
               && d.source.value < |docs|
               && docs[d.source.value].status == (if docs[d.source.value].kind.Quotation? then Converted else Complete)
               && forall i :: 0 <= i < |docs| ==> docs[i].source != d.source
    ensures Consistent(docs + [d], payments, ledger)
  {
    var docs' := docs + [d];
    forall i | 0 <= i < |docs'|
      ensures DocOk(docs', payments, ledger, i)
    {
      if i < |docs| {
        assert DocOk(docs, payments, ledger, i);
      } else {
        NoPayments(payments, i);
        assert forall rate, reverse :: EntryKey(i, rate, reverse).doc == i;
      }
    }
  }

  lemma {:induction false} NoPayments(payments: seq<Payment>, id: nat)
    requires forall k :: 0 <= k < |payments| ==> payments[k].doc < id
    ensures Sum(payments, Share(DOC, PAID_AMOUNT, id)) == 0
  {
    if payments != [] {
      NoPayments(payments[..|payments| - 1], id);
    }
  }

  lemma PayKeeps(docs: seq<Doc>, payments: seq<Payment>, ledger: TaxLedger, id: nat, p: Payment)
    requires Consistent(docs, payments, ledger) && id < |docs| && p.doc == id
    requires docs[id].kind.Sale? && docs[id].status.Issued? && 0 < p.amount <= docs[id].total - docs[id].paid
    ensures Consistent(docs[id := docs[id].(revision := docs[id].revision + 1, paid := docs[id].paid + p.amount)],
                       payments + [p], ledger)
  {
    var d := docs[id].(revision := docs[id].revision + 1, paid := docs[id].paid + p.amount);
    var docs', payments' := docs[id := d], payments + [p];
    forall i | 0 <= i < |docs|
      ensures DocOk(docs', payments', ledger, i)
    {
      assert DocOk(docs, payments, ledger, i);
      SumAppend(payments, p, Share(DOC, PAID_AMOUNT, i));
    }
  }

  /** Issuing posts the snapshot; the ledger then shows exactly it. */
  lemma IssuePosts(ledger: TaxLedger, id: nat, d: Doc)
    requires DistinctRates(TaxRows(d)) && d.kind.Sale? && d.status.Draft? && LedgerOk(ledger, id, d)
    ensures LedgerOk(Posted(ledger, id, TaxRows(d), false, |TaxRows(d)|), id, d.(status := Issued))
    ensures forall k: EntryKey :: k.doc != id ==> Same(ledger, Posted(ledger, id, TaxRows(d), false, |TaxRows(d)|), k)
  {
    PostedEntries(ledger, id, TaxRows(d), false, |TaxRows(d)|);
    assert forall rate :: Same(ledger, Posted(ledger, id, TaxRows(d), false, |TaxRows(d)|), EntryKey(id, rate, true));
  }

  /** Cancelling posts the negative of every row that issuing had posted. */
  lemma CancelReverses(ledger: TaxLedger, id: nat, d: Doc)
    requires DistinctRates(TaxRows(d)) && d.kind.Sale? && d.status.Issued? && LedgerOk(ledger, id, d)
    ensures LedgerOk(Posted(ledger, id, TaxRows(d), true, |TaxRows(d)|), id, d.(status := Cancelled))
    ensures forall k: EntryKey :: k.doc != id ==> Same(ledger, Posted(ledger, id, TaxRows(d), true, |TaxRows(d)|), k)
  {
    var after := Posted(ledger, id, TaxRows(d), true, |TaxRows(d)|);
    PostedEntries(ledger, id, TaxRows(d), true, |TaxRows(d)|);
    forall rate
      ensures Same(ledger, after, EntryKey(id, rate, false))
      ensures EntryKey(id, rate, false) in after ==>
                && EntryKey(id, rate, true) in after
                && after[EntryKey(id, rate, true)].amount == -after[EntryKey(id, rate, false)].amount
                && after[EntryKey(id, rate, true)].base == after[EntryKey(id, rate, false)].base
    {
      assert Same(ledger, after, EntryKey(id, rate, false));
      if HasRate(TaxRows(d), |TaxRows(d)|, rate) {
        var i: nat :| Posts(TaxRows(d), |TaxRows(d)|, i, rate);
      }
    }
  }

  lemma SamePrice(d: Doc, e: Doc)
    requires PricedOk(d) && e.total == d.total && e.tax == d.tax && e.snapshot == d.snapshot
    ensures PricedOk(e)
  {
  }

  lemma InBooks(docs: seq<Doc>, payments: seq<Payment>, ledger: TaxLedger, id: nat)
    requires Consistent(docs, payments, ledger) && id < |docs|
    ensures PricedOk(docs[id]) && LedgerOk(ledger, id, docs[id])
    ensures docs[id].paid > 0 ==> docs[id].kind.Sale? && docs[id].status.Issued? && docs[id].paid <= docs[id].total
  {
    assert DocOk(docs, payments, ledger, id);
  }

  /** The ledger of a document depends on its kind, status and snapshot only. */
  lemma SameRows(ledger: TaxLedger, id: nat, d: Doc, e: Doc)
    requires LedgerOk(ledger, id, d) && e.kind == d.kind && e.status == d.status && e.snapshot == d.snapshot
    ensures LedgerOk(ledger, id, e)
  {
    assert TaxRows(e) == TaxRows(d);
  }

  /** A status change that posts nothing leaves the ledger right. */
  lemma UntouchedLedger(ledger: TaxLedger, id: nat, d: Doc, e: Doc)
    requires LedgerOk(ledger, id, d) && e.kind == d.kind && e.snapshot == d.snapshot
    requires !d.kind.Sale? || (d.status.Draft? && e.status.Cancelled?)
    ensures LedgerOk(ledger, id, e)
  {
  }

  class Office {
    var docs: seq<Doc>
    var payments: seq<Payment>
    var ledger: TaxLedger
    var accounts: seq<int>

    ghost predicate Valid() reads this {
      && Consistent(docs, payments, ledger)
      && (forall a :: 0 <= a < |accounts| ==> IsMoney(accounts[a]))
      && forall k :: 0 <= k < |payments| ==> payments[k].account < |accounts|
    }

    /** Over the tables as they are, whose snapshots may be older than kept rates. */
    constructor (docs: seq<Doc>, payments: seq<Payment>, ledger: TaxLedger, accounts: seq<int>)
      requires Consistent(docs, payments, ledger) && forall a :: 0 <= a < |accounts| ==> IsMoney(accounts[a])
      requires forall k :: 0 <= k < |payments| ==> payments[k].account < |accounts|
      ensures Valid() && this.docs == docs && this.payments == payments && this.ledger == ledger
      ensures this.accounts == accounts
    {
      this.docs, this.payments, this.ledger, this.accounts := docs, payments, ledger, accounts;
    }

    ghost predicate Stale(id: nat, expected: Option<nat>)
      reads this
      requires id < |docs|
    {
      expected.Some? && expected.value != docs[id].revision
    }

    /** `postTax`: one upsert per breakdown row that has an amount. */
    method PostTax(id: nat, rows: seq<TaxRow>, reverse: bool)
      modifies this`ledger
      ensures ledger == Posted(old(ledger), id, rows, reverse, |rows|)
    {
      for n := 0 to |rows|
        invariant ledger == Posted(old(ledger), id, rows, reverse, n)
      {
        if rows[n].amount != 0 {
          var key := EntryKey(id, rows[n].rate, reverse);
          if key !in ledger {
            ledger := ledger[key := RowEntry(rows[n], reverse)];
          }
        }
      }
    }

    /** The document with a request key, if there is one. */
    method FindKey(key: nat) returns (found: Option<nat>)
      ensures found.Some? ==> found.value < |docs| && docs[found.value].key == key
      ensures found.None? ==> forall i :: 0 <= i < |docs| ==> docs[i].key != key
    {
      for i := 0 to |docs|
        invariant forall j :: 0 <= j < i ==> docs[j].key != key
      {
        if docs[i].key == key {
          return Some(i);
        }
      }
      found := None;
    }

    /** A new document: a repeated request key gives the first one back, the workflow must allow the kind, and
        the total is what its tax makes it. */
    method CreateDraft(setup: T.Setup, admin: bool, kind: DocKind, input: Input, key: nat, w: Workflow)
      returns (r: Result<nat>)
      requires Valid() && T.RatesOk(setup.rates)
      modifies this`docs
      ensures Valid()
      ensures r.Ok? ==> r.value < |docs| && docs[r.value].key == key && docs[r.value].kind == kind
      ensures r.Err? || r.value < |old(docs)| ==> docs == old(docs)
      ensures (exists i :: 0 <= i < |old(docs)| && old(docs)[i].key == key) ==> docs == old(docs)
      ensures (forall i :: 0 <= i < |old(docs)| ==> old(docs)[i].key != key) ==>
                var price := PriceOf(setup, admin, kind, input, D.Nothing);
                && (r.Ok? <==> MayStart(kind, w) && price.Ok?
                               && (input.dueDate.None? || input.dueDate.value >= input.documentDate))
                && (r.Ok? ==> r.value == |old(docs)|
                              && docs == old(docs) + [Doc(kind, Draft, 0, price.value.total, price.value.tax,
                                                          price.value.snapshot, 0, None, key)])
    {
      hide PriceOf, Consistent, T.RatesOk, PricedOk;
      var found := FindKey(key);
      if found.Some? {
        return if docs[found.value].kind == kind then Ok(found.value) else Err(Conflict);
      }
      var direct := AllowDirect(kind, w);
      if direct.Some? {
        return Err(direct.value);
      }
      var price := PriceOf(setup, admin, kind, input, D.Nothing);
      if price.Err? {
        return Err(price.error);
      }
      if input.dueDate.Some? && input.dueDate.value < input.documentDate {
        return Err(BadRequest);
      }
      var d := Doc(kind, Draft, 0, price.value.total, price.value.tax, price.value.snapshot, 0, None, key);
      PriceGivesOk(setup, admin, kind, input, D.Nothing, d);
      AppendKeeps(docs, payments, ledger, d);
      r := Ok(|docs|);
      docs := docs + [d];
    }

    /** Drafts, and quotations that were sent or accepted, can be edited until they are converted; an
        edited acceptance has to be given again. */
    ghost predicate Editable(id: nat, expected: Option<nat>) reads this {
      && id < |docs| && (forall i :: 0 <= i < |docs| ==> docs[i].source != Some(id))
      && (docs[id].status.Draft?
          || (docs[id].kind.Quotation? && (docs[id].status.Sent? || docs[id].status.Accepted?) && expected.Some?))
      && !Stale(id, expected)
    }

    /** An edit prices the document again, on top of the snapshot it holds. */
    method Edit(setup: T.Setup, admin: bool, id: nat, input: Input, expected: Option<nat>) returns (r: Result<nat>)
      requires Valid() && T.RatesOk(setup.rates)
      modifies this`docs
      ensures Valid()
      ensures r.Ok? <==>
                && old(Editable(id, expected))
                && (input.dueDate.None? || input.dueDate.value >= input.documentDate)
                && PriceOf(setup, admin, old(docs)[id].kind, input, PreviousOf(old(docs)[id])).Ok?
      ensures r.Err? ==> docs == old(docs)
      ensures r.Ok? ==>
                var d := old(docs)[id];
                var price := PriceOf(setup, admin, d.kind, input, PreviousOf(d)).value;
                docs == old(docs)[id := d.(revision := d.revision + 1, total := price.total, tax := price.tax,
                                           snapshot := price.snapshot,
                                           status := if d.status.Accepted? then Sent else d.status)]
    {
      hide PriceOf, T.RatesOk, PricedOk;
      if id >= |docs| {
        return Err(NotFound);
      }
      var d := docs[id];
      if exists i :: 0 <= i < |docs| && docs[i].source == Some(id) {
        return Err(Conflict);
      }
      if d.status != Draft
         && !(d.kind == Quotation && (d.status == Sent || d.status == Accepted) && expected != None) {
        return Err(Conflict);
      }
      if expected != None && expected != Some(d.revision) {
        return Err(Conflict);
      }
      if input.dueDate.Some? && input.dueDate.value < input.documentDate {
        return Err(BadRequest);
      }
      assert DocOk(docs, payments, ledger, id);
      var price := PriceOf(setup, admin, d.kind, input, PreviousOf(d));
      if price.Err? {
        return Err(price.error);
      }
      var d' := d.(revision := d.revision + 1, total := price.value.total, tax := price.value.tax,
                   snapshot := price.value.snapshot, status := if d.status == Accepted then Sent else d.status);
      PreviousIsOk(d);
      PriceGivesOk(setup, admin, d.kind, input, PreviousOf(d), d');
      ReplaceKeeps(docs, payments, ledger, id, d', ledger);
      docs := docs[id := d'];
      r := Ok(id);
    }

    /** The status route: tax is posted when a sale is issued and reversed when an issued sale is cancelled. */
    method ChangeStatus(id: nat, action: Action, expected: Option<nat>) returns (r: Result<Status>)
      requires Valid()
      modifies this`docs, this`ledger
      ensures Valid()
      ensures r.Ok? <==> id < |old(docs)| && !old(Stale(id, expected))
                         && exists next :: LeadsTo(old(docs)[id], action, next)
      ensures r.Err? ==> docs == old(docs) && ledger == old(ledger)
      ensures r.Ok? ==>
                var d := old(docs)[id];
                && LeadsTo(d, action, r.value)
                && docs == old(docs)[id := d.(revision := d.revision + 1, status := r.value)]
                && ledger == (if d.kind.Sale? && (action.Issue? || (action.Cancel? && d.status.Issued?))
                              then Posted(old(ledger), id, TaxRows(d), action.Cancel?, |TaxRows(d)|) else old(ledger))
    {
      hide PricedOk, Posted, LedgerOk, TaxRows, Consistent;
      if id >= |docs| {
        return Err(NotFound);
      }
      var d := docs[id];
      if expected != None && expected != Some(d.revision) {
        return Err(Conflict);
      }
      var next := NextStatus(d.kind, d.status, action, d.paid);
      forall s
        ensures next == Some(s) <==> LeadsTo(d, action, s)
      {
        NextStatusMeans(d, action, s);
      }
      if next == None {
        return Err(Conflict);
      }
      ghost var before := ledger;
      var d' := d.(revision := d.revision + 1, status := next.value);
      InBooks(docs, payments, ledger, id);
      RowsDistinct(d);
      SamePrice(d, d');
      if d.kind == Sale && (action == Issue || (action == Cancel && d.status == Issued)) {
        PostTax(id, TaxRows(d), action == Cancel);
        if action == Issue {
          IssuePosts(before, id, d);
        } else {
          CancelReverses(before, id, d);
        }
        SameRows(ledger, id, d.(status := next.value), d');
      } else {
        UntouchedLedger(ledger, id, d, d');
      }
      ReplaceKeeps(docs, payments, before, id, d', ledger);
      docs := docs[id := d'];
      r := Ok(next.value);
    }

    /** `convert`: the request key makes a retry return the first conversion; the draft takes total, tax and
        snapshot over. */
    method Convert(id: nat, target: DocKind, key: nat, expected: Option<nat>, w: Workflow, documentDate: int,
                   dueDate: Option<int>)
      returns (r: Result<nat>)
      requires Valid()
      modifies this`docs
      ensures Valid()
      ensures r.Ok? ==>
                && r.value < |docs| && docs[r.value].source == Some(id)
                && docs[r.value].key == key && docs[r.value].kind == target
      ensures r.Err? || r.value < |old(docs)| ==> docs == old(docs)
      ensures (exists i :: 0 <= i < |old(docs)| && old(docs)[i].key == key) ==> docs == old(docs)
      ensures (forall i :: 0 <= i < |old(docs)| ==> old(docs)[i].key != key) ==>
                && (r.Ok? <==>
                      && id < |old(docs)| && !old(Stale(id, expected))
                      && (forall i :: 0 <= i < |old(docs)| ==> old(docs)[i].source != Some(id))
                      && Convertible(old(docs)[id], target, w)
                      && (dueDate.Some? ==> documentDate <= dueDate.value))
                && (r.Ok? ==>
                      var s := old(docs)[id];
                      && r.value == |old(docs)|
                      && docs == old(docs)[id := s.(revision := s.revision + 1,
                                                    status := if s.kind.Quotation? then Converted else Complete)]
                                 + [Doc(target, Draft, 0, s.total, s.tax, s.snapshot, 0, Some(id), key)])
    {
      hide PricedOk;
      var found := FindKey(key);
      if found.Some? {
        var i := found.value;
        return if docs[i].source == Some(id) && docs[i].kind == target then Ok(i) else Err(Conflict);
      }
      if id >= |docs| {
        return Err(NotFound);
      }
      if (expected != None && expected != Some(docs[id].revision))
         || exists i :: 0 <= i < |docs| && docs[i].source == Some(id) {
        return Err(Conflict);
      }
      var s := docs[id];
      if !MayConvert(s.kind, s.status, target, w) {
        return Err(Conflict);
      }
      if dueDate.Some? && dueDate.value < documentDate {
        return Err(BadRequest);
      }
      var closed := s.(revision := s.revision + 1, status := if s.kind == Quotation then Converted else Complete);
      var draft := Doc(target, Draft, 0, s.total, s.tax, s.snapshot, 0, Some(id), key);
      assert DocOk(docs, payments, ledger, id);
      SamePrice(s, closed);
      SamePrice(s, draft);
      ReplaceKeeps(docs, payments, ledger, id, closed, ledger);
      AppendKeeps(docs[id := closed], payments, ledger, draft);
      r := Ok(|docs|);
      docs := docs[id := closed] + [draft];
    }

    /** The payment route: only an issued sale, never more than is still receivable, never more than the account
        can hold, once per request key. */
    method Pay(id: nat, account: nat, amount: int, date: int, reference: Option<nat>, key: nat)
      returns (r: Result<nat>)
      requires Valid() && 0 < amount <= MAX_MONEY
      modifies this`docs, this`payments, this`accounts
      ensures Valid()
      ensures r.Ok? ==> r.value < |payments| && payments[r.value] == Payment(id, account, amount, date, reference, key)
      ensures r.Err? || r.value < |old(payments)| ==>
                docs == old(docs) && payments == old(payments) && accounts == old(accounts)
      ensures (exists k :: 0 <= k < |old(payments)| && old(payments)[k].key == key) ==> payments == old(payments)
      ensures (forall k :: 0 <= k < |old(payments)| ==> old(payments)[k].key != key) ==>
                && (r.Ok? <==>
                      && id < |old(docs)| && old(docs)[id].kind.Sale? && old(docs)[id].status.Issued?
                      && amount <= old(docs)[id].total - old(docs)[id].paid
                      && account < |old(accounts)| && IsMoney(old(accounts)[account] + amount))
                && (r.Ok? ==>
                      var d := old(docs)[id];
                      && payments == old(payments) + [Payment(id, account, amount, date, reference, key)]
                      && accounts == old(accounts)[account := old(accounts)[account] + amount]
                      && docs == old(docs)[id := d.(revision := d.revision + 1, paid := d.paid + amount)])
    {
      hide Consistent;
      for k := 0 to |payments|
        invariant forall j :: 0 <= j < k ==> payments[j].key != key
      {
        if payments[k].key == key {
          return if payments[k] == Payment(id, account, amount, date, reference, key) then Ok(k) else Err(Conflict);
        }
      }
      if id >= |docs| {
        return Err(NotFound);
      }
      var d := docs[id];
      if d.kind != Sale || d.status != Issued || amount > d.total - d.paid {
        return Err(Conflict);
      }
      if account >= |accounts| {
        return Err(NotFound);
      }
      if accounts[account] > MAX_MONEY - amount {
        return Err(BadRequest);
      }
      PayKeeps(docs, payments, ledger, id, Payment(id, account, amount, date, reference, key));
      r := Ok(|payments|);
      payments := payments + [Payment(id, account, amount, date, reference, key)];
      accounts := accounts[account := accounts[account] + amount];
      docs := docs[id := d.(revision := d.revision + 1, paid := d.paid + amount)];
    }
  }
}
