/** `calculateTax` as it runs, and `documentTax` of business-setup/service.ts around it: the historic
    replay of an unchanged selection, the locked defaults, and the legacy fixed tax. */
module TaxDocuments {
  import opened Outcomes
  import opened Rounding
  import opened Sums
  import opened TaxEngine
  import opened TaxMeaning

  lemma {:induction false} LinesFail(rates: seq<Rate>, document: Document, amounts: seq<int>, discount: int,
                                     terms: Terms, k: nat, n: nat)
    requires k <= n <= |amounts| == |terms.lines|
    requires Lines(rates, document, amounts, discount, terms, k).Err?
    ensures Lines(rates, document, amounts, discount, terms, n) == Lines(rates, document, amounts, discount, terms, k)
    decreases n
  {
    if k < n {
      LinesFail(rates, document, amounts, discount, terms, k, n - 1);
    }
  }

  lemma {:induction false} ChargedFail(rates: seq<Rate>, document: Document, acc: Acc, terms: Terms,
                                       charges: seq<Charge>, k: nat, n: nat)
    requires k <= n <= |charges|
    requires Charged(rates, document, acc, terms, charges, k).Err?
    ensures Charged(rates, document, acc, terms, charges, n) == Charged(rates, document, acc, terms, charges, k)
    decreases n
  {
    if k < n {
      ChargedFail(rates, document, acc, terms, charges, k, n - 1);
    }
  }

  lemma NextLine(rates: seq<Rate>, document: Document, amounts: seq<int>, discount: int, terms: Terms, i: nat, acc: Acc)
    requires i < |amounts| == |terms.lines| && Lines(rates, document, amounts, discount, terms, i) == Ok(acc)
    ensures var next := Lines(rates, document, amounts, discount, terms, i + 1);
            match Lookup(rates, document, terms.lines[i], Add)
            case Err(e) => next == Err(e)
            case Ok(bps) =>
              var taxable := Taxable(amounts, discount, i);
              next == Ok(Entered(acc, terms.lines[i], bps, BaseOf(taxable, terms.inclusive, bps),
                                 AddedOn(taxable, terms.inclusive, bps)))
  {
  }

  /** The loop over the lines, with its running totals. */
  method TaxLines(rates: seq<Rate>, document: Document, amounts: seq<int>, discount: int,
                  terms: Terms) returns (r: Result<Acc>)
    requires |terms.lines| == |amounts| && Sane(amounts, discount, [])
    ensures r == Lines(rates, document, amounts, discount, terms, |amounts|)
  {
    hide BaseOf, AddedOn, Round, Upsert;
    var subtotal, tax, distributed, vatBase, groups, before := 0, 0, 0, 0, [], 0;
    var amountSum := Prefix(amounts, |amounts|);
    PrefixOrder(amounts, 0, |amounts|);
    for i := 0 to |amounts|
      invariant before == Prefix(amounts, i) && distributed == Distributed(amounts, discount, i)
      invariant Lines(rates, document, amounts, discount, terms, i) == Ok(Acc(subtotal, tax, vatBase, groups))
    {
      NextLine(rates, document, amounts, discount, terms, i, Acc(subtotal, tax, vatBase, groups));
      before := before + amounts[i];
      var allocation := if amountSum != 0 then Round(discount * before, amountSum) else 0;
      assert allocation == Distributed(amounts, discount, i + 1);
      var taxable := amounts[i] - (allocation - distributed);
      distributed := allocation;
      var bps: Option<nat> := None;
      if terms.lines[i].Some? {
        bps := FindBps(rates, document, terms.lines[i].value, Add);
        if bps == None {
          LinesFail(rates, document, amounts, discount, terms, i + 1, |amounts|);
          return Err(BadRequest);
        }
      }
      var base, added := BaseOf(taxable, terms.inclusive, bps), AddedOn(taxable, terms.inclusive, bps);
      subtotal, tax := subtotal + base, tax + added;
      if bps.Some? {
        vatBase := vatBase + base;
        groups := Upsert(groups, terms.lines[i].value, bps.value, base, added);
      }
    }
    r := Ok(Acc(subtotal, tax, vatBase, groups));
  }

  /** The loop over the additional charges. */
  method TaxCharges(rates: seq<Rate>, document: Document, lines: Acc, terms: Terms,
                    charges: seq<Charge>) returns (r: Result<Acc>)
    ensures r == Charged(rates, document, lines, terms, charges, |charges|)
  {
    var subtotal, tax, vatBase, groups := lines.subtotal, lines.tax, lines.vatBase, lines.groups;
    for c := 0 to |charges|
      invariant Charged(rates, document, lines, terms, charges, c) == Ok(Acc(subtotal, tax, vatBase, groups))
    {
      var bps: Option<nat> := None;
      if charges[c].vatIncluded && terms.rate.Some? {
        bps := FindBps(rates, document, terms.rate.value, Add);
        if bps == None {
          ChargedFail(rates, document, lines, terms, charges, c + 1, |charges|);
          return Err(BadRequest);
        }
      }
      var added := Round(charges[c].amount * (if bps.Some? then bps.value else 0), BPS);
      subtotal, tax := subtotal + charges[c].amount, tax + added;
      if bps.Some? {
        vatBase := vatBase + charges[c].amount;
        groups := Upsert(groups, terms.rate.value, bps.value, charges[c].amount, added);
      }
    }
    r := Ok(Acc(subtotal, tax, vatBase, groups));
  }

  /** A snapshot keeps the usable rates that the document, its withholding or the selection's lines name. */
  ghost predicate KeepsRates(setup: Setup, document: Document, selection: Selection, s: Snapshot) {
    s.rates.Some? && forall r ::
      r in s.rates.value <==>
        && r in setup.rates && r.active && document in r.documents
        && (s.terms.rate == Some(r.id) || s.terms.withholding == Some(r.id)
            || (selection.lines.Some? && Named(r.id) in selection.lines.value))
  }

  lemma SnapshotKeeps(setup: Setup, document: Document, amounts: seq<int>, discount: int, selection: Selection,
                      charges: seq<Charge>)
    ensures var r := TaxOf(setup, document, amounts, discount, selection, charges);
            r.Ok? ==> KeepsRates(setup, document, selection, r.value)
  {
    hide Compute;
    var ids := SelectedIds(Resolve(setup, document, selection, |amounts|), selection);
    forall r
      ensures r in Kept(setup.rates, document, ids) <==>
              r in setup.rates && r.id in ids && r.active && document in r.documents
    {
      KeptMeans(setup.rates, document, ids, r);
    }
  }

  method CalculateTax(setup: Setup, document: Document, amounts: seq<int>, discount: int, selection: Selection,
                      charges: seq<Charge>)
    returns (r: Result<Snapshot>)
    ensures r == TaxOf(setup, document, amounts, discount, selection, charges)
    ensures r.Ok? ==> TermsMean(setup, document, selection, |amounts|, r.value.terms)
    ensures r.Ok? ==> r.value.revision == setup.revision && r.value.registration == setup.registration
                      && r.value.showBreakdown == setup.showBreakdown && KeepsRates(setup, document, selection, r.value)
    ensures r.Ok? && RatesOk(setup.rates) ==>
              && Conserves(r.value.totals, amounts, discount, r.value.terms.inclusive, charges)
              && Explained(setup.rates, document, r.value.terms, amounts, discount, charges, r.value.totals)
              && Fair(r.value.totals, r.value.terms, charges)
  {
    var rates, terms := setup.rates, Resolve(setup, document, selection, |amounts|);
    ResolveMeans(setup, document, selection, |amounts|);
    SnapshotKeeps(setup, document, amounts, discount, selection, charges);
    if RatesOk(rates) {
      TaxConserves(setup, document, amounts, discount, selection, charges);
      TaxExplained(setup, document, amounts, discount, selection, charges);
      if TaxOf(setup, document, amounts, discount, selection, charges).Ok? {
        var t := TaxOf(setup, document, amounts, discount, selection, charges).value.totals;
        ExplainedIsFair(rates, document, terms, amounts, discount, charges, t);
      }
    }
    hide TermsMean, Explained, Fair, Conserves, Compute, KeepsRates;
    if !Sane(amounts, discount, charges) {
      return Err(BadRequest);
    }
    var lines := TaxLines(rates, document, amounts, discount, terms);
    if lines.Err? {
      return Err(lines.error);
    }
    var acc := TaxCharges(rates, document, lines.value, terms, charges);
    if acc.Err? {
      return Err(acc.error);
    }
    var withheld: Option<(RateId, nat)> := None;
    if terms.withholding.Some? {
      var bps := FindBps(rates, document, terms.withholding.value, Withhold);
      if bps == None {
        return Err(BadRequest);
      }
      withheld := Some((terms.withholding.value, bps.value));
    }
    var totals := Finish(acc.value, discount, withheld, ChargesTotal(charges, |charges|));
    if totals.Err? {
      return Err(totals.error);
    }
    r := Ok(Snapshot(Some(Kept(rates, document, SelectedIds(terms, selection))), setup.revision, setup.registration,
                     setup.showBreakdown, terms, totals.value));
  }

  // --- documentTax --------------------------------------------------------------------------

  /** What the document held before: nothing, a fixed tax amount from before tax was configured, or a snapshot. */
  datatype Previous = Nothing | FixedTax(tax: int) | Saved(snapshot: Snapshot)

  function Chosen(id: Option<RateId>): Choice { if id.Some? then Named(id.value) else NoRate }

  /** The lines a snapshot's selection spells out; a document-level selection spells out none. */
  function SavedLines(terms: Terms): Option<seq<Choice>> {
    if terms.perLine
    then Some(seq(|terms.lines|, i requires 0 <= i < |terms.lines| => Chosen(terms.lines[i])))
    else None
  }

  /** The selection a snapshot was made with, as a client would send it back. */
  function OwnSelection(s: Snapshot): Selection {
    Selection(Chosen(s.terms.rate), Chosen(s.terms.withholding), Some(s.terms.inclusive), SavedLines(s.terms),
              s.revision)
  }

  predicate Unchanged(selection: Selection, past: Snapshot) {
    && selection.revision == past.revision && selection.rate == Chosen(past.terms.rate)
    && selection.withholding == Chosen(past.terms.withholding) && selection.inclusive == Some(past.terms.inclusive)
    && (selection.lines.Some? ==>
          forall i :: 0 <= i < |selection.lines.value| ==>
            || selection.lines.value[i] == Chosen(past.terms.rate)
            || (SavedLines(past.terms).Some? && selection.lines.value[i] in SavedLines(past.terms).value))
  }

  /** The kept rates count as active for this document, whatever has become of them since. */
  function Revived(rates: seq<Rate>, document: Document): seq<Rate> {
    if rates == [] then [] else [rates[0].(active := true, documents := {document})] + Revived(rates[1..], document)
  }

  /** The rates that a breakdown lets one recover. */
  function FromBreakdown(groups: seq<Group>, document: Document): seq<Rate> {
    seq(|groups|, k requires 0 <= k < |groups| => Rate(groups[k].rate, groups[k].bps, groups[k].kind, {document}, true))
  }

  function PastRates(past: Snapshot, document: Document): seq<Rate> {
    if past.rates.Some? then Revived(past.rates.value, document) else FromBreakdown(past.totals.breakdown, document)
  }

  function WithDefault(setup: Setup, document: Document, d: Default): Setup {
    match document
    case Quotation => setup.(quotation := d)
    case Sale => setup.(sale := d)
    case Purchase => setup.(purchase := d)
  }

  function Historic(setup: Setup, document: Document, past: Snapshot): Setup {
    var t := past.terms;
    WithDefault(setup.(revision := past.revision, registration := past.registration,
                       showBreakdown := past.showBreakdown, rates := PastRates(past, document)),
                document, Default(t.rate, t.withholding, t.inclusive, t.perLine))
  }

  const PLAIN := Selection(Unset, Unset, None, None, 0)

  /** `documentTax`. Ok(None) keeps a manual tax amount instead of a snapshot. */
  function DocumentTax(setup: Setup, admin: bool, document: Document, amounts: seq<int>, discount: int,
                       selection: Option<Selection>,
                       manualTax: int, previous: Previous, charges: seq<Charge>): Result<Option<Snapshot>>
  {
    if selection.None? && previous.FixedTax? && manualTax == previous.tax then
      if exists c :: 0 <= c < |charges| && charges[c].vatIncluded && charges[c].amount > 0
      then Err(BadRequest)
      else Ok(None)
    else if previous.Saved? && selection.Some? && Unchanged(selection.value, previous.snapshot) then
      Settled(TaxOf(Historic(setup, document, previous.snapshot), document, amounts, discount, selection.value,
                    charges))
    else if setup.rates == [] && selection.None? then Ok(None)
    else if manualTax != 0 then Err(BadRequest)
    else if selection.Some? && selection.value.revision != setup.revision then Err(Conflict)
    else
      var locked := !setup.allowOverride && !admin && selection.Some?;
      var usual := TaxOf(setup, document, amounts, discount, PLAIN, charges);
      var asked := TaxOf(setup, document, amounts, discount, if selection.Some? then selection.value else PLAIN,
                         charges);
      if locked && (usual.Err? || asked.Err?) then Err(Internal)
      else if locked && usual.value.terms != asked.value.terms then Err(BadRequest)
      else Settled(asked)
  }

  function Settled(r: Result<Snapshot>): Result<Option<Snapshot>> {
    if r.Ok? then Ok(Some(r.value)) else Err(BadRequest)
  }

  /** The choice asks for the same rate as terms that settled on `id`. */
  ghost predicate Repeats(choice: Choice, id: Option<RateId>) {
    match id
    case None => choice == NoRate
    case Some(rate) => choice == Named(rate)
  }

  /** The selection asks for nothing but the terms of the snapshot it was made for. A line may name the document's rate
      or, if the snapshot went line by line, the rate of any of its lines. */
  ghost predicate KeepsTerms(selection: Selection, past: Snapshot) {
    var t := past.terms;
    && selection.revision == past.revision && selection.inclusive == Some(t.inclusive)
    && Repeats(selection.rate, t.rate) && Repeats(selection.withholding, t.withholding)
    && (selection.lines.Some? ==>
          forall i :: 0 <= i < |selection.lines.value| ==>
            || Repeats(selection.lines.value[i], t.rate)
            || (t.perLine && exists k :: 0 <= k < |t.lines| && Repeats(selection.lines.value[i], t.lines[k])))
  }

  lemma UnchangedMeans(selection: Selection, past: Snapshot)
    ensures Unchanged(selection, past) <==> KeepsTerms(selection, past)
  {
    var saved := SavedLines(past.terms);
    if selection.lines.Some? && saved.Some? {
      forall i | 0 <= i < |selection.lines.value|
        ensures selection.lines.value[i] in saved.value <==>
                exists k :: 0 <= k < |past.terms.lines| && Repeats(selection.lines.value[i], past.terms.lines[k])
      {
        assert |saved.value| == |past.terms.lines|;
        assert forall k :: 0 <= k < |past.terms.lines| ==>
            (Repeats(selection.lines.value[i], past.terms.lines[k]) <==> saved.value[k] == selection.lines.value[i]);
      }
    }
  }

  /** A document keeps its former rates exactly as long as it is sent back with the terms it has: then no change of
      the setup, and nothing about who asks, makes a difference; with other terms, or with none, it is taxed like a
      new document. */
  lemma FormerRatesKept(setup: Setup, other: Setup, admin: bool, e: bool, d: Document, amounts: seq<int>,
                        discount: int, selection: Option<Selection>, manualTax: int, n: int, past: Snapshot,
                        charges: seq<Charge>)
    ensures if selection.Some? && KeepsTerms(selection.value, past) then
              DocumentTax(setup, admin, d, amounts, discount, selection, manualTax, Saved(past), charges) ==
              DocumentTax(other, e, d, amounts, discount, selection, n, Saved(past), charges)
            else
              DocumentTax(setup, admin, d, amounts, discount, selection, manualTax, Saved(past), charges) ==
              DocumentTax(setup, admin, d, amounts, discount, selection, manualTax, Nothing, charges)
  {
    hide Compute, Unchanged, KeepsTerms, PastRates, Kept, SelectedIds;
    if selection.Some? {
      UnchangedMeans(selection.value, past);
      var one, two := Historic(setup, d, past), Historic(other, d, past);
      assert Resolve(one, d, selection.value, |amounts|) == Resolve(two, d, selection.value, |amounts|);
    }
  }

  // --- Replay --------------------------------------------------------------------------------

  lemma {:induction false} KeptFinds(rates: seq<Rate>, d: Document, e: Document, ids: set<RateId>, id: RateId,
                                     kind: RateKind)
    requires id in ids
    ensures FindBps(Revived(Kept(rates, d, ids), e), e, id, kind) == FindBps(rates, d, id, kind)
  {
    if rates != [] {
      KeptFinds(rates[1..], d, e, ids, id, kind);
      var rest := Kept(rates[1..], d, ids);
      if rates[0].id in ids && Usable(rates[0], d) {
        assert ([rates[0]] + rest)[1..] == rest;
        var revived := Revived([rates[0]] + rest, e);
        assert revived[1..] == Revived(rest, e);
      } else {
        assert [] + rest == rest;
      }
    }
  }

  /** `now` finds for document e what `then` found for document d, as far as the lines ask. */
  lemma {:induction false} SameLines(past: seq<Rate>, d: Document, now: seq<Rate>, e: Document,
                                     amounts: seq<int>, discount: int, terms: Terms, n: nat)
    requires n <= |amounts| == |terms.lines|
    requires forall i :: 0 <= i < |terms.lines| ==>
               Lookup(past, d, terms.lines[i], Add) == Lookup(now, e, terms.lines[i], Add)
    ensures Lines(past, d, amounts, discount, terms, n) == Lines(now, e, amounts, discount, terms, n)
  {
    if n > 0 {
      SameLines(past, d, now, e, amounts, discount, terms, n - 1);
    }
  }

  lemma {:induction false} SameCharges(past: seq<Rate>, d: Document, now: seq<Rate>, e: Document,
                                       acc: Acc, terms: Terms, charges: seq<Charge>, n: nat)
    requires n <= |charges|
    requires AnyIncluded(charges) ==> Lookup(past, d, terms.rate, Add) == Lookup(now, e, terms.rate, Add)
    ensures Charged(past, d, acc, terms, charges, n) == Charged(now, e, acc, terms, charges, n)
  {
    if n > 0 {
      SameCharges(past, d, now, e, acc, terms, charges, n - 1);
    }
  }

  /** Rates that answer every question of a calculation alike give it the same result. */
  lemma SameComputes(past: seq<Rate>, d: Document, now: seq<Rate>, e: Document,
                     amounts: seq<int>, discount: int, terms: Terms, charges: seq<Charge>)
    requires |terms.lines| == |amounts|
    requires forall i :: 0 <= i < |terms.lines| ==>
               Lookup(past, d, terms.lines[i], Add) == Lookup(now, e, terms.lines[i], Add)
    requires AnyIncluded(charges) ==> Lookup(past, d, terms.rate, Add) == Lookup(now, e, terms.rate, Add)
    requires Lookup(past, d, terms.withholding, Withhold) == Lookup(now, e, terms.withholding, Withhold)
    ensures Compute(past, d, amounts, discount, terms, charges) == Compute(now, e, amounts, discount, terms, charges)
  {
    hide Lookup;
    SameLines(past, d, now, e, amounts, discount, terms, |amounts|);
    var lines := Lines(past, d, amounts, discount, terms, |amounts|);
    if lines.Ok? {
      SameCharges(past, d, now, e, lines.value, terms, charges, |charges|);
    }
  }

  /** The terms use this rate, for the document, for a line or for withholding. */
  ghost predicate Names(terms: Terms, id: RateId) {
    terms.rate == Some(id) || terms.withholding == Some(id) || Some(id) in terms.lines
  }

  /** A rate is kept exactly if it could be used and its id was selected. */
  lemma {:induction false} KeptMeans(rates: seq<Rate>, d: Document, ids: set<RateId>, r: Rate)
    ensures r in Kept(rates, d, ids) <==> r in rates && r.id in ids && r.active && d in r.documents
  {
    if rates != [] {
      KeptMeans(rates[1..], d, ids, r);
    }
  }

  /** Everything the terms use was selected. */
  lemma SelectedNames(setup: Setup, d: Document, selection: Selection, n: nat, id: RateId)
    requires Names(Resolve(setup, d, selection, n), id)
    ensures id in SelectedIds(Resolve(setup, d, selection, n), selection)
  {
    var terms := Resolve(setup, d, selection, n);
    if terms.rate != Some(id) && terms.withholding != Some(id) {
      var i :| 0 <= i < n && terms.lines[i] == Some(id);
      assert DefaultOf(setup, d).perLine && LineChoice(selection, i) == Named(id);
    }
  }

  /** Keeping only rates selected for document d, among them all that the terms use, and reviving them for document
      e, changes nothing the calculation looks at. */
  lemma KeptComputes(rates: seq<Rate>, d: Document, e: Document, ids: set<RateId>, amounts: seq<int>, discount: int,
                     terms: Terms, charges: seq<Charge>)
    requires |terms.lines| == |amounts| && forall id :: Names(terms, id) ==> id in ids
    ensures Compute(Revived(Kept(rates, d, ids), e), e, amounts, discount, terms, charges)
            == Compute(rates, d, amounts, discount, terms, charges)
  {
    hide Compute, FindBps;
    assert forall i :: 0 <= i < |terms.lines| && terms.lines[i].Some? ==> Names(terms, terms.lines[i].value);
    assert terms.rate.Some? ==> Names(terms, terms.rate.value);
    assert terms.withholding.Some? ==> Names(terms, terms.withholding.value);
    var kept := Revived(Kept(rates, d, ids), e);
    if terms.rate.Some? {
      KeptFinds(rates, d, e, ids, terms.rate.value, Add);
    }
    if terms.withholding.Some? {
      KeptFinds(rates, d, e, ids, terms.withholding.value, Withhold);
    }
    forall i | 0 <= i < |terms.lines|
      ensures Lookup(rates, d, terms.lines[i], Add) == Lookup(kept, e, terms.lines[i], Add)
    {
      if terms.lines[i].Some? {
        KeptFinds(rates, d, e, ids, terms.lines[i].value, Add);
      }
    }
    SameComputes(rates, d, kept, e, amounts, discount, terms, charges);
  }

  /** A snapshot's own selection resolves to its own terms under its own defaults. */
  lemma OwnTerms(setup: Setup, document: Document, s: Snapshot, n: nat)
    requires |s.terms.lines| == n && (!s.terms.perLine ==> forall i :: 0 <= i < n ==> s.terms.lines[i] == s.terms.rate)
    ensures Resolve(Historic(setup, document, s), document, OwnSelection(s), n) == s.terms
  {
    var r := Resolve(Historic(setup, document, s), document, OwnSelection(s), n);
    assert DefaultOf(Historic(setup, document, s), document).perLine == s.terms.perLine;
    assert forall i :: 0 <= i < n ==> r.lines[i] == s.terms.lines[i];
  }

  /** The rates that the terms use, as they stand for a document they are used in again. */
  ghost function InUse(rates: seq<Rate>, e: Document, terms: Terms): seq<Rate> {
    if rates == [] then []
    else (if Names(terms, rates[0].id) then [Rate(rates[0].id, rates[0].bps, rates[0].kind, {e}, true)] else [])
         + InUse(rates[1..], e, terms)
  }

  lemma {:induction false} KeptInUse(rates: seq<Rate>, e: Document, ids: set<RateId>, terms: Terms)
    requires forall id :: id in ids <==> Names(terms, id)
    ensures Kept(Revived(rates, e), e, ids) == InUse(rates, e, terms)
  {
    if rates != [] {
      KeptInUse(rates[1..], e, ids, terms);
      assert Revived(rates, e)[1..] == Revived(rates[1..], e);
    }
  }

  /** A snapshot's own selection names exactly what its terms use. */
  lemma OwnIds(s: Snapshot, n: nat)
    requires |s.terms.lines| == n && (!s.terms.perLine ==> forall i :: 0 <= i < n ==> s.terms.lines[i] == s.terms.rate)
    ensures forall id :: id in SelectedIds(s.terms, OwnSelection(s)) <==> Names(s.terms, id)
  {
    var own := OwnSelection(s);
    forall id
      ensures id in SelectedIds(s.terms, own) <==> Names(s.terms, id)
    {
      if Some(id) in s.terms.lines {
        var i :| 0 <= i < n && s.terms.lines[i] == Some(id);
        assert s.terms.perLine ==> own.lines.value[i] == Named(id);
      }
    }
  }

  /** Replaying a snapshot saved under document d with its own selection, under the same or another document e
      (a quotation's snapshot follows it into the sale it is converted into), gives the same figures, the same
      breakdown and the same terms, however the configured rates and defaults have changed, and whoever asks. Of
      the kept rates it keeps those that the terms use. */
  lemma Replay(before: Setup, after: Setup, admin: bool, d: Document, e: Document, amounts: seq<int>, discount: int,
               selection: Selection, manualTax: int, charges: seq<Charge>)
    ensures var saved := TaxOf(before, d, amounts, discount, selection, charges);
            saved.Ok? ==>
              && saved.value.rates.Some?
              && DocumentTax(after, admin, e, amounts, discount, Some(OwnSelection(saved.value)), manualTax,
                             Saved(saved.value), charges)
                 == Ok(Some(saved.value.(rates := Some(InUse(saved.value.rates.value, e, saved.value.terms)))))
  {
    hide Compute;
    var saved := TaxOf(before, d, amounts, discount, selection, charges);
    if saved.Ok? {
      var s := saved.value;
      OwnTerms(after, e, s, |amounts|);
      forall id | Names(s.terms, id)
        ensures id in SelectedIds(s.terms, selection)
      {
        SelectedNames(before, d, selection, |amounts|, id);
      }
      KeptComputes(before.rates, d, e, SelectedIds(s.terms, selection), amounts, discount, s.terms, charges);
      OwnIds(s, |amounts|);
      KeptInUse(s.rates.value, e, SelectedIds(s.terms, OwnSelection(s)), s.terms);
      assert Unchanged(OwnSelection(s), s);
    }
  }

  // --- Snapshots without rates ------------------------------------------------------------------

  /** Every group is an added one with the basis points its rate has for the document. */
  ghost predicate AllFound(rates: seq<Rate>, d: Document, groups: seq<Group>) {
    forall k :: 0 <= k < |groups| ==>
      groups[k].kind.Add? && FindBps(rates, d, groups[k].rate, Add) == Some(groups[k].bps)
  }

  lemma {:induction false} UpsertFound(rates: seq<Rate>, d: Document, groups: seq<Group>, id: RateId, bps: nat,
                                       base: int, amount: int)
    requires AllFound(rates, d, groups) && FindBps(rates, d, id, Add) == Some(bps)
    ensures AllFound(rates, d, Upsert(groups, id, bps, base, amount))
  {
    hide FindBps;
    if groups != [] && groups[0].rate != id {
      assert forall k :: 0 <= k < |groups| - 1 ==> groups[1..][k] == groups[k + 1];
      UpsertFound(rates, d, groups[1..], id, bps, base, amount);
    }
  }

  lemma {:induction false} LinesFound(rates: seq<Rate>, d: Document, amounts: seq<int>, discount: int, terms: Terms,
                                      n: nat)
    requires n <= |amounts| == |terms.lines|
    ensures var r := Lines(rates, d, amounts, discount, terms, n); r.Ok? ==> AllFound(rates, d, r.value.groups)
  {
    hide AllFound, FindBps, Upsert, BaseOf, AddedOn, Taxable;
    if n == 0 {
      NoneFound(rates, d);
    } else if Lines(rates, d, amounts, discount, terms, n).Ok? {
      LinesFound(rates, d, amounts, discount, terms, n - 1);
      var acc, id := Lines(rates, d, amounts, discount, terms, n - 1).value, terms.lines[n - 1];
      var bps, taxable := Lookup(rates, d, id, Add).value, Taxable(amounts, discount, n - 1);
      if id.Some? {
        UpsertFound(rates, d, acc.groups, id.value, bps.value, BaseOf(taxable, terms.inclusive, bps),
                    AddedOn(taxable, terms.inclusive, bps));
      }
    }
  }

  lemma NoneFound(rates: seq<Rate>, d: Document)
    ensures AllFound(rates, d, [])
  {
  }

  lemma {:induction false} ChargedFound(rates: seq<Rate>, d: Document, acc: Acc, terms: Terms, charges: seq<Charge>,
                                        n: nat)
    requires n <= |charges| && AllFound(rates, d, acc.groups)
    ensures var r := Charged(rates, d, acc, terms, charges, n); r.Ok? ==> AllFound(rates, d, r.value.groups)
  {
    hide AllFound, FindBps, Upsert, TaxOn;
    if n > 0 && Charged(rates, d, acc, terms, charges, n).Ok? {
      ChargedFound(rates, d, acc, terms, charges, n - 1);
      var before, c := Charged(rates, d, acc, terms, charges, n - 1).value, charges[n - 1];
      var id := if c.vatIncluded then terms.rate else None;
      var bps := Lookup(rates, d, id, Add).value;
      if id.Some? {
        UpsertFound(rates, d, before.groups, id.value, bps.value, c.amount, TaxOn(c.amount, bps.value));
      }
    }
  }

  /** With one group per rate, the breakdown answers for each of its rates what the configuration answered. */
  lemma {:induction false} FoundAgain(groups: seq<Group>, e: Document, k: nat)
    requires k < |groups| && DistinctGroups(groups)
    ensures FindBps(FromBreakdown(groups, e), e, groups[k].rate, groups[k].kind) == Some(groups[k].bps)
  {
    var rates := FromBreakdown(groups, e);
    assert rates[1..] == FromBreakdown(groups[1..], e);
    if k > 0 {
      assert groups[0].rate != groups[k].rate;
      FoundAgain(groups[1..], e, k - 1);
    }
  }

  lemma {:induction false} ReplaceAppends(groups: seq<Group>, g: Group)
    requires g.rate !in RatesIn(groups)
    ensures Replace(groups, g) == groups + [g]
  {
    if groups != [] {
      assert groups[0].rate in RatesIn(groups);
      assert forall k :: 0 <= k < |groups| - 1 ==>
          groups[1..][k] == groups[k + 1] && groups[k + 1].rate in RatesIn(groups);
      ReplaceAppends(groups[1..], g);
    }
  }

  /** One id is not both an added and a withholding rate. */
  lemma OneKind(rates: seq<Rate>, d: Document, id: RateId)
    requires RatesOk(rates)
    ensures FindBps(rates, d, id, Add).None? || FindBps(rates, d, id, Withhold).None?
  {
    if FindBps(rates, d, id, Add).Some? && FindBps(rates, d, id, Withhold).Some? {
      var i := FindIsRate(rates, d, id, Add);
      var j := FindIsRate(rates, d, id, Withhold);
    }
  }

  /** What the last step of the calculation does to the breakdown. */
  lemma FinalBreakdown(rates: seq<Rate>, d: Document, amounts: seq<int>, discount: int, terms: Terms,
                       charges: seq<Charge>)
    returns (added: seq<Group>)
    requires RatesOk(rates) && |terms.lines| == |amounts|
    requires Compute(rates, d, amounts, discount, terms, charges).Ok?
    ensures AllFound(rates, d, added)
    ensures var b := Compute(rates, d, amounts, discount, terms, charges).value.breakdown;
            if terms.withholding.None? then b == added
            else
              && |b| == |added| + 1 && b[..|added|] == added && b[|added|].kind.Withhold?
              && b[|added|].rate == terms.withholding.value
              && FindBps(rates, d, terms.withholding.value, Withhold) == Some(b[|added|].bps)
  {
    hide AllFound, FindBps, RatesIn, Sane, Replace;
    LinesFound(rates, d, amounts, discount, terms, |amounts|);
    var lines := Lines(rates, d, amounts, discount, terms, |amounts|).value;
    ChargedFound(rates, d, lines, terms, charges, |charges|);
    var acc := Charged(rates, d, lines, terms, charges, |charges|).value;
    added := acc.groups;
    if terms.withholding.Some? {
      var id := terms.withholding.value;
      var bps := Lookup(rates, d, terms.withholding, Withhold).value;
      OneKind(rates, d, id);
      NotAmong(rates, d, added, id);
      ReplaceAppends(added, Group(id, bps.value, Withhold, acc.subtotal, TaxOn(acc.subtotal, bps.value)));
    }
  }

  lemma NotAmong(rates: seq<Rate>, d: Document, groups: seq<Group>, id: RateId)
    requires AllFound(rates, d, groups) && FindBps(rates, d, id, Add).None?
    ensures id !in RatesIn(groups)
  {
  }

  /** The rates recovered from a breakdown answer every question the calculation asked as the configured ones did. */
  lemma RecoveredAnswers(rates: seq<Rate>, d: Document, e: Document, amounts: seq<int>, discount: int, terms: Terms,
                         charges: seq<Charge>, id: RateId, kind: RateKind)
    requires RatesOk(rates) && |terms.lines| == |amounts|
    requires Compute(rates, d, amounts, discount, terms, charges).Ok?
    requires var b := Compute(rates, d, amounts, discount, terms, charges).value.breakdown;
             if kind.Add? then id in RatesIn(b) && FindBps(rates, d, id, Add).Some? else terms.withholding == Some(id)
    ensures var b := Compute(rates, d, amounts, discount, terms, charges).value.breakdown;
            FindBps(FromBreakdown(b, e), e, id, kind) == FindBps(rates, d, id, kind)
  {
    hide FindBps, Compute, DistinctGroups;
    var b := Compute(rates, d, amounts, discount, terms, charges).value.breakdown;
    var added := FinalBreakdown(rates, d, amounts, discount, terms, charges);
    BreakdownDistinct(rates, d, amounts, discount, terms, charges);
    if kind.Add? {
      var k :| 0 <= k < |b| && b[k].rate == id;
      OneKind(rates, d, id);
      assert k < |added| ==> b[k] == added[k];
      FoundAgain(b, e, k);
    } else {
      FoundAgain(b, e, |added|);
    }
  }

  /** Every rate that a successful calculation used was there. */
  lemma {:induction false} LinesLookups(rates: seq<Rate>, d: Document, amounts: seq<int>, discount: int, terms: Terms,
                                        n: nat, i: nat)
    requires i < n <= |amounts| == |terms.lines| && Lines(rates, d, amounts, discount, terms, n).Ok?
    ensures Lookup(rates, d, terms.lines[i], Add).Ok?
  {
    if i < n - 1 {
      LinesLookups(rates, d, amounts, discount, terms, n - 1, i);
    }
  }

  lemma {:induction false} ChargesLookup(rates: seq<Rate>, d: Document, acc: Acc, terms: Terms, charges: seq<Charge>,
                                         n: nat)
    requires n <= |charges| && Charged(rates, d, acc, terms, charges, n).Ok? && AnyIncluded(charges[..n])
    ensures Lookup(rates, d, terms.rate, Add).Ok?
  {
    if !charges[n - 1].vatIncluded {
      var k :| 0 <= k < n && charges[..n][k].vatIncluded;
      assert charges[..n - 1][k].vatIncluded;
      ChargesLookup(rates, d, acc, terms, charges, n - 1);
    }
  }

  /** For validated rates a breakdown is enough to compute the same totals again. */
  lemma RecoveredComputes(rates: seq<Rate>, d: Document, e: Document, amounts: seq<int>, discount: int, terms: Terms,
                          charges: seq<Charge>)
    requires RatesOk(rates) && |terms.lines| == |amounts|
    requires Compute(rates, d, amounts, discount, terms, charges).Ok?
    ensures var past := Compute(rates, d, amounts, discount, terms, charges);
            Compute(FromBreakdown(past.value.breakdown, e), e, amounts, discount, terms, charges) == past
  {
    hide FindBps, Lines, Charged, DistinctGroups, RatesIn, RatesOk, FromBreakdown;
    var b := Compute(rates, d, amounts, discount, terms, charges).value.breakdown;
    var now := FromBreakdown(b, e);
    BreakdownDistinct(rates, d, amounts, discount, terms, charges);
    forall i | 0 <= i < |terms.lines|
      ensures Lookup(rates, d, terms.lines[i], Add) == Lookup(now, e, terms.lines[i], Add)
    {
      LinesLookups(rates, d, amounts, discount, terms, |amounts|, i);
      if terms.lines[i].Some? {
        RecoveredAnswers(rates, d, e, amounts, discount, terms, charges, terms.lines[i].value, Add);
      }
    }
    if AnyIncluded(charges) {
      assert charges[..|charges|] == charges;
      ChargesLookup(rates, d, Lines(rates, d, amounts, discount, terms, |amounts|).value, terms, charges, |charges|);
      if terms.rate.Some? {
        RecoveredAnswers(rates, d, e, amounts, discount, terms, charges, terms.rate.value, Add);
      }
    }
    if terms.withholding.Some? {
      RecoveredAnswers(rates, d, e, amounts, discount, terms, charges, terms.withholding.value, Withhold);
    }
    SameComputes(rates, d, now, e, amounts, discount, terms, charges);
  }

  /** A snapshot from before rates were kept replays from its breakdown alone, to the same figures and terms. */
  lemma ReplayFromBreakdown(before: Setup, after: Setup, admin: bool, d: Document, e: Document, amounts: seq<int>,
                            discount: int, selection: Selection, manualTax: int, charges: seq<Charge>)
    requires RatesOk(before.rates)
    ensures var saved := TaxOf(before, d, amounts, discount, selection, charges);
            saved.Ok? ==>
              var past := saved.value.(rates := None);
              var r := DocumentTax(after, admin, e, amounts, discount, Some(OwnSelection(past)), manualTax,
                                   Saved(past), charges);
              r.Ok? && r.value.Some? && r.value.value == saved.value.(rates := r.value.value.rates)
  {
    hide Compute, RatesOk;
    var saved := TaxOf(before, d, amounts, discount, selection, charges);
    if saved.Ok? {
      var s := saved.value.(rates := None);
      OwnTerms(after, e, s, |amounts|);
      RecoveredComputes(before.rates, d, e, amounts, discount, s.terms, charges);
      assert Unchanged(OwnSelection(s), s);
    }
  }

  // --- Whatever documentTax returns conserves ---------------------------------------------------

  lemma {:induction false} KeptOk(rates: seq<Rate>, d: Document, ids: set<RateId>)
    requires RatesOk(rates)
    ensures RatesOk(Kept(rates, d, ids))
  {
    if rates != [] {
      var rest := Kept(rates[1..], d, ids);
      KeptOk(rates[1..], d, ids);
      forall k | 0 <= k < |rest|
        ensures rest[k].id != rates[0].id
      {
        KeptMeans(rates[1..], d, ids, rest[k]);
        var j :| 0 <= j < |rates[1..]| && rates[1..][j] == rest[k];
        assert rates[j + 1] == rest[k];
      }
    }
  }

  lemma {:induction false} RevivedSame(rates: seq<Rate>, e: Document)
    ensures |Revived(rates, e)| == |rates|
    ensures forall k :: 0 <= k < |rates| ==>
              Revived(rates, e)[k] == Rate(rates[k].id, rates[k].bps, rates[k].kind, {e}, true)
  {
    if rates != [] {
      RevivedSame(rates[1..], e);
      assert forall k :: 0 < k < |rates| ==> rates[k] == rates[1..][k - 1];
    }
  }

  /** A saved snapshot still carries validated rates, or a breakdown to recover them from. */
  predicate PreviousOk(previous: Previous) {
    previous.Saved? ==>
      if previous.snapshot.rates.Some? then RatesOk(previous.snapshot.rates.value)
      else BreakdownOk(previous.snapshot.totals.breakdown)
  }

  predicate BreakdownOk(groups: seq<Group>) {
    DistinctGroups(groups) && forall k :: 0 <= k < |groups| ==> groups[k].bps <= BPS
  }

  lemma PastRatesOk(past: Snapshot, d: Document)
    requires PreviousOk(Saved(past))
    ensures RatesOk(PastRates(past, d))
  {
    if past.rates.Some? {
      RevivedOk(past.rates.value, d);
    }
  }

  /** For validated rates a breakdown is enough to recover them from. */
  lemma ComputedBreakdownOk(rates: seq<Rate>, d: Document, amounts: seq<int>, discount: int, terms: Terms,
                            charges: seq<Charge>)
    requires RatesOk(rates) && |terms.lines| == |amounts|
    requires Compute(rates, d, amounts, discount, terms, charges).Ok?
    ensures BreakdownOk(Compute(rates, d, amounts, discount, terms, charges).value.breakdown)
  {
    hide Compute;
    BreakdownDistinct(rates, d, amounts, discount, terms, charges);
    var added := FinalBreakdown(rates, d, amounts, discount, terms, charges);
    var b := Compute(rates, d, amounts, discount, terms, charges).value.breakdown;
    forall k | 0 <= k < |b|
      ensures b[k].bps <= BPS
    {
      if k < |added| {
        assert b[k] == added[k];
        var i := FindIsRate(rates, d, b[k].rate, Add);
      } else {
        var i := FindIsRate(rates, d, b[k].rate, Withhold);
      }
    }
  }

  /** Whichever way a document gets its snapshot, from new terms or replayed with or without kept rates, it
      conserves, has one group per rate, and can be replayed, even from its breakdown alone. */
  lemma DocumentTaxConserves(setup: Setup, admin: bool, d: Document, amounts: seq<int>, discount: int,
                             selection: Option<Selection>, manualTax: int, previous: Previous, charges: seq<Charge>)
    requires RatesOk(setup.rates) && PreviousOk(previous)
    ensures var r := DocumentTax(setup, admin, d, amounts, discount, selection, manualTax, previous, charges);
            r.Ok? && r.value.Some? ==>
              var s := r.value.value;
              && Conserves(s.totals, amounts, discount, s.terms.inclusive, charges) && Fair(s.totals, s.terms, charges)
              && DistinctGroups(s.totals.breakdown) && PreviousOk(Saved(s)) && PreviousOk(Saved(s.(rates := None)))
  {
    hide RatesOk, Conserves, DistinctGroups, Resolve, Compute, Kept, TaxOf;
    if previous.Saved? {
      PastRatesOk(previous.snapshot, d);
      if selection.Some? {
        ComputedOk(Historic(setup, d, previous.snapshot), d, amounts, discount, selection.value, charges);
      }
    }
    ComputedOk(setup, d, amounts, discount, if selection.Some? then selection.value else PLAIN, charges);
  }

  lemma RevivedOk(rates: seq<Rate>, e: Document)
    requires RatesOk(rates)
    ensures RatesOk(Revived(rates, e))
  {
    RevivedSame(rates, e);
  }

  lemma ComputedOk(setup: Setup, d: Document, amounts: seq<int>, discount: int, selection: Selection,
                   charges: seq<Charge>)
    requires RatesOk(setup.rates)
    ensures var r := TaxOf(setup, d, amounts, discount, selection, charges);
            r.Ok? ==>
              && Conserves(r.value.totals, amounts, discount, r.value.terms.inclusive, charges)
              && Fair(r.value.totals, r.value.terms, charges)
              && DistinctGroups(r.value.totals.breakdown) && PreviousOk(Saved(r.value))
              && PreviousOk(Saved(r.value.(rates := None)))
  {
    hide RatesOk, Conserves, DistinctGroups, Compute, Kept, Explained, Fair;
    var terms := Resolve(setup, d, selection, |amounts|);
    TaxConserves(setup, d, amounts, discount, selection, charges);
    BreakdownDistinct(setup.rates, d, amounts, discount, terms, charges);
    KeptOk(setup.rates, d, SelectedIds(terms, selection));
    TaxExplained(setup, d, amounts, discount, selection, charges);
    if TaxOf(setup, d, amounts, discount, selection, charges).Ok? {
      ComputedBreakdownOk(setup.rates, d, amounts, discount, terms, charges);
      ExplainedIsFair(setup.rates, d, terms, amounts, discount, charges,
                      TaxOf(setup, d, amounts, discount, selection, charges).value.totals);
    }
  }

  /** What a document with configured rates may ask for. A tax entered by hand is refused, and so is a selection made
      against another revision of the setup. Under locked defaults only an administrator gets other terms than the
      default ones; everybody else gets those or nothing. */
  lemma TaxGate(setup: Setup, admin: bool, d: Document, amounts: seq<int>, discount: int, selection: Option<Selection>,
                manualTax: int, charges: seq<Charge>)
    requires setup.rates != []
    ensures var r := DocumentTax(setup, admin, d, amounts, discount, selection, manualTax, Nothing, charges);
            && (manualTax != 0 ==> r.Err?)
            && (selection.Some? && selection.value.revision != setup.revision ==> r.Err?)
            && (r.Ok? ==> r.value.Some? && r.value.value.revision == setup.revision)
            && (r.Ok? && selection.Some? ==> TermsMean(setup, d, selection.value, |amounts|, r.value.value.terms))
            && (r.Ok? && (selection.None? || (!admin && !setup.allowOverride)) ==>
                  TermsMean(setup, d, PLAIN, |amounts|, r.value.value.terms))
            && (manualTax == 0 && selection.None? ==>
                  (r.Ok? <==> TaxOf(setup, d, amounts, discount, PLAIN, charges).Ok?))
            && (manualTax == 0 && selection.Some? && selection.value.revision == setup.revision
                && (admin || setup.allowOverride) ==>
                  (r.Ok? <==> TaxOf(setup, d, amounts, discount, selection.value, charges).Ok?))
  {
    hide Compute;
    ResolveMeans(setup, d, PLAIN, |amounts|);
    if selection.Some? {
      ResolveMeans(setup, d, selection.value, |amounts|);
    }
  }

  /** Without configured rates and without a selection the tax is entered by hand; a document from before tax was
      configured keeps its tax, as long as no charge is to bear it. */
  lemma TaxByHand(setup: Setup, admin: bool, d: Document, amounts: seq<int>, discount: int, manualTax: int,
                  previous: Previous, charges: seq<Charge>)
    requires setup.rates == [] || (previous.FixedTax? && manualTax == previous.tax)
    ensures var r := DocumentTax(setup, admin, d, amounts, discount, None, manualTax, previous, charges);
            if previous.FixedTax? && manualTax == previous.tax
            then r.Ok? <==> forall c :: 0 <= c < |charges| && charges[c].vatIncluded ==> charges[c].amount <= 0
            else r.Ok?
    ensures var r := DocumentTax(setup, admin, d, amounts, discount, None, manualTax, previous, charges);
            r.Ok? ==> r.value == None
  {
  }
}
