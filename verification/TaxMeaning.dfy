/** What a computed tax snapshot means, told without the calculation: every line and charge enters the totals at
    its own rate, every amount is the nearest whole one to what that rate asks, and the breakdown adds the entries
    up by rate. */
module TaxMeaning {
  import opened Outcomes
  import opened Rounding
  import opened Sums
  import opened TaxEngine

  /** What one line or charge enters: its rate, its share of the discount, its price before tax and its tax. */
  datatype Entry = Entry(rate: Option<RateId>, share: int, base: int, added: int)

  ghost const SHARE: Entry -> int := (e: Entry) => e.share
  ghost const BASE: Entry -> int := (e: Entry) => e.base
  ghost const ADDED: Entry -> int := (e: Entry) => e.added
  ghost const ONE: Entry -> int := (e: Entry) => 1

  /** What an entry contributes to the group of a rate. */
  ghost function OnRate(id: RateId, f: Entry -> int): Entry -> int {
    (e: Entry) => if e.rate == Some(id) then f(e) else 0
  }

  /** An active rate that applies to the document. */
  ghost predicate Configured(rates: seq<Rate>, document: Document, id: RateId, kind: RateKind, bps: nat) {
    exists i :: 0 <= i < |rates| && rates[i] == Rate(id, bps, kind, rates[i].documents, true)
                && document in rates[i].documents
  }

  /** q is the nearest integer to num / den, ties going up. */
  ghost predicate Nearest(q: int, num: int, den: int) {
    2 * (q * den) - den <= 2 * num < 2 * (q * den) + den
  }

  /** An exclusive price gets its tax added; an inclusive one is split into a price before tax and the rest. */
  ghost predicate Taxed(taxable: int, bps: nat, inclusive: bool, base: int, added: int) {
    if inclusive then Nearest(base, taxable * BPS, BPS + bps) && base + added == taxable
    else base == taxable && Nearest(added, base * bps, BPS)
  }

  ghost predicate EntryOk(rates: seq<Rate>, document: Document, rate: Option<RateId>, taxable: int, inclusive: bool,
                          e: Entry) {
    && e.rate == rate
    && if rate.None? then e.base == taxable && e.added == 0
       else exists bps :: Configured(rates, document, rate.value, Add, bps)
                          && Taxed(taxable, bps, inclusive, e.base, e.added)
  }

  /** The first n lines together have taken their part of the discount, to the nearest whole amount. */
  ghost predicate FairShare(amounts: seq<int>, discount: int, lines: seq<Entry>, n: nat)
    requires n <= |amounts| && n <= |lines|
  {
    var total := Prefix(amounts, |amounts|);
    if total > 0 then Nearest(Sum(lines[..n], SHARE), discount * Prefix(amounts, n), total)
    else Sum(lines[..n], SHARE) == 0
  }

  /** The group adds up the entries of its rate, which is configured with the group's basis points. */
  ghost predicate GroupMeans(rates: seq<Rate>, document: Document, g: Group, entries: seq<Entry>) {
    && g.kind.Add? && Configured(rates, document, g.rate, Add, g.bps)
    && g.base == Sum(entries, OnRate(g.rate, BASE)) && g.amount == Sum(entries, OnRate(g.rate, ADDED))
  }

  /** The groups are those of the entries' rates, each once. */
  ghost predicate GroupsMean(rates: seq<Rate>, document: Document, groups: seq<Group>, entries: seq<Entry>) {
    && DistinctGroups(groups)
    && (forall k :: 0 <= k < |groups| ==> GroupMeans(rates, document, groups[k], entries))
    && (forall i :: 0 <= i < |entries| && entries[i].rate.Some? ==> entries[i].rate.value in RatesIn(groups))
  }

  ghost predicate LinesMean(rates: seq<Rate>, document: Document, terms: Terms, amounts: seq<int>, discount: int,
                            lines: seq<Entry>)
    requires |terms.lines| == |amounts|
  {
    && |lines| <= |amounts|
    && (forall i :: 0 <= i < |lines| ==>
          && 0 <= lines[i].share <= amounts[i]
          && EntryOk(rates, document, terms.lines[i], amounts[i] - lines[i].share, terms.inclusive, lines[i]))
    && (forall n :: 0 <= n <= |lines| ==> FairShare(amounts, discount, lines, n))
  }

  /** Charges are taxed on top, at the document's rate if they bear tax, and take no discount. */
  ghost predicate ChargesMean(rates: seq<Rate>, document: Document, terms: Terms, charges: seq<Charge>,
                              extra: seq<Entry>) {
    && |extra| <= |charges|
    && forall c :: 0 <= c < |extra| ==>
         EntryOk(rates, document, if charges[c].vatIncluded then terms.rate else None, charges[c].amount, false,
                 extra[c])
  }

  /** The withholding is its rate's part of the subtotal, and the last group of the breakdown. */
  ghost predicate WithheldMeans(rates: seq<Rate>, document: Document, terms: Terms, t: Totals, added: seq<Group>) {
    if terms.withholding.None? then t.withholding == 0 && t.breakdown == added
    else exists bps ::
        && Configured(rates, document, terms.withholding.value, Withhold, bps)
        && Nearest(t.withholding, t.subtotal * bps, BPS)
        && t.breakdown == added + [Group(terms.withholding.value, bps, Withhold, t.subtotal, t.withholding)]
  }

  ghost predicate Explains(rates: seq<Rate>, document: Document, terms: Terms, amounts: seq<int>, discount: int,
                           charges: seq<Charge>, t: Totals, lines: seq<Entry>, extra: seq<Entry>, added: seq<Group>) {
    && |lines| == |amounts| == |terms.lines| && |extra| == |charges|
    && LinesMean(rates, document, terms, amounts, discount, lines)
    && ChargesMean(rates, document, terms, charges, extra)
    && GroupsMean(rates, document, added, lines + extra)
    && WithheldMeans(rates, document, terms, t, added)
    && t.subtotal == Sum(lines + extra, BASE) && t.tax == Sum(lines + extra, ADDED)
    && t.gross == t.subtotal + t.tax && t.payable == t.gross - t.withholding
    && t.discount == discount == Sum(lines, SHARE) && t.chargesSubtotal == Sum(extra, BASE)
  }

  ghost predicate Explained(rates: seq<Rate>, document: Document, terms: Terms, amounts: seq<int>, discount: int,
                            charges: seq<Charge>, t: Totals) {
    exists lines, extra, added ::
      Explains(rates, document, terms, amounts, discount, charges, t, lines, extra, added)
  }

  // --- Rates ---------------------------------------------------------------------------------------

  lemma {:induction false} FoundIsConfigured(rates: seq<Rate>, document: Document, id: RateId, kind: RateKind)
    ensures var bps := FindBps(rates, document, id, kind);
            bps.Some? ==> Configured(rates, document, id, kind, bps.value)
  {
    if FindBps(rates, document, id, kind).Some? {
      if rates[0].id == id && rates[0].kind == kind && Usable(rates[0], document) {
        assert rates[0] == Rate(id, rates[0].bps, kind, rates[0].documents, true);
      } else {
        FoundIsConfigured(rates[1..], document, id, kind);
        var bps := FindBps(rates, document, id, kind).value;
        var i :| 0 <= i < |rates[1..]| && rates[1..][i] == Rate(id, bps, kind, rates[1..][i].documents, true)
                 && document in rates[1..][i].documents;
        assert rates[i + 1] == rates[1..][i];
      }
    }
  }

  lemma OneConfigured(rates: seq<Rate>, document: Document, id: RateId, kind: RateKind, a: nat, b: nat)
    requires RatesOk(rates) && Configured(rates, document, id, kind, a) && Configured(rates, document, id, kind, b)
    ensures a == b <= BPS
  {
    var i :| 0 <= i < |rates| && rates[i] == Rate(id, a, kind, rates[i].documents, true);
    var j :| 0 <= j < |rates| && rates[j] == Rate(id, b, kind, rates[j].documents, true);
    assert i < j || j < i || i == j;
  }

  lemma RoundIsNearest(num: int, den: int)
    requires den > 0
    ensures Nearest(Round(num, den), num, den)
  {
    RoundNearest(num, den, Round(num, den));
    assert 2 * den * Round(num, den) == 2 * (Round(num, den) * den);
  }

  lemma EntryMeans(rates: seq<Rate>, document: Document, rate: Option<RateId>, taxable: int, inclusive: bool,
                   bps: Option<nat>, e: Entry)
    requires Lookup(rates, document, rate, Add) == Ok(bps) && e.rate == rate
    requires e.base == BaseOf(taxable, inclusive, bps) && e.added == AddedOn(taxable, inclusive, bps)
    ensures EntryOk(rates, document, rate, taxable, inclusive, e)
  {
    if rate.None? {
      RoundZero(BPS);
    } else {
      FoundIsConfigured(rates, document, rate.value, Add);
      RoundIsNearest(taxable * BPS, BPS + bps.value);
      RoundIsNearest(taxable * bps.value, BPS);
    }
  }

  // --- Groups --------------------------------------------------------------------------------------

  lemma {:induction false} UpsertAt(groups: seq<Group>, id: RateId, bps: nat, base: int, amount: int)
    requires DistinctGroups(groups)
    ensures var r := Upsert(groups, id, bps, base, amount);
            && |groups| <= |r| && (id in RatesIn(groups) ==> |r| == |groups|)
            && (id !in RatesIn(groups) ==> r == groups + [Group(id, bps, Add, base, amount)])
            && forall k :: 0 <= k < |groups| ==>
                 r[k] == if groups[k].rate != id then groups[k]
                         else groups[k].(base := groups[k].base + base, amount := groups[k].amount + amount)
  {
    if groups != [] {
      var first, rest := groups[0], groups[1..];
      assert groups == [first] + rest;
      RatesOfParts(first, rest);
      assert forall k :: 0 < k < |groups| ==> groups[k] == rest[k - 1];
      if first.rate != id {
        UpsertAt(rest, id, bps, base, amount);
      }
    }
  }

  lemma OnRateZero(entries: seq<Entry>, id: RateId, f: Entry -> int)
    requires forall i :: 0 <= i < |entries| ==> entries[i].rate != Some(id)
    ensures Sum(entries, OnRate(id, f)) == 0
  {
    SumZero(entries, OnRate(id, f));
  }

  lemma OnRateMore(entries: seq<Entry>, e: Entry, id: RateId, f: Entry -> int)
    ensures Sum(entries + [e], OnRate(id, f)) == Sum(entries, OnRate(id, f)) + if e.rate == Some(id) then f(e) else 0
  {
    SumAppend(entries, e, OnRate(id, f));
  }

  /** Entering one more entry keeps the groups what they mean. */
  lemma EnteredMeans(rates: seq<Rate>, document: Document, acc: Acc, entries: seq<Entry>, bps: Option<nat>, e: Entry)
    requires GroupsMean(rates, document, acc.groups, entries) && Lookup(rates, document, e.rate, Add) == Ok(bps)
    ensures GroupsMean(rates, document, Entered(acc, e.rate, bps, e.base, e.added).groups, entries + [e])
  {
    hide Sum, OnRate, Configured, RatesIn, Upsert;
    var after := entries + [e];
    if e.rate.None? {
      forall k | 0 <= k < |acc.groups|
        ensures GroupMeans(rates, document, acc.groups[k], after)
      {
        OnRateMore(entries, e, acc.groups[k].rate, BASE);
        OnRateMore(entries, e, acc.groups[k].rate, ADDED);
      }
    } else {
      var id, groups := e.rate.value, Upsert(acc.groups, e.rate.value, bps.value, e.base, e.added);
      FoundIsConfigured(rates, document, id, Add);
      UpsertAt(acc.groups, id, bps.value, e.base, e.added);
      UpsertRates(acc.groups, id, bps.value, e.base, e.added);
      forall k | 0 <= k < |groups|
        ensures GroupMeans(rates, document, groups[k], after)
      {
        if k >= |acc.groups| {
          OnRateZero(entries, id, BASE);
          OnRateZero(entries, id, ADDED);
        }
        OnRateMore(entries, e, groups[k].rate, BASE);
        OnRateMore(entries, e, groups[k].rate, ADDED);
      }
    }
  }

  // --- The loops -----------------------------------------------------------------------------------

  /** What a running total has to do with the entries so far. */
  ghost predicate AccMeans(rates: seq<Rate>, document: Document, acc: Acc, entries: seq<Entry>) {
    && acc.subtotal == Sum(entries, BASE) && acc.tax == Sum(entries, ADDED)
    && GroupsMean(rates, document, acc.groups, entries)
  }

  lemma AccMore(rates: seq<Rate>, document: Document, acc: Acc, entries: seq<Entry>, bps: Option<nat>, e: Entry)
    requires AccMeans(rates, document, acc, entries) && Lookup(rates, document, e.rate, Add) == Ok(bps)
    ensures AccMeans(rates, document, Entered(acc, e.rate, bps, e.base, e.added), entries + [e])
  {
    hide GroupsMean, Sum, Upsert;
    EnteredMeans(rates, document, acc, entries, bps, e);
    SumAppend(entries, e, BASE);
    SumAppend(entries, e, ADDED);
  }

  lemma {:induction false} LinesExplained(rates: seq<Rate>, document: Document, amounts: seq<int>, discount: int,
                                          terms: Terms, n: nat) returns (lines: seq<Entry>)
    requires Sane(amounts, discount, []) && n <= |amounts| == |terms.lines|
    requires Lines(rates, document, amounts, discount, terms, n).Ok?
    ensures |lines| == n && LinesMean(rates, document, terms, amounts, discount, lines)
    ensures Sum(lines, SHARE) == Distributed(amounts, discount, n)
    ensures AccMeans(rates, document, Lines(rates, document, amounts, discount, terms, n).value, lines)
  {
    hide AccMeans, LinesMean, EntryOk, BaseOf, AddedOn, Lines, Distributed, Sum, Sane, FairShare;
    if n == 0 {
      lines := [];
      NothingEntered(rates, document, amounts, discount, terms);
    } else {
      LastLine(rates, document, amounts, discount, terms, n);
      var front := LinesExplained(rates, document, amounts, discount, terms, n - 1);
      var acc := Lines(rates, document, amounts, discount, terms, n - 1).value;
      var rate, taxable := terms.lines[n - 1], Taxable(amounts, discount, n - 1);
      var bps := Lookup(rates, document, rate, Add).value;
      var e := Entry(rate, amounts[n - 1] - taxable, BaseOf(taxable, terms.inclusive, bps),
                     AddedOn(taxable, terms.inclusive, bps));
      DiscountShares(amounts, discount, n - 1);
      EntryMeans(rates, document, rate, taxable, terms.inclusive, bps, e);
      AccMore(rates, document, acc, front, bps, e);
      lines := front + [e];
      SumAppend(front, e, SHARE);
      SharesSoFar(amounts, discount, lines);
      LinesMore(rates, document, terms, amounts, discount, front, e);
    }
  }

  lemma LastLine(rates: seq<Rate>, document: Document, amounts: seq<int>, discount: int, terms: Terms, n: nat)
    requires 0 < n <= |amounts| == |terms.lines| && Lines(rates, document, amounts, discount, terms, n).Ok?
    ensures Lines(rates, document, amounts, discount, terms, n - 1).Ok?
    ensures var bps, taxable := Lookup(rates, document, terms.lines[n - 1], Add), Taxable(amounts, discount, n - 1);
            && bps.Ok?
            && Lines(rates, document, amounts, discount, terms, n).value ==
               Entered(Lines(rates, document, amounts, discount, terms, n - 1).value, terms.lines[n - 1], bps.value,
                       BaseOf(taxable, terms.inclusive, bps.value), AddedOn(taxable, terms.inclusive, bps.value))
  {
    hide BaseOf, AddedOn, Taxable, Upsert, FindBps;
  }

  lemma LinesMore(rates: seq<Rate>, document: Document, terms: Terms, amounts: seq<int>, discount: int,
                  front: seq<Entry>, e: Entry)
    requires |front| < |amounts| == |terms.lines| && LinesMean(rates, document, terms, amounts, discount, front)
    requires 0 <= e.share <= amounts[|front|]
    requires EntryOk(rates, document, terms.lines[|front|], amounts[|front|] - e.share, terms.inclusive, e)
    requires FairShare(amounts, discount, front + [e], |front| + 1)
    ensures LinesMean(rates, document, terms, amounts, discount, front + [e])
  {
    hide EntryOk;
    var lines := front + [e];
    forall m | 0 <= m <= |lines|
      ensures FairShare(amounts, discount, lines, m)
    {
      if m <= |front| {
        assert FairShare(amounts, discount, front, m);
        assert lines[..m] == front[..m];
      }
    }
  }

  lemma NothingEntered(rates: seq<Rate>, document: Document, amounts: seq<int>, discount: int, terms: Terms)
    requires |amounts| == |terms.lines| && Sane(amounts, discount, [])
    ensures AccMeans(rates, document, Acc(0, 0, 0, []), []) && Distributed(amounts, discount, 0) == 0
    ensures LinesMean(rates, document, terms, amounts, discount, []) && Sum([], SHARE) == 0
    ensures Lines(rates, document, amounts, discount, terms, 0) == Ok(Acc(0, 0, 0, []))
  {
    PrefixOrder(amounts, 0, |amounts|);
    assert FairShare(amounts, discount, [], 0);
  }

  /** Cumulative rounding keeps the shares fair at every line. */
  lemma SharesSoFar(amounts: seq<int>, discount: int, lines: seq<Entry>)
    requires Sane(amounts, discount, []) && 0 < |lines| <= |amounts|
    requires Sum(lines, SHARE) == Distributed(amounts, discount, |lines|)
    ensures FairShare(amounts, discount, lines, |lines|)
  {
    hide Sum;
    var total := Prefix(amounts, |amounts|);
    assert lines[..|lines|] == lines;
    PrefixOrder(amounts, 0, |amounts|);
    if total > 0 {
      RoundIsNearest(discount * Prefix(amounts, |lines|), total);
    }
  }

  lemma {:induction false} ChargesExplained(rates: seq<Rate>, document: Document, acc: Acc, terms: Terms,
                                            charges: seq<Charge>, n: nat, lines: seq<Entry>)
    returns (extra: seq<Entry>)
    requires n <= |charges| && AccMeans(rates, document, acc, lines)
    requires Charged(rates, document, acc, terms, charges, n).Ok?
    ensures |extra| == n && ChargesMean(rates, document, terms, charges, extra)
    ensures Sum(extra, BASE) == ChargesTotal(charges, n)
    ensures AccMeans(rates, document, Charged(rates, document, acc, terms, charges, n).value, lines + extra)
  {
    hide AccMeans, EntryOk, Upsert;
    if n == 0 {
      extra := [];
      assert lines + [] == lines;
    } else {
      var front := ChargesExplained(rates, document, acc, terms, charges, n - 1, lines);
      var before, charge := Charged(rates, document, acc, terms, charges, n - 1).value, charges[n - 1];
      var rate := if charge.vatIncluded then terms.rate else None;
      var bps := Lookup(rates, document, rate, Add).value;
      var e := Entry(rate, 0, charge.amount, TaxOn(charge.amount, if bps.Some? then bps.value else 0));
      EntryMeans(rates, document, rate, charge.amount, false, bps, e);
      AccMore(rates, document, before, lines + front, bps, e);
      extra := front + [e];
      SumAppend(front, e, BASE);
      assert lines + front + [e] == lines + extra;
    }
  }

  /** Every computed snapshot is explained by entries, one for each line and charge. */
  lemma TaxExplained(setup: Setup, document: Document, amounts: seq<int>, discount: int, selection: Selection,
                     charges: seq<Charge>)
    requires RatesOk(setup.rates)
    ensures var r := TaxOf(setup, document, amounts, discount, selection, charges);
            r.Ok? ==> Explained(setup.rates, document, r.value.terms, amounts, discount, charges, r.value.totals)
  {
    hide AccMeans, LinesMean, ChargesMean, GroupsMean, WithheldMeans;
    var rates, terms := setup.rates, Resolve(setup, document, selection, |amounts|);
    var r := TaxOf(setup, document, amounts, discount, selection, charges);
    if r.Ok? {
      var t := r.value.totals;
      var before := Lines(rates, document, amounts, discount, terms, |amounts|).value;
      var acc := Charged(rates, document, before, terms, charges, |charges|).value;
      var lines := LinesExplained(rates, document, amounts, discount, terms, |amounts|);
      var extra := ChargesExplained(rates, document, before, terms, charges, |charges|, lines);
      AccSays(rates, document, acc, lines + extra);
      DiscountShares(amounts, discount, |amounts|);
      WithheldExplained(rates, document, terms, acc, lines + extra, t, discount, ChargesTotal(charges, |charges|));
      assert Explains(rates, document, terms, amounts, discount, charges, t, lines, extra, acc.groups);
    }
  }

  lemma AccSays(rates: seq<Rate>, document: Document, acc: Acc, entries: seq<Entry>)
    requires AccMeans(rates, document, acc, entries)
    ensures acc.subtotal == Sum(entries, BASE) && acc.tax == Sum(entries, ADDED)
    ensures GroupsMean(rates, document, acc.groups, entries)
  {
  }

  lemma WithheldExplained(rates: seq<Rate>, document: Document, terms: Terms, acc: Acc, entries: seq<Entry>, t: Totals,
                          discount: int, chargesSubtotal: int)
    requires RatesOk(rates) && AccMeans(rates, document, acc, entries)
    requires var bps := Lookup(rates, document, terms.withholding, Withhold);
             && bps.Ok?
             && Finish(acc, discount,
                       if bps.value.Some? && terms.withholding.Some?
                       then Some((terms.withholding.value, bps.value.value)) else None, chargesSubtotal) == Ok(t)
    ensures WithheldMeans(rates, document, terms, t, acc.groups)
    ensures t.subtotal == acc.subtotal && t.tax == acc.tax && t.gross == t.subtotal + t.tax
    ensures t.payable == t.gross - t.withholding && t.discount == discount && t.chargesSubtotal == chargesSubtotal
  {
    hide Nearest, Configured;
    if terms.withholding.Some? {
      var id, bps := terms.withholding.value, FindBps(rates, document, terms.withholding.value, Withhold).value;
      FoundIsConfigured(rates, document, id, Withhold);
      RoundIsNearest(acc.subtotal * bps, BPS);
      NotWithheld(rates, document, acc, entries, id, bps);
      ReplaceNew(acc.groups, Group(id, bps, Withhold, acc.subtotal, TaxOn(acc.subtotal, bps)));
    }
  }

  lemma NotWithheld(rates: seq<Rate>, document: Document, acc: Acc, entries: seq<Entry>, id: RateId, bps: nat)
    requires RatesOk(rates) && AccMeans(rates, document, acc, entries)
    requires Configured(rates, document, id, Withhold, bps)
    ensures forall k :: 0 <= k < |acc.groups| ==> acc.groups[k].rate != id
  {
    hide Sum;
    var i :| 0 <= i < |rates| && rates[i] == Rate(id, bps, Withhold, rates[i].documents, true);
    forall k | 0 <= k < |acc.groups|
      ensures acc.groups[k].rate != id
    {
      var g := acc.groups[k];
      assert GroupMeans(rates, document, g, entries);
      var j :| 0 <= j < |rates| && rates[j] == Rate(g.rate, g.bps, Add, rates[j].documents, true);
      assert i < j || j < i;
    }
  }

  lemma {:induction false} ReplaceNew(groups: seq<Group>, g: Group)
    requires forall k :: 0 <= k < |groups| ==> groups[k].rate != g.rate
    ensures Replace(groups, g) == groups + [g]
  {
    if groups != [] {
      ReplaceNew(groups[1..], g);
      assert groups == [groups[0]] + groups[1..];
    }
  }

  // --- What is chosen and what is accepted ----------------------------------------------------------------

  /** A choice left open takes what is usual, one set to none takes none, and a named rate is that rate. */
  ghost predicate Follows(chosen: Option<RateId>, choice: Choice, usual: Option<RateId>) {
    && (choice.Unset? ==> chosen == usual)
    && (choice.NoRate? ==> chosen == None)
    && (choice.Named? ==> chosen == Some(choice.id))
  }

  /** The terms of a document: the defaults of its kind, overridden by the selection, and by its lines where the
      defaults leave the rate to the lines. */
  ghost predicate TermsMean(setup: Setup, document: Document, selection: Selection, n: nat, terms: Terms) {
    var usual := match document
      case Quotation => setup.quotation
      case Sale => setup.sale
      case Purchase => setup.purchase;
    && Follows(terms.rate, selection.rate, usual.rate)
    && Follows(terms.withholding, selection.withholding, usual.withholding)
    && (selection.inclusive == None ==> terms.inclusive == usual.inclusive)
    && (selection.inclusive.Some? ==> terms.inclusive == selection.inclusive.value)
    && terms.perLine == usual.perLine && |terms.lines| == n
    && forall i :: 0 <= i < n ==>
         if usual.perLine && selection.lines.Some? && i < |selection.lines.value|
         then Follows(terms.lines[i], selection.lines.value[i], terms.rate) else terms.lines[i] == terms.rate
  }

  lemma ResolveMeans(setup: Setup, document: Document, selection: Selection, n: nat)
    ensures TermsMean(setup, document, selection, n, Resolve(setup, document, selection, n))
  {
  }

  /** The amounts a client may send. */
  ghost predicate AmountsOk(amounts: seq<int>, discount: int, charges: seq<Charge>) {
    && (forall i :: 0 <= i < |amounts| ==> amounts[i] >= 0) && 0 <= discount <= Prefix(amounts, |amounts|)
    && |charges| <= 20 && forall c :: 0 <= c < |charges| ==> 0 <= charges[c].amount <= 2147483647
  }

  ghost predicate HasRate(rates: seq<Rate>, document: Document, id: Option<RateId>, kind: RateKind) {
    id.Some? ==> exists bps :: Configured(rates, document, id.value, kind, bps)
  }

  /** Every rate that the terms name for a line, a taxed charge or the withholding can be used. */
  ghost predicate RatesUsable(rates: seq<Rate>, document: Document, terms: Terms, charges: seq<Charge>) {
    && (forall i :: 0 <= i < |terms.lines| ==> HasRate(rates, document, terms.lines[i], Add))
    && (forall c :: 0 <= c < |charges| && charges[c].vatIncluded ==> HasRate(rates, document, terms.rate, Add))
    && HasRate(rates, document, terms.withholding, Withhold)
  }

  lemma {:induction false} ConfiguredIsFound(rates: seq<Rate>, document: Document, id: RateId, kind: RateKind, bps: nat)
    requires Configured(rates, document, id, kind, bps)
    ensures FindBps(rates, document, id, kind).Some?
  {
    var i :| 0 <= i < |rates| && rates[i] == Rate(id, bps, kind, rates[i].documents, true)
             && document in rates[i].documents;
    if i > 0 {
      assert rates[1..][i - 1] == rates[i];
      ConfiguredIsFound(rates[1..], document, id, kind, bps);
    }
  }

  lemma LookupMeans(rates: seq<Rate>, document: Document, id: Option<RateId>, kind: RateKind)
    ensures Lookup(rates, document, id, kind).Ok? <==> HasRate(rates, document, id, kind)
  {
    if id.Some? {
      FoundIsConfigured(rates, document, id.value, kind);
      if HasRate(rates, document, id, kind) {
        var bps :| Configured(rates, document, id.value, kind, bps);
        ConfiguredIsFound(rates, document, id.value, kind, bps);
      }
    }
  }

  /** A line enters at most twice its amount. */
  lemma LineAtMost(taxable: int, inclusive: bool, bps: Option<nat>)
    requires 0 <= taxable && (bps.Some? ==> bps.value <= BPS)
    ensures 0 <= BaseOf(taxable, inclusive, bps) && 0 <= AddedOn(taxable, inclusive, bps)
    ensures BaseOf(taxable, inclusive, bps) + AddedOn(taxable, inclusive, bps) <= 2 * taxable
  {
    LineParts(taxable, inclusive, bps);
    RoundZero(BPS);
    if bps.Some? {
      TaxBounds(taxable, bps.value);
    }
  }

  lemma {:induction false} LinesAccepted(rates: seq<Rate>, document: Document, amounts: seq<int>, discount: int,
                                         terms: Terms, n: nat)
    requires RatesOk(rates) && Sane(amounts, discount, []) && n <= |amounts| == |terms.lines|
    ensures var r := Lines(rates, document, amounts, discount, terms, n);
            && (r.Ok? <==> forall i :: 0 <= i < n ==> HasRate(rates, document, terms.lines[i], Add))
            && (r.Ok? ==> 0 <= r.value.subtotal && 0 <= r.value.tax
                          && r.value.subtotal + r.value.tax <= 2 * Prefix(amounts, n))
  {
    hide BaseOf, AddedOn, Taxable, Upsert, HasRate, RatesOk, Sane;
    if n > 0 {
      LinesAccepted(rates, document, amounts, discount, terms, n - 1);
      LookupMeans(rates, document, terms.lines[n - 1], Add);
      LookupBound(rates, document, terms.lines[n - 1], Add);
      DiscountShares(amounts, discount, n - 1);
      var bps := Lookup(rates, document, terms.lines[n - 1], Add);
      if bps.Ok? {
        LineAtMost(Taxable(amounts, discount, n - 1), terms.inclusive, bps.value);
      }
    }
  }

  lemma {:induction false} ChargesAccepted(rates: seq<Rate>, document: Document, acc: Acc, terms: Terms,
                                           charges: seq<Charge>, n: nat)
    requires RatesOk(rates) && n <= |charges| && 0 <= acc.subtotal && 0 <= acc.tax
    requires forall c :: 0 <= c < |charges| ==> 0 <= charges[c].amount
    ensures var r := Charged(rates, document, acc, terms, charges, n);
            && (r.Ok? <==>
                  forall c :: 0 <= c < n && charges[c].vatIncluded ==> HasRate(rates, document, terms.rate, Add))
            && (r.Ok? ==> 0 <= r.value.subtotal && 0 <= r.value.tax
                          && r.value.subtotal + r.value.tax
                             <= acc.subtotal + acc.tax + 2 * ChargesTotal(charges, n))
  {
    hide TaxOn, Upsert, HasRate, RatesOk;
    if n > 0 {
      ChargesAccepted(rates, document, acc, terms, charges, n - 1);
      var charge := charges[n - 1];
      var id := if charge.vatIncluded then terms.rate else None;
      LookupMeans(rates, document, id, Add);
      LookupBound(rates, document, id, Add);
      var bps := Lookup(rates, document, id, Add);
      if bps.Ok? {
        TaxBounds(charge.amount, if bps.value.Some? then bps.value.value else 0);
      }
      NoneNeeded(rates, document);
    }
  }

  lemma NoneNeeded(rates: seq<Rate>, document: Document)
    ensures HasRate(rates, document, None, Add)
  {
  }

  /** A calculation is refused only for amounts that may not be sent, for a rate that cannot be used, or because the
      totals would not fit; none of these is ever accepted. */
  lemma AcceptedWhen(setup: Setup, document: Document, amounts: seq<int>, discount: int, selection: Selection,
                     charges: seq<Charge>)
    requires RatesOk(setup.rates)
    ensures var r, terms := TaxOf(setup, document, amounts, discount, selection, charges),
                            Resolve(setup, document, selection, |amounts|);
            var fine := AmountsOk(amounts, discount, charges) && RatesUsable(setup.rates, document, terms, charges);
            && (r.Ok? ==> fine)
            && (fine && 2 * (Prefix(amounts, |amounts|) + ChargesTotal(charges, |charges|)) <= MAX_MONEY ==> r.Ok?)
  {
    hide Lines, Charged, Resolve, HasRate, Replace;
    var rates, terms := setup.rates, Resolve(setup, document, selection, |amounts|);
    assert |terms.lines| == |amounts| by { ResolveMeans(setup, document, selection, |amounts|); }
    assert AmountsOk(amounts, discount, charges) <==> Sane(amounts, discount, charges);
    if Sane(amounts, discount, charges) {
      LinesAccepted(rates, document, amounts, discount, terms, |amounts|);
      var lines := Lines(rates, document, amounts, discount, terms, |amounts|);
      if lines.Ok? {
        ChargesAccepted(rates, document, lines.value, terms, charges, |charges|);
        var acc := Charged(rates, document, lines.value, terms, charges, |charges|);
        LookupMeans(rates, document, terms.withholding, Withhold);
        LookupBound(rates, document, terms.withholding, Withhold);
        if acc.Ok? && Lookup(rates, document, terms.withholding, Withhold).Ok? {
          var bps := Lookup(rates, document, terms.withholding, Withhold).value;
          TaxBounds(acc.value.subtotal, if bps.Some? then bps.value else 0);
        }
      }
    }
  }

  // --- How far a group can be from its rate --------------------------------------------------------------

  /** How many lines and charges bear a rate. */
  ghost function Uses(terms: Terms, charges: seq<Charge>, id: RateId): nat {
    LinesWith(terms.lines, id) + if terms.rate == Some(id) then TaxedCharges(charges) else 0
  }

  ghost function LinesWith(lines: seq<Option<RateId>>, id: RateId): nat {
    if lines == [] then 0 else LinesWith(lines[..|lines| - 1], id) + if lines[|lines| - 1] == Some(id) then 1 else 0
  }

  ghost function TaxedCharges(charges: seq<Charge>): nat {
    if charges == [] then 0 else
      TaxedCharges(charges[..|charges| - 1]) + if charges[|charges| - 1].vatIncluded then 1 else 0
  }

  /** x differs from y by at most n halves of one basis-point unit, or n units if not `halves`. */
  ghost predicate Within(x: int, y: int, n: nat, halves: bool) {
    && 0 - n * BPS <= x - y <= n * BPS
    && (halves ==> 0 - n * BPS <= 2 * (x - y) <= n * BPS)
  }

  /** The tax of every group is what its rate asks of its base, up to the rounding of its n entries: half a unit
      each, or one when prices include the tax. The withholding is rounded once. */
  ghost predicate Fair(t: Totals, terms: Terms, charges: seq<Charge>) {
    forall k :: 0 <= k < |t.breakdown| ==>
      var g := t.breakdown[k];
      if g.kind.Add? then Within(g.amount * BPS, g.base * g.bps, Uses(terms, charges, g.rate), !terms.inclusive)
      else g.base == t.subtotal && g.amount == t.withholding && Within(g.amount * BPS, g.base * g.bps, 1, true)
  }

  /** One entry of a rate. */
  ghost predicate Close(e: Entry, bps: nat, halves: bool) { Within(e.added * BPS, e.base * bps, 1, halves) }

  lemma TaxedIsClose(taxable: int, bps: nat, inclusive: bool, e: Entry)
    requires bps <= BPS && Taxed(taxable, bps, inclusive, e.base, e.added)
    ensures Close(e, bps, !inclusive)
  {
    if inclusive {
      assert e.base * (BPS + bps) == e.base * BPS + e.base * bps;
      assert taxable * BPS == e.base * BPS + e.added * BPS;
    }
  }

  lemma {:induction false} GroupClose(entries: seq<Entry>, id: RateId, bps: nat, halves: bool)
    requires forall i :: 0 <= i < |entries| && entries[i].rate == Some(id) ==> Close(entries[i], bps, halves)
    ensures 0 <= Sum(entries, OnRate(id, ONE))
    ensures Within(Sum(entries, OnRate(id, ADDED)) * BPS, Sum(entries, OnRate(id, BASE)) * bps,
                   Sum(entries, OnRate(id, ONE)), halves)
  {
    if entries != [] {
      var front, e := entries[..|entries| - 1], entries[|entries| - 1];
      assert forall i :: 0 <= i < |front| ==> front[i] == entries[i];
      GroupClose(front, id, bps, halves);
      assert entries == front + [e];
      if e.rate == Some(id) {
        assert (Sum(front, OnRate(id, BASE)) + e.base) * bps == Sum(front, OnRate(id, BASE)) * bps + e.base * bps;
      }
    }
  }

  lemma {:induction false} CountLines(lines: seq<Entry>, rates: seq<Option<RateId>>, id: RateId)
    requires |lines| == |rates| && forall i :: 0 <= i < |lines| ==> lines[i].rate == rates[i]
    ensures Sum(lines, OnRate(id, ONE)) == LinesWith(rates, id)
  {
    if lines != [] {
      CountLines(lines[..|lines| - 1], rates[..|rates| - 1], id);
    }
  }

  lemma {:induction false} CountCharges(extra: seq<Entry>, charges: seq<Charge>, rate: Option<RateId>, id: RateId)
    requires |extra| == |charges|
    requires forall c :: 0 <= c < |extra| ==> extra[c].rate == if charges[c].vatIncluded then rate else None
    ensures Sum(extra, OnRate(id, ONE)) == if rate == Some(id) then TaxedCharges(charges) else 0
  {
    if extra != [] {
      CountCharges(extra[..|extra| - 1], charges[..|charges| - 1], rate, id);
    }
  }

  lemma ExplainedIsFair(rates: seq<Rate>, document: Document, terms: Terms, amounts: seq<int>, discount: int,
                        charges: seq<Charge>, t: Totals)
    requires RatesOk(rates) && Explained(rates, document, terms, amounts, discount, charges, t)
    ensures Fair(t, terms, charges)
  {
    hide Sum, OnRate, Configured, FairShare, Within, Close, Taxed, RatesIn, DistinctGroups, Uses;
    var lines: seq<Entry>, extra: seq<Entry>, added: seq<Group> :|
      Explains(rates, document, terms, amounts, discount, charges, t, lines, extra, added);
    forall k | 0 <= k < |added|
      ensures var g := added[k];
              Within(g.amount * BPS, g.base * g.bps, Uses(terms, charges, g.rate), !terms.inclusive)
    {
      GroupFair(rates, document, terms, amounts, charges, lines, extra, added[k]);
    }
    if terms.withholding.Some? {
      WithheldClose(rates, document, terms, t, added);
    }
  }

  lemma WithheldClose(rates: seq<Rate>, document: Document, terms: Terms, t: Totals, added: seq<Group>)
    requires WithheldMeans(rates, document, terms, t, added) && terms.withholding.Some?
    ensures |t.breakdown| == |added| + 1 && t.breakdown[..|added|] == added
    ensures var g := t.breakdown[|added|];
            && g.kind.Withhold? && g.base == t.subtotal && g.amount == t.withholding
            && Within(g.amount * BPS, g.base * g.bps, 1, true)
  {
  }

  lemma GroupFair(rates: seq<Rate>, document: Document, terms: Terms, amounts: seq<int>, charges: seq<Charge>,
                  lines: seq<Entry>, extra: seq<Entry>, g: Group)
    requires RatesOk(rates) && |lines| == |amounts| == |terms.lines| && |extra| == |charges|
    requires forall i :: 0 <= i < |lines| ==>
               EntryOk(rates, document, terms.lines[i], amounts[i] - lines[i].share, terms.inclusive, lines[i])
    requires ChargesMean(rates, document, terms, charges, extra) && GroupMeans(rates, document, g, lines + extra)
    ensures Within(g.amount * BPS, g.base * g.bps, Uses(terms, charges, g.rate), !terms.inclusive)
  {
    hide Sum, OnRate, Configured, Within, Taxed, RatesOk;
    var all := lines + extra;
    forall i | 0 <= i < |all| && all[i].rate == Some(g.rate)
      ensures Close(all[i], g.bps, !terms.inclusive)
    {
      if i < |lines| {
        var taxable := amounts[i] - lines[i].share;
        var bps :| Configured(rates, document, g.rate, Add, bps)
                   && Taxed(taxable, bps, terms.inclusive, lines[i].base, lines[i].added);
        OneConfigured(rates, document, g.rate, Add, bps, g.bps);
        TaxedIsClose(taxable, bps, terms.inclusive, lines[i]);
      } else {
        var c := i - |lines|;
        var bps :| Configured(rates, document, g.rate, Add, bps)
                   && Taxed(charges[c].amount, bps, false, extra[c].base, extra[c].added);
        OneConfigured(rates, document, g.rate, Add, bps, g.bps);
        TaxedIsClose(charges[c].amount, bps, false, extra[c]);
        CloserIsClose(extra[c], bps, !terms.inclusive);
      }
    }
    GroupClose(all, g.rate, g.bps, !terms.inclusive);
    SumConcat(lines, extra, OnRate(g.rate, ONE));
    CountLines(lines, terms.lines, g.rate);
    CountCharges(extra, charges, terms.rate, g.rate);
  }

  lemma CloserIsClose(e: Entry, bps: nat, halves: bool)
    requires Close(e, bps, true)
    ensures Close(e, bps, halves)
  {
  }
}
