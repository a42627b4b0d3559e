/** The tax calculation of contract.ts: discount shares, inclusive and exclusive rates, the breakdown
    by rate, withholding. Rate names and labels carry no arithmetic and are left out. */
module TaxEngine {
  import opened Outcomes
  import opened Rounding
  import opened Sums

  type RateId = nat

  datatype RateKind = Add | Withhold

  datatype Document = Quotation | Sale | Purchase

  datatype Rate = Rate(id: RateId, bps: nat, kind: RateKind, documents: set<Document>, active: bool)

  datatype Default = Default(rate: Option<RateId>, withholding: Option<RateId>, inclusive: bool, perLine: bool)

  datatype Setup = Setup(
    revision: nat, rates: seq<Rate>, quotation: Default, sale: Default, purchase: Default,
    registration: nat, showBreakdown: bool, allowOverride: bool)

  /** A rate that a request leaves open, sets to none, or names. */
  datatype Choice = Unset | NoRate | Named(id: RateId)

  datatype Selection = Selection(
    rate: Choice, withholding: Choice, inclusive: Option<bool>, lines: Option<seq<Choice>>, revision: nat)

  datatype Charge = Charge(amount: int, vatIncluded: bool)

  datatype Group = Group(rate: RateId, bps: nat, kind: RateKind, base: int, amount: int)

  /** What a selection comes to once the defaults have filled it in. */
  datatype Terms = Terms(
    rate: Option<RateId>, withholding: Option<RateId>, inclusive: bool, perLine: bool, lines: seq<Option<RateId>>)

  datatype Totals = Totals(
    subtotal: int, discount: int, tax: int, withholding: int, gross: int, payable: int,
    breakdown: seq<Group>, chargesSubtotal: int, vatBase: int)

  /** Snapshots from before rates were kept have none. */
  datatype Snapshot = Snapshot(
    rates: Option<seq<Rate>>, revision: nat, registration: nat, showBreakdown: bool, terms: Terms, totals: Totals)

  function DefaultOf(setup: Setup, document: Document): Default {
    match document
    case Quotation => setup.quotation
    case Sale => setup.sale
    case Purchase => setup.purchase
  }

  function Pick(choice: Choice, fallback: Option<RateId>): Option<RateId> {
    match choice
    case Unset => fallback
    case NoRate => None
    case Named(id) => Some(id)
  }

  function LineChoice(selection: Selection, i: nat): Choice {
    if selection.lines.Some? && i < |selection.lines.value| then selection.lines.value[i] else Unset
  }

  function Resolve(setup: Setup, document: Document, selection: Selection, n: nat): Terms {
    var d := DefaultOf(setup, document);
    var rate := Pick(selection.rate, d.rate);
    Terms(rate, Pick(selection.withholding, d.withholding),
          if selection.inclusive.Some? then selection.inclusive.value else d.inclusive, d.perLine,
          seq(n, i requires 0 <= i < n => if d.perLine then Pick(LineChoice(selection, i), rate) else rate))
  }

  function Usable(r: Rate, document: Document): bool { r.active && document in r.documents }

  /** The basis points of the first usable rate of that id and kind. */
  function FindBps(rates: seq<Rate>, document: Document, id: RateId, kind: RateKind): Option<nat> {
    if rates == [] then None
    else if rates[0].id == id && rates[0].kind == kind && Usable(rates[0], document) then Some(rates[0].bps)
    else FindBps(rates[1..], document, id, kind)
  }

  // --- The amounts ---------------------------------------------------------------------------

  /** How much of the discount the first n lines have taken. */
  function Distributed(amounts: seq<int>, discount: int, n: nat): int
    requires n <= |amounts|
  {
    var sum := Prefix(amounts, |amounts|);
    if n == 0 || sum <= 0 then 0 else Round(discount * Prefix(amounts, n), sum)
  }

  function Taxable(amounts: seq<int>, discount: int, i: nat): int
    requires i < |amounts|
  {
    amounts[i] - (Distributed(amounts, discount, i + 1) - Distributed(amounts, discount, i))
  }

  /** The price before tax hidden in a tax-inclusive price. */
  function Extract(price: int, bps: nat): int { Round(price * BPS, BPS + bps) }

  function TaxOn(base: int, bps: nat): int { Round(base * bps, BPS) }

  function BaseOf(taxable: int, inclusive: bool, bps: Option<nat>): int {
    if inclusive && bps.Some? then Extract(taxable, bps.value) else taxable
  }

  function AddedOn(taxable: int, inclusive: bool, bps: Option<nat>): int {
    if inclusive then taxable - BaseOf(taxable, inclusive, bps)
    else TaxOn(taxable, if bps.Some? then bps.value else 0)
  }

  predicate Sane(amounts: seq<int>, discount: int, charges: seq<Charge>) {
    && 0 <= discount && (forall i :: 0 <= i < |amounts| ==> amounts[i] >= 0)
    && discount <= Prefix(amounts, |amounts|)
    && |charges| <= 20 && forall c :: 0 <= c < |charges| ==> 0 <= charges[c].amount <= MAX_MONEY
  }

  // --- The breakdown ------------------------------------------------------------------------

  /** Add to the group of a rate, or open it. */
  function Upsert(groups: seq<Group>, id: RateId, bps: nat, base: int, amount: int): seq<Group> {
    if groups == [] then [Group(id, bps, Add, base, amount)]
    else if groups[0].rate == id then
      [groups[0].(base := groups[0].base + base, amount := groups[0].amount + amount)] + groups[1..]
    else [groups[0]] + Upsert(groups[1..], id, bps, base, amount)
  }

  /** Put a group in place of the one with its rate, or at the end. */
  function Replace(groups: seq<Group>, g: Group): seq<Group> {
    if groups == [] then [g]
    else if groups[0].rate == g.rate then [g] + groups[1..]
    else [groups[0]] + Replace(groups[1..], g)
  }

  function AddedBase(groups: seq<Group>): int {
    if groups == [] then 0 else (if groups[0].kind.Add? then groups[0].base else 0) + AddedBase(groups[1..])
  }

  function AddedAmount(groups: seq<Group>): int {
    if groups == [] then 0 else (if groups[0].kind.Add? then groups[0].amount else 0) + AddedAmount(groups[1..])
  }

  // --- The calculation ----------------------------------------------------------------------

  datatype Acc = Acc(subtotal: int, tax: int, vatBase: int, groups: seq<Group>)

  function Entered(acc: Acc, id: Option<RateId>, bps: Option<nat>, base: int, added: int): Acc {
    if id.Some? && bps.Some? then
      Acc(acc.subtotal + base, acc.tax + added, acc.vatBase + base,
          Upsert(acc.groups, id.value, bps.value, base, added))
    else acc.(subtotal := acc.subtotal + base, tax := acc.tax + added)
  }

  /** A rate that is named must be usable. */
  function Lookup(rates: seq<Rate>, document: Document, id: Option<RateId>, kind: RateKind): Result<Option<nat>> {
    if id.None? then Ok(None)
    else
      var bps := FindBps(rates, document, id.value, kind);
      if bps.None? then Err(BadRequest) else Ok(bps)
  }

  function Lines(rates: seq<Rate>, document: Document, amounts: seq<int>, discount: int, terms: Terms,
                 n: nat): Result<Acc>
    requires n <= |amounts| == |terms.lines|
  {
    if n == 0 then Ok(Acc(0, 0, 0, [])) else
      match Lines(rates, document, amounts, discount, terms, n - 1)
      case Err(e) => Err(e)
      case Ok(acc) =>
        match Lookup(rates, document, terms.lines[n - 1], Add)
        case Err(e) => Err(e)
        case Ok(bps) =>
          var taxable := Taxable(amounts, discount, n - 1);
          Ok(Entered(acc, terms.lines[n - 1], bps, BaseOf(taxable, terms.inclusive, bps),
                     AddedOn(taxable, terms.inclusive, bps)))
  }

  /** Charges are stated before VAT and take no discount. */
  function Charged(rates: seq<Rate>, document: Document, acc: Acc, terms: Terms, charges: seq<Charge>,
                   n: nat): Result<Acc>
    requires n <= |charges|
  {
    if n == 0 then Ok(acc) else
      match Charged(rates, document, acc, terms, charges, n - 1)
      case Err(e) => Err(e)
      case Ok(before) =>
        var charge := charges[n - 1];
        var id := if charge.vatIncluded then terms.rate else None;
        match Lookup(rates, document, id, Add)
        case Err(e) => Err(e)
        case Ok(bps) => Ok(Entered(before, id, bps, charge.amount,
                                   TaxOn(charge.amount, if bps.Some? then bps.value else 0)))
  }

  function ChargesTotal(charges: seq<Charge>, n: nat): int
    requires n <= |charges|
  {
    if n == 0 then 0 else ChargesTotal(charges, n - 1) + charges[n - 1].amount
  }

  function Finish(acc: Acc, discount: int, withheld: Option<(RateId, nat)>, chargesSubtotal: int): Result<Totals> {
    var withholding := if withheld.Some? then TaxOn(acc.subtotal, withheld.value.1) else 0;
    var groups := if withheld.Some?
                  then Replace(acc.groups,
                               Group(withheld.value.0, withheld.value.1, Withhold, acc.subtotal, withholding))
                  else acc.groups;
    var gross := acc.subtotal + acc.tax;
    var payable := gross - withholding;
    if IsMoney(acc.subtotal) && IsMoney(acc.tax) && IsMoney(gross) && IsMoney(payable)
    then Ok(Totals(acc.subtotal, discount, acc.tax, withholding, gross, payable, groups, chargesSubtotal, acc.vatBase))
    else Err(BadRequest)
  }

  function Compute(rates: seq<Rate>, document: Document, amounts: seq<int>, discount: int, terms: Terms,
                   charges: seq<Charge>)
    : Result<Totals>
    requires |terms.lines| == |amounts|
  {
    if !Sane(amounts, discount, charges) then Err(BadRequest) else
      match Lines(rates, document, amounts, discount, terms, |amounts|)
      case Err(e) => Err(e)
      case Ok(lines) =>
        match Charged(rates, document, lines, terms, charges, |charges|)
        case Err(e) => Err(e)
        case Ok(acc) =>
          match Lookup(rates, document, terms.withholding, Withhold)
          case Err(e) => Err(e)
          case Ok(bps) =>
            Finish(acc, discount,
                   if bps.Some? && terms.withholding.Some? then Some((terms.withholding.value, bps.value)) else None,
                   ChargesTotal(charges, |charges|))
  }

  /** The document's rates and whatever the selection names for lines, whether it is used or not. */
  function SelectedIds(terms: Terms, selection: Selection): set<RateId> {
    (if terms.rate.Some? then {terms.rate.value} else {})
    + (if terms.withholding.Some? then {terms.withholding.value} else {})
    + (if selection.lines.Some?
       then set i | 0 <= i < |selection.lines.value| && selection.lines.value[i].Named? :: selection.lines.value[i].id
       else {})
  }

  /** The rates a snapshot keeps. */
  function Kept(rates: seq<Rate>, document: Document, ids: set<RateId>): seq<Rate> {
    if rates == [] then []
    else (if rates[0].id in ids && Usable(rates[0], document) then [rates[0]] else []) + Kept(rates[1..], document, ids)
  }

  /** `calculateTax`. */
  function TaxOf(setup: Setup, document: Document, amounts: seq<int>, discount: int, selection: Selection,
                 charges: seq<Charge>)
    : Result<Snapshot>
  {
    var terms := Resolve(setup, document, selection, |amounts|);
    match Compute(setup.rates, document, amounts, discount, terms, charges)
    case Err(e) => Err(e)
    case Ok(totals) =>
      Ok(Snapshot(Some(Kept(setup.rates, document, SelectedIds(terms, selection))), setup.revision, setup.registration,
                  setup.showBreakdown,
                  terms, totals))
  }

  // --- Discount shares ------------------------------------------------------------------------

  /** Cumulative rounding gives every line a share of the discount between nothing and its amount, and
      the shares add up to the discount exactly. */
  lemma DiscountShares(amounts: seq<int>, discount: int, i: nat)
    requires Sane(amounts, discount, [])
    ensures Distributed(amounts, discount, |amounts|) == discount
    ensures i < |amounts| ==> 0 <= Taxable(amounts, discount, i) <= amounts[i]
  {
    var sum := Prefix(amounts, |amounts|);
    PrefixOrder(amounts, 0, |amounts|);
    if sum > 0 {
      RoundWhole(discount, sum);
      if i < |amounts| {
        PrefixOrder(amounts, i, |amounts|);
        PrefixOrder(amounts, i, i + 1);
        ScaleGap(Prefix(amounts, i), Prefix(amounts, i + 1), discount, sum);
        assert discount * Prefix(amounts, i) == Prefix(amounts, i) * discount;
        assert discount * Prefix(amounts, i + 1) == Prefix(amounts, i + 1) * discount;
        RoundZero(sum);
      }
    } else if i < |amounts| {
      PrefixOrder(amounts, i, |amounts|);
      PrefixOrder(amounts, i + 1, |amounts|);
    }
  }

  // --- Inclusive prices ------------------------------------------------------------------------

  lemma TaxBounds(base: int, bps: nat)
    requires 0 <= base && bps <= BPS
    ensures 0 <= TaxOn(base, bps) <= base
  {
    ScaleWithin(base, bps, BPS);
  }

  lemma ExtractBounds(price: int, bps: nat)
    requires 0 <= price
    ensures 0 <= Extract(price, bps) <= price
  {
    ScaleWithin(price, BPS, BPS + bps);
  }

  /** Extraction undoes exclusive addition exactly. */
  lemma ExtractUndoesAddition(base: int, bps: nat)
    requires bps <= BPS
    ensures Extract(base + TaxOn(base, bps), bps) == base
  {
    var tax, den := TaxOn(base, bps), BPS + bps;
    RoundNearest(base * bps, BPS, tax);
    var price := base + tax;
    assert 2 * den * base == 2 * BPS * base + 2 * (base * bps);
    RoundNearest(price * BPS, den, base);
  }

  /** Adding the tax back to an extracted base misses the price by at most one. */
  lemma AdditionAfterExtraction(price: int, bps: nat)
    requires bps <= BPS
    ensures var base := Extract(price, bps); -1 <= base + TaxOn(base, bps) - price <= 1
  {
    var base, den := Extract(price, bps), BPS + bps;
    var tax := TaxOn(base, bps);
    RoundNearest(price * BPS, den, base);
    RoundNearest(base * bps, BPS, tax);
    assert 2 * den * base == 2 * BPS * base + 2 * (base * bps);
  }

  // --- Conservation -----------------------------------------------------------------------------

  predicate UniqueRates(rates: seq<Rate>) {
    forall i, j :: 0 <= i < j < |rates| ==> rates[i].id != rates[j].id
  }

  /** What validation guarantees of the configured rates. */
  predicate RatesOk(rates: seq<Rate>) {
    UniqueRates(rates) && forall i :: 0 <= i < |rates| ==> rates[i].bps <= BPS
  }

  lemma {:induction false} FindIsRate(rates: seq<Rate>, document: Document, id: RateId, kind: RateKind) returns (i: nat)
    requires FindBps(rates, document, id, kind).Some?
    ensures i < |rates| && rates[i].id == id && rates[i].kind == kind
    ensures FindBps(rates, document, id, kind) == Some(rates[i].bps)
  {
    if rates[0].id == id && rates[0].kind == kind && Usable(rates[0], document) {
      i := 0;
    } else {
      i := FindIsRate(rates[1..], document, id, kind);
      i := i + 1;
    }
  }

  /** An 'add' group belongs to an 'add' rate of the configuration. */
  ghost predicate GroupOk(rates: seq<Rate>, g: Group) {
    g.kind.Add? && exists i :: 0 <= i < |rates| && rates[i].id == g.rate && rates[i].kind.Add?
  }

  lemma {:induction false} UpsertSums(rates: seq<Rate>, groups: seq<Group>, id: RateId, bps: nat, base: int,
                                      amount: int)
    requires forall k :: 0 <= k < |groups| ==> GroupOk(rates, groups[k])
    requires GroupOk(rates, Group(id, bps, Add, base, amount))
    ensures var r := Upsert(groups, id, bps, base, amount);
            && AddedBase(r) == AddedBase(groups) + base && AddedAmount(r) == AddedAmount(groups) + amount
            && forall k :: 0 <= k < |r| ==> GroupOk(rates, r[k])
  {
    if groups != [] && groups[0].rate != id {
      UpsertSums(rates, groups[1..], id, bps, base, amount);
    } else if groups != [] {
      assert forall k :: 0 <= k < |groups| - 1 ==> groups[1..][k] == groups[k + 1];
      assert GroupOk(rates, groups[0]);
    }
  }

  lemma {:induction false} ReplaceSums(groups: seq<Group>, g: Group)
    requires g.kind.Withhold? && forall k :: 0 <= k < |groups| ==> groups[k].rate != g.rate
    ensures AddedBase(Replace(groups, g)) == AddedBase(groups) && AddedAmount(Replace(groups, g)) == AddedAmount(groups)
  {
    if groups != [] {
      ReplaceSums(groups[1..], g);
    }
  }

  /** The running totals and the breakdown agree. */
  ghost predicate AccOk(rates: seq<Rate>, acc: Acc) {
    && 0 <= acc.subtotal && 0 <= acc.tax && 0 <= acc.vatBase <= acc.subtotal
    && AddedBase(acc.groups) == acc.vatBase && AddedAmount(acc.groups) == acc.tax
    && forall k :: 0 <= k < |acc.groups| ==> GroupOk(rates, acc.groups[k])
  }

  lemma EnteredOk(rates: seq<Rate>, document: Document, acc: Acc, id: Option<RateId>, bps: Option<nat>, base: int,
                  added: int)
    requires RatesOk(rates) && AccOk(rates, acc) && Lookup(rates, document, id, Add) == Ok(bps)
    requires 0 <= base && 0 <= added && (bps.None? ==> added == 0)
    ensures AccOk(rates, Entered(acc, id, bps, base, added)) && (bps.Some? ==> bps.value <= BPS)
  {
    if id.Some? {
      var i := FindIsRate(rates, document, id.value, Add);
      assert GroupOk(rates, Group(id.value, bps.value, Add, base, added));
      UpsertSums(rates, acc.groups, id.value, bps.value, base, added);
    }
  }

  lemma LookupBound(rates: seq<Rate>, document: Document, id: Option<RateId>, kind: RateKind)
    requires RatesOk(rates)
    ensures var r := Lookup(rates, document, id, kind); r.Ok? && r.value.Some? ==> id.Some? && r.value.value <= BPS
  {
    if id.Some? && FindBps(rates, document, id.value, kind).Some? {
      var i := FindIsRate(rates, document, id.value, kind);
    }
  }

  lemma LineParts(taxable: int, inclusive: bool, bps: Option<nat>)
    requires 0 <= taxable && (bps.Some? ==> bps.value <= BPS)
    ensures 0 <= BaseOf(taxable, inclusive, bps) && 0 <= AddedOn(taxable, inclusive, bps)
    ensures bps.None? ==> AddedOn(taxable, inclusive, bps) == 0
    ensures inclusive ==> BaseOf(taxable, inclusive, bps) + AddedOn(taxable, inclusive, bps) == taxable
    ensures !inclusive ==> BaseOf(taxable, inclusive, bps) == taxable
  {
    RoundZero(BPS);
    if bps.Some? {
      TaxBounds(taxable, bps.value);
      ExtractBounds(taxable, bps.value);
    }
  }

  lemma {:induction false} LinesOk(rates: seq<Rate>, document: Document, amounts: seq<int>, discount: int,
                                   terms: Terms, n: nat)
    requires RatesOk(rates) && Sane(amounts, discount, []) && n <= |amounts| == |terms.lines|
    ensures var r := Lines(rates, document, amounts, discount, terms, n);
            r.Ok? ==>
              && AccOk(rates, r.value)
              && (if terms.inclusive then r.value.subtotal + r.value.tax else r.value.subtotal)
                 == Prefix(amounts, n) - Distributed(amounts, discount, n)
  {
    if n > 0 && Lines(rates, document, amounts, discount, terms, n).Ok? {
      LinesOk(rates, document, amounts, discount, terms, n - 1);
      DiscountShares(amounts, discount, n - 1);
      var acc := Lines(rates, document, amounts, discount, terms, n - 1).value;
      var id := terms.lines[n - 1];
      var bps := Lookup(rates, document, id, Add).value;
      var taxable := Taxable(amounts, discount, n - 1);
      LookupBound(rates, document, id, Add);
      LineParts(taxable, terms.inclusive, bps);
      EnteredOk(rates, document, acc, id, bps, BaseOf(taxable, terms.inclusive, bps),
                AddedOn(taxable, terms.inclusive, bps));
    }
  }

  lemma {:induction false} ChargedOk(rates: seq<Rate>, document: Document, acc: Acc, terms: Terms,
                                     charges: seq<Charge>, n: nat)
    requires RatesOk(rates) && AccOk(rates, acc) && n <= |charges|
    requires forall c :: 0 <= c < |charges| ==> charges[c].amount >= 0
    ensures var r := Charged(rates, document, acc, terms, charges, n);
            r.Ok? ==> AccOk(rates, r.value) && r.value.subtotal == acc.subtotal + ChargesTotal(charges, n)
  {
    if n > 0 && Charged(rates, document, acc, terms, charges, n).Ok? {
      ChargedOk(rates, document, acc, terms, charges, n - 1);
      var before := Charged(rates, document, acc, terms, charges, n - 1).value;
      var id := if charges[n - 1].vatIncluded then terms.rate else None;
      var bps := Lookup(rates, document, id, Add).value;
      LookupBound(rates, document, id, Add);
      RoundZero(BPS);
      TaxBounds(charges[n - 1].amount, if bps.Some? then bps.value else 0);
      EnteredOk(rates, document, before, id, bps, charges[n - 1].amount,
                TaxOn(charges[n - 1].amount, if bps.Some? then bps.value else 0));
    }
  }

  /** Nothing is lost: the breakdown adds up to the tax and to the VAT base, the discount and the charges
      are where they should be, inclusive prices come out at exactly what was asked, and withholding
      never eats into the tax. */
  ghost predicate Conserves(t: Totals, amounts: seq<int>, discount: int, inclusive: bool, charges: seq<Charge>) {
    && AddedAmount(t.breakdown) == t.tax && AddedBase(t.breakdown) == t.vatBase
    && 0 <= t.vatBase <= t.subtotal && t.gross == t.subtotal + t.tax && t.payable == t.gross - t.withholding
    && 0 <= t.withholding <= t.subtotal && 0 <= t.tax <= t.payable <= MAX_MONEY
    && t.chargesSubtotal == ChargesTotal(charges, |charges|)
    && (!inclusive ==> t.subtotal == Prefix(amounts, |amounts|) - discount + t.chargesSubtotal)
    && (inclusive && charges == [] ==> t.gross == Prefix(amounts, |amounts|) - discount)
  }

  lemma TaxConserves(setup: Setup, document: Document, amounts: seq<int>, discount: int, selection: Selection,
                     charges: seq<Charge>)
    requires RatesOk(setup.rates)
    ensures var r := TaxOf(setup, document, amounts, discount, selection, charges);
            r.Ok? ==> Sane(amounts, discount, charges)
                      && Conserves(r.value.totals, amounts, discount, r.value.terms.inclusive, charges)
  {
    var rates, terms := setup.rates, Resolve(setup, document, selection, |amounts|);
    if TaxOf(setup, document, amounts, discount, selection, charges).Ok? {
      LinesOk(rates, document, amounts, discount, terms, |amounts|);
      DiscountShares(amounts, discount, |amounts|);
      var lines := Lines(rates, document, amounts, discount, terms, |amounts|).value;
      ChargedOk(rates, document, lines, terms, charges, |charges|);
      var acc := Charged(rates, document, lines, terms, charges, |charges|).value;
      LookupBound(rates, document, terms.withholding, Withhold);
      var bps := Lookup(rates, document, terms.withholding, Withhold).value;
      if bps.Some? {
        TaxBounds(acc.subtotal, bps.value);
        WithholdingApart(rates, document, acc, terms.withholding.value);
        ReplaceSums(acc.groups,
                    Group(terms.withholding.value, bps.value, Withhold, acc.subtotal, TaxOn(acc.subtotal, bps.value)));
      }
    }
  }

  /** With unique ids the withholding rate has no 'add' group to displace. */
  lemma WithholdingApart(rates: seq<Rate>, document: Document, acc: Acc, id: RateId)
    requires RatesOk(rates) && AccOk(rates, acc) && FindBps(rates, document, id, Withhold).Some?
    ensures forall k :: 0 <= k < |acc.groups| ==> acc.groups[k].rate != id
  {
    var w := FindIsRate(rates, document, id, Withhold);
    forall k | 0 <= k < |acc.groups|
      ensures acc.groups[k].rate != id
    {
      assert GroupOk(rates, acc.groups[k]);
      var i :| 0 <= i < |rates| && rates[i].id == acc.groups[k].rate && rates[i].kind.Add?;
      assert i < w || w < i;
    }
  }

  // --- One group per rate --------------------------------------------------------------------------

  predicate DistinctGroups(groups: seq<Group>) {
    forall i, j :: 0 <= i < j < |groups| ==> groups[i].rate != groups[j].rate
  }

  ghost function RatesIn(groups: seq<Group>): set<RateId> { set k | 0 <= k < |groups| :: groups[k].rate }

  lemma RatesOfParts(g: Group, rest: seq<Group>)
    ensures RatesIn([g] + rest) == {g.rate} + RatesIn(rest)
    ensures DistinctGroups([g] + rest) <==> DistinctGroups(rest) && g.rate !in RatesIn(rest)
  {
    var all := [g] + rest;
    assert all[0] == g && forall k :: 0 <= k < |rest| ==> all[k + 1] == rest[k];
    forall id
      ensures id in RatesIn(all) <==> id == g.rate || id in RatesIn(rest)
    {
      if id in RatesIn(all) {
        var k :| 0 <= k < |all| && all[k].rate == id;
        assert k > 0 ==> rest[k - 1].rate == id;
      }
      if id in RatesIn(rest) {
        var k :| 0 <= k < |rest| && rest[k].rate == id;
        assert all[k + 1].rate == id;
      }
      if id == g.rate {
        assert all[0].rate == id;
      }
    }
  }

  lemma {:induction false} UpsertRates(groups: seq<Group>, id: RateId, bps: nat, base: int, amount: int)
    ensures var r := Upsert(groups, id, bps, base, amount);
            RatesIn(r) == RatesIn(groups) + {id} && (DistinctGroups(groups) ==> DistinctGroups(r))
  {
    hide RatesIn, DistinctGroups;
    if groups == [] {
      RatesOfParts(Group(id, bps, Add, base, amount), []);
      assert [Group(id, bps, Add, base, amount)] + [] == [Group(id, bps, Add, base, amount)];
      NoRates();
    } else {
      var first, rest := groups[0], groups[1..];
      assert groups == [first] + rest;
      RatesOfParts(first, rest);
      if first.rate == id {
        RatesOfParts(first.(base := first.base + base, amount := first.amount + amount), rest);
      } else {
        UpsertRates(rest, id, bps, base, amount);
        RatesOfParts(first, Upsert(rest, id, bps, base, amount));
      }
    }
  }

  lemma NoRates()
    ensures RatesIn([]) == {} && DistinctGroups([])
  {
  }

  lemma {:induction false} ReplaceRates(groups: seq<Group>, g: Group)
    ensures var r := Replace(groups, g);
            RatesIn(r) == RatesIn(groups) + {g.rate} && (DistinctGroups(groups) ==> DistinctGroups(r))
  {
    hide RatesIn, DistinctGroups;
    if groups == [] {
      RatesOfParts(g, []);
      assert [g] + [] == [g];
      NoRates();
    } else {
      var first, rest := groups[0], groups[1..];
      assert groups == [first] + rest;
      RatesOfParts(first, rest);
      if first.rate == g.rate {
        RatesOfParts(g, rest);
      } else {
        ReplaceRates(rest, g);
        RatesOfParts(first, Replace(rest, g));
      }
    }
  }

  lemma {:induction false} LinesDistinct(rates: seq<Rate>, document: Document, amounts: seq<int>, discount: int,
                                         terms: Terms, n: nat)
    requires n <= |amounts| == |terms.lines|
    ensures var r := Lines(rates, document, amounts, discount, terms, n);
            r.Ok? ==> DistinctGroups(r.value.groups)
                      && forall i :: 0 <= i < n && terms.lines[i].Some?
                          ==> terms.lines[i].value in RatesIn(r.value.groups)
  {
    hide RatesIn, Upsert, BaseOf, AddedOn, Taxable;
    if n > 0 && Lines(rates, document, amounts, discount, terms, n).Ok? {
      LinesDistinct(rates, document, amounts, discount, terms, n - 1);
      var acc, id := Lines(rates, document, amounts, discount, terms, n - 1).value, terms.lines[n - 1];
      var bps, taxable := Lookup(rates, document, id, Add).value, Taxable(amounts, discount, n - 1);
      if id.Some? {
        UpsertRates(acc.groups, id.value, bps.value, BaseOf(taxable, terms.inclusive, bps),
                    AddedOn(taxable, terms.inclusive, bps));
      }
    }
  }

  predicate AnyIncluded(charges: seq<Charge>) { exists c :: 0 <= c < |charges| && charges[c].vatIncluded }

  lemma {:induction false} ChargedDistinct(rates: seq<Rate>, document: Document, acc: Acc, terms: Terms,
                                           charges: seq<Charge>, n: nat)
    requires n <= |charges| && DistinctGroups(acc.groups)
    ensures var r := Charged(rates, document, acc, terms, charges, n);
            r.Ok? ==>
              && DistinctGroups(r.value.groups) && RatesIn(acc.groups) <= RatesIn(r.value.groups)
              && (AnyIncluded(charges[..n]) && terms.rate.Some? ==> terms.rate.value in RatesIn(r.value.groups))
  {
    hide RatesIn, Upsert, TaxOn;
    if n > 0 && Charged(rates, document, acc, terms, charges, n).Ok? {
      ChargedDistinct(rates, document, acc, terms, charges, n - 1);
      var before := Charged(rates, document, acc, terms, charges, n - 1).value;
      var c := charges[n - 1];
      var id := if c.vatIncluded then terms.rate else None;
      var bps := Lookup(rates, document, id, Add).value;
      if id.Some? {
        UpsertRates(before.groups, id.value, bps.value, c.amount, TaxOn(c.amount, bps.value));
      }
      if AnyIncluded(charges[..n]) && !c.vatIncluded {
        var k :| 0 <= k < n && charges[..n][k].vatIncluded;
        assert charges[..n - 1][k].vatIncluded;
      }
    }
  }

  /** Whatever the configured rates are, a computed breakdown has one group per rate, and a group for every
      rate that the calculation used. */
  lemma BreakdownDistinct(rates: seq<Rate>, document: Document, amounts: seq<int>, discount: int, terms: Terms,
                          charges: seq<Charge>)
    requires |terms.lines| == |amounts|
    ensures var r := Compute(rates, document, amounts, discount, terms, charges);
            r.Ok? ==>
              var used := RatesIn(r.value.breakdown);
              && DistinctGroups(r.value.breakdown)
              && (forall i :: 0 <= i < |terms.lines| && terms.lines[i].Some? ==> terms.lines[i].value in used)
              && (AnyIncluded(charges) && terms.rate.Some? ==> terms.rate.value in used)
              && (terms.withholding.Some? ==> terms.withholding.value in used)
  {
    hide RatesIn, DistinctGroups, Replace, Sane;
    if Compute(rates, document, amounts, discount, terms, charges).Ok? {
      LinesDistinct(rates, document, amounts, discount, terms, |amounts|);
      var lines := Lines(rates, document, amounts, discount, terms, |amounts|).value;
      ChargedDistinct(rates, document, lines, terms, charges, |charges|);
      assert charges[..|charges|] == charges;
      var acc := Charged(rates, document, lines, terms, charges, |charges|).value;
      var bps := Lookup(rates, document, terms.withholding, Withhold).value;
      if bps.Some? {
        ReplaceRates(acc.groups,
                     Group(terms.withholding.value, bps.value, Withhold, acc.subtotal, TaxOn(acc.subtotal, bps.value)));
      }
    }
  }
}
