/** Recurring generation: which cycle a month belongs to, what it costs, and why an installment
    contract is never billed for more or less than its value (billing.policy.ts, billing.service.ts,
    and the plan routes that freeze an assigned plan). Months are counted from year 0. */
module Installments {
  import opened Outcomes
  import opened Rounding
  import opened Sums
  import B = BillingBooks
  import T = TaxEngine
  import D = TaxDocuments
  import M = TaxMeaning

  datatype Mode = Fixed | Usage | OneTime | Installment

  datatype Plan = Plan(
    mode: Mode, amount: int, interval: nat, count: nat, escalationBps: nat, escalationMonths: nat,
    dueDays: nat, graceDays: nat, policy: B.FeePolicy, active: bool)

  /** A day of a month. */
  datatype Date = Date(month: int, day: nat)

  ghost predicate NotAfter(d: Date, e: Date) { d.month < e.month || (d.month == e.month && d.day <= e.day) }

  function Later(d: Date, e: Date): (later: bool)
    ensures later <==> !NotAfter(d, e)
  {
    d.month > e.month || (d.month == e.month && d.day > e.day)
  }

  datatype Assignment = Assignment(
    customer: nat, plan: nat, unit: Option<nat>, start: Date, end: Option<Date>, active: bool)

  /** The pre-tax line of a generated invoice, and what the invoice comes to. */
  datatype Bill = Bill(amount: int, quantity: int, rate: int, total: int)

  /** Requests outside this range are refused before they reach a plan. */
  ghost predicate PlanOk(p: Plan) {
    && p.amount > 0 && IsMoney(p.amount) && 1 <= p.interval <= 12
    && p.escalationBps <= BPS && 1 <= p.escalationMonths <= 120 && p.dueDays <= 365 && p.graceDays <= 365
    && (match p.policy
        case NoFee => true
        case FixedFee(value) => IsMoney(value)
        case PercentFee(bps) => bps <= BPS)
    && (if p.mode.Installment? then 1 <= p.count <= 600 && p.count <= p.amount else p.count == 0)
    && (p.mode != Fixed ==> p.escalationBps == 0)
  }

  function CycleIndex(startMonth: int, period: int, interval: nat): Option<nat>
    requires interval > 0
  {
    var months := period - startMonth;
    if months < 0 || months % interval != 0 then None else Some(months / interval)
  }

  function Pow(b: nat, k: nat): nat {
    if k == 0 then 1 else b * Pow(b, k - 1)
  }

  lemma PowPositive(b: nat, k: nat)
    requires b > 0
    ensures Pow(b, k) > 0
  {
    if k > 0 {
      PowPositive(b, k - 1);
      MulOrder(1, Pow(b, k - 1), b);
    }
  }

  /** None is the refusal of an amount above the supported range. */
  function CycleAmount(p: Plan, index: nat): (r: Option<int>)
    requires PlanOk(p)
    ensures r.Some? ==> IsMoney(r.value)
  {
    hide IsMoney, Pow, Round;
    if p.mode.Installment? then
      var each := p.amount / p.count;
      Checked(if index == p.count - 1 then p.amount - each * (p.count - 1) else each)
    else
      var increases := index * p.interval / p.escalationMonths;
      PowPositive(BPS, increases);
      Checked(Round(p.amount * Pow(BPS + p.escalationBps, increases), Pow(BPS, increases)))
  }

  /** What EscalationMeans takes a power to be. */
  lemma PowStep(b: nat, k: nat)
    ensures Pow(b, 0) == 1 && Pow(b, k + 1) == b * Pow(b, k)
  {
  }

  /** v is the nearest whole amount to exact / scale, the higher one on a tie. */
  ghost predicate NearestTo(v: int, exact: int, scale: nat) {
    2 * (scale * v) - scale <= 2 * exact < 2 * (scale * v) + scale
  }

  lemma RoundedNearest(exact: int, scale: nat)
    requires scale > 0
    ensures NearestTo(Round(exact, scale), exact, scale)
  {
    RoundNearest(exact, scale, Round(exact, scale));
    assert 2 * scale * Round(exact, scale) == 2 * (scale * Round(exact, scale));
  }

  /** Escalation compounds: with j whole escalation periods before the cycle, its amount is the nearest one to the
      plan's amount times (1 + escalation) to the j, refused only above the supported range. A plan without
      escalation costs the same every cycle. */
  lemma EscalationMeans(p: Plan, index: nat, j: nat)
    requires PlanOk(p) && !p.mode.Installment?
    requires j * p.escalationMonths <= index * p.interval < (j + 1) * p.escalationMonths
    ensures var exact, scale := p.amount * Pow(BPS + p.escalationBps, j), Pow(BPS, j);
            exists v ::
              NearestTo(v, exact, scale) && CycleAmount(p, index) == if 0 <= v <= 2147483647 then Some(v) else None
    ensures p.escalationBps == 0 ==> CycleAmount(p, index) == Some(p.amount)
  {
    hide NearestTo, Round, Pow;
    Periods(index * p.interval, p.escalationMonths, j);
    PowPositive(BPS, j);
    RoundedNearest(p.amount * Pow(BPS + p.escalationBps, j), Pow(BPS, j));
    if p.escalationBps == 0 {
      RoundWhole(p.amount, Pow(BPS, j));
    }
  }

  lemma Periods(months: nat, each: nat, j: nat)
    requires j * each <= months < (j + 1) * each
    ensures each > 0 && months / each == j
  {
    if each == 0 {
      assert false;
    }
    assert each * j + each == (j + 1) * each;
    QuotientUnique(months, each, j);
  }

  /** The pre-tax amount of the k-th cycle: the plan's, or for a usage plan the units read times its rate. */
  ghost function LineAmount(p: Plan, k: nat, reading: Option<nat>): Option<int>
    requires PlanOk(p)
  {
    if CycleAmount(p, k).None? then None
    else if !p.mode.Usage? || reading.None? then CycleAmount(p, k)
    else if p.amount * reading.value <= 2147483647 then Some(p.amount * reading.value)
    else None
  }

  /** What the one line of a generated invoice comes to with the tax that is configured by default. */
  function InvoiceTotal(setup: T.Setup, amount: int): Result<int> {
    match D.DocumentTax(setup, false, T.Sale, [amount], 0, None, 0, D.Nothing, [])
    case Err(e) => Err(e)
    case Ok(tax) => Ok(if tax.Some? then tax.value.totals.payable else amount)
  }

  /** For validated rates it is an amount the ledger can hold. */
  lemma TotalIsMoney(setup: T.Setup, amount: int)
    requires T.RatesOk(setup.rates) && IsMoney(amount) && InvoiceTotal(setup, amount).Ok?
    ensures IsMoney(InvoiceTotal(setup, amount).value)
  {
    hide D.DocumentTax, T.RatesOk, T.DistinctGroups;
    D.DocumentTaxConserves(setup, false, T.Sale, [amount], 0, None, 0, D.Nothing, []);
  }

  /** Without configured rates it is the line itself; otherwise the line is taxed as a sale at the default terms. */
  lemma InvoiceTotalMeans(setup: T.Setup, amount: int)
    requires T.RatesOk(setup.rates)
    ensures setup.rates == [] ==> InvoiceTotal(setup, amount) == Ok(amount)
    ensures setup.rates != [] && InvoiceTotal(setup, amount).Ok? ==>
              exists terms, t ::
                && M.TermsMean(setup, T.Sale, D.PLAIN, 1, terms)
                && M.Explained(setup.rates, T.Sale, terms, [amount], 0, [], t)
                && InvoiceTotal(setup, amount).value == t.payable
  {
    hide M.Explained, M.TermsMean, T.Compute, T.RatesOk;
    M.ResolveMeans(setup, T.Sale, D.PLAIN, 1);
    M.TaxExplained(setup, T.Sale, [amount], 0, D.PLAIN, []);
    var r := T.TaxOf(setup, T.Sale, [amount], 0, D.PLAIN, []);
    if setup.rates != [] && r.Ok? {
      assert M.Explained(setup.rates, T.Sale, r.value.terms, [amount], 0, [], r.value.totals);
    }
  }

  function Checked(n: int): (r: Option<int>)
    ensures r.Some? ==> IsMoney(r.value)
  {
    if IsMoney(n) then Some(n) else None
  }

  /** The first month of the k-th cycle. */
  function CycleMonth(startMonth: int, interval: nat, k: int): int { startMonth + k * interval }

  /** Each month belongs to at most one cycle of an assignment, and each cycle to one month. */
  lemma CycleInjective(startMonth: int, period: int, interval: nat, k: nat)
    requires interval > 0
    ensures CycleIndex(startMonth, period, interval) == Some(k) <==> period == CycleMonth(startMonth, interval, k)
  {
    var months := period - startMonth;
    assert months == interval * (months / interval) + months % interval;
    if period == CycleMonth(startMonth, interval, k) {
      MulOrder(0, k, interval);
      QuotientUnique(months, interval, k);
    }
  }

  lemma CycleStarted(startMonth: int, period: int, interval: nat)
    requires interval > 0 && CycleIndex(startMonth, period, interval).Some?
    ensures startMonth <= period
    ensures CycleIndex(startMonth, period, interval) == Some((period - startMonth) / interval)
  {
  }

  /** What the k-th installment comes to. */
  ghost function InstallmentOf(p: Plan): int -> int {
    (k: int) => if 0 < p.count && k == p.count - 1 then p.amount - p.amount / p.count * (p.count - 1)
                else if 0 < p.count then p.amount / p.count else 0
  }

  lemma {:induction false} EqualParts(p: Plan, n: nat)
    requires 0 < p.count && n < p.count
    ensures Sigma(n, InstallmentOf(p)) == p.amount / p.count * n
  {
    if n > 0 {
      EqualParts(p, n - 1);
      assert p.amount / p.count * (n - 1) + p.amount / p.count == p.amount / p.count * n;
    }
  }

  /** All installments together are the contract value: the last one takes the remainder. */
  lemma InstallmentsTotal(p: Plan)
    requires PlanOk(p) && p.mode.Installment?
    ensures Sigma(p.count, InstallmentOf(p)) == p.amount
    ensures forall k :: 0 <= k < p.count ==> 0 < InstallmentOf(p)(k) && CycleAmount(p, k) == Some(InstallmentOf(p)(k))
  {
    var each := p.amount / p.count;
    assert p.amount == p.count * each + p.amount % p.count;
    EqualParts(p, p.count - 1);
    assert p.count * each == each * (p.count - 1) + each;
    if each < 1 {
      MulOrder(each, 0, p.count);
      assert false;
    }
    MulOrder(1, p.count, each);
    MulOrder(0, p.count - 1, each);
  }

  /** Taking some of the terms of a non-negative total gives at most the total, and the total only if
      every term that counts is taken. */
  lemma {:induction false} PartOfTotal(n: nat, whole: int -> int, part: int -> int)
    requires forall k :: 0 <= k < n ==> whole(k) > 0 && (part(k) == whole(k) || part(k) == 0)
    ensures 0 <= Sigma(n, part) <= Sigma(n, whole)
    ensures Sigma(n, part) == Sigma(n, whole) <==> forall k :: 0 <= k < n ==> part(k) == whole(k)
  {
    if n > 0 {
      PartOfTotal(n - 1, whole, part);
    }
  }

  class Generator {
    /** Customers and rented units by id, and whether they are active. */
    var customers: map<nat, bool>
    var units: map<nat, bool>
    var plans: seq<Plan>
    var assignments: seq<Assignment>
    /** One invoice per assignment and month. Cancelled invoices stay, so their month is never billed again. */
    var bills: map<(nat, int), Bill>

    ghost predicate Valid() reads this {
      && (forall p :: 0 <= p < |plans| ==> PlanOk(plans[p]))
      && (forall a :: 0 <= a < |assignments| ==> assignments[a].plan < |plans|)
      && (forall key :: key in bills ==> BillOk(key, bills[key]))
    }

    ghost predicate BillOk(key: (nat, int), bill: Bill) reads this {
      && key.0 < |assignments| && assignments[key.0].plan < |plans| && PlanOk(plans[assignments[key.0].plan])
      && var a, p := assignments[key.0], plans[assignments[key.0].plan];
         && CycleIndex(a.start.month, key.1, p.interval).Some?
         && var k := CycleIndex(a.start.month, key.1, p.interval).value;
            && (p.mode.Installment? ==> k < p.count && bill.amount == InstallmentOf(p)(k))
            && (p.mode.OneTime? ==> k == 0)
    }

    constructor (customers: map<nat, bool>, units: map<nat, bool>)
      ensures Valid() && plans == [] && assignments == [] && bills == map[]
      ensures this.customers == customers && this.units == units
    {
      this.customers, this.units := customers, units;
      plans, assignments, bills := [], [], map[];
    }

    ghost predicate IsActive(rows: map<nat, bool>, id: nat) { id in rows && rows[id] }

    /** The request schema of a plan and `validatePlan`. */
    method ValidatePlan(p: Plan) returns (ok: bool)
      ensures ok <==> PlanOk(p)
    {
      ok := 0 < p.amount <= MAX_MONEY && 1 <= p.interval <= 12 && p.count <= 600
          && p.escalationBps <= BPS && 1 <= p.escalationMonths <= 120 && p.dueDays <= 365 && p.graceDays <= 365;
      match p.policy {
        case NoFee =>
        case FixedFee(value) => ok := ok && value <= MAX_MONEY;
        case PercentFee(bps) => ok := ok && bps <= BPS;
      }
      if p.mode == Installment {
        ok := ok && p.count >= 1 && p.count <= p.amount;
      } else {
        ok := ok && p.count == 0;
      }
      if p.mode != Fixed {
        ok := ok && p.escalationBps == 0;
      }
    }

    method CreatePlan(p: Plan) returns (r: Result<nat>)
      requires Valid()
      modifies this`plans
      ensures Valid() && (r.Ok? <==> PlanOk(p))
      ensures (r.Ok? ==> plans == old(plans) + [p]) && (r.Err? ==> plans == old(plans))
      ensures assignments == old(assignments) && bills == old(bills)
    {
      var valid := ValidatePlan(p);
      if !valid {
        return Err(BadRequest);
      }
      r := Ok(|plans|);
      plans := plans + [p];
    }

    ghost predicate Assigned(p: nat) reads this {
      exists a :: 0 <= a < |assignments| && assignments[a].plan == p
    }

    /** The billing cycle, and the value of an installment contract, are frozen once a plan is assigned. */
    ghost predicate Frozen(before: Plan, after: Plan) {
      before.mode == after.mode && before.interval == after.interval
      && (before.mode.Installment? ==> before.count == after.count && before.amount == after.amount)
    }

    method UpdatePlan(id: nat, p: Plan) returns (r: Result<nat>)
      requires Valid()
      modifies this`plans
      ensures Valid() && assignments == old(assignments) && bills == old(bills)
      ensures r.Ok? <==> old(id < |plans| && PlanOk(p) && (Assigned(id) ==> Frozen(plans[id], p)))
      ensures plans == if r.Ok? then old(plans)[id := p] else old(plans)
    {
      var valid := ValidatePlan(p);
      if !valid {
        return Err(BadRequest);
      }
      if id >= |plans| {
        return Err(NotFound);
      }
      var q := plans[id];
      var used := exists a | 0 <= a < |assignments| :: assignments[a].plan == id;
      if used && (q.mode != p.mode || q.interval != p.interval
                  || (q.mode == Installment && (q.count != p.count || q.amount != p.amount))) {
        return Err(Conflict);
      }
      ghost var before := plans;
      plans := plans[id := p];
      forall key | key in bills
        ensures BillOk(key, bills[key])
      {
        assert old(BillOk(key, bills[key]));
        if assignments[key.0].plan == id {
          assert old(Assigned(id));
        }
      }
      r := Ok(id);
    }

    method Assign(a: Assignment) returns (r: Result<nat>)
      requires Valid()
      modifies this`assignments
      ensures Valid() && plans == old(plans) && bills == old(bills)
      ensures r.Ok? <==>
                && (a.end.Some? ==> NotAfter(a.start, a.end.value)) && IsActive(customers, a.customer)
                && a.plan < |plans| && plans[a.plan].active && (a.unit.Some? ==> IsActive(units, a.unit.value))
      ensures assignments == if r.Ok? then old(assignments) + [a] else old(assignments)
    {
      if a.end.Some? && Later(a.start, a.end.value) {
        return Err(BadRequest);
      }
      if a.customer !in customers || !customers[a.customer] || a.plan >= |plans| || !plans[a.plan].active
         || (a.unit.Some? && (a.unit.value !in units || !units[a.unit.value])) {
        return Err(NotFound);
      }
      r := Ok(|assignments|);
      assignments := assignments + [a];
      forall key | key in bills
        ensures BillOk(key, bills[key])
      {
        assert old(BillOk(key, bills[key]));
      }
    }

    /** Suspending, ending or re-opening an assignment keeps its plan and its start; the end date stays unless
        the request names another or none. */
    method UpdateAssignment(id: nat, active: bool, end: Option<Option<Date>>) returns (r: Result<nat>)
      requires Valid()
      modifies this`assignments
      ensures Valid()
      ensures r.Ok? <==> id < |old(assignments)|
                         && (end.Some? && end.value.Some? ==> NotAfter(old(assignments)[id].start, end.value.value))
      ensures assignments ==
              if r.Ok? then
                var a := old(assignments)[id];
                old(assignments)[id := a.(active := active, end := if end.Some? then end.value else a.end)]
              else old(assignments)
    {
      if id >= |assignments| {
        return Err(NotFound);
      }
      var a := assignments[id];
      if end.Some? && end.value.Some? && Later(a.start, end.value.value) {
        return Err(BadRequest);
      }
      assignments := assignments[id := a.(active := active, end := if end.Some? then end.value else a.end)];
      forall key | key in bills
        ensures BillOk(key, bills[key])
      {
        assert old(BillOk(key, bills[key]));
      }
      r := Ok(id);
    }

    /** Whether a month that has no invoice yet is one of an assignment's billing cycles that has an amount, given
        the units that its meter reading for the month shows, if there is one. */
    ghost predicate InCycle(id: nat, period: int, reading: Option<nat>) reads this {
      && id < |assignments| && assignments[id].plan < |plans| && PlanOk(plans[assignments[id].plan])
      && var a, p := assignments[id], plans[assignments[id].plan];
         && a.active && p.active && (a.unit.Some? ==> IsActive(units, a.unit.value))
         && CycleIndex(a.start.month, period, p.interval).Some?
         && (a.end.Some? ==> a.end.value.month >= period)
         && var k := CycleIndex(a.start.month, period, p.interval).value;
            && (p.mode.OneTime? ==> k == 0) && (p.mode.Installment? ==> k < p.count)
            && (p.mode.Usage? ==> reading.Some?)
            && LineAmount(p, k, reading).Some?
    }

    /** The pre-tax amount of such a month. */
    ghost function AmountOf(id: nat, period: int, reading: Option<nat>): int
      reads this
      requires InCycle(id, period, reading)
    {
      var a, p := assignments[id], plans[assignments[id].plan];
      LineAmount(p, CycleIndex(a.start.month, period, p.interval).value, reading).value
    }

    /** The line of a month's invoice, or a refusal. */
    method PriceCycle(id: nat, period: int, reading: Option<nat>) returns (r: Result<(int, int, int)>)
      requires Valid()
      ensures r.Ok? <==> InCycle(id, period, reading)
      ensures r.Ok? ==>
                var a, p := assignments[id], plans[assignments[id].plan];
                var (amount, quantity, rate) := r.value;
                && amount == quantity * rate == AmountOf(id, period, reading) && IsMoney(amount)
                && (p.mode.Usage? ==> quantity == reading.value && rate == p.amount)
                && (!p.mode.Usage? ==> quantity == 1
                                       && Some(rate) == CycleAmount(p, (period - a.start.month) / p.interval))
    {
      hide CycleAmount, CycleIndex, InstallmentOf, BillOk;
      if id >= |assignments| {
        return Err(NotFound);
      }
      var a, p := assignments[id], plans[assignments[id].plan];
      if !a.active || !p.active || (a.unit.Some? && (a.unit.value !in units || !units[a.unit.value])) {
        return Err(Conflict);
      }
      var index := CycleIndex(a.start.month, period, p.interval);
      if index.Some? {
        CycleStarted(a.start.month, period, p.interval);
      }
      if index == None || a.start.month >= period + 1 || (a.end.Some? && a.end.value.month < period)
         || (p.mode == OneTime && index.value > 0) || (p.mode == Installment && index.value >= p.count) {
        return Err(Conflict);
      }
      var cycle := CycleAmount(p, index.value);
      if cycle == None {
        return Err(BadRequest);
      }
      var quantity, rate := 1, cycle.value;
      if p.mode == Usage {
        if reading == None {
          return Err(Conflict);
        }
        quantity, rate := reading.value, p.amount;
      }
      var amount := rate * quantity;
      MulOrder(0, quantity, rate);
      if !IsMoney(amount) {
        return Err(BadRequest);
      }
      r := Ok((amount, quantity, rate));
    }

    /** `generateAssignment`: the existing invoice of the month, a new one, or a refusal. */
    method Generate(id: nat, period: int, reading: Option<nat>, setup: T.Setup) returns (r: Result<bool>)
      requires Valid() && T.RatesOk(setup.rates)
      modifies this`bills
      ensures Valid() && plans == old(plans) && assignments == old(assignments)
      ensures r == Ok(true) <==> (id, period) in old(bills)
      ensures r == Ok(false) <==>
              && (id, period) !in old(bills) && InCycle(id, period, reading)
              && InvoiceTotal(setup, AmountOf(id, period, reading)).Ok? && IsActive(customers, assignments[id].customer)
      ensures r == Ok(false) ==>
                && (id, period) in bills && bills == old(bills)[(id, period) := bills[(id, period)]]
                && var bill := bills[(id, period)];
                   && bill.amount == AmountOf(id, period, reading) && IsMoney(bill.total)
                   && InvoiceTotal(setup, bill.amount) == Ok(bill.total)
      ensures r != Ok(false) ==> bills == old(bills)
    {
      hide LineAmount, CycleIndex, InstallmentOf, InvoiceTotal, T.RatesOk, PlanOk;
      if (id, period) in bills {
        return Ok(true);
      }
      var line := PriceCycle(id, period, reading);
      if line.Err? {
        return Err(line.error);
      }
      var (amount, quantity, rate) := line.value;
      var total := InvoiceTotal(setup, amount);
      if total.Err? {
        return Err(total.error);
      }
      if assignments[id].customer !in customers || !customers[assignments[id].customer] {
        return Err(NotFound);
      }
      TotalIsMoney(setup, amount);
      CycleBill(id, period, reading, Bill(amount, quantity, rate, total.value));
      AddBill(id, period, Bill(amount, quantity, rate, total.value));
      r := Ok(false);
    }

    lemma CycleBill(id: nat, period: int, reading: Option<nat>, bill: Bill)
      requires Valid() && InCycle(id, period, reading) && bill.amount == AmountOf(id, period, reading)
      ensures BillOk((id, period), bill)
    {
      var p := plans[assignments[id].plan];
      if p.mode.Installment? {
        InstallmentsTotal(p);
      }
    }

    method AddBill(id: nat, period: int, bill: Bill)
      requires Valid() && (id, period) !in bills && BillOk((id, period), bill)
      modifies this`bills
      ensures Valid() && bills == old(bills)[(id, period) := bill]
    {
      hide CycleIndex, InstallmentOf, PlanOk;
      bills := bills[(id, period) := bill];
      forall key | key in bills
        ensures BillOk(key, bills[key])
      {
        assert key in old(bills) ==> old(BillOk(key, bills[key]));
      }
    }

    /** What the k-th cycle of an assignment has been billed. */
    ghost function BilledAt(id: nat): int -> int
      reads this
      requires id < |assignments| && assignments[id].plan < |plans|
    {
      var a, p, rows := assignments[id], plans[assignments[id].plan], bills;
      (k: int) =>
        if (id, CycleMonth(a.start.month, p.interval, k)) in rows
        then rows[(id, CycleMonth(a.start.month, p.interval, k))].amount else 0
    }

    /** An invoice of an installment assignment is for one of its cycles and has that cycle's amount. */
    lemma BilledCycle(id: nat, k: int)
      requires Valid() && id < |assignments| && plans[assignments[id].plan].mode.Installment?
      requires 0 <= k < plans[assignments[id].plan].count
      ensures var a, p := assignments[id], plans[assignments[id].plan];
              BilledAt(id)(k) ==
              if (id, CycleMonth(a.start.month, p.interval, k)) in bills then InstallmentOf(p)(k) else 0
    {
      hide InstallmentOf, CycleMonth, CycleIndex;
      var a, p := assignments[id], plans[assignments[id].plan];
      var period := CycleMonth(a.start.month, p.interval, k);
      CycleInjective(a.start.month, period, p.interval, k);
      if (id, period) in bills {
        assert BillOk((id, period), bills[(id, period)]);
      }
    }

    /** Every invoice of an installment assignment is one of its count cycles, its invoices together
        never exceed the contract value, and they reach it exactly when every cycle has been billed. */
    lemma ContractValue(id: nat)
      requires Valid() && id < |assignments| && plans[assignments[id].plan].mode.Installment?
      ensures var a, p := assignments[id], plans[assignments[id].plan];
              && (forall period :: (id, period) in bills ==>
                    exists k: nat :: k < p.count && period == CycleMonth(a.start.month, p.interval, k))
              && 0 <= Sigma(p.count, BilledAt(id)) <= p.amount
              && (Sigma(p.count, BilledAt(id)) == p.amount <==>
                    forall k :: 0 <= k < p.count ==> (id, CycleMonth(a.start.month, p.interval, k)) in bills)
    {
      hide InstallmentOf, CycleMonth, CycleIndex, CycleAmount, BilledAt;
      var a, p := assignments[id], plans[assignments[id].plan];
      forall period | (id, period) in bills
        ensures exists k: nat :: k < p.count && period == CycleMonth(a.start.month, p.interval, k)
      {
        assert BillOk((id, period), bills[(id, period)]);
        CycleInjective(a.start.month, period, p.interval, CycleIndex(a.start.month, period, p.interval).value);
      }
      InstallmentsTotal(p);
      forall k | 0 <= k < p.count
        ensures BilledAt(id)(k) ==
                if (id, CycleMonth(a.start.month, p.interval, k)) in bills then InstallmentOf(p)(k) else 0
      {
        BilledCycle(id, k);
      }
      PartOfTotal(p.count, InstallmentOf(p), BilledAt(id));
    }

    /** A one-time plan is billed for one month at most. */
    lemma BilledOnce(id: nat, x: int, y: int)
      requires Valid() && (id, x) in bills && (id, y) in bills && plans[assignments[id].plan].mode.OneTime?
      ensures x == y
    {
      assert BillOk((id, x), bills[(id, x)]) && BillOk((id, y), bills[(id, y)]);
      CycleInjective(assignments[id].start.month, x, plans[assignments[id].plan].interval, 0);
      CycleInjective(assignments[id].start.month, y, plans[assignments[id].plan].interval, 0);
    }
  }
}
