/** Versioned baselines with independent approval, and certified measurements with reversals
    (construction.control.service.ts). Quantities are integers in thousandths. */
module BoqControl {
  import opened Outcomes
  import opened Rounding
  import opened Sums

  datatype Kind = Schedule | Boq

  /** The optional controls that the setup switches on. */
  datatype Config = Config(
    scheduling: bool, progress: bool, advancedBoq: bool, procurement: bool, receiptChecks: bool)

  datatype Decision = Pending | Approved(who: nat, order: nat) | Rejected(who: nat)

  datatype BoqLine = BoqLine(id: nat, costHead: nat, task: Option<nat>, lineUnit: nat, quantity: nat, rate: nat)

  /** A version's id is its position. `base` is the baseline it was drawn up against. */
  datatype Version = Version(
    kind: Kind, revision: nat, base: Option<nat>, lines: seq<BoqLine>, configRevision: nat,
    createdBy: nat, decision: Decision, scopeChange: Option<nat>)

  /** A reversal is a measurement of negative quantity that names its source. */
  datatype Measurement = Measurement(
    boq: nat, quantity: int, base: nat, reverses: Option<nat>, createdBy: nat, decision: Decision)

  datatype BoqRow = BoqRow(costHead: nat, quantity: nat, rate: nat, active: bool)

  // --- The chain of approved versions --------------------------------------------------------

  ghost predicate IsApproved(versions: seq<Version>, kind: Kind, i: nat) {
    i < |versions| && versions[i].kind == kind && versions[i].decision.Approved?
  }

  /** The last approved version of a kind among the first n. */
  ghost function LastApproved(versions: seq<Version>, kind: Kind, n: nat): Option<nat>
    requires n <= |versions|
  {
    if n == 0 then None
    else if IsApproved(versions, kind, n - 1) then Some(n - 1)
    else LastApproved(versions, kind, n - 1)
  }

  ghost function Current(versions: seq<Version>, kind: Kind): Option<nat> {
    LastApproved(versions, kind, |versions|)
  }

  lemma {:induction false} LastApprovedIsLast(versions: seq<Version>, kind: Kind, n: nat)
    requires n <= |versions|
    ensures var last := LastApproved(versions, kind, n);
            && (last.Some? ==> last.value < n && IsApproved(versions, kind, last.value))
            && forall i :: 0 <= i < n && IsApproved(versions, kind, i) ==> last.Some? && i <= last.value
  {
    if n > 0 {
      LastApprovedIsLast(versions, kind, n - 1);
    }
  }

  /** Only what the versions say about approval matters for the last approved one. */
  lemma {:induction false} LastApprovedSame(versions: seq<Version>, versions': seq<Version>, kind: Kind, n: nat)
    requires n <= |versions| && n <= |versions'|
    requires forall i :: 0 <= i < n ==> (IsApproved(versions, kind, i) <==> IsApproved(versions', kind, i))
    ensures LastApproved(versions, kind, n) == LastApproved(versions', kind, n)
  {
    if n > 0 {
      LastApprovedSame(versions, versions', kind, n - 1);
    }
  }

  lemma {:induction false} LastApprovedEmpty(versions: seq<Version>, kind: Kind, m: nat, n: nat)
    requires m <= n <= |versions| && forall i :: m <= i < n ==> !IsApproved(versions, kind, i)
    ensures LastApproved(versions, kind, n) == LastApproved(versions, kind, m)
  {
    if m < n {
      LastApprovedEmpty(versions, kind, m, n - 1);
    }
  }

  ghost predicate VersionOk(versions: seq<Version>, i: nat, clock: nat)
    requires i < |versions|
  {
    var v := versions[i];
    && (v.base.Some? ==> v.base.value < i && IsApproved(versions, v.kind, v.base.value))
    && (v.decision.Approved? ==>
          && v.base == LastApproved(versions, v.kind, i)
          && v.decision.who != v.createdBy && v.decision.order < clock)
  }

  /** Within a kind, revisions grow with the position, and approvals happen in revision order, each on
      top of the one before. */
  ghost predicate Chained(versions: seq<Version>, clock: nat) {
    && (forall i :: 0 <= i < |versions| ==> VersionOk(versions, i, clock))
    && (forall i, j :: 0 <= i < j < |versions| && versions[i].kind == versions[j].kind ==>
          versions[i].revision < versions[j].revision)
    && (forall i, j :: 0 <= i < j < |versions| && versions[i].kind == versions[j].kind
                       && versions[i].decision.Approved? && versions[j].decision.Approved? ==>
          versions[i].decision.order < versions[j].decision.order)
  }

  /** The version approved last is the one with the highest revision; it is what an ordered query finds. */
  lemma CurrentIsHighest(versions: seq<Version>, clock: nat, kind: Kind, i: nat)
    requires Chained(versions, clock) && IsApproved(versions, kind, i)
    ensures var c := Current(versions, kind);
            c.Some? && c.value < |versions| && IsApproved(versions, kind, c.value)
            && versions[i].revision <= versions[c.value].revision
            && versions[i].decision.order <= versions[c.value].decision.order
  {
    LastApprovedIsLast(versions, kind, |versions|);
  }

  /** Two versions drawn up against the same baseline are never both approved. */
  lemma NoForks(versions: seq<Version>, clock: nat, kind: Kind, i: nat, j: nat)
    requires Chained(versions, clock) && i < j && IsApproved(versions, kind, i) && IsApproved(versions, kind, j)
    ensures versions[i].base != versions[j].base
  {
    assert VersionOk(versions, i, clock) && VersionOk(versions, j, clock);
    LastApprovedIsLast(versions, kind, j);
  }

  // --- Certified quantities ------------------------------------------------------------------

  ghost const BOQ: Measurement -> int := (m: Measurement) => m.boq

  ghost const SOURCE: Measurement -> int := (m: Measurement) => if m.reverses.Some? then m.reverses.value else -1

  ghost const CERTIFIED_BY: Measurement -> int := (m: Measurement) => if m.decision.Approved? then m.quantity else 0

  ghost function Certified(measurements: seq<Measurement>, boq: nat): int {
    Sum(measurements, Share(BOQ, CERTIFIED_BY, boq))
  }

  /** What approved reversals have taken back from a source measurement: at most zero. */
  ghost function TakenBack(measurements: seq<Measurement>, source: nat): int {
    Sum(measurements, Share(SOURCE, CERTIFIED_BY, source))
  }

  ghost predicate MeasurementOk(measurements: seq<Measurement>, k: nat)
    requires k < |measurements|
  {
    var m := measurements[k];
    && (m.reverses.None? ==> m.quantity > 0)
    && (m.reverses.Some? ==>
          && m.quantity < 0 && m.reverses.value < k
          && var s := measurements[m.reverses.value];
             s.reverses.None? && s.decision.Approved? && s.boq == m.boq)
    && (m.decision.Approved? ==> m.decision.who != m.createdBy)
    && (m.decision.Approved? && m.reverses.None? ==> 0 <= m.quantity + TakenBack(measurements, k) <= m.quantity)
    && (!m.decision.Approved? || m.reverses.Some? ==> TakenBack(measurements, k) == 0)
  }

  ghost predicate UniqueLines(lines: seq<BoqLine>) {
    forall i, j :: 0 <= i < j < |lines| ==> lines[i].id != lines[j].id
  }

  function FindLine(lines: seq<BoqLine>, id: nat): (r: Option<BoqLine>)
    ensures r.Some? ==> r.value in lines && r.value.id == id
    ensures r.None? ==> forall l :: l in lines ==> l.id != id
  {
    if lines == [] then None
    else if lines[0].id == id then Some(lines[0])
    else FindLine(lines[1..], id)
  }

  ghost function LinesOf(versions: seq<Version>, c: Option<nat>): seq<BoqLine> {
    if c.Some? && c.value < |versions| then versions[c.value].lines else []
  }

  /** Certified work stays within the baseline, and outside it there is none. */
  ghost predicate Within(lines: seq<BoqLine>, measurements: seq<Measurement>) {
    && UniqueLines(lines)
    && (forall l :: l in lines ==> 0 <= Certified(measurements, l.id) <= l.quantity)
    && (forall id: nat :: FindLine(lines, id).None? ==> Certified(measurements, id) == 0)
  }

  /** Once there is a baseline, the active rows of the working BOQ are exactly its lines. */
  ghost predicate Mirrors(rows: map<nat, BoqRow>, lines: seq<BoqLine>) {
    forall id: nat ::
      match FindLine(lines, id)
      case Some(l) => id in rows && rows[id] == BoqRow(l.costHead, l.quantity, l.rate, true)
      case None => id in rows ==> !rows[id].active
  }

  /** A revision keeps certified work: no line with certified quantity is dropped, reassigned or reduced below it. */
  ghost predicate KeepsCertified(before: seq<BoqLine>, lines: seq<BoqLine>, measurements: seq<Measurement>) {
    forall l :: l in before && Certified(measurements, l.id) > 0 ==>
      var next := FindLine(lines, l.id);
      && next.Some? && next.value.quantity >= Certified(measurements, l.id)
      && next.value.lineUnit == l.lineUnit && next.value.costHead == l.costHead && next.value.task == l.task
  }

  /** An existing row never moves to another cost head. */
  ghost predicate SameHeads(rows: map<nat, BoqRow>, lines: seq<BoqLine>) {
    forall l :: l in lines && l.id in rows ==> rows[l.id].costHead == l.costHead
  }

  ghost predicate Priced(lines: seq<BoqLine>) {
    forall l :: l in lines ==> Round(l.quantity * l.rate, 1000) <= MAX_MONEY
  }

  /** Lines stand on approved cost heads. */
  ghost predicate OnHeads(heads: set<nat>, lines: seq<BoqLine>) { forall l :: l in lines ==> l.costHead in heads }

  /** `validateBoq` accepts the lines. */
  ghost predicate Acceptable(versions: seq<Version>, measurements: seq<Measurement>, rows: map<nat, BoqRow>,
                             heads: set<nat>, lines: seq<BoqLine>)
  {
    && UniqueLines(lines) && OnHeads(heads, lines)
    && KeepsCertified(LinesOf(versions, Current(versions, Boq)), lines, measurements)
    && SameHeads(rows, lines) && Priced(lines)
  }

  lemma AcceptableWithin(before: seq<BoqLine>, lines: seq<BoqLine>, measurements: seq<Measurement>)
    requires Within(before, measurements) && UniqueLines(lines) && KeepsCertified(before, lines, measurements)
    ensures Within(lines, measurements)
  {
    forall l | l in lines
      ensures 0 <= Certified(measurements, l.id) <= l.quantity
    {
      if Certified(measurements, l.id) != 0 {
        var past := FindLine(before, l.id);
        assert past.Some? && FindLine(lines, l.id).Some?;
        FoundIsLine(lines, l);
      }
    }
    forall id: nat | FindLine(lines, id).None?
      ensures Certified(measurements, id) == 0
    {
      if FindLine(before, id).Some? {
        assert FindLine(before, id).value in before;
      }
    }
  }

  lemma {:induction false} FoundIsLine(lines: seq<BoqLine>, l: BoqLine)
    requires UniqueLines(lines) && l in lines
    ensures FindLine(lines, l.id) == Some(l)
  {
    if lines[0] != l {
      assert l in lines[1..];
      var k :| 0 <= k < |lines[1..]| && lines[1..][k] == l;
      assert lines[0].id != lines[k + 1].id;
      FoundIsLine(lines[1..], l);
    }
  }

  ghost predicate Consistent(versions: seq<Version>, measurements: seq<Measurement>, rows: map<nat, BoqRow>,
                             clock: nat) {
    && Chained(versions, clock)
    && (forall k :: 0 <= k < |measurements| ==> MeasurementOk(measurements, k))
    && Within(LinesOf(versions, Current(versions, Boq)), measurements)
    && (Current(versions, Boq).Some? ==> Mirrors(rows, LinesOf(versions, Current(versions, Boq))))
  }

  // --- What the steps keep -------------------------------------------------------------------

  /** Versions that agree on kind, base and approval have the same chain. */
  lemma AppendVersionKeeps(versions: seq<Version>, v: Version, clock: nat)
    requires Chained(versions, clock) && v.decision.Pending? && v.base == Current(versions, v.kind)
    requires forall i :: 0 <= i < |versions| && versions[i].kind == v.kind ==> versions[i].revision < v.revision
    ensures Chained(versions + [v], clock)
    ensures forall kind :: Current(versions + [v], kind) == Current(versions, kind)
  {
    var versions' := versions + [v];
    forall kind, n: nat | n <= |versions|
      ensures LastApproved(versions', kind, n) == LastApproved(versions, kind, n)
    {
      LastApprovedSame(versions, versions', kind, n);
    }
    LastApprovedIsLast(versions, v.kind, |versions|);
    forall i | 0 <= i < |versions'|
      ensures VersionOk(versions', i, clock)
    {
      if i < |versions| {
        assert VersionOk(versions, i, clock);
      }
    }
  }

  /** Approving a version drawn up against the current baseline makes it the current one. */
  lemma ApprovalMovesCurrent(versions: seq<Version>, id: nat, who: nat, clock: nat)
    requires Chained(versions, clock) && id < |versions| && versions[id].decision.Pending?
    requires versions[id].base == Current(versions, versions[id].kind)
    ensures var versions' := versions[id := versions[id].(decision := Approved(who, clock))];
            && Current(versions', versions[id].kind) == Some(id)
            && (forall i :: id < i < |versions| ==> !IsApproved(versions, versions[id].kind, i))
            && (forall kind, n: nat :: n <= |versions| && (kind != versions[id].kind || n <= id) ==>
                  LastApproved(versions', kind, n) == LastApproved(versions, kind, n))
            && versions[id].base == LastApproved(versions, versions[id].kind, id)
  {
    hide LastApproved, Chained, IsApproved;
    var v, kind := versions[id], versions[id].kind;
    var versions' := versions[id := v.(decision := Approved(who, clock))];
    NothingLater(versions, id, clock);
    forall k, n: nat | n <= |versions| && (k != kind || n <= id)
      ensures LastApproved(versions', k, n) == LastApproved(versions, k, n)
    {
      OtherApprovals(versions, id, Approved(who, clock), k, n);
    }
    LastApprovedEmpty(versions, kind, id, |versions|);
    ApprovedHere(versions', id, v, Approved(who, clock));
    forall i | id < i < |versions|
      ensures !IsApproved(versions', kind, i)
    {
      SameElsewhere(versions, id, Approved(who, clock), kind, i);
    }
    LastApprovedEmpty(versions', kind, id + 1, |versions|);
  }

  /** Nothing of its kind has been approved after a version drawn up against the current baseline. */
  lemma NothingLater(versions: seq<Version>, id: nat, clock: nat)
    requires Chained(versions, clock) && id < |versions| && versions[id].decision.Pending?
    requires versions[id].base == Current(versions, versions[id].kind)
    ensures forall i :: id <= i < |versions| ==> !IsApproved(versions, versions[id].kind, i)
  {
    assert VersionOk(versions, id, clock);
    LastApprovedIsLast(versions, versions[id].kind, |versions|);
  }

  lemma SameElsewhere(versions: seq<Version>, id: nat, d: Decision, kind: Kind, i: nat)
    requires id < |versions| && i != id
    ensures IsApproved(versions[id := versions[id].(decision := d)], kind, i) <==> IsApproved(versions, kind, i)
  {
  }

  lemma OtherApprovals(versions: seq<Version>, id: nat, d: Decision, kind: Kind, n: nat)
    requires id < |versions| && n <= |versions| && (kind != versions[id].kind || n <= id)
    ensures LastApproved(versions[id := versions[id].(decision := d)], kind, n) == LastApproved(versions, kind, n)
  {
    LastApprovedSame(versions, versions[id := versions[id].(decision := d)], kind, n);
  }

  lemma ApprovedHere(versions: seq<Version>, id: nat, v: Version, d: Decision)
    requires id < |versions| && versions[id] == v.(decision := d) && d.Approved?
    ensures LastApproved(versions, v.kind, id + 1) == Some(id)
  {
  }

  lemma MirroredRows(rows: map<nat, BoqRow>, lines: seq<BoqLine>)
    requires forall j :: 0 <= j < |lines| ==>
               && lines[j].id in rows
               && rows[lines[j].id] == BoqRow(lines[j].costHead, lines[j].quantity, lines[j].rate, true)
    requires forall id :: id in rows && FindLine(lines, id).None? ==> !rows[id].active
    ensures Mirrors(rows, lines)
  {
    forall id: nat
      ensures match FindLine(lines, id)
              case Some(l) => id in rows && rows[id] == BoqRow(l.costHead, l.quantity, l.rate, true)
              case None => id in rows ==> !rows[id].active
    {
      if FindLine(lines, id).Some? {
        var j :| 0 <= j < |lines| && lines[j] == FindLine(lines, id).value;
      }
    }
  }

  lemma ApproveVersionKeeps(versions: seq<Version>, id: nat, who: nat, clock: nat)
    requires Chained(versions, clock) && id < |versions| && versions[id].decision.Pending?
             && who != versions[id].createdBy
    requires versions[id].base == Current(versions, versions[id].kind)
    ensures var versions' := versions[id := versions[id].(decision := Approved(who, clock))];
            && Chained(versions', clock + 1) && Current(versions', versions[id].kind) == Some(id)
            && forall kind :: kind != versions[id].kind ==> Current(versions', kind) == Current(versions, kind)
  {
    hide LastApproved;
    var kind, next := versions[id].kind, clock + 1;
    var versions' := versions[id := versions[id].(decision := Approved(who, clock))];
    ApprovalMovesCurrent(versions, id, who, clock);
    forall i | 0 <= i < |versions|
      ensures VersionOk(versions', i, next)
    {
      assert VersionOk(versions, i, clock);
      assert i > id ==> !IsApproved(versions, kind, i);
    }
    forall i, j | 0 <= i < j < |versions| && versions'[i].kind == versions'[j].kind
                  && versions'[i].decision.Approved? && versions'[j].decision.Approved?
      ensures versions'[i].decision.order < versions'[j].decision.order
    {
      assert VersionOk(versions, i, clock) && VersionOk(versions, j, clock);
      assert j > id ==> !IsApproved(versions, kind, j);
    }
  }

  lemma RejectVersionKeeps(versions: seq<Version>, id: nat, who: nat, clock: nat)
    requires Chained(versions, clock) && id < |versions| && versions[id].decision.Pending?
    ensures var versions' := versions[id := versions[id].(decision := Rejected(who))];
            Chained(versions', clock) && forall kind :: Current(versions', kind) == Current(versions, kind)
  {
    var versions' := versions[id := versions[id].(decision := Rejected(who))];
    forall k, n: nat | n <= |versions|
      ensures LastApproved(versions', k, n) == LastApproved(versions, k, n)
    {
      LastApprovedSame(versions, versions', k, n);
    }
    forall i | 0 <= i < |versions|
      ensures VersionOk(versions', i, clock)
    {
      assert VersionOk(versions, i, clock);
    }
  }

  /** A pending row adds nothing to any certified total. */
  lemma AppendMeasurementKeeps(measurements: seq<Measurement>, m: Measurement, lines: seq<BoqLine>)
    requires (forall k :: 0 <= k < |measurements| ==> MeasurementOk(measurements, k)) && Within(lines, measurements)
    requires m.decision.Pending? && (m.reverses.None? ==> m.quantity > 0)
    requires m.reverses.Some? ==>
               && m.quantity < 0 && m.reverses.value < |measurements|
               && var s := measurements[m.reverses.value]; s.reverses.None? && s.decision.Approved? && s.boq == m.boq
    ensures var after := measurements + [m];
            (forall k :: 0 <= k < |after| ==> MeasurementOk(after, k)) && Within(lines, after)
  {
    var after := measurements + [m];
    forall id: nat
      ensures Certified(after, id) == Certified(measurements, id) && TakenBack(after, id) == TakenBack(measurements, id)
    {
      SumAppend(measurements, m, Share(BOQ, CERTIFIED_BY, id));
      SumAppend(measurements, m, Share(SOURCE, CERTIFIED_BY, id));
    }
    forall k | 0 <= k < |measurements|
      ensures measurements[k].reverses != Some(|measurements|)
    {
      assert MeasurementOk(measurements, k);
    }
    NothingTakenBack(measurements, |measurements|);
    forall k | 0 <= k < |after|
      ensures MeasurementOk(after, k)
    {
      assert k < |measurements| ==> MeasurementOk(measurements, k);
    }
  }

  /** An undecided measurement keeps everything consistent. */
  lemma AppendConsistent(versions: seq<Version>, measurements: seq<Measurement>, rows: map<nat, BoqRow>, clock: nat,
                         m: Measurement)
    requires Consistent(versions, measurements, rows, clock) && m.decision.Pending?
    requires m.reverses.None? ==> m.quantity > 0
    requires m.reverses.Some? ==>
               && m.quantity < 0 && m.reverses.value < |measurements|
               && var s := measurements[m.reverses.value]; s.quantity > 0 && s.decision.Approved? && s.boq == m.boq
    ensures Consistent(versions, measurements + [m], rows, clock)
  {
    hide Within, Mirrors, Chained;
    if m.reverses.Some? {
      assert MeasurementOk(measurements, m.reverses.value);
    }
    AppendMeasurementKeeps(measurements, m, LinesOf(versions, Current(versions, Boq)));
  }

  /** What the books say about one line. */
  lemma LineCertified(versions: seq<Version>, measurements: seq<Measurement>, rows: map<nat, BoqRow>, clock: nat,
                      l: BoqLine)
    requires Consistent(versions, measurements, rows, clock) && l in LinesOf(versions, Current(versions, Boq))
    ensures 0 <= Certified(measurements, l.id) <= l.quantity
  {
  }

  lemma {:induction false} NothingTakenBack(measurements: seq<Measurement>, source: nat)
    requires forall k :: 0 <= k < |measurements| ==> measurements[k].reverses != Some(source)
    ensures TakenBack(measurements, source) == 0
  {
    if measurements != [] {
      NothingTakenBack(measurements[..|measurements| - 1], source);
    }
  }

  /** Approving a measurement that fits its line, and a reversal that its source can bear, keeps everything within. */
  lemma ApproveMeasurementKeeps(measurements: seq<Measurement>, k: nat, who: nat, order: nat, lines: seq<BoqLine>,
                                l: BoqLine)
    requires (forall j :: 0 <= j < |measurements| ==> MeasurementOk(measurements, j)) && Within(lines, measurements)
    requires k < |measurements| && measurements[k].decision.Pending? && measurements[k].createdBy != who
    requires FindLine(lines, measurements[k].boq) == Some(l)
    requires 0 <= Certified(measurements, l.id) + measurements[k].quantity <= l.quantity
    requires measurements[k].reverses.Some? ==>
               var s := measurements[k].reverses.value;
               s < |measurements|
               && measurements[s].quantity + TakenBack(measurements, s) + measurements[k].quantity >= 0
    ensures var after := measurements[k := measurements[k].(decision := Approved(who, order))];
            (forall j :: 0 <= j < |after| ==> MeasurementOk(after, j)) && Within(lines, after)
  {
    var m := measurements[k];
    var m' := m.(decision := Approved(who, order));
    var after := measurements[k := m'];
    assert MeasurementOk(measurements, k);
    forall id: nat
      ensures Certified(after, id) == Certified(measurements, id) + (if m.boq == id then m.quantity else 0)
      ensures TakenBack(after, id) == TakenBack(measurements, id) + (if m.reverses == Some(id) then m.quantity else 0)
    {
      SumUpdate(measurements, k, m', Share(BOQ, CERTIFIED_BY, id));
      SumUpdate(measurements, k, m', Share(SOURCE, CERTIFIED_BY, id));
    }
    forall j | 0 <= j < |after|
      ensures MeasurementOk(after, j)
    {
      assert MeasurementOk(measurements, j);
    }
    forall x | x in lines
      ensures 0 <= Certified(after, x.id) <= x.quantity
    {
      FoundIsLine(lines, x);
    }
  }

  lemma RejectMeasurementKeeps(measurements: seq<Measurement>, k: nat, who: nat, lines: seq<BoqLine>)
    requires (forall j :: 0 <= j < |measurements| ==> MeasurementOk(measurements, j)) && Within(lines, measurements)
    requires k < |measurements| && measurements[k].decision.Pending?
    ensures var after := measurements[k := measurements[k].(decision := Rejected(who))];
            (forall j :: 0 <= j < |after| ==> MeasurementOk(after, j)) && Within(lines, after)
  {
    var m' := measurements[k].(decision := Rejected(who));
    var after := measurements[k := m'];
    forall id: nat
      ensures Certified(after, id) == Certified(measurements, id) && TakenBack(after, id) == TakenBack(measurements, id)
    {
      SumUpdate(measurements, k, m', Share(BOQ, CERTIFIED_BY, id));
      SumUpdate(measurements, k, m', Share(SOURCE, CERTIFIED_BY, id));
    }
    forall j | 0 <= j < |after|
      ensures MeasurementOk(after, j)
    {
      assert MeasurementOk(measurements, j);
    }
  }

  // --- The service ---------------------------------------------------------------------------

  class Control {
    var versions: seq<Version>
    var measurements: seq<Measurement>
    var rows: map<nat, BoqRow>
    var configRevision: nat
    var clock: nat
    var config: Config
    /** The approved cost heads. */
    var heads: set<nat>

    ghost predicate Valid() reads this {
      Consistent(versions, measurements, rows, clock)
    }

    constructor (rows: map<nat, BoqRow>, heads: set<nat>)
      ensures Valid() && versions == [] && measurements == [] && this.rows == rows && this.heads == heads
      ensures config == Config(false, false, false, false, false)
    {
      versions, measurements, configRevision, clock := [], [], 0, 0;
      this.rows, this.heads, config := rows, heads, Config(false, false, false, false, false);
    }

    /** `approvedVersion`: the approved version of the highest revision. */
    method ApprovedVersion(kind: Kind) returns (found: Option<nat>)
      requires Valid()
      ensures found == Current(versions, kind)
      ensures found.Some? ==> found.value < |versions| && IsApproved(versions, kind, found.value)
      ensures forall i :: 0 <= i < |versions| && IsApproved(versions, kind, i) ==>
                found.Some? && versions[i].revision <= versions[found.value].revision
    {
      found := None;
      for i := 0 to |versions|
        invariant found == LastApproved(versions, kind, i)
        invariant found.Some? ==> found.value < i && IsApproved(versions, kind, found.value)
      {
        if versions[i].kind == kind && versions[i].decision.Approved?
           && (found == None || versions[i].revision > versions[found.value].revision) {
          found := Some(i);
        }
      }
      LastApprovedIsLast(versions, kind, |versions|);
    }

    /** Saving the setup moves its revision on, so schedules computed with an older calendar are refused.
        Progress is only tracked against approved baselines, and procurement needs receipt checks. */
    method Configure(expected: nat, next: Config) returns (r: Result<nat>)
      requires Valid()
      modifies this`configRevision, this`config
      ensures Valid()
      ensures r.Ok? <==> expected == old(configRevision) && (next.progress ==> next.advancedBoq)
                         && (next.procurement ==> next.receiptChecks)
      ensures configRevision == if r.Ok? then old(configRevision) + 1 else old(configRevision)
      ensures config == if r.Ok? then next else old(config)
    {
      if (next.procurement && !next.receiptChecks) || (next.progress && !next.advancedBoq) {
        return Err(BadRequest);
      }
      if expected != configRevision {
        return Err(Conflict);
      }
      configRevision, config := configRevision + 1, next;
      r := Ok(configRevision);
    }

    method CertifiedQuantity(boq: nat) returns (total: int)
      ensures total == Certified(measurements, boq)
    {
      total := 0;
      for k := 0 to |measurements|
        invariant total == Sum(measurements[..k], Share(BOQ, CERTIFIED_BY, boq))
      {
        assert measurements[..k + 1][..k] == measurements[..k];
        if measurements[k].boq == boq && measurements[k].decision.Approved? {
          total := total + measurements[k].quantity;
        }
      }
      assert measurements[..|measurements|] == measurements;
    }

    method Reversals(source: nat) returns (total: int)
      ensures total == TakenBack(measurements, source)
    {
      total := 0;
      for k := 0 to |measurements|
        invariant total == Sum(measurements[..k], Share(SOURCE, CERTIFIED_BY, source))
      {
        assert measurements[..k + 1][..k] == measurements[..k];
        if measurements[k].reverses == Some(source) && measurements[k].decision.Approved? {
          total := total + measurements[k].quantity;
        }
      }
      assert measurements[..|measurements|] == measurements;
    }

    /** `validateBoq`. */
    method ValidateBoq(lines: seq<BoqLine>) returns (ok: bool)
      requires Valid()
      ensures ok <==> Acceptable(versions, measurements, rows, heads, lines)
    {
      hide KeepsCertified, OnHeads, SameHeads, Priced, Consistent;
      if exists i, j | 0 <= i < j < |lines| :: lines[i].id == lines[j].id {
        return false;
      }
      var baseline := ApprovedVersion(Boq);
      ok := CertifiedKept(if baseline == None then [] else versions[baseline.value].lines, lines);
      if ok {
        ok := HeadsAndPrices(lines);
      }
    }

    method CertifiedKept(before: seq<BoqLine>, lines: seq<BoqLine>) returns (ok: bool)
      ensures ok <==> KeepsCertified(before, lines, measurements)
    {
      for i := 0 to |before|
        invariant KeepsCertified(before[..i], lines, measurements)
      {
        var previous := before[i];
        assert previous in before;
        var certified := CertifiedQuantity(previous.id);
        var next := FindLine(lines, previous.id);
        if certified > 0 && (next == None || next.value.quantity < certified || next.value.lineUnit != previous.lineUnit
                             || next.value.costHead != previous.costHead || next.value.task != previous.task) {
          return false;
        }
        assert before[..i + 1] == before[..i] + [previous];
      }
      assert before[..|before|] == before;
      ok := true;
    }

    method HeadsAndPrices(lines: seq<BoqLine>) returns (ok: bool)
      ensures ok <==> OnHeads(heads, lines) && SameHeads(rows, lines) && Priced(lines)
    {
      for i := 0 to |lines|
        invariant OnHeads(heads, lines[..i]) && SameHeads(rows, lines[..i]) && Priced(lines[..i])
      {
        var l := lines[i];
        assert l in lines;
        if l.costHead !in heads || (l.id in rows && rows[l.id].costHead != l.costHead) {
          return false;
        }
        if Round(l.quantity * l.rate, 1000) > MAX_MONEY {
          return false;
        }
        assert lines[..i + 1] == lines[..i] + [l];
      }
      assert lines[..|lines|] == lines;
      ok := true;
    }

    method NextRevision(kind: Kind) returns (revision: nat)
      ensures forall i :: 0 <= i < |versions| && versions[i].kind == kind ==> versions[i].revision < revision
      ensures revision == 1 ||
              exists i :: 0 <= i < |versions| && versions[i].kind == kind && versions[i].revision + 1 == revision
    {
      var highest: nat := 0;
      for i := 0 to |versions|
        invariant forall j :: 0 <= j < i && versions[j].kind == kind ==> versions[j].revision <= highest
        invariant highest == 0 || exists j :: 0 <= j < i && versions[j].kind == kind && versions[j].revision == highest
      {
        if versions[i].kind == kind {
          highest := Max(highest, versions[i].revision);
        }
      }
      revision := highest + 1;
    }

    /** `submitVersion`: only against the baseline that is current, and for a BOQ only lines that are acceptable. */
    method SubmitVersion(kind: Kind, base: Option<nat>, lines: seq<BoqLine>, user: nat,
                         scopeChange: Option<nat>) returns (r: Result<nat>)
      requires Valid() && (kind.Schedule? ==> lines == [])
      modifies this`versions
      ensures Valid() && measurements == old(measurements) && rows == old(rows) && clock == old(clock)
      ensures configRevision == old(configRevision)
      ensures r.Ok? <==> (if kind.Schedule? then config.scheduling else config.advancedBoq)
                         && base == Current(old(versions), kind)
                         && (kind.Boq? ==> Acceptable(old(versions), old(measurements), old(rows), heads, lines))
      ensures r.Err? ==> versions == old(versions)
      ensures r.Ok? ==> r.value == |old(versions)| && |versions| == |old(versions)| + 1
                        && versions == old(versions)
                                       + [Version(kind, versions[r.value].revision, base, lines, configRevision, user,
                                                  Pending, scopeChange)]
    {
      hide Within, Mirrors;
      if !(if kind == Schedule then config.scheduling else config.advancedBoq) {
        return Err(BadRequest);
      }
      var current := ApprovedVersion(kind);
      if current != base {
        return Err(Conflict);
      }
      if kind == Boq {
        var ok := ValidateBoq(lines);
        if !ok {
          return Err(Conflict);
        }
      }
      var revision := NextRevision(kind);
      var v := Version(kind, revision, base, lines, configRevision, user, Pending, scopeChange);
      AppendVersionKeeps(versions, v, clock);
      LastApprovedIsLast(versions, Boq, |versions|);
      r := Ok(|versions|);
      versions := versions + [v];
    }

    /** The row updates of an approved BOQ: rows outside it are closed, the others follow its lines. */
    method SyncRows(lines: seq<BoqLine>)
      requires UniqueLines(lines) && SameHeads(rows, lines)
      modifies this`rows
      ensures Mirrors(rows, lines)
    {
      hide Mirrors, FindLine;
      rows := map id | id in rows :: if FindLine(lines, id).None? then rows[id].(active := false) else rows[id];
      assert forall id :: id in rows ==> id in old(rows) && rows[id].costHead == old(rows)[id].costHead;
      for i := 0 to |lines|
        invariant forall j :: 0 <= j < i ==>
                    && lines[j].id in rows
                    && rows[lines[j].id] == BoqRow(lines[j].costHead, lines[j].quantity, lines[j].rate, true)
        invariant SameHeads(rows, lines)
        invariant forall id :: id in rows && FindLine(lines, id).None? ==> !rows[id].active
      {
        var l := lines[i];
        assert l in lines;
        FoundIsLine(lines, l);
        rows := rows[l.id := if l.id in rows then rows[l.id].(quantity := l.quantity, rate := l.rate, active := true)
                             else BoqRow(l.costHead, l.quantity, l.rate, true)];
      }
      MirroredRows(rows, lines);
    }

    /** `decideVersion`: an independent approval, and only on top of the baseline the version was drawn up against. */
    method DecideVersion(id: nat, user: nat, approve: bool, scopeChange: Option<nat>) returns (r: Result<nat>)
      requires Valid()
      modifies this`versions, this`rows, this`clock
      ensures Valid() && measurements == old(measurements) && configRevision == old(configRevision)
      ensures r.Err? ==> versions == old(versions) && rows == old(rows)
      ensures id >= |old(versions)| ==> r == Err(NotFound)
      ensures id < |old(versions)| ==>
                var v := old(versions)[id];
                var open := v.decision.Pending? && v.createdBy != user
                            && (v.scopeChange.Some? ==> v.scopeChange == scopeChange);
                var same := (v.scopeChange.Some? ==> v.scopeChange == scopeChange)
                            && !v.decision.Pending? && v.decision.Approved? == approve;
                && (r.Ok? <==> same || (open && !approve)
                               || (open && approve && v.base == Current(old(versions), v.kind)
                                   && (if v.kind.Schedule? then configRevision == v.configRevision
                                       else Acceptable(old(versions), old(measurements), old(rows), heads, v.lines))))
                && (r.Ok? && same ==> versions == old(versions) && rows == old(rows))
                && (r.Ok? && !same && !approve ==>
                      versions == old(versions)[id := v.(decision := Rejected(user))] && rows == old(rows))
                && (r.Ok? && !same && approve ==>
                      && versions == old(versions)[id := v.(decision := Approved(user, old(clock)))]
                      && Current(versions, v.kind) == Some(id)
                      && (if v.kind.Boq? then Mirrors(rows, v.lines) else rows == old(rows)))
    {
      hide Within, Mirrors, KeepsCertified, OnHeads, SameHeads;
      if id >= |versions| {
        return Err(NotFound);
      }
      var v := versions[id];
      if v.scopeChange.Some? && v.scopeChange != scopeChange {
        return Err(Conflict);
      }
      if v.decision != Pending {
        return if v.decision.Approved? == approve then Ok(id) else Err(Conflict);
      }
      if v.createdBy == user {
        return Err(Conflict);
      }
      LastApprovedIsLast(versions, Boq, |versions|);
      if !approve {
        RejectVersionKeeps(versions, id, user, clock);
        versions := versions[id := v.(decision := Rejected(user))];
        return Ok(id);
      }
      var current := ApprovedVersion(v.kind);
      if current != v.base {
        return Err(Conflict);
      }
      if v.kind == Schedule {
        if configRevision != v.configRevision {
          return Err(Conflict);
        }
      } else {
        var ok := ValidateBoq(v.lines);
        if !ok {
          return Err(Conflict);
        }
        AcceptableWithin(LinesOf(versions, current), v.lines, measurements);
        SyncRows(v.lines);
      }
      ApproveVersionKeeps(versions, id, user, clock);
      versions := versions[id := v.(decision := Approved(user, clock))];
      clock := clock + 1;
      r := Ok(id);
    }

    /** Rows may be added or edited directly only while there is no approved BOQ, on an approved cost head; an
        edited row must be active and keep its head. */
    method EditRow(id: nat, row: BoqRow) returns (r: Result<nat>)
      requires Valid()
      modifies this`rows
      ensures Valid() && versions == old(versions) && measurements == old(measurements) && clock == old(clock)
      ensures r.Ok? <==>
                && Current(versions, Boq).None? && row.costHead in heads
                && (id in old(rows) ==> old(rows)[id].active && old(rows)[id].costHead == row.costHead)
      ensures rows == if r.Ok? then old(rows)[id := row] else old(rows)
    {
      var current := ApprovedVersion(Boq);
      if current.Some? {
        return Err(Conflict);
      }
      if (id in rows && !rows[id].active) || row.costHead !in heads {
        return Err(NotFound);
      }
      if id in rows && rows[id].costHead != row.costHead {
        return Err(Conflict);
      }
      rows := rows[id := row];
      r := Ok(id);
    }

    /** A correction names an approved measurement of the line and takes back no more than what is left of it. */
    ghost predicate Correctable(measurements: seq<Measurement>, boq: nat, quantity: nat, source: nat) {
      && source < |measurements|
      && var s := measurements[source];
         && s.decision.Approved? && s.boq == boq && s.quantity > 0
         && quantity <= s.quantity + TakenBack(measurements, source)
         && quantity <= Certified(measurements, boq)
    }

    /** `submitMeasurement`: against the current baseline, within the line, and a correction within its source. */
    method SubmitMeasurement(boq: nat, quantity: nat, reverses: Option<nat>, user: nat) returns (r: Result<nat>)
      requires Valid() && quantity > 0
      modifies this`measurements
      ensures Valid() && versions == old(versions) && rows == old(rows) && clock == old(clock)
      ensures r.Ok? <==>
                var line := FindLine(LinesOf(versions, Current(versions, Boq)), boq);
                && config.progress && Current(versions, Boq).Some? && line.Some?
                && (if reverses.None? then Certified(old(measurements), boq) + quantity <= line.value.quantity
                    else Correctable(old(measurements), boq, quantity, reverses.value))
      ensures r.Err? ==> measurements == old(measurements)
      ensures r.Ok? ==>
                && r.value == |old(measurements)| && Current(versions, Boq).Some?
                && measurements == old(measurements)
                                   + [Measurement(boq, if reverses.Some? then 0 - quantity else quantity,
                                                  Current(versions, Boq).value, reverses, user, Pending)]
    {
      hide Consistent, FindLine;
      if !config.progress {
        return Err(BadRequest);
      }
      var baseline := ApprovedVersion(Boq);
      if baseline == None {
        return Err(BadRequest);
      }
      var line := FindLine(versions[baseline.value].lines, boq);
      if line == None {
        return Err(NotFound);
      }
      var amount: int := quantity;
      if reverses.Some? {
        var s := reverses.value;
        if s >= |measurements| || !measurements[s].decision.Approved? || measurements[s].boq != boq
            || measurements[s].quantity <= 0 {
          return Err(NotFound);
        }
        var taken := Reversals(s);
        if quantity > measurements[s].quantity + taken {
          return Err(Conflict);
        }
        amount := 0 - quantity;
      }
      var certified := CertifiedQuantity(boq);
      LineCertified(versions, measurements, rows, clock, line.value);
      if certified + amount < 0 || certified + amount > line.value.quantity {
        return Err(Conflict);
      }
      var m := Measurement(boq, amount, baseline.value, reverses, user, Pending);
      AppendConsistent(versions, measurements, rows, clock, m);
      r := Ok(|measurements|);
      measurements := measurements + [m];
    }

    /** `decideMeasurement`: everything is checked again against what has been certified meanwhile. */
    method DecideMeasurement(k: nat, user: nat, approve: bool) returns (r: Result<nat>)
      requires Valid()
      modifies this`measurements
      ensures Valid() && versions == old(versions) && rows == old(rows)
      ensures r.Err? ==> measurements == old(measurements)
      ensures k >= |old(measurements)| ==> r == Err(NotFound)
      ensures k < |old(measurements)| ==>
                var m := old(measurements)[k];
                var line := FindLine(LinesOf(versions, Current(versions, Boq)), m.boq);
                var open := m.decision.Pending? && m.createdBy != user;
                var same := !m.decision.Pending? && m.decision.Approved? == approve;
                && (r.Ok? <==> same || (open && !approve)
                               || (open && approve && Current(versions, Boq) == Some(m.base) && line.Some?
                                   && 0 <= Certified(old(measurements), m.boq) + m.quantity <= line.value.quantity
                                   && (m.reverses.Some? ==>
                                         m.reverses.value < k
                                         && old(measurements)[m.reverses.value].quantity
                                            + TakenBack(old(measurements), m.reverses.value) + m.quantity >= 0)))
                && (r.Ok? && same ==> measurements == old(measurements))
                && (r.Ok? && !same ==>
                      measurements ==
                        old(measurements)[k := m.(decision :=
                                              if approve then Approved(user, old(clock)) else Rejected(user))])
    {
      hide Mirrors, Chained;
      if k >= |measurements| {
        return Err(NotFound);
      }
      var m := measurements[k];
      if m.decision != Pending {
        return if m.decision.Approved? == approve then Ok(k) else Err(Conflict);
      }
      if m.createdBy == user {
        return Err(Conflict);
      }
      var baseline := ApprovedVersion(Boq);
      var lines := if baseline == None then [] else versions[baseline.value].lines;
      if !approve {
        RejectMeasurementKeeps(measurements, k, user, lines);
        measurements := measurements[k := m.(decision := Rejected(user))];
        return Ok(k);
      }
      if baseline != Some(m.base) {
        return Err(Conflict);
      }
      var line := FindLine(lines, m.boq);
      var certified := CertifiedQuantity(m.boq);
      if line == None || certified + m.quantity < 0 || certified + m.quantity > line.value.quantity {
        return Err(Conflict);
      }
      assert MeasurementOk(measurements, k);
      if m.reverses.Some? {
        var taken := Reversals(m.reverses.value);
        if measurements[m.reverses.value].quantity + taken + m.quantity < 0 {
          return Err(Conflict);
        }
      }
      ApproveMeasurementKeeps(measurements, k, user, clock, lines, line.value);
      measurements := measurements[k := m.(decision := Approved(user, clock))];
      r := Ok(k);
    }
  }
}
