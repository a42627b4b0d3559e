/** A resumable batch of invoices (`processRun` of billing.service.ts), worked on by any number of
    workers at once. Each database transaction is one step; a worker may stop between any two. */
module BillingRun {
  import opened Outcomes
  import opened Rounding
  import opened Runs

  datatype Status = Queued | Running | Completed

  /** What generating one invoice did: an invoice made or found, or a validation error. */
  datatype Made = Made(invoice: nat, existing: bool) | Failed(error: Error)

  datatype Line = Line(assignment: nat, made: Made)

  /** Where a worker is: between iterations, holding the run it read, or holding a validation error. */
  datatype Pc = Idle | Holding(cursor: nat) | Caught(cursor: nat, error: Error)

  /** How generateAssignment ends inside the transaction; Broken is an infrastructure failure. */
  datatype Outcome = Generated(invoice: nat, existing: bool) | Invalid(error: Error) | Broken

  /** `failures` remembers which items really failed, and with what. */
  datatype State = State(
    ids: seq<nat>, cursor: nat, results: seq<Line>, status: Status, pcs: map<nat, Pc>, failures: set<(nat, Error)>)

  datatype Event =
    | Read(worker: nat)
    | Work(worker: nat, outcome: Outcome)
    | Record(worker: nat)
    | Crash(worker: nat)
    | Touch(seen: Status)

  function PcOf(s: State, w: nat): Pc { if w in s.pcs then s.pcs[w] else Idle }

  function At(s: State, w: nat, pc: Pc): State { s.(pcs := s.pcs[w := pc]) }

  /** Append one line and move the cursor past it. */
  function Advanced(s: State, made: Made): State
    requires s.cursor < |s.ids|
  {
    s.(cursor := s.cursor + 1,
       results := s.results + [Line(s.ids[s.cursor], made)],
       status := if s.cursor + 1 == |s.ids| then Completed else Running)
  }

  function Step(s: State, e: Event): State {
    match e
    case Read(w) =>
      if s.status.Completed? then At(s, w, Idle) else At(s, w, Holding(s.cursor))
    case Work(w, outcome) =>
      if !PcOf(s, w).Holding? then s
      else if s.status.Completed? then At(s, w, Idle)
      else if s.cursor >= |s.ids| then At(s.(status := Completed), w, Idle)
      else (match outcome
            case Generated(i, existing) => At(Advanced(s, Made(i, existing)), w, Idle)
            case Invalid(error) =>
              At(s.(failures := s.failures + {(s.cursor, error)}), w, Caught(PcOf(s, w).cursor, error))
            case Broken => At(s, w, Idle))
    case Record(w) =>
      if !PcOf(s, w).Caught? then s
      else if s.cursor != PcOf(s, w).cursor || s.cursor >= |s.ids| then At(s, w, Idle)
      else At(Advanced(s, Failed(PcOf(s, w).error)), w, Idle)
    case Crash(w) => At(s, w, Idle)
    case Touch(seen) => if s.status.Completed? || seen.Completed? then s else s.(status := seen)
  }

  function Start(ids: seq<nat>): State {
    State(ids, 0, [], if ids == [] then Completed else Queued, map[], {})
  }

  function Run(s: State, events: seq<Event>): State { RunFrom(Step, s, events) }

  ghost predicate PcOk(s: State, pc: Pc) {
    match pc
    case Idle => true
    case Holding(cursor) => cursor <= s.cursor
    case Caught(cursor, error) =>
      cursor < |s.ids| && cursor <= s.cursor && (s.cursor == cursor ==> (cursor, error) in s.failures)
  }

  /** One result per item passed, in order; a recorded error is one that item met; completed exactly at the end. */
  ghost predicate Inv(s: State) {
    && |s.results| == s.cursor <= |s.ids|
    && (forall k :: 0 <= k < s.cursor ==> s.results[k].assignment == s.ids[k])
    && (forall k :: 0 <= k < s.cursor && s.results[k].made.Failed? ==> (k, s.results[k].made.error) in s.failures)
    && (s.status.Completed? <==> s.cursor == |s.ids|)
    && (forall w :: w in s.pcs ==> PcOk(s, s.pcs[w]))
  }

  lemma AdvancedKeeps(s: State, made: Made)
    requires Inv(s) && s.cursor < |s.ids| && (made.Failed? ==> (s.cursor, made.error) in s.failures)
    ensures Inv(Advanced(s, made))
  {
    var t := Advanced(s, made);
    forall w | w in t.pcs
      ensures PcOk(t, t.pcs[w])
    {
      assert PcOk(s, s.pcs[w]);
    }
  }

  lemma PlaceKeeps(s: State, w: nat, pc: Pc)
    requires Inv(s) && PcOk(s, pc)
    ensures Inv(At(s, w, pc))
  {
  }

  lemma PlaceOk(s: State, w: nat)
    requires Inv(s) && w in s.pcs
    ensures PcOk(s, s.pcs[w])
  {
  }

  lemma FailureKeeps(s: State, error: Error)
    requires Inv(s) && s.cursor < |s.ids|
    ensures Inv(s.(failures := s.failures + {(s.cursor, error)}))
  {
    assert forall w :: w in s.pcs ==> PcOk(s, s.pcs[w]);
  }

  lemma StepKeeps(s: State, e: Event)
    requires Inv(s)
    ensures Inv(Step(s, e))
    ensures Step(s, e).ids == s.ids && s.results <= Step(s, e).results && s.failures <= Step(s, e).failures
  {
    hide Inv;
    Shape(s);
    match e
    case Read(w) => PlaceKeeps(s, w, PcOf(Step(s, e), w));
    case Work(w, outcome) =>
      if PcOf(s, w).Holding? && !s.status.Completed? {
        PlaceOk(s, w);
        match outcome
        case Generated(i, existing) =>
          AdvancedKeeps(s, Made(i, existing));
          PlaceKeeps(Advanced(s, Made(i, existing)), w, Idle);
        case Invalid(error) =>
          FailureKeeps(s, error);
          PlaceKeeps(s.(failures := s.failures + {(s.cursor, error)}), w, Caught(PcOf(s, w).cursor, error));
        case Broken => PlaceKeeps(s, w, Idle);
      } else if PcOf(s, w).Holding? {
        PlaceKeeps(s, w, Idle);
      }
    case Record(w) =>
      if PcOf(s, w).Caught? {
        PlaceOk(s, w);
        if s.cursor == PcOf(s, w).cursor {
          AdvancedKeeps(s, Failed(PcOf(s, w).error));
          PlaceKeeps(Advanced(s, Failed(PcOf(s, w).error)), w, Idle);
        } else {
          PlaceKeeps(s, w, Idle);
        }
      }
    case Crash(w) => PlaceKeeps(s, w, Idle);
    case Touch(seen) => TouchKeeps(s, seen);
  }

  lemma TouchKeeps(s: State, seen: Status)
    requires Inv(s)
    ensures Inv(Step(s, Touch(seen)))
  {
    assert forall w :: w in s.pcs ==> PcOk(s, s.pcs[w]);
  }

  /** Whatever the workers do and wherever they stop, the run keeps its shape, never takes back a
      result, and never processes an item twice or skips one. */
  lemma {:induction false} EveryRun(ids: seq<nat>, events: seq<Event>)
    ensures Inv(Run(Start(ids), events)) && Run(Start(ids), events).ids == ids
    ensures forall n :: 0 <= n <= |events| ==> Run(Start(ids), events[..n]).results <= Run(Start(ids), events).results
  {
    if events != [] {
      var front := events[..|events| - 1];
      EveryRun(ids, front);
      StepKeeps(Run(Start(ids), front), events[|events| - 1]);
      forall n | 0 <= n <= |events|
        ensures Run(Start(ids), events[..n]).results <= Run(Start(ids), events).results
      {
        if n < |events| {
          assert front[..n] == events[..n];
        } else {
          assert events[..n] == events;
        }
      }
    } else {
      assert events[..0] == events;
    }
  }

  /** An error is recorded only for an item whose own generation failed with it: some earlier step of
      some worker generated exactly that item and got exactly that error. */
  lemma {:induction false} FailureHappened(ids: seq<nat>, events: seq<Event>, k: nat, error: Error)
    requires (k, error) in Run(Start(ids), events).failures
    ensures exists n: nat, w ::
              n < |events| && events[n] == Work(w, Invalid(error)) && Run(Start(ids), events[..n]).cursor == k
  {
    var front, e := events[..|events| - 1], events[|events| - 1];
    var s := Run(Start(ids), front);
    if (k, error) in s.failures {
      FailureHappened(ids, front, k, error);
      var n: nat, w :| n < |front| && front[n] == Work(w, Invalid(error)) && Run(Start(ids), front[..n]).cursor == k;
      assert front[..n] == events[..n];
    } else {
      assert events[|events| - 1] == Work(e.worker, Invalid(error)) && events[..|events| - 1] == front;
    }
  }

  lemma ErrorsAreReal(ids: seq<nat>, events: seq<Event>, k: nat)
    requires k < |Run(Start(ids), events).results| && Run(Start(ids), events).results[k].made.Failed?
    ensures exists n: nat, w :: n < |events| && Run(Start(ids), events[..n]).cursor == k
              && events[n] == Work(w, Invalid(Run(Start(ids), events).results[k].made.error))
  {
    EveryRun(ids, events);
    FailureHappened(ids, events, k, Run(Start(ids), events).results[k].made.error);
  }

  /** The row of the run and the workers on it. */
  class Batch {
    const ids: seq<nat>
    var cursor: nat
    var results: seq<Line>
    var status: Status
    var pcs: map<nat, Pc>
    ghost var failures: set<(nat, Error)>

    ghost function Now(): State reads this { State(ids, cursor, results, status, pcs, failures) }

    ghost predicate Valid() reads this { Inv(Now()) }

    constructor (ids: seq<nat>)
      ensures Valid() && Now() == Start(ids)
      ensures this.ids == ids && cursor == 0 && results == [] && status == (if ids == [] then Completed else Queued)
    {
      this.ids := ids;
      cursor, results, pcs, failures := 0, [], map[], {};
      status := if ids == [] then Completed else Queued;
    }

    /** Outside any transaction: find the run if it is still open. */
    method ReadRun(w: nat)
      requires Valid()
      modifies this
      ensures Valid() && Now() == Step(old(Now()), Read(w))
      ensures w in pcs && pcs[w] == if old(status).Completed? then Idle else Holding(old(cursor))
      ensures results == old(results) && cursor == old(cursor) && status == old(status)
    {
      StepKeeps(Now(), Read(w));
      if status == Completed {
        pcs := pcs[w := Idle];
      } else {
        pcs := pcs[w := Holding(cursor)];
      }
    }

    /** The serializable transaction that generates the next item. */
    method Generate(w: nat, outcome: Outcome) returns (finished: bool)
      requires Valid() && w in pcs && pcs[w].Holding?
      modifies this
      ensures Valid() && Now() == Step(old(Now()), Work(w, outcome))
      ensures finished <==> old(status).Completed? || (outcome.Generated? && cursor == |ids|)
      ensures old(status) != Completed && outcome.Generated? ==>
                && results == old(results) + [Line(ids[old(cursor)], Made(outcome.invoice, outcome.existing))]
                && cursor == old(cursor) + 1 && status == if cursor == |ids| then Completed else Running
      ensures old(status) == Completed || !outcome.Generated? ==>
                results == old(results) && cursor == old(cursor) && status == old(status)
      ensures pcs[w] == if old(status) != Completed && outcome.Invalid?
                        then Caught(old(pcs[w].cursor), outcome.error) else Idle
    {
      StepKeeps(Now(), Work(w, outcome));
      finished := false;
      var seen := pcs[w].cursor;
      if status == Completed {
        pcs := pcs[w := Idle];
        return true;
      }
      match outcome {
        case Generated(invoice, existing) =>
          results := results + [Line(ids[cursor], Made(invoice, existing))];
          status := if cursor + 1 == |ids| then Completed else Running;
          cursor := cursor + 1;
          finished := cursor == |ids|;
          pcs := pcs[w := Idle];
        case Invalid(error) =>
          failures := failures + {(cursor, error)};
          pcs := pcs[w := Caught(seen, error)];
        case Broken =>
          pcs := pcs[w := Idle];
      }
    }

    /** The transaction in the catch block: skip it if another worker moved the cursor meanwhile. */
    method RecordError(w: nat)
      requires Valid() && w in pcs && pcs[w].Caught?
      modifies this
      ensures Valid() && Now() == Step(old(Now()), Record(w)) && pcs[w] == Idle
      ensures if old(cursor) == old(pcs[w].cursor) then
                && cursor == old(cursor) + 1 <= |ids| && status == (if cursor == |ids| then Completed else Running)
                && results == old(results) + [Line(ids[old(cursor)], Failed(old(pcs[w].error)))]
              else cursor == old(cursor) && results == old(results) && status == old(status)
    {
      StepKeeps(Now(), Record(w));
      assert PcOk(Now(), pcs[w]);
      if cursor == pcs[w].cursor {
        results := results + [Line(ids[cursor], Failed(pcs[w].error))];
        status := if cursor + 1 == |ids| then Completed else Running;
        cursor := cursor + 1;
      }
      pcs := pcs[w := Idle];
    }

    /** The loop of `processRun` when no other worker interferes: each iteration settles one item, so
        the run is complete once as many iterations have run as there are items left. */
    method ProcessRun(w: nat, limit: nat, outcomes: seq<Outcome>)
      requires Valid() && |outcomes| == limit && forall k :: 0 <= k < limit ==> !outcomes[k].Broken?
      modifies this
      ensures Valid() && old(results) <= results
      ensures cursor == Min(|ids|, old(cursor) + limit)
      ensures forall k :: old(cursor) <= k < cursor ==> Settles(outcomes[k - old(cursor)], results[k].made)
    {
      hide Inv, Step;
      Shape(Now());
      for step := 0 to limit
        invariant Valid() && old(results) <= results && |results| == cursor == Min(|ids|, old(cursor) + step)
        invariant status.Completed? <==> cursor == |ids|
        invariant forall k :: old(cursor) <= k < cursor ==> Settles(outcomes[k - old(cursor)], results[k].made)
      {
        ghost var before := Now();
        OneRound(before, w, outcomes[step]);
        ReadRun(w);
        Shape(Now());
        if pcs[w] == Idle {
          return;
        }
        var finished := Generate(w, outcomes[step]);
        Shape(Now());
        if pcs[w].Caught? {
          RecordError(w);
          Shape(Now());
        }
        if finished {
          return;
        }
      }
    }
  }

  lemma Shape(s: State)
    requires Inv(s)
    ensures |s.results| == s.cursor <= |s.ids| && (s.status.Completed? <==> s.cursor == |s.ids|)
  {
  }

  /** The line that an outcome leaves behind. */
  ghost predicate Settles(outcome: Outcome, made: Made) {
    match outcome
    case Generated(i, existing) => made == Made(i, existing)
    case Invalid(error) => made == Failed(error)
    case Broken => false
  }

  /** One iteration adds one line, in one transaction or in two. */
  lemma OneRound(s: State, w: nat, outcome: Outcome)
    requires Inv(s) && !outcome.Broken?
    ensures var t := Step(s, Read(w));
            && w in t.pcs && (t.pcs[w].Idle? <==> s.status.Completed?) && (t.pcs[w].Idle? || t.pcs[w].Holding?)
            && t.results == s.results && t.cursor == s.cursor && t.ids == s.ids && t.status == s.status
    ensures !s.status.Completed? ==>
              var u := Step(Step(s, Read(w)), Work(w, outcome));
              var v := if outcome.Invalid? then Step(u, Record(w)) else u;
              && w in u.pcs && (u.pcs[w].Caught? <==> outcome.Invalid?)
              && v.ids == s.ids && |v.results| == |s.results| + 1 && s.results <= v.results
              && Settles(outcome, v.results[|s.results|].made)
  {
  }
}
