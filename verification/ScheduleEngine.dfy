/** `calculateSchedule` of construction.control.engine.ts: working dates, a forward pass and a backward pass. */
module ScheduleEngine {
  import opened Outcomes
  import opened Rounding
  import opened ScheduleGraph

  const HORIZON := 10001
  const SCAN := 75000

  datatype Calendar = Calendar(weekdays: set<nat>, holidays: set<int>)

  datatype Slot = Slot(task: Task, start: int, end: int, floatDays: int, critical: bool)

  datatype Plan = Plan(anchor: int, finish: int, slots: seq<Slot>)

  datatype Outcome = Planned(plan: Plan) | Refused(error: ScheduleError)

  /** Day 0 is a Thursday. */
  predicate IsWorkday(day: int, calendar: Calendar) {
    (day + 4) % 7 in calendar.weekdays && day !in calendar.holidays
  }

  ghost predicate Increasing(dates: seq<int>) {
    forall i, j :: 0 <= i < j < |dates| ==> dates[i] < dates[j]
  }

  /** The working days from the anchor on, as far as the scan goes. */
  ghost predicate WorkDays(anchor: int, calendar: Calendar, dates: seq<int>) {
    && Increasing(dates) && |dates| <= 10001
    && exists stop: int :: ScannedTo(anchor, calendar, dates, stop)
  }

  ghost predicate ScannedTo(anchor: int, calendar: Calendar, dates: seq<int>, stop: int) {
    && anchor <= stop <= anchor + 75000 && (|dates| == 10001 || stop == anchor + 75000)
    && forall d :: d in dates <==> anchor <= d < stop && IsWorkday(d, calendar)
  }

  /** Every seventh day is the same weekday: 1 January 1970 was a Thursday, weekday 4 after Sunday. */
  lemma WorkdayMeans(week: int, weekday: nat, calendar: Calendar)
    requires weekday < 7
    ensures var day := 7 * week + weekday - 4;
            IsWorkday(day, calendar) <==> weekday in calendar.weekdays && day !in calendar.holidays
  {
    assert (7 * week + weekday) % 7 == weekday;
  }

  method WorkDates(anchor: int, calendar: Calendar) returns (dates: seq<int>)
    ensures WorkDays(anchor, calendar, dates)
  {
    dates := [];
    var i := 0;
    while |dates| < HORIZON && i < SCAN
      invariant i <= SCAN && |dates| <= HORIZON
      invariant Increasing(dates)
      invariant forall d :: d in dates <==> anchor <= d < anchor + i && IsWorkday(d, calendar)
    {
      var day := anchor + i;
      if IsWorkday(day, calendar) {
        assert forall k :: 0 <= k < |dates| ==> dates[k] in dates;
        dates := dates + [day];
      }
      i := i + 1;
    }
    assert ScannedTo(anchor, calendar, dates, anchor + i);
  }

  /** The first working day that is not before `value`. */
  method Index(dates: seq<int>, value: int) returns (found: Option<nat>)
    requires Increasing(dates)
    ensures found.Some? ==> found.value < |dates|
    ensures found.Some? ==> forall s :: 0 <= s < |dates| ==> (dates[s] >= value <==> s >= found.value)
    ensures found.None? ==> forall s :: 0 <= s < |dates| ==> dates[s] < value
  {
    for i := 0 to |dates|
      invariant forall s :: 0 <= s < i ==> dates[s] < value
    {
      if dates[i] >= value {
        return Some(i);
      }
    }
    found := None;
  }

  /** How far after its predecessor's start a task must start. */
  function Offset(before: Task, after: Task, link: Link): int {
    match link.kind
    case FS => before.duration + link.lag
    case SS => link.lag
    case FF => before.duration - after.duration + link.lag
    case SF => link.lag - after.duration
  }

  function Release(task: Task, anchor: int): int {
    if task.notBefore.Some? && task.notBefore.value > anchor then task.notBefore.value else anchor
  }

  type Starts = map<Id, int>

  /** What a link asks of the starts s of a task and p of the one it waits for: an end or a start that lies
      `lag` working days after an end or a start. */
  ghost predicate LinkHolds(before: Task, p: int, after: Task, s: int, link: Link) {
    match link.kind
    case FS => s >= p + before.duration + link.lag
    case SS => s >= p + link.lag
    case FF => s + after.duration >= p + before.duration + link.lag
    case SF => s + after.duration >= p + link.lag
  }

  /** The offset of a link is exactly what it asks. */
  lemma OffsetMeans(before: Task, p: int, after: Task, s: int, link: Link)
    ensures LinkHolds(before, p, after, s, link) <==> s >= p + Offset(before, after, link)
  {
  }

  /** All links of t hold under the starts v. */
  ghost predicate LinksHold(m: map<Id, Task>, v: Starts, t: Task) {
    t.id in v && forall k :: 0 <= k < |t.links| ==>
      var p := t.links[k].task;
      p in v && p in m && LinkHolds(m[p], v[p], t, v[t.id], t.links[k])
  }

  /** t starts on a working day that is not before the anchor and its own date, and ends within the calendar. */
  ghost predicate Placed(dates: seq<int>, anchor: int, v: Starts, t: Task) {
    && t.id in v && 0 <= v[t.id] && v[t.id] + t.duration < |dates|
    && dates[v[t.id]] >= anchor && (t.notBefore.Some? ==> dates[v[t.id]] >= t.notBefore.value)
  }

  ghost predicate Feasible(tasks: seq<Task>, dates: seq<int>, anchor: int, v: Starts) {
    forall t :: t in tasks ==> Placed(dates, anchor, v, t) && LinksHold(ById(tasks), v, t)
  }

  ghost predicate EndsBy(tasks: seq<Task>, v: Starts, finish: int) {
    forall t :: t in tasks ==> t.id in v && v[t.id] + t.duration <= finish
  }

  ghost predicate Below(tasks: seq<Task>, v: Starts, w: Starts) {
    forall t :: t in tasks ==> t.id in v && t.id in w && v[t.id] <= w[t.id]
  }

  ghost predicate Prerequisites(tasks: seq<Task>, order: seq<Task>) {
    && UniqueIds(tasks) && UniqueIds(order) && Topological(order) && forall t :: t in order <==> t in tasks
  }

  // --- Forward pass ------------------------------------------------------------------------

  /** Every task that t waits for is placed. */
  ghost predicate LinksPlaced(m: map<Id, Task>, v: Starts, t: Task) {
    forall k :: 0 <= k < |t.links| ==> t.links[k].task in v && t.links[k].task in m
  }

  /** Starting t at s satisfies its links. */
  ghost predicate LinksAllow(m: map<Id, Task>, v: Starts, t: Task, s: int) {
    LinksPlaced(m, v, t) && forall k :: 0 <= k < |t.links| ==>
      var p := t.links[k].task; LinkHolds(m[p], v[p], t, s, t.links[k])
  }

  /** Something forces t to wait until s: its release, or one of its links. */
  ghost predicate Forced(m: map<Id, Task>, dates: seq<int>, anchor: int, v: Starts, t: Task, s: int) {
    || (forall x :: 0 <= x < |dates| && dates[x] >= Release(t, anchor) ==> s <= x)
    || (exists k :: 0 <= k < |t.links| && Binds(m, v, t, t.links[k], s))
  }

  ghost predicate Binds(m: map<Id, Task>, v: Starts, t: Task, link: Link, s: int) {
    link.task in v && link.task in m && s == v[link.task] + Offset(m[link.task], t, link)
  }

  /** The first n tasks of the order are placed, each as early as its links allow. */
  ghost predicate ForwardDone(m: map<Id, Task>, order: seq<Task>, n: nat, dates: seq<int>, anchor: int, v: Starts)
    requires n <= |order|
  {
    && (forall i :: 0 <= i < |order| ==> (order[i].id in v <==> i < n))
    && (forall i :: 0 <= i < n ==>
          && Placed(dates, anchor, v, order[i]) && LinksHold(m, v, order[i])
          && Forced(m, dates, anchor, v, order[i], v[order[i].id]))
  }

  /** No feasible schedule starts a task before something forces it to wait. */
  lemma ForcedBound(m: map<Id, Task>, dates: seq<int>, anchor: int, v: Starts, w: Starts, t: Task, s: int)
    requires Forced(m, dates, anchor, v, t, s) && Placed(dates, anchor, w, t) && LinksHold(m, w, t)
    requires forall k :: 0 <= k < |t.links| && t.links[k].task in v ==> v[t.links[k].task] <= w[t.links[k].task]
    ensures s <= w[t.id]
  {
    if exists k :: 0 <= k < |t.links| && Binds(m, v, t, t.links[k], s) {
      var k :| 0 <= k < |t.links| && Binds(m, v, t, t.links[k], s);
      assert v[t.links[k].task] <= w[t.links[k].task];
    }
  }

  /** Hence no feasible schedule starts any placed task earlier. */
  lemma {:induction false} ForwardBound(tasks: seq<Task>, order: seq<Task>, n: nat, dates: seq<int>, anchor: int,
                                        v: Starts, w: Starts, i: nat)
    requires Prerequisites(tasks, order) && i < n <= |order| && ForwardDone(ById(tasks), order, n, dates, anchor, v)
    requires Feasible(tasks, dates, anchor, w)
    ensures order[i].id in w && v[order[i].id] <= w[order[i].id]
    decreases i
  {
    var t := order[i];
    assert t in tasks;
    LinksBound(tasks, order, n, dates, anchor, v, w, i);
    ForcedBound(ById(tasks), dates, anchor, v, w, t, v[t.id]);
  }

  lemma {:induction false} LinksBound(tasks: seq<Task>, order: seq<Task>, n: nat, dates: seq<int>, anchor: int,
                                      v: Starts, w: Starts, i: nat)
    requires Prerequisites(tasks, order) && i <= n <= |order| && i < |order|
             && ForwardDone(ById(tasks), order, n, dates, anchor, v)
    requires Feasible(tasks, dates, anchor, w)
    ensures forall k :: 0 <= k < |order[i].links| ==>
              var p := order[i].links[k].task; p in v && p in w && v[p] <= w[p]
    decreases i, 0
  {
    forall k | 0 <= k < |order[i].links|
      ensures var p := order[i].links[k].task; p in v && p in w && v[p] <= w[p]
    {
      assert InFirst(order, i, order[i].links[k].task);
      var j :| 0 <= j < i && order[j].id == order[i].links[k].task;
      ForwardBound(tasks, order, n, dates, anchor, v, w, j);
    }
  }

  lemma EarlierPlaced(tasks: seq<Task>, order: seq<Task>, n: nat, dates: seq<int>, anchor: int, v: Starts)
    requires Prerequisites(tasks, order) && n < |order| && ForwardDone(ById(tasks), order, n, dates, anchor, v)
    ensures LinksPlaced(ById(tasks), v, order[n]) && order[n].id !in v
  {
    forall k | 0 <= k < |order[n].links|
      ensures order[n].links[k].task in v && order[n].links[k].task in ById(tasks)
    {
      assert InFirst(order, n, order[n].links[k].task);
      var j :| 0 <= j < n && order[j].id == order[n].links[k].task;
      assert order[j] in tasks;
      ByIdHolds(tasks);
    }
  }

  /** The latest of a task's release and what its links ask. */
  method StartOf(task: Task, m: map<Id, Task>, dates: seq<int>, anchor: int, v: Starts) returns (start: Option<nat>)
    requires Increasing(dates) && LinksPlaced(m, v, task)
    ensures start.Some? ==> Forced(m, dates, anchor, v, task, start.value)
    ensures start.Some? && start.value < |dates| ==> dates[start.value] >= Release(task, anchor)
    ensures start.Some? ==> LinksAllow(m, v, task, start.value)
    ensures start.None? ==> forall s :: 0 <= s < |dates| ==> dates[s] < Release(task, anchor)
  {
    var first := Index(dates, Release(task, anchor));
    if first.None? {
      return None;
    }
    var s: nat := first.value;
    for k := 0 to |task.links|
      invariant s >= first.value && Forced(m, dates, anchor, v, task, s)
      invariant forall i :: 0 <= i < k ==>
                  var p := task.links[i].task; s >= v[p] + Offset(m[p], task, task.links[i])
    {
      var link := task.links[k];
      var asked := v[link.task] + Offset(m[link.task], task, link);
      assert Binds(m, v, task, link, asked);
      s := Max(s, asked);
    }
    start := Some(s);
  }

  lemma StillPlaced(m: map<Id, Task>, dates: seq<int>, anchor: int, v: Starts, id: Id, s: int, t: Task)
    requires id !in v && Placed(dates, anchor, v, t) && LinksHold(m, v, t)
    ensures Placed(dates, anchor, v[id := s], t) && LinksHold(m, v[id := s], t)
  {
  }

  lemma NowPlaced(m: map<Id, Task>, dates: seq<int>, anchor: int, v: Starts, t: Task, s: nat)
    requires t.id !in v && LinksAllow(m, v, t, s)
    requires s + t.duration < |dates| && dates[s] >= Release(t, anchor)
    ensures Placed(dates, anchor, v[t.id := s], t) && LinksHold(m, v[t.id := s], t)
  {
  }

  lemma ForwardStep(m: map<Id, Task>, order: seq<Task>, n: nat, dates: seq<int>, anchor: int, v: Starts, s: nat)
    requires UniqueIds(order) && n < |order| && ForwardDone(m, order, n, dates, anchor, v)
    requires s + order[n].duration < |dates| && dates[s] >= Release(order[n], anchor)
    requires LinksAllow(m, v, order[n], s) && Forced(m, dates, anchor, v, order[n], s)
    ensures ForwardDone(m, order, n + 1, dates, anchor, v[order[n].id := s])
  {
    hide Forced, Placed, LinksHold, LinksAllow;
    var v' := v[order[n].id := s];
    assert order[n].id !in v;
    forall i | 0 <= i < n + 1
      ensures Placed(dates, anchor, v', order[i]) && LinksHold(m, v', order[i])
      ensures Forced(m, dates, anchor, v', order[i], v'[order[i].id])
    {
      if i < n {
        StillPlaced(m, dates, anchor, v, order[n].id, s, order[i]);
        StillForced(m, dates, anchor, v, order[n].id, s, order[i], v[order[i].id]);
      } else {
        NowPlaced(m, dates, anchor, v, order[n], s);
        StillForced(m, dates, anchor, v, order[n].id, s, order[n], s);
      }
    }
  }

  lemma StillForced(m: map<Id, Task>, dates: seq<int>, anchor: int, v: Starts, id: Id, start: int, t: Task, s: int)
    requires id !in v && Forced(m, dates, anchor, v, t, s)
    ensures Forced(m, dates, anchor, v[id := start], t, s)
  {
    if exists k :: 0 <= k < |t.links| && Binds(m, v, t, t.links[k], s) {
      var k :| 0 <= k < |t.links| && Binds(m, v, t, t.links[k], s);
      assert Binds(m, v[id := start], t, t.links[k], s);
    }
  }

  /** A feasible schedule exists only if the next task still fits where it is forced to wait. */
  lemma NextFits(tasks: seq<Task>, order: seq<Task>, n: nat, dates: seq<int>, anchor: int, v: Starts, s: int, w: Starts)
    requires Prerequisites(tasks, order) && n < |order| && ForwardDone(ById(tasks), order, n, dates, anchor, v)
    requires Forced(ById(tasks), dates, anchor, v, order[n], s) && Feasible(tasks, dates, anchor, w)
    ensures s + order[n].duration < |dates|
  {
    assert order[n] in tasks;
    LinksBound(tasks, order, n, dates, anchor, v, w, n);
    ForcedBound(ById(tasks), dates, anchor, v, w, order[n], s);
  }

  lemma NeverReleased(tasks: seq<Task>, order: seq<Task>, n: nat, dates: seq<int>, anchor: int, w: Starts)
    requires Prerequisites(tasks, order) && n < |order| && Feasible(tasks, dates, anchor, w)
    ensures exists s :: 0 <= s < |dates| && dates[s] >= Release(order[n], anchor)
  {
    assert order[n] in tasks;
  }

  ghost predicate LastEnd(order: seq<Task>, n: nat, v: Starts, finish: nat)
    requires n <= |order|
  {
    && (forall i :: 0 <= i < n ==> order[i].id in v && v[order[i].id] + order[i].duration <= finish)
    && (n > 0 ==> exists i :: 0 <= i < n && order[i].id in v && v[order[i].id] + order[i].duration == finish)
  }

  lemma LastEndStep(order: seq<Task>, n: nat, v: Starts, finish: nat, s: nat)
    requires n < |order| && LastEnd(order, n, v, finish) && order[n].id !in v
    requires n == 0 ==> finish == 0
    ensures LastEnd(order, n + 1, v[order[n].id := s], Max(finish, s + order[n].duration))
  {
    var v', end := v[order[n].id := s], s + order[n].duration;
    if n > 0 && finish > end {
      var i :| 0 <= i < n && order[i].id in v && v[order[i].id] + order[i].duration == finish;
      assert order[i].id in v' && v'[order[i].id] + order[i].duration == finish;
    } else {
      assert order[n].id in v' && v'[order[n].id] + order[n].duration == end;
    }
  }

  /** v is the pointwise least feasible schedule, and finish is where its last task ends. */
  ghost predicate Earliest(tasks: seq<Task>, dates: seq<int>, anchor: int, v: Starts, finish: int) {
    && Feasible(tasks, dates, anchor, v)
    && (forall w :: Feasible(tasks, dates, anchor, w) ==> Below(tasks, v, w))
    && EndsBy(tasks, v, finish) && finish < |dates|
    && exists t :: t in tasks && v[t.id] + t.duration == finish
  }

  /** The forward pass finds the earliest feasible schedule, or shows that there is none. */
  method Forward(tasks: seq<Task>, order: seq<Task>, dates: seq<int>, anchor: int) returns (starts: Option<Starts>,
        finish: nat)
    requires Prerequisites(tasks, order) && Increasing(dates) && tasks != []
    ensures starts.None? ==> forall w :: !Feasible(tasks, dates, anchor, w)
    ensures starts.Some? ==> Earliest(tasks, dates, anchor, starts.value, finish)
  {
    hide Forced, Feasible, ForwardDone, LastEnd, Prerequisites, Earliest, LinksAllow, LinksPlaced, UniqueIds, ById;
    var m := ById(tasks);
    var v: Starts := map[];
    finish := 0;
    ForwardFirst(tasks, order, dates, anchor);
    for n := 0 to |order|
      invariant ForwardDone(m, order, n, dates, anchor, v) && LastEnd(order, n, v, finish)
      invariant n == 0 ==> finish == 0
    {
      EarlierPlaced(tasks, order, n, dates, anchor, v);
      var start := StartOf(order[n], m, dates, anchor, v);
      if start.None? || start.value + order[n].duration >= |dates| {
        forall w | Feasible(tasks, dates, anchor, w)
          ensures false
        {
          NeverReleased(tasks, order, n, dates, anchor, w);
          if start.Some? {
            NextFits(tasks, order, n, dates, anchor, v, start.value, w);
          }
        }
        return None, finish;
      }
      OrderUnique(tasks, order);
      ForwardStep(m, order, n, dates, anchor, v, start.value);
      LastEndStep(order, n, v, finish, start.value);
      v := v[order[n].id := start.value];
      finish := Max(finish, start.value + order[n].duration);
    }
    ForwardLast(tasks, order, dates, anchor, v, finish);
    starts := Some(v);
  }

  lemma OrderUnique(tasks: seq<Task>, order: seq<Task>)
    requires Prerequisites(tasks, order)
    ensures UniqueIds(order)
  {
  }

  lemma ForwardFirst(tasks: seq<Task>, order: seq<Task>, dates: seq<int>, anchor: int)
    ensures ForwardDone(ById(tasks), order, 0, dates, anchor, map[]) && LastEnd(order, 0, map[], 0)
  {
  }

  lemma ForwardLast(tasks: seq<Task>, order: seq<Task>, dates: seq<int>, anchor: int, v: Starts, finish: nat)
    requires Prerequisites(tasks, order) && tasks != []
    requires ForwardDone(ById(tasks), order, |order|, dates, anchor, v) && LastEnd(order, |order|, v, finish)
    ensures Earliest(tasks, dates, anchor, v, finish)
  {
    hide Topological, Forced, UniqueIds;
    assert tasks[0] in order;
    var i :| 0 <= i < |order| && order[i].id in v && v[order[i].id] + order[i].duration == finish;
    assert order[i] in tasks && Placed(dates, anchor, v, order[i]);
    forall w, t | Feasible(tasks, dates, anchor, w) && t in tasks
      ensures t.id in v && t.id in w && v[t.id] <= w[t.id]
    {
      assert t in order;
      var j :| 0 <= j < |order| && order[j] == t;
      ForwardBound(tasks, order, |order|, dates, anchor, v, w, j);
    }
    forall t | t in tasks
      ensures Placed(dates, anchor, v, t) && LinksHold(ById(tasks), v, t) && v[t.id] + t.duration <= finish
    {
      assert t in order;
      var j :| 0 <= j < |order| && order[j] == t;
    }
  }

  // --- Backward pass -----------------------------------------------------------------------

  /** Tasks from place n on have their latest start: as late as their successors and the finish allow. */
  ghost predicate BackwardDone(tasks: seq<Task>, order: seq<Task>, n: nat, finish: int, latest: Starts)
    requires n <= |order|
  {
    && (forall i :: 0 <= i < |order| ==> (order[i].id in latest <==> n <= i))
    && (forall i :: n <= i < |order| ==>
          && AllowsSuccessors(tasks, latest, order[i], latest[order[i].id])
          && latest[order[i].id] + order[i].duration <= finish
          && Capped(tasks, finish, latest, order[i], latest[order[i].id]))
  }

  /** Starting t at s leaves every task that waits for t where it is. */
  ghost predicate AllowsSuccessors(tasks: seq<Task>, v: Starts, t: Task, s: int) {
    forall a, k :: 0 <= a < |tasks| && 0 <= k < |tasks[a].links| && tasks[a].links[k].task == t.id ==>
      tasks[a].id in v && s <= v[tasks[a].id] - Offset(t, tasks[a], tasks[a].links[k])
  }

  /** Something keeps t from starting after s: the finish, or a task that waits for it. */
  ghost predicate Capped(tasks: seq<Task>, finish: int, v: Starts, t: Task, s: int) {
    || s == finish - t.duration
    || exists a, k :: 0 <= a < |tasks| && 0 <= k < |tasks[a].links| && Caps(tasks[a], tasks[a].links[k], v, t, s)
  }

  ghost predicate Caps(after: Task, link: Link, v: Starts, t: Task, s: int) {
    link.task == t.id && after.id in v && s == v[after.id] - Offset(t, after, link)
  }

  /** The inner loops of the backward pass. */
  method LatestOf(tasks: seq<Task>, task: Task, finish: int, latest: Starts) returns (last: int)
    requires forall a, k :: 0 <= a < |tasks| && 0 <= k < |tasks[a].links| && tasks[a].links[k].task == task.id ==>
               tasks[a].id in latest
    ensures last + task.duration <= finish && AllowsSuccessors(tasks, latest, task, last)
    ensures Capped(tasks, finish, latest, task, last)
  {
    last := finish - task.duration;
    for a := 0 to |tasks|
      invariant last <= finish - task.duration && Capped(tasks, finish, latest, task, last)
      invariant AllowsSuccessors(tasks[..a], latest, task, last)
    {
      var after := tasks[a];
      for k := 0 to |after.links|
        invariant last <= finish - task.duration && Capped(tasks, finish, latest, task, last)
        invariant AllowsSuccessors(tasks[..a], latest, task, last)
        invariant forall i :: 0 <= i < k && after.links[i].task == task.id ==>
                    last <= latest[after.id] - Offset(task, after, after.links[i])
      {
        if after.links[k].task == task.id {
          var cap := latest[after.id] - Offset(task, after, after.links[k]);
          assert Caps(tasks[a], tasks[a].links[k], latest, task, cap);
          last := Min(last, cap);
        }
      }
      assert forall b :: 0 <= b < a ==> tasks[..a + 1][b] == tasks[..a][b];
    }
    assert tasks[..|tasks|] == tasks;
  }

  /** Every task that waits for the one at place n comes after it in the order. */
  lemma SuccessorsLater(tasks: seq<Task>, order: seq<Task>, n: nat, finish: int, latest: Starts)
    requires Prerequisites(tasks, order) && n < |order| && BackwardDone(tasks, order, n + 1, finish, latest)
    ensures forall a, k :: 0 <= a < |tasks| && 0 <= k < |tasks[a].links| && tasks[a].links[k].task == order[n].id ==>
              tasks[a].id in latest
  {
    forall a, k | 0 <= a < |tasks| && 0 <= k < |tasks[a].links| && tasks[a].links[k].task == order[n].id
      ensures tasks[a].id in latest
    {
      assert tasks[a] in order;
      var i :| 0 <= i < |order| && order[i] == tasks[a];
      assert InFirst(order, i, order[i].links[k].task);
      var j :| 0 <= j < i && order[j].id == order[n].id;
    }
  }

  lemma StillCapped(tasks: seq<Task>, finish: int, v: Starts, id: Id, start: int, t: Task, s: int)
    requires id !in v && Capped(tasks, finish, v, t, s) && AllowsSuccessors(tasks, v, t, s)
    ensures Capped(tasks, finish, v[id := start], t, s) && AllowsSuccessors(tasks, v[id := start], t, s)
  {
    if s != finish - t.duration {
      var a, k :| 0 <= a < |tasks| && 0 <= k < |tasks[a].links| && Caps(tasks[a], tasks[a].links[k], v, t, s);
      assert Caps(tasks[a], tasks[a].links[k], v[id := start], t, s);
    }
  }

  lemma BackwardStep(tasks: seq<Task>, order: seq<Task>, n: nat, finish: int, latest: Starts, last: int)
    requires UniqueIds(order) && n < |order| && BackwardDone(tasks, order, n + 1, finish, latest)
    requires last + order[n].duration <= finish && AllowsSuccessors(tasks, latest, order[n], last)
    requires Capped(tasks, finish, latest, order[n], last)
    ensures BackwardDone(tasks, order, n, finish, latest[order[n].id := last])
  {
    hide AllowsSuccessors, Capped;
    var v := latest[order[n].id := last];
    forall i | n <= i < |order|
      ensures AllowsSuccessors(tasks, v, order[i], v[order[i].id]) && Capped(tasks, finish, v, order[i], v[order[i].id])
    {
      StillCapped(tasks, finish, latest, order[n].id, last, order[i], if i == n then last else latest[order[i].id]);
    }
  }

  /** The schedule v ends by the finish and keeps every link. */
  ghost predicate OnTime(tasks: seq<Task>, v: Starts, finish: int) {
    EndsBy(tasks, v, finish) && forall t :: t in tasks ==> LinksHold(ById(tasks), v, t)
  }

  /** No schedule that is on time starts a task later than something caps it. */
  lemma {:induction false} BackwardBound(tasks: seq<Task>, order: seq<Task>, n: nat, finish: int, latest: Starts,
                                         w: Starts, i: nat)
    requires Prerequisites(tasks, order) && n <= i < |order| && BackwardDone(tasks, order, n, finish, latest)
    requires OnTime(tasks, w, finish)
    ensures order[i].id in w && w[order[i].id] <= latest[order[i].id]
    decreases |order| - i
  {
    hide Offset, LinkHolds;
    var t := order[i];
    assert t in tasks;
    if latest[t.id] != finish - t.duration {
      var a, k :| 0 <= a < |tasks| && 0 <= k < |tasks[a].links|
                  && Caps(tasks[a], tasks[a].links[k], latest, t, latest[t.id]);
      var after := tasks[a];
      assert after in order;
      var j :| 0 <= j < |order| && order[j] == after;
      assert InFirst(order, j, order[j].links[k].task);
      BackwardBound(tasks, order, n, finish, latest, w, j);
      assert LinksHold(ById(tasks), w, after);
      ByIdHolds(tasks);
      OffsetMeans(t, w[t.id], after, w[after.id], after.links[k]);
    }
  }

  /** v is the pointwise greatest schedule that is on time. */
  ghost predicate Latest(tasks: seq<Task>, v: Starts, finish: int) {
    OnTime(tasks, v, finish) && forall w :: OnTime(tasks, w, finish) ==> Below(tasks, w, v)
  }

  method Backward(tasks: seq<Task>, order: seq<Task>, finish: int) returns (latest: Starts)
    requires Prerequisites(tasks, order)
    ensures Latest(tasks, latest, finish)
  {
    hide AllowsSuccessors, Capped, BackwardDone, Prerequisites, Latest, UniqueIds;
    latest := map[];
    BackwardFirst(tasks, order, finish);
    for n := |order| downto 0
      invariant BackwardDone(tasks, order, n, finish, latest)
    {
      SuccessorsLater(tasks, order, n, finish, latest);
      OrderUnique(tasks, order);
      var last := LatestOf(tasks, order[n], finish, latest);
      BackwardStep(tasks, order, n, finish, latest, last);
      latest := latest[order[n].id := last];
    }
    BackwardLast(tasks, order, finish, latest);
  }

  lemma BackwardFirst(tasks: seq<Task>, order: seq<Task>, finish: int)
    ensures BackwardDone(tasks, order, |order|, finish, map[])
  {
  }

  lemma BackwardLast(tasks: seq<Task>, order: seq<Task>, finish: int, latest: Starts)
    requires Prerequisites(tasks, order) && BackwardDone(tasks, order, 0, finish, latest)
    ensures Latest(tasks, latest, finish)
  {
    hide Capped, UniqueIds;
    forall t | t in tasks
      ensures t.id in latest && latest[t.id] + t.duration <= finish
    {
      assert t in order;
      var i :| 0 <= i < |order| && order[i] == t;
    }
    forall t | t in tasks
      ensures LinksHold(ById(tasks), latest, t)
    {
      BackwardLinks(tasks, order, finish, latest, t);
    }
    forall w, t | OnTime(tasks, w, finish) && t in tasks
      ensures t.id in w && t.id in latest && w[t.id] <= latest[t.id]
    {
      assert t in order;
      var i :| 0 <= i < |order| && order[i] == t;
      BackwardBound(tasks, order, 0, finish, latest, w, i);
    }
  }

  lemma PlaceOfLink(tasks: seq<Task>, order: seq<Task>, t: Task, k: nat) returns (p: Task)
    requires Prerequisites(tasks, order) && t in tasks && k < |t.links|
    ensures p in tasks && p in order && p.id == t.links[k].task && t.links[k].task in ById(tasks)
    ensures ById(tasks)[t.links[k].task] == p
  {
    assert t in order;
    var i :| 0 <= i < |order| && order[i] == t;
    assert InFirst(order, i, order[i].links[k].task);
    var j :| 0 <= j < i && order[j].id == t.links[k].task;
    p := order[j];
    ByIdHolds(tasks);
  }

  lemma BackwardLinks(tasks: seq<Task>, order: seq<Task>, finish: int, latest: Starts, t: Task)
    requires Prerequisites(tasks, order) && BackwardDone(tasks, order, 0, finish, latest) && t in tasks
    ensures LinksHold(ById(tasks), latest, t)
  {
    hide Capped, Topological, UniqueIds, ById;
    assert t in order;
    var a :| 0 <= a < |tasks| && tasks[a] == t;
    forall k | 0 <= k < |t.links|
      ensures var p := t.links[k].task;
              p in latest && p in ById(tasks) && latest[t.id] >= latest[p] + Offset(ById(tasks)[p], t, t.links[k])
    {
      var p := PlaceOfLink(tasks, order, t, k);
      assert AllowsSuccessors(tasks, latest, p, latest[p.id]);
      assert tasks[a].links[k].task == p.id;
    }
  }

  // --- Float -------------------------------------------------------------------------------

  /** A schedule that respects releases, links, the calendar and the finish. */
  ghost predicate Acceptable(tasks: seq<Task>, dates: seq<int>, anchor: int, v: Starts, finish: int) {
    Feasible(tasks, dates, anchor, v) && EndsBy(tasks, v, finish)
  }

  /** The latest starts are themselves an acceptable schedule, and no float is negative. */
  lemma LatestAcceptable(tasks: seq<Task>, dates: seq<int>, anchor: int, starts: Starts, latest: Starts, finish: int)
    requires Increasing(dates)
    requires Earliest(tasks, dates, anchor, starts, finish) && Latest(tasks, latest, finish)
    ensures Below(tasks, starts, latest) && Acceptable(tasks, dates, anchor, latest, finish)
  {
    assert OnTime(tasks, starts, finish);
    forall t | t in tasks
      ensures Placed(dates, anchor, latest, t)
    {
      assert Placed(dates, anchor, starts, t);
      assert starts[t.id] <= latest[t.id];
    }
  }

  /** At least one task is critical. */
  lemma SomeCritical(tasks: seq<Task>, dates: seq<int>, anchor: int, starts: Starts, latest: Starts, finish: int)
    requires Increasing(dates)
    requires Earliest(tasks, dates, anchor, starts, finish) && Latest(tasks, latest, finish)
    ensures exists t :: t in tasks && t.id in starts && t.id in latest && latest[t.id] == starts[t.id]
  {
    LatestAcceptable(tasks, dates, anchor, starts, latest, finish);
    var t :| t in tasks && starts[t.id] + t.duration == finish;
    assert latest[t.id] == starts[t.id];
  }

  /** The schedule that starts everything d days later, but nothing after its latest start. */
  ghost function Delayed(starts: Starts, latest: Starts, d: nat): Starts {
    map id | id in starts && id in latest :: Min(latest[id], starts[id] + d)
  }

  lemma DelayedLinks(m: map<Id, Task>, starts: Starts, latest: Starts, d: nat, t: Task)
    requires LinksHold(m, starts, t) && LinksHold(m, latest, t)
    ensures LinksHold(m, Delayed(starts, latest, d), t)
  {
    var v := Delayed(starts, latest, d);
    forall k | 0 <= k < |t.links|
      ensures var p := t.links[k].task; p in v && p in m && v[t.id] >= v[p] + Offset(m[p], t, t.links[k])
    {
      var p := t.links[k].task;
      assert starts[t.id] >= starts[p] + Offset(m[p], t, t.links[k]);
      assert latest[t.id] >= latest[p] + Offset(m[p], t, t.links[k]);
    }
  }

  lemma DelayedAcceptable(tasks: seq<Task>, dates: seq<int>, anchor: int, starts: Starts, latest: Starts, finish: int,
                          d: nat)
    requires Increasing(dates)
    requires Earliest(tasks, dates, anchor, starts, finish) && Latest(tasks, latest, finish)
    ensures Acceptable(tasks, dates, anchor, Delayed(starts, latest, d), finish)
  {
    hide LinksHold, ById;
    var v := Delayed(starts, latest, d);
    LatestAcceptable(tasks, dates, anchor, starts, latest, finish);
    forall t | t in tasks
      ensures Placed(dates, anchor, v, t) && LinksHold(ById(tasks), v, t) && v[t.id] + t.duration <= finish
    {
      assert Placed(dates, anchor, starts, t) && Placed(dates, anchor, latest, t);
      DelayedLinks(ById(tasks), starts, latest, d, t);
    }
  }

  /** Float is exact: some acceptable schedule starts the task at s if and only if s lies between its
      earliest and its latest start. Past that, the finish moves. */
  lemma FloatExact(tasks: seq<Task>, dates: seq<int>, anchor: int, starts: Starts, latest: Starts, finish: int,
                   t: Task, s: int)
    requires Increasing(dates) && t in tasks
    requires Earliest(tasks, dates, anchor, starts, finish) && Latest(tasks, latest, finish)
    ensures t.id in starts && t.id in latest
    ensures (exists v :: StartsAt(tasks, dates, anchor, v, finish, t, s)) <==> starts[t.id] <= s <= latest[t.id]
  {
    hide LinksHold, ById, Placed;
    LatestAcceptable(tasks, dates, anchor, starts, latest, finish);
    forall v | StartsAt(tasks, dates, anchor, v, finish, t, s)
      ensures starts[t.id] <= s <= latest[t.id]
    {
      assert OnTime(tasks, v, finish);
      assert Below(tasks, starts, v) && Below(tasks, v, latest);
    }
    if starts[t.id] <= s <= latest[t.id] {
      var d := s - starts[t.id];
      DelayedAcceptable(tasks, dates, anchor, starts, latest, finish, d);
      assert StartsAt(tasks, dates, anchor, Delayed(starts, latest, d), finish, t, s);
    }
  }

  /** v is acceptable and starts t at s. */
  ghost predicate StartsAt(tasks: seq<Task>, dates: seq<int>, anchor: int, v: Starts, finish: int, t: Task, s: int) {
    Acceptable(tasks, dates, anchor, v, finish) && t.id in v && v[t.id] == s
  }

  // --- The whole calculation ---------------------------------------------------------------

  /** What the plan reports is the earliest schedule, with the latest one behind its floats. */
  ghost predicate IsPlan(tasks: seq<Task>, dates: seq<int>, anchor: int, plan: Plan) {
    exists starts, latest, finish :: PlanFrom(tasks, dates, anchor, plan, starts, latest, finish)
  }

  ghost predicate PlanFrom(tasks: seq<Task>, dates: seq<int>, anchor: int, plan: Plan, starts: Starts, latest: Starts,
                           finish: nat) {
    && Earliest(tasks, dates, anchor, starts, finish) && Latest(tasks, latest, finish)
    && 0 < |dates| && plan.anchor == dates[0]
    && plan.finish == (if finish > 0 then dates[finish - 1] else dates[0])
    && |plan.slots| == |tasks|
    && forall i :: 0 <= i < |tasks| ==> IsSlot(dates, plan.slots[i], tasks[i], starts, latest)
  }

  ghost predicate IsSlot(dates: seq<int>, slot: Slot, t: Task, starts: Starts, latest: Starts) {
    && t.id in starts && t.id in latest
    && 0 <= starts[t.id] && t.duration > 0 && starts[t.id] + t.duration <= |dates|
    && slot == Slot(t, dates[starts[t.id]], dates[starts[t.id] + t.duration - 1],
                    latest[t.id] - starts[t.id], latest[t.id] == starts[t.id])
  }

  method CalculateSchedule(anchor: int, tasks: seq<Task>, calendar: Calendar) returns (r: Outcome,
        ghost dates: seq<int>)
    requires tasks != [] && forall t :: t in tasks ==> t.duration > 0
    ensures calendar.weekdays == {} ==> r == Refused(NoWeekday)
    ensures calendar.weekdays != {} ==>
              && WorkDays(anchor, calendar, dates)
              && (r == Refused(Repeated) <==> !UniqueIds(tasks))
              && (UniqueIds(tasks) ==>
                    ((r == Refused(Cycle) || r == Refused(Missing))
                        <==> (Cyclic(ById(tasks)) || LinkMissing(ById(tasks)))))
              && (r == Refused(Cycle) ==> Cyclic(ById(tasks)))
              && (r == Refused(Missing) ==> LinkMissing(ById(tasks)))
              && (r == Refused(Horizon) ==> forall w :: !Feasible(tasks, dates, anchor, w))
              && (r.Planned? ==> IsPlan(tasks, dates, anchor, r.plan))
              && r != Refused(NoWeekday)
  {
    hide Topological, Cyclic, LinkMissing, Earliest, Latest, Feasible, ById, UniqueIds;
    dates := [];
    if calendar.weekdays == {} {
      return Refused(NoWeekday), dates;
    }
    var days := WorkDates(anchor, calendar);
    dates := days;
    var repeated := HasRepeats(tasks);
    if repeated {
      return Refused(Repeated), dates;
    }
    var ordered, error := OrderTasks(tasks);
    if error.Some? {
      return Refused(error.value), dates;
    }
    var order := ordered.value;
    var starts, finish := Forward(tasks, order, days, anchor);
    if starts.None? {
      return Refused(Horizon), dates;
    }
    var latest := Backward(tasks, order, finish);
    var slots := [];
    for i := 0 to |tasks|
      invariant |slots| == i && forall j :: 0 <= j < i ==> IsSlot(days, slots[j], tasks[j], starts.value, latest)
    {
      var t := tasks[i];
      SlotDefined(tasks, days, anchor, starts.value, latest, finish, t);
      var s := starts.value[t.id];
      slots := slots + [Slot(t, days[s], days[s + t.duration - 1], latest[t.id] - s, latest[t.id] == s)];
    }
    SlotDefined(tasks, days, anchor, starts.value, latest, finish, tasks[0]);
    var plan := Plan(days[0], if finish > 0 then days[finish - 1] else days[0], slots);
    assert PlanFrom(tasks, days, anchor, plan, starts.value, latest, finish);
    r := Planned(plan);
  }

  lemma SlotDefined(tasks: seq<Task>, dates: seq<int>, anchor: int, starts: Starts, latest: Starts, finish: nat,
                    t: Task)
    requires t in tasks && Earliest(tasks, dates, anchor, starts, finish) && Latest(tasks, latest, finish)
    ensures t.id in starts && t.id in latest && 0 <= starts[t.id] && starts[t.id] + t.duration < |dates|
        && finish < |dates|
  {
  }

  /** A map keyed by task id is smaller than the list exactly when an id repeats. */
  method HasRepeats(tasks: seq<Task>) returns (repeated: bool)
    ensures repeated <==> !UniqueIds(tasks)
  {
    var seen: set<Id> := {};
    for i := 0 to |tasks|
      invariant forall id :: id in seen <==> exists j :: 0 <= j < i && tasks[j].id == id
      invariant UniqueIds(tasks[..i])
    {
      if tasks[i].id in seen {
        return true;
      }
      seen := seen + {tasks[i].id};
    }
    assert tasks[..|tasks|] == tasks;
    repeated := false;
  }
}
