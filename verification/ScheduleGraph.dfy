/** The depth-first task ordering of construction.control.engine.ts, with its cycle detection. */
module ScheduleGraph {
  import opened Outcomes

  /** Task ids are opaque. */
  type Id = nat

  datatype LinkType = FS | SS | FF | SF

  datatype Link = Link(task: Id, kind: LinkType, lag: int)

  datatype Task = Task(id: Id, duration: nat, notBefore: Option<int>, links: seq<Link>)

  datatype ScheduleError = NoWeekday | Repeated | Cycle | Missing | Horizon

  predicate UniqueIds(tasks: seq<Task>) {
    forall i, j :: 0 <= i < j < |tasks| ==> tasks[i].id != tasks[j].id
  }

  function ById(tasks: seq<Task>): map<Id, Task> {
    if tasks == [] then map[] else ById(tasks[..|tasks| - 1])[tasks[|tasks| - 1].id := tasks[|tasks| - 1]]
  }

  /** The lookup knows exactly the tasks of the list, each under its own id. */
  lemma {:induction false} ByIdHolds(tasks: seq<Task>)
    ensures forall id :: id in ById(tasks) ==> ById(tasks)[id].id == id && ById(tasks)[id] in tasks
    ensures forall t :: t in tasks ==> t.id in ById(tasks)
    ensures UniqueIds(tasks) ==> forall t :: t in tasks ==> ById(tasks)[t.id] == t
  {
    if tasks != [] {
      ByIdHolds(tasks[..|tasks| - 1]);
    }
  }

  /** Task t waits for task p. */
  ghost predicate DependsOn(m: map<Id, Task>, t: Id, p: Id) {
    t in m && exists k :: 0 <= k < |m[t].links| && m[t].links[k].task == p
  }

  ghost predicate Chain(m: map<Id, Task>, s: seq<Id>) {
    forall i :: 0 <= i < |s| - 1 ==> DependsOn(m, s[i], s[i + 1])
  }

  ghost predicate Loop(m: map<Id, Task>, s: seq<Id>) {
    |s| >= 2 && s[0] == s[|s| - 1] && Chain(m, s)
  }

  ghost predicate Cyclic(m: map<Id, Task>) {
    exists s :: Loop(m, s)
  }

  ghost predicate LinkMissing(m: map<Id, Task>) {
    exists t, p :: DependsOn(m, t, p) && p !in m
  }

  /** Every link of a task points to an earlier place in the order. */
  ghost predicate Topological(order: seq<Task>) {
    forall i, k :: 0 <= i < |order| && 0 <= k < |order[i].links| ==> InFirst(order, i, order[i].links[k].task)
  }

  ghost predicate InFirst(order: seq<Task>, n: nat, id: Id)
    requires n <= |order|
  {
    exists j :: 0 <= j < n && order[j].id == id
  }

  /** The places of a topological order strictly fall along any chain of dependencies, so none closes. */
  lemma {:induction false} ChainFalls(m: map<Id, Task>, order: seq<Task>, s: seq<Id>, i: nat)
    requires Topological(order) && UniqueIds(order) && Chain(m, s) && |s| >= 2
    requires forall t :: t in order ==> t.id in m && m[t.id] == t
    requires i < |order| && order[i].id == s[0]
    ensures InFirst(order, i, s[|s| - 1])
  {
    assert DependsOn(m, s[0], s[1]);
    assert order[i] in order;
    var k :| 0 <= k < |m[s[0]].links| && m[s[0]].links[k].task == s[1];
    assert InFirst(order, i, order[i].links[k].task);
    var j :| 0 <= j < i && order[j].id == s[1];
    if |s| > 2 {
      ChainFalls(m, order, s[1..], j);
      assert s[1..][|s| - 2] == s[|s| - 1];
    }
  }

  /** Only a graph without cycles and missing links has a topological order of all its tasks. */
  lemma OrderMeansAcyclic(m: map<Id, Task>, order: seq<Task>)
    requires Topological(order) && UniqueIds(order)
    requires forall t :: t in order ==> t.id in m && m[t.id] == t
    requires forall id :: id in m ==> InFirst(order, |order|, id)
    ensures !Cyclic(m) && !LinkMissing(m)
  {
    forall s | Loop(m, s)
      ensures false
    {
      assert DependsOn(m, s[0], s[1]);
      var i :| 0 <= i < |order| && order[i].id == s[0];
      ChainFalls(m, order, s, i);
    }
    forall t, p | DependsOn(m, t, p)
      ensures p in m
    {
      var i :| 0 <= i < |order| && order[i].id == t;
      assert order[i] in order;
      var k :| 0 <= k < |m[t].links| && m[t].links[k].task == p;
      assert InFirst(order, i, order[i].links[k].task);
      var j :| 0 <= j < i && order[j].id == p;
      assert order[j] in order;
    }
  }

  class Sorter {
    const lookup: map<Id, Task>
    var order: seq<Task>
    var visiting: set<Id>
    var done: set<Id>

    constructor (tasks: seq<Task>)
      requires UniqueIds(tasks)
      ensures Valid() && lookup == ById(tasks) && visiting == {}
      ensures forall t :: t in tasks ==> t.id in lookup && lookup[t.id] == t
    {
      ByIdHolds(tasks);
      lookup := ById(tasks);
      order, visiting, done := [], {}, {};
    }

    ghost predicate Valid() reads this {
      && (forall id :: id in lookup ==> lookup[id].id == id)
      && visiting <= lookup.Keys && done <= lookup.Keys && visiting * done == {}
      && UniqueIds(order) && Topological(order)
      && (forall t :: t in order ==> t.id in lookup && lookup[t.id] == t)
      && (forall id :: id in done <==> InFirst(order, |order|, id))
    }

    /** The stack of tasks being visited is a chain of dependencies that ends in this one. */
    ghost predicate OnStack(stack: seq<Id>, id: Id) reads this {
      && (forall v :: v in visiting <==> v in stack)
      && Chain(lookup, stack + [id])
    }

    /** `visit`: place the tasks this one waits for, then the task itself. */
    method Visit(task: Task, ghost stack: seq<Id>) returns (error: Option<ScheduleError>)
      requires Valid() && task.id in lookup && lookup[task.id] == task && OnStack(stack, task.id)
      modifies this
      ensures error.None? ==>
                && Valid() && visiting == old(visiting) && task.id in done && done >= old(done)
      ensures error == Some(Cycle) ==> Cyclic(lookup)
      ensures error == Some(Missing) ==> LinkMissing(lookup)
      ensures error.Some? ==> error.value.Cycle? || error.value.Missing?
      decreases lookup.Keys - visiting
    {
      if task.id in visiting {
        StackCloses(stack, task.id);
        return Some(Cycle);
      }
      if task.id in done {
        return None;
      }
      visiting := visiting + {task.id};
      ghost var below := stack + [task.id];
      for k := 0 to |task.links|
        invariant Valid() && visiting == old(visiting) + {task.id} && done >= old(done)
        invariant forall i :: 0 <= i < k ==> task.links[i].task in done
      {
        var id := task.links[k].task;
        assert DependsOn(lookup, task.id, id);
        if id !in lookup {
          return Some(Missing);
        }
        assert Chain(lookup, below + [id]);
        error := Visit(lookup[id], below);
        if error.Some? {
          return;
        }
      }
      Place(task);
      error := None;
    }

    method Place(task: Task)
      requires Valid() && task.id in visiting && lookup[task.id] == task
      requires forall k :: 0 <= k < |task.links| ==> task.links[k].task in done
      modifies this
      ensures Valid() && visiting == old(visiting) - {task.id} && done == old(done) + {task.id}
      ensures order == old(order) + [task]
    {
      ghost var before := order;
      assert task.id !in done by {
        assert task.id !in visiting * done;
      }
      visiting := visiting - {task.id};
      done := done + {task.id};
      order := order + [task];
      forall i, k | 0 <= i < |order| && 0 <= k < |order[i].links|
        ensures InFirst(order, i, order[i].links[k].task)
      {
        var id := order[i].links[k].task;
        if i < |before| {
          assert InFirst(before, i, before[i].links[k].task);
          var j :| 0 <= j < i && before[j].id == id;
          assert order[j].id == id;
        } else {
          assert task.links[k].task in old(done);
          var j :| 0 <= j < |before| && before[j].id == id;
          assert order[j].id == id;
        }
      }
      forall id
        ensures id in done <==> InFirst(order, |order|, id)
      {
        if id in old(done) {
          var j :| 0 <= j < |before| && before[j].id == id;
          assert order[j].id == id;
        }
        assert order[|before|].id == task.id;
      }
      forall i | 0 <= i < |before|
        ensures before[i].id != task.id
      {
      }
    }

    lemma StackCloses(stack: seq<Id>, id: Id)
      requires OnStack(stack, id) && id in visiting
      ensures Cyclic(lookup)
    {
      var i :| 0 <= i < |stack| && stack[i] == id;
      var s := (stack + [id])[i..];
      forall k | 0 <= k < |s| - 1
        ensures DependsOn(lookup, s[k], s[k + 1])
      {
        assert DependsOn(lookup, (stack + [id])[i + k], (stack + [id])[i + k + 1]);
      }
      assert Loop(lookup, s);
    }
  }

  /** `tasks.forEach(visit)`. The order exists exactly when no link is missing and nothing waits for itself. */
  method OrderTasks(tasks: seq<Task>) returns (r: Result<seq<Task>>, error: Option<ScheduleError>)
    requires UniqueIds(tasks)
    ensures error.None? <==> r.Ok?
    ensures r.Ok? <==> !Cyclic(ById(tasks)) && !LinkMissing(ById(tasks))
    ensures error == Some(Cycle) ==> Cyclic(ById(tasks))
    ensures error == Some(Missing) ==> LinkMissing(ById(tasks))
    ensures error.Some? ==> error.value.Cycle? || error.value.Missing?
    ensures r.Ok? ==> Topological(r.value) && UniqueIds(r.value) && forall t :: t in r.value <==> t in tasks
  {
    hide Cyclic, LinkMissing, Topological, InFirst, UniqueIds, ById;
    var sorter := new Sorter(tasks);
    for k := 0 to |tasks|
      invariant fresh(sorter) && sorter.lookup == ById(tasks)
      invariant sorter.Valid() && sorter.visiting == {}
      invariant forall i :: 0 <= i < k ==> tasks[i].id in sorter.done
    {
      assert Chain(sorter.lookup, [] + [tasks[k].id]);
      assert tasks[k] in tasks;
      error := sorter.Visit(tasks[k], []);
      if error.Some? {
        return Err(BadRequest), error;
      }
    }
    OrderComplete(tasks, sorter.order, sorter.done);
    return Ok(sorter.order), None;
  }

  lemma OrderComplete(tasks: seq<Task>, order: seq<Task>, done: set<Id>)
    requires UniqueIds(tasks) && UniqueIds(order) && Topological(order)
    requires forall t :: t in order ==> t.id in ById(tasks) && ById(tasks)[t.id] == t
    requires forall id :: id in done ==> InFirst(order, |order|, id)
    requires forall i :: 0 <= i < |tasks| ==> tasks[i].id in done
    ensures !Cyclic(ById(tasks)) && !LinkMissing(ById(tasks))
    ensures forall t :: t in order <==> t in tasks
  {
    hide Topological;
    ByIdHolds(tasks);
    forall t
      ensures t in order <==> t in tasks
    {
      if t in tasks {
        assert t.id in done;
        var j :| 0 <= j < |order| && order[j].id == t.id;
        assert order[j] in order;
      }
    }
    forall id | id in ById(tasks)
      ensures InFirst(order, |order|, id)
    {
      assert ById(tasks)[id] in tasks;
    }
    OrderMeansAcyclic(ById(tasks), order);
  }
}
