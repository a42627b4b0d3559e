/** Whole runs of GroupCreation: when a request is sent, which callbacks count, and which rows stay for good. */
module GroupRuns {
  import opened Outcomes
  import opened Runs
  import opened GroupCreation

  /** Every step keeps the invariant, so every run does. */
  lemma {:induction false} EveryRun(actions: seq<Action>)
    ensures Inv(Run(actions))
  {
    if actions != [] {
      EveryRun(actions[..|actions| - 1]);
      StepKeeps(Run(actions[..|actions| - 1]), actions[|actions| - 1]);
    }
  }

  /** A creation request goes out only when the provider has settled every earlier one. */
  lemma SentOnlyWhenSettled(actions: seq<Action>, a: Action)
    requires |Run(actions + [a]).requests| > |Run(actions).requests|
    ensures var s := Run(actions);
            forall i :: 0 <= i < |s.requests| ==>
              || (s.requests[i].Some? && s.requests[i].value.Http? && s.requests[i].value.status != 408
                  && 400 <= s.requests[i].value.status <= 499)
              || (i in s.inbox && s.inbox[i].failed)
    ensures a.Send? && |Run(actions + [a]).requests| == |Run(actions).requests| + 1
  {
    hide Inv, Awaits, Applied;
    var s := Run(actions);
    assert (actions + [a])[..|actions|] == actions;
    EveryRun(actions);
    assert Inv(s) ==> PcsOk(s) by { PcsOfInv(s); }
    assert PcOk(s, PcOf(s, a.who));
    forall i | 0 <= i < |s.requests|
      ensures (s.requests[i].Some? && Refuses(s.requests[i].value)) || (i in s.inbox && s.inbox[i].failed)
    {
      assert Settled(s, i);
    }
  }

  lemma PcsOfInv(s: State)
    ensures Inv(s) ==> PcsOk(s)
  {
  }

  /** No callback is lost. Once the creator, having saved the request id, and a callback handler, having
      stored the event, have both reconciled request r to the end, in whatever order and however their
      steps interleave: the row names r and is ready or failed, or r was reported failed and another
      attempt has since replaced it. */
  lemma NoCallbackLost(actions: seq<Action>, r: nat)
    requires (r, Creator) in Run(actions).finished && (r, Handler) in Run(actions).finished
    ensures var s := Run(actions);
            && s.row.Some? && r in s.inbox
            && if s.row.value.request == Some(r) then s.row.value.status.Ready? || s.row.value.status.Failed?
               else s.inbox[r].failed
  {
    EveryRun(actions);
    assert r in Run(actions).saved;
  }

  /** `Settles` lists the rows that no step changes any more. */
  ghost predicate Settles(s: State) {
    && s.row.Some?
    && (s.row.value.status.Ready? || s.row.value.status.Unknown?
        || (s.row.value.status.Creating? && forall w :: w in s.pcs ==> !Holder(s.pcs[w])))
  }

  lemma SettledStep(s: State, a: Action)
    requires Inv(s) && Settles(s)
    ensures Step(s, a).row == s.row && Step(s, a).requests == s.requests && Settles(Step(s, a))
  {
    hide RowOk, SavedOk, InboxOk, NothingLost, FinishedOk, OneHolder, AllSettled;
    var w := a.who;
    if w in s.pcs {
      assert PcOk(s, s.pcs[w]);
    }
    NotAwaiting(s);
  }

  lemma NotAwaiting(s: State)
    requires Inv(s) && Settles(s)
    ensures forall r :: !Awaits(s, r)
  {
  }

  /** A ready group stays exactly as it is. So does a row whose creation is unknown, or was left behind by
      a creator that stopped: no later step, of anyone, changes it or sends another request, and the
      reconciliation's provision for unknown rows is never used. */
  lemma {:induction false} SettledForGood(actions: seq<Action>, more: seq<Action>)
    requires Settles(Run(actions))
    ensures Run(actions + more).row == Run(actions).row && Run(actions + more).requests == Run(actions).requests
    ensures Settles(Run(actions + more))
  {
    hide Step, Inv, Settles;
    if more == [] {
      assert actions + more == actions;
    } else {
      var front, a := more[..|more| - 1], more[|more| - 1];
      SettledForGood(actions, front);
      assert (actions + more)[..|actions + more| - 1] == actions + front;
      EveryRun(actions + front);
      SettledStep(Run(actions + front), a);
    }
  }

  // --- Exactly which rows stay ---------------------------------------------------------------------------------

  /** A missing or failed row can be claimed. */
  lemma ClaimChanges(s: State)
    requires s.row.None? || s.row.value.status.Failed?
    ensures RunFrom(Step, s, [Stop(0), Open(0), Claim(0)]).row != s.row
  {
    ThreeSteps(Step, s, Stop(0), Open(0), Claim(0));
    var asked := Step(Step(s, Stop(0)), Open(0));
    assert PcOf(asked, 0) == Seen(if s.row.None? then None else Some(s.row.value.version));
  }

  /** Whoever holds the claim can go on to save an answer. */
  lemma HolderChanges(s: State, w: nat)
    requires Inv(s) && w in s.pcs && Holder(s.pcs[w])
    ensures RunFrom(Step, s, [Send(w), Receive(w, NoResponse), Save(w)]).row != s.row
  {
    hide Inv, Step, RunFrom;
    ThreeSteps(Step, s, Send(w), Receive(w, NoResponse), Save(w));
    var sent := Step(s, Send(w));
    var received := Step(sent, Receive(w, NoResponse));
    HeldRow(s, w, sent, received);
    SavingChanges(received, w);
  }

  lemma SavingChanges(s: State, w: nat)
    requires PcOf(s, w).Answered? && s.row.Some? && s.row.value.status.Creating?
    requires s.requests != [] && s.requests[|s.requests| - 1].Some?
    ensures Step(s, Save(w)).row != s.row
  {
    hide DoClaim, DoDeliver, DoReconcile;
  }

  lemma HeldRow(s: State, w: nat, sent: State, received: State)
    requires Inv(s) && w in s.pcs && Holder(s.pcs[w])
    requires sent == Step(s, Send(w)) && received == Step(sent, Receive(w, NoResponse))
    ensures PcOf(received, w).Answered? && received.row == s.row && s.row.Some? && s.row.value.status.Creating?
    ensures received.requests != [] && received.requests[|received.requests| - 1].Some?
  {
    assert PcOk(s, s.pcs[w]);
    hide Inv, PcOk;
  }

  /** How to hear from a request that the row waits for: refresh if an event is stored, report a failure if not. */
  function Wake(s: State, r: nat): Action { if r in s.inbox then Refresh(0) else Deliver(0, r, true, None, None) }

  lemma Woken(s: State, r: nat)
    requires Inv(s) && Awaits(s, r)
    ensures var woken := Step(Step(s, Stop(0)), Wake(s, r));
            && PcOf(woken, 0) == Looking(r, if r in s.inbox then Reader else Handler)
            && Awaits(woken, r) && r in woken.inbox && woken.row == s.row
  {
    assert RowOk(s);
    hide Inv, DoReconcile, NothingLost, SavedOk, PcsOk, OneHolder;
  }

  /** A row that waits for its request can hear from it: the stored event is applied, with an invitation
      looked up if it has none, or, when no event is stored, a failure arrives. */
  lemma PendingChanges(s: State, r: nat)
    requires Inv(s) && Awaits(s, r)
    ensures exists more :: RunFrom(Step, s, more).row != s.row
  {
    Woken(s, r);
    hide Inv, Step, Reconciled, DoReconcile;
    OneMore(Step, s, [], Stop(0));
    assert [] + [Stop(0)] == [Stop(0)];
    OneMore(Step, s, [Stop(0)], Wake(s, r));
    var woken := Step(Step(s, Stop(0)), Wake(s, r));
    var link := Some(Safe(0));
    ReconciledMeans(woken, 0, r, if r in s.inbox then Reader else Handler, link);
    AfterReconciling(woken, 0, link);
    var five := [Look(0), Check(0), Fetch(0, link), Store(0), Apply(0)];
    RunTwice(Step, s, [Stop(0)] + [Wake(s, r)], five);
    assert RunFrom(Step, s, [Stop(0)] + [Wake(s, r)] + five).row != s.row;
  }

  lemma AfterReconciling(s: State, w: nat, link: Option<Link>)
    ensures RunFrom(Step, s, [Look(w), Check(w), Fetch(w, link), Store(w), Apply(w)]) == Reconciled(s, w, link)
  {
    hide Step;
    ThreeSteps(Step, s, Look(w), Check(w), Fetch(w, link));
    OneMore(Step, s, [Look(w), Check(w), Fetch(w, link)], Store(w));
    OneMore(Step, s, [Look(w), Check(w), Fetch(w, link), Store(w)], Apply(w));
    assert [Look(w), Check(w), Fetch(w, link)] + [Store(w)] == [Look(w), Check(w), Fetch(w, link), Store(w)];
    assert [Look(w), Check(w), Fetch(w, link), Store(w)] + [Apply(w)]
        == [Look(w), Check(w), Fetch(w, link), Store(w), Apply(w)];
  }

  /** The rows that stay as they are, whatever anybody does, are exactly the ready ones, the unknown ones, and
      those left creating with no creator under way. */
  lemma StaysExactly(actions: seq<Action>)
    ensures Settles(Run(actions)) <==> forall more :: Run(actions + more).row == Run(actions).row
  {
    hide Inv, Step;
    var s := Run(actions);
    EveryRun(actions);
    if Settles(s) {
      forall more
        ensures Run(actions + more).row == s.row
      {
        SettledForGood(actions, more);
      }
    } else {
      CanChange(s);
      var more :| RunFrom(Step, s, more).row != s.row;
      RunTwice(Step, Start(), actions, more);
    }
  }

  lemma CanChange(s: State)
    requires Inv(s) && !Settles(s)
    ensures exists more :: RunFrom(Step, s, more).row != s.row
  {
    assert RowOk(s);
    hide Inv, Step, RunFrom;
    if s.row.None? || s.row.value.status.Failed? {
      ClaimChanges(s);
    } else if s.row.value.status.Creating? {
      var w :| w in s.pcs && Holder(s.pcs[w]);
      HolderChanges(s, w);
    } else {
      PendingChanges(s, s.row.value.request.value);
    }
  }

  /** A creation whose answer never came, although the group was created and its callback stored. */
  const LOST_ANSWER: seq<Action> := [Open(1), Claim(1), Send(1), Receive(1, NoResponse), Save(1)]
  const ITS_CALLBACK: seq<Action> := [Deliver(2, 0, false, Some(7), Some(Safe(3))), Look(2), Apply(2)]

  lemma LostAnswer()
    ensures var row := Row(Unknown, None, None, None, false, 1);
            Run(LOST_ANSWER) == State(Some(row), map[], [Some(NoResponse)], map[1 := Idle], {}, {})
  {
    hide Step, DoSave;
    RunTwice(Step, Start(), [], LOST_ANSWER);
    assert [] + LOST_ANSWER == LOST_ANSWER;
    var s := Start();
    ThreeSteps(Step, s, Open(1), Claim(1), Send(1));
    OneMore(Step, s, [Open(1), Claim(1), Send(1)], Receive(1, NoResponse));
    OneMore(Step, s, [Open(1), Claim(1), Send(1), Receive(1, NoResponse)], Save(1));
    assert [Open(1), Claim(1), Send(1)] + [Receive(1, NoResponse)] ==
           [Open(1), Claim(1), Send(1), Receive(1, NoResponse)];
    assert [Open(1), Claim(1), Send(1), Receive(1, NoResponse)] + [Save(1)] == LOST_ANSWER;
    FirstThree();
    LastTwo();
  }

  lemma LastTwo()
    ensures var s := State(Some(Fresh(0)), map[], [None], map[1 := Sent], {}, {});
            Step(Step(s, Receive(1, NoResponse)), Save(1)) ==
            State(Some(Row(Unknown, None, None, None, false, 1)), map[], [Some(NoResponse)], map[1 := Idle], {}, {})
  {
    var s := State(Some(Fresh(0)), map[], [None], map[1 := Sent], {}, {});
    assert Step(s, Receive(1, NoResponse)) == State(s.row, map[], [Some(NoResponse)], map[1 := Answered], {}, {});
  }

  lemma FirstThree()
    ensures Step(Step(Step(Start(), Open(1)), Claim(1)), Send(1))
         == State(Some(Fresh(0)), map[], [None], map[1 := Sent], {}, {})
  {
    var s1 := Start().(pcs := map[1 := Seen(None)]);
    var s2 := State(Some(Fresh(0)), map[], [], map[1 := Claimed], {}, {});
    assert Step(Start(), Open(1)) == s1 && Step(s1, Claim(1)) == s2;
  }

  lemma CallbackIgnored()
    ensures var s := Run(LOST_ANSWER);
            var t := Step(Step(Step(s, ITS_CALLBACK[0]), ITS_CALLBACK[1]), ITS_CALLBACK[2]);
            && t.row == s.row && t.inbox == map[0 := Callback(false, Some(7), Some(3))] && (0, Handler) in t.finished
  {
    LostAnswer();
    hide Run;
    var s, c := Run(LOST_ANSWER), Callback(false, Some(7), Some(3));
    var s1 := State(s.row, map[0 := c], [Some(NoResponse)], map[1 := Idle, 2 := Looking(0, Handler)], {}, {});
    var s2 := State(s.row, map[0 := c], [Some(NoResponse)], map[1 := Idle, 2 := Applying(0, Handler, c)], {}, {});
    assert Step(s, ITS_CALLBACK[0]) == s1;
    assert Step(s1, ITS_CALLBACK[1]) == s2;
  }

  /** It does happen: the callback names the group and its invitation and is reconciled to the end, and still
      the row stays unknown for good. */
  lemma CallbackLost(more: seq<Action>)
    ensures var s := Run(LOST_ANSWER + ITS_CALLBACK);
            && s.row.Some? && s.row.value.status.Unknown? && Settles(s)
            && 0 in s.inbox && s.inbox[0] == Callback(false, Some(7), Some(3)) && (0, Handler) in s.finished
    ensures Run(LOST_ANSWER + ITS_CALLBACK + more).row == Run(LOST_ANSWER + ITS_CALLBACK).row
  {
    LostAnswer();
    hide RunFrom, Step;
    var s := Run(LOST_ANSWER);
    RunTwice(Step, Start(), LOST_ANSWER, ITS_CALLBACK);
    ThreeSteps(Step, s, ITS_CALLBACK[0], ITS_CALLBACK[1], ITS_CALLBACK[2]);
    assert ITS_CALLBACK == [ITS_CALLBACK[0], ITS_CALLBACK[1], ITS_CALLBACK[2]];
    CallbackIgnored();
    SettledForGood(LOST_ANSWER + ITS_CALLBACK, more);
  }

  /** Two callers that saw the same failed row cannot both claim it. */
  lemma ClaimOnce(s: State, v: nat, w: nat)
    requires Inv(s) && v != w && PcOf(s, v).Seen? && PcOf(s, w) == PcOf(s, v)
    ensures !PcOf(Step(Step(s, Claim(v)), Claim(w)), w).Claimed?
  {
  }

  /** Refreshing starts a reconciliation exactly for a row that names a request and still waits for it. */
  lemma RefreshMeans(s: State, w: nat, r: nat)
    requires PcOf(s, w).Idle?
    ensures PcOf(Step(s, Refresh(w)), w) == Looking(r, Reader) <==>
            && s.row.Some? && s.row.value.request == Some(r)
            && (s.row.value.status == Pending || s.row.value.status == Unknown)
  {
  }

  /** Every write to the row leaves a later version, so a caller that saw an older one is told apart. */
  lemma WritesAreLater(s: State, a: Action)
    requires s.row.Some? && Step(s, a).row != s.row
    ensures Step(s, a).row.Some? && Step(s, a).row.value.version > s.row.value.version
  {
  }
}
