/** Whole runs of AssistantReplies: one hand-over per reply, the quota, and whose attempt a fence lets through. */
module AssistantRuns {
  import opened Outcomes
  import opened Runs
  import opened AssistantReplies

  lemma {:induction false} EveryRun(actions: seq<Action>)
    ensures Inv(Run(actions))
  {
    hide Inv, Step;
    if actions != [] {
      EveryRun(actions[..|actions| - 1]);
      StepKeeps(Run(actions[..|actions| - 1]), actions[|actions| - 1]);
    } else {
      Empty();
    }
  }

  /** However many workers run and stop, a reply is handed to the provider at most once, with the text
      stored for it, and nobody attempts it more than three times. */
  lemma HandedAtMostOnce(actions: seq<Action>, i: nat, j: nat)
    requires i < |Run(actions).handed| && j < |Run(actions).handed| && i != j
    ensures Run(actions).handed[i].id != Run(actions).handed[j].id
    ensures Run(actions).handed[i].id in Run(actions).replies ==>
              Run(actions).replies[Run(actions).handed[i].id].text == Some(Run(actions).handed[i].text)
  {
    EveryRun(actions);
  }

  lemma AttemptsBounded(actions: seq<Action>, id: nat)
    requires id in Run(actions).replies
    ensures Run(actions).replies[id].attempts <= 3
  {
    EveryRun(actions);
    assert ReplyOk(Run(actions), id);
  }

  /** Only a purge removes a reply, and none that is younger than 90 days. */
  lemma KeptNinetyDays(s: State, a: Action, id: nat)
    requires Inv(s) && id in s.replies && id !in Step(s, a).replies
    ensures a.Purge? && a.id == id && s.replies[id].createdAt + 7776000000 < a.now
  {
  }

  /** The job picks a row exactly when it is a WhatsApp reply that is ready or waits to be processed. */
  lemma PickedMeans(s: State, w: nat, id: nat, now: int)
    requires PcOf(s, w).Idle? && id in s.replies
    ensures PcOf(Step(s, Pick(w, id, now)), w) ==
            if s.replies[id].slot.channel == WhatsApp && (s.replies[id].status == Ready || Waits(s.replies[id], now))
            then Picked(id, s.replies[id], now) else Idle
  {
  }

  lemma {:induction false} RunsProgress(actions: seq<Action>, more: seq<Action>)
    ensures Progress(Run(actions), Run(actions + more))
  {
    hide Step, Inv, Progress;
    if more == [] {
      assert actions + more == actions;
      SameKeeps(Run(actions));
    } else {
      var front, a := more[..|more| - 1], more[|more| - 1];
      RunsProgress(actions, front);
      assert (actions + more)[..|actions + more| - 1] == actions + front;
      EveryRun(actions + front);
      StepKeeps(Run(actions + front), a);
      ProgressOn(Run(actions), Run(actions + front), Run(actions + more));
    }
  }

  /** Once a reply is answered, no later step of any worker puts another text in its place, restarts it or
      claims it again: its text stays, unless the reply is refused before it is sent, which leaves none. */
  lemma NeverOverwritten(actions: seq<Action>, more: seq<Action>, id: nat)
    requires id in Run(actions).replies && Rank(Run(actions).replies[id].status) >= 2
    requires id in Run(actions + more).replies
    ensures var r, q := Run(actions).replies[id], Run(actions + more).replies[id];
            && Rank(q.status) >= Rank(r.status) && q.attempts == r.attempts
            && (q.text == r.text || (r.status.Ready? && q.text == None && Rank(q.status) == 4))
  {
    RunsProgress(actions, more);
    EveryRun(actions);
    assert ReplyOk(Run(actions), id);
  }

  // --- The quota -------------------------------------------------------------------------------------------

  ghost predicate LimitedBy(actions: seq<Action>, slot: Slot, most: nat) {
    forall i :: 0 <= i < |actions| && actions[i].Reserve? && actions[i].slot == slot ==> actions[i].limit <= most
  }

  /** Only a reservation adds a reply that counts, and it adds one. */
  lemma CountGrows(s: State, a: Action, slot: Slot)
    requires Inv(s)
    ensures var before, after := Counted(s.replies, slot), Counted(Step(s, a).replies, slot);
            |after| <= |before| || (a.Reserve? && a.slot == slot && |before| < a.limit && |after| == |before| + 1)
  {
    hide Inv, Step, Counted;
    var t := Step(s, a);
    StepKeeps(s, a);
    OnlyReserveAdds(s, a);
    var before, after := Counted(s.replies, slot), Counted(t.replies, slot);
    NoneCancelled(s);
    if t.next == s.next {
      CountsWithin(s, t, slot);
    } else {
      ReserveCounts(s, a, slot);
    }
  }

  lemma CountsWithin(s: State, t: State, slot: Slot)
    requires Inv(s) && Inv(t) && Progress(s, t) && t.next == s.next
    ensures |Counted(t.replies, slot)| <= |Counted(s.replies, slot)|
  {
    NoneCancelled(s);
    NoneCancelled(t);
    assert Counted(t.replies, slot) <= Counted(s.replies, slot);
    SubsetSize(Counted(t.replies, slot), Counted(s.replies, slot));
  }

  lemma {:induction false} SubsetSize<T>(a: set<T>, b: set<T>)
    requires a <= b
    ensures |a| <= |b|
  {
    assert b == a + (b - a);
  }

  lemma OnlyReserveAdds(s: State, a: Action)
    ensures Step(s, a).next != s.next ==> a.Reserve?
  {
  }

  lemma AddCounts(replies: map<nat, Reply>, id: nat, r: Reply, slot: Slot)
    requires id !in replies && !r.status.Cancelled?
    ensures Counted(replies[id := r], slot) == Counted(replies, slot) + if r.slot == slot then {id} else {}
    ensures id !in Counted(replies, slot)
  {
  }

  lemma ReserveCounts(s: State, a: Action, slot: Slot)
    requires Inv(s) && a.Reserve? && Step(s, a).next != s.next
    ensures a.slot == slot ==>
              && |Counted(s.replies, slot)| < a.limit
              && |Counted(Step(s, a).replies, slot)| == |Counted(s.replies, slot)| + 1
    ensures a.slot != slot ==> Counted(Step(s, a).replies, slot) == Counted(s.replies, slot)
  {
    NoneCancelled(s);
    hide Inv, Counted;
    AddCounts(s.replies, s.next, NewReply(a.slot, a.key, a.owner, a.prompt, a.now, a.recorded), slot);
  }

  /** If no reservation in a run was made under a limit above `most`, the replies that count never exceed it. */
  lemma {:induction false} QuotaHolds(actions: seq<Action>, slot: Slot, most: nat)
    requires LimitedBy(actions, slot, most)
    ensures var replies := Run(actions).replies;
            |set id | id in replies && replies[id].slot == slot && replies[id].status != Cancelled| <= most
  {
    hide Step, Inv;
    if actions != [] {
      var front, a := actions[..|actions| - 1], actions[|actions| - 1];
      QuotaHolds(front, slot, most);
      EveryRun(front);
      CountGrows(Run(front), a, slot);
      CountedMeans(Run(front).replies, slot);
    }
    CountedMeans(Run(actions).replies, slot);
  }

  // --- The fence -------------------------------------------------------------------------------------------

  /** Worker w is about to claim a reply that can be claimed. */
  predicate CanBegin(s: State, w: nat, now: int) {
    var pc := PcOf(s, w);
    pc.Starting? && pc.id in s.replies && Claimable(s.replies[pc.id], now)
  }

  /** What a claim that wrote attempt a and lease l leaves behind for good: a later attempt is a later lease. */
  ghost predicate Dated(s: State, id: nat, a: nat, l: int) {
    && id < s.next
    && (id in s.replies ==>
          var r := s.replies[id];
          && Rank(r.status) >= 1
          && (r.status.Processing? ==>
                r.attempts >= a && r.lease.Some? && r.lease.value >= l && (r.attempts == a <==> r.lease.value == l)))
  }

  /** Only a claim changes a reply that is still being processed after it. */
  lemma OnlyClaims(s: State, c: Action, id: nat)
    requires id < s.next && id in s.replies && id in Step(s, c).replies && Step(s, c).replies[id].status.Processing?
    ensures var r, q := s.replies[id], Step(s, c).replies[id];
            q == r || (c.Begin? && Claimable(r, c.now) && q == Taken(r, c.now))
  {
    hide WithKey, Counted, Claimable, Taken;
  }

  lemma DatedStays(s: State, c: Action, id: nat, a: nat, l: int)
    requires Inv(s) && Dated(s, id, a, l)
    ensures Dated(Step(s, c), id, a, l)
  {
    hide Step, Inv;
    StepKeeps(s, c);
    if id in Step(s, c).replies && Step(s, c).replies[id].status.Processing? {
      OnlyClaims(s, c, id);
    }
  }

  /** While a reply is being processed, it is still on the attempt that a claim started exactly when its lease
      is the one that the claim wrote. */
  lemma {:induction false} LeaseTells(pre: seq<Action>, w: nat, now: int, more: seq<Action>)
    requires CanBegin(Run(pre), w, now)
    ensures var id := PcOf(Run(pre), w).id;
            Dated(Run(pre + [Begin(w, now)] + more), id, Run(pre).replies[id].attempts + 1, now + LEASE)
  {
    hide Step, Inv, Dated;
    var id, start := PcOf(Run(pre), w).id, pre + [Begin(w, now)];
    if more == [] {
      EveryRun(pre);
      OneMore(Step, Start(), pre, Begin(w, now));
      BeginDates(Run(pre), w, now);
      assert start + more == start;
    } else {
      var front, c := more[..|more| - 1], more[|more| - 1];
      LeaseTells(pre, w, now, front);
      EveryRun(start + front);
      DatedStays(Run(start + front), c, id, Run(pre).replies[id].attempts + 1, now + LEASE);
      OneMore(Step, Start(), start + front, c);
      assert start + front + [c] == start + more;
    }
  }

  lemma BeginDates(s: State, w: nat, now: int)
    requires Inv(s) && CanBegin(s, w, now)
    ensures var id := PcOf(s, w).id;
            && PcOf(Step(s, Begin(w, now)), w) == Claimed(id, PcOf(s, w).job, s.replies[id].attempts + 1)
            && Dated(Step(s, Begin(w, now)), id, s.replies[id].attempts + 1, now + LEASE)
  {
    assert ReplyOk(s, PcOf(s, w).id);
  }

  /** If worker w answered now, it would settle an attempt that is not the one its claim started. */
  predicate SettlesOther(s: State, w: nat, outcome: Option<nat>) {
    var pc := PcOf(s, w);
    && pc.Working? && pc.id in s.replies && s.replies[pc.id].attempts != pc.claim
    && Step(s, Finish(w, outcome)).replies != s.replies
  }

  /** Worker w claims after `pre` and reads the row back after `mid`. */
  function ReadAfter(pre: seq<Action>, w: nat, now: int, mid: seq<Action>): seq<Action> {
    pre + [Begin(w, now)] + mid + [ReadBack(w)]
  }

  /** A worker can tell from the row it reads back whether it holds a fence of its own. It wrote the lease
      now + LEASE: some continuation lets it settle an attempt that another claim started if and only if the
      row it reads is being processed under another lease. */
  lemma FenceExact(pre: seq<Action>, w: nat, now: int, mid: seq<Action>)
    requires CanBegin(Run(pre), w, now)
    requires var t := Run(pre + [Begin(w, now)] + mid);
             PcOf(t, w) == PcOf(Run(pre + [Begin(w, now)]), w) && PcOf(t, w).id in t.replies
    ensures var t := Run(pre + [Begin(w, now)] + mid);
            var r := t.replies[PcOf(t, w).id];
            var read := ReadAfter(pre, w, now, mid);
            (exists rest, outcome ::
               PcOf(Run(read + rest), w) == PcOf(Run(read), w) && SettlesOther(Run(read + rest), w, outcome))
            <==> r.status.Processing? && r.lease != Some(now + LEASE)
  {
    hide Step, Inv, SettlesOther, Dated;
    var t, read := Run(pre + [Begin(w, now)] + mid), ReadAfter(pre, w, now, mid);
    var id := PcOf(Run(pre), w).id;
    EveryRun(pre);
    OneMore(Step, Start(), pre, Begin(w, now));
    BeginDates(Run(pre), w, now);
    LeaseTells(pre, w, now, mid);
    EveryRun(pre + [Begin(w, now)] + mid);
    OneMore(Step, Start(), pre + [Begin(w, now)] + mid, ReadBack(w));
    DatedMeans(t, id, Run(pre).replies[id].attempts + 1, now + LEASE);
    ReadBackMeans(t, w);
    var r := t.replies[id];
    if r.status.Processing? && r.lease != Some(now + LEASE) {
      SettlesNow(Run(read), w);
      assert read + [] == read;
      assert SettlesOther(Run(read + []), w, None);
    }
    forall rest, outcome |
      PcOf(Run(read + rest), w) == PcOf(Run(read), w) && SettlesOther(Run(read + rest), w, outcome)
      ensures r.status.Processing? && r.lease != Some(now + LEASE)
    {
      var u := Run(read + rest);
      EveryRun(read);
      EveryRun(read + rest);
      RunsProgress(read, rest);
      SettlesMeans(u, w, outcome);
      StillProcessing(Run(read), u, id);
    }
  }

  lemma DatedMeans(s: State, id: nat, a: nat, l: int)
    requires Dated(s, id, a, l) && id in s.replies
    ensures id < s.next && Rank(s.replies[id].status) >= 1
    ensures s.replies[id].status.Processing? ==> (s.replies[id].attempts == a <==> s.replies[id].lease == Some(l))
  {
  }

  lemma ReadBackMeans(s: State, w: nat)
    requires PcOf(s, w).Claimed? && PcOf(s, w).id in s.replies
    ensures var pc := PcOf(s, w);
            && PcOf(Step(s, ReadBack(w)), w) == Working(pc.id, pc.job, pc.claim, s.replies[pc.id].attempts)
            && Step(s, ReadBack(w)).replies == s.replies && Step(s, ReadBack(w)).next == s.next
  {
  }

  lemma SettlesNow(s: State, w: nat)
    requires PcOf(s, w).Working? && PcOf(s, w).id in s.replies
    requires var pc, r := PcOf(s, w), s.replies[PcOf(s, w).id];
             r.status.Processing? && r.attempts == pc.fence != pc.claim
    ensures SettlesOther(s, w, None)
  {
    var pc, r := PcOf(s, w), s.replies[PcOf(s, w).id];
    assert Step(s, Finish(w, None)).replies[pc.id] == Done(r, None) != r;
  }

  lemma SettlesMeans(s: State, w: nat, outcome: Option<nat>)
    requires SettlesOther(s, w, outcome)
    ensures var pc := PcOf(s, w);
            && pc.Working? && pc.id in s.replies && s.replies[pc.id].status.Processing?
            && s.replies[pc.id].attempts == pc.fence != pc.claim
  {
  }

  /** A reply that is being processed has been since it was first claimed. */
  lemma StillProcessing(s: State, t: State, id: nat)
    requires Progress(s, t) && id < s.next && id in t.replies && t.replies[id].status.Processing?
    ensures id in s.replies && Rank(s.replies[id].status) <= 1
  {
  }

  const ASKED := Slot(0, AiChat, 0)

  /** Worker 1 claims, its lease runs out, worker 2 claims, and only then does worker 1 read its fence. */
  const LATE_READ: seq<Action> := [
    Reserve(ASKED, 0, 0, 0, 0, 1, None), Ask(1, 0), Ask(2, 0), Begin(1, 0), Begin(2, LEASE + 1),
    ReadBack(1), ReadBack(2)]

  /** Both have claimed. */
  lemma BothClaimed()
    ensures var r := NewReply(ASKED, 0, 0, 0, 0, None).(status := Processing, attempts := 2,
                                                        lease := Some(2 * LEASE + 1));
            Run(LATE_READ[..5]) == State(map[0 := r], 1, map[1 := Claimed(0, false, 1), 2 := Claimed(0, false, 2)], [])
  {
    hide Step;
    var r := NewReply(ASKED, 0, 0, 0, 0, None);
    var one := r.(status := Processing, attempts := 1, lease := Some(LEASE));
    var s1 := State(map[0 := r], 1, map[], []);
    var s2 := s1.(pcs := map[1 := Starting(0, false)]);
    var s3 := s1.(pcs := map[1 := Starting(0, false), 2 := Starting(0, false)]);
    var s4 := State(map[0 := one], 1, map[1 := Claimed(0, false, 1), 2 := Starting(0, false)], []);
    First();
    assert s1.pcs[1 := Starting(0, false)] == s2.pcs && s2.pcs[2 := Starting(0, false)] == s3.pcs;
    assert At(With(s3, 0, one), 1, Claimed(0, false, 1)) == s4;
    assert Step(s1, LATE_READ[1]) == s2 && Step(s2, LATE_READ[2]) == s3 by { AskStep(s1, 1); AskStep(s2, 2); }
    BeginStep(s3, 1, 0);
    BeginStep(s4, 2, LEASE + 1);
    RunPrefixes();
  }

  lemma First()
    ensures Step(Start(), LATE_READ[0]) == State(map[0 := NewReply(ASKED, 0, 0, 0, 0, None)], 1, map[], [])
  {
    assert WithKey(map[], ASKED, 0) == {} && Counted(map[], ASKED) == {};
  }

  lemma AskStep(s: State, w: nat)
    ensures Step(s, Ask(w, 0)) == if PcOf(s, w).Idle? && 0 < s.next then At(s, w, Starting(0, false)) else s
  {
  }

  lemma BeginStep(s: State, w: nat, now: int)
    ensures Step(s, Begin(w, now)) == DoBegin(s, w, now)
  {
  }

  lemma RunPrefixes()
    ensures Run(LATE_READ[..5]) ==
            Step(Step(Step(Step(Step(Start(), LATE_READ[0]), LATE_READ[1]), LATE_READ[2]), LATE_READ[3]), LATE_READ[4])
  {
    hide Step;
    assert LATE_READ[..1] == [] + [LATE_READ[0]] && LATE_READ[..2] == LATE_READ[..1] + [LATE_READ[1]];
    assert LATE_READ[..3] == LATE_READ[..2] + [LATE_READ[2]] && LATE_READ[..4] == LATE_READ[..3] + [LATE_READ[3]];
    assert LATE_READ[..5] == LATE_READ[..4] + [LATE_READ[4]];
    OneMore(Step, Start(), [], LATE_READ[0]);
    OneMore(Step, Start(), LATE_READ[..1], LATE_READ[1]);
    OneMore(Step, Start(), LATE_READ[..2], LATE_READ[2]);
    OneMore(Step, Start(), LATE_READ[..3], LATE_READ[3]);
    OneMore(Step, Start(), LATE_READ[..4], LATE_READ[4]);
  }

  /** Both have read the same fence. */
  lemma LateRead()
    ensures var s := Run(LATE_READ);
            && PcOf(s, 1) == Working(0, false, 1, 2) && PcOf(s, 2) == Working(0, false, 2, 2)
            && 0 in s.replies && s.replies[0].status.Processing? && s.replies[0].attempts == 2
                && s.replies[0].text == None
  {
    BothClaimed();
    OneMore(Step, Start(), LATE_READ[..5], ReadBack(1));
    OneMore(Step, Start(), LATE_READ[..5] + [ReadBack(1)], ReadBack(2));
    assert LATE_READ == LATE_READ[..5] + [ReadBack(1)] + [ReadBack(2)];
  }

  /** So the fence does not always hold: the failure of the first worker ends the attempt of the second,
      whose answer is then dropped. */
  lemma StaleFailureWins(text: nat)
    ensures var s := Run(LATE_READ + [Finish(1, None), Finish(2, Some(text))]);
            0 in s.replies && s.replies[0].status.Failed? && s.replies[0].text == None
  {
    LateRead();
    OneMore(Step, Start(), LATE_READ, Finish(1, None));
    OneMore(Step, Start(), LATE_READ + [Finish(1, None)], Finish(2, Some(text)));
    assert LATE_READ + [Finish(1, None), Finish(2, Some(text))] ==
           LATE_READ + [Finish(1, None)] + [Finish(2, Some(text))];
  }
}
