/** Creating the managed WhatsApp group of a project
    (managed-whatsapp.service.ts). Every database call and every remote
    call is a step of its own; callers, callbacks and status refreshes
    interleave freely, and any of them may stop between two steps. The
    provider gives every request it accepts an id of its own, so the n-th
    request sent is known by the number n. */
module GroupCreation {
  import opened Outcomes
  import opened Runs

  datatype Status = Creating | Unknown | Pending | Ready | Failed

  /** The connection row; `version` stands for its update time. */
  datatype Row = Row(status: Status, request: Option<nat>, group: Option<nat>, invite: Option<nat>, active: bool,
                     version: nat)

  /** An event of the durable inbox. */
  datatype Callback = Callback(failed: bool, group: Option<nat>, invite: Option<nat>)

  datatype Link = Safe(code: nat) | Unsafe

  /** What the provider answers to the creation request, and what that means for it. */
  datatype Response = NoResponse | Http(status: nat, hasRequestId: bool)

  datatype Answer = Rejected | Unclear | Accepted

  /** On whose behalf a reconciliation runs: the creator after saving the request id, a callback
      after storing the event, or somebody refreshing the status. */
  datatype Role = Creator | Handler | Reader

  datatype Pc =
    | Idle
    | Seen(version: Option<nat>)
    | Claimed
    | Sent
    | Answered
    | Looking(request: nat, role: Role)
    | Checking(request: nat, role: Role)
    | Fetching(request: nat, role: Role)
    | Storing(request: nat, role: Role, link: nat)
    | Applying(request: nat, role: Role, callback: Callback)

  /** `requests` holds the response to each request sent, `saved` the request ids the creator stored, `finished`
      the reconciliations that ran to their end for a request, by role. */
  datatype State = State(
    row: Option<Row>, inbox: map<nat, Callback>, requests: seq<Option<Response>>, pcs: map<nat, Pc>,
    saved: set<nat>, finished: set<(nat, Role)>)

  datatype Action =
    | Open(who: nat)
    | Claim(who: nat)
    | Send(who: nat)
    | Receive(who: nat, response: Response)
    | Save(who: nat)
    | Deliver(who: nat, request: nat, failed: bool, group: Option<nat>, link: Option<Link>)
    | Refresh(who: nat)
    | Look(who: nat)
    | Check(who: nat)
    | Fetch(who: nat, link: Option<Link>)
    | Store(who: nat)
    | Apply(who: nat)
    | Stop(who: nat)

  function PcOf(s: State, w: nat): Pc { if w in s.pcs then s.pcs[w] else Idle }

  function At(s: State, w: nat, pc: Pc): State { s.(pcs := s.pcs[w := pc]) }

  function Finish(s: State, w: nat, r: nat, role: Role): State {
    s.(pcs := s.pcs[w := Idle], finished := s.finished + {(r, role)})
  }

  function SafeLink(link: Option<Link>): Option<nat> {
    if link.Some? && link.value.Safe? then Some(link.value.code) else None
  }

  /** Only a definite 4xx rejection settles a request; everything else short of a request id leaves it open. */
  function Classify(response: Response): Answer {
    match response
    case NoResponse => Unclear
    case Http(status, hasRequestId) =>
      if 200 <= status <= 299 then (if hasRequestId then Accepted else Unclear)
      else if 400 <= status < 500 && status != 408 then Rejected
      else Unclear
  }

  /** The row a creation request starts from. */
  function Fresh(version: nat): Row { Row(Creating, None, None, None, false, version) }

  predicate Awaits(s: State, r: nat) {
    s.row.Some? && s.row.value.request == Some(r) && (s.row.value.status.Pending? || s.row.value.status.Unknown?)
  }

  function Saved(row: Row, answer: Answer, r: nat): Row {
    match answer
    case Accepted => row.(request := Some(r), status := Pending, version := row.version + 1)
    case Rejected => row.(status := Failed, version := row.version + 1)
    case _ => row.(status := Unknown, version := row.version + 1)
  }

  function Applied(row: Row, c: Callback): Row {
    if c.failed then row.(status := Failed, active := false, version := row.version + 1)
    else row.(group := c.group, invite := c.invite, status := Ready, active := true, version := row.version + 1)
  }

  function DoClaim(s: State, w: nat): State {
    var pc := PcOf(s, w);
    if !pc.Seen? then s
    else if pc.version.None? then
      (if s.row.None? then At(s.(row := Some(Fresh(0))), w, Claimed) else At(s, w, Idle))
    else if s.row.Some? && s.row.value.status.Failed? && pc.version == Some(s.row.value.version) then
      At(s.(row := Some(Fresh(s.row.value.version + 1))), w, Claimed)
    else At(s, w, Idle)
  }

  function DoSave(s: State, w: nat): State {
    if !PcOf(s, w).Answered? || s.row.None? || s.requests == [] || s.requests[|s.requests| - 1].None? then s
    else
      var r := |s.requests| - 1;
      var answer := Classify(s.requests[r].value);
      var t := s.(row := Some(Saved(s.row.value, answer, r)));
      if answer.Accepted? then At(t.(saved := t.saved + {r}), w, Looking(r, Creator)) else At(t, w, Idle)
  }

  /** The first event stored for a request stays; an incomplete success is not stored at all. */
  function DoDeliver(s: State, w: nat, r: nat, failed: bool, group: Option<nat>, link: Option<Link>): State {
    if !PcOf(s, w).Idle? || r >= |s.requests| then s
    else if !failed && (group.None? || link == Some(Unsafe)) then s
    else
      var inbox := if r in s.inbox then s.inbox else s.inbox[r := Callback(failed, group, SafeLink(link))];
      At(s.(inbox := inbox), w, Looking(r, Handler))
  }

  /** The steps of `reconcileGroupCreation`. */
  function DoReconcile(s: State, a: Action): State {
    var w := a.who;
    match (a, PcOf(s, w))
    case (Look(_), Looking(r, role)) =>
      if r !in s.inbox then Finish(s, w, r, role)
      else if s.inbox[r].failed || s.inbox[r].invite.Some? then At(s, w, Applying(r, role, s.inbox[r]))
      else At(s, w, Checking(r, role))
    case (Check(_), Checking(r, role)) =>
      if Awaits(s, r) then At(s, w, Fetching(r, role)) else Finish(s, w, r, role)
    case (Fetch(_, link), Fetching(r, role)) =>
      if SafeLink(link).Some? then At(s, w, Storing(r, role, SafeLink(link).value)) else At(s, w, Idle)
    case (Store(_), Storing(r, role, link)) =>
      if r !in s.inbox then s
      else
        var c := s.inbox[r].(invite := Some(link));
        At(s.(inbox := s.inbox[r := c]), w, Applying(r, role, c))
    case (Apply(_), Applying(r, role, c)) =>
      Finish(if Awaits(s, r) then s.(row := Some(Applied(s.row.value, c))) else s, w, r, role)
    case _ => s
  }

  function Step(s: State, a: Action): State {
    match a
    case Open(w) =>
      if !PcOf(s, w).Idle? then s
      else if s.row.None? then At(s, w, Seen(None))
      else if s.row.value.status.Failed? then At(s, w, Seen(Some(s.row.value.version)))
      else s
    case Claim(w) => DoClaim(s, w)
    case Send(w) => if PcOf(s, w).Claimed? then At(s.(requests := s.requests + [None]), w, Sent) else s
    case Receive(w, response) =>
      if !PcOf(s, w).Sent? || s.requests == [] then s
      else At(s.(requests := s.requests[|s.requests| - 1 := Some(response)]), w, Answered)
    case Save(w) => DoSave(s, w)
    case Deliver(w, r, failed, group, link) => DoDeliver(s, w, r, failed, group, link)
    case Refresh(w) =>
      if PcOf(s, w).Idle? && s.row.Some? && s.row.value.request.Some? && Awaits(s, s.row.value.request.value)
      then At(s, w, Looking(s.row.value.request.value, Reader)) else s
    case Stop(w) => At(s, w, Idle)
    case _ => DoReconcile(s, a)
  }

  function Start(): State { State(None, map[], [], map[], {}, {}) }

  function Run(actions: seq<Action>): State { RunFrom(Step, Start(), actions) }

  // --- What every run keeps ------------------------------------------------------------------

  /** A definite rejection: a 4xx status that is not a timeout. */
  ghost predicate Refuses(response: Response) {
    response.Http? && 400 <= response.status <= 499 && response.status != 408
  }

  /** A success that names the request. */
  ghost predicate Takes(response: Response) {
    response.Http? && 200 <= response.status <= 299 && response.hasRequestId
  }

  /** The provider has settled request i: it rejected it outright, or reported that it failed. */
  ghost predicate Settled(s: State, i: nat)
    requires i < |s.requests|
  {
    (s.requests[i].Some? && Refuses(s.requests[i].value)) || (i in s.inbox && s.inbox[i].failed)
  }

  ghost predicate AllSettled(s: State, n: nat)
    requires n <= |s.requests|
  {
    forall i :: 0 <= i < n ==> Settled(s, i)
  }

  predicate Holder(pc: Pc) { pc.Claimed? || pc.Sent? || pc.Answered? }

  ghost predicate RoleOk(s: State, r: nat, role: Role) {
    && (role.Creator? ==> r in s.saved)
    && (role.Handler? ==> r in s.inbox)
  }

  ghost predicate PcOk(s: State, pc: Pc) {
    match pc
    case Idle => true
    case Seen(version) => version.Some? ==> s.row.Some?
    case Claimed => s.row.Some? && s.row.value.status.Creating? && AllSettled(s, |s.requests|)
    case Sent => s.row.Some? && s.row.value.status.Creating? && s.requests != []
        && s.requests[|s.requests| - 1].None?
    case Answered => s.row.Some? && s.row.value.status.Creating? && s.requests != [] && |s.requests| - 1 !in s.saved
        && s.requests[|s.requests| - 1].Some?
    case Looking(r, role) => RoleOk(s, r, role)
    case Checking(r, role) => RoleOk(s, r, role) && r in s.inbox
    case Fetching(r, role) => RoleOk(s, r, role) && r in s.inbox
    case Storing(r, role, link) => RoleOk(s, r, role) && r in s.inbox
    case Applying(r, role, c) =>
      && RoleOk(s, r, role) && r in s.inbox && c.failed == s.inbox[r].failed && c.group == s.inbox[r].group
      && (c.failed || c.invite.Some?)
  }

  ghost predicate RowOk(s: State) {
    match s.row
    case None => s.requests == [] && s.saved == {}
    case Some(row) =>
      && (row.active <==> row.status.Ready?)
      && (row.status.Creating? || row.status.Unknown? ==> row.request == None)
      && (row.status.Pending? || row.status.Ready? ==> row.request.Some?)
      && (row.request.Some? ==> row.request.value + 1 == |s.requests| && row.request.value in s.saved)
      && (row.status.Failed? ==> AllSettled(s, |s.requests|))
      && (row.status.Ready? ==> row.request.value in s.inbox && row.invite.Some?
                                && row.group == s.inbox[row.request.value].group && row.group.Some?)
  }

  /** A stored request id is the row's, unless the provider reported that request failed. */
  ghost predicate SavedOk(s: State) {
    forall r :: r in s.saved ==>
      && r < |s.requests| && s.requests[r].Some? && Takes(s.requests[r].value)
      && ((s.row.Some? && s.row.value.request == Some(r)) || (r in s.inbox && s.inbox[r].failed))
  }

  ghost predicate InboxOk(s: State) {
    forall r :: r in s.inbox ==> r < |s.requests| && (s.inbox[r].failed || s.inbox[r].group.Some?)
  }

  /** Once the creator and a callback handler have both reconciled a request, the row does not wait for it. */
  ghost predicate NothingLost(s: State) {
    forall r ::
      (r, Creator) in s.finished && (r, Handler) in s.finished ==> r in s.inbox && r in s.saved && !Awaits(s, r)
  }

  ghost predicate FinishedOk(s: State) {
    && (forall r :: (r, Creator) in s.finished ==> r in s.saved)
    && (forall r :: (r, Handler) in s.finished ==> r in s.inbox)
  }

  ghost predicate OneHolder(s: State) {
    forall v, w :: v in s.pcs && w in s.pcs && Holder(s.pcs[v]) && Holder(s.pcs[w]) ==> v == w
  }

  ghost predicate PcsOk(s: State) { forall w :: w in s.pcs ==> PcOk(s, s.pcs[w]) }

  ghost predicate Inv(s: State) {
    && RowOk(s) && SavedOk(s) && InboxOk(s) && NothingLost(s) && FinishedOk(s) && OneHolder(s) && PcsOk(s)
    && (s.requests != [] ==> AllSettled(s, |s.requests| - 1))
  }

  // --- What an uninterrupted reconciliation does -----------------------------------------------------------

  /** The five steps of a reconciliation in a row; a step that does not apply does nothing. */
  function Reconciled(s: State, w: nat, link: Option<Link>): State { Fetched(Checked(Step(s, Look(w)), w), w, link) }

  function Checked(s: State, w: nat): State { Step(s, Check(w)) }

  function Fetched(s: State, w: nat, link: Option<Link>): State {
    Step(Step(Step(s, Fetch(w, link)), Store(w)), Apply(w))
  }

  /** The row waits to hear from request r. */
  ghost predicate WaitsFor(s: State, r: nat) {
    && s.row.Some? && s.row.value.request == Some(r)
    && (s.row.value.status == Pending || s.row.value.status == Unknown)
  }

  /** The event lacks an invitation, and looking it up yields none that is safe. */
  ghost predicate GivesUp(s: State, r: nat, link: Option<Link>) {
    && WaitsFor(s, r) && r in s.inbox && !s.inbox[r].failed && s.inbox[r].invite.None?
    && (link.None? || link.value.Unsafe?)
  }

  /** An uninterrupted reconciliation settles the row that waits for a stored event: failed if the event
      failed, ready with the event's group and an invitation otherwise. It gives up only when the event
      has no invitation and looking it up yields no safe link; rows that do not wait are left alone. */
  lemma ReconciledMeans(s: State, w: nat, r: nat, role: Role, link: Option<Link>)
    requires PcOf(s, w) == Looking(r, role)
    ensures var t := Reconciled(s, w, link);
            && PcOf(t, w).Idle? && t.requests == s.requests
            && (if GivesUp(s, r, link) then t.finished == s.finished else t.finished == s.finished + {(r, role)})
            && (GivesUp(s, r, link) || !WaitsFor(s, r) || r !in s.inbox ==> t.row == s.row)
            && (WaitsFor(s, r) && r in s.inbox && !GivesUp(s, r, link) ==>
                  var c := s.inbox[r];
                  && t.row.Some? && t.row.value.request == Some(r) && !WaitsFor(t, r)
                  && (c.failed ==> t.row.value.status.Failed? && !t.row.value.active)
                  && (!c.failed ==> t.row.value.status.Ready? && t.row.value.active && t.row.value.group == c.group
                                    && (c.invite.Some? ==> t.row.value.invite == c.invite)
                                    && (c.invite.None? ==> link.Some? && link.value.Safe?
                                                           && t.row.value.invite == Some(link.value.code))))
  {
    hide DoClaim, DoSave, DoDeliver, Fetched;
    var looked := Step(s, Look(w));
    if r !in s.inbox {
      FetchedIdle(looked, w, link);
    } else if s.inbox[r].failed || s.inbox[r].invite.Some? {
      FetchedApplying(looked, w, r, role, s.inbox[r], link);
    } else if Awaits(s, r) {
      FetchedFetching(Checked(looked, w), w, r, role, link);
    } else {
      FetchedIdle(Checked(looked, w), w, link);
    }
  }

  /** A step whose moment has not come does nothing. */
  lemma Skips(s: State, w: nat, link: Option<Link>)
    ensures !PcOf(s, w).Checking? ==> Step(s, Check(w)) == s
    ensures !PcOf(s, w).Fetching? ==> Step(s, Fetch(w, link)) == s
    ensures !PcOf(s, w).Storing? ==> Step(s, Store(w)) == s
    ensures !PcOf(s, w).Applying? ==> Step(s, Apply(w)) == s
  {
  }

  lemma FetchedIdle(s: State, w: nat, link: Option<Link>)
    requires PcOf(s, w).Idle?
    ensures Fetched(s, w, link) == s
  {
  }

  lemma FetchedApplying(s: State, w: nat, r: nat, role: Role, c: Callback, link: Option<Link>)
    requires PcOf(s, w) == Applying(r, role, c)
    ensures Fetched(s, w, link) ==
            Finish(if Awaits(s, r) then s.(row := Some(Applied(s.row.value, c))) else s, w, r, role)
  {
    hide Finish, Awaits, Applied;
  }

  lemma FetchedFetching(s: State, w: nat, r: nat, role: Role, link: Option<Link>)
    requires PcOf(s, w) == Fetching(r, role) && r in s.inbox && Awaits(s, r)
    ensures var t := Fetched(s, w, link);
            if SafeLink(link).None? then t == At(s, w, Idle)
            else
              var c := s.inbox[r].(invite := SafeLink(link));
              && t.row == Some(Applied(s.row.value, c)) && t.requests == s.requests && PcOf(t, w).Idle?
              && t.finished == s.finished + {(r, role)}
  {
    hide Applied;
  }

  // --- Every step keeps it -------------------------------------------------------------------

  /** Rows never disappear, and what an event says about success and group never changes. */
  ghost predicate Grows(s: State, t: State) {
    && (s.row.Some? ==> t.row.Some?) && s.saved <= t.saved
    && forall r :: r in s.inbox ==>
         r in t.inbox && t.inbox[r].failed == s.inbox[r].failed && t.inbox[r].group == s.inbox[r].group
  }

  lemma SettledStays(s: State, t: State, n: nat)
    requires Grows(s, t) && n <= |s.requests| && n <= |t.requests| && AllSettled(s, n)
    requires forall i :: 0 <= i < n ==> t.requests[i] == s.requests[i]
    ensures AllSettled(t, n)
  {
    forall i | 0 <= i < n
      ensures Settled(t, i)
    {
      assert Settled(s, i);
    }
  }

  /** The settled requests of a state stay settled in a state that has at least as many. */
  lemma StillSettled(s: State, t: State)
    requires RowOk(s) && (s.requests != [] ==> AllSettled(s, |s.requests| - 1))
    requires Grows(s, t) && |s.requests| <= |t.requests|
    requires forall i :: 0 <= i < |s.requests| - 1 ==> t.requests[i] == s.requests[i]
    ensures s.requests != [] ==> AllSettled(t, |s.requests| - 1)
    ensures t.requests[..|s.requests|] == s.requests && AllSettled(s, |s.requests|) ==> AllSettled(t, |s.requests|)
  {
    if s.requests != [] {
      SettledStays(s, t, |s.requests| - 1);
    }
    if t.requests[..|s.requests|] == s.requests && AllSettled(s, |s.requests|) {
      assert forall i :: 0 <= i < |s.requests| ==> t.requests[i] == t.requests[..|s.requests|][i];
      SettledStays(s, t, |s.requests|);
    }
  }

  lemma OthersStay(s: State, t: State, w: nat)
    requires PcsOk(s) && Grows(s, t)
    requires forall v :: v in t.pcs && v != w ==> v in s.pcs && t.pcs[v] == s.pcs[v]
    requires w in t.pcs && PcOk(t, t.pcs[w])
    requires (t.row == s.row && t.requests == s.requests && t.saved == s.saved)
             || forall v :: v in t.pcs && v != w ==> !Holder(t.pcs[v])
    ensures PcsOk(t)
  {
    forall v | v in t.pcs
      ensures PcOk(t, t.pcs[v])
    {
      if v != w {
        assert PcOk(s, s.pcs[v]);
        if s.pcs[v].Claimed? {
          SettledStays(s, t, |s.requests|);
        }
      }
    }
  }

  /** Nobody is on the way to a request while the row says anything but Creating. */
  lemma NoHolder(s: State)
    requires Inv(s) && (s.row.None? || !s.row.value.status.Creating?)
    ensures forall w :: w in s.pcs ==> !Holder(s.pcs[w])
  {
    forall w | w in s.pcs
      ensures !Holder(s.pcs[w])
    {
      assert PcOk(s, s.pcs[w]);
    }
  }

  lemma MoveKeeps(s: State, w: nat, pc: Pc)
    requires Inv(s) && PcOk(s, pc) && !Holder(pc)
    ensures Inv(At(s, w, pc))
  {
    var t := At(s, w, pc);
    StillSettled(s, t);
    OthersStay(s, t, w);
  }

  lemma ClaimKeeps(s: State, w: nat)
    requires Inv(s)
    ensures Inv(DoClaim(s, w))
  {
    var pc, t := PcOf(s, w), DoClaim(s, w);
    if pc.Seen? {
      if PcOf(t, w).Claimed? {
        NoHolder(s);
        StillSettled(s, t);
        assert forall r :: r in s.saved ==> s.requests[r].Some? && Settled(s, r);
        OthersStay(s, t, w);
      } else {
        MoveKeeps(s, w, Idle);
      }
    }
  }

  lemma SendKeeps(s: State, w: nat)
    requires Inv(s)
    ensures Inv(Step(s, Send(w)))
  {
    if PcOf(s, w).Claimed? {
      assert PcOk(s, s.pcs[w]);
      StillSettled(s, Step(s, Send(w)));
      OthersStay(s, Step(s, Send(w)), w);
    }
  }

  lemma ReceiveKeeps(s: State, w: nat, response: Response)
    requires Inv(s)
    ensures Inv(Step(s, Receive(w, response)))
  {
    if PcOf(s, w).Sent? {
      assert PcOk(s, s.pcs[w]);
      StillSettled(s, Step(s, Receive(w, response)));
      OthersStay(s, Step(s, Receive(w, response)), w);
    }
  }

  lemma SaveKeeps(s: State, w: nat)
    requires Inv(s)
    ensures Inv(DoSave(s, w))
  {
    hide NothingLost, InboxOk, SavedOk, AllSettled;
    if PcOf(s, w).Answered? {
      assert PcOk(s, s.pcs[w]);
      var t := DoSave(s, w);
      StillSettled(s, t);
      SaveKeepsRow(s, w);
      SaveLosesNothing(s, w);
      OthersStay(s, t, w);
    }
  }

  lemma SaveKeepsRow(s: State, w: nat)
    requires Inv(s) && PcOf(s, w).Answered?
    ensures RowOk(DoSave(s, w))
  {
    assert PcOk(s, s.pcs[w]);
    var t := DoSave(s, w);
    StillSettled(s, t);
    if Refuses(s.requests[|s.requests| - 1].value) {
      assert Settled(t, |s.requests| - 1);
    }
  }

  /** No creator has reconciled a request before its id is saved, so saving it cannot lose its callback. */
  lemma SaveLosesNothing(s: State, w: nat)
    requires Inv(s) && PcOf(s, w).Answered?
    ensures SavedOk(DoSave(s, w)) && NothingLost(DoSave(s, w)) && InboxOk(DoSave(s, w))
  {
    assert PcOk(s, s.pcs[w]);
  }

  lemma DeliverKeeps(s: State, w: nat, r: nat, failed: bool, group: Option<nat>, link: Option<Link>)
    requires Inv(s)
    ensures Inv(DoDeliver(s, w, r, failed, group, link))
  {
    var t := DoDeliver(s, w, r, failed, group, link);
    if t != s {
      StillSettled(s, t);
      OthersStay(s, t, w);
    }
  }

  /** A reconciliation may end once the row no longer waits for its request, or, for the creator and
      for readers, when no event has arrived yet. */
  lemma FinishKeeps(s: State, w: nat, r: nat, role: Role)
    requires Inv(s) && RoleOk(s, r, role) && (r !in s.inbox || !Awaits(s, r))
    ensures Inv(Finish(s, w, r, role))
  {
    var t := Finish(s, w, r, role);
    StillSettled(s, t);
    OthersStay(s, t, w);
  }

  /** Storing an invitation with an event changes neither its outcome nor its group. */
  lemma StoreKeepsRow(s: State, t: State, r: nat, link: nat)
    requires RowOk(s) && SavedOk(s) && InboxOk(s) && NothingLost(s) && FinishedOk(s) && r in s.inbox
    requires t == s.(inbox := s.inbox[r := s.inbox[r].(invite := Some(link))], pcs := t.pcs)
    ensures RowOk(t) && SavedOk(t) && InboxOk(t) && NothingLost(t) && FinishedOk(t) && Grows(s, t)
  {
    if AllSettled(s, |s.requests|) {
      SettledStays(s, t, |s.requests|);
    }
  }

  lemma StoreKeeps(s: State, w: nat, r: nat, role: Role, link: nat)
    requires Inv(s) && r in s.inbox && RoleOk(s, r, role)
    ensures var c := s.inbox[r].(invite := Some(link)); Inv(At(s.(inbox := s.inbox[r := c]), w, Applying(r, role, c)))
  {
    hide RowOk, SavedOk, InboxOk, NothingLost, FinishedOk, AllSettled, Grows;
    var c := s.inbox[r].(invite := Some(link));
    var t := At(s.(inbox := s.inbox[r := c]), w, Applying(r, role, c));
    StoreKeepsRow(s, t, r, link);
    StillSettled(s, t);
    OthersStay(s, t, w);
  }

  /** Applying an event to the row that waits for it settles the request or makes the group ready. */
  lemma AppliedKeeps(s: State, w: nat, r: nat, role: Role, c: Callback)
    requires Inv(s) && Awaits(s, r) && PcOf(s, w) == Applying(r, role, c)
    ensures var t := s.(row := Some(Applied(s.row.value, c))); Inv(At(t, w, Idle)) && !Awaits(t, r)
  {
    var t := At(s.(row := Some(Applied(s.row.value, c))), w, Idle);
    assert PcOk(s, s.pcs[w]);
    NoHolder(s);
    StillSettled(s, t);
    if c.failed {
      assert Settled(t, r);
    }
    OthersStay(s, t, w);
  }

  lemma ReconcileKeeps(s: State, a: Action)
    requires Inv(s)
    ensures Inv(DoReconcile(s, a))
  {
    hide RowOk, SavedOk, InboxOk, NothingLost, FinishedOk, OneHolder, AllSettled;
    var w := a.who;
    if w in s.pcs {
      assert PcOk(s, s.pcs[w]);
    }
    match (a, PcOf(s, w))
    case (Look(_), Looking(r, role)) =>
      if r !in s.inbox {
        FinishKeeps(s, w, r, role);
      } else {
        MoveKeeps(s, w, PcOf(DoReconcile(s, a), w));
      }
    case (Check(_), Checking(r, role)) =>
      if Awaits(s, r) {
        MoveKeeps(s, w, Fetching(r, role));
      } else {
        FinishKeeps(s, w, r, role);
      }
    case (Fetch(_, link), Fetching(r, role)) => MoveKeeps(s, w, PcOf(DoReconcile(s, a), w));
    case (Store(_), Storing(r, role, link)) => StoreKeeps(s, w, r, role, link);
    case (Apply(_), Applying(r, role, c)) =>
      if Awaits(s, r) {
        AppliedKeeps(s, w, r, role, c);
        var t := At(s.(row := Some(Applied(s.row.value, c))), w, Idle);
        FinishKeeps(t, w, r, role);
        assert Finish(t, w, r, role) == DoReconcile(s, a);
      } else {
        FinishKeeps(s, w, r, role);
      }
    case _ =>
  }

  lemma StepKeeps(s: State, a: Action)
    requires Inv(s)
    ensures Inv(Step(s, a))
  {
    hide Inv, DoClaim, DoSave, DoDeliver, DoReconcile;
    match a
    case Claim(w) => ClaimKeeps(s, w);
    case Send(w) => SendKeeps(s, w);
    case Receive(w, response) => ReceiveKeeps(s, w, response);
    case Save(w) => SaveKeeps(s, w);
    case Deliver(w, r, failed, group, link) => DeliverKeeps(s, w, r, failed, group, link);
    case Open(w) => OpenKeeps(s, w);
    case Refresh(w) => RefreshKeeps(s, w);
    case Stop(w) => MoveKeeps(s, w, Idle);
    case _ => ReconcileKeeps(s, a);
  }

  lemma OpenKeeps(s: State, w: nat)
    requires Inv(s)
    ensures Inv(Step(s, Open(w)))
  {
    if Step(s, Open(w)) != s {
      MoveKeeps(s, w, PcOf(Step(s, Open(w)), w));
    }
  }

  lemma RefreshKeeps(s: State, w: nat)
    requires Inv(s)
    ensures Inv(Step(s, Refresh(w)))
  {
    if Step(s, Refresh(w)) != s {
      MoveKeeps(s, w, PcOf(Step(s, Refresh(w)), w));
    }
  }

  // --- The database and the callers ----------------------------------------------------------------

  lemma AnsweredRow(s: State, w: nat)
    requires Inv(s) && PcOf(s, w).Answered?
    ensures s.row.Some? && s.requests != [] && s.requests[|s.requests| - 1].Some?
  {
    assert PcOk(s, s.pcs[w]);
  }

  class Platform {
    var row: Option<Row>
    var inbox: map<nat, Callback>
    var requests: seq<Option<Response>>
    var pcs: map<nat, Pc>
    ghost var saved: set<nat>
    ghost var finished: set<(nat, Role)>

    ghost function Now(): State reads this { State(row, inbox, requests, pcs, saved, finished) }

    ghost predicate Valid() reads this { Inv(Now()) }

    constructor ()
      ensures Valid() && Now() == Start()
    {
      row, inbox, requests, pcs, saved, finished := None, map[], [], map[], {}, {};
    }

    /** `createManagedWhatsAppGroup` up to the claim: anything but a missing or a failed row sends nothing. */
    method OpenRequest(w: nat) returns (proceed: bool)
      requires Valid() && (w in pcs ==> pcs[w].Idle?)
      modifies this
      ensures Valid() && Now() == Step(old(Now()), Open(w))
      ensures proceed <==> w in pcs && pcs[w].Seen?
      ensures proceed <==> old(row).None? || old(row).value.status == Failed
      ensures proceed ==> pcs[w] == Seen(if old(row).None? then None else Some(old(row).value.version))
      ensures row == old(row) && requests == old(requests)
    {
      StepKeeps(Now(), Open(w));
      proceed := row.None? || row.value.status.Failed?;
      if row.None? {
        pcs := pcs[w := Seen(None)];
      } else if row.value.status.Failed? {
        pcs := pcs[w := Seen(Some(row.value.version))];
      }
    }

    /** The durable claim: create the row, or reset the failed one if nobody has touched it since. */
    method ClaimRow(w: nat) returns (claimed: bool)
      requires Valid() && w in pcs && pcs[w].Seen?
      modifies this
      ensures Valid() && Now() == Step(old(Now()), Claim(w)) && pcs[w] == (if claimed then Claimed else Idle)
      ensures var seen := old(pcs[w].version);
              claimed <==> if old(row).None? then seen == None
                           else seen == Some(old(row).value.version) && old(row).value.status == Failed
      ensures claimed ==> row.Some? && row.value.status == Creating && row.value.request == row.value.group == None
                          && row.value.invite == None && !row.value.active
      ensures requests == old(requests) && (!claimed ==> row == old(row))
    {
      StepKeeps(Now(), Claim(w));
      claimed := false;
      match pcs[w].version {
        case None =>
          if row.None? {
            row, claimed := Some(Fresh(0)), true;
          }
        case Some(seen) =>
          if row.Some? && row.value.status.Failed? && row.value.version == seen {
            row, claimed := Some(Fresh(seen + 1)), true;
          }
      }
      pcs := pcs[w := if claimed then Claimed else Idle];
    }

    /** The remote request, and what came back. */
    method Post(w: nat, response: Response)
      requires Valid() && w in pcs && pcs[w].Claimed?
      modifies this
      ensures Valid() && Now() == Step(Step(old(Now()), Send(w)), Receive(w, response))
      ensures requests == old(requests) + [Some(response)] && row == old(row) && w in pcs && pcs[w].Answered?
    {
      hide Inv, DoClaim, DoSave, DoDeliver, DoReconcile;
      StepKeeps(Now(), Send(w));
      StepKeeps(Step(Now(), Send(w)), Receive(w, response));
      requests := requests + [Some(response)];
      pcs := pcs[w := Answered];
      assert requests == (old(requests) + [None])[|old(requests)| := Some(response)];
      assert pcs == old(pcs)[w := Sent][w := Answered];
    }

    /** The unconditional update by id that follows the answer. */
    method SaveAnswer(w: nat)
      requires Valid() && w in pcs && pcs[w].Answered?
      modifies this
      ensures Valid() && Now() == Step(old(Now()), Save(w)) && requests == old(requests)
      ensures requests != [] && requests[|requests| - 1].Some? && old(row).Some? && row.Some?
      ensures var response, v := requests[|requests| - 1].value, row.value;
              if response.Http? && 200 <= response.status <= 299 && response.hasRequestId then
                v.status == Pending && v.request == Some(|requests| - 1) && pcs[w] == Looking(|requests| - 1, Creator)
              else
                && v.request == old(row).value.request && pcs[w] == Idle
                && v.status == if response.Http? && 400 <= response.status <= 499 && response.status != 408
                               then Failed else Unknown
      ensures var v := row.value;
              (v.group, v.invite, v.active) == (old(row).value.group, old(row).value.invite, old(row).value.active)
    {
      AnsweredRow(Now(), w);
      hide Inv, DoClaim, DoDeliver, DoReconcile;
      StepKeeps(Now(), Save(w));
      var r, v := |requests| - 1, row.value;
      match Classify(requests[r].value) {
        case Accepted =>
          row := Some(v.(request := Some(r), status := Pending, version := v.version + 1));
          saved := saved + {r};
          pcs := pcs[w := Looking(r, Creator)];
        case Rejected =>
          row := Some(v.(status := Failed, version := v.version + 1));
          pcs := pcs[w := Idle];
        case _ =>
          row := Some(v.(status := Unknown, version := v.version + 1));
          pcs := pcs[w := Idle];
      }
    }

    /** `receiveManagedGroupLifecycle` for one event: store it unless one is stored, and go on to reconcile. */
    method StoreEvent(w: nat, r: nat, failed: bool, group: Option<nat>, link: Option<Link>) returns (stored: bool)
      requires Valid() && (w in pcs ==> pcs[w].Idle?) && r < |requests|
      modifies this
      ensures Valid() && Now() == Step(old(Now()), Deliver(w, r, failed, group, link))
      ensures stored <==> failed || (group.Some? && link != Some(Unsafe))
      ensures inbox == if !stored || r in old(inbox) then old(inbox)
                       else old(inbox)[r := Callback(failed, group, if link.Some? && link.value.Safe?
                                                                    then Some(link.value.code) else None)]
      ensures row == old(row) && (stored ==> w in pcs && pcs[w] == Looking(r, Handler))
    {
      StepKeeps(Now(), Deliver(w, r, failed, group, link));
      if !failed && (group.None? || link == Some(Unsafe)) {
        return false;
      }
      if r !in inbox {
        inbox := inbox[r := Callback(failed, group, SafeLink(link))];
      }
      pcs := pcs[w := Looking(r, Handler)];
      stored := true;
    }

    // The steps of `reconcileGroupCreation`, each a database or a remote call of its own.

    method LookUp(w: nat)
      requires Valid() && w in pcs && pcs[w].Looking?
      modifies this
      ensures Valid() && Now() == Step(old(Now()), Look(w)) && w in pcs
    {
      hide RowOk, SavedOk, InboxOk, NothingLost, FinishedOk, OneHolder, PcsOk, AllSettled;
      StepKeeps(Now(), Look(w));
      var r, role := pcs[w].request, pcs[w].role;
      if r !in inbox {
        End(w, r, role);
      } else if inbox[r].failed || inbox[r].invite.Some? {
        pcs := pcs[w := Applying(r, role, inbox[r])];
      } else {
        pcs := pcs[w := Checking(r, role)];
      }
    }

    method CheckRow(w: nat)
      requires Valid() && w in pcs && pcs[w].Checking?
      modifies this
      ensures Valid() && Now() == Step(old(Now()), Check(w)) && w in pcs
    {
      hide RowOk, SavedOk, InboxOk, NothingLost, FinishedOk, OneHolder, PcsOk, AllSettled;
      StepKeeps(Now(), Check(w));
      var r, role := pcs[w].request, pcs[w].role;
      if Waits(r) {
        pcs := pcs[w := Fetching(r, role)];
      } else {
        End(w, r, role);
      }
    }

    method FetchInvite(w: nat, link: Option<Link>)
      requires Valid() && w in pcs && pcs[w].Fetching?
      modifies this
      ensures Valid() && Now() == Step(old(Now()), Fetch(w, link)) && w in pcs
    {
      hide RowOk, SavedOk, InboxOk, NothingLost, FinishedOk, OneHolder, PcsOk, AllSettled;
      StepKeeps(Now(), Fetch(w, link));
      var safe := SafeLink(link);
      pcs := pcs[w := if safe.Some? then Storing(pcs[w].request, pcs[w].role, safe.value) else Idle];
    }

    method StoreInvite(w: nat)
      requires Valid() && w in pcs && pcs[w].Storing?
      modifies this
      ensures Valid() && Now() == Step(old(Now()), Store(w)) && w in pcs
    {
      StepKeeps(Now(), Store(w));
      assert PcOk(Now(), pcs[w]);
      hide RowOk, SavedOk, InboxOk, NothingLost, FinishedOk, OneHolder, PcsOk, AllSettled;
      var r := pcs[w].request;
      var c := inbox[r].(invite := Some(pcs[w].link));
      inbox := inbox[r := c];
      pcs := pcs[w := Applying(r, pcs[w].role, c)];
    }

    method ApplyEvent(w: nat)
      requires Valid() && w in pcs && pcs[w].Applying?
      modifies this
      ensures Valid() && Now() == Step(old(Now()), Apply(w)) && w in pcs
    {
      hide RowOk, SavedOk, InboxOk, NothingLost, FinishedOk, OneHolder, PcsOk, AllSettled;
      StepKeeps(Now(), Apply(w));
      var r, c := pcs[w].request, pcs[w].callback;
      if Waits(r) {
        var v := row.value;
        row := Some(if c.failed then v.(status := Failed, active := false, version := v.version + 1)
                    else v.(group := c.group, invite := c.invite, status := Ready, active := true,
                            version := v.version + 1));
      }
      End(w, r, pcs[w].role);
    }

    predicate Waits(r: nat) reads this {
      row.Some? && row.value.request == Some(r) && (row.value.status.Pending? || row.value.status.Unknown?)
    }

    method End(w: nat, r: nat, role: Role)
      modifies this`pcs, this`finished
      ensures Now() == Finish(old(Now()), w, r, role)
    {
      pcs := pcs[w := Idle];
      finished := finished + {(r, role)};
    }

    /** All of `reconcileGroupCreation`, when nothing comes in between. */
    method Reconcile(w: nat, r: nat, role: Role, link: Option<Link>) returns (gaveUp: bool)
      requires Valid() && w in pcs && pcs[w] == Looking(r, role)
      modifies this
      ensures Valid() && Now() == Reconciled(old(Now()), w, link)
      ensures gaveUp <==> old(GivesUp(Now(), r, link))
    {
      hide Inv, Step, DoReconcile;
      gaveUp := Waits(r) && r in inbox && !inbox[r].failed && inbox[r].invite.None? && SafeLink(link).None?;
      LookUp(w);
      Skips(Now(), w, link);
      if pcs[w].Checking? {
        CheckRow(w);
      }
      Skips(Now(), w, link);
      if pcs[w].Fetching? {
        FetchInvite(w, link);
      }
      Skips(Now(), w, link);
      if pcs[w].Storing? {
        StoreInvite(w);
      }
      Skips(Now(), w, link);
      if pcs[w].Applying? {
        ApplyEvent(w);
      }
    }
  }
}
