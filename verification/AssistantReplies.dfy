/** Assistant replies: the quota, the processing leases and the WhatsApp hand-over
    (assistant.service.ts, assistant.worker.ts). Every database call, and the remote call
    that sends a message, is a step of its own; any number of callers and workers interleave,
    and any of them may stop between two steps. A worker that holds several rows counts as
    several workers. */
module AssistantReplies {
  import opened Outcomes
  import opened Runs

  datatype Status = Queued | Processing | Ready | Sending | Completed | DeliveryUnknown | Failed | Cancelled

  datatype Channel = AiChat | WhatsApp

  /** What a quota counts over. */
  datatype Slot = Slot(tenant: nat, channel: Channel, period: int)

  /** `owner` stands for the user and project, `prompt` and `text` for contents. */
  datatype Reply = Reply(
    slot: Slot, key: nat, owner: nat, prompt: nat, createdAt: int,
    status: Status, attempts: nat, lease: Option<int>, text: Option<nat>)

  /** Where a worker is. `claim` is the attempt its own claim started, `fence` the one it read afterwards. */
  datatype Pc =
    | Idle
    | Picked(id: nat, row: Reply, now: int)
    | Starting(id: nat, job: bool)
    | Exhausting(id: nat, job: bool)
    | Claimed(id: nat, job: bool, claim: nat)
    | Working(id: nat, job: bool, claim: nat, fence: nat)
    | Returning(id: nat, job: bool)
    | Held(id: nat, row: Reply)
    | Delivering(id: nat, text: nat)
    | Sent(id: nat)

  datatype Handover = Handover(id: nat, text: nat)

  /** `handed` lists what was handed to the provider. */
  datatype State = State(replies: map<nat, Reply>, next: nat, pcs: map<nat, Pc>, handed: seq<Handover>)

  datatype Action =
    | Reserve(slot: Slot, key: nat, owner: nat, prompt: nat, now: int, limit: int, recorded: Option<nat>)
    | Ask(who: nat, id: nat)
    | Pick(who: nat, id: nat, now: int)
    | Handle(who: nat)
    | Begin(who: nat, now: int)
    | Exhaust(who: nat, now: int)
    | ReadBack(who: nat)
    | Finish(who: nat, outcome: Option<nat>)
    | Reread(who: nat)
    | Refuse(who: nat)
    | ClaimSend(who: nat)
    | Hand(who: nat, reached: bool)
    | Record(who: nat, delivered: bool)
    | Purge(id: nat, now: int)
    | Abandon(id: nat)
    | Stop(who: nat)

  const MAX_ATTEMPTS := 3
  const LEASE := 60000
  const SENDABLE := 23 * 3600000
  const KEPT := 90 * 86400000

  function PcOf(s: State, w: nat): Pc { if w in s.pcs then s.pcs[w] else Idle }

  function At(s: State, w: nat, pc: Pc): State { s.(pcs := s.pcs[w := pc]) }

  function With(s: State, id: nat, r: Reply): State { s.(replies := s.replies[id := r]) }

  predicate Expired(r: Reply, now: int) { r.lease.Some? && r.lease.value < now }

  // --- Reserving --------------------------------------------------------------------------------

  predicate HasKey(r: Reply, slot: Slot, key: nat) {
    r.slot.tenant == slot.tenant && r.slot.channel == slot.channel && r.key == key
  }

  /** The replies that count against a quota. */
  function Counted(replies: map<nat, Reply>, slot: Slot): set<nat> {
    set id | id in replies && replies[id].slot == slot && !replies[id].status.Cancelled?
  }

  function WithKey(replies: map<nat, Reply>, slot: Slot, key: nat): set<nat> {
    set id | id in replies && HasKey(replies[id], slot, key)
  }

  function NewReply(slot: Slot, key: nat, owner: nat, prompt: nat, now: int, recorded: Option<nat>): Reply {
    Reply(slot, key, owner, prompt, now, if recorded.Some? then Completed else Queued, 0, None, recorded)
  }

  function DoReserve(s: State, slot: Slot, key: nat, owner: nat, prompt: nat, now: int, limit: int,
                     recorded: Option<nat>): State {
    if WithKey(s.replies, slot, key) != {} || |Counted(s.replies, slot)| >= limit then s
    else With(s, s.next, NewReply(slot, key, owner, prompt, now, recorded)).(next := s.next + 1)
  }

  /** A request is known by its tenant, its channel and its key, whatever the period. */
  ghost predicate SameRequest(r: Reply, slot: Slot, key: nat) {
    r.key == key && r.slot.channel == slot.channel && r.slot.tenant == slot.tenant
  }

  // --- Processing -------------------------------------------------------------------------------

  predicate Claimable(r: Reply, now: int) {
    r.attempts < MAX_ATTEMPTS && (r.status.Queued? || (r.status.Processing? && Expired(r, now)))
  }

  function Taken(r: Reply, now: int): Reply {
    r.(status := Processing, attempts := r.attempts + 1, lease := Some(now + LEASE))
  }

  function Done(r: Reply, outcome: Option<nat>): Reply {
    match outcome
    case Some(text) => r.(status := if r.slot.channel.WhatsApp? then Ready else Completed, lease := None,
                          text := Some(text))
    case None => r.(status := Failed, lease := None)
  }

  function DoBegin(s: State, w: nat, now: int): State {
    match PcOf(s, w)
    case Starting(id, job) =>
      if id in s.replies && Claimable(s.replies[id], now)
      then At(With(s, id, Taken(s.replies[id], now)), w, Claimed(id, job, s.replies[id].attempts + 1))
      else At(s, w, Exhausting(id, job))
    case _ => s
  }

  function DoExhaust(s: State, w: nat, now: int): State {
    match PcOf(s, w)
    case Exhausting(id, job) =>
      var t := At(s, w, Returning(id, job));
      if id in s.replies && s.replies[id].status.Processing? && s.replies[id].attempts >= MAX_ATTEMPTS
          && Expired(s.replies[id], now)
      then With(t, id, s.replies[id].(status := Failed, lease := None)) else t
    case _ => s
  }

  /** The row is read in a call of its own after the claim, and its attempts become the fence. */
  function DoReadBack(s: State, w: nat): State {
    match PcOf(s, w)
    case Claimed(id, job, claim) =>
      if id in s.replies then At(s, w, Working(id, job, claim, s.replies[id].attempts)) else At(s, w, Idle)
    case _ => s
  }

  function DoFinish(s: State, w: nat, outcome: Option<nat>): State {
    match PcOf(s, w)
    case Working(id, job, claim, fence) =>
      var t := At(s, w, Returning(id, job));
      if id in s.replies && s.replies[id].status.Processing? && s.replies[id].attempts == fence
      then With(t, id, Done(s.replies[id], outcome)) else t
    case _ => s
  }

  function DoReread(s: State, w: nat): State {
    match PcOf(s, w)
    case Returning(id, job) => At(s, w, if job && id in s.replies then Held(id, s.replies[id]) else Idle)
    case _ => s
  }

  // --- The delivery job ---------------------------------------------------------------------------

  predicate Selected(r: Reply, now: int) {
    r.slot.channel.WhatsApp? && (r.status.Queued? || r.status.Ready? || (r.status.Processing? && Expired(r, now)))
  }

  predicate TooLate(row: Reply, now: int) {
    now - row.createdAt > SENDABLE || (row.attempts >= MAX_ATTEMPTS && !row.status.Ready?)
  }

  /** What the job does with a row it picked: expire it, go on to deliver it, or process it first. */
  function DoHandle(s: State, w: nat): State {
    match PcOf(s, w)
    case Picked(id, row, now) =>
      if TooLate(row, now) then
        var t := At(s, w, Idle);
        if id in s.replies && s.replies[id].status == row.status
        then With(t, id, s.replies[id].(status := Failed))
        else t
      else At(s, w, if row.status.Ready? then Held(id, row) else Starting(id, true))
    case _ => s
  }

  /** The plan lapsed or the sender's access changed since the reply was written. */
  function DoRefuse(s: State, w: nat): State {
    match PcOf(s, w)
    case Held(id, row) =>
      var t := At(s, w, Idle);
      if row.status.Ready? && id in s.replies && s.replies[id].status.Ready?
      then With(t, id, s.replies[id].(status := Failed, text := None)) else t
    case _ => s
  }

  function DoClaimSend(s: State, w: nat): State {
    match PcOf(s, w)
    case Held(id, row) =>
      if row.status.Ready? && row.text.Some? && id in s.replies && s.replies[id].status.Ready?
      then At(With(s, id, s.replies[id].(status := Sending)), w, Delivering(id, row.text.value))
      else At(s, w, Idle)
    case _ => s
  }

  function DoHand(s: State, w: nat, reached: bool): State {
    match PcOf(s, w)
    case Delivering(id, text) =>
      var t := At(s, w, Sent(id));
      if reached then t.(handed := s.handed + [Handover(id, text)]) else t
    case _ => s
  }

  function DoRecord(s: State, w: nat, delivered: bool): State {
    match PcOf(s, w)
    case Sent(id) =>
      var t := At(s, w, Idle);
      if id in s.replies
      then With(t, id, s.replies[id].(status := if delivered then Completed else DeliveryUnknown))
      else t
    case _ => s
  }

  function Step(s: State, a: Action): State {
    match a
    case Reserve(slot, key, owner, prompt, now, limit, recorded) =>
      DoReserve(s, slot, key, owner, prompt, now, limit, recorded)
    case Ask(w, id) => if PcOf(s, w).Idle? && id < s.next then At(s, w, Starting(id, false)) else s
    case Pick(w, id, now) =>
      if PcOf(s, w).Idle? && id in s.replies && Selected(s.replies[id], now)
      then At(s, w, Picked(id, s.replies[id], now))
      else s
    case Handle(w) => DoHandle(s, w)
    case Begin(w, now) => DoBegin(s, w, now)
    case Exhaust(w, now) => DoExhaust(s, w, now)
    case ReadBack(w) => DoReadBack(s, w)
    case Finish(w, outcome) => DoFinish(s, w, outcome)
    case Reread(w) => DoReread(s, w)
    case Refuse(w) => DoRefuse(s, w)
    case ClaimSend(w) => DoClaimSend(s, w)
    case Hand(w, reached) => DoHand(s, w, reached)
    case Record(w, delivered) => DoRecord(s, w, delivered)
    case Purge(id, now) =>
      if id in s.replies && s.replies[id].createdAt < now - KEPT then s.(replies := s.replies - {id}) else s
    case Abandon(id) =>
      if id in s.replies then With(s, id, s.replies[id].(status := Failed, lease := None)) else s
    case Stop(w) => At(s, w, Idle)
  }

  function Start(): State { State(map[], 0, map[], []) }

  function Run(actions: seq<Action>): State { RunFrom(Step, Start(), actions) }

  // --- What every run keeps --------------------------------------------------------------------------------

  /** How far a reply has come. No step takes one back. */
  function Rank(status: Status): nat {
    match status
    case Queued => 0
    case Processing => 1
    case Ready => 2
    case Sending => 3
    case _ => 4
  }

  predicate Handed(s: State, id: nat) { exists i :: 0 <= i < |s.handed| && s.handed[i].id == id }

  ghost predicate ReplyOk(s: State, id: nat)
    requires id in s.replies
  {
    var r := s.replies[id];
    && id < s.next && r.attempts <= MAX_ATTEMPTS && !r.status.Cancelled?
    && (r.status.Queued? ==> r.attempts == 0)
    && (Rank(r.status) < 2 ==> r.text == None)
    && (Handed(s, id) ==> Rank(r.status) >= 3)
  }

  /** A reply seen ready is past processing, and while it is still ready its text is the one seen. */
  ghost predicate SeenOk(s: State, id: nat, row: Reply) {
    && id < s.next
    && (row.status.Ready? && id in s.replies ==>
          Rank(s.replies[id].status) >= 2 && (s.replies[id].status.Ready? ==> s.replies[id].text == row.text))
  }

  ghost predicate PcOk(s: State, pc: Pc) {
    match pc
    case Idle => true
    case Picked(id, row, now) => SeenOk(s, id, row) && Rank(row.status) <= 2
    case Starting(id, job) => id < s.next
    case Exhausting(id, job) => id < s.next
    case Claimed(id, job, claim) => id < s.next && 1 <= claim && (id in s.replies ==> claim <= s.replies[id].attempts)
    case Working(id, job, claim, fence) =>
      id < s.next && 1 <= claim <= fence && (id in s.replies ==> fence <= s.replies[id].attempts)
    case Returning(id, job) => id < s.next
    case Held(id, row) => SeenOk(s, id, row)
    case Delivering(id, text) =>
      && id < s.next && !Handed(s, id)
      && (id in s.replies ==> Rank(s.replies[id].status) >= 3 && s.replies[id].text == Some(text))
    case Sent(id) => id < s.next && (id in s.replies ==> Rank(s.replies[id].status) >= 3)
  }

  ghost predicate HandedOk(s: State) {
    && (forall i, j :: 0 <= i < j < |s.handed| ==> s.handed[i].id != s.handed[j].id)
    && (forall i :: 0 <= i < |s.handed| ==> s.handed[i].id < s.next)
    && (forall i :: 0 <= i < |s.handed| && s.handed[i].id in s.replies ==>
          s.replies[s.handed[i].id].text == Some(s.handed[i].text))
  }

  predicate Claiming(pc: Pc) { pc.Claimed? || pc.Working? }

  /** Every claim of a reply started an attempt of its own, and one worker at most delivers a reply. */
  predicate Apart(p: Pc, q: Pc) {
    && (Claiming(p) && Claiming(q) && p.id == q.id ==> p.claim != q.claim)
    && !(p.Delivering? && q.Delivering? && p.id == q.id)
  }

  ghost predicate AllApart(s: State) {
    forall v, w :: v in s.pcs && w in s.pcs && v != w ==> Apart(s.pcs[v], s.pcs[w])
  }

  ghost predicate KeysOk(s: State) {
    forall i, j ::
      i in s.replies && j in s.replies && HasKey(s.replies[i], s.replies[j].slot, s.replies[j].key) ==> i == j
  }

  ghost predicate RepliesOk(s: State) { forall id :: id in s.replies ==> ReplyOk(s, id) }

  ghost predicate PcsOk(s: State) { forall w :: w in s.pcs ==> PcOk(s, s.pcs[w]) }

  ghost predicate Inv(s: State) { RepliesOk(s) && PcsOk(s) && HandedOk(s) && AllApart(s) && KeysOk(s) }

  /** A reply keeps its identity, never goes back, and once it is answered its text only ever goes away,
      when a ready reply is refused. */
  ghost predicate Later(r: Reply, q: Reply) {
    && q.slot == r.slot && q.key == r.key && q.owner == r.owner && q.prompt == r.prompt && q.createdAt == r.createdAt
    && Rank(r.status) <= Rank(q.status) && r.attempts <= q.attempts
    && (Rank(r.status) >= 2 ==> q.attempts == r.attempts
                                && (q.text == r.text || (r.status.Ready? && Rank(q.status) == 4 && q.text == None)))
  }

  ghost predicate Progress(s: State, t: State) {
    && s.next <= t.next && s.handed <= t.handed
    && forall id :: id in t.replies && id < s.next ==> id in s.replies && Later(s.replies[id], t.replies[id])
  }

  predicate Fits(r: Reply) {
    && r.attempts <= MAX_ATTEMPTS && !r.status.Cancelled?
    && (r.status.Queued? ==> r.attempts == 0) && (Rank(r.status) < 2 ==> r.text == None)
  }

  lemma StepKeeps(s: State, a: Action)
    requires Inv(s)
    ensures Inv(Step(s, a)) && Progress(s, Step(s, a))
  {
    hide Inv, Progress, DoBegin, DoExhaust, DoReadBack, DoFinish, DoReread, DoHandle, DoRefuse, DoClaimSend,
      DoHand, DoRecord, DoReserve;
    match a
    case Reserve(slot, key, owner, prompt, now, limit, recorded) =>
      ReserveKeeps(s, slot, key, owner, prompt, now, limit, recorded);
    case Handle(w) => HandleKeeps(s, w);
    case Begin(w, now) => BeginKeeps(s, w, now);
    case Exhaust(w, now) => ExhaustKeeps(s, w, now);
    case ReadBack(w) => ReadBackKeeps(s, w);
    case Finish(w, outcome) => FinishKeeps(s, w, outcome);
    case Reread(w) => RereadKeeps(s, w);
    case Refuse(w) => RefuseKeeps(s, w);
    case ClaimSend(w) => ClaimSendKeeps(s, w);
    case Hand(w, reached) => HandKeeps(s, w, reached);
    case Record(w, delivered) => RecordKeeps(s, w, delivered);
    case _ => OtherKeeps(s, a);
  }

  // --- Uninterrupted processing and delivery ---------------------------------------------------------------

  /** `processReply` with nothing in between. */
  function Processed(s: State, w: nat, now: int, outcome: Option<nat>): State {
    DoReread(DoExhaust(DoFinish(DoReadBack(DoBegin(s, w, now), w), w, outcome), w, now), w)
  }

  /** A reply that waits to be processed, for the first time or because the last attempt at it ran out of time. */
  ghost predicate Waits(r: Reply, now: int) {
    r.status == Queued || (r.status == Processing && r.lease.Some? && r.lease.value < now)
  }

  /** What processing makes of a reply when nothing comes in between: at most three attempts; an answer is ready to
      be sent on WhatsApp and complete in the app; no answer fails it. */
  ghost predicate ProcessedTo(r: Reply, now: int, outcome: Option<nat>, q: Reply) {
    if Waits(r, now) && r.attempts < 3 then
      match outcome
      case Some(text) => q == Reply(r.slot, r.key, r.owner, r.prompt, r.createdAt,
                                    if r.slot.channel == WhatsApp then Ready else Completed,
                                    r.attempts + 1, None, Some(text))
      case None => q == Reply(r.slot, r.key, r.owner, r.prompt, r.createdAt, Failed, r.attempts + 1, None, r.text)
    else if Waits(r, now) && r.status == Processing then
      q == Reply(r.slot, r.key, r.owner, r.prompt, r.createdAt, Failed, r.attempts, None, r.text)
    else q == r
  }

  /** Without interference a claim is followed by its own answer; a reply that cannot be claimed stays as it
      is, except that one that used up its attempts and its lease fails. */
  lemma ProcessedMeans(s: State, w: nat, id: nat, job: bool, now: int, outcome: Option<nat>)
    requires Inv(s) && PcOf(s, w) == Starting(id, job) && id in s.replies
    ensures var t := Processed(s, w, now, outcome);
            && id in t.replies && ProcessedTo(s.replies[id], now, outcome, t.replies[id])
            && t == At(With(s, id, t.replies[id]), w, if job then Held(id, t.replies[id]) else Idle)
  {
    assert ReplyOk(s, id);
    if Claimable(s.replies[id], now) {
      ClaimedMeans(s, w, id, job, now, outcome);
    } else {
      Unclaimed(s, w, id, job, now, outcome);
    }
  }

  function Delivered(s: State, w: nat, allowed: bool, reached: bool, delivered: bool): State {
    if !allowed then DoRefuse(s, w)
    else if PcOf(DoClaimSend(s, w), w).Delivering? then DoRecord(DoHand(DoClaimSend(s, w), w, reached), w, delivered)
    else DoClaimSend(s, w)
  }

  /** A held ready reply that is still ready leaves exactly one message behind it, or none if it is refused
      or the provider was never reached; anything else leaves everything as it is. */
  lemma DeliveredMeans(s: State, w: nat, allowed: bool, reached: bool, delivered: bool)
    requires Inv(s) && PcOf(s, w).Held? && PcOf(s, w).id in s.replies
    ensures var id, row, t := PcOf(s, w).id, PcOf(s, w).row, Delivered(s, w, allowed, reached, delivered);
            var r := s.replies[id];
            && PcOf(t, w).Idle?
            && if !row.status.Ready? || !r.status.Ready? || (allowed && r.text.None?) then t.replies == s.replies
                && t.handed == s.handed
               else if !allowed then
                 t.replies == s.replies[id := r.(status := Failed, text := None)] && t.handed == s.handed
               else && t.replies == s.replies[id := r.(status := if delivered then Completed else DeliveryUnknown)]
                    && t.handed == s.handed + if reached then [Handover(id, r.text.value)] else []
  {
    var id, row := PcOf(s, w).id, PcOf(s, w).row;
    assert PcOk(s, s.pcs[w]);
    hide Inv, PcOk, Delivered;
    if !allowed {
      RefusedMeans(s, w, reached, delivered);
    } else if row.status.Ready? && s.replies[id].status.Ready? && s.replies[id].text.Some? {
      SentMeans(s, w, reached, delivered);
    } else {
      NotSent(s, w, reached, delivered);
    }
  }

  /** What the outside world does to one row: the reply generated, access, the provider. */
  datatype Job = Job(now: int, outcome: Option<nat>, allowed: bool, reached: bool, delivered: bool)

  function Jobbed(s: State, w: nat, job: Job): State {
    var handled := DoHandle(s, w);
    var processed := if PcOf(handled, w).Starting? then Processed(handled, w, job.now, job.outcome) else handled;
    if PcOf(processed, w).Held? then Delivered(processed, w, job.allowed, job.reached, job.delivered) else processed
  }

  /** What the job makes of a row it picked at `now` when nothing comes in between, p being the reply once it has
      been processed: rows older than 23 hours and rows out of attempts fail; a reply that is ready is sent and
      completed, left with unknown delivery, or refused and cleared of its text. */
  ghost predicate JobbedTo(id: nat, row: Reply, now: int, job: Job, p: Reply, q: Reply, sent: seq<Handover>) {
    if now - row.createdAt > 82800000 || (row.attempts >= 3 && row.status != Ready) then
      p == row && q == row.(status := Failed) && sent == []
    else
      && (if row.status == Ready then p == row else ProcessedTo(row, job.now, job.outcome, p))
      && if p.status != Ready || (job.allowed && p.text == None) then q == p && sent == []
         else if !job.allowed then q == p.(status := Failed, text := None) && sent == []
         else q == p.(status := if job.delivered then Completed else DeliveryUnknown)
              && sent == if job.reached then [Handover(id, p.text.value)] else []
  }

  lemma JobMeans(s: State, w: nat, job: Job)
    requires Inv(s) && PcOf(s, w).Picked? && PcOf(s, w).id in s.replies
    requires s.replies[PcOf(s, w).id] == PcOf(s, w).row
    ensures var id, row, now, t := PcOf(s, w).id, PcOf(s, w).row, PcOf(s, w).now, Jobbed(s, w, job);
            && id in t.replies && s.handed <= t.handed
            && exists p :: JobbedTo(id, row, now, job, p, t.replies[id], t.handed[|s.handed|..])
  {
    hide Inv, Processed, Delivered, DoHandle, TooLate, Progress;
    var id, row, now, t := PcOf(s, w).id, PcOf(s, w).row, PcOf(s, w).now, Jobbed(s, w, job);
    var handled := DoHandle(s, w);
    HandleKeeps(s, w);
    HandledMeans(s, w);
    if TooLate(row, now) {
      assert JobbedTo(id, row, now, job, row, t.replies[id], []) by { LateMeans(row, now); }
      assert t.handed[|s.handed|..] == [];
    } else {
      LateMeans(row, now);
      if row.status == Ready {
        HeldMeans(handled, w, job, row);
        assert JobbedTo(id, row, now, job, row, t.replies[id], t.handed[|s.handed|..]);
      } else {
        ProcessedMeans(handled, w, id, true, job.now, job.outcome);
        var processed := Processed(handled, w, job.now, job.outcome);
        ProcessedKeeps(handled, w, job.now, job.outcome);
        HeldMeans(processed, w, job, processed.replies[id]);
        assert JobbedTo(id, row, now, job, processed.replies[id], t.replies[id], t.handed[|s.handed|..]);
      }
    }
  }

  /** A reply that is still queued, in time and answered, with access and a provider that is reached, is handed over
      with its answer, and only a failure afterwards leaves its delivery unknown. */
  lemma QueuedJob(s: State, w: nat, job: Job)
    requires Inv(s) && PcOf(s, w).Picked? && PcOf(s, w).id in s.replies
    requires s.replies[PcOf(s, w).id] == PcOf(s, w).row
    ensures var id, row, t := PcOf(s, w).id, PcOf(s, w).row, Jobbed(s, w, job);
            row.status == Queued && row.slot.channel == WhatsApp && row.attempts < 3
            && PcOf(s, w).now - row.createdAt <= 82800000
            && job.outcome.Some? && job.allowed && job.reached ==>
              && id in t.replies && t.handed == s.handed + [Handover(id, job.outcome.value)]
              && t.replies[id].status == if job.delivered then Completed else DeliveryUnknown
  {
    hide Inv, Jobbed;
    JobMeans(s, w, job);
    var id, t := PcOf(s, w).id, Jobbed(s, w, job);
    assert t.handed == s.handed + t.handed[|s.handed|..];
  }

  // --- The database and its callers -------------------------------------------------------------------

  class Desk {
    var replies: map<nat, Reply>
    var next: nat
    var pcs: map<nat, Pc>
    var handed: seq<Handover>

    ghost function Now(): State reads this { State(replies, next, pcs, handed) }

    ghost predicate Valid() reads this { Inv(Now()) }

    constructor ()
      ensures Valid() && Now() == Start()
    {
      replies, next, pcs, handed := map[], 0, map[], [];
      new;
      Empty();
    }

    /** `reserveReply`: under the tenant's lock, find the reply of this request or make one within the quota. */
    method ReserveReply(slot: Slot, key: nat, owner: nat, prompt: nat, now: int, limit: int,
                        eligible: bool) returns (r: Result<nat>)
      requires Valid()
      modifies this
      ensures Valid()
      ensures Now() ==
              if eligible then DoReserve(old(Now()), slot, key, owner, prompt, now, limit, None) else old(Now())
      ensures !eligible ==> r == Err(Forbidden)
      ensures r.Err? ==> replies == old(replies)
      ensures forall id :: eligible && id in old(replies) && SameRequest(old(replies)[id], slot, key) ==>
                && replies == old(replies)
                && r == if old(replies)[id].owner != owner then Err(Forbidden)
                        else if old(replies)[id].prompt != prompt then Err(Conflict) else Ok(id)
      ensures eligible && (forall id :: id in old(replies) ==> !SameRequest(old(replies)[id], slot, key)) ==>
                var used := set id | id in old(replies) && old(replies)[id].slot == slot
                                     && old(replies)[id].status != Cancelled;
                && (r == Err(TooMany) <==> |used| >= limit) && (r.Ok? <==> |used| < limit)
                && (r.Ok? ==> r.value !in old(replies)
                              && replies == old(replies)[r.value :=
                                   Reply(slot, key, owner, prompt, now, Queued, 0, None, None)])
    {
      hide Inv, Progress, Counted;
      if !eligible {
        return Err(Forbidden);
      }
      CountedMeans(replies, slot);
      NoneCancelled(Now());
      ReserveKeeps(Now(), slot, key, owner, prompt, now, limit, None);
      var found := WithKey(replies, slot, key);
      assert forall id :: id in replies && HasKey(replies[id], slot, key) ==> id in found;
      hide WithKey;
      if found != {} {
        var id :| id in found;
        SameKey(Now(), slot, key, id);
        if replies[id].owner != owner {
          return Err(Forbidden);
        }
        if replies[id].prompt != prompt {
          return Err(Conflict);
        }
        return Ok(id);
      }
      if |Counted(replies, slot)| >= limit {
        return Err(TooMany);
      }
      replies := replies[next := NewReply(slot, key, owner, prompt, now, None)];
      r := Ok(next);
      next := next + 1;
    }

    lemma SameKey(s: State, slot: Slot, key: nat, id: nat)
      requires Inv(s) && id in WithKey(s.replies, slot, key)
      ensures forall i :: i in s.replies && HasKey(s.replies[i], slot, key) ==> i == id
    {
      hide RepliesOk, PcsOk, HandedOk, AllApart;
    }

    // The database calls of `processReply`.

    method ClaimReply(w: nat, now: int) returns (claimed: bool)
      requires Valid() && w in pcs && pcs[w].Starting?
      modifies this
      ensures Valid() && Now() == DoBegin(old(Now()), w, now) && w in pcs && handed == old(handed)
      ensures if claimed then pcs[w].Claimed? else pcs[w].Exhausting?
      ensures var id := old(pcs[w].id);
              claimed <==> id in old(replies) && old(replies)[id].attempts < 3 && Waits(old(replies)[id], now)
      ensures var id := old(pcs[w].id);
              replies == if !claimed then old(replies)
                         else old(replies)[id := old(replies)[id].(status := Processing, lease := Some(now + 60000),
                                                                   attempts := old(replies)[id].attempts + 1)]
    {
      hide Inv, Progress;
      BeginKeeps(Now(), w, now);
      var id, job := pcs[w].id, pcs[w].job;
      claimed := id in replies && Claimable(replies[id], now);
      if claimed {
        var r := replies[id];
        replies := replies[id := Taken(r, now)];
        pcs := pcs[w := Claimed(id, job, r.attempts + 1)];
      } else {
        pcs := pcs[w := Exhausting(id, job)];
      }
    }

    method FailExhausted(w: nat, now: int)
      requires Valid() && w in pcs && pcs[w].Exhausting?
      modifies this
      ensures Valid() && Now() == DoExhaust(old(Now()), w, now) && w in pcs && pcs[w].Returning?
      ensures var id := old(pcs[w].id);
              replies == if id in old(replies) && old(replies)[id].status == Processing
                            && old(replies)[id].attempts >= 3 && Waits(old(replies)[id], now)
                         then old(replies)[id := old(replies)[id].(status := Failed, lease := None)] else old(replies)
    {
      hide Inv, Progress;
      ExhaustKeeps(Now(), w, now);
      var id := pcs[w].id;
      pcs := pcs[w := Returning(id, pcs[w].job)];
      if id in replies && replies[id].status == Processing && replies[id].attempts >= MAX_ATTEMPTS
          && Expired(replies[id], now) {
        replies := replies[id := replies[id].(status := Failed, lease := None)];
      }
    }

    method ReadRow(w: nat)
      requires Valid() && w in pcs && pcs[w].Claimed?
      modifies this
      ensures Valid() && Now() == DoReadBack(old(Now()), w) && w in pcs && (pcs[w].Working? || pcs[w].Idle?)
    {
      hide Inv, Progress;
      ReadBackKeeps(Now(), w);
      var id := pcs[w].id;
      pcs := pcs[w := if id in replies then Working(id, pcs[w].job, pcs[w].claim, replies[id].attempts) else Idle];
    }

    /** Write the answer, or the failure, if the fence still holds. */
    method Settle(w: nat, outcome: Option<nat>)
      requires Valid() && w in pcs && pcs[w].Working?
      modifies this
      ensures Valid() && Now() == DoFinish(old(Now()), w, outcome) && w in pcs && pcs[w].Returning?
      ensures var id, fence := old(pcs[w].id), old(pcs[w].fence);
              if id in old(replies) && old(replies)[id].status == Processing && old(replies)[id].attempts == fence then
                var r := old(replies)[id];
                replies == old(replies)[id :=
                  match outcome
                  case None => r.(status := Failed, lease := None)
                  case Some(text) => r.(status := if r.slot.channel == WhatsApp then Ready else Completed,
                                        lease := None, text := Some(text))]
              else replies == old(replies)
    {
      hide Inv, Progress;
      FinishKeeps(Now(), w, outcome);
      var id, fence := pcs[w].id, pcs[w].fence;
      pcs := pcs[w := Returning(id, pcs[w].job)];
      if id in replies && replies[id].status == Processing && replies[id].attempts == fence {
        var r := replies[id];
        match outcome {
          case Some(text) =>
            replies := replies[id := r.(status := if r.slot.channel == WhatsApp then Ready else Completed,
                                        lease := None, text := Some(text))];
          case None =>
            replies := replies[id := r.(status := Failed, lease := None)];
        }
      }
    }

    method ReadAgain(w: nat)
      requires Valid() && w in pcs && pcs[w].Returning?
      modifies this
      ensures Valid() && Now() == DoReread(old(Now()), w) && w in pcs && (pcs[w].Held? || pcs[w].Idle?)
    {
      hide Inv, Progress;
      RereadKeeps(Now(), w);
      var id := pcs[w].id;
      pcs := pcs[w := if pcs[w].job && id in replies then Held(id, replies[id]) else Idle];
    }

    /** All of `processReply`, when nothing comes in between. */
    method ProcessReply(w: nat, now: int, outcome: Option<nat>)
      requires Valid() && w in pcs && pcs[w].Starting?
      modifies this
      ensures Valid() && Now() == Processed(old(Now()), w, now, outcome)
      ensures old(pcs[w].id in replies) ==>
                var id := old(pcs[w].id);
                id in replies && ProcessedTo(old(replies)[id], now, outcome, replies[id]) && handed == old(handed)
    {
      hide Inv, DoBegin, DoFinish, DoReread, ProcessedTo;
      if pcs[w].id in replies {
        ProcessedMeans(Now(), w, pcs[w].id, pcs[w].job, now, outcome);
      }
      var claimed := ClaimReply(w, now);
      Steady(Now(), w, now, outcome);
      if claimed {
        ReadRow(w);
        Steady(Now(), w, now, outcome);
        if pcs[w].Working? {
          Settle(w, outcome);
        }
      }
      Steady(Now(), w, now, outcome);
      if pcs[w].Exhausting? {
        FailExhausted(w, now);
      }
      Steady(Now(), w, now, outcome);
      if pcs[w].Returning? {
        ReadAgain(w);
      }
    }

    // The database calls of `runAssistantJobs`, for one of the rows it picked.

    method HandleRow(w: nat)
      requires Valid() && w in pcs && pcs[w].Picked?
      modifies this
      ensures Valid() && Now() == DoHandle(old(Now()), w) && w in pcs && handed == old(handed)
      ensures pcs[w].Held? || pcs[w] == Idle || (pcs[w].Starting? && pcs[w].job)
      ensures var id, row := old(pcs[w].id), old(pcs[w].row);
              if old(pcs[w].now) - row.createdAt > 82800000 || (row.attempts >= 3 && row.status != Ready) then
                && pcs[w] == Idle
                && replies == if id in old(replies) && old(replies)[id].status == row.status
                              then old(replies)[id := old(replies)[id].(status := Failed)] else old(replies)
              else
                replies == old(replies) && pcs[w] == if row.status == Ready then Held(id, row) else Starting(id, true)
    {
      hide Inv, Progress;
      HandleKeeps(Now(), w);
      var id, row := pcs[w].id, pcs[w].row;
      if TooLate(row, pcs[w].now) {
        if id in replies && replies[id].status == row.status {
          replies := replies[id := replies[id].(status := Failed)];
        }
        pcs := pcs[w := Idle];
      } else {
        pcs := pcs[w := if row.status == Ready then Held(id, row) else Starting(id, true)];
      }
    }

    method RefuseReply(w: nat)
      requires Valid() && w in pcs && pcs[w].Held?
      modifies this
      ensures Valid() && Now() == DoRefuse(old(Now()), w) && w in pcs && pcs[w] == Idle && handed == old(handed)
      ensures var id := old(pcs[w].id);
              replies == if old(pcs[w].row.status) == Ready && id in old(replies) && old(replies)[id].status == Ready
                         then old(replies)[id := old(replies)[id].(status := Failed, text := None)] else old(replies)
    {
      hide Inv, Progress;
      RefuseKeeps(Now(), w);
      var id, row := pcs[w].id, pcs[w].row;
      if row.status == Ready && id in replies && replies[id].status == Ready {
        replies := replies[id := replies[id].(status := Failed, text := None)];
      }
      pcs := pcs[w := Idle];
    }

    /** The compare-and-set that lets one worker send. */
    method ClaimForSending(w: nat) returns (mine: bool)
      requires Valid() && w in pcs && pcs[w].Held?
      modifies this
      ensures Valid() && Now() == DoClaimSend(old(Now()), w) && w in pcs
      ensures var id, row := old(pcs[w].id), old(pcs[w].row);
              && (mine <==> row.status == Ready && row.text.Some?
                            && id in old(replies) && old(replies)[id].status == Ready)
              && pcs[w] == (if mine then Delivering(id, row.text.value) else Idle)
              && replies == if mine then old(replies)[id := old(replies)[id].(status := Sending)] else old(replies)
      ensures handed == old(handed)
    {
      hide Inv, Progress;
      ClaimSendKeeps(Now(), w);
      var id, row := pcs[w].id, pcs[w].row;
      mine := row.status == Ready && row.text.Some? && id in replies && replies[id].status == Ready;
      if mine {
        replies := replies[id := replies[id].(status := Sending)];
      }
      pcs := pcs[w := if mine then Delivering(id, row.text.value) else Idle];
    }

    method SendMessage(w: nat, reached: bool)
      requires Valid() && w in pcs && pcs[w].Delivering?
      modifies this
      ensures Valid() && Now() == DoHand(old(Now()), w, reached) && w in pcs && pcs[w] == Sent(old(pcs[w].id))
      ensures replies == old(replies)
      ensures handed == old(handed) + if reached then [Handover(old(pcs[w].id), old(pcs[w].text))] else []
    {
      hide Inv, Progress;
      HandKeeps(Now(), w, reached);
      if reached {
        handed := handed + [Handover(pcs[w].id, pcs[w].text)];
      }
      pcs := pcs[w := Sent(pcs[w].id)];
    }

    /** The unconditional update after sending. */
    method RecordDelivery(w: nat, delivered: bool)
      requires Valid() && w in pcs && pcs[w].Sent?
      modifies this
      ensures Valid() && Now() == DoRecord(old(Now()), w, delivered) && w in pcs && pcs[w] == Idle
      ensures var id := old(pcs[w].id);
              replies == if id !in old(replies) then old(replies)
                         else old(replies)[id := old(replies)[id].(status := if delivered then Completed
                                                                             else DeliveryUnknown)]
    {
      hide Inv, Progress;
      RecordKeeps(Now(), w, delivered);
      var id := pcs[w].id;
      if id in replies {
        replies := replies[id := replies[id].(status := if delivered then Completed else DeliveryUnknown)];
      }
      pcs := pcs[w := Idle];
    }

    /** One delivery from the row the worker holds, when nothing comes in between. */
    method Deliver(w: nat, allowed: bool, reached: bool, delivered: bool)
      requires Valid() && w in pcs && pcs[w].Held?
      modifies this
      ensures Valid() && Now() == Delivered(old(Now()), w, allowed, reached, delivered)
    {
      hide Inv, DoRefuse, DoClaimSend, DoHand, DoRecord;
      if !allowed {
        RefuseReply(w);
      } else {
        var mine := ClaimForSending(w);
        if mine {
          SendMessage(w, reached);
          RecordDelivery(w, delivered);
        }
      }
    }

    /** One row the job picked, from the decision what to do with it to its delivery. */
    method RunJob(w: nat, job: Job)
      requires Valid() && w in pcs && pcs[w].Picked?
      modifies this
      ensures Valid() && Now() == Jobbed(old(Now()), w, job)
      ensures old(pcs[w].id in replies && replies[pcs[w].id] == pcs[w].row) ==>
                var id, row := old(pcs[w].id), old(pcs[w].row);
                && id in replies && old(handed) <= handed
                && exists p :: JobbedTo(id, row, old(pcs[w].now), job, p, replies[id], handed[|old(handed)|..])
      ensures old(pcs[w].id in replies && replies[pcs[w].id] == pcs[w].row) ==>
                var id, row := old(pcs[w].id), old(pcs[w].row);
                row.status == Queued && row.slot.channel == WhatsApp && row.attempts < 3
                && old(pcs[w].now) - row.createdAt <= 82800000
                && job.outcome.Some? && job.allowed && job.reached ==>
                  && handed == old(handed) + [Handover(id, job.outcome.value)]
                  && replies[id].status == if job.delivered then Completed else DeliveryUnknown
    {
      hide Inv, DoHandle, Processed, Delivered, JobbedTo, ProcessedTo;
      if pcs[w].id in replies && replies[pcs[w].id] == pcs[w].row {
        JobMeans(Now(), w, job);
        QueuedJob(Now(), w, job);
      }
      HandleRow(w);
      if pcs[w].Starting? {
        ProcessReply(w, job.now, job.outcome);
      }
      if w in pcs && pcs[w].Held? {
        Deliver(w, job.allowed, job.reached, job.delivered);
      }
    }

    /** The loop of `runAssistantJobs` over the rows it picked, worker ws[k] standing for the k-th. */
    method RunJobs(ws: seq<nat>, jobs: seq<Job>)
      requires Valid() && |jobs| == |ws| && forall i, j :: 0 <= i < j < |ws| ==> ws[i] != ws[j]
      requires forall k :: 0 <= k < |ws| ==> ws[k] in pcs && pcs[ws[k]].Picked?
      modifies this
      ensures Valid() && Progress(old(Now()), Now())
      ensures |handed| <= |old(handed)| + |ws| && forall k :: 0 <= k < |ws| ==> PcOf(Now(), ws[k]).Idle?
    {
      hide Inv, Progress, Jobbed;
      SameKeeps(Now());
      for k := 0 to |ws|
        invariant Valid() && Progress(old(Now()), Now())
        invariant |handed| <= |old(handed)| + k
        invariant forall i :: 0 <= i < k ==> PcOf(Now(), ws[i]).Idle?
        invariant forall i :: k <= i < |ws| ==> ws[i] in pcs && pcs[ws[i]].Picked?
      {
        ghost var before := Now();
        JobbedKeeps(before, ws[k], jobs[k]);
        RunJob(ws[k], jobs[k]);
        ProgressOn(old(Now()), before, Now());
      }
    }
  }

  // --- Proofs: every step keeps the invariant --------------------------------------------------------------

  lemma PcStays(s: State, t: State, pc: Pc)
    requires Progress(s, t) && PcOk(s, pc) && (pc.Delivering? ==> !Handed(t, pc.id))
    ensures PcOk(t, pc)
  {
  }

  /** The workers whose place does not change stay right. */
  lemma PcsStay(s: State, t: State)
    requires Progress(s, t) && PcsOk(s)
    requires forall v :: v in t.pcs && !(v in s.pcs && t.pcs[v] == s.pcs[v]) ==> PcOk(t, t.pcs[v])
    requires forall v :: v in t.pcs && t.pcs[v].Delivering? ==> !Handed(t, t.pcs[v].id)
    ensures PcsOk(t)
  {
    hide PcOk, Handed, Progress;
    forall v | v in t.pcs
      ensures PcOk(t, t.pcs[v])
    {
      if v in s.pcs && t.pcs[v] == s.pcs[v] {
        PcStays(s, t, s.pcs[v]);
      }
    }
  }

  lemma NotHanded(s: State, t: State)
    requires PcsOk(s) && t.handed == s.handed
    ensures forall id :: Handed(t, id) == Handed(s, id)
    ensures forall v :: v in s.pcs && s.pcs[v].Delivering? ==> !Handed(t, s.pcs[v].id)
  {
    assert forall v :: v in s.pcs ==> PcOk(s, s.pcs[v]);
  }

  /** Worker w moves on to pc and nothing else changes. */
  lemma MoveKeeps(s: State, w: nat, pc: Pc)
    requires Inv(s) && PcOk(s, pc) && forall v :: v in s.pcs && v != w ==> Apart(s.pcs[v], pc)
    ensures Inv(At(s, w, pc)) && Progress(s, At(s, w, pc))
  {
    hide Apart, Handed, Fits;
    var t := At(s, w, pc);
    NotHanded(s, t);
    forall id | id in t.replies
      ensures ReplyOk(t, id)
    {
      assert ReplyOk(s, id);
    }
    PcStays(s, t, pc);
    PcsStay(s, t);
    ApartStays(s, w, pc);
  }

  lemma ApartStays(s: State, w: nat, pc: Pc)
    requires AllApart(s) && forall v :: v in s.pcs && v != w ==> Apart(s.pcs[v], pc)
    ensures AllApart(At(s, w, pc))
  {
  }

  /** Reply id becomes q and nothing else changes. */
  lemma TouchKeeps(s: State, id: nat, q: Reply)
    requires Inv(s) && id in s.replies && Later(s.replies[id], q) && Fits(q)
    ensures Inv(With(s, id, q)) && Progress(s, With(s, id, q))
  {
    hide PcOk, Apart, Handed;
    var t := With(s, id, q);
    assert ReplyOk(s, id);
    NotHanded(s, t);
    forall i | i in t.replies
      ensures ReplyOk(t, i)
    {
      assert ReplyOk(s, i);
    }
    PcsStay(s, t);
    TextsStay(s, t);
  }

  /** What was handed over stays the text of its reply. */
  lemma TextsStay(s: State, t: State)
    requires HandedOk(s) && RepliesOk(s) && Progress(s, t) && t.handed == s.handed
    ensures HandedOk(t)
  {
    forall i | 0 <= i < |t.handed| && t.handed[i].id in t.replies
      ensures t.replies[t.handed[i].id].text == Some(t.handed[i].text)
    {
      assert Handed(s, s.handed[i].id) && ReplyOk(s, s.handed[i].id);
    }
  }

  /** Reply id becomes q and worker w moves on to pc, in one step. */
  lemma BothKeep(s: State, id: nat, q: Reply, w: nat, pc: Pc)
    requires Inv(s) && id in s.replies && Later(s.replies[id], q) && Fits(q)
    requires PcOk(With(s, id, q), pc) && forall v :: v in s.pcs && v != w ==> Apart(s.pcs[v], pc)
    ensures Inv(At(With(s, id, q), w, pc)) && Progress(s, At(With(s, id, q), w, pc))
  {
    hide Inv, PcOk, Apart, Later;
    TouchKeeps(s, id, q);
    MoveKeeps(With(s, id, q), w, pc);
  }

  /** A claim starts an attempt no earlier claim started. */
  lemma NewestClaim(s: State, w: nat, id: nat, job: bool, claim: nat)
    requires Inv(s) && id in s.replies && claim > s.replies[id].attempts
    ensures forall v :: v in s.pcs && v != w ==> Apart(s.pcs[v], Claimed(id, job, claim))
  {
    assert forall v :: v in s.pcs ==> PcOk(s, s.pcs[v]);
  }

  lemma BeginKeeps(s: State, w: nat, now: int)
    requires Inv(s)
    ensures Inv(DoBegin(s, w, now)) && Progress(s, DoBegin(s, w, now))
  {
    hide RepliesOk, HandedOk, AllApart, KeysOk, Progress;
    var pc := PcOf(s, w);
    if pc.Starting? {
      assert PcOk(s, s.pcs[w]);
      if pc.id in s.replies && Claimable(s.replies[pc.id], now) {
        FitsReply(s, pc.id);
        var q := Taken(s.replies[pc.id], now);
        NewestClaim(s, w, pc.id, pc.job, q.attempts);
        BothKeep(s, pc.id, q, w, Claimed(pc.id, pc.job, q.attempts));
      } else {
        MoveKeeps(s, w, Exhausting(pc.id, pc.job));
      }
    } else {
      SameKeeps(s);
    }
  }

  lemma FitsReply(s: State, id: nat)
    requires Inv(s) && id in s.replies
    ensures Fits(s.replies[id]) && id < s.next && (Handed(s, id) ==> Rank(s.replies[id].status) >= 3)
  {
    assert ReplyOk(s, id);
  }

  lemma SameKeeps(s: State)
    ensures Progress(s, s)
  {
  }

  lemma ExhaustKeeps(s: State, w: nat, now: int)
    requires Inv(s)
    ensures Inv(DoExhaust(s, w, now)) && Progress(s, DoExhaust(s, w, now))
  {
    var pc, t := PcOf(s, w), DoExhaust(s, w, now);
    if pc.Exhausting? {
      assert PcOk(s, s.pcs[w]);
      if pc.id in s.replies && t.replies != s.replies {
        assert ReplyOk(s, pc.id);
        BothKeep(s, pc.id, s.replies[pc.id].(status := Failed, lease := None), w, Returning(pc.id, pc.job));
      } else {
        MoveKeeps(s, w, Returning(pc.id, pc.job));
      }
    }
  }

  lemma ReadBackKeeps(s: State, w: nat)
    requires Inv(s)
    ensures Inv(DoReadBack(s, w)) && Progress(s, DoReadBack(s, w))
  {
    var pc := PcOf(s, w);
    if pc.Claimed? {
      assert PcOk(s, s.pcs[w]);
      assert forall v :: v in s.pcs && v != w ==> Apart(s.pcs[v], s.pcs[w]);
      MoveKeeps(s, w, PcOf(DoReadBack(s, w), w));
    }
  }

  lemma FinishKeeps(s: State, w: nat, outcome: Option<nat>)
    requires Inv(s)
    ensures Inv(DoFinish(s, w, outcome)) && Progress(s, DoFinish(s, w, outcome))
  {
    var pc := PcOf(s, w);
    if pc.Working? {
      assert PcOk(s, s.pcs[w]);
      if pc.id in s.replies && s.replies[pc.id].status.Processing? && s.replies[pc.id].attempts == pc.fence {
        assert ReplyOk(s, pc.id);
        BothKeep(s, pc.id, Done(s.replies[pc.id], outcome), w, Returning(pc.id, pc.job));
      } else {
        MoveKeeps(s, w, Returning(pc.id, pc.job));
      }
    }
  }

  lemma RereadKeeps(s: State, w: nat)
    requires Inv(s)
    ensures Inv(DoReread(s, w)) && Progress(s, DoReread(s, w))
  {
    if PcOf(s, w).Returning? {
      assert PcOk(s, s.pcs[w]);
      MoveKeeps(s, w, PcOf(DoReread(s, w), w));
    }
  }

  lemma HandleKeeps(s: State, w: nat)
    requires Inv(s)
    ensures Inv(DoHandle(s, w)) && Progress(s, DoHandle(s, w))
  {
    var pc := PcOf(s, w);
    if pc.Picked? {
      assert PcOk(s, s.pcs[w]);
      if TooLate(pc.row, pc.now) && pc.id in s.replies && s.replies[pc.id].status == pc.row.status {
        assert ReplyOk(s, pc.id);
        BothKeep(s, pc.id, s.replies[pc.id].(status := Failed), w, Idle);
      } else {
        MoveKeeps(s, w, PcOf(DoHandle(s, w), w));
      }
    }
  }

  lemma RefuseKeeps(s: State, w: nat)
    requires Inv(s)
    ensures Inv(DoRefuse(s, w)) && Progress(s, DoRefuse(s, w))
  {
    var pc := PcOf(s, w);
    if pc.Held? {
      assert PcOk(s, s.pcs[w]);
      if pc.row.status.Ready? && pc.id in s.replies && s.replies[pc.id].status.Ready? {
        assert ReplyOk(s, pc.id);
        BothKeep(s, pc.id, s.replies[pc.id].(status := Failed, text := None), w, Idle);
      } else {
        MoveKeeps(s, w, Idle);
      }
    }
  }

  lemma ClaimSendKeeps(s: State, w: nat)
    requires Inv(s)
    ensures Inv(DoClaimSend(s, w)) && Progress(s, DoClaimSend(s, w))
  {
    var pc := PcOf(s, w);
    if pc.Held? {
      assert PcOk(s, s.pcs[w]);
      if pc.row.status.Ready? && pc.row.text.Some? && pc.id in s.replies && s.replies[pc.id].status.Ready? {
        assert ReplyOk(s, pc.id);
        assert forall v :: v in s.pcs ==> PcOk(s, s.pcs[v]);
        var q := s.replies[pc.id].(status := Sending);
        assert !Handed(With(s, pc.id, q), pc.id);
        BothKeep(s, pc.id, q, w, Delivering(pc.id, pc.row.text.value));
      } else {
        MoveKeeps(s, w, Idle);
      }
    }
  }

  /** Nobody else is delivering the reply, and it was not handed over before, so handing it over now is the
    first time. */
  lemma HandKeeps(s: State, w: nat, reached: bool)
    requires Inv(s)
    ensures Inv(DoHand(s, w, reached)) && Progress(s, DoHand(s, w, reached))
  {
    var pc := PcOf(s, w);
    if pc.Delivering? {
      assert PcOk(s, s.pcs[w]);
      var t := At(s, w, Sent(pc.id));
      assert forall v :: v in s.pcs && v != w ==> Apart(s.pcs[v], s.pcs[w]);
      MoveKeeps(s, w, Sent(pc.id));
      if reached {
        HandedKeeps(t, pc.id, pc.text);
      }
    } else {
      SameKeeps(s);
    }
  }

  lemma HandedKeeps(s: State, id: nat, text: nat)
    requires Inv(s) && id < s.next && !Handed(s, id)
    requires id in s.replies ==> Rank(s.replies[id].status) >= 3 && s.replies[id].text == Some(text)
    requires forall v :: v in s.pcs && s.pcs[v].Delivering? ==> s.pcs[v].id != id
    ensures var t := s.(handed := s.handed + [Handover(id, text)]); Inv(t) && Progress(s, t)
  {
    hide Apart;
    var t := s.(handed := s.handed + [Handover(id, text)]);
    forall i | i in t.replies
      ensures ReplyOk(t, i)
    {
      assert ReplyOk(s, i);
    }
    SameKeeps(s);
    assert forall v :: v in s.pcs ==> PcOk(s, s.pcs[v]);
    PcsStay(s, t);
    assert forall i :: 0 <= i < |s.handed| ==> Handed(s, s.handed[i].id);
  }

  lemma RecordKeeps(s: State, w: nat, delivered: bool)
    requires Inv(s)
    ensures Inv(DoRecord(s, w, delivered)) && Progress(s, DoRecord(s, w, delivered))
  {
    var pc := PcOf(s, w);
    if pc.Sent? {
      assert PcOk(s, s.pcs[w]);
      if pc.id in s.replies {
        assert ReplyOk(s, pc.id);
        BothKeep(s, pc.id, s.replies[pc.id].(status := if delivered then Completed else DeliveryUnknown), w, Idle);
      } else {
        MoveKeeps(s, w, Idle);
      }
    }
  }

  /** A new row under a key that no row has. */
  lemma NewReplyKeeps(s: State, r: Reply)
    requires Inv(s) && WithKey(s.replies, r.slot, r.key) == {} && Fits(r)
    ensures var t := With(s, s.next, r).(next := s.next + 1); RepliesOk(t) && KeysOk(t) && Progress(s, t)
  {
    hide PcOk, Apart, AllApart, PcsOk;
    var t := With(s, s.next, r).(next := s.next + 1);
    SameKeeps(s);
    forall id | id in t.replies
      ensures ReplyOk(t, id)
    {
      if id in s.replies {
        assert ReplyOk(s, id);
      }
    }
    assert forall id :: id in s.replies ==> id !in WithKey(s.replies, r.slot, r.key);
  }

  lemma ReserveKeeps(s: State, slot: Slot, key: nat, owner: nat, prompt: nat, now: int, limit: int,
                     recorded: Option<nat>)
    requires Inv(s)
    ensures var t := DoReserve(s, slot, key, owner, prompt, now, limit, recorded); Inv(t) && Progress(s, t)
  {
    hide PcOk, Apart, Counted, WithKey, RepliesOk, KeysOk, Progress, HandedOk, Handed;
    var t := DoReserve(s, slot, key, owner, prompt, now, limit, recorded);
    SameKeeps(s);
    if t != s {
      NewReplyKeeps(s, NewReply(slot, key, owner, prompt, now, recorded));
      NotHanded(s, t);
      PcsStay(s, t);
      TextsStay(s, t);
    }
  }

  lemma PurgeKeeps(s: State, id: nat)
    requires Inv(s)
    ensures Inv(s.(replies := s.replies - {id})) && Progress(s, s.(replies := s.replies - {id}))
  {
    hide PcOk, Apart, Handed;
    var t := s.(replies := s.replies - {id});
    NotHanded(s, t);
    forall i | i in t.replies
      ensures ReplyOk(t, i)
    {
      assert ReplyOk(s, i);
    }
    PcsStay(s, t);
  }

  lemma OtherKeeps(s: State, a: Action)
    requires Inv(s) && (a.Ask? || a.Pick? || a.Purge? || a.Abandon? || a.Stop?)
    ensures Inv(Step(s, a)) && Progress(s, Step(s, a))
  {
    hide RepliesOk, PcsOk, HandedOk, AllApart, KeysOk, Progress;
    SameKeeps(s);
    match a
    case Ask(w, id) => if PcOf(s, w).Idle? && id < s.next { MoveKeeps(s, w, Starting(id, false)); }
    case Pick(w, id, now) =>
      if PcOf(s, w).Idle? && id in s.replies && Selected(s.replies[id], now) {
        FitsReply(s, id);
        MoveKeeps(s, w, Picked(id, s.replies[id], now));
      }
    case Purge(id, now) => PurgeKeeps(s, id);
    case Abandon(id) =>
      if id in s.replies {
        FitsReply(s, id);
        TouchKeeps(s, id, s.replies[id].(status := Failed, lease := None));
      }
    case Stop(w) => MoveKeeps(s, w, Idle);
  }

  lemma Empty()
    ensures Inv(Start())
  {
  }

  lemma ProgressOn(s: State, t: State, u: State)
    requires Progress(s, t) && Progress(t, u)
    ensures Progress(s, u)
  {
    forall id | id in u.replies && id < s.next
      ensures id in s.replies && Later(s.replies[id], u.replies[id])
    {
      assert id in t.replies && Later(s.replies[id], t.replies[id]) && Later(t.replies[id], u.replies[id]);
    }
  }

  lemma NoneCancelled(s: State)
    requires Inv(s)
    ensures forall id :: id in s.replies ==> id < s.next && !s.replies[id].status.Cancelled?
  {
    assert forall id :: id in s.replies ==> ReplyOk(s, id);
  }

  lemma CountedMeans(replies: map<nat, Reply>, slot: Slot)
    ensures Counted(replies, slot) ==
            set id | id in replies && replies[id].slot == slot && replies[id].status != Cancelled
  {
  }

  // --- Proofs: processing and delivery ---------------------------------------------------------------------

  lemma ClaimedMeans(s: State, w: nat, id: nat, job: bool, now: int, outcome: Option<nat>)
    requires PcOf(s, w) == Starting(id, job) && id in s.replies && Claimable(s.replies[id], now)
    ensures var q := Done(Taken(s.replies[id], now), outcome);
            Processed(s, w, now, outcome) == At(With(s, id, q), w, if job then Held(id, q) else Idle)
  {
    hide Claimable, Done, DoReadBack, DoFinish, DoExhaust, DoReread;
    var r := s.replies[id];
    var claimed := At(With(s, id, Taken(r, now)), w, Claimed(id, job, r.attempts + 1));
    assert DoBegin(s, w, now) == claimed;
    Answered(claimed, w, id, job, now, outcome);
    var q := Done(Taken(r, now), outcome);
    assert claimed.replies[id := q] == s.replies[id := q];
  }

  lemma Unclaimed(s: State, w: nat, id: nat, job: bool, now: int, outcome: Option<nat>)
    requires PcOf(s, w) == Starting(id, job) && id in s.replies && !Claimable(s.replies[id], now)
    ensures var r := s.replies[id];
            var q := if r.status.Processing? && r.attempts >= MAX_ATTEMPTS && Expired(r, now)
                     then r.(status := Failed, lease := None) else r;
            Processed(s, w, now, outcome) == At(With(s, id, q), w, if job then Held(id, q) else Idle)
  {
    hide Claimable, Taken, Expired, Done;
    var r, t := s.replies[id], At(s, w, Exhausting(id, job));
    assert DoBegin(s, w, now) == t;
    Steady(t, w, now, outcome);
    assert s.replies[id := r] == s.replies;
  }

  lemma Answered(s: State, w: nat, id: nat, job: bool, now: int, outcome: Option<nat>)
    requires PcOf(s, w).Claimed? && PcOf(s, w).id == id && PcOf(s, w).job == job && id in s.replies
    requires s.replies[id].status.Processing?
    ensures var q := Done(s.replies[id], outcome);
            DoReread(DoExhaust(DoFinish(DoReadBack(s, w), w, outcome), w, now), w) ==
            At(With(s, id, q), w, if job then Held(id, q) else Idle)
  {
    var r := s.replies[id];
    var back := At(s, w, Working(id, job, PcOf(s, w).claim, r.attempts));
    assert DoReadBack(s, w) == back;
    assert DoFinish(back, w, outcome) == At(With(s, id, Done(r, outcome)), w, Returning(id, job));
  }

  lemma LateMeans(row: Reply, now: int)
    ensures TooLate(row, now) <==> now - row.createdAt > 82800000 || (row.attempts >= 3 && row.status != Ready)
  {
  }

  lemma HandledMeans(s: State, w: nat)
    requires PcOf(s, w).Picked? && PcOf(s, w).id in s.replies && s.replies[PcOf(s, w).id] == PcOf(s, w).row
    ensures var id, row, t := PcOf(s, w).id, PcOf(s, w).row, DoHandle(s, w);
            && t.handed == s.handed && id in t.replies
            && if TooLate(row, PcOf(s, w).now)
               then PcOf(t, w).Idle? && t.replies == s.replies[id := row.(status := Failed)]
               else
                 t.replies == s.replies && PcOf(t, w) == if row.status.Ready? then Held(id, row) else Starting(id, true)
  {
    hide TooLate;
  }

  /** From a row that is held as it stands. */
  lemma HeldMeans(s: State, w: nat, job: Job, p: Reply)
    requires Inv(s) && PcOf(s, w).Held? && PcOf(s, w).row == p
    requires PcOf(s, w).id in s.replies && s.replies[PcOf(s, w).id] == p
    ensures var id, t := PcOf(s, w).id, Delivered(s, w, job.allowed, job.reached, job.delivered);
            && id in t.replies && s.handed <= t.handed
            && var q, sent := t.replies[id], t.handed[|s.handed|..];
               if p.status != Ready || (job.allowed && p.text == None) then q == p && sent == []
               else if !job.allowed then q == p.(status := Failed, text := None) && sent == []
               else q == p.(status := if job.delivered then Completed else DeliveryUnknown)
                    && sent == if job.reached then [Handover(id, p.text.value)] else []
  {
    hide Inv, Delivered;
    DeliveredMeans(s, w, job.allowed, job.reached, job.delivered);
  }

  lemma JobbedKeeps(s: State, w: nat, job: Job)
    requires Inv(s) && PcOf(s, w).Picked?
    ensures var t := Jobbed(s, w, job);
            && Inv(t) && Progress(s, t) && PcOf(t, w).Idle? && |t.handed| <= |s.handed| + 1
            && forall v :: v != w ==> PcOf(t, v) == PcOf(s, v) && (v in s.pcs ==> v in t.pcs)
  {
    hide Inv, Progress, Processed, Delivered;
    HandleKeeps(s, w);
    var handled := DoHandle(s, w);
    var processed := if PcOf(handled, w).Starting? then Processed(handled, w, job.now, job.outcome) else handled;
    if PcOf(handled, w).Starting? {
      ProcessedKeeps(handled, w, job.now, job.outcome);
      ProgressOn(s, handled, processed);
    }
    if PcOf(processed, w).Held? {
      DeliveredKeeps(processed, w, job.allowed, job.reached, job.delivered);
      ProgressOn(s, processed, Delivered(processed, w, job.allowed, job.reached, job.delivered));
    }
  }

  /** Only worker w moved, and nothing was handed over. */
  ghost predicate OnlyMoved(s: State, t: State, w: nat) {
    t.handed == s.handed && forall v :: v != w ==> PcOf(t, v) == PcOf(s, v) && (v in s.pcs ==> v in t.pcs)
  }

  lemma ProcessingMoves(s: State, w: nat, now: int, outcome: Option<nat>)
    ensures OnlyMoved(s, DoBegin(s, w, now), w) && OnlyMoved(s, DoReadBack(s, w), w)
            && OnlyMoved(s, DoFinish(s, w, outcome), w)
    ensures OnlyMoved(s, DoExhaust(s, w, now), w) && OnlyMoved(s, DoReread(s, w), w)
    ensures PcOf(s, w).Starting? ==> PcOf(DoBegin(s, w, now), w).Claimed? || PcOf(DoBegin(s, w, now), w).Exhausting?
    ensures PcOf(s, w).Claimed? ==> PcOf(DoReadBack(s, w), w).Working? || PcOf(DoReadBack(s, w), w).Idle?
    ensures PcOf(s, w).Working? ==> PcOf(DoFinish(s, w, outcome), w).Returning?
    ensures PcOf(s, w).Exhausting? ==> PcOf(DoExhaust(s, w, now), w).Returning?
    ensures PcOf(s, w).Returning? ==> PcOf(DoReread(s, w), w).Idle? || PcOf(DoReread(s, w), w).Held?
  {
  }

  lemma ProcessedKeeps(s: State, w: nat, now: int, outcome: Option<nat>)
    requires Inv(s) && PcOf(s, w).Starting?
    ensures var t := Processed(s, w, now, outcome);
            Inv(t) && Progress(s, t) && (PcOf(t, w).Idle? || PcOf(t, w).Held?) && OnlyMoved(s, t, w)
  {
    hide Inv, Progress, PcOf, DoBegin, DoReadBack, DoFinish, DoExhaust, DoReread;
    var s1 := DoBegin(s, w, now);
    var s2 := DoReadBack(s1, w);
    var s3 := DoFinish(s2, w, outcome);
    var s4 := DoExhaust(s3, w, now);
    BeginKeeps(s, w, now);
    ReadBackKeeps(s1, w);
    FinishKeeps(s2, w, outcome);
    ExhaustKeeps(s3, w, now);
    RereadKeeps(s4, w);
    ProgressOn(s, s1, s2);
    ProgressOn(s, s2, s3);
    ProgressOn(s, s3, s4);
    ProgressOn(s, s4, DoReread(s4, w));
    ProcessingMoves(s, w, now, outcome);
    ProcessingMoves(s1, w, now, outcome);
    ProcessingMoves(s2, w, now, outcome);
    ProcessingMoves(s3, w, now, outcome);
    ProcessingMoves(s4, w, now, outcome);
    Steady(s1, w, now, outcome);
    Steady(s2, w, now, outcome);
    Steady(s3, w, now, outcome);
    Steady(s4, w, now, outcome);
  }

  lemma DeliveredKeeps(s: State, w: nat, allowed: bool, reached: bool, delivered: bool)
    requires Inv(s) && PcOf(s, w).Held?
    ensures var t := Delivered(s, w, allowed, reached, delivered);
            && Inv(t) && Progress(s, t) && PcOf(t, w).Idle? && |t.handed| <= |s.handed| + 1
            && forall v :: v != w ==> PcOf(t, v) == PcOf(s, v) && (v in s.pcs ==> v in t.pcs)
  {
    hide Inv, Progress;
    if !allowed {
      RefuseKeeps(s, w);
    } else {
      var s1 := DoClaimSend(s, w);
      ClaimSendKeeps(s, w);
      if PcOf(s1, w).Delivering? {
        HandKeeps(s1, w, reached);
        RecordKeeps(DoHand(s1, w, reached), w, delivered);
        ProgressOn(s, s1, DoHand(s1, w, reached));
        ProgressOn(s, DoHand(s1, w, reached), Delivered(s, w, allowed, reached, delivered));
      }
    }
  }

  lemma RefusedMeans(s: State, w: nat, reached: bool, delivered: bool)
    requires PcOf(s, w).Held? && PcOf(s, w).id in s.replies
    ensures var id, t := PcOf(s, w).id, Delivered(s, w, false, reached, delivered);
            && PcOf(t, w).Idle? && t.handed == s.handed
            && t.replies == if PcOf(s, w).row.status.Ready? && s.replies[id].status.Ready?
                            then s.replies[id := s.replies[id].(status := Failed, text := None)] else s.replies
  {
  }

  lemma NotSent(s: State, w: nat, reached: bool, delivered: bool)
    requires PcOf(s, w).Held? && PcOf(s, w).id in s.replies
    requires var pc := PcOf(s, w); !(pc.row.status.Ready? && pc.row.text.Some? && s.replies[pc.id].status.Ready?)
    ensures var t := Delivered(s, w, true, reached, delivered);
            PcOf(t, w).Idle? && t.handed == s.handed && t.replies == s.replies
  {
  }

  lemma SentMeans(s: State, w: nat, reached: bool, delivered: bool)
    requires PcOf(s, w).Held? && PcOf(s, w).id in s.replies
    requires var pc := PcOf(s, w); pc.row.status.Ready? && pc.row.text.Some? && s.replies[pc.id].status.Ready?
    ensures var pc, t := PcOf(s, w), Delivered(s, w, true, reached, delivered);
            && PcOf(t, w).Idle?
            && t.replies ==
               s.replies[pc.id := s.replies[pc.id].(status := if delivered then Completed else DeliveryUnknown)]
            && t.handed == s.handed + if reached then [Handover(pc.id, pc.row.text.value)] else []
  {
    var pc, r := PcOf(s, w), s.replies[PcOf(s, w).id];
    var mine := At(With(s, pc.id, r.(status := Sending)), w, Delivering(pc.id, pc.row.text.value));
    assert DoClaimSend(s, w) == mine;
    var sent := DoHand(mine, w, reached);
    assert PcOf(sent, w) == Sent(pc.id) && sent.replies == mine.replies;
    hide DoClaimSend, DoHand;
    var q := r.(status := if delivered then Completed else DeliveryUnknown);
    assert mine.replies[pc.id := q] == s.replies[pc.id := q];
  }

  /** A step whose moment has not come does nothing. */
  lemma Steady(s: State, w: nat, now: int, outcome: Option<nat>)
    ensures !PcOf(s, w).Claimed? ==> DoReadBack(s, w) == s
    ensures !PcOf(s, w).Working? ==> DoFinish(s, w, outcome) == s
    ensures !PcOf(s, w).Exhausting? ==> DoExhaust(s, w, now) == s
    ensures !PcOf(s, w).Returning? ==> DoReread(s, w) == s
  {
  }
}
