/** The sidecar as a whole: the pool, every `turn_auto` request and every
    `session.cancel` request, interleaved in any order.

    A handler is a sequence of atomic steps, one for each stretch of code between two
    awaits. The factory, the SDK and the clients are the environment: which enabled step
    comes next, and with which arguments, is not restricted.
  */
module TurnProtocol {
  import opened Options
  import opened PiSession
  import opened PoolModel

  type TurnId = int
  type CancelId = int

  /** A refused request is told an eviction candidate, or that all sessions are busy. */
  datatype Outcome = Reported(result: TurnResult) | Refused(candidate: Option<AdapterId>)

  /** Where the handler of a turn is:
      awaiting the factory; handed a session but not resumed yet; awaiting the SDK;
      `sendTurn` over but the handler not resumed yet; answered. */
  datatype Phase =
    | Creating
    | Admitted(id: AdapterId, reused: bool)
    | Running(id: AdapterId, reused: bool, generation: nat)
    | Settled(id: AdapterId, reused: bool, result: TurnResult)
    | Done(outcome: Outcome)

  datatype Turn = Turn(sub: SubagentId, task: Option<TaskId>, model: ModelId, phase: Phase)

  /** `hit` is the set of turns the request was aimed at when it arrived. */
  datatype CancelState =
    | Waiting(id: AdapterId, aborted: bool, hit: set<TurnId>)
    | Answered(accepted: bool, hit: set<TurnId>)

  /** `creator` and `holder` name the turn behind a creation and behind a session in use;
      `cancelled` collects the turns some cancel request was aimed at. No code reads them. */
  datatype World = World(
    now: int,
    pool: Pool,
    turns: map<TurnId, Turn>,
    cancels: map<CancelId, CancelState>,
    creator: map<SubagentId, TurnId>,
    holder: map<AdapterId, TurnId>,
    cancelled: set<TurnId>)

  datatype Label =
    | StartTurn(t: TurnId, sub: SubagentId, model: ModelId, task: Option<TaskId>)
    | FactoryReturns(t: TurnId, created: Option<AdapterId>)
    | HandlerResumes(t: TurnId)
    | SdkSettles(t: TurnId, sdk: SdkResult)
    | HandlerFinishes(t: TurnId)
    | RequestCancel(c: CancelId, sub: SubagentId, task: Option<TaskId>)
    | AbortSettles(c: CancelId)
    | CloseSession(id: AdapterId)
    | ActivateSession(id: AdapterId)
    | PrepareHibernate(id: AdapterId)
    | ReleaseReservation(id: AdapterId)
    | TimerFires(id: AdapterId)
    | Tick(elapsed: nat)

  function Initial(maxHot: nat): World {
    World(0, EmptyPool(maxHot), map[], map[], map[], map[], {})
  }

  /** A turn of `sub` that can still be cancelled: its session is being created, or it has
      been admitted to a pooled session and the SDK has not settled. */
  predicate Cancellable(w: World, t: TurnId, sub: SubagentId, task: Option<TaskId>) {
    && t in w.turns
    && w.turns[t].sub == sub
    && (task.None? || w.turns[t].task == task)
    && match w.turns[t].phase
       case Creating => true
       case Admitted(id, _) => id in w.pool.sessions
       case Running(id, _, _) => id in w.pool.sessions
       case _ => false
  }

  function Aim(w: World, sub: SubagentId, task: Option<TaskId>): set<TurnId> {
    set t | t in w.turns && Cancellable(w, t, sub, task)
  }

  /** The session object with this id, whether or not the pool still has it. */
  predicate Known(p: Pool, id: AdapterId) {
    id in p.sessions || id in p.disposed
  }

  function Object(p: Pool, id: AdapterId): Session
    requires Known(p, id)
  {
    if id in p.sessions then p.sessions[id] else p.disposed[id]
  }

  function PutObject(p: Pool, id: AdapterId, s: Session): (q: Pool)
    ensures q == p.(sessions := q.sessions, disposed := q.disposed)
  {
    if id in p.sessions then p.(sessions := p.sessions[id := s]) else p.(disposed := p.disposed[id := s])
  }

  /** The `finally` block of the `turn_auto` handler. */
  function FinishTurn(p: Pool, now: int, id: AdapterId, reused: bool, result: TurnResult): (q: Pool)
    ensures q.maxHot == p.maxHot
  {
    var r := EndTurn(p, now, id);
    if !reused && result != Completed then Close(r, id) else r
  }

  predicate Enabled(w: World, l: Label) {
    match l
    case StartTurn(t, _, _, _) => t !in w.turns
    case FactoryReturns(t, created) =>
      && t in w.turns && w.turns[t].phase.Creating?
      && (created.Some? ==> !Known(w.pool, created.value))
    case HandlerResumes(t) => t in w.turns && w.turns[t].phase.Admitted? && Known(w.pool, w.turns[t].phase.id)
    case SdkSettles(t, _) => t in w.turns && w.turns[t].phase.Running? && Known(w.pool, w.turns[t].phase.id)
    case HandlerFinishes(t) => t in w.turns && w.turns[t].phase.Settled?
    case RequestCancel(c, _, _) => c !in w.cancels
    case AbortSettles(c) => c in w.cancels && w.cancels[c].Waiting?
    case TimerFires(id) => id in w.pool.cancelTimers && w.pool.cancelTimers[id] <= w.now
    case _ => true
  }

  function SetPhase(w: World, t: TurnId, phase: Phase): map<TurnId, Turn>
    requires t in w.turns
  {
    w.turns[t := w.turns[t].(phase := phase)]
  }

  function NextStart(w: World, t: TurnId, sub: SubagentId, model: ModelId, task: Option<TaskId>): World {
    var (q, admission) := EnsureBegin(w.pool, w.now, sub, model, task, true);
    match admission
    case Hit(id) =>
      w.(pool := q, turns := w.turns[t := Turn(sub, task, model, Admitted(id, true))], holder := w.holder[id := t])
    case Create =>
      w.(pool := q, turns := w.turns[t := Turn(sub, task, model, Creating)], creator := w.creator[sub := t])
    case LimitReached(candidate) =>
      w.(pool := q, turns := w.turns[t := Turn(sub, task, model, Done(Refused(Some(candidate))))])
    case AllBusy =>
      w.(pool := q, turns := w.turns[t := Turn(sub, task, model, Done(Refused(None)))])
  }

  function NextFactory(w: World, t: TurnId, created: Option<AdapterId>): World
    requires t in w.turns
  {
    var turn := w.turns[t];
    var (q, creation) := EnsureResume(w.pool, w.now, turn.sub, turn.model, turn.task, true, created);
    var v := w.(pool := q, creator := w.creator - {turn.sub});
    match creation
    case Published(id) => v.(turns := SetPhase(w, t, Admitted(id, false)), holder := w.holder[id := t])
    case CreationCancelled => v.(turns := SetPhase(w, t, Done(Reported(TurnCancelled))))
    case CreationFailed => v.(turns := SetPhase(w, t, Done(Reported(Failed(Internal)))))
  }

  function NextResume(w: World, t: TurnId): World
    requires t in w.turns && w.turns[t].phase.Admitted? && Known(w.pool, w.turns[t].phase.id)
  {
    var Admitted(id, reused) := w.turns[t].phase;
    var (q, started) := MarkTurnStarted(w.pool, id, w.turns[t].task);
    if !started then
      w.(pool := FinishTurn(q, w.now, id, reused, TurnCancelled), holder := w.holder - {id},
         turns := SetPhase(w, t, Done(Reported(TurnCancelled))))
    else
      var s := Object(q, id);
      if s.closed then w.(pool := q, turns := SetPhase(w, t, Settled(id, reused, Failed(SessionNotFound))))
      else
        var r := BeginTurn(s, w.turns[t].task);
        w.(pool := PutObject(q, id, r), turns := SetPhase(w, t, Running(id, reused, r.generation)))
  }

  function NextSettle(w: World, t: TurnId, sdk: SdkResult): World
    requires t in w.turns && w.turns[t].phase.Running? && Known(w.pool, w.turns[t].phase.id)
  {
    var Running(id, reused, g) := w.turns[t].phase;
    var s := Object(w.pool, id);
    w.(pool := PutObject(w.pool, id, SettleTurn(s, g)),
       turns := SetPhase(w, t, Settled(id, reused, ResultOf(s, g, sdk))))
  }

  function NextFinish(w: World, t: TurnId): World
    requires t in w.turns && w.turns[t].phase.Settled?
  {
    var Settled(id, reused, result) := w.turns[t].phase;
    w.(pool := FinishTurn(w.pool, w.now, id, reused, result), holder := w.holder - {id},
       turns := SetPhase(w, t, Done(Reported(result))))
  }

  function NextCancel(w: World, c: CancelId, sub: SubagentId, task: Option<TaskId>): World {
    var (q, reply) := CancelBegin(w.pool, w.now, sub, task);
    var hit := Aim(w, sub, task);
    w.(pool := q, cancelled := w.cancelled + hit,
       cancels := w.cancels[c := match reply
                                 case Answer(accepted) => Answered(accepted, hit)
                                 case AwaitAbort(id, aborted) => Waiting(id, aborted, hit)])
  }

  function NextAbort(w: World, c: CancelId): World
    requires c in w.cancels && w.cancels[c].Waiting?
  {
    var Waiting(id, aborted, hit) := w.cancels[c];
    w.(pool := CancelResume(w.pool, id, aborted), cancels := w.cancels[c := Answered(aborted, hit)])
  }

  function Next(w: World, l: Label): World
    requires Enabled(w, l)
  {
    match l
    case StartTurn(t, sub, model, task) => NextStart(w, t, sub, model, task)
    case FactoryReturns(t, created) => NextFactory(w, t, created)
    case HandlerResumes(t) => NextResume(w, t)
    case SdkSettles(t, sdk) => NextSettle(w, t, sdk)
    case HandlerFinishes(t) => NextFinish(w, t)
    case RequestCancel(c, sub, task) => NextCancel(w, c, sub, task)
    case AbortSettles(c) => NextAbort(w, c)
    case CloseSession(id) => w.(pool := Close(w.pool, id))
    case ActivateSession(id) => w.(pool := Activate(w.pool, id).0)
    case PrepareHibernate(id) => w.(pool := ReserveForEviction(w.pool, w.now, id).0)
    case ReleaseReservation(id) => w.(pool := ReleaseEviction(w.pool, id))
    case TimerFires(id) => w.(pool := CancelTimerFires(w.pool, id))
    case Tick(elapsed) => w.(now := w.now + elapsed)
  }

  // ---- what a turn sees of the pool ----

  datatype Slot = Absent | Pooled(s: Session, lease: Option<Lease>) | Gone(s: Session)

  function SlotOf(p: Pool, id: AdapterId): Slot {
    if id in p.sessions then Pooled(p.sessions[id], Get(p.leases, id))
    else if id in p.disposed then Gone(p.disposed[id])
    else Absent
  }

  /** In use by a turn. */
  predicate Claimed(slot: Slot) {
    slot.Gone? || (slot.Pooled? && slot.lease.Some?)
  }

  /** What other requests may do to a session a turn holds: nothing, or close it. */
  predicate SlotStep(before: Slot, after: Slot) {
    after == before || (before.Pooled? && after == Gone(before.s.(closed := true)))
  }

  ghost predicate Undisturbed(p: Pool, q: Pool) {
    forall id :: Claimed(SlotOf(p, id)) ==> SlotStep(SlotOf(p, id), SlotOf(q, id))
  }

  predicate ResultOk(r: TurnResult, cancelled: bool) {
    (r.Completed? ==> !cancelled) && (r.TurnCancelled? ==> cancelled)
  }

  predicate CreatingOk(p: Pool, turn: Turn, cancelled: bool) {
    && turn.sub in p.creating && p.creating[turn.sub] == turn.task
    && (cancelled <==> turn.sub in p.cancelledCreations)
  }

  predicate AdmittedOk(slot: Slot, turn: Turn, cancelled: bool) {
    match slot
    case Absent => false
    case Gone(s) => s.closed && !s.inFlight
    case Pooled(s, lease) =>
      && s.subagent == turn.sub && !s.inFlight
      && lease == Some(Lease(turn.task, false, cancelled))
  }

  predicate RunningOk(slot: Slot, turn: Turn, g: nat, cancelled: bool) {
    && !slot.Absent?
    && slot.s.inFlight && slot.s.generation == g && slot.s.activeTask == turn.task
    && (slot.s.cancelledGeneration == g <==> cancelled)
    && (slot.Pooled? ==> slot.s.subagent == turn.sub && slot.lease.Some? && slot.lease.value.started)
    && (slot.Gone? ==> slot.s.closed)
  }

  predicate SettledOk(slot: Slot, turn: Turn) {
    && !slot.Absent?
    && !slot.s.inFlight
    && (slot.Pooled? ==> slot.s.subagent == turn.sub && slot.lease.Some? && slot.lease.value.started)
    && (slot.Gone? ==> slot.s.closed)
  }

  ghost predicate TurnOk(w: World, t: TurnId)
    requires t in w.turns
  {
    var turn := w.turns[t];
    var cancelled := t in w.cancelled;
    match turn.phase
    case Creating => Get(w.creator, turn.sub) == Some(t) && CreatingOk(w.pool, turn, cancelled)
    case Admitted(id, _) => Get(w.holder, id) == Some(t) && AdmittedOk(SlotOf(w.pool, id), turn, cancelled)
    case Running(id, _, g) => Get(w.holder, id) == Some(t) && RunningOk(SlotOf(w.pool, id), turn, g, cancelled)
    case Settled(id, _, r) =>
      Get(w.holder, id) == Some(t) && SettledOk(SlotOf(w.pool, id), turn) && ResultOk(r, cancelled)
    case Done(Reported(r)) => ResultOk(r, cancelled)
    case Done(Refused(_)) => !cancelled
  }

  predicate Holds(phase: Phase, id: AdapterId) {
    (phase.Admitted? || phase.Running? || phase.Settled?) && phase.id == id
  }

  ghost predicate FlightInv(sessions: map<AdapterId, Session>, leases: map<AdapterId, Lease>) {
    forall id | id in sessions && sessions[id].inFlight :: id in leases && leases[id].started
  }

  ghost predicate HolderInv(leases: map<AdapterId, Lease>, holder: map<AdapterId, TurnId>, turns: map<TurnId, Turn>) {
    && (forall id | id in leases :: id in holder)
    && (forall id | id in holder :: holder[id] in turns && Holds(turns[holder[id]].phase, id))
  }

  ghost predicate CreatorInv(creating: map<SubagentId, Option<TaskId>>, creator: map<SubagentId, TurnId>,
                             turns: map<TurnId, Turn>)
  {
    && (forall sub | sub in creating :: sub in creator)
    && (forall sub | sub in creator ::
          creator[sub] in turns && turns[creator[sub]].phase.Creating? && turns[creator[sub]].sub == sub)
  }

  /** The answer to a cancel request is yes exactly when it was aimed at a turn, and it is
      aimed at one turn at most. */
  ghost predicate CancelsInv(cancels: map<CancelId, CancelState>, cancelled: set<TurnId>) {
    forall c | c in cancels ::
      && cancels[c].hit <= cancelled
      && |cancels[c].hit| <= 1
      && ((if cancels[c].Waiting? then cancels[c].aborted else cancels[c].accepted) <==> cancels[c].hit != {})
  }

  ghost predicate TurnsInv(w: World) {
    && (forall t | t in w.turns :: TurnOk(w, t))
    && w.cancelled <= w.turns.Keys
  }

  ghost predicate ProtocolInv(w: World) {
    && FlightInv(w.pool.sessions, w.pool.leases)
    && HolderInv(w.pool.leases, w.holder, w.turns)
    && CreatorInv(w.pool.creating, w.creator, w.turns)
    && TurnsInv(w)
    && CancelsInv(w.cancels, w.cancelled)
  }

  ghost predicate Inv(w: World) {
    RepInv(w.pool) && ProtocolInv(w)
  }

  // ---- steps that leave the turns to themselves ----

  /** A pool operation that at most closes sessions, and starts or ends no turn. */
  ghost predicate Quiet(p: Pool, q: Pool) {
    && Undisturbed(p, q)
    && FlightInv(q.sessions, q.leases)
    && (forall id | id in q.leases :: id in p.leases)
    && q.creating == p.creating && q.cancelledCreations == p.cancelledCreations
  }

  lemma TurnOkQuiet(w: World, q: Pool, t: TurnId)
    requires t in w.turns && TurnOk(w, t) && Undisturbed(w.pool, q)
    requires q.creating == w.pool.creating && q.cancelledCreations == w.pool.cancelledCreations
    ensures TurnOk(w.(pool := q), t)
  {
    var phase := w.turns[t].phase;
    if phase.Admitted? || phase.Running? || phase.Settled? {
      assert Claimed(SlotOf(w.pool, phase.id));
    }
  }

  lemma QuietStep(w: World, q: Pool)
    requires ProtocolInv(w) && Quiet(w.pool, q)
    ensures ProtocolInv(w.(pool := q))
  {
    forall t | t in w.turns
      ensures TurnOk(w.(pool := q), t)
    {
      TurnOkQuiet(w, q, t);
    }
  }

  lemma SlotAfterClose(p: Pool, gone: set<AdapterId>, id: AdapterId)
    requires LivenessInv(p.sessions, p.disposed)
    ensures SlotOf(CloseAll(p, gone), id) ==
            if id in gone && id in p.sessions then Gone(p.sessions[id].(closed := true))
            else match SlotOf(p, id)
                 case Pooled(s, _) => Pooled(s, Get(p.leases - gone, id))
                 case other => other
  {
  }

  lemma CloseAllUndisturbed(p: Pool, gone: set<AdapterId>)
    requires LivenessInv(p.sessions, p.disposed)
    ensures Undisturbed(p, CloseAll(p, gone))
  {
    forall id | Claimed(SlotOf(p, id))
      ensures SlotStep(SlotOf(p, id), SlotOf(CloseAll(p, gone), id))
    {
      SlotAfterClose(p, gone, id);
    }
  }

  lemma CloseAllQuiet(p: Pool, gone: set<AdapterId>)
    requires LivenessInv(p.sessions, p.disposed) && FlightInv(p.sessions, p.leases)
    ensures Quiet(p, CloseAll(p, gone))
  {
    CloseAllUndisturbed(p, gone);
  }

  lemma CloseQuiet(p: Pool, id: AdapterId)
    requires LivenessInv(p.sessions, p.disposed) && FlightInv(p.sessions, p.leases)
    ensures Quiet(p, Close(p, id))
  {
    CloseAllQuiet(p, {id});
  }

  lemma SameSlotsQuiet(p: Pool, q: Pool)
    requires FlightInv(p.sessions, p.leases)
    requires q.sessions == p.sessions && q.disposed == p.disposed && q.leases == p.leases
    requires q.creating == p.creating && q.cancelledCreations == p.cancelledCreations
    ensures Quiet(p, q)
  {
    forall id | Claimed(SlotOf(p, id))
      ensures SlotStep(SlotOf(p, id), SlotOf(q, id))
    {
    }
  }

  lemma QuietTransitive(p: Pool, q: Pool, r: Pool)
    requires Quiet(p, q) && Quiet(q, r)
    ensures Quiet(p, r)
  {
    forall id | Claimed(SlotOf(p, id))
      ensures SlotStep(SlotOf(p, id), SlotOf(r, id))
    {
      assert SlotStep(SlotOf(p, id), SlotOf(q, id));
      assert SlotStep(SlotOf(q, id), SlotOf(r, id));
    }
  }

  lemma HousekeepQuiet(p: Pool, now: int)
    requires LivenessInv(p.sessions, p.disposed) && FlightInv(p.sessions, p.leases)
    ensures Quiet(p, Housekeep(p, now))
  {
    var q := ReleaseExpiredEvictions(p, now);
    SameSlotsQuiet(p, q);
    CloseAllQuiet(q, ExpiredPending(q, now));
    QuietTransitive(p, q, Housekeep(p, now));
  }

  lemma CandidateQuiet(p: Pool, now: int)
    requires FlightInv(p.sessions, p.leases)
    ensures Quiet(p, LruCandidate(p, now).0)
  {
    SameSlotsQuiet(p, LruCandidate(p, now).0);
  }

  lemma TimerQuiet(p: Pool, id: AdapterId)
    requires LivenessInv(p.sessions, p.disposed) && FlightInv(p.sessions, p.leases)
    ensures Quiet(p, CancelTimerFires(p, id))
  {
    var q := p.(cancelTimers := p.cancelTimers - {id});
    SameSlotsQuiet(p, q);
    CloseQuiet(q, id);
    QuietTransitive(p, q, Close(q, id));
  }

  /** `ensure` up to its await is some closing of idle sessions, followed by the admission. */
  ghost predicate EnsureShape(p: Pool, q: Pool, admission: Admission, sub: SubagentId, task: Option<TaskId>) {
    match admission
    case Hit(id) =>
      exists r :: Quiet(p, r) && id in r.sessions && id !in r.leases && r.sessions[id].subagent == sub
                  && q == AcquireTurn(r, id, task)
    case Create => exists r :: Quiet(p, r) && sub !in r.creating && q == r.(creating := r.creating[sub := task])
    case _ => Quiet(p, q)
  }

  lemma MissShape(p: Pool, r: Pool, now: int, sub: SubagentId, task: Option<TaskId>)
    requires Quiet(p, r)
    ensures var (q, admission) := Miss(r, now, sub, task); EnsureShape(p, q, admission, sub, task)
  {
    if sub in r.creating {
    } else if |r.sessions| + |r.creating| >= r.maxHot {
      CandidateQuiet(r, now);
      QuietTransitive(p, r, LruCandidate(r, now).0);
    }
  }

  lemma HitShape(p: Pool, r: Pool, id: AdapterId, sub: SubagentId, task: Option<TaskId>)
    requires Quiet(p, r) && id in r.sessions && r.sessions[id].subagent == sub && id !in r.leases
    ensures EnsureShape(p, AcquireTurn(Touch(r, id), id, task), Hit(id), sub, task)
  {
    SameSlotsQuiet(r, Touch(r, id));
    QuietTransitive(p, r, Touch(r, id));
  }

  lemma ReplaceShape(p: Pool, r: Pool, now: int, id: AdapterId, sub: SubagentId, task: Option<TaskId>)
    requires Quiet(p, r) && LivenessInv(r.sessions, r.disposed)
    ensures var (q, admission) := Miss(Close(r, id), now, sub, task); EnsureShape(p, q, admission, sub, task)
  {
    CloseQuiet(r, id);
    QuietTransitive(p, r, Close(r, id));
    MissShape(p, Close(r, id), now, sub, task);
  }

  lemma AdmitShape(p: Pool, r: Pool, now: int, sub: SubagentId, model: ModelId, task: Option<TaskId>)
    requires Quiet(p, r) && LivenessInv(r.sessions, r.disposed)
    requires MappingInv(r.sessions, r.subagents) && BusyInv(r.sessions, r.busy, r.leases)
    ensures var (q, admission) := Admit(r, now, sub, model, task, true); EnsureShape(p, q, admission, sub, task)
  {
    if sub !in r.subagents {
      MissShape(p, r, now, sub, task);
    } else {
      var id := r.subagents[sub];
      if Quarantined(r, id) || id in r.busy {
      } else if r.sessions[id].model != model {
        ReplaceShape(p, r, now, id, sub, task);
      } else {
        HitShape(p, r, id, sub, task);
      }
    }
  }

  lemma EnsureBeginShape(p: Pool, now: int, sub: SubagentId, model: ModelId, task: Option<TaskId>)
    requires RepInv(p) && FlightInv(p.sessions, p.leases)
    ensures var (q, admission) := EnsureBegin(p, now, sub, model, task, true);
            EnsureShape(p, q, admission, sub, task)
  {
    HousekeepQuiet(p, now);
    HousekeepKeeps(p, now);
    AdmitShape(p, Housekeep(p, now), now, sub, model, task);
  }

  // ---- steps of a turn ----

  /** Turn `t` moves, and with it one session it holds or takes and one creation of its own. */
  ghost predicate Local(w: World, v: World, t: TurnId, id: Option<AdapterId>, sub: Option<SubagentId>) {
    && t in v.turns && v.turns == w.turns[t := v.turns[t]]
    && (forall x | x != t :: x in v.cancelled <==> x in w.cancelled)
    && (forall i | Some(i) != id && Claimed(SlotOf(w.pool, i)) :: SlotStep(SlotOf(w.pool, i), SlotOf(v.pool, i)))
    && (forall i | Some(i) != id :: Get(v.holder, i) == Get(w.holder, i))
    && (forall s | Some(s) != sub :: Get(v.creator, s) == Get(w.creator, s))
    && (forall s | Some(s) != sub :: Get(v.pool.creating, s) == Get(w.pool.creating, s))
    && (forall s | Some(s) != sub :: s in v.pool.cancelledCreations <==> s in w.pool.cancelledCreations)
  }

  /** No turn but `t` has to do with that session or that creation. */
  predicate Mine(w: World, t: TurnId, id: Option<AdapterId>, sub: Option<SubagentId>) {
    && (id.Some? ==> !Claimed(SlotOf(w.pool, id.value)) || Get(w.holder, id.value) == Some(t))
    && (sub.Some? ==> Get(w.creator, sub.value) in {None, Some(t)})
  }

  lemma OtherTurnKeeps(w: World, v: World, t: TurnId, id: Option<AdapterId>, sub: Option<SubagentId>, x: TurnId)
    requires Local(w, v, t, id, sub) && Mine(w, t, id, sub)
    requires x != t && x in w.turns && TurnOk(w, x)
    ensures TurnOk(v, x)
  {
    var phase := w.turns[x].phase;
    assert v.turns[x] == w.turns[x];
    match phase
    case Creating =>
      assert Some(w.turns[x].sub) != sub;
      assert Get(w.pool.creating, w.turns[x].sub) == Some(w.turns[x].task);
    case Done(_) =>
    case _ =>
      assert Claimed(SlotOf(w.pool, phase.id)) && Some(phase.id) != id;
  }

  lemma LocalStep(w: World, v: World, t: TurnId, id: Option<AdapterId>, sub: Option<SubagentId>)
    requires TurnsInv(w) && Local(w, v, t, id, sub) && Mine(w, t, id, sub)
    requires t in v.turns && TurnOk(v, t)
    ensures TurnsInv(v)
  {
    forall x | x in v.turns
      ensures TurnOk(v, x)
    {
      if x != t {
        OtherTurnKeeps(w, v, t, id, sub, x);
      }
    }
    forall x | x in v.cancelled
      ensures x in v.turns
    {
      assert x != t ==> x in w.cancelled;
    }
  }

  lemma RefuseStep(w: World, t: TurnId, turn: Turn)
    requires ProtocolInv(w) && t !in w.turns && turn.phase.Done? && turn.phase.outcome.Refused?
    ensures ProtocolInv(w.(turns := w.turns[t := turn]))
  {
    LocalStep(w, w.(turns := w.turns[t := turn]), t, None, None);
  }

  lemma NoCreator(w: World, sub: SubagentId)
    requires CreatorInv(w.pool.creating, w.creator, w.turns) && TurnsInv(w) && sub !in w.pool.creating
    ensures sub !in w.creator
  {
    assert sub in w.creator ==> TurnOk(w, w.creator[sub]);
  }

  lemma CreateStep(w: World, t: TurnId, sub: SubagentId, model: ModelId, task: Option<TaskId>)
    requires ProtocolInv(w) && t !in w.turns && sub !in w.pool.creating && sub !in w.pool.cancelledCreations
    ensures ProtocolInv(w.(pool := w.pool.(creating := w.pool.creating[sub := task]),
                           turns := w.turns[t := Turn(sub, task, model, Creating)], creator := w.creator[sub := t]))
  {
    var turn := Turn(sub, task, model, Creating);
    var v := w.(pool := w.pool.(creating := w.pool.creating[sub := task]),
                turns := w.turns[t := turn], creator := w.creator[sub := t]);
    NoCreator(w, sub);
    LocalStep(w, v, t, None, Some(sub));
  }

  lemma HitLocal(w: World, t: TurnId, sub: SubagentId, model: ModelId, task: Option<TaskId>, id: AdapterId)
    requires t !in w.turns && id in w.pool.sessions && id !in w.pool.leases && w.pool.sessions[id].subagent == sub
    requires FlightInv(w.pool.sessions, w.pool.leases) && w.cancelled <= w.turns.Keys
    ensures var v := w.(pool := AcquireTurn(w.pool, id, task), holder := w.holder[id := t],
                        turns := w.turns[t := Turn(sub, task, model, Admitted(id, true))]);
            Local(w, v, t, Some(id), None) && Mine(w, t, Some(id), None) && TurnOk(v, t)
  {
  }

  lemma HitStep(w: World, t: TurnId, sub: SubagentId, model: ModelId, task: Option<TaskId>, id: AdapterId)
    requires ProtocolInv(w) && t !in w.turns
    requires id in w.pool.sessions && id !in w.pool.leases && w.pool.sessions[id].subagent == sub
    ensures ProtocolInv(w.(pool := AcquireTurn(w.pool, id, task), holder := w.holder[id := t],
                           turns := w.turns[t := Turn(sub, task, model, Admitted(id, true))]))
  {
    hide Local, Mine, TurnOk, SlotOf;
    var v := w.(pool := AcquireTurn(w.pool, id, task), holder := w.holder[id := t],
                turns := w.turns[t := Turn(sub, task, model, Admitted(id, true))]);
    HitLocal(w, t, sub, model, task, id);
    LocalStep(w, v, t, Some(id), None);
  }

  lemma StartStep(w: World, t: TurnId, sub: SubagentId, model: ModelId, task: Option<TaskId>)
    requires Inv(w) && t !in w.turns
    ensures ProtocolInv(NextStart(w, t, sub, model, task))
  {
    hide EnsureBegin, TurnsInv, HolderInv, CreatorInv, CancelsInv, MappingInv, OrderInv;
    var p := w.pool;
    var (q, admission) := EnsureBegin(p, w.now, sub, model, task, true);
    EnsureBeginShape(p, w.now, sub, model, task);
    match admission
    case Hit(id) =>
      var r :| Quiet(p, r) && id in r.sessions && id !in r.leases && r.sessions[id].subagent == sub
               && q == AcquireTurn(r, id, task);
      QuietStep(w, r);
      HitStep(w.(pool := r), t, sub, model, task, id);
    case Create =>
      var r :| Quiet(p, r) && sub !in r.creating && q == r.(creating := r.creating[sub := task]);
      QuietStep(w, r);
      CreateStep(w.(pool := r), t, sub, model, task);
    case LimitReached(candidate) =>
      QuietStep(w, q);
      RefuseStep(w.(pool := q), t, Turn(sub, task, model, Done(Refused(Some(candidate)))));
    case AllBusy =>
      QuietStep(w, q);
      RefuseStep(w.(pool := q), t, Turn(sub, task, model, Done(Refused(None))));
  }

  lemma AbandonStep(w: World, t: TurnId, disposed: map<AdapterId, Session>, id: Option<AdapterId>, result: TurnResult)
    requires ProtocolInv(w) && t in w.turns && w.turns[t].phase.Creating?
    requires id.Some? ==> !Known(w.pool, id.value)
    requires forall i | Some(i) != id :: Get(disposed, i) == Get(w.pool.disposed, i)
    requires result.TurnCancelled? || result.Failed?
    requires result.TurnCancelled? ==> w.turns[t].sub in w.pool.cancelledCreations
    ensures var sub := w.turns[t].sub;
            ProtocolInv(w.(pool := w.pool.(creating := w.pool.creating - {sub}, disposed := disposed,
                                           cancelledCreations := w.pool.cancelledCreations - {sub}),
                           creator := w.creator - {sub}, turns := SetPhase(w, t, Done(Reported(result)))))
  {
    var sub := w.turns[t].sub;
    var v := w.(pool := w.pool.(creating := w.pool.creating - {sub}, disposed := disposed,
                                cancelledCreations := w.pool.cancelledCreations - {sub}),
                creator := w.creator - {sub}, turns := SetPhase(w, t, Done(Reported(result))));
    assert TurnOk(w, t);
    forall i | Some(i) != id
      ensures SlotOf(v.pool, i) == SlotOf(w.pool, i)
    {
      assert Get(disposed, i) == Get(w.pool.disposed, i);
    }
    LocalStep(w, v, t, id, Some(sub));
  }

  lemma PublishSlots(p: Pool, now: int, sub: SubagentId, id: AdapterId, model: ModelId, task: Option<TaskId>)
    ensures var q := AcquireTurn(Publish(p, now, sub, id, model), id, task);
            && (forall i | i != id :: SlotOf(q, i) == SlotOf(p, i))
            && SlotOf(q, id) == Pooled(NewSession(sub, model), Some(Lease(task, false, false)))
  {
  }

  lemma PublishLocal(w: World, t: TurnId, id: AdapterId)
    requires ProtocolInv(w) && t in w.turns && w.turns[t].phase.Creating? && !Known(w.pool, id)
    requires w.turns[t].sub !in w.pool.cancelledCreations
    ensures var v, sub := NextFactory(w, t, Some(id)), Some(w.turns[t].sub);
            && Local(w, v, t, Some(id), sub) && Mine(w, t, Some(id), sub)
            && t in v.turns && TurnOk(v, t)
  {
    var turn := w.turns[t];
    assert TurnOk(w, t);
    PublishSlots(w.pool.(creating := w.pool.creating - {turn.sub},
                         cancelledCreations := w.pool.cancelledCreations - {turn.sub}),
                 w.now, turn.sub, id, turn.model, turn.task);
  }

  lemma PublishFields(w: World, t: TurnId, id: AdapterId)
    requires t in w.turns && w.turns[t].sub !in w.pool.cancelledCreations
    ensures var v, turn := NextFactory(w, t, Some(id)), w.turns[t];
            && v.turns == SetPhase(w, t, Admitted(id, false)) && v.holder == w.holder[id := t]
            && v.creator == w.creator - {turn.sub} && v.cancels == w.cancels && v.cancelled == w.cancelled
            && v.pool.sessions == w.pool.sessions[id := NewSession(turn.sub, turn.model)]
            && v.pool.leases == w.pool.leases[id := Lease(turn.task, false, false)]
            && v.pool.creating == w.pool.creating - {turn.sub}
  {
  }

  lemma PublishHolder(w: World, t: TurnId, id: AdapterId, lease: Lease)
    requires HolderInv(w.pool.leases, w.holder, w.turns) && t in w.turns && w.turns[t].phase.Creating?
    ensures HolderInv(w.pool.leases[id := lease], w.holder[id := t], SetPhase(w, t, Admitted(id, false)))
  {
  }

  lemma PublishCreator(w: World, t: TurnId, phase: Phase)
    requires CreatorInv(w.pool.creating, w.creator, w.turns) && t in w.turns
    ensures CreatorInv(w.pool.creating - {w.turns[t].sub}, w.creator - {w.turns[t].sub}, SetPhase(w, t, phase))
  {
  }

  lemma PublishFlight(p: Pool, id: AdapterId, s: Session, lease: Lease)
    requires FlightInv(p.sessions, p.leases) && id !in p.leases && !s.inFlight
    ensures FlightInv(p.sessions[id := s], p.leases[id := lease])
  {
  }

  lemma PublishStep(w: World, t: TurnId, id: AdapterId)
    requires ProtocolInv(w) && t in w.turns && w.turns[t].phase.Creating? && !Known(w.pool, id)
    requires w.turns[t].sub !in w.pool.cancelledCreations && id !in w.pool.leases
    ensures ProtocolInv(NextFactory(w, t, Some(id)))
  {
    hide Local, Mine, TurnOk, SlotOf, NextFactory, SetPhase, HolderInv, CreatorInv, FlightInv, CancelsInv;
    var turn := w.turns[t];
    PublishLocal(w, t, id);
    PublishFields(w, t, id);
    PublishHolder(w, t, id, Lease(turn.task, false, false));
    PublishCreator(w, t, Admitted(id, false));
    PublishFlight(w.pool, id, NewSession(turn.sub, turn.model), Lease(turn.task, false, false));
    LocalStep(w, NextFactory(w, t, Some(id)), t, Some(id), Some(turn.sub));
  }

  lemma FactoryStep(w: World, t: TurnId, created: Option<AdapterId>)
    requires Inv(w) && Enabled(w, FactoryReturns(t, created))
    ensures ProtocolInv(NextFactory(w, t, created))
  {
    var v := NextFactory(w, t, created);
    if created.None? {
      AbandonStep(w, t, w.pool.disposed, None, Failed(Internal));
    } else if w.turns[t].sub in w.pool.cancelledCreations {
      AbandonStep(w, t, v.pool.disposed, created, TurnCancelled);
    } else {
      PublishStep(w, t, created.value);
    }
  }

  /** What `endTurn`, with or without closing the session, does to the slots. */
  lemma FinishSlots(p: Pool, now: int, id: AdapterId, reused: bool, result: TurnResult)
    requires LivenessInv(p.sessions, p.disposed)
    ensures var q := FinishTurn(p, now, id, reused, result);
            && (forall i | i != id && Claimed(SlotOf(p, i)) :: SlotOf(q, i) == SlotOf(p, i))
            && (forall i | i in q.leases :: i in p.leases && i != id)
            && q.creating == p.creating && q.cancelledCreations == p.cancelledCreations
  {
    var q := EndTurn(p, now, id);
    forall i | i != id && Claimed(SlotOf(p, i))
      ensures SlotOf(FinishTurn(p, now, id, reused, result), i) == SlotOf(p, i)
    {
      SlotAfterClose(q, {id}, i);
    }
  }

  lemma FinishFlight(p: Pool, now: int, id: AdapterId, reused: bool, result: TurnResult)
    requires FlightInv(p.sessions, p.leases) && (id in p.sessions ==> !p.sessions[id].inFlight)
    ensures var q := FinishTurn(p, now, id, reused, result); FlightInv(q.sessions, q.leases)
  {
  }

  lemma EndStep(w: World, t: TurnId, id: AdapterId, reused: bool, result: TurnResult)
    requires ProtocolInv(w) && LivenessInv(w.pool.sessions, w.pool.disposed)
    requires t in w.turns && Get(w.holder, id) == Some(t) && Holds(w.turns[t].phase, id)
    requires id in w.pool.sessions ==> !w.pool.sessions[id].inFlight
    requires ResultOk(result, t in w.cancelled)
    ensures ProtocolInv(w.(pool := FinishTurn(w.pool, w.now, id, reused, result), holder := w.holder - {id},
                           turns := SetPhase(w, t, Done(Reported(result)))))
  {
    var v := w.(pool := FinishTurn(w.pool, w.now, id, reused, result), holder := w.holder - {id},
                turns := SetPhase(w, t, Done(Reported(result))));
    FinishSlots(w.pool, w.now, id, reused, result);
    FinishFlight(w.pool, w.now, id, reused, result);
    LocalStep(w, v, t, Some(id), None);
  }

  lemma BeginStep(w: World, t: TurnId)
    requires ProtocolInv(w) && LivenessInv(w.pool.sessions, w.pool.disposed)
    requires Enabled(w, HandlerResumes(t)) && w.turns[t].phase.id in w.pool.sessions
    requires MarkTurnStarted(w.pool, w.turns[t].phase.id, w.turns[t].task).1
    ensures ProtocolInv(NextResume(w, t))
  {
    var id := w.turns[t].phase.id;
    var v := NextResume(w, t);
    assert TurnOk(w, t);
    var s := BeginTurn(w.pool.sessions[id], w.turns[t].task);
    assert v.pool == w.pool.(sessions := w.pool.sessions[id := s],
                             leases := w.pool.leases[id := Lease(w.turns[t].task, true, false)]);
    LocalStep(w, v, t, Some(id), None);
  }

  lemma GoneStep(w: World, t: TurnId)
    requires Inv(w) && Enabled(w, HandlerResumes(t)) && w.turns[t].phase.id !in w.pool.sessions
    ensures ProtocolInv(NextResume(w, t))
  {
    var id := w.turns[t].phase.id;
    assert TurnOk(w, t);
    LocalStep(w, NextResume(w, t), t, Some(id), None);
  }

  lemma ResumeStep(w: World, t: TurnId)
    requires Inv(w) && Enabled(w, HandlerResumes(t))
    ensures ProtocolInv(NextResume(w, t))
  {
    var Admitted(id, reused) := w.turns[t].phase;
    assert TurnOk(w, t);
    if !MarkTurnStarted(w.pool, id, w.turns[t].task).1 {
      EndStep(w, t, id, reused, TurnCancelled);
    } else if id in w.pool.sessions {
      BeginStep(w, t);
    } else {
      GoneStep(w, t);
    }
  }

  lemma SettleLocal(w: World, t: TurnId, sdk: SdkResult)
    requires Inv(w) && Enabled(w, SdkSettles(t, sdk))
    ensures var v, id := NextSettle(w, t, sdk), Some(w.turns[t].phase.id);
            && Local(w, v, t, id, None) && Mine(w, t, id, None)
            && t in v.turns && TurnOk(v, t)
  {
    assert TurnOk(w, t);
  }

  lemma SettleStep(w: World, t: TurnId, sdk: SdkResult)
    requires Inv(w) && Enabled(w, SdkSettles(t, sdk))
    ensures ProtocolInv(NextSettle(w, t, sdk))
  {
    hide Local, Mine, TurnOk, SlotOf, RepInv;
    SettleLocal(w, t, sdk);
    LocalStep(w, NextSettle(w, t, sdk), t, Some(w.turns[t].phase.id), None);
  }

  lemma FinishStep(w: World, t: TurnId)
    requires Inv(w) && Enabled(w, HandlerFinishes(t))
    ensures ProtocolInv(NextFinish(w, t))
  {
    var Settled(id, reused, result) := w.turns[t].phase;
    assert TurnOk(w, t);
    EndStep(w, t, id, reused, result);
  }

  // ---- cancel requests ----

  lemma AimAtCreation(w: World, sub: SubagentId, task: Option<TaskId>)
    requires ProtocolInv(w) && MappingInv(w.pool.sessions, w.pool.subagents) && sub !in w.pool.subagents
    ensures sub in w.pool.creating ==> sub in w.creator
    ensures Aim(w, sub, task) == if sub in w.pool.creating && (task.None? || w.pool.creating[sub] == task)
                                 then {w.creator[sub]} else {}
  {
    forall t | t in w.turns && Cancellable(w, t, sub, task)
      ensures sub in w.pool.creating && w.pool.creating[sub] == w.turns[t].task && t == w.creator[sub]
    {
      assert TurnOk(w, t);
    }
    if sub in w.pool.creating {
      assert TurnOk(w, w.creator[sub]);
    }
  }

  /** The turn, if any, that a cancel aimed at a pooled session hits. */
  predicate HitBySession(w: World, id: AdapterId, task: Option<TaskId>) {
    && id in w.holder && w.holder[id] in w.turns
    && (task.None? || w.turns[w.holder[id]].task == task)
    && (w.turns[w.holder[id]].phase.Admitted? || w.turns[w.holder[id]].phase.Running?)
  }

  lemma AimAtSession(w: World, sub: SubagentId, task: Option<TaskId>, id: AdapterId)
    requires ProtocolInv(w) && MappingInv(w.pool.sessions, w.pool.subagents)
    requires CreationInv(w.pool.creating, w.pool.cancelledCreations, w.pool.subagents)
    requires sub in w.pool.subagents && id == w.pool.subagents[sub]
    ensures Aim(w, sub, task) == if HitBySession(w, id, task) then {w.holder[id]} else {}
  {
    forall t | t in w.turns && Cancellable(w, t, sub, task)
      ensures HitBySession(w, id, task) && t == w.holder[id]
    {
      assert TurnOk(w, t);
    }
    if HitBySession(w, id, task) {
      assert TurnOk(w, w.holder[id]);
    }
  }

  lemma RecordCancel(w: World, c: CancelId, state: CancelState)
    requires CancelsInv(w.cancels, w.cancelled) && |state.hit| <= 1
    requires (if state.Waiting? then state.aborted else state.accepted) <==> state.hit != {}
    ensures CancelsInv(w.cancels[c := state], w.cancelled + state.hit)
  {
  }

  /** A cancel that hits nothing changes no slot. */
  lemma MissedCancel(w: World, v: World, c: CancelId, state: CancelState)
    requires ProtocolInv(w) && Quiet(w.pool, v.pool) && state.hit == {}
    requires (if state.Waiting? then state.aborted else state.accepted) <==> false
    requires v == w.(pool := v.pool, cancels := w.cancels[c := state], cancelled := w.cancelled + {})
    ensures ProtocolInv(v)
  {
    assert w.cancelled + {} == w.cancelled;
    QuietStep(w, v.pool);
    RecordCancel(w, c, state);
  }

  /** A cancel that hits turn `t` moves that turn alone. */
  lemma HitCancel(w: World, v: World, c: CancelId, state: CancelState, t: TurnId,
                  id: Option<AdapterId>, sub: Option<SubagentId>)
    requires ProtocolInv(w) && t in w.turns && state.hit == {t}
    requires if state.Waiting? then state.aborted else state.accepted
    requires v == w.(pool := v.pool, cancels := w.cancels[c := state], cancelled := w.cancelled + {t})
    requires FlightInv(v.pool.sessions, v.pool.leases)
    requires v.pool.leases.Keys == w.pool.leases.Keys && v.pool.creating == w.pool.creating
    requires Local(w, v, t, id, sub) && Mine(w, t, id, sub) && TurnOk(v, t)
    ensures ProtocolInv(v)
  {
    LocalStep(w, v, t, id, sub);
    RecordCancel(w, c, state);
    assert HolderInv(v.pool.leases, v.holder, v.turns);
  }

  lemma CancelCreationStep(w: World, c: CancelId, sub: SubagentId, task: Option<TaskId>)
    requires ProtocolInv(w) && MappingInv(w.pool.sessions, w.pool.subagents) && sub !in w.pool.subagents
    ensures ProtocolInv(NextCancel(w, c, sub, task))
  {
    var v := NextCancel(w, c, sub, task);
    AimAtCreation(w, sub, task);
    if Aim(w, sub, task) == {} {
      SameSlotsQuiet(w.pool, v.pool);
      MissedCancel(w, v, c, v.cancels[c]);
    } else {
      var t := w.creator[sub];
      assert TurnOk(w, t);
      assert w.turns[t := v.turns[t]] == w.turns;
      HitCancel(w, v, c, v.cancels[c], t, None, Some(sub));
    }
  }

  lemma CancelLeaseLocal(w: World, c: CancelId, sub: SubagentId, task: Option<TaskId>, id: AdapterId)
    requires ProtocolInv(w) && MappingInv(w.pool.sessions, w.pool.subagents)
    requires sub in w.pool.subagents && id == w.pool.subagents[sub]
    requires id in w.pool.leases && !w.pool.leases[id].started
    requires task.Some? ==> w.pool.leases[id].taskId == task
    requires Aim(w, sub, task) == {w.holder[id]}
    ensures var v, t := NextCancel(w, c, sub, task), w.holder[id];
            && v == w.(pool := v.pool, cancels := w.cancels[c := Answered(true, {t})], cancelled := w.cancelled + {t})
            && v.pool == w.pool.(leases := w.pool.leases[id := w.pool.leases[id].(cancelled := true)])
            && t in v.turns && Local(w, v, t, Some(id), None) && Mine(w, t, Some(id), None) && TurnOk(v, t)
  {
    hide Aim, AbortTurn;
    var t := w.holder[id];
    assert TurnOk(w, t);
    assert w.turns[t := w.turns[t]] == w.turns;
  }

  lemma CancelLeaseStep(w: World, c: CancelId, sub: SubagentId, task: Option<TaskId>, id: AdapterId)
    requires ProtocolInv(w) && MappingInv(w.pool.sessions, w.pool.subagents)
    requires CreationInv(w.pool.creating, w.pool.cancelledCreations, w.pool.subagents)
    requires sub in w.pool.subagents && id == w.pool.subagents[sub]
    requires id in w.pool.leases && !w.pool.leases[id].started
    ensures ProtocolInv(NextCancel(w, c, sub, task))
  {
    var v := NextCancel(w, c, sub, task);
    AimAtSession(w, sub, task, id);
    var t := w.holder[id];
    assert TurnOk(w, t);
    if task.Some? && w.pool.leases[id].taskId != task {
      SameSlotsQuiet(w.pool, v.pool);
      MissedCancel(w, v, c, v.cancels[c]);
    } else {
      hide Local, Mine, Aim, NextCancel;
      CancelLeaseLocal(w, c, sub, task, id);
      assert v.pool.leases.Keys == w.pool.leases.Keys;
      HitCancel(w, v, c, v.cancels[c], t, Some(id), None);
    }
  }

  /** While a turn runs, its register accepts an abort exactly when the turn is hit. */
  lemma FlightHit(w: World, sub: SubagentId, task: Option<TaskId>, id: AdapterId)
    requires ProtocolInv(w) && MappingInv(w.pool.sessions, w.pool.subagents)
    requires CreationInv(w.pool.creating, w.pool.cancelledCreations, w.pool.subagents)
    requires sub in w.pool.subagents && id == w.pool.subagents[sub]
    requires id in w.pool.leases ==> w.pool.leases[id].started
    ensures Aim(w, sub, task) == if AbortAccepted(w.pool.sessions[id], task) then {w.holder[id]} else {}
    ensures AbortAccepted(w.pool.sessions[id], task) ==>
              && id in w.holder && w.holder[id] in w.turns
              && w.turns[w.holder[id]].phase.Running? && w.turns[w.holder[id]].phase.id == id
  {
    AimAtSession(w, sub, task, id);
    if id in w.holder {
      assert TurnOk(w, w.holder[id]);
    }
  }

  lemma CancelFlightStep(w: World, c: CancelId, sub: SubagentId, task: Option<TaskId>, id: AdapterId)
    requires ProtocolInv(w) && MappingInv(w.pool.sessions, w.pool.subagents)
    requires CreationInv(w.pool.creating, w.pool.cancelledCreations, w.pool.subagents)
    requires sub in w.pool.subagents && id == w.pool.subagents[sub]
    requires id in w.pool.leases ==> w.pool.leases[id].started
    requires AbortAccepted(w.pool.sessions[id], task)
    ensures ProtocolInv(NextCancel(w, c, sub, task))
  {
    var v := NextCancel(w, c, sub, task);
    FlightHit(w, sub, task, id);
    var t := w.holder[id];
    assert TurnOk(w, t);
    assert w.turns[t := v.turns[t]] == w.turns;
    assert v.pool == w.pool.(sessions := v.pool.sessions, cancelTimers := v.pool.cancelTimers);
    HitCancel(w, v, c, v.cancels[c], t, Some(id), None);
  }

  lemma CancelIdleStep(w: World, c: CancelId, sub: SubagentId, task: Option<TaskId>, id: AdapterId)
    requires ProtocolInv(w) && MappingInv(w.pool.sessions, w.pool.subagents)
    requires CreationInv(w.pool.creating, w.pool.cancelledCreations, w.pool.subagents)
    requires sub in w.pool.subagents && id == w.pool.subagents[sub]
    requires id in w.pool.leases ==> w.pool.leases[id].started
    requires !AbortAccepted(w.pool.sessions[id], task)
    ensures ProtocolInv(NextCancel(w, c, sub, task))
  {
    var v := NextCancel(w, c, sub, task);
    FlightHit(w, sub, task, id);
    assert w.pool.sessions[id := w.pool.sessions[id]] == w.pool.sessions;
    SameSlotsQuiet(w.pool, v.pool);
    MissedCancel(w, v, c, v.cancels[c]);
  }

  lemma CancelStep(w: World, c: CancelId, sub: SubagentId, task: Option<TaskId>)
    requires Inv(w)
    ensures ProtocolInv(NextCancel(w, c, sub, task))
  {
    if sub !in w.pool.subagents {
      CancelCreationStep(w, c, sub, task);
    } else {
      var id := w.pool.subagents[sub];
      if id in w.pool.leases && !w.pool.leases[id].started {
        CancelLeaseStep(w, c, sub, task, id);
      } else {
        if AbortAccepted(w.pool.sessions[id], task) {
          CancelFlightStep(w, c, sub, task, id);
        } else {
          CancelIdleStep(w, c, sub, task, id);
        }
      }
    }
  }
}
