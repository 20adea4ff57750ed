/** Guarantees that depend on the clock: slots are recovered, and a cancelled session is
    quarantined for a bounded time. */
module TimeGuarantees {
  import opened Options
  import opened PiSession
  import opened PoolModel
  import opened TurnProtocol
  import opened SidecarRuns
  import opened EvictionGuarantees

  // ---- how steps treat time stamps, timers and pending cancellations ----

  /** Entries are kept, dropped, or stamped anew. */
  ghost predicate Restamped(m: map<AdapterId, int>, n: map<AdapterId, int>, stamp: int) {
    forall id | id in n :: (id in m && n[id] == m[id]) || n[id] == stamp
  }

  predicate Pending(sessions: map<AdapterId, Session>, id: AdapterId) {
    id in sessions && sessions[id].cancellationPending
  }

  /** No cancellation starts, and where one stays pending its timer stays as it is. */
  ghost predicate Calm(sessions: map<AdapterId, Session>, timers: map<AdapterId, int>,
                       sessions': map<AdapterId, Session>, timers': map<AdapterId, int>)
  {
    forall id | Pending(sessions', id) ::
      Pending(sessions, id) && (id in timers ==> id in timers' && timers'[id] == timers[id])
  }

  ghost predicate Stamped(p: Pool, q: Pool, now: int) {
    && Restamped(p.pendingSince, q.pendingSince, now)
    && Restamped(p.evicting, q.evicting, now)
    && Restamped(p.cancelTimers, q.cancelTimers, now + PENDING_CANCEL_GRACE_MS)
  }

  ghost predicate Steady(p: Pool, q: Pool, now: int) {
    Stamped(p, q, now) && Calm(p.sessions, p.cancelTimers, q.sessions, q.cancelTimers)
  }

  lemma SteadyTransitive(p: Pool, q: Pool, r: Pool, now: int)
    requires Steady(p, q, now) && Steady(q, r, now)
    ensures Steady(p, r, now)
  {
  }

  lemma ReleaseSteady(p: Pool, now: int)
    ensures Steady(p, ReleaseExpiredEvictions(p, now), now)
  {
  }

  lemma CloseAllSteady(p: Pool, gone: set<AdapterId>, now: int)
    ensures Steady(p, CloseAll(p, gone), now)
  {
  }

  lemma CloseSteady(p: Pool, id: AdapterId, now: int)
    ensures Steady(p, Close(p, id), now)
  {
    CloseAllSteady(p, {id}, now);
  }

  lemma HousekeepSteady(p: Pool, now: int)
    ensures Steady(p, Housekeep(p, now), now)
  {
    var q := ReleaseExpiredEvictions(p, now);
    ReleaseSteady(p, now);
    CloseAllSteady(q, ExpiredPending(q, now), now);
    SteadyTransitive(p, q, Housekeep(p, now), now);
  }

  lemma CandidateSteady(p: Pool, now: int)
    ensures Steady(p, LruCandidate(p, now).0, now)
  {
    ReleaseSteady(p, now);
    hide LastFree;
  }

  lemma MissSteady(p: Pool, now: int, sub: SubagentId, task: Option<TaskId>)
    ensures Steady(p, Miss(p, now, sub, task).0, now)
  {
    CandidateSteady(p, now);
    FieldsSteady(p, p, now);
    FieldsSteady(p, p.(creating := p.creating[sub := task]), now);
    hide LruCandidate, Steady;
  }

  lemma AdmitSteady(p: Pool, now: int, sub: SubagentId, model: ModelId, task: Option<TaskId>)
    ensures Steady(p, Admit(p, now, sub, model, task, true).0, now)
  {
    hide Miss, Steady, Close, Quarantined, ToFront;
    if sub !in p.subagents {
      MissSteady(p, now, sub, task);
    } else {
      var id := p.subagents[sub];
      var q := p.(subagents := p.subagents - {sub});
      FieldsSteady(p, q, now);
      MissSteady(q, now, sub, task);
      SteadyTransitive(p, q, Miss(q, now, sub, task).0, now);
      CloseSteady(p, id, now);
      MissSteady(Close(p, id), now, sub, task);
      SteadyTransitive(p, Close(p, id), Miss(Close(p, id), now, sub, task).0, now);
      FieldsSteady(p, AcquireTurn(Touch(p, id), id, task), now);
      FieldsSteady(p, p, now);
    }
  }

  lemma FieldsSteady(p: Pool, q: Pool, now: int)
    requires q.sessions == p.sessions && q.pendingSince == p.pendingSince
    requires q.evicting == p.evicting && q.cancelTimers == p.cancelTimers
    ensures Steady(p, q, now)
  {
  }

  lemma EnsureSteady(p: Pool, now: int, sub: SubagentId, model: ModelId, task: Option<TaskId>)
    ensures Steady(p, EnsureBegin(p, now, sub, model, task, true).0, now)
  {
    HousekeepSteady(p, now);
    AdmitSteady(Housekeep(p, now), now, sub, model, task);
    SteadyTransitive(p, Housekeep(p, now), EnsureBegin(p, now, sub, model, task, true).0, now);
    hide Steady, Housekeep, Admit;
  }

  lemma ResumeCreationSteady(p: Pool, now: int, sub: SubagentId, model: ModelId, task: Option<TaskId>,
                             created: Option<AdapterId>)
    ensures Steady(p, EnsureResume(p, now, sub, model, task, true, created).0, now)
  {
  }

  lemma EndTurnSteady(p: Pool, now: int, id: AdapterId)
    ensures Steady(p, EndTurn(p, now, id), now)
  {
  }

  lemma FinishSteady(p: Pool, now: int, id: AdapterId, reused: bool, result: TurnResult)
    ensures Steady(p, FinishTurn(p, now, id, reused, result), now)
  {
    EndTurnSteady(p, now, id);
    CloseSteady(EndTurn(p, now, id), id, now);
    SteadyTransitive(p, EndTurn(p, now, id), Close(EndTurn(p, now, id), id), now);
    hide Steady, Close, EndTurn;
  }

  lemma PutObjectSteady(p: Pool, now: int, id: AdapterId, s: Session)
    requires s.cancellationPending ==> Pending(p.sessions, id)
    ensures Steady(p, PutObject(p, id, s), now)
  {
  }

  lemma ResumeSteady(w: World, t: TurnId)
    requires Enabled(w, HandlerResumes(t))
    ensures Steady(w.pool, NextResume(w, t).pool, w.now)
  {
    hide Steady, FinishTurn, PutObject, MarkTurnStarted;
    var Admitted(id, reused) := w.turns[t].phase;
    var (q, started) := MarkTurnStarted(w.pool, id, w.turns[t].task);
    FieldsSteady(w.pool, q, w.now);
    if !started {
      FinishSteady(q, w.now, id, reused, TurnCancelled);
      SteadyTransitive(w.pool, q, FinishTurn(q, w.now, id, reused, TurnCancelled), w.now);
    } else if !Object(q, id).closed {
      var s := BeginTurn(Object(q, id), w.turns[t].task);
      PutObjectSteady(q, w.now, id, s);
      SteadyTransitive(w.pool, q, PutObject(q, id, s), w.now);
    }
  }

  lemma SettleSteady(w: World, t: TurnId, sdk: SdkResult)
    requires Enabled(w, SdkSettles(t, sdk))
    ensures Steady(w.pool, NextSettle(w, t, sdk).pool, w.now)
  {
    hide Steady, PutObject;
    var Running(id, _, g) := w.turns[t].phase;
    var s := Object(w.pool, id);
    if id in w.pool.sessions || !SettleTurn(s, g).cancellationPending {
      PutObjectSteady(w.pool, w.now, id, SettleTurn(s, g));
    } else {
      DisposedSteady(w.pool, w.now, id, SettleTurn(s, g));
    }
  }

  lemma DisposedSteady(p: Pool, now: int, id: AdapterId, s: Session)
    requires id !in p.sessions
    ensures Steady(p, PutObject(p, id, s), now)
  {
  }

  lemma TimerSteady(p: Pool, id: AdapterId, now: int)
    ensures Steady(p, CancelTimerFires(p, id), now)
  {
    if Pending(p.sessions, id) {
      var q := p.(cancelTimers := p.cancelTimers - {id});
      assert Close(q, id) == CloseAll(p, {id}) by {
        assert q.cancelTimers - {id} == p.cancelTimers - {id};
      }
      CloseAllSteady(p, {id}, now);
    }
  }

  lemma ReserveSteady(p: Pool, now: int, id: AdapterId)
    ensures Steady(p, ReserveForEviction(p, now, id).0, now)
  {
  }

  /** Every step but a cancel request, its completion and an activation. */
  predicate CalmLabel(l: Label) {
    !l.RequestCancel? && !l.AbortSettles? && !l.ActivateSession?
  }

  lemma CalmStep(w: World, l: Label)
    requires Enabled(w, l) && CalmLabel(l)
    ensures Steady(w.pool, Next(w, l).pool, w.now)
  {
    hide Steady, EnsureBegin, EnsureResume, FinishTurn, NextResume, NextSettle, Close, CancelTimerFires,
      ReserveForEviction;
    match l {
      case StartTurn(_, sub, model, task) => EnsureSteady(w.pool, w.now, sub, model, task);
      case FactoryReturns(t, created) =>
        ResumeCreationSteady(w.pool, w.now, w.turns[t].sub, w.turns[t].model, w.turns[t].task, created);
      case HandlerResumes(t) => ResumeSteady(w, t);
      case SdkSettles(t, sdk) => SettleSteady(w, t, sdk);
      case HandlerFinishes(t) =>
        FinishSteady(w.pool, w.now, w.turns[t].phase.id, w.turns[t].phase.reused, w.turns[t].phase.result);
      case CloseSession(id) => CloseSteady(w.pool, id, w.now);
      case TimerFires(id) => TimerSteady(w.pool, id, w.now);
      case PrepareHibernate(id) => ReserveSteady(w.pool, w.now, id);
      case ReleaseReservation(id) => ReleaseOneSteady(w.pool, w.now, id);
      case Tick(_) => FieldsSteady(w.pool, w.pool, w.now);
    }
  }

  lemma ReleaseOneSteady(p: Pool, now: int, id: AdapterId)
    ensures Steady(p, ReleaseEviction(p, id), now)
  {
  }

  lemma CancelStamped(p: Pool, now: int, sub: SubagentId, task: Option<TaskId>)
    ensures Stamped(p, CancelBegin(p, now, sub, task).0, now)
  {
    hide AbortTurn;
    if sub in p.subagents && p.subagents[sub] in p.sessions {
      AbortStamped(p, now, p.subagents[sub], task);
    }
  }

  lemma AbortStamped(p: Pool, now: int, x: AdapterId, task: Option<TaskId>)
    requires x in p.sessions
    ensures Stamped(p, AbortTurn(p, now, x, task).0, now)
  {
    hide Abort;
  }

  lemma StampStep(w: World, l: Label)
    requires Enabled(w, l)
    ensures Stamped(w.pool, Next(w, l).pool, w.now)
  {
    if CalmLabel(l) {
      CalmStep(w, l);
    } else {
      hide CancelBegin, Aim;
      if l.RequestCancel? {
        CancelStamped(w.pool, w.now, l.sub, l.task);
      }
    }
    hide Next;
  }

  // ---- time stamps ----

  ghost predicate AtMost(m: map<AdapterId, int>, bound: int) {
    forall id | id in m :: m[id] <= bound
  }

  /** No stamp lies in the future, and no timer is due later than the grace period allows. */
  ghost predicate Dated(w: World) {
    && AtMost(w.pool.pendingSince, w.now)
    && AtMost(w.pool.evicting, w.now)
    && AtMost(w.pool.cancelTimers, w.now + PENDING_CANCEL_GRACE_MS)
  }

  lemma ClockStep(w: World, l: Label)
    requires Enabled(w, l)
    ensures Next(w, l).now == w.now + if l.Tick? then l.elapsed else 0
    ensures l.Tick? ==> Next(w, l).pool == w.pool
  {
    hide EnsureBegin, EnsureResume, CancelBegin, CancelTimerFires, FinishTurn, PutObject, Aim;
  }

  lemma {:induction false} AlwaysDated(r: Trace, maxHot: nat, i: nat)
    requires IsRun(r, maxHot) && i <= |r.labels|
    ensures Dated(r.states[i])
    decreases i
  {
    hide Next, Enabled;
    if i > 0 {
      AlwaysDated(r, maxHot, i - 1);
      assert StepAt(r, i - 1);
      StampStep(r.states[i - 1], r.labels[i - 1]);
      ClockStep(r.states[i - 1], r.labels[i - 1]);
    }
  }

  // ---- slots are recovered ----

  ghost predicate AllDone(turns: map<TurnId, Turn>) {
    forall t | t in turns :: turns[t].phase.Done?
  }

  lemma HolderAtWork(leases: map<AdapterId, Lease>, holder: map<AdapterId, TurnId>, turns: map<TurnId, Turn>,
                     id: AdapterId)
    requires HolderInv(leases, holder, turns) && id in leases
    ensures !AllDone(turns)
  {
    var t := holder[id];
    assert !turns[t].phase.Done?;
  }

  lemma CreatorAtWork(creating: map<SubagentId, Option<TaskId>>, creator: map<SubagentId, TurnId>,
                      turns: map<TurnId, Turn>, sub: SubagentId)
    requires CreatorInv(creating, creator, turns) && sub in creating
    ensures !AllDone(turns)
  {
    var t := creator[sub];
    assert !turns[t].phase.Done?;
  }

  /** Nothing in the pool is in use. */
  ghost predicate Idle(p: Pool) {
    && (forall id :: id !in p.busy)
    && (forall sub :: sub !in p.creating)
    && (forall id :: !Pending(p.sessions, id))
  }

  lemma NoTurnsIdle(w: World)
    requires Inv(w) && AllDone(w.turns)
    ensures Idle(w.pool)
  {
    forall id
      ensures id !in w.pool.leases
    {
      if id in w.pool.leases {
        HolderAtWork(w.pool.leases, w.holder, w.turns, id);
      }
    }
    forall sub
      ensures sub !in w.pool.creating
    {
      if sub in w.pool.creating {
        CreatorAtWork(w.pool.creating, w.creator, w.turns, sub);
      }
    }
    PendingIsLeased(w);
    hide ProtocolInv, MappingInv, OrderInv;
  }

  lemma PendingIsLeased(w: World)
    requires Inv(w)
    ensures forall id | Pending(w.pool.sessions, id) :: id in w.pool.leases
  {
    hide TurnsInv, HolderInv, CreatorInv, MappingInv, OrderInv;
  }

  /** What housekeeping leaves of an idle pool once the limits have passed. */
  ghost predicate Cleared(p: Pool) {
    && Idle(p)
    && (forall id :: id !in p.pending)
    && (forall id :: id !in p.evicting)
  }

  lemma IdlePoolCleared(p: Pool, now: int)
    requires OrderInv(p.sessions, p.lru, p.pending, p.pendingSince) && Idle(p)
    requires AtMost(p.pendingSince, now - EVICTION_RESERVATION_TTL_MS)
    requires AtMost(p.evicting, now - EVICTION_RESERVATION_TTL_MS)
    ensures Cleared(Housekeep(p, now))
  {
    var q := ReleaseExpiredEvictions(p, now);
    assert forall id :: id !in q.evicting;
    ExpiredWhenIdle(q, now);
    CloseAllIdle(q, ExpiredPending(q, now));
  }

  lemma ExpiredWhenIdle(p: Pool, now: int)
    requires OrderInv(p.sessions, p.lru, p.pending, p.pendingSince) && Idle(p)
    requires AtMost(p.pendingSince, now - EVICTION_RESERVATION_TTL_MS)
    ensures forall id :: id in ExpiredPending(p, now) <==> id in p.pending
  {
  }

  lemma CloseAllIdle(p: Pool, gone: set<AdapterId>)
    requires Idle(p) && (forall id :: id !in p.evicting) && forall id | id in p.pending :: id in gone
    ensures Cleared(CloseAll(p, gone))
  {
    var q := CloseAll(p, gone);
    assert forall id | Pending(q.sessions, id) :: Pending(p.sessions, id);
    assert forall id :: id !in q.pending;
  }

  lemma AdmitCleared(p: Pool, now: int, sub: SubagentId, model: ModelId, task: Option<TaskId>)
    requires RepInv(p) && Cleared(p)
    ensures !Admit(p, now, sub, model, task, true).1.AllBusy?
  {
    if sub !in p.subagents {
      MissCleared(p, now, sub, task);
    } else {
      var id := p.subagents[sub];
      MappedIsPooled(p, sub);
      assert !Pending(p.sessions, id);
      hide RepInv, Miss, Close, Touch;
      if !Quarantined(p, id) && id !in p.busy && p.sessions[id].model != model {
        CloseKeeps(p, id);
        CloseCleared(p, id);
        MissCleared(Close(p, id), now, sub, task);
      }
    }
  }

  lemma CloseCleared(p: Pool, id: AdapterId)
    requires Cleared(p)
    ensures Cleared(Close(p, id))
  {
    assert forall x :: Pending(CloseAll(p, {id}).sessions, x) ==> Pending(p.sessions, x);
  }

  lemma MissCleared(p: Pool, now: int, sub: SubagentId, task: Option<TaskId>)
    requires RepInv(p) && Cleared(p)
    ensures !Miss(p, now, sub, task).1.AllBusy?
  {
    if |p.creating.Keys| > 0 {
      var x := Member(p.creating.Keys);
      assert false;
    }
    if |p.sessions| + |p.creating| >= p.maxHot {
      var id := Member(p.sessions.Keys);
      FreeCandidate(p, now, id);
    }
    hide RepInv, LruCandidate;
  }

  lemma FreeCandidate(p: Pool, now: int, id: AdapterId)
    requires OrderInv(p.sessions, p.lru, p.pending, p.pendingSince) && Cleared(p) && id in p.sessions
    ensures LruCandidate(p, now).1.Some?
  {
    var q := ReleaseExpiredEvictions(p, now);
    assert id in p.lru;
    assert forall x :: x !in q.evicting;
    LastFreeIsLast(q.lru, q.busy + q.evicting.Keys);
    assert id !in q.busy + q.evicting.Keys;
  }

  lemma IdleAdmitted(w: World, later: int, sub: SubagentId, model: ModelId, task: Option<TaskId>)
    requires Inv(w) && Dated(w) && Idle(w.pool) && later >= w.now + EVICTION_RESERVATION_TTL_MS
    ensures !EnsureBegin(w.pool, later, sub, model, task, true).1.AllBusy?
  {
    IdlePoolCleared(w.pool, later);
    HousekeepKeeps(w.pool, later);
    AdmitCleared(Housekeep(w.pool, later), later, sub, model, task);
    hide Admit, Inv, Housekeep;
  }

  lemma {:induction false} OnlyTicks(r: Trace, maxHot: nat, i: nat, j: nat)
    requires IsRun(r, maxHot) && i <= j <= |r.labels| && forall k | i <= k < j :: r.labels[k].Tick?
    ensures r.states[j].pool == r.states[i].pool
    decreases j
  {
    hide Next, Enabled;
    if i < j {
      OnlyTicks(r, maxHot, i, j - 1);
      assert StepAt(r, j - 1);
      ClockStep(r.states[j - 1], r.labels[j - 1]);
    }
  }

  predicate RefusedAllBusy(v: World, l: Label) {
    l.StartTurn? && l.t in v.turns && v.turns[l.t].phase == Done(Refused(None))
  }

  lemma RefusalShows(w: World, l: Label)
    requires Enabled(w, l) && l.StartTurn? && RefusedAllBusy(Next(w, l), l)
    ensures EnsureBegin(w.pool, w.now, l.sub, l.model, l.task, true).1.AllBusy?
  {
    hide EnsureBegin;
  }

  /** Slots always recover. From any reachable state with no session busy, no creation in
      progress and no cancellation pending, once the reservation limit has passed, a
      request is never refused as all-busy: it gets its session, starts a creation, or is
      told a candidate. */
  lemma SlotsRecover(r: Trace, maxHot: nat, i: nat, j: nat)
    requires IsRun(r, maxHot) && i <= j < |r.labels| && Idle(r.states[i].pool)
    requires forall k | i <= k < j :: r.labels[k].Tick?
    requires r.states[j].now >= r.states[i].now + EVICTION_RESERVATION_TTL_MS
    ensures !RefusedAllBusy(r.states[j + 1], r.labels[j])
  {
    hide Inv, Dated, EnsureBegin, Next, Enabled, Idle, RefusedAllBusy;
    var w, l := r.states[i], r.labels[j];
    Reachable(r, maxHot, i);
    AlwaysDated(r, maxHot, i);
    OnlyTicks(r, maxHot, i, j);
    assert StepAt(r, j);
    if RefusedAllBusy(r.states[j + 1], l) {
      RefusedIsStart(r.states[j + 1], l);
      RefusalShows(r.states[j], l);
      IdleAdmitted(w, r.states[j].now, l.sub, l.model, l.task);
    }
  }

  lemma RefusedIsStart(v: World, l: Label)
    requires RefusedAllBusy(v, l)
    ensures l.StartTurn?
  {
  }

  /** A reachable state in which every turn has been answered is such a state. */
  lemma AnsweredMeansIdle(r: Trace, maxHot: nat, i: nat)
    requires IsRun(r, maxHot) && i <= |r.labels| && AllDone(r.states[i].turns)
    ensures Idle(r.states[i].pool)
  {
    hide Inv, Next, Enabled, Idle, AllDone;
    Reachable(r, maxHot, i);
    NoTurnsIdle(r.states[i]);
  }

  /** `evictExpiredPending` closes exactly the pending sessions that run no turn and have
      been pending for longer than the limit; it touches no active session. */
  lemma EvictExpiredPendingExactly(p: Pool, now: int)
    requires RepInv(p)
    ensures var q := EvictExpiredPending(p, now);
            && (forall id :: id in q.sessions <==>
                  id in p.sessions
                  && !(id in p.pending && id !in p.busy && now - p.pendingSince[id] > PENDING_TTL_MS))
            && (forall id | id in q.sessions :: q.sessions[id] == p.sessions[id])
            && (forall id | id in p.sessions && id !in q.sessions :: id in q.disposed && q.disposed[id].closed)
            && q.lru == p.lru && q.busy == p.busy && q.leases == p.leases && q.evicting == p.evicting
  {
    hide Without, Owners, Dispose, MappingInv, CreationInv, LivenessInv, TimersInv;
    var gone := ExpiredPending(p, now);
    ExpiredAreIdle(p, now);
    UntouchedByExpiry(p, gone);
    DisposedAll(p, gone);
  }

  /** What housekeeping leaves as it is, and what it closes. */
  lemma HousekeepIs(p: Pool, now: int)
    requires RepInv(p)
    ensures var h := Housekeep(p, now);
            && h.lru == p.lru && h.busy == p.busy && h.creating == p.creating && h.maxHot == p.maxHot
            && h.evicting == ReleaseExpiredEvictions(p, now).evicting
            && h.sessions == p.sessions - ExpiredPending(p, now)
  {
    hide RepInv, Without, Owners, Dispose;
    var q := ReleaseExpiredEvictions(p, now);
    ReleaseExpiredKeeps(p, now);
    EvictExpiredPendingExactly(q, now);
  }

  lemma DisposedAll(p: Pool, gone: set<AdapterId>)
    ensures var disposed := p.disposed + Dispose(p.sessions, gone);
            forall id | id in p.sessions && id in gone :: id in disposed && disposed[id].closed
  {
    assert forall id | id in p.sessions && id in gone :: id in Dispose(p.sessions, gone);
  }

  lemma ExpiredAreIdle(p: Pool, now: int)
    requires OrderInv(p.sessions, p.lru, p.pending, p.pendingSince)
    requires BusyInv(p.sessions, p.busy, p.leases) && EvictingInv(p.lru, p.busy, p.evicting)
    ensures var gone := ExpiredPending(p, now);
            && (forall id | id in gone :: id !in p.busy && id !in p.leases && id !in p.evicting)
            && (forall k | 0 <= k < |p.lru| :: p.lru[k] !in gone)
  {
    forall k | 0 <= k < |p.lru|
      ensures p.lru[k] !in ExpiredPending(p, now)
    {
      assert p.lru[k] in p.lru;
    }
  }

  lemma UntouchedByExpiry(p: Pool, gone: set<AdapterId>)
    requires forall id | id in gone :: id !in p.busy && id !in p.leases && id !in p.evicting
    requires forall k | 0 <= k < |p.lru| :: p.lru[k] !in gone
    ensures p.leases - gone == p.leases && p.evicting - gone == p.evicting && Without(p.lru, gone) == p.lru
    ensures p.busy - gone == p.busy
  {
    assert forall id | id in p.busy :: id !in gone;
    assert forall id | id in p.leases :: id !in gone;
    assert forall id | id in p.evicting :: id !in gone;
    WithoutStrangers(p.lru, gone);
  }

  // ---- a pending cancellation is quarantined for a bounded time ----

  /** If the cancellation of `id` is pending, its fallback timer is set. */
  predicate Armed(p: Pool, id: AdapterId) {
    Pending(p.sessions, id) ==> id in p.cancelTimers
  }

  /** The two steps that take the fallback timer away from the pending cancellation of `id`:
      the session is activated before its turn has settled, or a second cancel, which named
      another task, completes. */
  predicate Disarms(w: World, l: Label, id: AdapterId) {
    match l
    case ActivateSession(x) => x == id && id in w.pool.pending && Pending(w.pool.sessions, id)
    case AbortSettles(c) =>
      c in w.cancels && w.cancels[c].Waiting? && !w.cancels[c].aborted && w.cancels[c].id == id
      && Pending(w.pool.sessions, id)
    case _ => false
  }

  lemma ArmedAbort(p: Pool, now: int, x: AdapterId, task: Option<TaskId>, id: AdapterId)
    requires Armed(p, id) && x in p.sessions
    ensures Armed(AbortTurn(p, now, x, task).0, id)
  {
  }

  lemma ArmedCancel(p: Pool, now: int, sub: SubagentId, task: Option<TaskId>, id: AdapterId)
    requires Armed(p, id)
    ensures Armed(CancelBegin(p, now, sub, task).0, id)
  {
    if sub in p.subagents && p.subagents[sub] in p.sessions {
      ArmedAbort(p, now, p.subagents[sub], task, id);
    }
    hide AbortTurn;
  }

  /** Exactly these two steps break the quarantine of a session. */
  lemma ArmedUnlessDisarmed(w: World, l: Label, id: AdapterId)
    requires Inv(w) && Armed(w.pool, id) && Enabled(w, l)
    ensures Armed(Next(w, l).pool, id) <==> !Disarms(w, l, id)
  {
    if CalmLabel(l) {
      CalmStep(w, l);
      hide Next, Inv;
    } else if l.RequestCancel? {
      ArmedCancel(w.pool, w.now, l.sub, l.task, id);
      hide CancelBegin, Aim, Inv;
    } else {
      hide ProtocolInv, MappingInv, CreationInv;
    }
  }

  lemma {:induction false} ArmedRun(r: Trace, maxHot: nat, k: nat, i: nat, id: AdapterId)
    requires IsRun(r, maxHot) && k <= i <= |r.labels| && Armed(r.states[k].pool, id)
    requires forall j | k <= j < i :: !Disarms(r.states[j], r.labels[j], id)
    ensures Armed(r.states[i].pool, id)
    decreases i
  {
    hide Next, Enabled, Inv, Disarms, Armed;
    if k < i {
      ArmedRun(r, maxHot, k, i - 1, id);
      Reachable(r, maxHot, i - 1);
      assert StepAt(r, i - 1);
      ArmedUnlessDisarmed(r.states[i - 1], r.labels[i - 1], id);
    }
  }

  /** Over whole runs: whenever the cancellation of a session is pending it has its fallback
      timer, if and only if neither step is ever taken on that session. */
  lemma ArmedExactly(r: Trace, maxHot: nat, i: nat, id: AdapterId)
    requires IsRun(r, maxHot) && i <= |r.labels|
    ensures (forall j | 0 <= j <= i :: Armed(r.states[j].pool, id))
            <==> (forall j | 0 <= j < i :: !Disarms(r.states[j], r.labels[j], id))
  {
    assert Armed(r.states[0].pool, id);
    hide Next, Enabled, Inv, Disarms, Armed, Initial;
    if forall j | 0 <= j < i :: !Disarms(r.states[j], r.labels[j], id) {
      forall j | 0 <= j <= i
        ensures Armed(r.states[j].pool, id)
      {
        ArmedRun(r, maxHot, 0, j, id);
      }
    } else {
      var j :| 0 <= j < i && Disarms(r.states[j], r.labels[j], id);
      Reachable(r, maxHot, j);
      assert StepAt(r, j);
      if Armed(r.states[j].pool, id) {
        ArmedUnlessDisarmed(r.states[j], r.labels[j], id);
        assert !Armed(r.states[j + 1].pool, id);
      }
    }
  }

  /** Another cancel does not move a timer that is already armed. */
  lemma TimerKept(w: World, l: Label, id: AdapterId)
    requires Enabled(w, l) && !Disarms(w, l, id)
    requires Pending(w.pool.sessions, id) && id in w.pool.cancelTimers && Pending(Next(w, l).pool.sessions, id)
    ensures id in Next(w, l).pool.cancelTimers && Next(w, l).pool.cancelTimers[id] == w.pool.cancelTimers[id]
  {
    if CalmLabel(l) {
      CalmKeepsTimer(w, l, id);
    } else if l.RequestCancel? {
      CancelKeepsTimer(w.pool, w.now, l.sub, l.task, id);
      hide CancelBegin, Aim;
    } else {
      OtherKeepsTimer(w, l, id);
      hide Next, Disarms;
    }
  }

  lemma OtherKeepsTimer(w: World, l: Label, id: AdapterId)
    requires Enabled(w, l) && !Disarms(w, l, id) && (l.AbortSettles? || l.ActivateSession?)
    requires Pending(w.pool.sessions, id) && id in w.pool.cancelTimers
    ensures id in Next(w, l).pool.cancelTimers && Next(w, l).pool.cancelTimers[id] == w.pool.cancelTimers[id]
  {
  }

  lemma CalmKeepsTimer(w: World, l: Label, id: AdapterId)
    requires Enabled(w, l) && CalmLabel(l)
    requires id in w.pool.cancelTimers && Pending(Next(w, l).pool.sessions, id)
    ensures id in Next(w, l).pool.cancelTimers && Next(w, l).pool.cancelTimers[id] == w.pool.cancelTimers[id]
  {
    hide Next;
    CalmStep(w, l);
  }

  lemma CancelKeepsTimer(p: Pool, now: int, sub: SubagentId, task: Option<TaskId>, id: AdapterId)
    requires id in p.cancelTimers
    ensures var q := CancelBegin(p, now, sub, task).0; id in q.cancelTimers && q.cancelTimers[id] == p.cancelTimers[id]
  {
  }

  /** From position `k`, where it starts, to position `i` the cancellation of `id` is pending,
      and no step in between takes its timer away. Other sessions do not matter, nor does
      what came before. */
  ghost predicate QuarantinedFrom(r: Trace, k: int, i: int, id: AdapterId)
    requires |r.states| == |r.labels| + 1
  {
    && 0 < k <= i <= |r.labels|
    && !Pending(r.states[k - 1].pool.sessions, id)
    && (forall j | k <= j <= i :: Pending(r.states[j].pool.sessions, id))
    && (forall j | k <= j < i :: !Disarms(r.states[j], r.labels[j], id))
  }

  /** Bounded quarantine: such a session has its fallback timer armed, due within the grace
      period of the cancel that started it. */
  lemma {:induction false} BoundedQuarantine(r: Trace, maxHot: nat, k: nat, i: nat, id: AdapterId)
    requires IsRun(r, maxHot) && QuarantinedFrom(r, k, i, id)
    ensures id in r.states[i].pool.cancelTimers
    ensures r.states[i].pool.cancelTimers[id] <= r.states[k].now + PENDING_CANCEL_GRACE_MS
    decreases i
  {
    hide Next, Enabled, Inv, Disarms, Pending, Initial;
    if i == k {
      StartsArmed(r, maxHot, k, id);
      AlwaysDated(r, maxHot, k);
    } else {
      BoundedQuarantine(r, maxHot, k, i - 1, id);
      assert StepAt(r, i - 1) && Pending(r.states[i - 1].pool.sessions, id);
      TimerKept(r.states[i - 1], r.labels[i - 1], id);
    }
  }

  /** Whatever step makes a cancellation pending, its timer is set. */
  lemma StartsArmed(r: Trace, maxHot: nat, k: nat, id: AdapterId)
    requires IsRun(r, maxHot) && 0 < k <= |r.labels|
    requires !Pending(r.states[k - 1].pool.sessions, id) && Pending(r.states[k].pool.sessions, id)
    ensures id in r.states[k].pool.cancelTimers
  {
    hide Next, Enabled, Inv;
    Reachable(r, maxHot, k - 1);
    assert StepAt(r, k - 1);
    ArmedUnlessDisarmed(r.states[k - 1], r.labels[k - 1], id);
  }

  /** The clock never runs past the due time of the session's timer: it fires on time. */
  predicate Punctual(w: World, l: Label, id: AdapterId) {
    l.Tick? && id in w.pool.cancelTimers ==> w.now + l.elapsed <= w.pool.cancelTimers[id]
  }

  lemma {:induction false} NeverOverdue(r: Trace, maxHot: nat, k: nat, i: nat, id: AdapterId)
    requires IsRun(r, maxHot) && QuarantinedFrom(r, k, i, id)
    requires forall j | k <= j < i :: Punctual(r.states[j], r.labels[j], id)
    ensures id in r.states[i].pool.cancelTimers
    ensures r.states[i].now <= r.states[k].now || r.states[i].now <= r.states[i].pool.cancelTimers[id]
    decreases i
  {
    hide Next, Enabled, Disarms, Pending, Initial;
    BoundedQuarantine(r, maxHot, k, i, id);
    if k < i {
      NeverOverdue(r, maxHot, k, i - 1, id);
      assert StepAt(r, i - 1) && Pending(r.states[i - 1].pool.sessions, id);
      assert Punctual(r.states[i - 1], r.labels[i - 1], id);
      TimerKept(r.states[i - 1], r.labels[i - 1], id);
      ClockStep(r.states[i - 1], r.labels[i - 1]);
    }
  }

  /** So, with a timer that fires on time, the cancellation of a session does not stay
      pending in the pool for longer than the grace period. */
  lemma QuarantineEnds(r: Trace, maxHot: nat, k: nat, i: nat, id: AdapterId)
    requires IsRun(r, maxHot) && QuarantinedFrom(r, k, i, id)
    requires forall j | k <= j < i :: Punctual(r.states[j], r.labels[j], id)
    ensures r.states[i].now <= r.states[k].now + PENDING_CANCEL_GRACE_MS
  {
    hide Disarms, Punctual, Pending, Next, Enabled;
    BoundedQuarantine(r, maxHot, k, i, id);
    NeverOverdue(r, maxHot, k, i, id);
  }

  /** When the timer fires the quarantine is over: a session still pending is closed and
      leaves the pool, any other stays as it is. */
  lemma TimerEndsQuarantine(w: World, id: AdapterId)
    requires Inv(w) && Enabled(w, TimerFires(id))
    ensures var p := w.pool;
            var q := Next(w, TimerFires(id)).pool;
            && !Pending(q.sessions, id) && id !in q.cancelTimers
            && (Pending(p.sessions, id) ==> id !in q.sessions && id in q.disposed && q.disposed[id].closed)
            && (!Pending(p.sessions, id) ==> q.sessions == p.sessions)
  {
    hide ProtocolInv, MappingInv, OrderInv, Without;
    if Pending(w.pool.sessions, id) {
      assert id in Dispose(w.pool.sessions, {id});
    }
  }

  /** A session with a pending cancellation is never handed to a turn. */
  lemma PendingIsNotHandedOut(r: Trace, maxHot: nat, i: nat, id: AdapterId)
    requires IsRun(r, maxHot) && i < |r.labels| && Pending(r.states[i].pool.sessions, id)
    ensures !GivenSession(r.states[i + 1], r.labels[i], id)
  {
    hide Next, Enabled, Inv, HandsOut, Housekeep, GivenSession, Names, ToldCandidate;
    Reachable(r, maxHot, i);
    assert StepAt(r, i);
    if GivenSession(r.states[i + 1], r.labels[i], id) {
      AnswerShows(r.states[i], r.labels[i], id);
      HandedOutIsFree(r.states[i], r.labels[i], id);
      HousekeepKeepsRegisters(r.states[i].pool, r.states[i].now, id);
    }
  }

  lemma HousekeepKeepsRegisters(p: Pool, now: int, id: AdapterId)
    requires id in Housekeep(p, now).sessions
    ensures id in p.sessions && Housekeep(p, now).sessions[id] == p.sessions[id]
  {
  }

  // ---- reservations ----

  predicate Reserved(p: Pool, now: int, id: AdapterId) {
    id in p.evicting && now - p.evicting[id] < 120_000
  }

  /** `reserveForEviction` says yes exactly for an active session that runs no turn, and it is
      reserved from then on: anew, unless a reservation of the last two minutes still stands. */
  lemma ReserveAnswers(p: Pool, now: int, id: AdapterId)
    requires RepInv(p)
    ensures var (q, yes) := ReserveForEviction(p, now, id);
            && (yes <==> id in p.sessions && id !in p.pending && id !in p.busy)
            && (yes <==> id in q.evicting)
            && (yes ==> q.evicting[id] == if Reserved(p, now, id) then p.evicting[id] else now)
            && (forall x | x != id :: x in q.evicting <==> Reserved(p, now, x))
            && q == p.(evicting := q.evicting)
  {
    hide MappingInv, LivenessInv, CapacityInv, CreationInv, TimersInv;
  }

  /** In every run, after such a yes, or after a request was told the session as a candidate,
      no request is given the session or told it before the reservation is two minutes old,
      unless it is released. */
  lemma ReservedIsExclusive(r: Trace, maxHot: nat, i: nat, j: nat, id: AdapterId)
    requires IsRun(r, maxHot) && i <= j < |r.labels| && id in r.states[i].pool.evicting
    requires ToldCandidate(r.states[j + 1], r.labels[j], id) || GivenSession(r.states[j + 1], r.labels[j], id)
    requires forall k | i <= k < j :: r.labels[k] != ReleaseReservation(id)
    ensures r.states[j].now >= r.states[i].pool.evicting[id] + 120_000
  {
    hide Next, Enabled, Inv, Names, HandsOut, ToldCandidate, GivenSession;
    assert StepAt(r, j);
    AlwaysDated(r, maxHot, i);
    Reachable(r, maxHot, j);
    AnswerShows(r.states[j], r.labels[j], id);
    GuardRun(r, maxHot, i, j, id, r.states[i].pool.evicting[id]);
    GuardBlocks(r.states[j], r.labels[j], id, r.states[i].pool.evicting[id]);
  }

  /** The steps of the two RPCs: `prepare_hibernate` leaves the session reserved exactly if it
      was active and ran no turn, and a release ends the reservation at once. */
  lemma ReservationSteps(r: Trace, maxHot: nat, i: nat, id: AdapterId)
    requires IsRun(r, maxHot) && i < |r.labels|
    ensures var p, q := r.states[i].pool, r.states[i + 1].pool;
            && (r.labels[i] == PrepareHibernate(id) ==>
                  (id in q.evicting <==> id in p.sessions && id !in p.pending && id !in p.busy))
            && (r.labels[i] == ReleaseReservation(id) ==> q.evicting == p.evicting - {id})
  {
    hide RepInv, ReserveForEviction;
    assert StepAt(r, i);
    Reachable(r, maxHot, i);
    RepOfInv(r.states[i]);
    ReserveAnswers(r.states[i].pool, r.states[i].now, id);
  }
}
