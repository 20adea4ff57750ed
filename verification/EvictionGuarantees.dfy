/** What a reservation for eviction guarantees. */
module EvictionGuarantees {
  import opened Options
  import opened PiSession
  import opened PoolModel
  import opened TurnProtocol
  import opened SidecarRuns

  // ---- a named candidate stays out of use until its reservation ends ----

  /** A session reserved at `since` is gone, or still reserved, or its reservation has expired. */
  predicate StillGuarded(disposed: map<AdapterId, Session>, evicting: map<AdapterId, int>, now: int, id: AdapterId,
                         since: int)
  {
    || id in disposed
    || (id in evicting && since <= evicting[id])
    || since + EVICTION_RESERVATION_TTL_MS <= now
  }

  predicate Guarded(p: Pool, now: int, id: AdapterId, since: int) {
    since <= now && StillGuarded(p.disposed, p.evicting, now, id, since)
  }

  lemma ReleaseGuards(p: Pool, now: int, id: AdapterId, since: int)
    requires Guarded(p, now, id, since)
    ensures Guarded(ReleaseExpiredEvictions(p, now), now, id, since)
  {
  }

  lemma CloseAllGuards(p: Pool, gone: set<AdapterId>, now: int, id: AdapterId, since: int)
    requires RepInv(p) && Guarded(p, now, id, since)
    ensures Guarded(CloseAll(p, gone), now, id, since)
  {
    assert id in p.evicting ==> id in p.sessions;
    if id in gone && id in p.sessions {
      assert id in Dispose(p.sessions, gone);
    }
  }

  lemma HousekeepGuards(p: Pool, now: int, id: AdapterId, since: int)
    requires RepInv(p) && Guarded(p, now, id, since)
    ensures Guarded(Housekeep(p, now), now, id, since)
  {
    var q := ReleaseExpiredEvictions(p, now);
    ReleaseGuards(p, now, id, since);
    ReleaseExpiredKeeps(p, now);
    CloseAllGuards(q, ExpiredPending(q, now), now, id, since);
    hide RepInv;
  }

  lemma CandidateGuards(p: Pool, now: int, id: AdapterId, since: int)
    requires Guarded(p, now, id, since)
    ensures Guarded(LruCandidate(p, now).0, now, id, since)
  {
    ReleaseGuards(p, now, id, since);
    hide LastFree;
  }

  lemma MissGuards(p: Pool, now: int, sub: SubagentId, task: Option<TaskId>, id: AdapterId, since: int)
    requires Guarded(p, now, id, since)
    ensures Guarded(Miss(p, now, sub, task).0, now, id, since)
  {
    CandidateGuards(p, now, id, since);
    hide LruCandidate;
  }

  lemma AdmitGuards(p: Pool, now: int, sub: SubagentId, model: ModelId, task: Option<TaskId>, id: AdapterId,
                    since: int)
    requires RepInv(p) && Guarded(p, now, id, since)
    ensures Guarded(Admit(p, now, sub, model, task, true).0, now, id, since)
  {
    if sub !in p.subagents {
      MissGuards(p, now, sub, task, id, since);
    } else {
      var x := p.subagents[sub];
      assert x in p.sessions;
      CloseAllGuards(p, {x}, now, id, since);
      hide Miss, RepInv, Quarantined, ToFront, CloseAll;
      if Quarantined(p, x) || x in p.busy {
      } else if p.sessions[x].model != model {
        MissGuards(Close(p, x), now, sub, task, id, since);
      } else {
        var q := Admit(p, now, sub, model, task, true).0;
        assert q.disposed == p.disposed && q.evicting == p.evicting;
      }
    }
  }

  lemma EnsureGuards(p: Pool, now: int, sub: SubagentId, model: ModelId, task: Option<TaskId>, id: AdapterId,
                     since: int)
    requires RepInv(p) && Guarded(p, now, id, since)
    ensures Guarded(EnsureBegin(p, now, sub, model, task, true).0, now, id, since)
  {
    HousekeepGuards(p, now, id, since);
    HousekeepKeeps(p, now);
    AdmitGuards(Housekeep(p, now), now, sub, model, task, id, since);
    hide RepInv, Admit, Housekeep;
  }

  lemma ResumeCreationGuards(p: Pool, now: int, sub: SubagentId, model: ModelId, task: Option<TaskId>,
                             created: Option<AdapterId>, id: AdapterId, since: int)
    requires Guarded(p, now, id, since)
    ensures Guarded(EnsureResume(p, now, sub, model, task, true, created).0, now, id, since)
  {
  }

  lemma FinishGuards(p: Pool, now: int, x: AdapterId, reused: bool, result: TurnResult, id: AdapterId, since: int)
    requires RepInv(p) && Guarded(p, now, id, since)
    ensures Guarded(FinishTurn(p, now, x, reused, result), now, id, since)
  {
    EndTurnKeeps(p, now, x);
    CloseAllGuards(EndTurn(p, now, x), {x}, now, id, since);
    hide RepInv, CloseAll;
  }

  lemma PutObjectGuards(p: Pool, now: int, x: AdapterId, s: Session, id: AdapterId, since: int)
    requires Guarded(p, now, id, since)
    ensures Guarded(PutObject(p, x, s), now, id, since)
  {
  }

  lemma TimerGuards(p: Pool, x: AdapterId, now: int, id: AdapterId, since: int)
    requires RepInv(p) && Guarded(p, now, id, since)
    ensures Guarded(CancelTimerFires(p, x), now, id, since)
  {
    var q := p.(cancelTimers := p.cancelTimers - {x});
    CancelResumeKeeps(p, x, false);
    CloseAllGuards(q, {x}, now, id, since);
    hide RepInv, CloseAll;
  }

  lemma ReserveGuards(p: Pool, now: int, x: AdapterId, id: AdapterId, since: int)
    requires Guarded(p, now, id, since)
    ensures Guarded(ReserveForEviction(p, now, x).0, now, id, since)
  {
    ReleaseGuards(p, now, id, since);
  }

  lemma TurnStepGuards(w: World, l: Label, id: AdapterId, since: int)
    requires Inv(w) && Enabled(w, l) && Guarded(w.pool, w.now, id, since)
    requires l.StartTurn? || l.FactoryReturns? || l.HandlerResumes? || l.SdkSettles? || l.HandlerFinishes?
    ensures Guarded(Next(w, l).pool, Next(w, l).now, id, since)
  {
    hide Guarded, ProtocolInv, RepInv, EnsureBegin, EnsureResume, FinishTurn, PutObject, MarkTurnStarted;
    match l {
      case StartTurn(_, sub, model, task) =>
        EnsureGuards(w.pool, w.now, sub, model, task, id, since);
      case FactoryReturns(t, created) =>
        ResumeCreationGuards(w.pool, w.now, w.turns[t].sub, w.turns[t].model, w.turns[t].task, created, id, since);
      case HandlerResumes(t) => ResumeGuards(w, t, id, since);
      case SdkSettles(t, _) =>
        var s := Object(w.pool, w.turns[t].phase.id);
        PutObjectGuards(w.pool, w.now, w.turns[t].phase.id, SettleTurn(s, w.turns[t].phase.generation), id, since);
      case HandlerFinishes(t) =>
        FinishGuards(w.pool, w.now, w.turns[t].phase.id, w.turns[t].phase.reused, w.turns[t].phase.result, id, since);
    }
  }

  lemma StartedGuards(p: Pool, now: int, x: AdapterId, task: Option<TaskId>, id: AdapterId, since: int)
    requires Guarded(p, now, id, since)
    ensures Guarded(MarkTurnStarted(p, x, task).0, now, id, since)
  {
    hide MarkTurnStarted;
  }

  lemma ResumeGuards(w: World, t: TurnId, id: AdapterId, since: int)
    requires RepInv(w.pool) && Enabled(w, HandlerResumes(t)) && Guarded(w.pool, w.now, id, since)
    ensures Guarded(NextResume(w, t).pool, w.now, id, since)
  {
    hide Guarded, RepInv, FinishTurn, PutObject, MarkTurnStarted;
    var Admitted(x, reused) := w.turns[t].phase;
    var (q, started) := MarkTurnStarted(w.pool, x, w.turns[t].task);
    MarkTurnStartedKeeps(w.pool, x, w.turns[t].task);
    StartedGuards(w.pool, w.now, x, w.turns[t].task, id, since);
    if !started {
      FinishGuards(q, w.now, x, reused, TurnCancelled, id, since);
    } else if !Object(q, x).closed {
      PutObjectGuards(q, w.now, x, BeginTurn(Object(q, x), w.turns[t].task), id, since);
    }
  }

  lemma CancelGuards(w: World, l: Label, id: AdapterId, since: int)
    requires Enabled(w, l) && Guarded(w.pool, w.now, id, since) && (l.RequestCancel? || l.AbortSettles?)
    ensures Guarded(Next(w, l).pool, Next(w, l).now, id, since)
  {
    hide CancelBegin, Aim;
  }

  lemma PoolStepGuards(w: World, l: Label, id: AdapterId, since: int)
    requires RepInv(w.pool) && Enabled(w, l) && Guarded(w.pool, w.now, id, since) && l != ReleaseReservation(id)
    requires l.CloseSession? || l.ActivateSession? || l.PrepareHibernate? || l.ReleaseReservation? || l.TimerFires?
    ensures Guarded(Next(w, l).pool, Next(w, l).now, id, since)
  {
    match l {
      case CloseSession(x) => CloseAllGuards(w.pool, {x}, w.now, id, since);
      case TimerFires(x) => TimerGuards(w.pool, x, w.now, id, since);
      case PrepareHibernate(x) => ReserveGuards(w.pool, w.now, x, id, since);
      case ActivateSession(_) =>
      case ReleaseReservation(_) =>
    }
    hide RepInv, CloseAll, CancelTimerFires, ReserveForEviction, Activate;
  }

  /** Only a release of this very session can end its reservation early. */
  lemma GuardStep(w: World, l: Label, id: AdapterId, since: int)
    requires Inv(w) && Enabled(w, l) && l != ReleaseReservation(id) && Guarded(w.pool, w.now, id, since)
    ensures Guarded(Next(w, l).pool, Next(w, l).now, id, since)
  {
    if l.Tick? {
    } else {
      hide ProtocolInv, RepInv, Guarded, Next, Enabled;
      if l.StartTurn? || l.FactoryReturns? || l.HandlerResumes? || l.SdkSettles? || l.HandlerFinishes? {
        TurnStepGuards(w, l, id, since);
      } else if l.RequestCancel? || l.AbortSettles? {
        CancelGuards(w, l, id, since);
      } else {
        PoolStepGuards(w, l, id, since);
      }
    }
  }

  /** The step is a request that was answered HOT_SESSION_LIMIT_REACHED, candidate `id`. */
  predicate Names(w: World, l: Label, id: AdapterId) {
    l.StartTurn? && EnsureBegin(w.pool, w.now, l.sub, l.model, l.task, true).1 == LimitReached(id)
  }

  /** The step handed session `id` to a turn. */
  predicate HandsOut(w: World, l: Label, id: AdapterId) {
    l.StartTurn? && EnsureBegin(w.pool, w.now, l.sub, l.model, l.task, true).1 == Hit(id)
  }

  // The same, read off the answer the request has got.

  predicate ToldCandidate(v: World, l: Label, id: AdapterId) {
    l.StartTurn? && l.t in v.turns && v.turns[l.t].phase == Done(Refused(Some(id)))
  }

  predicate GivenSession(v: World, l: Label, id: AdapterId) {
    l.StartTurn? && l.t in v.turns && v.turns[l.t].phase == Admitted(id, true)
  }

  lemma StartAnswers(w: World, t: TurnId, sub: SubagentId, model: ModelId, task: Option<TaskId>, id: AdapterId)
    ensures var admission, v := EnsureBegin(w.pool, w.now, sub, model, task, true).1, NextStart(w, t, sub, model, task);
            && t in v.turns
            && (v.turns[t].phase == Done(Refused(Some(id))) ==> admission == LimitReached(id))
            && (v.turns[t].phase == Admitted(id, true) ==> admission == Hit(id))
  {
    hide EnsureBegin;
  }

  lemma NextIsStart(w: World, l: Label)
    requires Enabled(w, l) && l.StartTurn?
    ensures Next(w, l) == NextStart(w, l.t, l.sub, l.model, l.task)
  {
    hide NextStart;
  }

  lemma AnswerShows(w: World, l: Label, id: AdapterId)
    requires Enabled(w, l)
    ensures ToldCandidate(Next(w, l), l, id) ==> Names(w, l, id)
    ensures GivenSession(Next(w, l), l, id) ==> HandsOut(w, l, id)
  {
    hide Next, NextStart, EnsureBegin, Enabled;
    if l.StartTurn? {
      NextIsStart(w, l);
      StartAnswers(w, l.t, l.sub, l.model, l.task, id);
    }
  }

  lemma MissNames(p: Pool, now: int, sub: SubagentId, task: Option<TaskId>, id: AdapterId)
    requires Miss(p, now, sub, task).1 == LimitReached(id)
    ensures id in p.lru && id !in p.busy && !(id in p.evicting && p.evicting[id] > now - EVICTION_RESERVATION_TTL_MS)
    ensures var q := Miss(p, now, sub, task).0; id in q.evicting && q.evicting[id] == now
    ensures |p.sessions| + |p.creating| >= p.maxHot
  {
    var q := ReleaseExpiredEvictions(p, now);
    LastFreeIsLast(q.lru, q.busy + q.evicting.Keys);
  }

  lemma AdmitNames(p: Pool, now: int, sub: SubagentId, model: ModelId, task: Option<TaskId>, id: AdapterId)
    requires RepInv(p) && Admit(p, now, sub, model, task, true).1 == LimitReached(id)
    ensures id in p.lru && id !in p.busy && !(id in p.evicting && p.evicting[id] > now - EVICTION_RESERVATION_TTL_MS)
    ensures var q := Admit(p, now, sub, model, task, true).0; id in q.evicting && q.evicting[id] == now
  {
    hide Miss, RepInv, Without, Touch, AcquireTurn, Quarantined, Owners, Dispose;
    if sub in p.subagents {
      var x := p.subagents[sub];
      MappedIsPooled(p, sub);
      MissNames(CloseAll(p, {x}), now, sub, task, id);
      StillInLru(p, x, id);
    } else {
      MissNames(p, now, sub, task, id);
    }
  }

  lemma StillInLru(p: Pool, x: AdapterId, id: AdapterId)
    requires id in CloseAll(p, {x}).lru
    ensures id in p.lru && id != x
  {
  }

  /** A named candidate is an active session that runs no turn and is not reserved, and it is
      reserved from that moment on. */
  lemma CandidateIsEvictable(w: World, l: Label, id: AdapterId)
    requires Inv(w) && Enabled(w, l) && Names(w, l, id)
    ensures id in w.pool.lru && id in w.pool.sessions && id !in w.pool.pending && id !in w.pool.busy
    ensures id in w.pool.evicting ==> w.pool.evicting[id] + EVICTION_RESERVATION_TTL_MS <= w.now
    ensures var v := Next(w, l); v.now == w.now && id in v.pool.evicting && v.pool.evicting[id] == w.now
  {
    HousekeepKeeps(w.pool, w.now);
    var h := Housekeep(w.pool, w.now);
    AdmitNames(h, w.now, l.sub, l.model, l.task, id);
    assert id in h.sessions;
    hide Admit, Inv;
  }

  lemma HandedOutIsFree(w: World, l: Label, id: AdapterId)
    requires Inv(w) && Enabled(w, l) && HandsOut(w, l, id)
    ensures var h := Housekeep(w.pool, w.now); id in h.sessions && !Quarantined(h, id) && id !in h.busy
  {
    HousekeepKeeps(w.pool, w.now);
    hide Miss, Housekeep, Inv;
    NoHitFromMiss(Housekeep(w.pool, w.now), w.now, l.sub, l.model, l.task);
  }

  lemma MissIsNoHit(p: Pool, now: int, sub: SubagentId, task: Option<TaskId>)
    ensures !Miss(p, now, sub, task).1.Hit?
  {
    hide LruCandidate;
  }

  lemma NoHitFromMiss(p: Pool, now: int, sub: SubagentId, model: ModelId, task: Option<TaskId>)
    ensures Admit(p, now, sub, model, task, true).1.Hit? ==>
              var id := Admit(p, now, sub, model, task, true).1.id;
              id in p.sessions && !Quarantined(p, id) && id !in p.busy
  {
    hide Miss, Close, Quarantined, Touch, AcquireTurn;
    MissIsNoHit(p, now, sub, task);
    if sub in p.subagents {
      MissIsNoHit(Close(p, p.subagents[sub]), now, sub, task);
      MissIsNoHit(p.(subagents := p.subagents - {sub}), now, sub, task);
    }
  }

  lemma GuardBlocks(w: World, l: Label, id: AdapterId, since: int)
    requires Inv(w) && Enabled(w, l) && (Names(w, l, id) || HandsOut(w, l, id))
    requires Guarded(w.pool, w.now, id, since)
    ensures since + EVICTION_RESERVATION_TTL_MS <= w.now
  {
    if Names(w, l, id) {
      CandidateIsEvictable(w, l, id);
      assert id !in w.pool.disposed;
    } else {
      HandedOutIsFree(w, l, id);
      HousekeepGuards(w.pool, w.now, id, since);
      HousekeepKeeps(w.pool, w.now);
    }
    hide EnsureBegin, Next, OrderInv, MappingInv, ProtocolInv;
  }

  lemma {:induction false} GuardRun(r: Trace, maxHot: nat, i: nat, j: nat, id: AdapterId, since: int)
    requires IsRun(r, maxHot) && i <= j <= |r.labels|
    requires Guarded(r.states[i].pool, r.states[i].now, id, since)
    requires forall k | i <= k < j :: r.labels[k] != ReleaseReservation(id)
    ensures Guarded(r.states[j].pool, r.states[j].now, id, since)
    decreases j
  {
    hide Next, Enabled, Inv, Guarded;
    if i < j {
      GuardRun(r, maxHot, i, j - 1, id, since);
      Reachable(r, maxHot, j - 1);
      assert StepAt(r, j - 1);
      GuardStep(r.states[j - 1], r.labels[j - 1], id, since);
    }
  }

  /** The session a refused request is told as candidate was an active session that ran no
      turn and had no live reservation, and has been reserved. */
  lemma CandidateWasEvictable(r: Trace, maxHot: nat, i: nat, id: AdapterId)
    requires IsRun(r, maxHot) && i < |r.labels| && ToldCandidate(r.states[i + 1], r.labels[i], id)
    ensures var p := r.states[i].pool;
            && id in p.lru && id in p.sessions && id !in p.pending && id !in p.busy
            && (id in p.evicting ==> p.evicting[id] + EVICTION_RESERVATION_TTL_MS <= r.states[i].now)
    ensures var q := r.states[i + 1].pool; id in q.evicting && q.evicting[id] == r.states[i].now
  {
    hide Next, Enabled, Inv, Names, HandsOut, ToldCandidate, GivenSession;
    assert StepAt(r, i);
    Reachable(r, maxHot, i);
    AnswerShows(r.states[i], r.labels[i], id);
    CandidateIsEvictable(r.states[i], r.labels[i], id);
  }

  /** Eviction is exclusive: once a request has been told a session as candidate, no request
      is told or given that session before its reservation has expired, unless it is
      released. So the candidates of successive full-pool requests within that time are
      distinct. */
  lemma EvictionIsExclusive(r: Trace, maxHot: nat, i: nat, j: nat, id: AdapterId)
    requires IsRun(r, maxHot) && i < j < |r.labels|
    requires ToldCandidate(r.states[i + 1], r.labels[i], id)
    requires ToldCandidate(r.states[j + 1], r.labels[j], id) || GivenSession(r.states[j + 1], r.labels[j], id)
    requires forall k | i < k < j :: r.labels[k] != ReleaseReservation(id)
    ensures r.states[j].now >= r.states[i].now + EVICTION_RESERVATION_TTL_MS
  {
    hide Next, Enabled, Inv, Names, HandsOut, ToldCandidate, GivenSession;
    assert StepAt(r, i) && StepAt(r, j);
    Reachable(r, maxHot, i);
    Reachable(r, maxHot, j);
    AnswerShows(r.states[i], r.labels[i], id);
    AnswerShows(r.states[j], r.labels[j], id);
    CandidateIsEvictable(r.states[i], r.labels[i], id);
    GuardRun(r, maxHot, i + 1, j, id, r.states[i].now);
    GuardBlocks(r.states[j], r.labels[j], id, r.states[i].now);
  }
}
