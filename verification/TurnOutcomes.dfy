/** What becomes of a turn's session when the turn starts and when it ends. */
module TurnOutcomes {
  import opened Options
  import opened PiSession
  import opened PoolModel
  import opened TurnProtocol
  import opened SidecarRuns
  import opened CancelGuarantees
  import opened EvictionGuarantees
  import opened TimeGuarantees

  // ---- hand-out ----

  lemma AdmitMatches(p: Pool, now: int, sub: SubagentId, model: ModelId, task: Option<TaskId>)
    requires RepInv(p) && Admit(p, now, sub, model, task, true).1.Hit?
    ensures var (q, admission) := Admit(p, now, sub, model, task, true);
            && admission.id in q.sessions && q.sessions[admission.id].subagent == sub
            && q.sessions[admission.id].model == model
  {
    hide RepInv, Miss, Quarantined, Without;
    if sub in p.subagents {
      MappedIsPooled(p, sub);
      MissIsNoHit(Close(p, p.subagents[sub]), now, sub, task);
    } else {
      MissIsNoHit(p, now, sub, task);
    }
  }

  lemma EnsureMatches(p: Pool, now: int, sub: SubagentId, model: ModelId, task: Option<TaskId>)
    requires RepInv(p) && EnsureBegin(p, now, sub, model, task, true).1.Hit?
    ensures var (q, admission) := EnsureBegin(p, now, sub, model, task, true);
            && admission.id in q.sessions && q.sessions[admission.id].subagent == sub
            && q.sessions[admission.id].model == model
  {
    hide RepInv, Admit, Housekeep;
    HousekeepKeeps(p, now);
    AdmitMatches(Housekeep(p, now), now, sub, model, task);
  }

  /** A request that is handed a session gets one of its own subagent, bound to the model it
      asked for: a session of another model is never reused. */
  lemma HandedOutMatches(r: Trace, maxHot: nat, i: nat, id: AdapterId)
    requires IsRun(r, maxHot) && i < |r.labels| && GivenSession(r.states[i + 1], r.labels[i], id)
    ensures r.labels[i].StartTurn?
    ensures var sessions := r.states[i + 1].pool.sessions;
            id in sessions && sessions[id].subagent == r.labels[i].sub && sessions[id].model == r.labels[i].model
  {
    hide Next, Enabled, EnsureBegin, NextStart, ProtocolInv, RepInv;
    var w, l := r.states[i], r.labels[i];
    assert StepAt(r, i);
    Reachable(r, maxHot, i);
    NextIsStart(w, l);
    AnswerShows(w, l, id);
    StartKeepsPool(w, l.t, l.sub, l.model, l.task);
    EnsureMatches(w.pool, w.now, l.sub, l.model, l.task);
  }

  // ---- creation ----

  lemma CreationEnds(w: World, t: TurnId, id: AdapterId)
    requires Inv(w) && Enabled(w, FactoryReturns(t, Some(id)))
    ensures var v := Next(w, FactoryReturns(t, Some(id)));
            && t in v.turns
            && if t in w.cancelled then
                 && v.turns[t].phase == Done(Reported(TurnCancelled)) && v.pool.sessions == w.pool.sessions
                 && id in v.pool.disposed && v.pool.disposed[id].closed
               else
                 && v.turns[t].phase == Admitted(id, false)
                 && v.pool.sessions == w.pool.sessions[id := NewSession(w.turns[t].sub, w.turns[t].model)]
                 && id in v.pool.pending && id in v.pool.busy
  {
    hide RepInv;
    assert TurnOk(w, t);
  }

  /** A session the factory returns is published, pending and leased to its turn, if and only
      if the turn has not been cancelled meanwhile; otherwise it is closed at once, the pool
      keeps no trace of it, and the turn reports TURN_CANCELLED. */
  lemma CancelledCreationIsDisposed(r: Trace, maxHot: nat, i: nat)
    requires IsRun(r, maxHot) && i < |r.labels| && r.labels[i].FactoryReturns? && r.labels[i].created.Some?
    ensures var t, id := r.labels[i].t, r.labels[i].created.value;
            var w, v := r.states[i], r.states[i + 1];
            && t in v.turns
            && if exists k :: k < i && CancelAsked(r, k, t) then
                 && v.turns[t].phase == Done(Reported(TurnCancelled)) && v.pool.sessions == w.pool.sessions
                 && id in v.pool.disposed && v.pool.disposed[id].closed
               else
                 v.turns[t].phase == Admitted(id, false) && id in v.pool.sessions
                 && id in v.pool.pending && id in v.pool.busy
  {
    hide Next, Enabled, Inv, CancelAsked, Cancellable;
    assert StepAt(r, i);
    Reachable(r, maxHot, i);
    CancelledMeaning(r, maxHot, i, r.labels[i].t);
    CreationEnds(r.states[i], r.labels[i].t, r.labels[i].created.value);
  }

  // ---- the end of a turn ----

  /** Step `i` ends turn `t`, which has session `id`: the handler's `finally` block ran. */
  ghost predicate EndsTurn(r: Trace, i: int, t: TurnId, id: AdapterId) {
    && 0 <= i < |r.labels| && i + 1 < |r.states|
    && t in r.states[i].turns && Holds(r.states[i].turns[t].phase, id)
    && t in r.states[i + 1].turns && r.states[i + 1].turns[t].phase.Done?
  }

  lemma FinishKeepsIff(p: Pool, now: int, id: AdapterId, reused: bool, result: TurnResult)
    ensures var q := FinishTurn(p, now, id, reused, result);
            && (id in q.sessions <==> id in p.sessions && (reused || result == Completed))
            && id !in q.busy
            && (id in q.pending && id in q.pendingSince ==> q.pendingSince[id] == now)
  {
  }

  /** A turn ends in one of two ways: its SDK call is over, or it was cancelled before it
      started. */
  lemma EndOfTurn(w: World, l: Label, t: TurnId, id: AdapterId)
    requires Enabled(w, l) && t in w.turns && Holds(w.turns[t].phase, id)
    requires t in Next(w, l).turns && Next(w, l).turns[t].phase.Done?
    ensures l == HandlerFinishes(t) || l == HandlerResumes(t)
    ensures Next(w, l).turns[t].phase.outcome.Reported?
    ensures var result := Next(w, l).turns[t].phase.outcome.result;
            exists q: Pool :: q.sessions == w.pool.sessions
                        && Next(w, l).pool == FinishTurn(q, w.now, id, w.turns[t].phase.reused, result)
  {
    hide FinishTurn;
    if Some(t) != Mover(l) {
      hide Next;
      OthersStay(w, l, t);
    } else if l.HandlerResumes? {
      var q := MarkTurnStarted(w.pool, id, w.turns[t].task).0;
      assert Next(w, l).pool == FinishTurn(q, w.now, id, w.turns[t].phase.reused, TurnCancelled);
    } else {
      assert Next(w, l).pool == FinishTurn(w.pool, w.now, id, w.turns[t].phase.reused, w.turns[t].phase.result);
    }
  }

  /** When a turn ends, after its SDK call or cancelled before it, its session is free, and a
      session made for it stays in the pool if and only if the turn reports completed; a
      session it reused stays whatever the result. */
  lemma FailedTurnLeavesNoSession(r: Trace, maxHot: nat, i: nat, t: TurnId, id: AdapterId)
    requires IsRun(r, maxHot) && EndsTurn(r, i, t, id)
    ensures var w, v := r.states[i], r.states[i + 1];
            && (id in v.pool.sessions
                <==> id in w.pool.sessions
                     && (w.turns[t].phase.reused || v.turns[t].phase == Done(Reported(Completed))))
            && id !in v.pool.busy
  {
    hide Next, Enabled, FinishTurn;
    assert StepAt(r, i);
    var w, l := r.states[i], r.labels[i];
    EndOfTurn(w, l, t, id);
    var reused, result := w.turns[t].phase.reused, Next(w, l).turns[t].phase.outcome.result;
    var q: Pool :| q.sessions == w.pool.sessions && Next(w, l).pool == FinishTurn(q, w.now, id, reused, result);
    FinishKeepsIff(q, w.now, id, reused, result);
  }

  // ---- how a session leaves the pool ----

  /** The step closes the orphaned session `id`. */
  predicate Expires(w: World, l: Label, id: AdapterId) {
    l.StartTurn? && id in ExpiredPending(w.pool, w.now)
  }

  /** The step closes `id` for another reason: it was told to, the cancellation was not
      carried out in time, the subagent asks for another model, or the turn it was made for
      has failed. */
  predicate Discards(w: World, l: Label, id: AdapterId)
    requires Enabled(w, l) && id in w.pool.sessions
  {
    match l
    case CloseSession(x) => x == id
    case TimerFires(x) => x == id && Pending(w.pool.sessions, id)
    case StartTurn(_, sub, model, _) =>
      && sub == w.pool.sessions[id].subagent && model != w.pool.sessions[id].model
      && id !in w.pool.busy && !Quarantined(ReleaseExpiredEvictions(w.pool, w.now), id)
    case HandlerResumes(t) =>
      Holds(w.turns[t].phase, id) && !w.turns[t].phase.reused && !MarkTurnStarted(w.pool, id, w.turns[t].task).1
    case HandlerFinishes(t) =>
      Holds(w.turns[t].phase, id) && !w.turns[t].phase.reused && w.turns[t].phase.result != Completed
    case _ => false
  }

  lemma MissKeepsSessions(p: Pool, now: int, sub: SubagentId, task: Option<TaskId>)
    ensures Miss(p, now, sub, task).0.sessions == p.sessions
  {
    hide LastFree;
  }

  lemma MappedIff(p: Pool, sub: SubagentId, id: AdapterId)
    requires RepInv(p) && id in p.sessions
    ensures sub in p.subagents ==> p.subagents[sub] in p.sessions
    ensures sub == p.sessions[id].subagent <==> sub in p.subagents && p.subagents[sub] == id
  {
    hide OrderInv, BusyInv, LivenessInv, CapacityInv;
  }

  lemma AdmitLeaves(p: Pool, now: int, sub: SubagentId, model: ModelId, task: Option<TaskId>, id: AdapterId)
    requires RepInv(p) && id in p.sessions
    ensures id !in Admit(p, now, sub, model, task, true).0.sessions
            <==> sub == p.sessions[id].subagent && model != p.sessions[id].model && id !in p.busy
                 && !Quarantined(p, id)
  {
    hide Miss, Quarantined, ToFront, RepInv;
    MissKeepsSessions(p, now, sub, task);
    MappedIff(p, sub, id);
    if sub in p.subagents {
      MissKeepsSessions(Close(p, p.subagents[sub]), now, sub, task);
    }
  }

  lemma EnsureIs(p: Pool, now: int, sub: SubagentId, model: ModelId, task: Option<TaskId>)
    ensures EnsureBegin(p, now, sub, model, task, true) == Admit(Housekeep(p, now), now, sub, model, task, true)
  {
    hide Admit, Housekeep;
  }

  lemma EnsureLeaves(p: Pool, now: int, sub: SubagentId, model: ModelId, task: Option<TaskId>, id: AdapterId)
    requires RepInv(p) && id in p.sessions
    ensures id !in EnsureBegin(p, now, sub, model, task, true).0.sessions
            <==> id in ExpiredPending(p, now)
                 || (sub == p.sessions[id].subagent && model != p.sessions[id].model && id !in p.busy
                     && !Quarantined(ReleaseExpiredEvictions(p, now), id))
  {
    hide EnsureBegin, Admit, Housekeep, ExpiredPending, ReleaseExpiredEvictions, RepInv, Quarantined;
    EnsureIs(p, now, sub, model, task);
    HousekeepKeeps(p, now);
    HousekeepIs(p, now);
    if id in ExpiredPending(p, now) {
      AdmitAddsNone(Housekeep(p, now), now, sub, model, task, id);
    } else {
      AdmitLeaves(Housekeep(p, now), now, sub, model, task, id);
      SameQuarantine(p, now, id);
    }
  }

  lemma AdmitAddsNone(p: Pool, now: int, sub: SubagentId, model: ModelId, task: Option<TaskId>, id: AdapterId)
    requires id !in p.sessions
    ensures id !in Admit(p, now, sub, model, task, true).0.sessions
  {
    hide Miss, Quarantined, ToFront;
    MissKeepsSessions(p, now, sub, task);
    if sub in p.subagents {
      MissKeepsSessions(p.(subagents := p.subagents - {sub}), now, sub, task);
      MissKeepsSessions(Close(p, p.subagents[sub]), now, sub, task);
    }
  }

  lemma SameQuarantine(p: Pool, now: int, id: AdapterId)
    requires RepInv(p) && id in Housekeep(p, now).sessions
    ensures Quarantined(Housekeep(p, now), id) == Quarantined(ReleaseExpiredEvictions(p, now), id)
    ensures Housekeep(p, now).sessions[id] == p.sessions[id]
  {
    hide RepInv, Housekeep, ReleaseExpiredEvictions;
    HousekeepIs(p, now);
    HousekeepKeepsRegisters(p, now, id);
    assert ReleaseExpiredEvictions(p, now).sessions == p.sessions by {
      ReleaseKeepsSessions(p, now);
    }
  }

  lemma ReleaseKeepsSessions(p: Pool, now: int)
    ensures ReleaseExpiredEvictions(p, now).sessions == p.sessions
  {
  }

  lemma StartLeaves(w: World, l: Label, id: AdapterId)
    requires Inv(w) && Enabled(w, l) && l.StartTurn? && id in w.pool.sessions
    ensures id !in Next(w, l).pool.sessions <==> Expires(w, l, id) || Discards(w, l, id)
  {
    hide Next, Inv, EnsureBegin, Quarantined, ExpiredPending;
    RepOfInv(w);
    NextIsStart(w, l);
    StartKeepsPool(w, l.t, l.sub, l.model, l.task);
    EnsureLeaves(w.pool, w.now, l.sub, l.model, l.task, id);
  }

  lemma FinishLeaves(p: Pool, now: int, x: AdapterId, reused: bool, result: TurnResult, id: AdapterId)
    requires id in p.sessions
    ensures id !in FinishTurn(p, now, x, reused, result).sessions <==> x == id && !reused && result != Completed
  {
  }

  lemma PutKeepsSessions(p: Pool, x: AdapterId, s: Session, id: AdapterId)
    ensures id in PutObject(p, x, s).sessions <==> id in p.sessions
  {
  }

  lemma ResumeSessions(w: World, t: TurnId, id: AdapterId)
    requires t in w.turns && w.turns[t].phase.Admitted? && Known(w.pool, w.turns[t].phase.id) && id in w.pool.sessions
    ensures id !in NextResume(w, t).pool.sessions
            <==> Holds(w.turns[t].phase, id) && !w.turns[t].phase.reused
                 && !MarkTurnStarted(w.pool, id, w.turns[t].task).1
  {
    hide FinishTurn, MarkTurnStarted, BeginTurn, PutObject;
    var Admitted(x, reused) := w.turns[t].phase;
    var q := MarkTurnStarted(w.pool, x, w.turns[t].task).0;
    PutKeepsSessions(q, x, BeginTurn(Object(q, x), w.turns[t].task), id);
    FinishLeaves(q, w.now, x, reused, TurnCancelled, id);
  }

  lemma ResumeLeaves(w: World, l: Label, id: AdapterId)
    requires Enabled(w, l) && id in w.pool.sessions && l.HandlerResumes?
    ensures id !in Next(w, l).pool.sessions <==> Discards(w, l, id)
  {
    hide NextResume, MarkTurnStarted;
    ResumeSessions(w, l.t, id);
  }

  lemma FinishSessions(w: World, t: TurnId, id: AdapterId)
    requires Enabled(w, HandlerFinishes(t)) && id in w.pool.sessions
    ensures id !in NextFinish(w, t).pool.sessions
            <==> Holds(w.turns[t].phase, id) && !w.turns[t].phase.reused && w.turns[t].phase.result != Completed
  {
    hide FinishTurn;
    var Settled(x, reused, result) := w.turns[t].phase;
    FinishLeaves(w.pool, w.now, x, reused, result, id);
  }

  lemma SettleSessions(w: World, t: TurnId, sdk: SdkResult, id: AdapterId)
    requires Enabled(w, SdkSettles(t, sdk)) && id in w.pool.sessions
    ensures id in NextSettle(w, t, sdk).pool.sessions
  {
    hide SettleTurn, ResultOf;
  }

  lemma FactorySessions(w: World, t: TurnId, created: Option<AdapterId>, id: AdapterId)
    requires t in w.turns && id in w.pool.sessions
    ensures id in NextFactory(w, t, created).pool.sessions
  {
    hide EnsureResume;
    CreationSessions(w.pool, w.now, w.turns[t].sub, w.turns[t].model, w.turns[t].task, created, id);
  }

  lemma CreationSessions(p: Pool, now: int, sub: SubagentId, model: ModelId, task: Option<TaskId>,
                         created: Option<AdapterId>, id: AdapterId)
    requires id in p.sessions
    ensures id in EnsureResume(p, now, sub, model, task, true, created).0.sessions
  {
  }

  lemma TurnLeaves(w: World, l: Label, id: AdapterId)
    requires Enabled(w, l) && id in w.pool.sessions && (l.FactoryReturns? || l.SdkSettles? || l.HandlerFinishes?)
    ensures id !in Next(w, l).pool.sessions <==> Discards(w, l, id)
  {
    hide NextFinish, NextSettle, NextFactory;
    match l {
      case HandlerFinishes(t) => FinishSessions(w, t, id);
      case SdkSettles(t, sdk) => SettleSessions(w, t, sdk, id);
      case FactoryReturns(t, created) => FactorySessions(w, t, created, id);
    }
  }

  lemma CancelKeepsSessions(p: Pool, now: int, sub: SubagentId, task: Option<TaskId>)
    ensures forall id | id in p.sessions :: id in CancelBegin(p, now, sub, task).0.sessions
  {
    hide Abort, AbortTurn;
    if sub in p.subagents && p.subagents[sub] in p.sessions {
      AbortKeepsSessions(p, now, p.subagents[sub], task);
    }
  }

  lemma AbortKeepsSessions(p: Pool, now: int, x: AdapterId, task: Option<TaskId>)
    requires x in p.sessions
    ensures forall id | id in p.sessions :: id in AbortTurn(p, now, x, task).0.sessions
  {
    hide Abort;
  }

  lemma OtherLeaves(w: World, l: Label, id: AdapterId)
    requires Enabled(w, l) && id in w.pool.sessions && Mover(l).None?
    ensures id !in Next(w, l).pool.sessions <==> Discards(w, l, id)
  {
    hide Aim, CancelBegin;
    if l.RequestCancel? {
      CancelKeepsSessions(w.pool, w.now, l.sub, l.task);
    }
  }

  /** A session leaves the pool in exactly these ways, at any step of any run. */
  lemma LeavesPoolIff(w: World, l: Label, id: AdapterId)
    requires Inv(w) && Enabled(w, l) && id in w.pool.sessions
    ensures id !in Next(w, l).pool.sessions <==> Expires(w, l, id) || Discards(w, l, id)
  {
    hide Next, Inv, Enabled, Discards, ExpiredPending;
    if l.StartTurn? {
      StartLeaves(w, l, id);
    } else if l.HandlerResumes? {
      ResumeLeaves(w, l, id);
    } else if Mover(l).Some? {
      TurnLeaves(w, l, id);
    } else {
      OtherLeaves(w, l, id);
    }
  }

  // ---- the orphan clock ----

  lemma EndStamps(r: Trace, maxHot: nat, i: nat, t: TurnId, id: AdapterId)
    requires IsRun(r, maxHot) && EndsTurn(r, i, t, id) && id in r.states[i + 1].pool.pending
    ensures id in r.states[i + 1].pool.pendingSince && r.states[i + 1].pool.pendingSince[id] >= r.states[i].now
  {
    hide Next, Enabled, FinishTurn, Inv;
    assert StepAt(r, i);
    var w, l := r.states[i], r.labels[i];
    EndOfTurn(w, l, t, id);
    var reused, result := w.turns[t].phase.reused, Next(w, l).turns[t].phase.outcome.result;
    var q: Pool :| q.sessions == w.pool.sessions && Next(w, l).pool == FinishTurn(q, w.now, id, reused, result);
    FinishKeepsIff(q, w.now, id, reused, result);
    Reachable(r, maxHot, i + 1);
    PendingIsStamped(r.states[i + 1], id);
  }

  lemma PendingIsStamped(w: World, id: AdapterId)
    requires Inv(w) && id in w.pool.pending
    ensures id in w.pool.pendingSince && id in w.pool.sessions
  {
    hide ProtocolInv, MappingInv;
  }

  lemma {:induction false} StampedSince(r: Trace, maxHot: nat, i: nat, j: nat, t: TurnId, id: AdapterId)
    requires IsRun(r, maxHot) && EndsTurn(r, i, t, id) && i < j <= |r.labels|
    requires forall k | i < k <= j :: id in r.states[k].pool.pending
    ensures id in r.states[j].pool.pendingSince && r.states[j].pool.pendingSince[id] >= r.states[i].now
    ensures r.states[j].now >= r.states[i].now
    decreases j
  {
    hide Next, Enabled, Inv, EndsTurn;
    assert StepAt(r, j - 1);
    ClockStep(r.states[j - 1], r.labels[j - 1]);
    if j == i + 1 {
      EndStamps(r, maxHot, i, t, id);
    } else {
      StampedSince(r, maxHot, i, j - 1, t, id);
      StampStep(r.states[j - 1], r.labels[j - 1]);
      Reachable(r, maxHot, j);
      PendingIsStamped(r.states[j], id);
    }
  }

  /** A session that is still pending after its turn keeps its whole orphan period, whatever
      happens in between: within that time no request closes it as an orphan, and it leaves
      the pool if and only if it is discarded. */
  lemma OrphanGrace(r: Trace, maxHot: nat, i: nat, j: nat, t: TurnId, id: AdapterId)
    requires IsRun(r, maxHot) && EndsTurn(r, i, t, id) && i < j < |r.labels|
    requires forall k | i < k <= j :: id in r.states[k].pool.pending
    requires r.states[j].now <= r.states[i].now + PENDING_TTL_MS
    ensures Enabled(r.states[j], r.labels[j]) && id in r.states[j].pool.sessions
    ensures id in r.states[j + 1].pool.sessions <==> !Discards(r.states[j], r.labels[j], id)
  {
    hide Next, Enabled, Inv, EndsTurn, Discards;
    StampedSince(r, maxHot, i, j, t, id);
    Reachable(r, maxHot, j);
    assert StepAt(r, j);
    PendingIsStamped(r.states[j], id);
    assert id in r.states[j].pool.pending;
    LeavesPoolIff(r.states[j], r.labels[j], id);
  }

  // ---- how long a cancelled turn is given ----

  /** The step is a cancel that a turn in the SDK, on session `id`, has to carry out. */
  ghost predicate AcceptsRunning(r: Trace, i: int, id: AdapterId) {
    && 0 <= i < |r.labels| && i + 1 < |r.states| && r.labels[i].RequestCancel?
    && r.labels[i].c in r.states[i + 1].cancels
    && r.states[i + 1].cancels[r.labels[i].c].Waiting?
    && r.states[i + 1].cancels[r.labels[i].c].id == id
    && r.states[i + 1].cancels[r.labels[i].c].aborted
  }

  lemma AbortSchedules(p: Pool, now: int, x: AdapterId, task: Option<TaskId>)
    requires x in p.sessions
    ensures var (q, reply) := AbortTurn(p, now, x, task);
            reply.AwaitAbort? ==> reply.id == x && q.cancelTimers == ScheduleCancelCleanup(p, now, x).cancelTimers
  {
    hide Abort;
  }

  lemma CancelSchedules(w: World, l: Label, id: AdapterId)
    requires Enabled(w, l) && l.RequestCancel?
    requires Next(w, l).cancels[l.c].Waiting? && Next(w, l).cancels[l.c].id == id
    ensures Next(w, l).pool.cancelTimers == ScheduleCancelCleanup(w.pool, w.now, id).cancelTimers
  {
    hide Aim, AbortTurn, ScheduleCancelCleanup;
    if l.sub in w.pool.subagents && w.pool.subagents[l.sub] in w.pool.sessions {
      AbortSchedules(w.pool, w.now, w.pool.subagents[l.sub], l.task);
    }
  }

  /** A cancel of a running turn arms the fallback timer for the full grace period if and
      only if no timer is left over from an earlier cancel, unless that one is due at the
      very same time; it never gets more. */
  lemma FullGraceIff(r: Trace, maxHot: nat, i: nat, id: AdapterId)
    requires IsRun(r, maxHot) && AcceptsRunning(r, i, id)
    ensures var timers, due := r.states[i].pool.cancelTimers, r.states[i].now + 5_000;
            && id in r.states[i + 1].pool.cancelTimers
            && r.states[i + 1].pool.cancelTimers[id] <= due
            && (r.states[i + 1].pool.cancelTimers[id] == due <==> id !in timers || timers[id] == due)
  {
    hide Next, Enabled, Inv;
    assert StepAt(r, i);
    AlwaysDated(r, maxHot, i);
    CancelSchedules(r.states[i], r.labels[i], id);
  }

  lemma {:induction false} TimersSince(r: Trace, maxHot: nat, k: nat, i: nat, id: AdapterId)
    requires IsRun(r, maxHot) && k <= i <= |r.labels| && id !in r.states[k].pool.cancelTimers
    ensures r.states[k].now <= r.states[i].now
    ensures id in r.states[i].pool.cancelTimers ==>
              r.states[i].pool.cancelTimers[id] >= r.states[k].now + PENDING_CANCEL_GRACE_MS
    decreases i
  {
    hide Next, Enabled;
    if i > k {
      TimersSince(r, maxHot, k, i - 1, id);
      assert StepAt(r, i - 1);
      StampStep(r.states[i - 1], r.labels[i - 1]);
      ClockStep(r.states[i - 1], r.labels[i - 1]);
    }
  }

  /** So a session that is cancelled while it has no timer is not closed by one before the
      whole grace period has passed, whatever happens in between. */
  lemma NoEarlyTimer(r: Trace, maxHot: nat, k: nat, i: nat, id: AdapterId)
    requires IsRun(r, maxHot) && k <= i < |r.labels| && r.labels[i] == TimerFires(id)
    requires id !in r.states[k].pool.cancelTimers
    ensures r.states[i].now >= r.states[k].now + PENDING_CANCEL_GRACE_MS
  {
    hide Next;
    TimersSince(r, maxHot, k, i, id);
    assert StepAt(r, i);
  }
}
