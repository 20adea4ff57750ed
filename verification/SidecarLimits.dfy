/** Where the obvious statement about the pool is false: runs that show it. */
module SidecarLimits {
  import opened Options
  import opened PiSession
  import opened PoolModel
  import opened TurnProtocol
  import opened SidecarRuns
  import opened CancelGuarantees
  import opened TimeGuarantees

  function Last(r: Trace): World
    requires |r.states| > 0
  {
    r.states[|r.states| - 1]
  }

  lemma Extend(r: Trace, maxHot: nat, l: Label) returns (q: Trace)
    requires IsRun(r, maxHot) && Enabled(Last(r), l)
    ensures IsRun(q, maxHot) && |q.states| > 0 && Last(q) == Next(Last(r), l) && Inv(Last(q))
    ensures q.labels == r.labels + [l]
  {
    hide Enabled, Next, Initial, Inv;
    q := Trace(r.states + [Next(Last(r), l)], r.labels + [l]);
    forall i | 0 <= i < |q.labels|
      ensures StepAt(q, i)
    {
      if i < |r.labels| {
        assert StepAt(r, i);
      }
    }
    Reachable(q, maxHot, |q.labels|);
  }

  lemma StartCreates(w: World, t: TurnId, sub: SubagentId, model: ModelId, task: Option<TaskId>)
    requires Inv(w) && t !in w.turns && Room(w.pool, sub)
    ensures var v := Next(w, StartTurn(t, sub, model, task));
            && v.turns == w.turns[t := Turn(sub, task, model, Creating)] && v.cancels == w.cancels
            && sub !in v.pool.cancelledCreations
            && forall x | Known(v.pool, x) :: Known(w.pool, x)
  {
    var q := ReleaseExpiredEvictions(w.pool, w.now);
    SubsetSize((q.sessions - ExpiredPending(q, w.now)).Keys, w.pool.sessions.Keys);
    hide LruCandidate, ProtocolInv;
  }

  lemma FactoryPublishes(w: World, t: TurnId, id: AdapterId)
    requires Inv(w) && Enabled(w, FactoryReturns(t, Some(id))) && w.turns[t].sub !in w.pool.cancelledCreations
    ensures var v := Next(w, FactoryReturns(t, Some(id)));
            var turn := w.turns[t];
            && v.turns == w.turns[t := turn.(phase := Admitted(id, false))] && v.cancels == w.cancels
            && v.pool.sessions == w.pool.sessions[id := NewSession(turn.sub, turn.model)]
            && v.pool.leases == w.pool.leases[id := Lease(turn.task, false, false)]
            && id in v.pool.pending
            && forall x | Known(v.pool, x) :: Known(w.pool, x) || x == id
  {
  }

  lemma HandlerRuns(w: World, t: TurnId)
    requires Inv(w) && Enabled(w, HandlerResumes(t)) && w.turns[t].phase.id in w.pool.sessions
    requires w.turns[t].phase.id in w.pool.leases
    requires w.pool.leases[w.turns[t].phase.id] == Lease(w.turns[t].task, false, false)
    ensures var v := Next(w, HandlerResumes(t));
            var turn := w.turns[t];
            var id := turn.phase.id;
            var s := BeginTurn(w.pool.sessions[id], turn.task);
            && v.turns == w.turns[t := turn.(phase := Running(id, turn.phase.reused, s.generation))]
            && v.cancels == w.cancels
            && v.pool.sessions == w.pool.sessions[id := s]
            && v.pool.disposed == w.pool.disposed
            && v.pool.pending == w.pool.pending
            && id in v.pool.leases && v.pool.leases[id].started
  {
  }

  /** A turn on a new session: the state once the SDK is running it. */
  ghost predicate OnNewSession(w: World, t: TurnId, sub: SubagentId, model: ModelId, task: Option<TaskId>,
                               id: AdapterId)
  {
    && t in w.turns && w.turns[t] == Turn(sub, task, model, Running(id, false, 1))
    && sub in w.pool.subagents && w.pool.subagents[sub] == id
    && id in w.pool.sessions && w.pool.sessions[id] == BeginTurn(NewSession(sub, model), task)
    && id in w.pool.pending && id in w.pool.leases && w.pool.leases[id].started
  }

  lemma AdmitToNewSession(r: Trace, maxHot: nat, t: TurnId, sub: SubagentId, model: ModelId, task: Option<TaskId>,
                          id: AdapterId) returns (q: Trace)
    requires |r.states| > 0 && IsRun(r, maxHot) && Inv(Last(r))
    requires t !in Last(r).turns && Room(Last(r).pool, sub) && !Known(Last(r).pool, id)
    ensures IsRun(q, maxHot) && |q.states| > 0 && Inv(Last(q))
    ensures Last(q).turns == Last(r).turns[t := Turn(sub, task, model, Admitted(id, false))]
    ensures Last(q).cancels == Last(r).cancels
    ensures id in Last(q).pool.sessions && Last(q).pool.sessions[id] == NewSession(sub, model)
    ensures id in Last(q).pool.leases && Last(q).pool.leases[id] == Lease(task, false, false)
    ensures id in Last(q).pool.pending
    ensures forall x | Known(Last(q).pool, x) :: Known(Last(r).pool, x) || x == id
    ensures q.labels == r.labels + [StartTurn(t, sub, model, task), FactoryReturns(t, Some(id))]
  {
    hide IsRun, Inv, Next, Initial, Room;
    StartCreates(Last(r), t, sub, model, task);
    q := Extend(r, maxHot, StartTurn(t, sub, model, task));
    hide Known;
    FactoryPublishes(Last(q), t, id);
    q := Extend(q, maxHot, FactoryReturns(t, Some(id)));
  }

  /** Three steps that bring a new turn to that state and leave the other turns alone. */
  lemma RunOnNewSession(r: Trace, maxHot: nat, t: TurnId, sub: SubagentId, model: ModelId, task: Option<TaskId>,
                        id: AdapterId) returns (q: Trace)
    requires |r.states| > 0 && IsRun(r, maxHot) && Inv(Last(r))
    requires t !in Last(r).turns && Room(Last(r).pool, sub) && !Known(Last(r).pool, id)
    ensures IsRun(q, maxHot) && |q.states| > 0 && Inv(Last(q)) && OnNewSession(Last(q), t, sub, model, task, id)
    ensures forall u | u in Last(r).turns :: u in Last(q).turns && Last(q).turns[u] == Last(r).turns[u]
    ensures forall x | Known(Last(q).pool, x) :: Known(Last(r).pool, x) || x == id
    ensures forall u | u in Last(q).turns :: u in Last(r).turns || u == t
    ensures Last(q).cancels == Last(r).cancels
    ensures q.labels == r.labels + [StartTurn(t, sub, model, task), FactoryReturns(t, Some(id)), HandlerResumes(t)]
  {
    hide IsRun, Inv, Next, Initial, Room;
    q := AdmitToNewSession(r, maxHot, t, sub, model, task, id);
    HandlerRuns(Last(q), t);
    q := Extend(q, maxHot, HandlerResumes(t));
    MappedBack(Last(q), id);
  }

  lemma MappedBack(w: World, id: AdapterId)
    requires Inv(w) && id in w.pool.sessions
    ensures w.pool.sessions[id].subagent in w.pool.subagents
    ensures w.pool.subagents[w.pool.sessions[id].subagent] == id
  {
  }

  lemma EmptyHasRoom(maxHot: nat, sub: SubagentId) returns (r: Trace)
    requires 1 <= maxHot
    ensures IsRun(r, maxHot) && |r.states| > 0 && r.labels == [] && Last(r) == Initial(maxHot)
    ensures Inv(Last(r)) && Room(Last(r).pool, sub)
    ensures forall x :: !Known(Last(r).pool, x)
    ensures forall t :: t !in Last(r).turns
    ensures forall c :: c !in Last(r).cancels
  {
    r := Trace([Initial(maxHot)], []);
    InitInv(maxHot);
  }

  lemma CloseMakesRoom(w: World, sub: SubagentId, id: AdapterId)
    requires Inv(w) && sub in w.pool.subagents && w.pool.subagents[sub] == id
    ensures var v := Next(w, CloseSession(id));
            && Room(v.pool, sub) && v.turns == w.turns
            && forall x | Known(v.pool, x) :: Known(w.pool, x)
  {
    hide Inv, RepInv, Room, Without;
    RepOfInv(w);
    MappedIsPooled(w.pool, sub);
    CloseRoom(w.pool, id);
  }

  /** After a forced close of a busy session two turns of one subagent run at once: one
      turn at a time holds only for sessions the pool still has. */
  lemma ForcedCloseAllowsSecondTurn(maxHot: nat, sub: SubagentId, model: ModelId, task: Option<TaskId>)
    returns (r: Trace)
    requires 1 <= maxHot
    ensures IsRun(r, maxHot)
    ensures var turns := Last(r).turns;
            && 1 in turns && turns[1].phase.Running? && turns[1].sub == sub
            && 2 in turns && turns[2].phase.Running? && turns[2].sub == sub
  {
    hide IsRun, Inv, Next, Initial, Room;
    r := EmptyHasRoom(maxHot, sub);
    r := RunOnNewSession(r, maxHot, 1, sub, model, task, 100);
    CloseMakesRoom(Last(r), sub, 100);
    r := Extend(r, maxHot, CloseSession(100));
    r := RunOnNewSession(r, maxHot, 2, sub, model, task, 101);
  }

  /** What a cancel does to a running turn: the session is quarantined and its timer armed. */
  lemma CancelQuarantines(w: World, c: CancelId, sub: SubagentId, task: Option<TaskId>, id: AdapterId)
    requires sub in w.pool.subagents && w.pool.subagents[sub] == id && id in w.pool.sessions
    requires id in w.pool.leases && w.pool.leases[id].started
    requires AbortAccepted(w.pool.sessions[id], task) || Pending(w.pool.sessions, id)
    ensures var v := Next(w, RequestCancel(c, sub, task));
            && Pending(v.pool.sessions, id) && id in v.pool.cancelTimers
            && v.pool.sessions[id].activeTask == w.pool.sessions[id].activeTask
            && c in v.cancels && v.cancels[c].Waiting? && v.cancels[c].id == id
            && v.cancels[c].aborted == AbortAccepted(w.pool.sessions[id], task)
            && v.pool.subagents == w.pool.subagents && v.pool.leases == w.pool.leases
            && v.pool.pending == w.pool.pending
            && v.cancels == w.cancels[c := v.cancels[c]]
    requires c !in w.cancels
  {
    hide Aim;
  }

  /** A second cancel that names another task takes the fallback timer away: the session
      stays quarantined and nothing is left to end the quarantine but the SDK. */
  lemma SecondCancelDisarms(maxHot: nat, sub: SubagentId, model: ModelId, task: TaskId, other: TaskId)
    returns (r: Trace)
    requires 1 <= maxHot && task != other
    ensures IsRun(r, maxHot)
    ensures Pending(Last(r).pool.sessions, 100) && 100 !in Last(r).pool.cancelTimers
    ensures r.labels == [StartTurn(1, sub, model, Some(task)), FactoryReturns(1, Some(100)), HandlerResumes(1),
                         RequestCancel(1, sub, Some(task)), RequestCancel(2, sub, Some(other)), AbortSettles(2)]
  {
    hide IsRun, Inv, Next, Initial, Room;
    r := EmptyHasRoom(maxHot, sub);
    r := RunOnNewSession(r, maxHot, 1, sub, model, Some(task), 100);
    CancelQuarantines(Last(r), 1, sub, Some(task), 100);
    r := Extend(r, maxHot, RequestCancel(1, sub, Some(task)));
    CancelQuarantines(Last(r), 2, sub, Some(other), 100);
    r := Extend(r, maxHot, RequestCancel(2, sub, Some(other)));
    RefusedCancelDisarms(Last(r), 2);
    r := Extend(r, maxHot, AbortSettles(2));
  }

  lemma RefusedCancelDisarms(w: World, c: CancelId)
    requires c in w.cancels && w.cancels[c].Waiting? && !w.cancels[c].aborted
    ensures var v := Next(w, AbortSettles(c));
            v.pool.sessions == w.pool.sessions && w.cancels[c].id !in v.pool.cancelTimers
  {
  }

  /** Activating a session whose cancelled turn has not settled takes the timer away too. */
  lemma ActivationDisarms(maxHot: nat, sub: SubagentId, model: ModelId, task: Option<TaskId>) returns (r: Trace)
    requires 1 <= maxHot
    ensures IsRun(r, maxHot)
    ensures Pending(Last(r).pool.sessions, 100) && 100 !in Last(r).pool.cancelTimers
    ensures r.labels == [StartTurn(1, sub, model, task), FactoryReturns(1, Some(100)), HandlerResumes(1),
                         RequestCancel(1, sub, task), ActivateSession(100)]
  {
    hide IsRun, Inv, Next, Initial, Room;
    r := EmptyHasRoom(maxHot, sub);
    r := RunOnNewSession(r, maxHot, 1, sub, model, task, 100);
    CancelQuarantines(Last(r), 1, sub, task, 100);
    r := Extend(r, maxHot, RequestCancel(1, sub, task));
    ActivateDropsTimer(Last(r), 100);
    r := Extend(r, maxHot, ActivateSession(100));
  }

  lemma ActivateDropsTimer(w: World, id: AdapterId)
    requires Inv(w) && id in w.pool.pending
    ensures var v := Next(w, ActivateSession(id));
            v.pool.sessions == w.pool.sessions && id !in v.pool.cancelTimers
  {
    hide ProtocolInv;
  }

  // ---- cancelled turns that report something else ----

  lemma CancelsCreation(w: World, t: TurnId, c: CancelId)
    requires Inv(w) && t in w.turns && w.turns[t].phase.Creating? && c !in w.cancels
    ensures var v := Next(w, RequestCancel(c, w.turns[t].sub, w.turns[t].task));
            && v.turns == w.turns && c in v.cancels && v.cancels[c].Answered? && v.cancels[c].accepted
  {
    hide Aim, RepInv;
    assert TurnOk(w, t);
    LiveTurnBlocks(w, t);
  }

  lemma FactoryFails(w: World, t: TurnId)
    requires Enabled(w, FactoryReturns(t, None))
    ensures var v := Next(w, FactoryReturns(t, None));
            v.turns == w.turns[t := w.turns[t].(phase := Done(Reported(Failed(Internal))))] && v.cancels == w.cancels
  {
  }

  /** A cancel accepted while the session is created is followed by a failure of the factory,
      and the turn reports that instead. */
  lemma FailedCreationHidesCancel(maxHot: nat, sub: SubagentId, model: ModelId, task: Option<TaskId>)
    returns (r: Trace)
    requires 1 <= maxHot
    ensures IsRun(r, maxHot)
    ensures r.labels == [StartTurn(1, sub, model, task), RequestCancel(1, sub, task), FactoryReturns(1, None)]
    ensures 1 in Last(r).cancels && Last(r).cancels[1].Answered? && Last(r).cancels[1].accepted
    ensures 1 in Last(r).turns && Last(r).turns[1].phase == Done(Reported(Failed(Internal)))
  {
    hide IsRun, Inv, Next, Initial, Room;
    r := EmptyHasRoom(maxHot, sub);
    StartCreates(Last(r), 1, sub, model, task);
    r := Extend(r, maxHot, StartTurn(1, sub, model, task));
    CancelsCreation(Last(r), 1, 1);
    r := Extend(r, maxHot, RequestCancel(1, sub, task));
    FactoryFails(Last(r), 1);
    r := Extend(r, maxHot, FactoryReturns(1, None));
  }

  lemma CancelsLease(w: World, c: CancelId, id: AdapterId)
    requires Inv(w) && c !in w.cancels && id in w.pool.sessions && id in w.pool.leases && !w.pool.leases[id].started
    ensures var v := Next(w, RequestCancel(c, w.pool.sessions[id].subagent, w.pool.leases[id].taskId));
            && v.turns == w.turns && v.pool.sessions == w.pool.sessions
            && c in v.cancels && v.cancels[c].Answered? && v.cancels[c].accepted
  {
    MappedBack(w, id);
    hide Aim, Inv, AbortTurn;
  }

  lemma CloseLets(w: World, id: AdapterId)
    requires Inv(w) && id in w.pool.sessions
    ensures var v := Next(w, CloseSession(id));
            && v.turns == w.turns && v.cancels == w.cancels && id !in v.pool.sessions && id in v.pool.disposed
  {
    hide Inv, Without;
    assert id in Dispose(w.pool.sessions, {id});
  }

  lemma ResumeFindsClosed(w: World, t: TurnId)
    requires Inv(w) && t in w.turns && w.turns[t].phase.Admitted? && w.turns[t].phase.id !in w.pool.sessions
    ensures Enabled(w, HandlerResumes(t))
    ensures var v := Next(w, HandlerResumes(t));
            var phase := w.turns[t].phase;
            && v.turns == w.turns[t := w.turns[t].(phase := Settled(phase.id, phase.reused, Failed(SessionNotFound)))]
            && v.cancels == w.cancels
  {
    assert TurnOk(w, t);
    hide FinishTurn;
  }

  lemma FinishReports(w: World, t: TurnId)
    requires Enabled(w, HandlerFinishes(t))
    ensures var v := Next(w, HandlerFinishes(t));
            && v.turns == w.turns[t := w.turns[t].(phase := Done(Reported(w.turns[t].phase.result)))]
            && v.cancels == w.cancels
  {
    hide FinishTurn;
  }

  /** A cancel accepted before the handler resumes is followed by a close of the session, and
      the turn reports SESSION_NOT_FOUND. */
  lemma CloseHidesCancel(maxHot: nat, sub: SubagentId, model: ModelId, task: Option<TaskId>) returns (r: Trace)
    requires 1 <= maxHot
    ensures IsRun(r, maxHot)
    ensures r.labels == [StartTurn(1, sub, model, task), FactoryReturns(1, Some(100)), RequestCancel(1, sub, task),
                         CloseSession(100), HandlerResumes(1), HandlerFinishes(1)]
    ensures 1 in Last(r).cancels && Last(r).cancels[1].Answered? && Last(r).cancels[1].accepted
    ensures 1 in Last(r).turns && Last(r).turns[1].phase == Done(Reported(Failed(SessionNotFound)))
  {
    hide IsRun, Inv, Next, Initial, Room;
    r := EmptyHasRoom(maxHot, sub);
    r := AdmitToNewSession(r, maxHot, 1, sub, model, task, 100);
    CancelsLease(Last(r), 1, 100);
    r := Extend(r, maxHot, RequestCancel(1, sub, task));
    CloseLets(Last(r), 100);
    r := Extend(r, maxHot, CloseSession(100));
    ResumeFindsClosed(Last(r), 1);
    r := Extend(r, maxHot, HandlerResumes(1));
    FinishReports(Last(r), 1);
    r := Extend(r, maxHot, HandlerFinishes(1));
  }

  // ---- a left-over timer ----

  /** What the pool knows of one pending session. */
  datatype Entry = Entry(sub: SubagentId, s: Session, lease: Option<Lease>, timer: Option<int>, since: int)

  ghost predicate Has(w: World, id: AdapterId, e: Entry) {
    && id in w.pool.sessions && w.pool.sessions[id] == e.s && e.s.subagent == e.sub && !e.s.closed
    && Get(w.pool.leases, id) == e.lease && Get(w.pool.cancelTimers, id) == e.timer
    && id in w.pool.pending && Get(w.pool.pendingSince, id) == Some(e.since)
  }

  lemma CreationHas(w: World, t: TurnId, id: AdapterId)
    requires Inv(w) && Enabled(w, FactoryReturns(t, Some(id))) && w.turns[t].sub !in w.pool.cancelledCreations
    ensures var turn := w.turns[t];
            var v := Next(w, FactoryReturns(t, Some(id)));
            && Has(v, id, Entry(turn.sub, NewSession(turn.sub, turn.model), Some(Lease(turn.task, false, false)), None,
                                w.now))
            && v.turns == w.turns[t := turn.(phase := Admitted(id, false))] && v.cancels == w.cancels
  {
    hide ProtocolInv, OrderInv;
  }

  lemma StartHas(w: World, t: TurnId, id: AdapterId, e: Entry, task: Option<TaskId>)
    requires Inv(w) && t !in w.turns && Has(w, id, e) && e.lease == None
    requires !e.s.cancellationPending && w.now <= e.since + PENDING_TTL_MS
    ensures var v := Next(w, StartTurn(t, e.sub, e.s.model, task));
            && Has(v, id, e.(lease := Some(Lease(task, false, false))))
            && v.turns == w.turns[t := Turn(e.sub, task, e.s.model, Admitted(id, true))] && v.cancels == w.cancels
  {
    hide ProtocolInv, LivenessInv, CapacityInv, CreationInv, Miss, Without;
    var q := ReleaseExpiredEvictions(w.pool, w.now);
    assert id !in ExpiredPending(q, w.now);
    assert id !in q.evicting;
  }

  lemma ResumeHas(w: World, t: TurnId, id: AdapterId, reused: bool, e: Entry)
    requires t in w.turns && w.turns[t].phase == Admitted(id, reused) && Has(w, id, e)
    requires e.lease == Some(Lease(w.turns[t].task, false, false))
    ensures var turn := w.turns[t];
            var s := BeginTurn(e.s, turn.task);
            var v := Next(w, HandlerResumes(t));
            && Has(v, id, e.(s := s, lease := Some(Lease(turn.task, true, false))))
            && v.turns == w.turns[t := turn.(phase := Running(id, reused, s.generation))] && v.cancels == w.cancels
  {
  }

  lemma SettleHas(w: World, t: TurnId, id: AdapterId, reused: bool, e: Entry)
    requires t in w.turns && w.turns[t].phase == Running(id, reused, e.s.generation) && Has(w, id, e)
    ensures var v := Next(w, SdkSettles(t, Resolved));
            var result := ResultOf(e.s, e.s.generation, Resolved);
            && Has(v, id, e.(s := SettleTurn(e.s, e.s.generation)))
            && v.turns == w.turns[t := w.turns[t].(phase := Settled(id, reused, result))] && v.cancels == w.cancels
  {
  }

  lemma FinishHas(w: World, t: TurnId, id: AdapterId, reused: bool, result: TurnResult, e: Entry)
    requires t in w.turns && w.turns[t].phase == Settled(id, reused, result) && Has(w, id, e)
    requires reused || result == Completed
    ensures var v := Next(w, HandlerFinishes(t));
            && Has(v, id, e.(lease := None, since := w.now))
            && v.turns == w.turns[t := w.turns[t].(phase := Done(Reported(result)))] && v.cancels == w.cancels
  {
  }

  lemma CancelHas(w: World, c: CancelId, id: AdapterId, e: Entry, task: Option<TaskId>)
    requires Inv(w) && c !in w.cancels && Has(w, id, e) && AbortAccepted(e.s, task)
    requires e.lease.Some? && e.lease.value.started
    ensures var v := Next(w, RequestCancel(c, e.sub, task));
            var due := if e.timer.Some? then e.timer.value else w.now + PENDING_CANCEL_GRACE_MS;
            && Has(v, id, e.(s := Abort(e.s, task), timer := Some(due)))
            && v.turns == w.turns && forall x | x in v.cancels :: x in w.cancels || x == c
  {
    hide Aim, ProtocolInv, OrderInv;
    MappedBack(w, id);
  }

  /** A turn that reuses a session, up to the SDK call. */
  lemma Reuse(r: Trace, maxHot: nat, t: TurnId, id: AdapterId, e: Entry, task: Option<TaskId>) returns (q: Trace)
    requires |r.states| > 0 && IsRun(r, maxHot) && Inv(Last(r))
    requires t !in Last(r).turns && Has(Last(r), id, e) && e.lease == None
    requires !e.s.cancellationPending && Last(r).now <= e.since + PENDING_TTL_MS
    ensures IsRun(q, maxHot) && |q.states| > 0 && Inv(Last(q)) && Last(q).now == Last(r).now
    ensures Has(Last(q), id, e.(s := BeginTurn(e.s, task), lease := Some(Lease(task, true, false))))
    ensures Last(q).turns
            == Last(r).turns[t := Turn(e.sub, task, e.s.model, Running(id, true, e.s.generation + 1))]
    ensures Last(q).cancels == Last(r).cancels
    ensures q.labels == r.labels + [StartTurn(t, e.sub, e.s.model, task), HandlerResumes(t)]
  {
    hide IsRun, Inv, Next, Initial, Has;
    StartHas(Last(r), t, id, e, task);
    ClockStep(Last(r), StartTurn(t, e.sub, e.s.model, task));
    q := Extend(r, maxHot, StartTurn(t, e.sub, e.s.model, task));
    var f := e.(lease := Some(Lease(task, false, false)));
    ResumeHas(Last(q), t, id, true, f);
    HasKnown(Last(q), id, f);
    ClockStep(Last(q), HandlerResumes(t));
    q := Extend(q, maxHot, HandlerResumes(t));
  }

  lemma HasKnown(w: World, id: AdapterId, e: Entry)
    requires Has(w, id, e)
    ensures Known(w.pool, id)
  {
  }

  /** The SDK settles and the handler ends the turn. */
  lemma Complete(r: Trace, maxHot: nat, t: TurnId, id: AdapterId, reused: bool, e: Entry) returns (q: Trace)
    requires |r.states| > 0 && IsRun(r, maxHot) && Inv(Last(r))
    requires t in Last(r).turns && Last(r).turns[t].phase == Running(id, reused, e.s.generation)
    requires Has(Last(r), id, e) && (reused || e.s.cancelledGeneration != e.s.generation)
    ensures IsRun(q, maxHot) && |q.states| > 0 && Inv(Last(q)) && Last(q).now == Last(r).now
    ensures Has(Last(q), id, e.(s := SettleTurn(e.s, e.s.generation), lease := None, since := Last(r).now))
    ensures Last(q).turns.Keys == Last(r).turns.Keys && Last(q).cancels == Last(r).cancels
    ensures q.labels == r.labels + [SdkSettles(t, Resolved), HandlerFinishes(t)]
  {
    hide IsRun, Inv, Next, Initial, Has;
    SettleHas(Last(r), t, id, reused, e);
    HasKnown(Last(r), id, e);
    ClockStep(Last(r), SdkSettles(t, Resolved));
    q := Extend(r, maxHot, SdkSettles(t, Resolved));
    var f := e.(s := SettleTurn(e.s, e.s.generation));
    FinishHas(Last(q), t, id, reused, ResultOf(e.s, e.s.generation, Resolved), f);
    ClockStep(Last(q), HandlerFinishes(t));
    q := Extend(q, maxHot, HandlerFinishes(t));
  }

  /** A first turn that has completed, so its session is idle. */
  lemma FirstTurn(maxHot: nat, sub: SubagentId, model: ModelId, task: Option<TaskId>) returns (r: Trace, e: Entry)
    requires 1 <= maxHot
    ensures IsRun(r, maxHot) && |r.states| > 0 && Inv(Last(r)) && Last(r).now == 0
    ensures e == Entry(sub, SettleTurn(BeginTurn(NewSession(sub, model), task), 1), None, None, 0)
    ensures Has(Last(r), 100, e) && Last(r).turns.Keys == {1} && Last(r).cancels == map[]
    ensures r.labels == [StartTurn(1, sub, model, task), FactoryReturns(1, Some(100)), HandlerResumes(1),
                         SdkSettles(1, Resolved), HandlerFinishes(1)]
  {
    hide IsRun, Inv, Next, Room, Has;
    r := EmptyHasRoom(maxHot, sub);
    StartCreates(Last(r), 1, sub, model, task);
    ClockStep(Last(r), StartTurn(1, sub, model, task));
    r := Extend(r, maxHot, StartTurn(1, sub, model, task));
    hide Initial;
    CreationHas(Last(r), 1, 100);
    ClockStep(Last(r), FactoryReturns(1, Some(100)));
    r := Extend(r, maxHot, FactoryReturns(1, Some(100)));
    e := Entry(sub, NewSession(sub, model), Some(Lease(task, false, false)), None, 0);
    ResumeHas(Last(r), 1, 100, false, e);
    HasKnown(Last(r), 100, e);
    ClockStep(Last(r), HandlerResumes(1));
    r := Extend(r, maxHot, HandlerResumes(1));
    e := e.(s := BeginTurn(e.s, task), lease := Some(Lease(task, true, false)));
    r := Complete(r, maxHot, 1, 100, false, e);
    e := e.(s := SettleTurn(e.s, 1), lease := None);
  }

  lemma TickHas(w: World, elapsed: nat, id: AdapterId, e: Entry)
    requires Has(w, id, e)
    ensures var v := Next(w, Tick(elapsed));
            Has(v, id, e) && v.turns == w.turns && v.cancels == w.cancels && v.now == w.now + elapsed
  {
  }

  lemma TimerEnds(w: World, id: AdapterId, e: Entry)
    requires Has(w, id, e) && e.s.cancellationPending && e.timer.Some? && e.timer.value <= w.now
    ensures Enabled(w, TimerFires(id))
    ensures var v := Next(w, TimerFires(id)); id !in v.pool.sessions && v.turns == w.turns && v.now == w.now
  {
    hide Without;
  }

  /** A cancel that leaves the session pending, its timer set. */
  lemma Cancel(r: Trace, maxHot: nat, c: CancelId, id: AdapterId, e: Entry, task: Option<TaskId>)
    returns (q: Trace, f: Entry)
    requires |r.states| > 0 && IsRun(r, maxHot) && Inv(Last(r)) && c !in Last(r).cancels
    requires Has(Last(r), id, e) && AbortAccepted(e.s, task) && e.lease.Some? && e.lease.value.started
    ensures IsRun(q, maxHot) && |q.states| > 0 && Inv(Last(q))
    ensures Last(q).now == Last(r).now && Last(q).turns == Last(r).turns
    ensures f == e.(s := Abort(e.s, task), timer := f.timer)
    ensures f.timer == Some(if e.timer.Some? then e.timer.value else Last(r).now + PENDING_CANCEL_GRACE_MS)
    ensures Has(Last(q), id, f) && forall x | x in Last(q).cancels :: x in Last(r).cancels || x == c
    ensures q.labels == r.labels + [RequestCancel(c, e.sub, task)]
  {
    hide IsRun, Inv, Next, Initial, Has;
    CancelHas(Last(r), c, id, e, task);
    ClockStep(Last(r), RequestCancel(c, e.sub, task));
    q := Extend(r, maxHot, RequestCancel(c, e.sub, task));
    f := e.(s := Abort(e.s, task),
            timer := Some(if e.timer.Some? then e.timer.value else Last(r).now + PENDING_CANCEL_GRACE_MS));
  }

  lemma Wait(r: Trace, maxHot: nat, elapsed: nat, id: AdapterId, e: Entry) returns (q: Trace)
    requires |r.states| > 0 && IsRun(r, maxHot) && Inv(Last(r)) && Has(Last(r), id, e)
    ensures IsRun(q, maxHot) && |q.states| > 0 && Inv(Last(q)) && Has(Last(q), id, e)
    ensures Last(q).now == Last(r).now + elapsed
    ensures Last(q).turns == Last(r).turns && Last(q).cancels == Last(r).cancels
    ensures q.labels == r.labels + [Tick(elapsed)]
  {
    hide IsRun, Inv, Next, Initial, Has;
    TickHas(Last(r), elapsed, id, e);
    q := Extend(r, maxHot, Tick(elapsed));
  }

  /** The second turn of the session is cancelled but settles; its timer stays behind. */
  lemma TimerLeftOver(maxHot: nat, sub: SubagentId, model: ModelId, task: Option<TaskId>) returns (r: Trace, e: Entry)
    requires 1 <= maxHot
    ensures IsRun(r, maxHot) && |r.states| > 0 && Inv(Last(r)) && Last(r).now == 0
    ensures Has(Last(r), 100, e) && e.sub == sub && e.s.model == model && !e.s.cancellationPending
    ensures e.lease == None && e.timer == Some(PENDING_CANCEL_GRACE_MS) && e.since == 0
    ensures Last(r).turns.Keys == {1, 2} && 2 !in Last(r).cancels
    ensures r.labels == [StartTurn(1, sub, model, task), FactoryReturns(1, Some(100)), HandlerResumes(1),
                         SdkSettles(1, Resolved), HandlerFinishes(1),
                         StartTurn(2, sub, model, task), HandlerResumes(2), RequestCancel(1, sub, task),
                         SdkSettles(2, Resolved), HandlerFinishes(2)]
  {
    hide IsRun, Inv, Next, Initial, Has;
    r, e := FirstTurn(maxHot, sub, model, task);
    r := Reuse(r, maxHot, 2, 100, e, task);
    e := e.(s := BeginTurn(e.s, task), lease := Some(Lease(task, true, false)));
    r, e := Cancel(r, maxHot, 1, 100, e, task);
    r := Complete(r, maxHot, 2, 100, true, e);
    e := e.(s := SettleTurn(e.s, e.s.generation), lease := None, since := 0);
  }

  /** The timer a settled turn has left behind closes the session one millisecond after the
      cancel of a later turn, while that turn is still in the SDK. */
  lemma LeftoverTimerCutsGrace(maxHot: nat, sub: SubagentId, model: ModelId, task: Option<TaskId>) returns (r: Trace)
    requires 1 <= maxHot
    ensures IsRun(r, maxHot)
    ensures r.labels == [StartTurn(1, sub, model, task), FactoryReturns(1, Some(100)), HandlerResumes(1),
                         SdkSettles(1, Resolved), HandlerFinishes(1),
                         StartTurn(2, sub, model, task), HandlerResumes(2), RequestCancel(1, sub, task),
                         SdkSettles(2, Resolved), HandlerFinishes(2),
                         StartTurn(3, sub, model, task), HandlerResumes(3), Tick(PENDING_CANCEL_GRACE_MS - 1),
                         RequestCancel(2, sub, task), Tick(1), TimerFires(100)]
    ensures 100 !in Last(r).pool.sessions && 3 in Last(r).turns && Last(r).turns[3].phase.Running?
  {
    hide IsRun, Inv, Next, Initial, Has;
    var e;
    r, e := TimerLeftOver(maxHot, sub, model, task);
    r := Reuse(r, maxHot, 3, 100, e, task);
    e := e.(s := BeginTurn(e.s, task), lease := Some(Lease(task, true, false)));
    r := Wait(r, maxHot, PENDING_CANCEL_GRACE_MS - 1, 100, e);
    r, e := Cancel(r, maxHot, 2, 100, e, task);
    r := Wait(r, maxHot, 1, 100, e);
    TimerEnds(Last(r), 100, e);
    r := Extend(r, maxHot, TimerFires(100));
  }
}
