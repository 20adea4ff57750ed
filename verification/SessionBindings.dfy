/** A session serves one subagent with one model, for as long as it is known. */
module SessionBindings {
  import opened Options
  import opened PiSession
  import opened PoolModel
  import opened TurnProtocol
  import opened SidecarRuns
  import opened TurnOutcomes

  ghost predicate Carries(p: Pool, q: Pool) {
    forall id | Known(p, id) ::
      && Known(q, id) && Object(q, id).subagent == Object(p, id).subagent && Object(q, id).model == Object(p, id).model
  }

  lemma CarriesOn(p: Pool, q: Pool, r: Pool)
    requires Carries(p, q) && Carries(q, r)
    ensures Carries(p, r)
  {
  }

  lemma SameObjects(p: Pool, q: Pool)
    requires q.sessions == p.sessions && q.disposed == p.disposed
    ensures Carries(p, q)
  {
  }

  lemma CloseAllCarries(p: Pool, gone: set<AdapterId>)
    ensures Carries(p, CloseAll(p, gone))
  {
    hide Without, Owners;
    forall id | Known(p, id)
      ensures Known(CloseAll(p, gone), id)
      ensures Object(CloseAll(p, gone), id).subagent == Object(p, id).subagent
      ensures Object(CloseAll(p, gone), id).model == Object(p, id).model
    {
      if id in gone && id in p.sessions {
        assert id in Dispose(p.sessions, gone);
      }
    }
  }

  lemma CloseCarries(p: Pool, id: AdapterId)
    ensures Carries(p, Close(p, id))
  {
    hide CloseAll, Carries;
    CloseAllCarries(p, {id});
    SameObjects(p, p);
  }

  lemma HousekeepCarries(p: Pool, now: int)
    ensures Carries(p, Housekeep(p, now))
  {
    hide CloseAll, Carries;
    var q := ReleaseExpiredEvictions(p, now);
    SameObjects(p, q);
    CloseAllCarries(q, ExpiredPending(q, now));
    CarriesOn(p, q, Housekeep(p, now));
  }

  lemma MissCarries(p: Pool, now: int, sub: SubagentId, task: Option<TaskId>)
    ensures Carries(p, Miss(p, now, sub, task).0)
  {
    hide LruCandidate, Carries;
    SameObjects(p, p);
    SameObjects(p, LruCandidate(p, now).0);
    SameObjects(p, p.(creating := p.creating[sub := task]));
  }

  lemma AdmitCarries(p: Pool, now: int, sub: SubagentId, model: ModelId, task: Option<TaskId>)
    ensures Carries(p, Admit(p, now, sub, model, task, true).0)
  {
    hide Miss, Quarantined, ToFront, Close, Carries;
    SameObjects(p, p);
    MissCarries(p, now, sub, task);
    if sub in p.subagents {
      var id, q := p.subagents[sub], p.(subagents := p.subagents - {sub});
      SameObjects(p, q);
      MissCarries(q, now, sub, task);
      CarriesOn(p, q, Miss(q, now, sub, task).0);
      CloseCarries(p, id);
      MissCarries(Close(p, id), now, sub, task);
      CarriesOn(p, Close(p, id), Miss(Close(p, id), now, sub, task).0);
      SameObjects(p, AcquireTurn(Touch(p, id), id, task));
    }
  }

  lemma EnsureCarries(p: Pool, now: int, sub: SubagentId, model: ModelId, task: Option<TaskId>)
    ensures Carries(p, EnsureBegin(p, now, sub, model, task, true).0)
  {
    hide Housekeep, Admit, Carries;
    HousekeepCarries(p, now);
    AdmitCarries(Housekeep(p, now), now, sub, model, task);
    CarriesOn(p, Housekeep(p, now), Admit(Housekeep(p, now), now, sub, model, task, true).0);
  }

  lemma CreationCarries(p: Pool, now: int, sub: SubagentId, model: ModelId, task: Option<TaskId>,
                        created: Option<AdapterId>)
    requires created.Some? ==> !Known(p, created.value)
    ensures Carries(p, EnsureResume(p, now, sub, model, task, true, created).0)
  {
    hide Carries, Known;
    var q := EnsureResume(p, now, sub, model, task, true, created).0;
    if created.None? {
      SameObjects(p, q);
    } else if sub in p.cancelledCreations {
      NewDisposed(p, q, created.value);
    } else {
      NewSessionCarries(p, q, created.value);
    }
  }

  lemma NewDisposed(p: Pool, q: Pool, id: AdapterId)
    requires !Known(p, id) && id in q.disposed
    requires q.sessions == p.sessions && q.disposed == p.disposed[id := q.disposed[id]]
    ensures Carries(p, q)
  {
  }

  lemma NewSessionCarries(p: Pool, q: Pool, id: AdapterId)
    requires !Known(p, id) && id in q.sessions
    requires q.sessions == p.sessions[id := q.sessions[id]] && q.disposed == p.disposed
    ensures Carries(p, q)
  {
  }

  lemma PutCarries(p: Pool, id: AdapterId, s: Session)
    requires Known(p, id) && s.subagent == Object(p, id).subagent && s.model == Object(p, id).model
    ensures Carries(p, PutObject(p, id, s))
  {
    var q := PutObject(p, id, s);
    if id in p.sessions {
      assert q.sessions == p.sessions[id := s] && q.disposed == p.disposed;
    } else {
      assert q.sessions == p.sessions && q.disposed == p.disposed[id := s];
    }
    hide PutObject;
  }

  lemma FinishCarries(p: Pool, now: int, id: AdapterId, reused: bool, result: TurnResult)
    ensures Carries(p, FinishTurn(p, now, id, reused, result))
  {
    hide Close, Carries;
    SameObjects(p, EndTurn(p, now, id));
    CloseCarries(EndTurn(p, now, id), id);
    CarriesOn(p, EndTurn(p, now, id), Close(EndTurn(p, now, id), id));
  }

  lemma ResumeCarries(w: World, t: TurnId)
    requires t in w.turns && w.turns[t].phase.Admitted? && Known(w.pool, w.turns[t].phase.id)
    ensures Carries(w.pool, NextResume(w, t).pool)
  {
    hide FinishTurn, MarkTurnStarted, PutObject, Carries;
    var Admitted(id, reused) := w.turns[t].phase;
    var q := MarkTurnStarted(w.pool, id, w.turns[t].task).0;
    SameObjects(w.pool, q);
    FinishCarries(q, w.now, id, reused, TurnCancelled);
    CarriesOn(w.pool, q, FinishTurn(q, w.now, id, reused, TurnCancelled));
    PutCarries(q, id, BeginTurn(Object(q, id), w.turns[t].task));
    CarriesOn(w.pool, q, PutObject(q, id, BeginTurn(Object(q, id), w.turns[t].task)));
  }

  lemma AbortCarries(p: Pool, now: int, id: AdapterId, task: Option<TaskId>)
    requires id in p.sessions
    ensures Carries(p, AbortTurn(p, now, id, task).0)
  {
  }

  lemma CancelCarries(p: Pool, now: int, sub: SubagentId, task: Option<TaskId>)
    ensures Carries(p, CancelBegin(p, now, sub, task).0)
  {
    hide AbortTurn, Carries;
    if sub in p.subagents && p.subagents[sub] in p.sessions {
      AbortCarries(p, now, p.subagents[sub], task);
    }
    var q := CancelBegin(p, now, sub, task).0;
    if q.sessions == p.sessions {
      SameObjects(p, q);
    }
  }

  lemma TimerCarries(p: Pool, id: AdapterId)
    ensures Carries(p, CancelTimerFires(p, id))
  {
    hide Close, Carries;
    var q := p.(cancelTimers := p.cancelTimers - {id});
    SameObjects(p, q);
    CloseCarries(q, id);
    CarriesOn(p, q, Close(q, id));
  }

  lemma TurnStepCarries(w: World, l: Label)
    requires Enabled(w, l)
    requires l.StartTurn? || l.FactoryReturns? || l.HandlerResumes? || l.SdkSettles? || l.HandlerFinishes?
    ensures Carries(w.pool, Next(w, l).pool)
  {
    hide EnsureBegin, EnsureResume, NextResume, PutObject, FinishTurn, Carries;
    match l {
      case StartTurn(_, sub, model, task) => EnsureCarries(w.pool, w.now, sub, model, task);
      case FactoryReturns(t, created) =>
        CreationCarries(w.pool, w.now, w.turns[t].sub, w.turns[t].model, w.turns[t].task, created);
      case HandlerResumes(t) => ResumeCarries(w, t);
      case SdkSettles(t, _) =>
        var Running(id, _, g) := w.turns[t].phase;
        PutCarries(w.pool, id, SettleTurn(Object(w.pool, id), g));
      case HandlerFinishes(t) =>
        FinishCarries(w.pool, w.now, w.turns[t].phase.id, w.turns[t].phase.reused, w.turns[t].phase.result);
    }
  }

  lemma StepCarries(w: World, l: Label)
    requires Enabled(w, l)
    ensures Carries(w.pool, Next(w, l).pool)
  {
    if l.StartTurn? || l.FactoryReturns? || l.HandlerResumes? || l.SdkSettles? || l.HandlerFinishes? {
      hide Next, Enabled;
      TurnStepCarries(w, l);
    } else {
      hide Carries, CancelBegin, Aim, Close, CancelTimerFires, ReserveForEviction;
      match l {
        case RequestCancel(_, sub, task) => CancelCarries(w.pool, w.now, sub, task);
        case CloseSession(id) => CloseCarries(w.pool, id);
        case TimerFires(id) => TimerCarries(w.pool, id);
        case PrepareHibernate(id) => ReserveKeepsObjects(w.pool, w.now, id);
        case AbortSettles(c) => SameObjects(w.pool, CancelResume(w.pool, w.cancels[c].id, w.cancels[c].aborted));
        case ActivateSession(id) => SameObjects(w.pool, Activate(w.pool, id).0);
        case ReleaseReservation(id) => SameObjects(w.pool, ReleaseEviction(w.pool, id));
        case Tick(_) => SameObjects(w.pool, w.pool);
      }
    }
  }

  lemma ReserveKeepsObjects(p: Pool, now: int, id: AdapterId)
    ensures Carries(p, ReserveForEviction(p, now, id).0)
  {
    SameObjects(p, ReserveForEviction(p, now, id).0);
    hide Carries;
  }

  lemma {:induction false} CarriesRun(r: Trace, maxHot: nat, i: nat, j: nat)
    requires IsRun(r, maxHot) && i <= j <= |r.labels|
    ensures Carries(r.states[i].pool, r.states[j].pool)
    decreases j
  {
    hide Next, Enabled, Carries;
    if i == j {
      SameObjects(r.states[i].pool, r.states[j].pool);
    } else {
      CarriesRun(r, maxHot, i, j - 1);
      assert StepAt(r, j - 1);
      StepCarries(r.states[j - 1], r.labels[j - 1]);
      CarriesOn(r.states[i].pool, r.states[j - 1].pool, r.states[j].pool);
    }
  }

  /** In every run a session that was created for a turn has, as long as it stays in the pool,
      the subagent and the model of that turn. */
  lemma BoundForLife(r: Trace, maxHot: nat, i: nat, j: nat, t: TurnId, id: AdapterId)
    requires IsRun(r, maxHot) && i < j <= |r.labels| && r.labels[i] == FactoryReturns(t, Some(id))
    requires id in r.states[j].pool.sessions
    ensures t in r.states[i].turns
    ensures r.states[j].pool.sessions[id].subagent == r.states[i].turns[t].sub
    ensures r.states[j].pool.sessions[id].model == r.states[i].turns[t].model
  {
    hide Next, Inv, RepInv;
    assert StepAt(r, i);
    Reachable(r, maxHot, i);
    Reachable(r, maxHot, j);
    CreationBinds(r.states[i], t, id);
    CarriesRun(r, maxHot, i + 1, j);
  }

  lemma CreationBinds(w: World, t: TurnId, id: AdapterId)
    requires Inv(w) && Enabled(w, FactoryReturns(t, Some(id)))
    ensures var p := Next(w, FactoryReturns(t, Some(id))).pool;
            Known(p, id) && Object(p, id).subagent == w.turns[t].sub && Object(p, id).model == w.turns[t].model
  {
    hide Inv;
  }
}
