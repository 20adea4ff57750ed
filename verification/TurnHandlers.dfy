/** The `turn_auto` handler running on the mutable pool and session objects: each stretch
    between awaits does what the step of the same name does in `TurnProtocol`. */
module TurnHandlers {
  import opened Options
  import opened PiSession
  import opened PoolModel
  import opened TurnProtocol
  import opened SidecarRuns
  import opened SessionPools

  /** The pool knows the session, whether or not it still holds it. */
  ghost predicate Knows(pool: SessionPool, session: PiSdkSession)
    reads pool
  {
    var id := session.adapterId;
    || (id in pool.sessions && pool.sessions[id] == session)
    || (id in pool.disposed && pool.disposed[id] == session)
  }

  lemma KnownObject(pool: SessionPool, session: PiSdkSession)
    requires pool.Valid() && Knows(pool, session)
    ensures session in pool.objects
    ensures Known(pool.View(), session.adapterId) && Object(pool.View(), session.adapterId) == session.State()
    ensures session.adapterId in pool.View().sessions <==> session.adapterId in pool.sessions
    ensures session.adapterId in pool.sessions ==>
              session.adapterId !in pool.disposed && pool.sessions[session.adapterId] == session
    ensures session.adapterId !in pool.sessions ==>
              session.adapterId in pool.disposed && pool.disposed[session.adapterId] == session
    ensures Coherent(session.State())
  {
    var p := pool.View();
    pool.SameKeys();
    StatesKeys(pool.disposed, RegistersOf(pool.objects));
    assert LivenessInv(p.sessions, p.disposed);
    hide MappingInv, OrderInv, States;
  }

  /** A session object used from outside the pool: what its new register does to the view. */
  lemma ObjectChanged(pool: SessionPool, session: PiSdkSession, p: Pool, r: Registers)
    requires pool.Linked() && session in pool.objects && r.Keys == pool.objects
    requires RegistersOf(pool.objects) == r[session := session.State()]
    requires p == pool.View().(sessions := States(pool.sessions, r), disposed := States(pool.disposed, r))
    requires session.adapterId in pool.sessions ==>
               session.adapterId !in pool.disposed && pool.sessions[session.adapterId] == session
    requires session.adapterId !in pool.sessions ==>
               session.adapterId in pool.disposed && pool.disposed[session.adapterId] == session
    ensures Known(p, session.adapterId)
    ensures pool.View() == PutObject(p, session.adapterId, session.State())
  {
    var id := session.adapterId;
    StatesKeys(pool.sessions, r);
    StatesKeys(pool.disposed, r);
    if id in pool.sessions {
      ChangeObject(pool.sessions, r, id, session.State());
      OtherObject(pool.disposed, r, session, session.State());
    } else {
      ChangeObject(pool.disposed, r, id, session.State());
      OtherObject(pool.sessions, r, session, session.State());
    }
    hide States, RegistersOf;
  }

  /** `session.sendTurn` up to its await. */
  method SendTurn(pool: SessionPool, session: PiSdkSession, task: Option<TaskId>) returns (generation: Option<nat>)
    requires pool.Valid() && Knows(pool, session)
    modifies session
    ensures pool.Valid()
    ensures var p, id := old(pool.View()), session.adapterId;
            && Known(p, id)
            && (generation.None? <==> Object(p, id).closed)
            && (generation.None? ==> pool.View() == p)
            && (generation.Some? ==>
                  && pool.View() == PutObject(p, id, BeginTurn(Object(p, id), task))
                  && generation.value == BeginTurn(Object(p, id), task).generation)
  {
    hide RepInv, States, RegistersOf, PutObject;
    ghost var p, r := pool.View(), RegistersOf(pool.objects);
    KnownObject(pool, session);
    RegistersHold(pool.objects);
    generation := session.SendTurnBegin(task);
    RegistersChange(pool.objects, r, session);
    ObjectChanged(pool, session, p, r);
    if generation.Some? {
      PutObjectKeeps(p, session.adapterId, session.State());
    } else {
      PutSame(p, session.adapterId);
    }
  }

  lemma PutSame(p: Pool, id: AdapterId)
    requires Known(p, id)
    ensures PutObject(p, id, Object(p, id)) == p
  {
    if id in p.sessions {
      assert p.sessions[id := p.sessions[id]] == p.sessions;
    } else {
      assert p.disposed[id := p.disposed[id]] == p.disposed;
    }
  }

  /** `session.sendTurn` after its await. */
  method SettleSendTurn(pool: SessionPool, session: PiSdkSession, generation: nat, sdk: SdkResult)
    returns (result: TurnResult)
    requires pool.Valid() && Knows(pool, session)
    modifies session
    ensures pool.Valid()
    ensures var p, id := old(pool.View()), session.adapterId;
            && Known(p, id)
            && pool.View() == PutObject(p, id, SettleTurn(Object(p, id), generation))
            && result == ResultOf(Object(p, id), generation, sdk)
  {
    hide RepInv, States, RegistersOf, PutObject;
    ghost var p, r := pool.View(), RegistersOf(pool.objects);
    KnownObject(pool, session);
    RegistersHold(pool.objects);
    result := session.SendTurnSettle(generation, sdk);
    RegistersChange(pool.objects, r, session);
    ObjectChanged(pool, session, p, r);
    PutObjectKeeps(p, session.adapterId, session.State());
  }

  /** The `finally` block of the handler. */
  method FinishHandler(pool: SessionPool, session: PiSdkSession, now: int, reused: bool, result: TurnResult)
    requires pool.Valid()
    modifies pool, pool.objects
    ensures pool.Valid() && pool.View() == FinishTurn(old(pool.View()), now, session.adapterId, reused, result)
  {
    hide RepInv, States, RegistersOf, Close, EndTurn;
    pool.EndSessionTurn(session.adapterId, now);
    if !reused && result != Completed {
      pool.CloseSession(session.adapterId);
    }
  }

  /** The handler from the moment it holds its session to its next await, in any world that
      has this pool: exactly the step `HandlerResumes`. */
  method ResumeHandler(pool: SessionPool, session: PiSdkSession, now: int, reused: bool, task: Option<TaskId>)
    returns (phase: Phase)
    requires pool.Valid() && Knows(pool, session)
    modifies pool, pool.objects
    ensures pool.Valid()
    ensures forall w: World, t: TurnId |
              && w.pool == old(pool.View()) && w.now == now && t in w.turns
              && w.turns[t].task == task && w.turns[t].phase == Admitted(session.adapterId, reused) ::
              && Enabled(w, HandlerResumes(t))
              && NextResume(w, t).pool == pool.View() && NextResume(w, t).turns[t].phase == phase
  {
    hide RepInv, States, RegistersOf, PutObject, FinishTurn, MarkTurnStarted;
    KnownObject(pool, session);
    ghost var p := pool.View();
    var started := pool.MarkStarted(session.adapterId, task);
    if !started {
      FinishHandler(pool, session, now, reused, TurnCancelled);
      return Done(Reported(TurnCancelled));
    }
    var generation := SendTurn(pool, session, task);
    if generation.None? {
      return Settled(session.adapterId, reused, Failed(SessionNotFound));
    }
    return Running(session.adapterId, reused, generation.value);
  }

  /** The handler once the SDK has settled: exactly the step `SdkSettles`. */
  method SettleHandler(pool: SessionPool, session: PiSdkSession, generation: nat, reused: bool, sdk: SdkResult)
    returns (phase: Phase)
    requires pool.Valid() && Knows(pool, session)
    modifies session
    ensures pool.Valid()
    ensures forall w: World, t: TurnId |
              && w.pool == old(pool.View()) && t in w.turns
              && w.turns[t].phase == Running(session.adapterId, reused, generation) ::
              && Enabled(w, SdkSettles(t, sdk))
              && NextSettle(w, t, sdk).pool == pool.View() && NextSettle(w, t, sdk).turns[t].phase == phase
  {
    hide RepInv, States, RegistersOf, PutObject;
    var result := SettleSendTurn(pool, session, generation, sdk);
    return Settled(session.adapterId, reused, result);
  }
}
