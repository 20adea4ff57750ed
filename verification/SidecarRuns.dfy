/** Whole runs of the sidecar: every sequence of enabled steps from an empty pool. */
module SidecarRuns {
  import opened Options
  import opened PiSession
  import opened PoolModel
  import opened TurnProtocol

  // ---- every step keeps the representation invariant of the pool ----

  lemma PutObjectKeeps(p: Pool, id: AdapterId, s: Session)
    requires RepInv(p) && Known(p, id) && Coherent(s)
    requires s.subagent == Object(p, id).subagent && s.closed == Object(p, id).closed
    ensures RepInv(PutObject(p, id, s))
  {
    if id in p.sessions {
      UpdateSessionKeeps(p, id, s);
    } else {
      DisposeFreshKeeps(p, id, s);
    }
  }

  lemma FinishTurnKeeps(p: Pool, now: int, id: AdapterId, reused: bool, result: TurnResult)
    requires RepInv(p)
    ensures RepInv(FinishTurn(p, now, id, reused, result))
  {
    EndTurnKeeps(p, now, id);
    CloseKeeps(EndTurn(p, now, id), id);
  }

  lemma ResumeKeeps(w: World, t: TurnId)
    requires RepInv(w.pool) && Enabled(w, HandlerResumes(t))
    ensures RepInv(NextResume(w, t).pool)
  {
    var Admitted(id, reused) := w.turns[t].phase;
    var (q, started) := MarkTurnStarted(w.pool, id, w.turns[t].task);
    MarkTurnStartedKeeps(w.pool, id, w.turns[t].task);
    if !started {
      FinishTurnKeeps(q, w.now, id, reused, TurnCancelled);
    } else if !Object(q, id).closed {
      PutObjectKeeps(q, id, BeginTurn(Object(q, id), w.turns[t].task));
    }
  }

  lemma SettleKeeps(w: World, t: TurnId, sdk: SdkResult)
    requires RepInv(w.pool) && Enabled(w, SdkSettles(t, sdk))
    ensures RepInv(NextSettle(w, t, sdk).pool)
  {
    var Running(id, _, g) := w.turns[t].phase;
    PutObjectKeeps(w.pool, id, SettleTurn(Object(w.pool, id), g));
  }

  lemma FactoryKeeps(w: World, t: TurnId, created: Option<AdapterId>)
    requires Inv(w) && Enabled(w, FactoryReturns(t, created))
    ensures RepInv(NextFactory(w, t, created).pool)
  {
    var turn := w.turns[t];
    assert TurnOk(w, t);
    EnsureResumeKeeps(w.pool, w.now, turn.sub, turn.model, turn.task, true, created);
  }

  lemma RepStep(w: World, l: Label)
    requires Inv(w) && Enabled(w, l)
    ensures RepInv(Next(w, l).pool)
  {
    hide RepInv, ProtocolInv, EnsureBegin, EnsureResume, CancelBegin, CancelTimerFires, FinishTurn, NextResume,
      NextSettle;
    match l
    case StartTurn(_, sub, model, task) => EnsureBeginKeeps(w.pool, w.now, sub, model, task, true);
    case FactoryReturns(t, created) => FactoryKeeps(w, t, created);
    case HandlerResumes(t) => ResumeKeeps(w, t);
    case SdkSettles(t, sdk) => SettleKeeps(w, t, sdk);
    case HandlerFinishes(t) =>
      FinishTurnKeeps(w.pool, w.now, w.turns[t].phase.id, w.turns[t].phase.reused, w.turns[t].phase.result);
    case RequestCancel(_, sub, task) => CancelBeginKeeps(w.pool, w.now, sub, task);
    case AbortSettles(c) => CancelResumeKeeps(w.pool, w.cancels[c].id, w.cancels[c].aborted);
    case CloseSession(id) => CloseKeeps(w.pool, id);
    case ActivateSession(id) => ActivateKeeps(w.pool, id);
    case PrepareHibernate(id) => ReserveForEvictionKeeps(w.pool, w.now, id);
    case ReleaseReservation(id) => ReleaseEvictionKeeps(w.pool, id);
    case TimerFires(id) => CancelTimerFiresKeeps(w.pool, id);
    case Tick(_) =>
  }

  lemma StartKeepsPool(w: World, t: TurnId, sub: SubagentId, model: ModelId, task: Option<TaskId>)
    ensures NextStart(w, t, sub, model, task).pool == EnsureBegin(w.pool, w.now, sub, model, task, true).0
  {
    hide EnsureBegin;
  }

  lemma ActivateQuiet(p: Pool, id: AdapterId)
    requires FlightInv(p.sessions, p.leases)
    ensures Quiet(p, Activate(p, id).0)
  {
    SameSlotsQuiet(p, Activate(p, id).0);
  }

  lemma ReserveQuiet(p: Pool, now: int, id: AdapterId)
    requires FlightInv(p.sessions, p.leases)
    ensures Quiet(p, ReserveForEviction(p, now, id).0)
  {
    SameSlotsQuiet(p, ReserveForEviction(p, now, id).0);
  }

  lemma QuietLabel(w: World, l: Label)
    requires ProtocolInv(w) && LivenessInv(w.pool.sessions, w.pool.disposed) && Enabled(w, l)
    requires l.CloseSession? || l.ActivateSession? || l.PrepareHibernate? || l.ReleaseReservation? || l.TimerFires?
    ensures ProtocolInv(Next(w, l))
  {
    match l {
      case CloseSession(id) => CloseQuiet(w.pool, id);
      case TimerFires(id) => TimerQuiet(w.pool, id);
      case ActivateSession(id) => ActivateQuiet(w.pool, id);
      case PrepareHibernate(id) => ReserveQuiet(w.pool, w.now, id);
      case ReleaseReservation(id) => SameSlotsQuiet(w.pool, ReleaseEviction(w.pool, id));
    }
    QuietStep(w, Next(w, l).pool);
  }

  lemma AbortStep(w: World, c: CancelId)
    requires Inv(w) && Enabled(w, AbortSettles(c))
    ensures ProtocolInv(NextAbort(w, c))
  {
    var q := CancelResume(w.pool, w.cancels[c].id, w.cancels[c].aborted);
    SameSlotsQuiet(w.pool, q);
    QuietStep(w, q);
    RecordCancel(w, c, NextAbort(w, c).cancels[c]);
    assert w.cancelled + w.cancels[c].hit == w.cancelled;
  }

  lemma TickStep(w: World, elapsed: nat)
    requires ProtocolInv(w)
    ensures ProtocolInv(w.(now := w.now + elapsed))
  {
    forall t | t in w.turns
      ensures TurnOk(w.(now := w.now + elapsed), t)
    {
      assert TurnOk(w, t);
    }
  }

  /** Every step keeps the invariant. */
  lemma InvStep(w: World, l: Label)
    requires Inv(w) && Enabled(w, l)
    ensures Inv(Next(w, l))
  {
    RepStep(w, l);
    match l
    case StartTurn(t, sub, model, task) => StartStep(w, t, sub, model, task);
    case FactoryReturns(t, created) => FactoryStep(w, t, created);
    case HandlerResumes(t) => ResumeStep(w, t);
    case SdkSettles(t, sdk) => SettleStep(w, t, sdk);
    case HandlerFinishes(t) => FinishStep(w, t);
    case RequestCancel(c, sub, task) => CancelStep(w, c, sub, task);
    case AbortSettles(c) => AbortStep(w, c);
    case Tick(elapsed) => TickStep(w, elapsed);
    case _ => QuietLabel(w, l);
  }

  // ---- runs ----

  /** `states[i + 1]` is the state after the step `labels[i]`. */
  datatype Trace = Trace(states: seq<World>, labels: seq<Label>)

  ghost predicate StepAt(r: Trace, i: int)
    requires 0 <= i < |r.labels| && |r.states| == |r.labels| + 1
  {
    Enabled(r.states[i], r.labels[i]) && r.states[i + 1] == Next(r.states[i], r.labels[i])
  }

  ghost predicate IsRun(r: Trace, maxHot: nat) {
    && 1 <= maxHot
    && |r.states| == |r.labels| + 1
    && r.states[0] == Initial(maxHot)
    && forall i | 0 <= i < |r.labels| :: StepAt(r, i)
  }

  lemma InitInv(maxHot: nat)
    requires 1 <= maxHot
    ensures Inv(Initial(maxHot))
  {
  }

  lemma RepOfInv(w: World)
    requires Inv(w)
    ensures RepInv(w.pool)
  {
    hide RepInv, ProtocolInv;
  }

  lemma {:induction false} Reachable(r: Trace, maxHot: nat, i: nat)
    requires IsRun(r, maxHot) && i <= |r.labels|
    ensures Inv(r.states[i])
    decreases i
  {
    hide Next, Enabled, Inv, Initial;
    if i == 0 {
      InitInv(maxHot);
    } else {
      Reachable(r, maxHot, i - 1);
      assert StepAt(r, i - 1);
      InvStep(r.states[i - 1], r.labels[i - 1]);
    }
  }

  /** Every reachable state of the pool satisfies the representation invariant. In
      particular a subagent that maps to an adapter id maps to a pooled session. */
  lemma PoolStaysConsistent(r: Trace, maxHot: nat, i: nat)
    requires IsRun(r, maxHot) && i <= |r.labels|
    ensures RepInv(r.states[i].pool)
    ensures forall sub | sub in r.states[i].pool.subagents ::
              r.states[i].pool.subagents[sub] in r.states[i].pool.sessions
  {
    Reachable(r, maxHot, i);
  }
}
