/** One turn at a time for each subagent, and exactly which steps break it. */
module ForcedCloses {
  import opened Options
  import opened PiSession
  import opened PoolModel
  import opened TurnProtocol
  import opened SidecarRuns
  import opened CancelGuarantees
  import opened EvictionGuarantees
  import opened TimeGuarantees
  import opened SidecarLimits
  import opened TurnOutcomes

  predicate Unfinished(w: World, t: TurnId) {
    t in w.turns && !w.turns[t].phase.Done?
  }

  /** Every unfinished turn is creating its session or has one that is still in the pool. */
  ghost predicate Attached(w: World) {
    forall t | Unfinished(w, t) :: Live(w, t)
  }

  /** The step takes a session out of the pool while a turn uses it: a close of a busy
      session, or a fallback timer that finds the cancellation still pending. */
  predicate ClosesInUse(w: World, l: Label) {
    match l
    case CloseSession(id) => id in w.pool.busy
    case TimerFires(id) => Pending(w.pool.sessions, id)
    case _ => false
  }

  /** A pending cancellation is one of a turn in flight, so its session is always in use. */
  lemma PendingIsBusy(w: World, id: AdapterId)
    requires Inv(w) && Pending(w.pool.sessions, id)
    ensures id in w.pool.busy
  {
    hide TurnsInv, HolderInv, CreatorInv, MappingInv, OrderInv;
  }

  // ---- the sessions in use stay pooled ----

  /** A session in use has the turn that uses it. */
  lemma BusyHasHolder(w: World, id: AdapterId)
    requires Inv(w) && id in w.pool.busy
    ensures id in w.pool.sessions && id in w.holder && Unfinished(w, w.holder[id])
    ensures Holds(w.turns[w.holder[id]].phase, id)
  {
    hide TurnsInv, CreatorInv, MappingInv, OrderInv;
  }

  /** The session whose turn the step ends, if it does. */
  function OwnSession(w: World, l: Label): Option<AdapterId> {
    if (l.HandlerResumes? || l.HandlerFinishes?) && l.t in w.turns
       && (w.turns[l.t].phase.Admitted? || w.turns[l.t].phase.Settled?)
    then Some(w.turns[l.t].phase.id) else None
  }

  /** Every other step keeps each session in use, apart from the one whose own turn it ends. */
  lemma StepKeepsInUse(w: World, l: Label)
    requires Inv(w) && Enabled(w, l) && !ClosesInUse(w, l)
    ensures forall id | id in w.pool.busy && Some(id) != OwnSession(w, l) :: id in Next(w, l).pool.sessions
  {
    hide Next, Inv;
    forall id | id in w.pool.busy && Some(id) != OwnSession(w, l)
      ensures id in Next(w, l).pool.sessions
    {
      BusyHasHolder(w, id);
      LeavesPoolIff(w, l, id);
    }
  }

  // ---- the turns stay attached ----

  lemma StartedIsAttached(w: World, l: Label)
    requires Inv(w) && Enabled(w, l) && l.StartTurn?
    ensures Unfinished(Next(w, l), l.t) ==> Live(Next(w, l), l.t)
  {
    hide Next, Inv, EnsureBegin;
    NextIsStart(w, l);
    if EnsureBegin(w.pool, w.now, l.sub, l.model, l.task, true).1.Hit? {
      RepOfInv(w);
      EnsureMatches(w.pool, w.now, l.sub, l.model, l.task);
    }
  }

  lemma CreatedIsAttached(w: World, l: Label)
    requires Inv(w) && Enabled(w, l) && l.FactoryReturns?
    ensures Unfinished(Next(w, l), l.t) ==> Live(Next(w, l), l.t)
  {
    hide Inv;
    if l.created.Some? {
      CreationEnds(w, l.t, l.created.value);
      hide Next;
    }
  }

  lemma MovedIsAttached(w: World, l: Label)
    requires Enabled(w, l) && (l.HandlerResumes? || l.SdkSettles? || l.HandlerFinishes?) && Live(w, l.t)
    ensures Unfinished(Next(w, l), l.t) ==> Live(Next(w, l), l.t)
  {
    hide FinishTurn;
  }

  lemma MoverIsAttached(w: World, l: Label)
    requires Inv(w) && Enabled(w, l) && Attached(w) && Mover(l).Some?
    ensures Unfinished(Next(w, l), l.t) ==> Live(Next(w, l), l.t)
  {
    hide Next, Inv, Live;
    match l {
      case StartTurn(_, _, _, _) => StartedIsAttached(w, l);
      case FactoryReturns(_, _) => CreatedIsAttached(w, l);
      case _ =>
        assert Unfinished(w, l.t);
        MovedIsAttached(w, l);
    }
  }

  lemma OtherIsAttached(w: World, l: Label, t: TurnId)
    requires Inv(w) && Enabled(w, l) && !ClosesInUse(w, l) && Some(t) != Mover(l) && Unfinished(w, t) && Live(w, t)
    requires Mover(l).Some? && l.t in w.turns ==> !Unfinished(w, l.t) || Live(w, l.t)
    ensures Live(Next(w, l), t)
  {
    hide Next, Inv, ClosesInUse;
    OthersStay(w, l, t);
    StepKeepsInUse(w, l);
    LiveTurnBlocks(w, t);
    if OwnSession(w, l).Some? {
      assert Unfinished(w, l.t);
      LiveTurnBlocks(w, l.t);
    }
  }

  lemma CloseDetaches(w: World, l: Label)
    requires Inv(w) && Enabled(w, l) && ClosesInUse(w, l)
    ensures !Attached(Next(w, l))
  {
    var id := l.id;
    if l.TimerFires? {
      PendingIsBusy(w, id);
    }
    BusyHasHolder(w, id);
    var t := w.holder[id];
    ClosedLeavesPool(w, l);
    OthersStay(w, l, t);
    hide Next, Inv, ClosesInUse;
    assert Unfinished(Next(w, l), t) && !Live(Next(w, l), t);
  }

  lemma ClosedLeavesPool(w: World, l: Label)
    requires Enabled(w, l) && ClosesInUse(w, l)
    ensures l.id !in Next(w, l).pool.sessions
  {
  }

  /** Exactly these two steps take a session away from a turn. */
  lemma AttachedIff(w: World, l: Label)
    requires Inv(w) && Enabled(w, l) && Attached(w)
    ensures Attached(Next(w, l)) <==> !ClosesInUse(w, l)
  {
    hide Next, Inv, ClosesInUse, Live;
    if ClosesInUse(w, l) {
      CloseDetaches(w, l);
    } else {
      forall t | Unfinished(Next(w, l), t)
        ensures Live(Next(w, l), t)
      {
        if Some(t) == Mover(l) {
          MoverIsAttached(w, l);
        } else {
          OthersStay(w, l, t);
          assert Unfinished(w, t);
          OtherIsAttached(w, l, t);
        }
      }
    }
  }

  lemma {:induction false} AttachedRun(r: Trace, maxHot: nat, i: nat)
    requires IsRun(r, maxHot) && i <= |r.labels|
    requires forall j | 0 <= j < i :: !ClosesInUse(r.states[j], r.labels[j])
    ensures Attached(r.states[i])
    decreases i
  {
    hide Next, Enabled, Inv, ClosesInUse, Attached;
    if i == 0 {
      assert Attached(r.states[0]) by {
        NothingStarted(maxHot);
      }
    } else {
      AttachedRun(r, maxHot, i - 1);
      Reachable(r, maxHot, i - 1);
      assert StepAt(r, i - 1);
      AttachedIff(r.states[i - 1], r.labels[i - 1]);
    }
  }

  lemma NothingStarted(maxHot: nat)
    ensures Attached(Initial(maxHot))
  {
  }

  /** Over whole runs: every unfinished turn keeps its session at all times if and only if no
      step closes a session in use. */
  lemma AttachedExactly(r: Trace, maxHot: nat, i: nat)
    requires IsRun(r, maxHot) && i <= |r.labels|
    ensures (forall j | 0 <= j <= i :: Attached(r.states[j]))
            <==> (forall j | 0 <= j < i :: !ClosesInUse(r.states[j], r.labels[j]))
  {
    hide Next, Enabled, Inv, ClosesInUse, Attached;
    if forall j | 0 <= j < i :: !ClosesInUse(r.states[j], r.labels[j]) {
      forall j | 0 <= j <= i
        ensures Attached(r.states[j])
      {
        AttachedRun(r, maxHot, j);
      }
    } else {
      var j :| 0 <= j < i && ClosesInUse(r.states[j], r.labels[j]);
      Reachable(r, maxHot, j);
      assert StepAt(r, j);
      CloseDetaches(r.states[j], r.labels[j]);
      assert !Attached(r.states[j + 1]);
    }
  }

  /** One turn at a time: in a run in which no step closes a session in use, no state has two
      unfinished turns of one subagent. */
  lemma OneTurnAtATime(r: Trace, maxHot: nat, i: nat)
    requires IsRun(r, maxHot) && i <= |r.labels|
    requires forall j | 0 <= j < i :: !ClosesInUse(r.states[j], r.labels[j])
    ensures var w := r.states[i];
            forall t, u | Unfinished(w, t) && Unfinished(w, u) && w.turns[t].sub == w.turns[u].sub :: t == u
  {
    hide Next, Enabled, Inv, ClosesInUse, Live;
    AttachedRun(r, maxHot, i);
    OneLiveTurnPerSubagent(r, maxHot, i);
  }

  // ---- what a close lets the next request do ----

  /** Turn `t` is unfinished, and so is another turn of its subagent, on session `id`. */
  ghost predicate Beside(v: World, t: TurnId, id: AdapterId) {
    Unfinished(v, t) && exists u :: u != t && OnSession(v, u, id) && v.turns[u].sub == v.turns[t].sub
  }

  predicate OnSession(v: World, u: TurnId, id: AdapterId) {
    Unfinished(v, u) && Holds(v.turns[u].phase, id)
  }

  /** A turn on a pooled session is the one that has it leased, and of its subagent. */
  lemma OnPooledSession(w: World, u: TurnId, id: AdapterId)
    requires Inv(w) && OnSession(w, u, id) && id in w.pool.sessions
    ensures id in w.pool.busy && w.turns[u].sub == w.pool.sessions[id].subagent && Live(w, u)
  {
    hide MappingInv, OrderInv, HolderInv, CreatorInv;
    assert TurnOk(w, u);
  }

  lemma TimerCloses(w: World, id: AdapterId)
    requires Enabled(w, TimerFires(id)) && Pending(w.pool.sessions, id)
    ensures var v := Next(w, TimerFires(id));
            v.pool == Close(w.pool.(cancelTimers := w.pool.cancelTimers - {id}), id) && v.turns == w.turns
  {
    hide Close;
  }

  lemma TimerMakesRoom(w: World, id: AdapterId)
    requires Inv(w) && Enabled(w, TimerFires(id)) && Pending(w.pool.sessions, id)
    ensures var v := Next(w, TimerFires(id));
            Room(v.pool, w.pool.sessions[id].subagent) && v.turns == w.turns
  {
    hide Inv, Next, Enabled, Close, RepInv, Room;
    RepOfInv(w);
    CancelResumeKeeps(w.pool, id, false);
    CloseRoom(w.pool.(cancelTimers := w.pool.cancelTimers - {id}), id);
    TimerCloses(w, id);
  }

  /** The request after a step that took session `id` out of the pool. */
  lemma StartBeside(w: World, v: World, id: AdapterId, t: TurnId, model: ModelId, task: Option<TaskId>)
    requires Inv(w) && Inv(v) && id in w.pool.sessions && v.turns == w.turns && t !in w.turns
    requires Room(v.pool, w.pool.sessions[id].subagent)
    ensures var x := Next(v, StartTurn(t, w.pool.sessions[id].subagent, model, task));
            Beside(x, t, id) <==> id in w.pool.busy
  {
    hide Inv, Next, Room;
    var sub := w.pool.sessions[id].subagent;
    StartCreates(v, t, sub, model, task);
    var x := Next(v, StartTurn(t, sub, model, task));
    if id in w.pool.busy {
      BusyHasHolder(w, id);
      var u := w.holder[id];
      OnPooledSession(w, u, id);
      assert u != t && OnSession(x, u, id);
    }
    if Beside(x, t, id) {
      var u :| u != t && OnSession(x, u, id) && x.turns[u].sub == x.turns[t].sub;
      OnPooledSession(w, u, id);
    }
  }

  /** When the pool still has the session the next request is refused, or is given it. */
  lemma StartNotBeside(v: World, id: AdapterId, t: TurnId, model: ModelId, task: Option<TaskId>)
    requires Inv(v) && id in v.pool.sessions && t !in v.turns
    ensures !Beside(Next(v, StartTurn(t, v.pool.sessions[id].subagent, model, task)), t, id)
  {
    hide Inv, Next;
    var l := StartTurn(t, v.pool.sessions[id].subagent, model, task);
    var x := Next(v, l);
    if Beside(x, t, id) {
      var u :| u != t && OnSession(x, u, id) && x.turns[u].sub == x.turns[t].sub;
      OthersStay(v, l, u);
      OnPooledSession(v, u, id);
      SecondTurnRefused(v, u, t, model, task);
    }
  }

  /** After a close of a pooled session, a request of its subagent runs beside a turn that
      still has the closed session if and only if the session was busy when it was closed. */
  lemma CloseAdmitsSecondTurnIff(r: Trace, maxHot: nat, i: nat, id: AdapterId, t: TurnId)
    requires IsRun(r, maxHot) && i + 1 < |r.labels|
    requires r.labels[i] == CloseSession(id) && id in r.states[i].pool.sessions
    requires r.labels[i + 1].StartTurn? && r.labels[i + 1].t == t
    requires r.labels[i + 1].sub == r.states[i].pool.sessions[id].subagent
    ensures Beside(r.states[i + 2], t, id) <==> id in r.states[i].pool.busy
  {
    hide Inv, Next, Beside, Room;
    var w, v, l := r.states[i], r.states[i + 1], r.labels[i + 1];
    assert StepAt(r, i) && StepAt(r, i + 1);
    Reachable(r, maxHot, i);
    Reachable(r, maxHot, i + 1);
    MappedBack(w, id);
    CloseMakesRoom(w, w.pool.sessions[id].subagent, id);
    StartBeside(w, v, id, t, l.model, l.task);
  }

  /** The same after the fallback timer of a pooled session: if and only if the cancellation
      was still pending, in which case the timer closes a session in use. */
  lemma TimerAdmitsSecondTurnIff(r: Trace, maxHot: nat, i: nat, id: AdapterId, t: TurnId)
    requires IsRun(r, maxHot) && i + 1 < |r.labels|
    requires r.labels[i] == TimerFires(id) && id in r.states[i].pool.sessions
    requires r.labels[i + 1].StartTurn? && r.labels[i + 1].t == t
    requires r.labels[i + 1].sub == r.states[i].pool.sessions[id].subagent
    ensures Beside(r.states[i + 2], t, id) <==> Pending(r.states[i].pool.sessions, id)
    ensures Pending(r.states[i].pool.sessions, id) ==> id in r.states[i].pool.busy
  {
    hide Inv, Next, Beside, Room;
    var w, v, l := r.states[i], r.states[i + 1], r.labels[i + 1];
    assert StepAt(r, i) && StepAt(r, i + 1);
    Reachable(r, maxHot, i);
    Reachable(r, maxHot, i + 1);
    if Pending(w.pool.sessions, id) {
      PendingIsBusy(w, id);
      TimerMakesRoom(w, id);
      StartBeside(w, v, id, t, l.model, l.task);
    } else {
      TimerEndsQuarantine(w, id);
      StartNotBeside(v, id, t, l.model, l.task);
    }
  }
}
