/** What cancelling a turn guarantees, over every interleaving. */
module CancelGuarantees {
  import opened Options
  import opened PiSession
  import opened PoolModel
  import opened TurnProtocol
  import opened SidecarRuns

  /** What has happened stays so. */
  ghost predicate Later(w: World, v: World) {
    && w.cancelled <= v.cancelled
    && (forall t | t in w.turns ::
          && t in v.turns && v.turns[t].sub == w.turns[t].sub && v.turns[t].task == w.turns[t].task
          && (w.turns[t].phase.Done? ==> v.turns[t] == w.turns[t]))
    && (forall c | c in w.cancels :: c in v.cancels && v.cancels[c].hit == w.cancels[c].hit
                                     && (w.cancels[c].Answered? ==> v.cancels[c] == w.cancels[c]))
  }

  /** A step of turn `t` touches no other turn and no request. */
  ghost predicate OnlyTurn(w: World, v: World, t: TurnId) {
    && t in v.turns && v.turns == w.turns[t := v.turns[t]]
    && (t in w.turns ==> v.turns[t].sub == w.turns[t].sub && v.turns[t].task == w.turns[t].task)
    && v.cancels == w.cancels && v.cancelled == w.cancelled
  }

  lemma StartTouches(w: World, t: TurnId, sub: SubagentId, model: ModelId, task: Option<TaskId>)
    requires t !in w.turns
    ensures OnlyTurn(w, NextStart(w, t, sub, model, task), t)
  {
    hide EnsureBegin;
  }

  lemma FactoryTouches(w: World, t: TurnId, created: Option<AdapterId>)
    requires t in w.turns
    ensures OnlyTurn(w, NextFactory(w, t, created), t)
  {
    hide EnsureResume;
  }

  lemma TurnStepTouches(w: World, l: Label)
    requires Enabled(w, l) && (l.HandlerResumes? || l.SdkSettles? || l.HandlerFinishes?)
    ensures OnlyTurn(w, Next(w, l), l.t)
    ensures !w.turns[l.t].phase.Done?
  {
    hide FinishTurn, MarkTurnStarted, PutObject;
  }

  lemma CancelTouches(w: World, c: CancelId, sub: SubagentId, task: Option<TaskId>)
    requires c !in w.cancels
    ensures var v := NextCancel(w, c, sub, task);
            && v.turns == w.turns && v.cancelled == w.cancelled + Aim(w, sub, task)
            && c in v.cancels && v.cancels == w.cancels[c := v.cancels[c]]
            && v.cancels[c].hit == Aim(w, sub, task)
  {
    hide CancelBegin, Aim;
  }

  /** The turn a step is about. */
  function Mover(l: Label): Option<TurnId> {
    match l
    case StartTurn(t, _, _, _) => Some(t)
    case FactoryReturns(t, _) => Some(t)
    case HandlerResumes(t) => Some(t)
    case SdkSettles(t, _) => Some(t)
    case HandlerFinishes(t) => Some(t)
    case _ => None
  }

  lemma OthersStay(w: World, l: Label, t: TurnId)
    requires Enabled(w, l) && Some(t) != Mover(l)
    ensures t in Next(w, l).turns <==> t in w.turns
    ensures t in w.turns ==> Next(w, l).turns[t] == w.turns[t]
  {
    match l {
      case StartTurn(t, sub, model, task) => StartTouches(w, t, sub, model, task);
      case FactoryReturns(t, created) => FactoryTouches(w, t, created);
      case RequestCancel(c, sub, task) => CancelTouches(w, c, sub, task);
      case HandlerResumes(_) => TurnStepTouches(w, l);
      case SdkSettles(_, _) => TurnStepTouches(w, l);
      case HandlerFinishes(_) => TurnStepTouches(w, l);
      case _ =>
    }
    hide NextStart, NextFactory, NextResume, NextSettle, NextFinish, NextCancel;
  }

  lemma LaterStep(w: World, l: Label)
    requires Enabled(w, l)
    ensures Later(w, Next(w, l))
  {
    match l {
      case StartTurn(t, sub, model, task) => StartTouches(w, t, sub, model, task);
      case FactoryReturns(t, created) => FactoryTouches(w, t, created);
      case RequestCancel(c, sub, task) => CancelTouches(w, c, sub, task);
      case HandlerResumes(_) => TurnStepTouches(w, l);
      case SdkSettles(_, _) => TurnStepTouches(w, l);
      case HandlerFinishes(_) => TurnStepTouches(w, l);
      case _ =>
    }
    hide NextStart, NextFactory, NextResume, NextSettle, NextFinish, NextCancel;
  }

  lemma CancelledStep(w: World, l: Label, t: TurnId)
    requires Enabled(w, l)
    ensures t in Next(w, l).cancelled <==>
            t in w.cancelled || (l.RequestCancel? && Cancellable(w, t, l.sub, l.task))
  {
    match l {
      case StartTurn(t, sub, model, task) => StartTouches(w, t, sub, model, task);
      case FactoryReturns(t, created) => FactoryTouches(w, t, created);
      case RequestCancel(c, sub, task) => CancelTouches(w, c, sub, task);
      case HandlerResumes(_) => TurnStepTouches(w, l);
      case SdkSettles(_, _) => TurnStepTouches(w, l);
      case HandlerFinishes(_) => TurnStepTouches(w, l);
      case _ =>
    }
    hide NextStart, NextFactory, NextResume, NextSettle, NextFinish, NextCancel;
  }

  lemma {:induction false} LaterRun(r: Trace, maxHot: nat, i: nat, j: nat)
    requires IsRun(r, maxHot) && i <= j <= |r.labels|
    ensures Later(r.states[i], r.states[j])
    decreases j
  {
    hide Next, Enabled, Initial;
    if i < j {
      LaterRun(r, maxHot, i, j - 1);
      assert StepAt(r, j - 1);
      LaterStep(r.states[j - 1], r.labels[j - 1]);
    }
  }

  /** The step at position `k` asked to cancel turn `t` while it could be cancelled. */
  ghost predicate CancelAsked(r: Trace, k: int, t: TurnId) {
    && 0 <= k < |r.labels| && k < |r.states|
    && r.labels[k].RequestCancel?
    && Cancellable(r.states[k], t, r.labels[k].sub, r.labels[k].task)
  }

  lemma {:induction false} CancelledMeaning(r: Trace, maxHot: nat, i: nat, t: TurnId)
    requires IsRun(r, maxHot) && i <= |r.labels|
    ensures t in r.states[i].cancelled <==> exists k :: k < i && CancelAsked(r, k, t)
    decreases i
  {
    hide Next, Enabled, Cancellable;
    if i > 0 {
      CancelledMeaning(r, maxHot, i - 1, t);
      assert StepAt(r, i - 1);
      CancelledStep(r.states[i - 1], r.labels[i - 1], t);
      if exists k :: k < i && CancelAsked(r, k, t) {
        var k :| k < i && CancelAsked(r, k, t);
        assert k < i - 1 || k == i - 1;
      }
      assert CancelAsked(r, i - 1, t) <==>
             (r.labels[i - 1].RequestCancel?
              && Cancellable(r.states[i - 1], t, r.labels[i - 1].sub, r.labels[i - 1].task));
    }
  }

  lemma AtMostOne<T>(s: set<T>, a: T, b: T)
    requires |s| <= 1 && a in s && b in s
    ensures a == b
  {
    if a != b {
      SubsetSize({a, b}, s);
    }
  }

  /** No cancel is lost. In every run, for every cancel request, made at position `i`, and
      every later position `j`: the request has been answered yes only if some turn could
      be cancelled when it arrived, and no only if none could; there is at most one such
      turn; and that turn has not completed, and never will. */
  lemma NoLostCancel(r: Trace, maxHot: nat, i: nat, j: nat)
    requires IsRun(r, maxHot) && i < j <= |r.labels| && r.labels[i].RequestCancel?
    ensures var RequestCancel(c, sub, task) := r.labels[i];
            var w := r.states[i];
            var v := r.states[j];
            && c in v.cancels
            && (v.cancels[c].Answered? ==> (v.cancels[c].accepted <==> exists t :: Cancellable(w, t, sub, task)))
            && (forall t | Cancellable(w, t, sub, task) ::
                  t in v.turns && v.turns[t].phase != Done(Reported(Completed)))
            && (forall t, u | Cancellable(w, t, sub, task) && Cancellable(w, u, sub, task) :: t == u)
  {
    hide Next, Enabled, Cancellable, Aim;
    var RequestCancel(c, sub, task) := r.labels[i];
    assert StepAt(r, i);
    RequestRecordsAim(r.states[i], r.labels[i]);
    LaterRun(r, maxHot, i + 1, j);
    Reachable(r, maxHot, j);
    AimIsKept(r.states[i + 1], r.states[j], c);
    AimIsCancellable(r.states[i], sub, task);
  }

  lemma RequestRecordsAim(w: World, l: Label)
    requires Enabled(w, l) && l.RequestCancel?
    ensures var v := Next(w, l); l.c in v.cancels && v.cancels[l.c].hit == Aim(w, l.sub, l.task)
  {
    CancelTouches(w, l.c, l.sub, l.task);
    hide NextCancel;
  }

  lemma AimIsCancellable(w: World, sub: SubagentId, task: Option<TaskId>)
    ensures forall t :: t in Aim(w, sub, task) <==> Cancellable(w, t, sub, task)
  {
  }

  /** The turns a request hit, in any later state. */
  lemma AimIsKept(u: World, v: World, c: CancelId)
    requires Later(u, v) && Inv(v) && c in u.cancels
    ensures c in v.cancels && v.cancels[c].hit == u.cancels[c].hit
    ensures v.cancels[c].Answered? ==> (v.cancels[c].accepted <==> exists t :: t in v.cancels[c].hit)
    ensures forall t | t in v.cancels[c].hit :: t in v.turns && v.turns[t].phase != Done(Reported(Completed))
    ensures forall t, x | t in v.cancels[c].hit && x in v.cancels[c].hit :: t == x
  {
    hide RepInv;
    var hit := v.cancels[c].hit;
    forall t | t in hit
      ensures t in v.turns && v.turns[t].phase != Done(Reported(Completed))
    {
      assert t in v.cancelled;
      assert TurnOk(v, t);
    }
    forall t, x | t in hit && x in hit
      ensures t == x
    {
      AtMostOne(hit, t, x);
    }
  }

  /** The converse, for what a turn reports: a completed turn was never successfully
      cancelled, and TURN_CANCELLED is reported only for a turn that was. */
  lemma ReportsAreHonest(r: Trace, maxHot: nat, i: nat, t: TurnId)
    requires IsRun(r, maxHot) && i <= |r.labels| && t in r.states[i].turns
    ensures var phase := r.states[i].turns[t].phase;
            && (phase == Done(Reported(Completed)) ==> forall k | k < i :: !CancelAsked(r, k, t))
            && (phase == Done(Reported(TurnCancelled)) ==> exists k :: k < i && CancelAsked(r, k, t))
            && (phase.Done? && phase.outcome.Refused? ==> forall k | k < i :: !CancelAsked(r, k, t))
  {
    Reachable(r, maxHot, i);
    CancelledMeaning(r, maxHot, i, t);
    assert TurnOk(r.states[i], t);
  }

  /** While the SDK runs, a cancelled turn has only one way to end: however the SDK
      settles, late success and timeout included, the turn reports TURN_CANCELLED, and it
      does so exactly if it was cancelled. */
  lemma RunningTurnReportsCancel(r: Trace, maxHot: nat, i: nat)
    requires IsRun(r, maxHot) && i < |r.labels| && r.labels[i].SdkSettles?
    ensures var t := r.labels[i].t;
            && t in r.states[i + 1].turns && r.states[i + 1].turns[t].phase.Settled?
            && (r.states[i + 1].turns[t].phase.result == TurnCancelled <==> exists k :: k < i && CancelAsked(r, k, t))
  {
    Reachable(r, maxHot, i);
    assert StepAt(r, i);
    SettleReports(r.states[i], r.labels[i].t, r.labels[i].sdk);
    CancelledMeaning(r, maxHot, i, r.labels[i].t);
    hide Inv, NextSettle, CancelAsked, Cancellable;
  }

  lemma SettleReports(w: World, t: TurnId, sdk: SdkResult)
    requires Inv(w) && Enabled(w, SdkSettles(t, sdk))
    ensures var v := Next(w, SdkSettles(t, sdk));
            && t in v.turns && v.turns[t].phase.Settled?
            && (v.turns[t].phase.result == TurnCancelled <==> t in w.cancelled)
  {
    assert TurnOk(w, t);
  }

  // ---- one turn at a time for each subagent ----

  /** A turn that is creating its session or uses one the pool still has. */
  predicate Live(w: World, t: TurnId) {
    && t in w.turns
    && match w.turns[t].phase
       case Creating => true
       case Admitted(id, _) => id in w.pool.sessions
       case Running(id, _, _) => id in w.pool.sessions
       case Settled(id, _, _) => id in w.pool.sessions
       case Done(_) => false
  }

  lemma LiveTurnBlocks(w: World, t: TurnId)
    requires Inv(w) && Live(w, t)
    ensures var turn := w.turns[t];
            if turn.phase.Creating? then
              turn.sub in w.pool.creating && turn.sub !in w.pool.subagents && w.creator[turn.sub] == t
            else
              turn.sub in w.pool.subagents && w.pool.subagents[turn.sub] == turn.phase.id
              && turn.phase.id in w.pool.busy && w.holder[turn.phase.id] == t
  {
    assert TurnOk(w, t);
  }

  /** In every reachable state the pool and the creations in progress fit in `maxHot`, and
      no two live turns belong to one subagent. */
  lemma OneLiveTurnPerSubagent(r: Trace, maxHot: nat, i: nat)
    requires IsRun(r, maxHot) && i <= |r.labels|
    ensures var w := r.states[i];
            && |w.pool.sessions| + |w.pool.creating| <= maxHot
            && forall t, u | Live(w, t) && Live(w, u) && w.turns[t].sub == w.turns[u].sub :: t == u
  {
    Reachable(r, maxHot, i);
    MaxHotFixed(r, maxHot, i);
    var w := r.states[i];
    forall t, u | Live(w, t) && Live(w, u) && w.turns[t].sub == w.turns[u].sub
      ensures t == u
    {
      LiveTurnBlocks(w, t);
      LiveTurnBlocks(w, u);
    }
  }

  /** A request for a subagent with a live turn is refused as all-busy. */
  lemma SecondTurnRefused(w: World, t: TurnId, u: TurnId, model: ModelId, task: Option<TaskId>)
    requires Inv(w) && Live(w, t) && u !in w.turns
    ensures EnsureBegin(w.pool, w.now, w.turns[t].sub, model, task, true).1 == AllBusy
    ensures Next(w, StartTurn(u, w.turns[t].sub, model, task)).turns
            == w.turns[u := Turn(w.turns[t].sub, task, model, Done(Refused(None)))]
  {
    hide Inv, Miss, Housekeep;
    LiveTurnBlocks(w, t);
    StillBlocked(w, w.turns[t].sub);
    assert EnsureBegin(w.pool, w.now, w.turns[t].sub, model, task, true).1 == AllBusy by {
      MissWhileCreating(Housekeep(w.pool, w.now), w.now, w.turns[t].sub, task);
    }
  }

  lemma MissWhileCreating(p: Pool, now: int, sub: SubagentId, task: Option<TaskId>)
    ensures sub in p.creating ==> Miss(p, now, sub, task).1 == AllBusy
  {
    hide LruCandidate;
  }

  /** Housekeeping lets go of neither a creation nor a session in use. */
  lemma StillBlocked(w: World, sub: SubagentId)
    requires Inv(w)
    ensures var h := Housekeep(w.pool, w.now);
            && h.creating == w.pool.creating && h.busy <= w.pool.busy
            && (forall x | x in h.subagents :: x in w.pool.subagents)
            && (sub in w.pool.subagents && w.pool.subagents[sub] in w.pool.busy ==>
                  && sub in h.subagents && h.subagents[sub] == w.pool.subagents[sub]
                  && h.subagents[sub] in h.busy && h.subagents[sub] in h.sessions)
  {
    hide ProtocolInv;
    HousekeepKeeps(w.pool, w.now);
    var p := ReleaseExpiredEvictions(w.pool, w.now);
    if sub in w.pool.subagents && w.pool.subagents[sub] in w.pool.busy {
      var id := w.pool.subagents[sub];
      assert id !in ExpiredPending(p, w.now);
      assert id in CloseAll(p, ExpiredPending(p, w.now)).sessions;
    }
  }

  lemma {:induction false} MaxHotFixed(r: Trace, maxHot: nat, i: nat)
    requires IsRun(r, maxHot) && i <= |r.labels|
    ensures r.states[i].pool.maxHot == maxHot
    decreases i
  {
    hide Next, Enabled;
    if i > 0 {
      MaxHotFixed(r, maxHot, i - 1);
      assert StepAt(r, i - 1);
      MaxHotStep(r.states[i - 1], r.labels[i - 1]);
    }
  }

  lemma MaxHotStep(w: World, l: Label)
    requires Enabled(w, l)
    ensures Next(w, l).pool.maxHot == w.pool.maxHot
  {
    hide FinishTurn, PutObject, Close, EnsureBegin, EnsureResume, CancelBegin, CancelTimerFires, Aim;
  }
}
