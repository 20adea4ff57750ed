/** What a turn reports, read off the steps of the run. */
module TurnReports {
  import opened Options
  import opened PiSession
  import opened PoolModel
  import opened TurnProtocol
  import opened SidecarRuns
  import opened CancelGuarantees
  import opened TurnOutcomes

  /** What settles the report of a turn, other than a cancel that was carried out: its factory
      fails, its handler resumes to find the session closed since it was handed out, or the
      SDK call is over. */
  datatype Cause = FactoryFailed | ClosedEarly | SdkEnded(sdk: SdkResult)

  function CauseOf(w: World, l: Label, t: TurnId): Option<Cause> {
    match l
    case FactoryReturns(u, created) => if u == t && created.None? then Some(FactoryFailed) else None
    case HandlerResumes(u) =>
      if u == t && t in w.turns && w.turns[t].phase.Admitted? && w.turns[t].phase.id !in w.pool.sessions
      then Some(ClosedEarly) else None
    case SdkSettles(u, sdk) => if u == t then Some(SdkEnded(sdk)) else None
    case _ => None
  }

  ghost predicate Caused(r: Trace, i: int, t: TurnId, cause: Cause)
    requires i <= |r.labels| && |r.states| == |r.labels| + 1
  {
    exists j :: 0 <= j < i && CauseOf(r.states[j], r.labels[j], t) == Some(cause)
  }

  ghost function LastCause(r: Trace, i: nat, t: TurnId): Option<Cause>
    requires i <= |r.labels| && |r.states| == |r.labels| + 1
    decreases i
  {
    if i == 0 then None
    else
      var cause := CauseOf(r.states[i - 1], r.labels[i - 1], t);
      if cause.Some? then cause else LastCause(r, i - 1, t)
  }

  /** The report a cause leads to. */
  predicate Explains(cause: Option<Cause>, cancelled: bool, result: TurnResult) {
    match cause
    case None => cancelled && result == TurnCancelled
    case Some(FactoryFailed) => result == Failed(Internal)
    case Some(ClosedEarly) => result == Failed(SessionNotFound)
    case Some(SdkEnded(sdk)) =>
      if cancelled then result == TurnCancelled
      else
        match sdk
        case Resolved => result == Completed
        case Threw(e) => result == Failed(e)
        case TimedOut => result == Failed(TaskTimeout)
  }

  predicate ReportFits(w: World, t: TurnId, cause: Option<Cause>) {
    if t !in w.turns then cause.None?
    else match w.turns[t].phase
      case Settled(_, _, result) => cause.Some? && Explains(cause, t in w.cancelled, result)
      case Done(Reported(result)) => Explains(cause, t in w.cancelled, result)
      case _ => cause.None?
  }

  lemma StartReport(w: World, l: Label)
    requires Enabled(w, l) && l.StartTurn?
    ensures ReportFits(Next(w, l), l.t, None)
  {
    hide EnsureBegin;
  }

  lemma FactoryReport(w: World, t: TurnId, created: Option<AdapterId>)
    requires Inv(w) && Enabled(w, FactoryReturns(t, created))
    ensures var v := Next(w, FactoryReturns(t, created));
            v.cancelled == w.cancelled && ReportFits(v, t, if created.None? then Some(FactoryFailed) else None)
  {
    if created.Some? {
      CreationEnds(w, t, created.value);
    }
    hide Inv;
  }

  /** A handler that finds its session pooled stops exactly if the turn was cancelled. */
  lemma ResumeReport(w: World, t: TurnId)
    requires Inv(w) && Enabled(w, HandlerResumes(t))
    ensures var v := Next(w, HandlerResumes(t));
            v.cancelled == w.cancelled
            && ReportFits(v, t, if w.turns[t].phase.id !in w.pool.sessions then Some(ClosedEarly) else None)
  {
    assert TurnOk(w, t);
    hide Inv, FinishTurn;
  }

  lemma SettleReport(w: World, t: TurnId, sdk: SdkResult)
    requires Inv(w) && Enabled(w, SdkSettles(t, sdk))
    ensures var v := Next(w, SdkSettles(t, sdk)); v.cancelled == w.cancelled && ReportFits(v, t, Some(SdkEnded(sdk)))
  {
    assert TurnOk(w, t);
    hide Inv, PutObject;
  }

  lemma MoverReport(w: World, l: Label, t: TurnId, cause: Option<Cause>)
    requires Inv(w) && Enabled(w, l) && Mover(l) == Some(t) && ReportFits(w, t, cause)
    ensures CauseOf(w, l, t).Some? ==> cause.None?
    ensures ReportFits(Next(w, l), t, if CauseOf(w, l, t).Some? then CauseOf(w, l, t) else cause)
  {
    match l {
      case StartTurn(_, _, _, _) =>
        StartReport(w, l);
        hide Next, Inv;
      case FactoryReturns(_, created) =>
        FactoryReport(w, t, created);
        hide Next, Inv;
      case HandlerResumes(_) =>
        ResumeReport(w, t);
        hide Next, Inv;
      case SdkSettles(_, sdk) =>
        SettleReport(w, t, sdk);
        hide Next, Inv;
      case HandlerFinishes(_) =>
        hide FinishTurn, Inv;
    }
  }

  lemma ReportStep(w: World, l: Label, t: TurnId, cause: Option<Cause>)
    requires Inv(w) && Enabled(w, l) && ReportFits(w, t, cause)
    ensures CauseOf(w, l, t).Some? ==> cause.None?
    ensures ReportFits(Next(w, l), t, if CauseOf(w, l, t).Some? then CauseOf(w, l, t) else cause)
  {
    if Mover(l) == Some(t) {
      MoverReport(w, l, t, cause);
    } else {
      hide Next, Inv, Enabled, Explains;
      OthersStay(w, l, t);
      CancelledStep(w, l, t);
    }
  }

  /** A turn has one cause at most, and its report is the one that follows from it. */
  lemma {:induction false} ReportRun(r: Trace, maxHot: nat, i: nat, t: TurnId)
    requires IsRun(r, maxHot) && i <= |r.labels|
    ensures ReportFits(r.states[i], t, LastCause(r, i, t))
    ensures forall cause :: Caused(r, i, t, cause) <==> LastCause(r, i, t) == Some(cause)
    decreases i
  {
    hide Next, Enabled, Inv, CauseOf;
    if i == 0 {
      assert t !in r.states[0].turns;
    } else {
      hide ReportFits;
      ReportRun(r, maxHot, i - 1, t);
      Reachable(r, maxHot, i - 1);
      assert StepAt(r, i - 1);
      var w, l := r.states[i - 1], r.labels[i - 1];
      ReportStep(w, l, t, LastCause(r, i - 1, t));
      forall cause
        ensures Caused(r, i, t, cause) <==> Caused(r, i - 1, t, cause) || CauseOf(w, l, t) == Some(cause)
      {
        CausedStep(r, i, t, cause);
      }
    }
  }

  lemma CausedStep(r: Trace, i: nat, t: TurnId, cause: Cause)
    requires 0 < i <= |r.labels| && |r.states| == |r.labels| + 1
    ensures Caused(r, i, t, cause)
            <==> Caused(r, i - 1, t, cause) || CauseOf(r.states[i - 1], r.labels[i - 1], t) == Some(cause)
  {
    hide CauseOf;
  }

  // ---- the reports, one by one ----

  ghost predicate CancelledBefore(r: Trace, i: int, t: TurnId) {
    exists k :: k < i && CancelAsked(r, k, t)
  }

  /** The SDK call of turn `t` ended so at step `j`, and no cancel had been aimed at the turn. */
  ghost predicate EndedUncancelled(r: Trace, j: int, t: TurnId, sdk: SdkResult) {
    0 <= j < |r.labels| && r.labels[j] == SdkSettles(t, sdk) && !CancelledBefore(r, j, t)
  }

  /** Once the SDK call is over the turn cannot be cancelled any more. */
  lemma {:induction false} NoCancelAfter(r: Trace, maxHot: nat, j: nat, i: nat, t: TurnId, sdk: SdkResult)
    requires IsRun(r, maxHot) && j < i <= |r.labels| && r.labels[j] == SdkSettles(t, sdk)
    ensures t in r.states[i].cancelled <==> t in r.states[j].cancelled
    decreases i
  {
    hide Next, Enabled, Inv, Cancellable, ReportFits;
    assert StepAt(r, i - 1);
    CancelledStep(r.states[i - 1], r.labels[i - 1], t);
    if j < i - 1 {
      NoCancelAfter(r, maxHot, j, i - 1, t, sdk);
      ReportRun(r, maxHot, i - 1, t);
      assert CauseOf(r.states[j], r.labels[j], t) == Some(SdkEnded(sdk));
      assert Caused(r, i - 1, t, SdkEnded(sdk));
      ReportedIsClosed(r.states[i - 1], t, SdkEnded(sdk));
    }
  }

  lemma ReportedIsClosed(w: World, t: TurnId, cause: Cause)
    requires ReportFits(w, t, Some(cause))
    ensures forall sub, task :: !Cancellable(w, t, sub, task)
  {
    hide Explains;
  }

  lemma EndedIff(r: Trace, maxHot: nat, i: nat, t: TurnId, sdk: SdkResult)
    requires IsRun(r, maxHot) && i <= |r.labels|
    ensures (exists j :: j < i && EndedUncancelled(r, j, t, sdk))
            <==> Caused(r, i, t, SdkEnded(sdk)) && t !in r.states[i].cancelled
  {
    hide Next, Enabled, CancelAsked;
    if j :| j < i && EndedUncancelled(r, j, t, sdk) {
      NoCancelAfter(r, maxHot, j, i, t, sdk);
      CancelledMeaning(r, maxHot, j, t);
      assert CauseOf(r.states[j], r.labels[j], t) == Some(SdkEnded(sdk));
    }
    if Caused(r, i, t, SdkEnded(sdk)) && t !in r.states[i].cancelled {
      var j :| 0 <= j < i && CauseOf(r.states[j], r.labels[j], t) == Some(SdkEnded(sdk));
      NoCancelAfter(r, maxHot, j, i, t, sdk);
      CancelledMeaning(r, maxHot, j, t);
      assert EndedUncancelled(r, j, t, sdk);
    }
  }

  lemma ReportOf(r: Trace, maxHot: nat, i: nat, t: TurnId)
    requires IsRun(r, maxHot) && i <= |r.labels| && t in r.states[i].turns && r.states[i].turns[t].phase.Done?
    ensures var outcome := r.states[i].turns[t].phase.outcome;
            match outcome
            case Refused(_) => LastCause(r, i, t) == None && t !in r.states[i].cancelled
            case Reported(result) => Explains(LastCause(r, i, t), t in r.states[i].cancelled, result)
    ensures t in r.states[i].cancelled <==> CancelledBefore(r, i, t)
  {
    hide Next, Enabled, CancelAsked, LastCause, Explains, RepInv;
    ReportRun(r, maxHot, i, t);
    CancelledMeaning(r, maxHot, i, t);
    Reachable(r, maxHot, i);
    assert TurnOk(r.states[i], t);
  }

  /** In every run an answered turn has completed if and only if the SDK resolved its call
      and no cancel had been aimed at it before that. */
  lemma CompletedIff(r: Trace, maxHot: nat, i: nat, t: TurnId)
    requires IsRun(r, maxHot) && i <= |r.labels| && t in r.states[i].turns && r.states[i].turns[t].phase.Done?
    ensures r.states[i].turns[t].phase == Done(Reported(Completed))
            <==> exists j :: j < i && EndedUncancelled(r, j, t, Resolved)
  {
    hide IsRun, LastCause, Caused, EndedUncancelled;
    ReportOf(r, maxHot, i, t);
    ReportRun(r, maxHot, i, t);
    EndedIff(r, maxHot, i, t, Resolved);
  }

  /** The error is the one the SDK threw, or the timeout, if no cancel had been aimed at the
      turn before; else that of the factory, or of a session that was closed early. */
  lemma FailedIff(r: Trace, maxHot: nat, i: nat, t: TurnId, e: ErrorClass)
    requires IsRun(r, maxHot) && i <= |r.labels| && t in r.states[i].turns && r.states[i].turns[t].phase.Done?
    ensures r.states[i].turns[t].phase == Done(Reported(Failed(e)))
            <==> || (exists j :: j < i && EndedUncancelled(r, j, t, Threw(e)))
                 || (e == TaskTimeout && exists j :: j < i && EndedUncancelled(r, j, t, TimedOut))
                 || (e == Internal && Caused(r, i, t, FactoryFailed))
                 || (e == SessionNotFound && Caused(r, i, t, ClosedEarly))
  {
    hide IsRun, LastCause, Caused, EndedUncancelled;
    ReportOf(r, maxHot, i, t);
    ReportRun(r, maxHot, i, t);
    EndedIff(r, maxHot, i, t, Threw(e));
    EndedIff(r, maxHot, i, t, TimedOut);
  }

  /** In every run an answered turn reports TURN_CANCELLED if and only if it was successfully
      cancelled, in whatever phase, and neither its factory failed nor its session was closed
      between the hand-out and the handler's next step. */
  lemma CancelledIff(r: Trace, maxHot: nat, i: nat, t: TurnId)
    requires IsRun(r, maxHot) && i <= |r.labels| && t in r.states[i].turns && r.states[i].turns[t].phase.Done?
    ensures r.states[i].turns[t].phase == Done(Reported(TurnCancelled))
            <==> CancelledBefore(r, i, t) && !Caused(r, i, t, FactoryFailed) && !Caused(r, i, t, ClosedEarly)
  {
    hide IsRun, LastCause, Caused, CancelledBefore;
    ReportOf(r, maxHot, i, t);
    ReportRun(r, maxHot, i, t);
  }

  // ---- every handler step moves its turn on ----

  lemma ResumeMoves(w: World, t: TurnId)
    requires Inv(w) && Enabled(w, HandlerResumes(t))
    ensures var v, id, reused := Next(w, HandlerResumes(t)), w.turns[t].phase.id, w.turns[t].phase.reused;
            && t in v.turns
            && v.turns[t].phase ==
               if id !in w.pool.sessions then Settled(id, reused, Failed(SessionNotFound))
               else if t in w.cancelled then Done(Reported(TurnCancelled))
               else Running(id, reused, w.pool.sessions[id].generation + 1)
  {
    assert TurnOk(w, t);
    hide Inv, FinishTurn;
  }

  /** A handler that resumes with a session starts the SDK call, as a new generation of the
      session, if and only if the pool still has it and no cancel was aimed at the turn; the
      step after the call settles the turn, and the last one answers with that result. */
  lemma HandlerSteps(r: Trace, maxHot: nat, i: nat, t: TurnId)
    requires IsRun(r, maxHot) && i < |r.labels|
    ensures var w, v := r.states[i], r.states[i + 1];
            && (r.labels[i] == HandlerResumes(t) ==>
                  && t in w.turns && t in v.turns && w.turns[t].phase.Admitted?
                  && var id := w.turns[t].phase.id;
                     (v.turns[t].phase.Running? <==> id in w.pool.sessions && !CancelledBefore(r, i, t))
                     && (v.turns[t].phase.Running? ==>
                           v.turns[t].phase
                           == Running(id, w.turns[t].phase.reused, w.pool.sessions[id].generation + 1))
                     && (v.turns[t].phase.Done? <==> id in w.pool.sessions && CancelledBefore(r, i, t)))
            && (r.labels[i] == HandlerFinishes(t) ==>
                  && t in w.turns && t in v.turns && w.turns[t].phase.Settled?
                  && v.turns[t].phase == Done(Reported(w.turns[t].phase.result)))
            && (r.labels[i].SdkSettles? && r.labels[i].t == t ==>
                  && t in w.turns && t in v.turns && w.turns[t].phase.Running?
                  && v.turns[t].phase.Settled? && v.turns[t].phase.id == w.turns[t].phase.id
                  && v.turns[t].phase.reused == w.turns[t].phase.reused)
  {
    hide CancelAsked, FinishTurn, PutObject, Inv, MarkTurnStarted;
    var w, l := r.states[i], r.labels[i];
    assert StepAt(r, i);
    Reachable(r, maxHot, i);
    CancelledMeaning(r, maxHot, i, t);
    if l == HandlerResumes(t) {
      ResumeMoves(w, t);
      hide Next;
    }
  }
}
