/** Runs of one `PiSdkSession` on its own, with turns allowed to overlap.

    The history beside the register is what an observer of the calls would write down:
    which generations are open, under which task each was started, which of them a
    cancel was aimed at, and what each settled turn reported.
  */
module TurnGenerations {
  import opened Options
  import opened PiSession

  datatype Event =
    | Start(task: Option<TaskId>)
    | Cancel(expected: Option<TaskId>)
    | Settle(generation: nat, sdk: SdkResult)
    | Dispose

  datatype History = History(
    session: Session,
    tasks: map<nat, Option<TaskId>>,
    open: set<nat>,
    cancelled: set<nat>,
    reports: map<nat, TurnResult>)

  function Initial(subagent: SubagentId, model: ModelId): History {
    History(NewSession(subagent, model), map[], {}, {}, map[])
  }

  /** A cancel is aimed at the newest turn, when that turn is open and the task matches. */
  predicate Aimed(h: History, expected: Option<TaskId>) {
    var g := h.session.generation;
    g in h.open && g in h.tasks && (expected.None? || h.tasks[g] == expected)
  }

  predicate Enabled(h: History, e: Event) {
    match e
    case Start(_) => !h.session.closed
    case Settle(g, _) => g in h.open
    case _ => true
  }

  function Next(h: History, e: Event): History {
    match e
    case Start(task) =>
      var s := BeginTurn(h.session, task);
      h.(session := s, tasks := h.tasks[s.generation := task], open := h.open + {s.generation})
    case Cancel(expected) =>
      h.(session := Abort(h.session, expected),
         cancelled := h.cancelled + if Aimed(h, expected) then {h.session.generation} else {})
    case Settle(g, sdk) =>
      h.(session := SettleTurn(h.session, g), open := h.open - {g},
         reports := h.reports[g := ResultOf(h.session, g, sdk)])
    case Dispose =>
      h.(session := h.session.(closed := true))
  }

  // Runs grow at the end, so every prefix of a run is a run.

  ghost predicate Run(h: History, events: seq<Event>)
    decreases |events|
  {
    events != [] ==>
      var before := events[..|events| - 1];
      Run(h, before) && Enabled(After(h, before), events[|events| - 1])
  }

  ghost function After(h: History, events: seq<Event>): History
    decreases |events|
  {
    if events == [] then h else Next(After(h, events[..|events| - 1]), events[|events| - 1])
  }

  predicate Inv(h: History) {
    var s := h.session;
    && Coherent(s)
    && h.open <= h.tasks.Keys && h.reports.Keys <= h.tasks.Keys && h.open !! h.reports.Keys
    && (forall g | g in h.tasks :: 0 < g <= s.generation)
    && h.cancelled <= h.tasks.Keys
    && (s.inFlight <==> s.generation in h.open)
    && (s.inFlight ==> s.activeTask == h.tasks[s.generation])
    && (forall g | g in h.cancelled :: g <= s.cancelledGeneration)
    && (s.cancelledGeneration == 0 || s.cancelledGeneration in h.cancelled)
    && (forall g | g in h.reports :: h.reports[g] == TurnCancelled ==> g in h.cancelled)
  }

  lemma InvStep(h: History, e: Event)
    requires Inv(h) && Enabled(h, e)
    ensures Inv(Next(h, e))
  {
  }

  lemma {:induction false} InvRun(h: History, events: seq<Event>)
    requires Inv(h) && Run(h, events)
    ensures Inv(After(h, events))
    decreases |events|
  {
    if events != [] {
      var before := events[..|events| - 1];
      InvRun(h, before);
      InvStep(After(h, before), events[|events| - 1]);
    }
  }

  /** The code accepts a cancel exactly when one is aimed at a turn. */
  lemma {:induction false} AcceptedIffAimed(subagent: SubagentId, model: ModelId, events: seq<Event>,
                                            expected: Option<TaskId>)
    requires Run(Initial(subagent, model), events)
    ensures var h := After(Initial(subagent, model), events);
            AbortAccepted(h.session, expected) <==> Aimed(h, expected)
  {
    InvRun(Initial(subagent, model), events);
  }

  /** Isolation, turns overlapping or not: settling an older generation leaves the whole
      register of the newer turn alone, and settling any generation never cancels. */
  lemma {:induction false} StaleSettleIsInert(subagent: SubagentId, model: ModelId, events: seq<Event>,
                                              g: nat, sdk: SdkResult)
    requires Run(Initial(subagent, model), events)
    ensures var h := After(Initial(subagent, model), events);
            g in h.open && g != h.session.generation
            ==> g < h.session.generation && Next(h, Settle(g, sdk)).session == h.session
  {
    InvRun(Initial(subagent, model), events);
  }

  /** What a settling turn reports, exactly: TURN_CANCELLED if and only if the turn was
      cancelled and no newer turn has been cancelled since. One register remembers one
      cancelled generation, the newest. */
  lemma CancelledReportIff(subagent: SubagentId, model: ModelId, events: seq<Event>, g: nat, sdk: SdkResult)
    requires Run(Initial(subagent, model), events + [Settle(g, sdk)])
    ensures var h := After(Initial(subagent, model), events);
            && After(Initial(subagent, model), events + [Settle(g, sdk)]).reports.Keys >= {g}
            && (After(Initial(subagent, model), events + [Settle(g, sdk)]).reports[g] == TurnCancelled
                <==> g in h.cancelled && forall n | n in h.cancelled :: n <= g)
  {
    var init := Initial(subagent, model);
    assert (events + [Settle(g, sdk)])[..|events|] == events;
    InvRun(init, events);
  }

  /** A turn that reported TURN_CANCELLED had been cancelled, and it had been so by a
      cancel aimed at that very generation. */
  lemma CancelledReportIsEarned(subagent: SubagentId, model: ModelId, events: seq<Event>)
    requires Run(Initial(subagent, model), events)
    ensures var h := After(Initial(subagent, model), events);
            forall g | g in h.reports && h.reports[g] == TurnCancelled :: g in h.cancelled
  {
    InvRun(Initial(subagent, model), events);
  }

  /** Every turn starts only once its predecessors have settled, as the pool arranges. */
  ghost predicate Serialised(h: History, events: seq<Event>)
    decreases |events|
  {
    events != [] ==>
      var before := events[..|events| - 1];
      Serialised(h, before) && (events[|events| - 1].Start? ==> After(h, before).open == {})
  }

  predicate SerialInv(h: History) {
    && Inv(h)
    && (forall g | g in h.open :: g == h.session.generation)
    && (forall g | g in h.reports :: h.reports[g] == TurnCancelled <==> g in h.cancelled)
  }

  lemma {:induction false} SerialRun(h: History, events: seq<Event>)
    requires SerialInv(h) && Run(h, events) && Serialised(h, events)
    ensures SerialInv(After(h, events))
    decreases |events|
  {
    if events != [] {
      var before := events[..|events| - 1];
      SerialRun(h, before);
      InvStep(After(h, before), events[|events| - 1]);
    }
  }

  /** With turns serialised, one register is enough: a settled turn reported
      TURN_CANCELLED if and only if it was cancelled. */
  lemma SerialisedCancelNeverLost(subagent: SubagentId, model: ModelId, events: seq<Event>)
    requires Run(Initial(subagent, model), events) && Serialised(Initial(subagent, model), events)
    ensures var h := After(Initial(subagent, model), events);
            forall g | g in h.reports :: h.reports[g] == TurnCancelled <==> g in h.cancelled
  {
    SerialRun(Initial(subagent, model), events);
  }

  /** Without serialisation a cancel can be lost: two overlapping turns, both cancelled,
      and the older one still reports completed. */
  lemma OverlapLosesCancel(subagent: SubagentId, model: ModelId)
    ensures var events := [Start(None), Cancel(None), Start(None), Cancel(None), Settle(1, Resolved)];
            && Run(Initial(subagent, model), events)
            && var h := After(Initial(subagent, model), events);
               1 in h.cancelled && 1 in h.reports && h.reports[1] == Completed
  {
    var h := Initial(subagent, model);
    var e1 := [Start(None)];
    var e2 := e1 + [Cancel(None)];
    var e3 := e2 + [Start(None)];
    var e4 := e3 + [Cancel(None)];
    var e5 := e4 + [Settle(1, Resolved)];
    assert e1[..0] == [] && e2[..1] == e1 && e3[..2] == e2 && e4[..3] == e3 && e5[..4] == e4;
    assert After(h, e1) == Next(h, Start(None));
    assert After(h, e2) == Next(After(h, e1), Cancel(None));
    assert After(h, e3) == Next(After(h, e2), Start(None));
    assert After(h, e4) == Next(After(h, e3), Cancel(None));
    assert After(h, e5) == Next(After(h, e4), Settle(1, Resolved));
    assert Run(h, e1) && Run(h, e2) && Run(h, e3) && Run(h, e4) && Run(h, e5);
    assert e5 == [Start(None), Cancel(None), Start(None), Cancel(None), Settle(1, Resolved)];
  }
}
