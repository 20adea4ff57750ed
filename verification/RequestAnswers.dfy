/** What a request for a turn is answered, in every reachable state, in terms of the state
    it finds and of nothing else. */
module RequestAnswers {
  import opened Options
  import opened PiSession
  import opened PoolModel
  import opened TurnProtocol
  import opened SidecarRuns
  import opened EvictionGuarantees
  import opened TimeGuarantees
  import opened LruOrder
  import opened TurnOutcomes

  /** The session waits to be activated, runs no turn, and has done so for over a minute. */
  predicate Orphaned(p: Pool, now: int, id: AdapterId) {
    id in p.pending && id !in p.busy && id in p.pendingSince && now - p.pendingSince[id] > 60_000
  }

  predicate Owns(p: Pool, now: int, sub: SubagentId, id: AdapterId) {
    id in p.sessions && p.sessions[id].subagent == sub && !Orphaned(p, now, id)
  }

  /** No turn, no pending cancellation, and no reservation of the last two minutes. */
  predicate Free(p: Pool, now: int, id: AdapterId) {
    && id in p.sessions && id !in p.busy && !p.sessions[id].cancellationPending
    && !(id in p.evicting && now - p.evicting[id] < 120_000)
  }

  function Kept(p: Pool, now: int): set<AdapterId> {
    set id | id in p.sessions && !Orphaned(p, now, id)
  }

  predicate Full(p: Pool, now: int) {
    |Kept(p, now)| + |p.creating| >= p.maxHot
  }

  // ---- the pool after housekeeping ----

  /** `id` is the subagent's session, in terms of the pool after housekeeping. */
  predicate Mapped(p: Pool, sub: SubagentId, id: AdapterId) {
    sub in p.subagents && p.subagents[sub] == id
  }

  predicate Unused(p: Pool, id: AdapterId) {
    !Quarantined(p, id) && id !in p.busy
  }

  lemma OwnsIsMapped(p: Pool, now: int, sub: SubagentId, id: AdapterId)
    requires RepInv(p)
    ensures var h := Housekeep(p, now);
            && (Owns(p, now, sub, id) <==> Mapped(h, sub, id))
            && (Owns(p, now, sub, id) ==>
                  && id in h.sessions && h.sessions[id] == p.sessions[id]
                  && (Free(p, now, id) <==> Unused(h, id)))
  {
    hide RepInv, Housekeep;
    HousekeepKeeps(p, now);
    HousekeepIs(p, now);
    var h := Housekeep(p, now);
    if id in h.sessions {
      MappedIff(h, sub, id);
      HousekeepKeepsRegisters(p, now, id);
    } else if sub in h.subagents {
      MappedIsPooled(h, sub);
    }
  }

  lemma FullIs(p: Pool, now: int)
    requires RepInv(p)
    ensures var h := Housekeep(p, now); Full(p, now) <==> |h.sessions| + |h.creating| >= h.maxHot
    ensures Housekeep(p, now).creating == p.creating
  {
    hide RepInv, Housekeep, ExpiredPending, Kept;
    HousekeepIs(p, now);
    KeptAre(p, now);
    var h := Housekeep(p, now);
    assert |h.sessions| == |h.sessions.Keys|;
  }

  lemma KeptAre(p: Pool, now: int)
    ensures (p.sessions - ExpiredPending(p, now)).Keys == Kept(p, now)
  {
  }

  // ---- the four answers of `ensure` after housekeeping ----

  lemma MissAnswer(p: Pool, now: int, sub: SubagentId, task: Option<TaskId>)
    ensures var answer := Miss(p, now, sub, task).1;
            && !answer.Hit?
            && (answer.Create? <==> sub !in p.creating && |p.sessions| + |p.creating| < p.maxHot)
  {
    hide LruCandidate;
  }

  lemma AdmitAnswer(p: Pool, now: int, sub: SubagentId, model: ModelId, task: Option<TaskId>)
    requires RepInv(p)
    ensures var answer := Admit(p, now, sub, model, task, true).1;
            if sub in p.subagents then
              var id := p.subagents[sub];
              && id in p.sessions && sub !in p.creating
              && answer == if !Unused(p, id) then AllBusy
                           else if p.sessions[id].model == model then Hit(id)
                           else Create
            else
              && !answer.Hit?
              && (answer.Create? <==> sub !in p.creating && |p.sessions| + |p.creating| < p.maxHot)
  {
    hide RepInv, Miss, Close, Quarantined, Touch, AcquireTurn;
    if sub in p.subagents {
      MappedIsPooled(p, sub);
      ClosedCreates(p, now, sub, task);
      NotCreating(p, sub);
    } else {
      MissAnswer(p, now, sub, task);
    }
  }

  lemma NotCreating(p: Pool, sub: SubagentId)
    requires RepInv(p) && sub in p.subagents
    ensures sub !in p.creating
  {
    hide MappingInv, OrderInv, LivenessInv;
  }

  /** The answers in the terms above. */
  lemma EnsureAnswer(p: Pool, now: int, sub: SubagentId, model: ModelId, task: Option<TaskId>)
    requires RepInv(p)
    ensures var answer := EnsureBegin(p, now, sub, model, task, true).1;
            && (forall id :: answer == Hit(id) <==>
                  Owns(p, now, sub, id) && Free(p, now, id) && p.sessions[id].model == model)
            && (answer.Create? <==>
                  if exists id :: Owns(p, now, sub, id) then
                    exists id :: Owns(p, now, sub, id) && Free(p, now, id) && p.sessions[id].model != model
                  else sub !in p.creating && !Full(p, now))
    ensures sub in p.creating || (exists id :: Owns(p, now, sub, id)) <==>
            sub in p.creating || sub in Housekeep(p, now).subagents
  {
    hide RepInv, Housekeep, Admit, Owns, Free, Unused, Full;
    var h := Housekeep(p, now);
    HousekeepKeeps(p, now);
    EnsureIs(p, now, sub, model, task);
    AdmitAnswer(h, now, sub, model, task);
    FullIs(p, now);
    forall id
      ensures Owns(p, now, sub, id) <==> Mapped(h, sub, id)
      ensures Owns(p, now, sub, id) ==>
                id in p.sessions && id in h.sessions && h.sessions[id] == p.sessions[id]
                && (Free(p, now, id) <==> Unused(h, id))
    {
      OwnsIsMapped(p, now, sub, id);
      OwnsPooled(p, now, sub, id);
    }
    if sub in h.subagents {
      var own := h.subagents[sub];
      assert Mapped(h, sub, own);
      assert Owns(p, now, sub, own);
    }
  }

  lemma OwnsPooled(p: Pool, now: int, sub: SubagentId, id: AdapterId)
    ensures Owns(p, now, sub, id) ==> id in p.sessions
  {
  }

  // ---- over whole runs ----

  /** The phase a request leaves its turn in says what it was answered. */
  lemma AnswerIs(w: World, l: Label)
    requires Enabled(w, l) && l.StartTurn?
    ensures var v, answer := Next(w, l), EnsureBegin(w.pool, w.now, l.sub, l.model, l.task, true).1;
            && l.t in v.turns
            && v.turns[l.t] == Turn(l.sub, l.task, l.model, v.turns[l.t].phase)
            && v.turns[l.t].phase ==
               match answer
               case Hit(id) => Admitted(id, true)
               case Create => Creating
               case LimitReached(candidate) => Done(Refused(Some(candidate)))
               case AllBusy => Done(Refused(None))
  {
    hide EnsureBegin;
  }

  lemma PhaseOf(r: Trace, maxHot: nat, i: nat)
    requires IsRun(r, maxHot) && i < |r.labels| && r.labels[i].StartTurn?
    ensures var w, l := r.states[i], r.labels[i];
            var answer := EnsureBegin(w.pool, w.now, l.sub, l.model, l.task, true).1;
            && l.t in r.states[i + 1].turns
            && r.states[i + 1].turns[l.t].phase ==
               match answer
               case Hit(id) => Admitted(id, true)
               case Create => Creating
               case LimitReached(candidate) => Done(Refused(Some(candidate)))
               case AllBusy => Done(Refused(None))
    ensures RepInv(r.states[i].pool)
  {
    hide Next, Enabled, Inv, EnsureBegin, RepInv;
    assert StepAt(r, i);
    Reachable(r, maxHot, i);
    RepOfInv(r.states[i]);
    AnswerIs(r.states[i], r.labels[i]);
  }

  /** A request is handed a session if and only if it is one of its subagent, bound to the
      model asked for, that is free and no orphan. */
  lemma ReusedIff(r: Trace, maxHot: nat, i: nat, id: AdapterId)
    requires IsRun(r, maxHot) && i < |r.labels| && r.labels[i].StartTurn?
    ensures var w, l := r.states[i], r.labels[i];
            && l.t in r.states[i + 1].turns
            && (r.states[i + 1].turns[l.t].phase == Admitted(id, true)
                <==> Owns(w.pool, w.now, l.sub, id) && Free(w.pool, w.now, id) && w.pool.sessions[id].model == l.model)
  {
    hide Next, Enabled, Initial, EnsureBegin, RepInv, Owns, Free, Full;
    PhaseOf(r, maxHot, i);
    var w, l := r.states[i], r.labels[i];
    EnsureAnswer(w.pool, w.now, l.sub, l.model, l.task);
    OwnsPooled(w.pool, w.now, l.sub, id);
  }

  /** A request starts a creation if and only if its subagent has a free session of another
      model, or has none, no creation in progress, and the pool is not full. */
  lemma CreatesIff(r: Trace, maxHot: nat, i: nat)
    requires IsRun(r, maxHot) && i < |r.labels| && r.labels[i].StartTurn?
    ensures var w, l := r.states[i], r.labels[i];
            && l.t in r.states[i + 1].turns
            && (r.states[i + 1].turns[l.t].phase == Creating
                <==> if exists id :: Owns(w.pool, w.now, l.sub, id) then
                       exists id :: Owns(w.pool, w.now, l.sub, id) && Free(w.pool, w.now, id)
                                    && w.pool.sessions[id].model != l.model
                     else l.sub !in w.pool.creating && !Full(w.pool, w.now))
  {
    hide Next, Enabled, Initial, EnsureBegin, RepInv, Owns, Free, Full;
    PhaseOf(r, maxHot, i);
    var w, l := r.states[i], r.labels[i];
    EnsureAnswer(w.pool, w.now, l.sub, l.model, l.task);
    forall id
      ensures Owns(w.pool, w.now, l.sub, id) ==> id in w.pool.sessions
    {
      OwnsPooled(w.pool, w.now, l.sub, id);
    }
  }

  /** The pool is full for the subagent: it has no session and no creation to wait for. */
  ghost predicate FullFor(w: World, sub: SubagentId) {
    sub !in w.pool.creating && (forall id :: !Owns(w.pool, w.now, sub, id)) && Full(w.pool, w.now)
  }

  ghost predicate OldestEvictable(r: Trace, i: nat, id: AdapterId)
    requires i <= |r.labels| && |r.states| == |r.labels| + 1
  {
    && Evictable(r.states[i].pool, r.states[i].now, id)
    && forall x | Evictable(r.states[i].pool, r.states[i].now, x) && x != id :: LastUse(r, i, id) < LastUse(r, i, x)
  }

  /** A request is told a candidate if and only if the pool is full for its subagent, and then
      it is the evictable session that was used longest ago. */
  lemma CandidateIff(r: Trace, maxHot: nat, i: nat, id: AdapterId)
    requires IsRun(r, maxHot) && i < |r.labels| && r.labels[i].StartTurn?
    ensures ToldCandidate(r.states[i + 1], r.labels[i], id)
            <==> FullFor(r.states[i], r.labels[i].sub) && OldestEvictable(r, i, id)
  {
    hide Next, Enabled, Initial, EnsureBegin, RepInv, Owns, Free, Full, Evictable, LastUse, Pick, Engaged, Inv,
      Housekeep;
    var w, l := r.states[i], r.labels[i];
    PhaseOf(r, maxHot, i);
    EnsureAnswer(w.pool, w.now, l.sub, l.model, l.task);
    Reachable(r, maxHot, i);
    PicksOf(w, l);
    EngagedIs(w, l.sub);
    PickIsLeast(r, maxHot, i);
  }

  lemma EngagedIs(w: World, sub: SubagentId)
    ensures Engaged(w, sub) <==> sub in w.pool.creating || sub in Housekeep(w.pool, w.now).subagents
  {
  }

  /** A request is refused as all-busy if and only if its subagent is having a session
      created, or has one that is not free, or the pool is full and nothing can be evicted. */
  lemma AllBusyIff(r: Trace, maxHot: nat, i: nat)
    requires IsRun(r, maxHot) && i < |r.labels| && r.labels[i].StartTurn?
    ensures var w, l := r.states[i], r.labels[i];
            RefusedAllBusy(r.states[i + 1], l)
            <==> || l.sub in w.pool.creating
                 || (exists id :: Owns(w.pool, w.now, l.sub, id) && !Free(w.pool, w.now, id))
                 || (FullFor(w, l.sub) && forall id :: !Evictable(w.pool, w.now, id))
  {
    hide Next, Enabled, Initial, EnsureBegin, RepInv, Owns, Free, Full, Evictable, LastUse, Pick, Engaged, Inv,
      Housekeep;
    var w, l := r.states[i], r.labels[i];
    PhaseOf(r, maxHot, i);
    EnsureAnswer(w.pool, w.now, l.sub, l.model, l.task);
    Reachable(r, maxHot, i);
    PicksOf(w, l);
    EngagedIs(w, l.sub);
    PickIsLeast(r, maxHot, i);
    OneOwned(w, l.sub);
  }

  /** A subagent has one session at most, and none while one is being created for it. */
  lemma OneOwned(w: World, sub: SubagentId)
    requires Inv(w)
    ensures forall x, y | Owns(w.pool, w.now, sub, x) && Owns(w.pool, w.now, sub, y) :: x == y
    ensures forall x | Owns(w.pool, w.now, sub, x) :: sub !in w.pool.creating && x in w.pool.sessions
  {
    hide ProtocolInv, OrderInv, LivenessInv, BusyInv;
  }

  // ---- `ensure` for callers that run no turn ----

  lemma AdmitWithoutTurn(p: Pool, now: int, sub: SubagentId, model: ModelId, task: Option<TaskId>)
    ensures var (q, answer) := Admit(p, now, sub, model, task, false);
            && Admit(p, now, sub, model, task, true).1 == answer
            && Admit(p, now, sub, model, task, true).0 ==
               if answer.Hit? then
                 q.(busy := q.busy + {answer.id}, leases := q.leases[answer.id := Lease(task, false, false)])
               else q
  {
    hide Miss, Close, Quarantined, ToFront;
    MissIsNoHit(p, now, sub, task);
    if sub in p.subagents {
      MissIsNoHit(p.(subagents := p.subagents - {sub}), now, sub, task);
      MissIsNoHit(Close(p, p.subagents[sub]), now, sub, task);
    }
  }

  /** The plain `ensure` answers as it does for a turn and leaves the same pool, but for the
      busy mark and the lease of the session handed out or created. */
  lemma EnsureWithoutTurn(p: Pool, now: int, sub: SubagentId, model: ModelId, task: Option<TaskId>)
    ensures var (q, answer) := EnsureBegin(p, now, sub, model, task, false);
            && EnsureBegin(p, now, sub, model, task, true).1 == answer
            && EnsureBegin(p, now, sub, model, task, true).0 ==
               if answer.Hit? then
                 q.(busy := q.busy + {answer.id}, leases := q.leases[answer.id := Lease(task, false, false)])
               else q
    ensures forall created ::
              var (q, creation) := EnsureResume(p, now, sub, model, task, false, created);
              && EnsureResume(p, now, sub, model, task, true, created).1 == creation
              && EnsureResume(p, now, sub, model, task, true, created).0 ==
                 if creation.Published? then
                   q.(busy := q.busy + {creation.id}, leases := q.leases[creation.id := Lease(task, false, false)])
                 else q
  {
    AdmitWithoutTurn(Housekeep(p, now), now, sub, model, task);
    hide Admit, Housekeep;
  }
}
