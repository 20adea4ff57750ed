/** The `lru` array is the active sessions in order of last use. */
module LruOrder {
  import opened Options
  import opened PiSession
  import opened PoolModel
  import opened TurnProtocol
  import opened SidecarRuns
  import opened EvictionGuarantees
  import opened TimeGuarantees

  /** An active session is used when it is activated and whenever a turn is handed it. */
  predicate Uses(w: World, l: Label, id: AdapterId) {
    match l
    case ActivateSession(x) => x == id && id in w.pool.pending && id !in w.pool.lru
    case StartTurn(_, sub, model, task) =>
      id in w.pool.lru && EnsureBegin(w.pool, w.now, sub, model, task, true).1 == Hit(id)
    case _ => false
  }

  /** The position of the last step before `i` that used `id`, -1 if there is none. */
  ghost function LastUse(r: Trace, i: nat, id: AdapterId): int
    requires i <= |r.labels| && |r.states| == |r.labels| + 1
    decreases i
  {
    if i == 0 then -1
    else if Uses(r.states[i - 1], r.labels[i - 1], id) then i - 1
    else LastUse(r, i - 1, id)
  }

  lemma {:induction false} LastUseBefore(r: Trace, i: nat, id: AdapterId)
    requires i <= |r.labels| && |r.states| == |r.labels| + 1
    ensures LastUse(r, i, id) < i
    decreases i
  {
    hide Uses;
    if i > 0 {
      LastUseBefore(r, i - 1, id);
    }
  }

  /** Strictly most recently used first. */
  ghost predicate ByRecency(r: Trace, i: nat, s: seq<AdapterId>)
    requires i <= |r.labels| && |r.states| == |r.labels| + 1
  {
    forall a, b | 0 <= a < b < |s| :: LastUse(r, i, s[a]) > LastUse(r, i, s[b])
  }

  lemma {:induction false} WithoutKeepsOrder(r: Trace, i: nat, s: seq<AdapterId>, gone: set<AdapterId>)
    requires i <= |r.labels| && |r.states| == |r.labels| + 1 && ByRecency(r, i, s)
    ensures ByRecency(r, i, Without(s, gone))
    decreases |s|
  {
    hide LastUse;
    if s != [] {
      WithoutKeepsOrder(r, i, s[1..], gone);
      assert forall x | x in s[1..] :: LastUse(r, i, s[0]) > LastUse(r, i, x);
    }
  }

  // ---- what an operation does to the array ----

  ghost predicate Trimmed(s: seq<AdapterId>, t: seq<AdapterId>) {
    exists gone :: t == Without(s, gone)
  }

  lemma {:induction false} WithoutNothing(s: seq<AdapterId>)
    ensures Without(s, {}) == s
  {
    if s != [] {
      WithoutNothing(s[1..]);
    }
  }

  lemma TrimTransitive(s: seq<AdapterId>, t: seq<AdapterId>, u: seq<AdapterId>)
    requires Trimmed(s, t) && Trimmed(t, u)
    ensures Trimmed(s, u)
  {
    var a :| t == Without(s, a);
    var b :| u == Without(t, b);
    WithoutTwice(s, a, b);
  }

  lemma TrimSelf(s: seq<AdapterId>)
    ensures Trimmed(s, s)
  {
    WithoutNothing(s);
  }

  lemma CloseTrims(p: Pool, id: AdapterId)
    ensures Trimmed(p.lru, Close(p, id).lru)
  {
    TrimSelf(p.lru);
    assert CloseAll(p, {id}).lru == Without(p.lru, {id});
  }

  lemma MissTrims(p: Pool, now: int, sub: SubagentId, task: Option<TaskId>)
    ensures Trimmed(p.lru, Miss(p, now, sub, task).0.lru)
  {
    TrimSelf(p.lru);
    hide LruCandidate;
  }

  /** `ensure` drops entries, and moves the session it hands out to the front if it is active. */
  ghost predicate AdmitOrder(s: seq<AdapterId>, t: seq<AdapterId>, admission: Admission) {
    match admission
    case Hit(id) => exists u :: Trimmed(s, u) && (id in u <==> id in s) && t == ToFront(u, id)
    case _ => Trimmed(s, t)
  }

  lemma MissMoves(s: seq<AdapterId>, p: Pool, now: int, sub: SubagentId, task: Option<TaskId>)
    requires Trimmed(s, p.lru)
    ensures var (q, admission) := Miss(p, now, sub, task); AdmitOrder(s, q.lru, admission) && !admission.Hit?
  {
    MissTrims(p, now, sub, task);
    TrimTransitive(s, p.lru, Miss(p, now, sub, task).0.lru);
    hide LruCandidate, Trimmed;
  }

  lemma AdmitMoves(p: Pool, now: int, sub: SubagentId, model: ModelId, task: Option<TaskId>)
    ensures var (q, admission) := Admit(p, now, sub, model, task, true); AdmitOrder(p.lru, q.lru, admission)
  {
    TrimSelf(p.lru);
    hide Miss, Close, Trimmed, ToFront, Quarantined;
    if sub !in p.subagents {
      MissMoves(p.lru, p, now, sub, task);
    } else {
      var id := p.subagents[sub];
      if id !in p.sessions {
        MissMoves(p.lru, p.(subagents := p.subagents - {sub}), now, sub, task);
      } else if Quarantined(p, id) || id in p.busy {
      } else if p.sessions[id].model != model {
        CloseTrims(p, id);
        MissMoves(p.lru, Close(p, id), now, sub, task);
      } else {
        assert Admit(p, now, sub, model, task, true).0.lru == ToFront(p.lru, id);
      }
    }
  }

  lemma HousekeepTrims(p: Pool, now: int)
    requires OrderInv(p.sessions, p.lru, p.pending, p.pendingSince)
    ensures Trimmed(p.lru, Housekeep(p, now).lru)
    ensures forall id :: id in Housekeep(p, now).lru <==> id in p.lru
  {
    var q := ReleaseExpiredEvictions(p, now);
    assert Housekeep(p, now).lru == Without(p.lru, ExpiredPending(q, now));
  }

  lemma EnsureMoves(p: Pool, now: int, sub: SubagentId, model: ModelId, task: Option<TaskId>)
    requires OrderInv(p.sessions, p.lru, p.pending, p.pendingSince)
    ensures var (q, admission) := EnsureBegin(p, now, sub, model, task, true); AdmitOrder(p.lru, q.lru, admission)
  {
    var h := Housekeep(p, now);
    HousekeepTrims(p, now);
    AdmitMoves(h, now, sub, model, task);
    hide Admit, Housekeep, Trimmed, ToFront, OrderInv;
    var (q, admission) := EnsureBegin(p, now, sub, model, task, true);
    match admission {
      case Hit(id) =>
        var u :| Trimmed(h.lru, u) && (id in u <==> id in h.lru) && q.lru == ToFront(u, id);
        TrimTransitive(p.lru, h.lru, u);
      case _ =>
        TrimTransitive(p.lru, h.lru, q.lru);
    }
  }

  lemma FinishTrims(p: Pool, now: int, id: AdapterId, reused: bool, result: TurnResult)
    ensures Trimmed(p.lru, FinishTurn(p, now, id, reused, result).lru)
  {
    TrimSelf(p.lru);
    CloseTrims(EndTurn(p, now, id), id);
    hide Close, Trimmed;
  }

  lemma TimerTrims(p: Pool, id: AdapterId)
    ensures Trimmed(p.lru, CancelTimerFires(p, id).lru)
  {
    TrimSelf(p.lru);
    CloseTrims(p.(cancelTimers := p.cancelTimers - {id}), id);
    hide Close, Trimmed;
  }

  /** The array after a step: trimmed, with the session that was used, if any, in front. */
  ghost predicate LruStep(w: World, l: Label, t: seq<AdapterId>) {
    if exists id :: Uses(w, l, id) then
      exists id, u :: Uses(w, l, id) && Trimmed(w.pool.lru, u) && t == [id] + Without(u, {id})
    else Trimmed(w.pool.lru, t)
  }

  lemma OrderOfInv(w: World)
    requires Inv(w)
    ensures OrderInv(w.pool.sessions, w.pool.lru, w.pool.pending, w.pool.pendingSince)
  {
  }

  lemma StartMoves(w: World, t: TurnId, sub: SubagentId, model: ModelId, task: Option<TaskId>)
    requires Inv(w) && t !in w.turns
    ensures LruStep(w, StartTurn(t, sub, model, task), NextStart(w, t, sub, model, task).pool.lru)
  {
    hide EnsureBegin, Inv, Trimmed, OrderInv, NextStart;
    OrderOfInv(w);
    var l := StartTurn(t, sub, model, task);
    var s := w.pool.lru;
    var (q, admission) := EnsureBegin(w.pool, w.now, sub, model, task, true);
    EnsureMoves(w.pool, w.now, sub, model, task);
    StartKeepsPool(w, t, sub, model, task);
    if admission.Hit? && admission.id in s {
      assert Uses(w, l, admission.id);
    } else {
      assert forall x :: !Uses(w, l, x);
    }
  }

  lemma ActivateMoves(w: World, id: AdapterId)
    ensures LruStep(w, ActivateSession(id), Activate(w.pool, id).0.lru)
  {
    hide Trimmed;
    var l := ActivateSession(id);
    TrimSelf(w.pool.lru);
    if id in w.pool.pending && id !in w.pool.lru {
      WithoutStrangers(w.pool.lru, {id});
      assert Uses(w, l, id);
    } else {
      assert forall x :: !Uses(w, l, x);
    }
  }

  lemma ResumeTrims(w: World, t: TurnId)
    requires Enabled(w, HandlerResumes(t))
    ensures Trimmed(w.pool.lru, NextResume(w, t).pool.lru)
  {
    var Admitted(id, reused) := w.turns[t].phase;
    var (q, started) := MarkTurnStarted(w.pool, id, w.turns[t].task);
    TrimSelf(w.pool.lru);
    FinishTrims(q, w.now, id, reused, TurnCancelled);
    hide Trimmed, FinishTurn, PutObject;
  }

  lemma FactoryLru(w: World, t: TurnId, created: Option<AdapterId>)
    requires t in w.turns
    ensures NextFactory(w, t, created).pool.lru == w.pool.lru
  {
    hide EnsureResume;
  }

  lemma SettleLru(w: World, t: TurnId, sdk: SdkResult)
    requires Enabled(w, SdkSettles(t, sdk))
    ensures NextSettle(w, t, sdk).pool.lru == w.pool.lru
  {
    hide PutObject;
  }

  lemma CancelLru(w: World, c: CancelId, sub: SubagentId, task: Option<TaskId>)
    ensures NextCancel(w, c, sub, task).pool.lru == w.pool.lru
  {
    hide CancelBegin, Aim;
  }

  lemma NextMoves(w: World, l: Label)
    requires Inv(w) && Enabled(w, l)
    ensures LruStep(w, l, Next(w, l).pool.lru)
  {
    TrimSelf(w.pool.lru);
    match l {
      case StartTurn(t, sub, model, task) => StartMoves(w, t, sub, model, task);
      case ActivateSession(id) => ActivateMoves(w, id);
      case FactoryReturns(t, created) => FactoryLru(w, t, created);
      case HandlerResumes(t) => ResumeTrims(w, t);
      case SdkSettles(t, sdk) => SettleLru(w, t, sdk);
      case HandlerFinishes(t) =>
        FinishTrims(w.pool, w.now, w.turns[t].phase.id, w.turns[t].phase.reused, w.turns[t].phase.result);
      case RequestCancel(c, sub, task) => CancelLru(w, c, sub, task);
      case CloseSession(id) => CloseTrims(w.pool, id);
      case TimerFires(id) => TimerTrims(w.pool, id);
      case _ =>
    }
    hide Inv, NextStart, NextFactory, NextResume, NextSettle, NextCancel, Trimmed, EnsureBegin, FinishTurn, Activate,
      Close, CancelTimerFires;
  }

  // ---- the order, over whole runs ----

  lemma UsedInFront(r: Trace, i: nat, u: seq<AdapterId>, id: AdapterId)
    requires i < |r.labels| && |r.states| == |r.labels| + 1
    requires ByRecency(r, i, u) && Uses(r.states[i], r.labels[i], id)
    ensures ByRecency(r, i + 1, [id] + Without(u, {id}))
  {
    hide Without, EnsureBegin;
    UsesOne(r.states[i], r.labels[i], id);
    WithoutKeepsOrder(r, i, u, {id});
    var rest := Without(u, {id});
    assert LastUse(r, i + 1, id) == i;
    forall k | 0 <= k < |rest|
      ensures LastUse(r, i + 1, rest[k]) == LastUse(r, i, rest[k]) < i
    {
      assert rest[k] in rest;
      LastUseBefore(r, i, rest[k]);
    }
    var t := [id] + rest;
    forall a, b | 0 <= a < b < |t|
      ensures LastUse(r, i + 1, t[a]) > LastUse(r, i + 1, t[b])
    {
      assert t[b] == rest[b - 1] && (a > 0 ==> t[a] == rest[a - 1]);
    }
  }

  lemma OrderAfterStep(r: Trace, i: nat, t: seq<AdapterId>)
    requires i < |r.labels| && |r.states| == |r.labels| + 1
    requires ByRecency(r, i, r.states[i].pool.lru) && LruStep(r.states[i], r.labels[i], t)
    ensures ByRecency(r, i + 1, t)
  {
    hide Without, Uses;
    var w, l := r.states[i], r.labels[i];
    if exists id :: Uses(w, l, id) {
      var id, u :| Uses(w, l, id) && Trimmed(w.pool.lru, u) && t == [id] + Without(u, {id});
      var gone :| u == Without(w.pool.lru, gone);
      WithoutKeepsOrder(r, i, w.pool.lru, gone);
      UsedInFront(r, i, u, id);
    } else {
      var gone :| t == Without(w.pool.lru, gone);
      WithoutKeepsOrder(r, i, w.pool.lru, gone);
      assert forall x :: LastUse(r, i + 1, x) == LastUse(r, i, x);
    }
  }

  lemma UsesOne(w: World, l: Label, id: AdapterId)
    requires Uses(w, l, id)
    ensures forall x :: Uses(w, l, x) ==> x == id
  {
    hide EnsureBegin;
  }

  /** In every reachable state `lru` lists the active sessions strictly most recently used
      first. */
  lemma {:induction false} LruIsRecencyOrder(r: Trace, maxHot: nat, i: nat)
    requires IsRun(r, maxHot) && i <= |r.labels|
    ensures ByRecency(r, i, r.states[i].pool.lru)
    decreases i
  {
    hide Next, Enabled, LruStep, Inv;
    if i > 0 {
      LruIsRecencyOrder(r, maxHot, i - 1);
      Reachable(r, maxHot, i - 1);
      assert StepAt(r, i - 1);
      NextMoves(r.states[i - 1], r.labels[i - 1]);
      OrderAfterStep(r, i - 1, r.states[i].pool.lru);
    }
  }

  // ---- activation ----

  /** `activate` throws exactly if the pool does not have the session; else the session is
      active afterwards, in front if it was pending and where it was if not. */
  lemma ActivateAnswers(p: Pool, id: AdapterId)
    requires RepInv(p)
    ensures var (q, found) := Activate(p, id);
            && (found <==> id in p.sessions)
            && (found <==> id in q.lru)
            && q.pending == p.pending - {id}
            && q.lru == (if id in p.pending then [id] else []) + p.lru
            && q.sessions == p.sessions && q.evicting == p.evicting && q.busy == p.busy
  {
    hide MappingInv, LivenessInv, CapacityInv, CreationInv, BusyInv;
  }

  lemma ActivatedIsActive(r: Trace, maxHot: nat, i: nat, id: AdapterId)
    requires IsRun(r, maxHot) && i < |r.labels| && r.labels[i] == ActivateSession(id)
    ensures var p, q := r.states[i].pool, r.states[i + 1].pool;
            && (id in q.lru <==> id in p.sessions)
            && q.lru == (if id in p.pending then [id] else []) + p.lru
            && q.pending == p.pending - {id} && q.sessions == p.sessions
  {
    hide RepInv, Activate;
    assert StepAt(r, i);
    Reachable(r, maxHot, i);
    RepOfInv(r.states[i]);
    ActivateAnswers(r.states[i].pool, id);
  }

  // ---- the candidate a request is told ----

  /** An active session that runs no turn and has no live reservation. */
  predicate Evictable(p: Pool, now: int, id: AdapterId) {
    && id in p.lru && id !in p.busy
    && !(id in p.evicting && p.evicting[id] > now - EVICTION_RESERVATION_TTL_MS)
  }

  /** The candidate `getLruCandidate` picks. */
  function Pick(p: Pool, now: int): Option<AdapterId> {
    LastFree(p.lru, p.busy + ReleaseExpiredEvictions(p, now).evicting.Keys)
  }

  lemma CandidateIsPick(p: Pool, now: int)
    ensures LruCandidate(p, now).1 == Pick(p, now)
  {
    hide LastFree;
  }

  lemma EvictableIs(p: Pool, now: int, id: AdapterId)
    ensures Evictable(p, now, id)
            <==> id in p.lru && id !in p.busy + ReleaseExpiredEvictions(p, now).evicting.Keys
  {
  }

  lemma MissPicks(p: Pool, now: int, sub: SubagentId, task: Option<TaskId>)
    ensures match Miss(p, now, sub, task).1
            case LimitReached(id) => Pick(p, now) == Some(id)
            case AllBusy => sub in p.creating || Pick(p, now) == None
            case _ => true
  {
    hide LruCandidate, Pick;
    CandidateIsPick(p, now);
  }

  /** Once a session has been closed to make room, the pool is not full. */
  lemma ClosedCreates(p: Pool, now: int, sub: SubagentId, task: Option<TaskId>)
    requires RepInv(p) && sub in p.subagents
    ensures Miss(Close(p, p.subagents[sub]), now, sub, task).1 == Create
  {
    hide RepInv, Close, LruCandidate;
    MappedIsPooled(p, sub);
    CloseRoom(p, p.subagents[sub]);
  }

  lemma AdmitPicks(p: Pool, now: int, sub: SubagentId, model: ModelId, task: Option<TaskId>)
    requires RepInv(p)
    ensures match Admit(p, now, sub, model, task, true).1
            case LimitReached(id) => sub !in p.creating && sub !in p.subagents && Pick(p, now) == Some(id)
            case AllBusy => sub in p.creating || sub in p.subagents || Pick(p, now) == None
            case _ => true
  {
    hide RepInv, Miss, Close, Quarantined, Touch, AcquireTurn, Pick;
    if sub in p.subagents {
      MappedIsPooled(p, sub);
      ClosedCreates(p, now, sub, task);
    } else {
      MissPicks(p, now, sub, task);
      MissWhenCreating(p, now, sub, task);
    }
  }

  lemma MissWhenCreating(p: Pool, now: int, sub: SubagentId, task: Option<TaskId>)
    ensures Miss(p, now, sub, task).1.LimitReached? ==> sub !in p.creating
  {
    hide LruCandidate;
  }

  lemma {:induction false} PickIsLeast(r: Trace, maxHot: nat, i: nat)
    requires IsRun(r, maxHot) && i <= |r.labels|
    ensures var p, now := r.states[i].pool, r.states[i].now;
            && (Pick(p, now).None? <==> forall id :: !Evictable(p, now, id))
            && (Pick(p, now).Some? ==>
                  && Evictable(p, now, Pick(p, now).value)
                  && forall id | Evictable(p, now, id) && id != Pick(p, now).value ::
                       LastUse(r, i, Pick(p, now).value) < LastUse(r, i, id))
  {
    var p := r.states[i].pool;
    var skip := p.busy + ReleaseExpiredEvictions(p, r.states[i].now).evicting.Keys;
    LruIsRecencyOrder(r, maxHot, i);
    LastFreeIsLast(p.lru, skip);
    hide LastUse, IsRun, Evictable, LastFree, ReleaseExpiredEvictions;
    var candidate := LastFree(p.lru, skip);
    forall id
      ensures Evictable(p, r.states[i].now, id) <==> id in p.lru && id !in skip
    {
      EvictableIs(p, r.states[i].now, id);
    }
    if candidate.Some? {
      var k :| 0 <= k < |p.lru| && p.lru[k] == candidate.value && p.lru[k] !in skip
               && forall j | k < j < |p.lru| :: p.lru[j] in skip;
      forall id | id in p.lru && id !in skip && id != candidate.value
        ensures LastUse(r, i, candidate.value) < LastUse(r, i, id)
      {
        var j :| 0 <= j < |p.lru| && p.lru[j] == id;
        assert j < k;
      }
    }
  }

  /** Housekeeping before the request does not change the pick. */
  lemma SamePick(p: Pool, now: int)
    requires RepInv(p)
    ensures Pick(Housekeep(p, now), now) == Pick(p, now)
  {
    hide RepInv, Housekeep, LastFree;
    HousekeepIs(p, now);
    var q := ReleaseExpiredEvictions(p, now);
    assert ReleaseExpiredEvictions(q, now).evicting == q.evicting;
  }

  /** The candidate a refused request is told is the least recently used of the active
      sessions that run no turn and have no live reservation. */
  lemma CandidateIsLeastRecentlyUsed(r: Trace, maxHot: nat, i: nat, id: AdapterId)
    requires IsRun(r, maxHot) && i < |r.labels| && ToldCandidate(r.states[i + 1], r.labels[i], id)
    ensures Evictable(r.states[i].pool, r.states[i].now, id)
    ensures forall x | Evictable(r.states[i].pool, r.states[i].now, x) && x != id ::
              LastUse(r, i, id) < LastUse(r, i, x)
  {
    hide Next, Enabled, Inv, Admit, Housekeep, Pick, Evictable, LastUse;
    var w, l := r.states[i], r.labels[i];
    assert StepAt(r, i);
    Reachable(r, maxHot, i);
    AnswerShows(w, l, id);
    PicksOf(w, l);
    PickIsLeast(r, maxHot, i);
  }

  /** What the answer of a request says about the pick. */
  lemma PicksOf(w: World, l: Label)
    requires Inv(w) && l.StartTurn?
    ensures match EnsureBegin(w.pool, w.now, l.sub, l.model, l.task, true).1
            case LimitReached(id) => Pick(w.pool, w.now) == Some(id) && !Engaged(w, l.sub)
            case AllBusy => Engaged(w, l.sub) || Pick(w.pool, w.now) == None
            case _ => true
  {
    hide Inv, Admit, Housekeep, Pick, RepInv;
    RepOfInv(w);
    HousekeepKeeps(w.pool, w.now);
    AdmitPicks(Housekeep(w.pool, w.now), w.now, l.sub, l.model, l.task);
    SamePick(w.pool, w.now);
    HousekeepIs(w.pool, w.now);
  }

  /** The subagent has a session, or one is being created for it, after housekeeping. */
  predicate Engaged(w: World, sub: SubagentId) {
    sub in w.pool.creating || sub in Housekeep(w.pool, w.now).subagents
  }

  /** A refused request is told no candidate exactly if its subagent already has a session or
      a creation, or there is no session to evict. */
  lemma NoCandidateIff(r: Trace, maxHot: nat, i: nat)
    requires IsRun(r, maxHot) && i < |r.labels| && WasRefused(r, i)
    ensures RefusedAllBusy(r.states[i + 1], r.labels[i])
            <==> Engaged(r.states[i], r.labels[i].sub)
                 || forall id :: !Evictable(r.states[i].pool, r.states[i].now, id)
  {
    hide Next, Enabled, Inv, Admit, Housekeep, Pick, Evictable, LastUse, Engaged;
    var w, l := r.states[i], r.labels[i];
    assert StepAt(r, i);
    Reachable(r, maxHot, i);
    RefusalIs(w, l);
    PicksOf(w, l);
    PickIsLeast(r, maxHot, i);
  }

  ghost predicate WasRefused(r: Trace, i: int) {
    && 0 <= i < |r.labels| && i + 1 < |r.states| && r.labels[i].StartTurn?
    && r.labels[i].t in r.states[i + 1].turns && r.states[i + 1].turns[r.labels[i].t].phase.Done?
  }

  lemma RefusalIs(w: World, l: Label)
    requires Enabled(w, l) && l.StartTurn?
    ensures var v, admission := Next(w, l), EnsureBegin(w.pool, w.now, l.sub, l.model, l.task, true).1;
            && l.t in v.turns
            && (v.turns[l.t].phase.Done? <==> admission.AllBusy? || admission.LimitReached?)
            && (RefusedAllBusy(v, l) <==> admission.AllBusy?)
  {
    hide EnsureBegin;
  }
}
