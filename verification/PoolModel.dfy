/** The state of the hot-session pool and its operations, each one the effect of a
    stretch of `SessionPool` code that runs without an await.

    Time is the argument `now`. A timer is kept as the time it is due.
  */
module PoolModel {
  import opened Options
  import opened PiSession

  const PENDING_TTL_MS := 60_000
  const PENDING_CANCEL_GRACE_MS := 5_000
  const EVICTION_RESERVATION_TTL_MS := 120_000

  datatype Lease = Lease(taskId: Option<TaskId>, started: bool, cancelled: bool)

  /** `disposed` holds the session objects that have left the pool: the handler of a turn
      may still hold one. The other fields are those of `SessionPool`. */
  datatype Pool = Pool(
    maxHot: nat,
    sessions: map<AdapterId, Session>,
    disposed: map<AdapterId, Session>,
    subagents: map<SubagentId, AdapterId>,
    lru: seq<AdapterId>,
    busy: set<AdapterId>,
    leases: map<AdapterId, Lease>,
    pending: set<AdapterId>,
    creating: map<SubagentId, Option<TaskId>>,
    cancelledCreations: set<SubagentId>,
    pendingSince: map<AdapterId, int>,
    cancelTimers: map<AdapterId, int>,
    evicting: map<AdapterId, int>)

  function EmptyPool(maxHot: nat): Pool {
    Pool(maxHot, map[], map[], map[], [], {}, map[], {}, map[], {}, map[], map[], map[])
  }

  /** What `ensure` does before its await: hand out a session, start the factory, or throw
      HOT_SESSION_LIMIT_REACHED with or without a candidate. */
  datatype Admission = Hit(id: AdapterId) | Create | LimitReached(candidate: AdapterId) | AllBusy

  /** What `ensure` does after its await. */
  datatype Creation = Published(id: AdapterId) | CreationCancelled | CreationFailed

  /** What `abortSession` does before its await: answer, or wait for the SDK abort. */
  datatype CancelReply = Answer(accepted: bool) | AwaitAbort(id: AdapterId, aborted: bool)

  // ---- the lru array ----

  function Without(s: seq<AdapterId>, gone: set<AdapterId>): (r: seq<AdapterId>)
    ensures forall x :: x in r <==> x in s && x !in gone
    ensures |r| <= |s|
  {
    if s == [] then []
    else if s[0] in gone then Without(s[1..], gone)
    else [s[0]] + Without(s[1..], gone)
  }

  lemma {:induction false} WithoutStrangers(s: seq<AdapterId>, gone: set<AdapterId>)
    requires forall k | 0 <= k < |s| :: s[k] !in gone
    ensures Without(s, gone) == s
  {
    if s != [] {
      assert s == [s[0]] + s[1..];
      WithoutStrangers(s[1..], gone);
      assert s[0] !in gone;
    }
  }

  lemma {:induction false} WithoutTwice(s: seq<AdapterId>, a: set<AdapterId>, b: set<AdapterId>)
    ensures Without(Without(s, a), b) == Without(s, a + b)
  {
    if s != [] {
      WithoutTwice(s[1..], a, b);
      if s[0] !in a {
        assert ([s[0]] + Without(s[1..], a))[1..] == Without(s[1..], a);
      }
    }
  }

  /** The entry nearest the end of `s` that is not in `skip`. */
  function LastFree(s: seq<AdapterId>, skip: set<AdapterId>): Option<AdapterId> {
    if s == [] then None
    else if s[|s| - 1] !in skip then Some(s[|s| - 1])
    else LastFree(s[..|s| - 1], skip)
  }

  lemma {:induction false} LastFreeIsLast(s: seq<AdapterId>, skip: set<AdapterId>)
    ensures LastFree(s, skip).None? ==> forall x | x in s :: x in skip
    ensures LastFree(s, skip).Some? ==>
              exists i :: 0 <= i < |s| && s[i] == LastFree(s, skip).value && s[i] !in skip
                          && forall j | i < j < |s| :: s[j] in skip
  {
    if s != [] {
      var n := |s| - 1;
      assert s == s[..n] + [s[n]];
      if s[n] in skip {
        LastFreeIsLast(s[..n], skip);
        var r := LastFree(s[..n], skip);
        if r.Some? {
          var i :| 0 <= i < n && s[..n][i] == r.value && s[i] !in skip && forall j | i < j < n :: s[..n][j] in skip;
          forall j | i < j < |s|
            ensures s[j] in skip
          {
            assert j < n ==> s[..n][j] in skip;
          }
        } else {
          assert forall x | x in s :: x in s[..n] || x == s[n];
        }
      } else {
        assert s[n] == LastFree(s, skip).value;
      }
    }
  }

  predicate NoDuplicates(s: seq<AdapterId>) {
    forall i, j | 0 <= i < j < |s| :: s[i] != s[j]
  }

  // ---- operations ----

  function Dispose(sessions: map<AdapterId, Session>, gone: set<AdapterId>): map<AdapterId, Session> {
    map id | id in gone && id in sessions :: sessions[id].(closed := true)
  }

  function Owners(sessions: map<AdapterId, Session>, gone: set<AdapterId>): set<SubagentId> {
    set id | id in gone && id in sessions :: sessions[id].subagent
  }

  function CloseAll(p: Pool, gone: set<AdapterId>): Pool {
    p.(sessions := p.sessions - gone,
       disposed := p.disposed + Dispose(p.sessions, gone),
       subagents := p.subagents - Owners(p.sessions, gone),
       lru := Without(p.lru, gone),
       busy := p.busy - gone,
       leases := p.leases - gone,
       evicting := p.evicting - gone,
       cancelTimers := p.cancelTimers - gone,
       pending := p.pending - gone,
       pendingSince := p.pendingSince - gone)
  }

  function Close(p: Pool, id: AdapterId): (q: Pool)
    ensures q.maxHot == p.maxHot
  {
    if id in p.sessions then CloseAll(p, {id}) else p
  }

  function ReleaseExpiredEvictions(p: Pool, now: int): Pool {
    p.(evicting := map id | id in p.evicting && p.evicting[id] > now - EVICTION_RESERVATION_TTL_MS :: p.evicting[id])
  }

  /** The idle pending sessions that are older than the orphan limit. */
  function ExpiredPending(p: Pool, now: int): set<AdapterId> {
    set id | id in p.pending && id !in p.busy && id in p.pendingSince && now - p.pendingSince[id] > PENDING_TTL_MS
  }

  function EvictExpiredPending(p: Pool, now: int): Pool {
    CloseAll(p, ExpiredPending(p, now))
  }

  function ToFront(lru: seq<AdapterId>, id: AdapterId): seq<AdapterId> {
    if id in lru then [id] + Without(lru, {id}) else lru
  }

  function Touch(p: Pool, id: AdapterId): Pool {
    p.(lru := ToFront(p.lru, id))
  }

  function AcquireTurn(p: Pool, id: AdapterId, task: Option<TaskId>): Pool {
    p.(busy := p.busy + {id}, leases := p.leases[id := Lease(task, false, false)])
  }

  function LruCandidate(p: Pool, now: int): (r: (Pool, Option<AdapterId>))
    ensures r.0 == p.(evicting := r.0.evicting)
  {
    var q := ReleaseExpiredEvictions(p, now);
    match LastFree(q.lru, q.busy + q.evicting.Keys)
    case None => (q, None)
    case Some(id) => (q.(evicting := q.evicting[id := now]), Some(id))
  }

  /** `ensure` when the subagent has no session to reuse. */
  function Miss(p: Pool, now: int, sub: SubagentId, task: Option<TaskId>): (r: (Pool, Admission))
    ensures r.0.maxHot == p.maxHot
  {
    if sub in p.creating then (p, AllBusy)
    else if |p.sessions| + |p.creating| >= p.maxHot then
      var (q, candidate) := LruCandidate(p, now);
      (q, if candidate.None? then AllBusy else LimitReached(candidate.value))
    else (p.(creating := p.creating[sub := task]), Create)
  }

  function Housekeep(p: Pool, now: int): Pool {
    EvictExpiredPending(ReleaseExpiredEvictions(p, now), now)
  }

  predicate Quarantined(p: Pool, id: AdapterId) {
    id in p.evicting || (id in p.sessions && p.sessions[id].cancellationPending)
  }

  /** `ensure` up to its await, once the expired sessions and reservations are gone. */
  function Admit(p: Pool, now: int, sub: SubagentId, model: ModelId, task: Option<TaskId>, acquire: bool)
    : (r: (Pool, Admission))
    ensures r.0.maxHot == p.maxHot
  {
    if sub !in p.subagents then Miss(p, now, sub, task)
    else
      var id := p.subagents[sub];
      if id !in p.sessions then Miss(p.(subagents := p.subagents - {sub}), now, sub, task)
      else if Quarantined(p, id) || id in p.busy then (p, AllBusy)
      else if p.sessions[id].model != model then Miss(Close(p, id), now, sub, task)
      else
        var r := Touch(p, id);
        (if acquire then AcquireTurn(r, id, task) else r, Hit(id))
  }

  /** `ensure` up to its await. */
  function EnsureBegin(p: Pool, now: int, sub: SubagentId, model: ModelId, task: Option<TaskId>, acquire: bool)
    : (r: (Pool, Admission))
    ensures r.0.maxHot == p.maxHot
  {
    Admit(Housekeep(p, now), now, sub, model, task, acquire)
  }

  function Publish(p: Pool, now: int, sub: SubagentId, id: AdapterId, model: ModelId): Pool {
    p.(sessions := p.sessions[id := NewSession(sub, model)],
       subagents := p.subagents[sub := id],
       pending := p.pending + {id},
       pendingSince := p.pendingSince[id := now])
  }

  /** `ensure` after its await; `created` is the id of the factory's session, `None` if it threw. */
  function EnsureResume(p: Pool, now: int, sub: SubagentId, model: ModelId, task: Option<TaskId>, acquire: bool,
                        created: Option<AdapterId>): (r: (Pool, Creation))
    ensures r.0 == p.(sessions := r.0.sessions, disposed := r.0.disposed, subagents := r.0.subagents, busy := r.0.busy,
                      leases := r.0.leases, pending := r.0.pending, pendingSince := r.0.pendingSince,
                      creating := r.0.creating, cancelledCreations := r.0.cancelledCreations)
  {
    var q := p.(creating := p.creating - {sub}, cancelledCreations := p.cancelledCreations - {sub});
    match created
    case None => (q, CreationFailed)
    case Some(id) =>
      if sub in p.cancelledCreations then
        (q.(disposed := q.disposed[id := NewSession(sub, model).(closed := true)]), CreationCancelled)
      else
        var r := Publish(q, now, sub, id, model);
        (if acquire then AcquireTurn(r, id, task) else r, Published(id))
  }

  function ScheduleCancelCleanup(p: Pool, now: int, id: AdapterId): Pool {
    if id in p.cancelTimers then p else p.(cancelTimers := p.cancelTimers[id := now + PENDING_CANCEL_GRACE_MS])
  }

  /** `abortSession` once it has found a session whose lease has started or is gone. */
  function AbortTurn(p: Pool, now: int, id: AdapterId, task: Option<TaskId>): (r: (Pool, CancelReply))
    requires id in p.sessions
    ensures r.0 == p.(sessions := r.0.sessions, cancelTimers := r.0.cancelTimers)
  {
    var s := p.sessions[id];
    var q := p.(sessions := p.sessions[id := Abort(s, task)]);
    if !q.sessions[id].cancellationPending then (q, Answer(false))
    else (ScheduleCancelCleanup(q, now, id), AwaitAbort(id, AbortAccepted(s, task)))
  }

  /** `abortSession` up to its await. */
  function CancelBegin(p: Pool, now: int, sub: SubagentId, task: Option<TaskId>): (r: (Pool, CancelReply))
    ensures r.0 == p.(sessions := r.0.sessions, leases := r.0.leases, cancelTimers := r.0.cancelTimers,
                      cancelledCreations := r.0.cancelledCreations)
  {
    if sub !in p.subagents then
      var creatingTask := if sub in p.creating then p.creating[sub] else None;
      if task.Some? && creatingTask != task then (p, Answer(false))
      else if creatingTask.Some? || sub in p.creating then
        (p.(cancelledCreations := p.cancelledCreations + {sub}), Answer(true))
      else (p, Answer(false))
    else
      var id := p.subagents[sub];
      if id !in p.sessions then (p, Answer(false))
      else if id in p.leases && !p.leases[id].started then
        if task.Some? && p.leases[id].taskId != task then (p, Answer(false))
        else (p.(leases := p.leases[id := p.leases[id].(cancelled := true)]), Answer(true))
      else AbortTurn(p, now, id, task)
  }

  /** `abortSession` after its await. */
  function CancelResume(p: Pool, id: AdapterId, aborted: bool): Pool {
    if aborted then p else p.(cancelTimers := p.cancelTimers - {id})
  }

  /** The fallback timer of a cancelled session. */
  function CancelTimerFires(p: Pool, id: AdapterId): (q: Pool)
    ensures q.maxHot == p.maxHot
  {
    var r := p.(cancelTimers := p.cancelTimers - {id});
    if id in r.sessions && r.sessions[id].cancellationPending then Close(r, id) else r
  }

  /** `activate`; false stands for the SESSION_NOT_FOUND throw. */
  function Activate(p: Pool, id: AdapterId): (r: (Pool, bool))
    ensures r.0 == p.(pending := r.0.pending, cancelTimers := r.0.cancelTimers, pendingSince := r.0.pendingSince,
                      lru := r.0.lru)
  {
    if id in p.lru then (p, true)
    else if id !in p.pending then (p, false)
    else (p.(pending := p.pending - {id}, cancelTimers := p.cancelTimers - {id},
             pendingSince := p.pendingSince - {id}, lru := [id] + p.lru), true)
  }

  function MarkTurnStarted(p: Pool, id: AdapterId, task: Option<TaskId>): (r: (Pool, bool))
    ensures r.0 == p.(leases := r.0.leases)
  {
    if id !in p.leases then (p, true)
    else if p.leases[id].taskId != task || p.leases[id].cancelled then (p, false)
    else (p.(leases := p.leases[id := p.leases[id].(started := true)]), true)
  }

  function EndTurn(p: Pool, now: int, id: AdapterId): Pool {
    p.(busy := p.busy - {id}, leases := p.leases - {id},
       pendingSince := if id in p.pending then p.pendingSince[id := now] else p.pendingSince)
  }

  function Reserve(p: Pool, now: int, id: AdapterId): (Pool, bool) {
    if id in p.evicting then (p, true)
    else if id !in p.sessions || id in p.pending || id in p.busy then (p, false)
    else (p.(evicting := p.evicting[id := now]), true)
  }

  function ReserveForEviction(p: Pool, now: int, id: AdapterId): (Pool, bool) {
    Reserve(ReleaseExpiredEvictions(p, now), now, id)
  }

  function ReleaseEviction(p: Pool, id: AdapterId): Pool {
    p.(evicting := p.evicting - {id})
  }

  // ---- the representation invariant ----

  /** `subagents` is a bijection between subagent names and pooled sessions. */
  ghost predicate MappingInv(sessions: map<AdapterId, Session>, subagents: map<SubagentId, AdapterId>) {
    && (forall id | id in sessions :: sessions[id].subagent in subagents && subagents[sessions[id].subagent] == id)
    && (forall sub | sub in subagents :: subagents[sub] in sessions && sessions[subagents[sub]].subagent == sub)
  }

  /** The pooled sessions are the active ones, each once in `lru`, and the pending ones. */
  ghost predicate OrderInv(sessions: map<AdapterId, Session>, lru: seq<AdapterId>, pending: set<AdapterId>,
                           pendingSince: map<AdapterId, int>)
  {
    && NoDuplicates(lru)
    && (forall id :: id in sessions <==> id in lru || id in pending)
    && (forall id | id in pending :: id !in lru)
    && (forall id :: id in pendingSince <==> id in pending)
  }

  /** A session is busy exactly while it is leased to a turn. */
  ghost predicate BusyInv(sessions: map<AdapterId, Session>, busy: set<AdapterId>, leases: map<AdapterId, Lease>) {
    && (forall id :: id in leases <==> id in busy)
    && (forall id | id in busy :: id in sessions)
  }

  /** Only an active idle session is reserved for eviction. */
  ghost predicate EvictingInv(lru: seq<AdapterId>, busy: set<AdapterId>, evicting: map<AdapterId, int>) {
    forall id | id in evicting :: id in lru && id !in busy
  }

  ghost predicate TimersInv(sessions: map<AdapterId, Session>, cancelTimers: map<AdapterId, int>) {
    forall id | id in cancelTimers :: id in sessions
  }

  ghost predicate CreationInv(creating: map<SubagentId, Option<TaskId>>, cancelledCreations: set<SubagentId>,
                              subagents: map<SubagentId, AdapterId>)
  {
    && (forall sub | sub in cancelledCreations :: sub in creating)
    && (forall sub | sub in creating :: sub !in subagents)
  }

  ghost predicate CapacityInv(maxHot: nat, sessions: map<AdapterId, Session>, creating: map<SubagentId, Option<TaskId>>)
  {
    1 <= maxHot && |sessions| + |creating| <= maxHot
  }

  /** The pool holds live session objects only; what it has let go of has been closed. */
  ghost predicate LivenessInv(sessions: map<AdapterId, Session>, disposed: map<AdapterId, Session>) {
    && (forall id | id in sessions :: id !in disposed && !sessions[id].closed && Coherent(sessions[id]))
    && (forall id | id in disposed :: disposed[id].closed && Coherent(disposed[id]))
  }

  ghost predicate RepInv(p: Pool) {
    && MappingInv(p.sessions, p.subagents)
    && OrderInv(p.sessions, p.lru, p.pending, p.pendingSince)
    && BusyInv(p.sessions, p.busy, p.leases)
    && EvictingInv(p.lru, p.busy, p.evicting)
    && TimersInv(p.sessions, p.cancelTimers)
    && CreationInv(p.creating, p.cancelledCreations, p.subagents)
    && CapacityInv(p.maxHot, p.sessions, p.creating)
    && LivenessInv(p.sessions, p.disposed)
  }

  lemma MappedIsPooled(p: Pool, sub: SubagentId)
    requires RepInv(p) && sub in p.subagents
    ensures p.subagents[sub] in p.sessions && p.sessions[p.subagents[sub]].subagent == sub
  {
  }

  // ---- every operation keeps it ----

  lemma WithoutNoDuplicates(s: seq<AdapterId>, gone: set<AdapterId>)
    requires NoDuplicates(s)
    ensures NoDuplicates(Without(s, gone))
  {
  }

  lemma CloseAllMapping(p: Pool, gone: set<AdapterId>)
    requires MappingInv(p.sessions, p.subagents)
    ensures MappingInv(CloseAll(p, gone).sessions, CloseAll(p, gone).subagents)
    ensures forall sub | sub in CloseAll(p, gone).subagents :: sub in p.subagents
  {
    var q := CloseAll(p, gone);
    assert forall id | id in gone && id in p.sessions :: p.sessions[id].subagent !in q.subagents;
  }

  lemma CloseAllOrder(p: Pool, gone: set<AdapterId>)
    requires OrderInv(p.sessions, p.lru, p.pending, p.pendingSince)
    ensures var q := CloseAll(p, gone); OrderInv(q.sessions, q.lru, q.pending, q.pendingSince)
  {
    WithoutNoDuplicates(p.lru, gone);
  }

  lemma CloseAllCapacity(p: Pool, gone: set<AdapterId>)
    requires CapacityInv(p.maxHot, p.sessions, p.creating)
    ensures CapacityInv(p.maxHot, p.sessions - gone, p.creating)
  {
    SubsetSize((p.sessions - gone).Keys, p.sessions.Keys);
  }

  lemma CloseAllLiveness(p: Pool, gone: set<AdapterId>)
    requires LivenessInv(p.sessions, p.disposed)
    ensures LivenessInv(p.sessions - gone, p.disposed + Dispose(p.sessions, gone))
  {
  }

  lemma CloseAllKeeps(p: Pool, gone: set<AdapterId>)
    requires RepInv(p)
    ensures RepInv(CloseAll(p, gone))
  {
    CloseAllMapping(p, gone);
    CloseAllOrder(p, gone);
    CloseAllCapacity(p, gone);
    CloseAllLiveness(p, gone);
  }

  lemma ReleaseExpiredKeeps(p: Pool, now: int)
    requires RepInv(p)
    ensures RepInv(ReleaseExpiredEvictions(p, now))
  {
  }

  lemma HousekeepKeeps(p: Pool, now: int)
    requires RepInv(p)
    ensures RepInv(Housekeep(p, now))
  {
    var q := ReleaseExpiredEvictions(p, now);
    CloseAllKeeps(q, ExpiredPending(q, now));
  }

  lemma TouchOrder(p: Pool, id: AdapterId)
    requires OrderInv(p.sessions, p.lru, p.pending, p.pendingSince)
    ensures OrderInv(p.sessions, ToFront(p.lru, id), p.pending, p.pendingSince)
  {
    WithoutNoDuplicates(p.lru, {id});
  }

  lemma TouchKeeps(p: Pool, id: AdapterId)
    requires RepInv(p)
    ensures RepInv(Touch(p, id))
  {
    TouchOrder(p, id);
    assert EvictingInv(ToFront(p.lru, id), p.busy, p.evicting);
  }

  lemma AcquireKeeps(p: Pool, id: AdapterId, task: Option<TaskId>)
    requires RepInv(p) && id in p.sessions && id !in p.evicting
    ensures RepInv(AcquireTurn(p, id, task))
  {
  }

  lemma CandidateEvicting(p: Pool, now: int)
    requires EvictingInv(p.lru, p.busy, p.evicting)
    ensures EvictingInv(p.lru, p.busy, LruCandidate(p, now).0.evicting)
  {
    var q := ReleaseExpiredEvictions(p, now);
    LastFreeIsLast(q.lru, q.busy + q.evicting.Keys);
    assert EvictingInv(p.lru, p.busy, q.evicting);
  }

  lemma LruCandidateKeeps(p: Pool, now: int)
    requires RepInv(p)
    ensures RepInv(LruCandidate(p, now).0)
  {
    CandidateEvicting(p, now);
  }

  lemma StartCreationKeeps(p: Pool, sub: SubagentId, task: Option<TaskId>)
    requires RepInv(p) && sub !in p.subagents && sub !in p.creating && |p.sessions| + |p.creating| < p.maxHot
    ensures RepInv(p.(creating := p.creating[sub := task]))
  {
    assert p.creating[sub := task].Keys == p.creating.Keys + {sub};
    assert CapacityInv(p.maxHot, p.sessions, p.creating[sub := task]);
    assert CreationInv(p.creating[sub := task], p.cancelledCreations, p.subagents);
  }

  lemma MissKeeps(p: Pool, now: int, sub: SubagentId, task: Option<TaskId>)
    requires RepInv(p) && sub !in p.subagents
    ensures RepInv(Miss(p, now, sub, task).0)
  {
    if sub in p.creating {
    } else if |p.sessions| + |p.creating| >= p.maxHot {
      LruCandidateKeeps(p, now);
    } else {
      StartCreationKeeps(p, sub, task);
    }
  }

  lemma HitKeeps(p: Pool, id: AdapterId, task: Option<TaskId>)
    requires RepInv(p) && id in p.sessions && id !in p.evicting
    ensures RepInv(Touch(p, id)) && RepInv(AcquireTurn(Touch(p, id), id, task))
  {
    TouchKeeps(p, id);
    AcquireKeeps(Touch(p, id), id, task);
  }

  lemma ReplaceKeeps(p: Pool, now: int, id: AdapterId, sub: SubagentId, task: Option<TaskId>)
    requires RepInv(p) && sub in p.subagents && p.subagents[sub] == id
    ensures RepInv(Miss(Close(p, id), now, sub, task).0)
  {
    CloseAllKeeps(p, {id});
    MissKeeps(Close(p, id), now, sub, task);
  }

  lemma AdmitKeeps(p: Pool, now: int, sub: SubagentId, model: ModelId, task: Option<TaskId>, acquire: bool)
    requires RepInv(p)
    ensures RepInv(Admit(p, now, sub, model, task, acquire).0)
  {
    if sub !in p.subagents {
      MissKeeps(p, now, sub, task);
    } else {
      var id := p.subagents[sub];
      if Quarantined(p, id) || id in p.busy {
      } else if p.sessions[id].model != model {
        ReplaceKeeps(p, now, id, sub, task);
      } else {
        HitKeeps(p, id, task);
      }
    }
  }

  lemma EnsureBeginKeeps(p: Pool, now: int, sub: SubagentId, model: ModelId, task: Option<TaskId>, acquire: bool)
    requires RepInv(p)
    ensures RepInv(EnsureBegin(p, now, sub, model, task, acquire).0)
  {
    HousekeepKeeps(p, now);
    AdmitKeeps(Housekeep(p, now), now, sub, model, task, acquire);
  }

  lemma EndCreationKeeps(p: Pool, sub: SubagentId)
    requires RepInv(p)
    ensures RepInv(p.(creating := p.creating - {sub}, cancelledCreations := p.cancelledCreations - {sub}))
    ensures sub in p.creating ==> |p.creating - {sub}| == |p.creating| - 1
  {
    assert (p.creating - {sub}).Keys == p.creating.Keys - {sub};
  }

  lemma PublishMapping(p: Pool, sub: SubagentId, id: AdapterId, s: Session)
    requires MappingInv(p.sessions, p.subagents)
    requires sub !in p.subagents && id !in p.sessions && s.subagent == sub
    ensures MappingInv(p.sessions[id := s], p.subagents[sub := id])
  {
  }

  lemma PublishCapacity(p: Pool, id: AdapterId, s: Session)
    requires CapacityInv(p.maxHot, p.sessions, p.creating) && |p.sessions| + |p.creating| < p.maxHot
    requires id !in p.sessions
    ensures CapacityInv(p.maxHot, p.sessions[id := s], p.creating)
  {
    assert p.sessions[id := s].Keys == p.sessions.Keys + {id};
  }

  lemma PublishLiveness(p: Pool, id: AdapterId, s: Session)
    requires LivenessInv(p.sessions, p.disposed) && id !in p.disposed && !s.closed && Coherent(s)
    ensures LivenessInv(p.sessions[id := s], p.disposed)
  {
  }

  lemma PublishPending(p: Pool, now: int, id: AdapterId, s: Session)
    requires id !in p.sessions
    requires OrderInv(p.sessions, p.lru, p.pending, p.pendingSince)
    ensures OrderInv(p.sessions[id := s], p.lru, p.pending + {id}, p.pendingSince[id := now])
    ensures id !in p.lru
  {
  }

  lemma PublishKeeps(p: Pool, now: int, sub: SubagentId, id: AdapterId, model: ModelId)
    requires RepInv(p) && |p.sessions| + |p.creating| < p.maxHot
    requires sub !in p.subagents && sub !in p.creating && id !in p.sessions && id !in p.disposed
    ensures RepInv(Publish(p, now, sub, id, model))
    ensures id !in Publish(p, now, sub, id, model).evicting
  {
    var s := NewSession(sub, model);
    PublishMapping(p, sub, id, s);
    PublishCapacity(p, id, s);
    PublishLiveness(p, id, s);
    PublishPending(p, now, id, s);
    assert CreationInv(p.creating, p.cancelledCreations, p.subagents[sub := id]);
    assert BusyInv(p.sessions[id := NewSession(sub, model)], p.busy, p.leases);
    assert TimersInv(p.sessions[id := NewSession(sub, model)], p.cancelTimers);
  }

  lemma DisposeFreshKeeps(p: Pool, id: AdapterId, s: Session)
    requires RepInv(p) && id !in p.sessions && s.closed && Coherent(s)
    ensures RepInv(p.(disposed := p.disposed[id := s]))
  {
    assert LivenessInv(p.sessions, p.disposed[id := s]);
  }

  lemma EnsureResumeKeeps(p: Pool, now: int, sub: SubagentId, model: ModelId, task: Option<TaskId>, acquire: bool,
                          created: Option<AdapterId>)
    requires RepInv(p) && sub in p.creating
    requires created.Some? ==> created.value !in p.sessions && created.value !in p.disposed
    ensures RepInv(EnsureResume(p, now, sub, model, task, acquire, created).0)
  {
    var q := p.(creating := p.creating - {sub}, cancelledCreations := p.cancelledCreations - {sub});
    EndCreationKeeps(p, sub);
    if created.Some? {
      if sub in p.cancelledCreations {
        DisposeFreshKeeps(q, created.value, NewSession(sub, model).(closed := true));
      } else {
        PublishKeeps(q, now, sub, created.value, model);
        if acquire {
          AcquireKeeps(Publish(q, now, sub, created.value, model), created.value, task);
        }
      }
    }
  }

  /** Replacing a live session's register by another one of the same subagent. */
  lemma UpdateMapping(p: Pool, id: AdapterId, s: Session)
    requires MappingInv(p.sessions, p.subagents) && id in p.sessions && s.subagent == p.sessions[id].subagent
    ensures MappingInv(p.sessions[id := s], p.subagents)
  {
  }

  lemma UpdateCapacity(p: Pool, id: AdapterId, s: Session)
    requires CapacityInv(p.maxHot, p.sessions, p.creating) && id in p.sessions
    ensures CapacityInv(p.maxHot, p.sessions[id := s], p.creating)
  {
    assert p.sessions[id := s].Keys == p.sessions.Keys;
  }

  lemma UpdateLiveness(p: Pool, id: AdapterId, s: Session)
    requires LivenessInv(p.sessions, p.disposed) && id in p.sessions && !s.closed && Coherent(s)
    ensures LivenessInv(p.sessions[id := s], p.disposed)
  {
  }

  lemma UpdateMembership(p: Pool, id: AdapterId, s: Session)
    requires id in p.sessions
    ensures OrderInv(p.sessions, p.lru, p.pending, p.pendingSince)
            ==> OrderInv(p.sessions[id := s], p.lru, p.pending, p.pendingSince)
    ensures BusyInv(p.sessions, p.busy, p.leases) ==> BusyInv(p.sessions[id := s], p.busy, p.leases)
    ensures TimersInv(p.sessions, p.cancelTimers) ==> TimersInv(p.sessions[id := s], p.cancelTimers)
  {
  }

  lemma UpdateSessionKeeps(p: Pool, id: AdapterId, s: Session)
    requires RepInv(p) && id in p.sessions
    requires s.subagent == p.sessions[id].subagent && !s.closed && Coherent(s)
    ensures RepInv(p.(sessions := p.sessions[id := s]))
  {
    UpdateMapping(p, id, s);
    UpdateCapacity(p, id, s);
    UpdateLiveness(p, id, s);
    UpdateMembership(p, id, s);
  }

  lemma ScheduleKeeps(p: Pool, now: int, id: AdapterId)
    requires RepInv(p) && id in p.sessions
    ensures RepInv(ScheduleCancelCleanup(p, now, id))
  {
    assert TimersInv(p.sessions, ScheduleCancelCleanup(p, now, id).cancelTimers);
  }

  lemma AbortTurnKeeps(p: Pool, now: int, id: AdapterId, task: Option<TaskId>)
    requires RepInv(p) && id in p.sessions
    ensures RepInv(AbortTurn(p, now, id, task).0)
  {
    var q := p.(sessions := p.sessions[id := Abort(p.sessions[id], task)]);
    UpdateSessionKeeps(p, id, Abort(p.sessions[id], task));
    ScheduleKeeps(q, now, id);
  }

  lemma CancelLeaseKeeps(p: Pool, id: AdapterId)
    requires RepInv(p) && id in p.leases
    ensures RepInv(p.(leases := p.leases[id := p.leases[id].(cancelled := true)]))
  {
  }

  lemma CancelBeginKeeps(p: Pool, now: int, sub: SubagentId, task: Option<TaskId>)
    requires RepInv(p)
    ensures RepInv(CancelBegin(p, now, sub, task).0)
  {
    if sub in p.subagents {
      var id := p.subagents[sub];
      if id in p.leases {
        CancelLeaseKeeps(p, id);
      }
      AbortTurnKeeps(p, now, id, task);
    }
  }

  lemma CancelResumeKeeps(p: Pool, id: AdapterId, aborted: bool)
    requires RepInv(p)
    ensures RepInv(CancelResume(p, id, aborted))
  {
  }

  lemma CancelTimerFiresKeeps(p: Pool, id: AdapterId)
    requires RepInv(p)
    ensures RepInv(CancelTimerFires(p, id))
  {
    var q := p.(cancelTimers := p.cancelTimers - {id});
    assert RepInv(q);
    CloseAllKeeps(q, {id});
  }

  lemma CloseKeeps(p: Pool, id: AdapterId)
    requires RepInv(p)
    ensures RepInv(Close(p, id))
  {
    CloseAllKeeps(p, {id});
  }

  lemma ActivateOrder(p: Pool, id: AdapterId)
    requires OrderInv(p.sessions, p.lru, p.pending, p.pendingSince) && id in p.pending
    ensures OrderInv(p.sessions, [id] + p.lru, p.pending - {id}, p.pendingSince - {id})
  {
  }

  lemma ActivateKeeps(p: Pool, id: AdapterId)
    requires RepInv(p)
    ensures RepInv(Activate(p, id).0)
  {
    if id in p.pending {
      ActivateOrder(p, id);
      assert EvictingInv([id] + p.lru, p.busy, p.evicting);
      assert TimersInv(p.sessions, p.cancelTimers - {id});
    }
  }

  lemma MarkTurnStartedKeeps(p: Pool, id: AdapterId, task: Option<TaskId>)
    requires RepInv(p)
    ensures RepInv(MarkTurnStarted(p, id, task).0)
  {
  }

  lemma EndTurnKeeps(p: Pool, now: int, id: AdapterId)
    requires RepInv(p)
    ensures RepInv(EndTurn(p, now, id))
  {
  }

  lemma MarkEvictingKeeps(p: Pool, now: int, id: AdapterId)
    requires RepInv(p) && id in p.lru && id !in p.busy
    ensures RepInv(p.(evicting := p.evicting[id := now]))
  {
    assert EvictingInv(p.lru, p.busy, p.evicting[id := now]);
  }

  lemma ReserveKeeps(p: Pool, now: int, id: AdapterId)
    requires RepInv(p)
    ensures RepInv(Reserve(p, now, id).0)
  {
    if id in p.sessions && id !in p.pending && id !in p.busy {
      MarkEvictingKeeps(p, now, id);
    }
  }

  lemma ReserveForEvictionKeeps(p: Pool, now: int, id: AdapterId)
    requires RepInv(p)
    ensures RepInv(ReserveForEviction(p, now, id).0)
  {
    ReleaseExpiredKeeps(p, now);
    ReserveKeeps(ReleaseExpiredEvictions(p, now), now, id);
  }

  lemma ReleaseEvictionKeeps(p: Pool, id: AdapterId)
    requires RepInv(p)
    ensures RepInv(ReleaseEviction(p, id))
  {
    assert EvictingInv(p.lru, p.busy, p.evicting - {id});
  }

  // ---- room for a creation ----

  /** A subagent the pool has no session for, and room for one. */
  ghost predicate Room(p: Pool, sub: SubagentId) {
    && sub !in p.subagents && sub !in p.creating
    && |p.sessions| + |p.creating| < p.maxHot
  }

  lemma CloseRoom(p: Pool, id: AdapterId)
    requires RepInv(p) && id in p.sessions
    ensures Room(Close(p, id), p.sessions[id].subagent)
  {
    hide OrderInv, LivenessInv, Without;
    assert (p.sessions - {id}).Keys == p.sessions.Keys - {id};
  }
}
