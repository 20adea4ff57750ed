/** `SessionPool` with its fields updated in place. Each method carries out one stretch of
    code between awaits and is proved to have the effect of the operation of `PoolModel`
    with the same name on `View()`, the abstract pool. */
module SessionPools {
  import opened Options
  import opened PiSession
  import opened PoolModel

  /** Every object is among `objects` and stored under its own adapter id, so no object is
      stored twice. */
  ghost predicate Filed(m: map<AdapterId, PiSdkSession>, objects: set<PiSdkSession>) {
    forall id | id in m :: m[id] in objects && m[id].adapterId == id
  }

  type Registers = map<PiSdkSession, Session>

  ghost function RegistersOf(objects: set<PiSdkSession>): Registers
    reads objects
  {
    map o | o in objects :: o.State()
  }

  lemma RegistersGrow(objects: set<PiSdkSession>, o: PiSdkSession)
    ensures RegistersOf(objects + {o}) == RegistersOf(objects)[o := o.State()]
    ensures RegistersOf(objects).Keys == objects
  {
  }

  lemma RegistersHold(objects: set<PiSdkSession>)
    ensures RegistersOf(objects).Keys == objects
    ensures forall o | o in objects :: RegistersOf(objects)[o] == o.State()
  {
  }

  /** All registers but one are as they were at the time of `r`. */
  lemma RegistersChange(objects: set<PiSdkSession>, r: Registers, o: PiSdkSession)
    requires r.Keys == objects && o in objects
    requires forall x | x in objects && x != o :: x.State() == r[x]
    ensures RegistersOf(objects) == r[o := o.State()]
  {
  }

  /** What the objects of `m` hold, by adapter id. */
  ghost function States(m: map<AdapterId, PiSdkSession>, registers: Registers): map<AdapterId, Session>
    requires Filed(m, registers.Keys)
  {
    map id | id in m :: registers[m[id]]
  }

  lemma StatesKeys(m: map<AdapterId, PiSdkSession>, r: Registers)
    requires Filed(m, r.Keys)
    ensures forall id :: id in States(m, r) <==> id in m
    ensures forall id | id in m :: States(m, r)[id] == r[m[id]]
  {
  }

  lemma RemoveObject(m: map<AdapterId, PiSdkSession>, r: Registers, id: AdapterId, s: Session)
    requires Filed(m, r.Keys) && id in m
    ensures Filed(Delete(m, id), r.Keys)
    ensures States(Delete(m, id), r[m[id] := s]) == Delete(States(m, r), id)
  {
    var before, after := States(m, r), States(Delete(m, id), r[m[id] := s]);
    forall x | x in m && x != id
      ensures x in after && x in before && after[x] == before[x]
    {
      assert m[x].adapterId != m[id].adapterId;
    }
  }

  lemma AddObject(m: map<AdapterId, PiSdkSession>, r: Registers, o: PiSdkSession, s: Session)
    requires Filed(m, r.Keys) && o.adapterId !in m
    ensures Filed(m[o.adapterId := o], r.Keys + {o})
    ensures States(m[o.adapterId := o], r[o := s]) == States(m, r)[o.adapterId := s]
  {
    var n, q := m[o.adapterId := o], r[o := s];
    assert q.Keys == r.Keys + {o} && Filed(n, q.Keys);
    StatesKeys(m, r);
    StatesKeys(n, q);
    hide States;
    forall x
      ensures x in States(n, q) <==> x in States(m, r)[o.adapterId := s]
      ensures x in m ==> States(n, q)[x] == States(m, r)[x]
    {
      assert x in m ==> m[x].adapterId == x && m[x] != o;
    }
  }

  lemma ChangeObject(m: map<AdapterId, PiSdkSession>, r: Registers, id: AdapterId, s: Session)
    requires Filed(m, r.Keys) && id in m
    ensures States(m, r[m[id] := s]) == States(m, r)[id := s]
  {
    var before, after := States(m, r), States(m, r[m[id] := s]);
    assert after.Keys == m.Keys && before.Keys == m.Keys;
    forall x | x in m && x != id
      ensures x in after && x in before && after[x] == before[x]
    {
      assert m[x].adapterId != m[id].adapterId;
    }
    assert after[id] == s;
  }

  lemma OtherObject(m: map<AdapterId, PiSdkSession>, r: Registers, o: PiSdkSession, s: Session)
    requires Filed(m, r.Keys) && o.adapterId !in m
    ensures Filed(m, r.Keys + {o}) && States(m, r[o := s]) == States(m, r)
  {
    var before, after := States(m, r), States(m, r[o := s]);
    assert after.Keys == m.Keys && before.Keys == m.Keys;
    forall x | x in m
      ensures x in after && x in before && after[x] == before[x]
    {
      assert m[x].adapterId != o.adapterId;
    }
  }

  function IndexOf(s: seq<AdapterId>, id: AdapterId): (i: int)
    ensures -1 <= i < |s|
    ensures i < 0 <==> id !in s
    ensures 0 <= i ==> s[i] == id
  {
    if s == [] then -1
    else if s[0] == id then 0
    else
      var i := IndexOf(s[1..], id);
      if i < 0 then i else i + 1
  }

  lemma NewObject(m: map<AdapterId, PiSdkSession>, n: map<AdapterId, PiSdkSession>, r: Registers, o: PiSdkSession,
                  s: Session)
    requires Filed(m, r.Keys) && Filed(n, r.Keys) && o.adapterId !in m && o.adapterId !in n
    ensures Filed(m[o.adapterId := o], r.Keys + {o}) && Filed(n, r.Keys + {o})
    ensures States(m[o.adapterId := o], r[o := s]) == States(m, r)[o.adapterId := s]
    ensures States(n, r[o := s]) == States(n, r)
  {
    hide States;
    AddObject(m, r, o, s);
    OtherObject(n, r, o, s);
  }

  /** `Map.delete`. */
  function Delete<V>(m: map<int, V>, key: int): map<int, V> {
    m - {key}
  }

  /** `Set.delete`. */
  function Discard(s: set<int>, x: int): set<int> {
    s - {x}
  }

  /** `s.splice(i, 1)`, skipped for a negative index. */
  function Spliced(s: seq<AdapterId>, i: int): seq<AdapterId>
    requires i < |s|
  {
    if i < 0 then s else s[..i] + s[i + 1..]
  }

  // ---- facts about the abstract operations that the loops need ----

  lemma {:induction false} WithoutOne(s: seq<AdapterId>, i: nat)
    requires NoDuplicates(s) && i < |s|
    ensures Without(s, {s[i]}) == s[..i] + s[i + 1..]
  {
    if i == 0 {
      WithoutStrangers(s[1..], {s[0]});
    } else {
      WithoutOne(s[1..], i - 1);
      assert s[1..][..i - 1] == s[1..i] && s[1..][i..] == s[i + 1..];
      assert s[..i] == [s[0]] + s[1..i];
    }
  }

  /** Closing sessions one after the other closes them all. */
  lemma CloseOneMore(p: Pool, done: set<AdapterId>, id: AdapterId)
    requires id in p.sessions && id !in done
    ensures Close(CloseAll(p, done), id) == CloseAll(p, done + {id})
  {
    hide Without, Dispose;
    WithoutTwice(p.lru, done, {id});
    CloseOneMoreSubagents(p.sessions, p.subagents, done, id);
    CloseOneMoreDisposed(p.sessions, p.disposed, done, id);
    Minus(p.sessions, done, id);
    Minus(p.leases, done, id);
    Minus(p.evicting, done, id);
    Minus(p.cancelTimers, done, id);
    Minus(p.pendingSince, done, id);
    assert p.busy - done - {id} == p.busy - (done + {id});
    assert p.pending - done - {id} == p.pending - (done + {id});
  }

  lemma CloseNone(p: Pool)
    ensures CloseAll(p, {}) == p
  {
    hide Without;
    WithoutStrangers(p.lru, {});
    NothingClosed(p.sessions);
    hide Owners, Dispose;
    MinusNone(p.sessions);
    MinusNone(p.subagents);
    MinusNone(p.leases);
    MinusNone(p.evicting);
    MinusNone(p.cancelTimers);
    MinusNone(p.pendingSince);
    assert p.disposed + map[] == p.disposed && p.busy - {} == p.busy && p.pending - {} == p.pending;
  }

  lemma NothingClosed(sessions: map<AdapterId, Session>)
    ensures Owners(sessions, {}) == {} && Dispose(sessions, {}) == map[]
  {
  }

  lemma MinusNone<V>(m: map<int, V>)
    ensures m - {} == m
  {
  }

  /** A pending session that is not among the closed ones is as it was. */
  lemma CloseAllFrame(p: Pool, done: set<AdapterId>, id: AdapterId)
    requires RepInv(p) && id in p.pending && id !in done
    ensures var q := CloseAll(p, done);
            && id in p.sessions && (id in q.busy <==> id in p.busy)
            && id in p.pendingSince && id in q.pendingSince && q.pendingSince[id] == p.pendingSince[id]
  {
  }

  lemma Minus<V>(m: map<AdapterId, V>, a: set<AdapterId>, id: AdapterId)
    ensures m - a - {id} == m - (a + {id})
  {
  }

  lemma CloseOneMoreSubagents(sessions: map<AdapterId, Session>, subagents: map<SubagentId, AdapterId>,
                              done: set<AdapterId>, id: AdapterId)
    requires id in sessions && id !in done
    ensures subagents - Owners(sessions, done) - Owners(sessions - done, {id})
            == subagents - Owners(sessions, done + {id})
  {
    var last := Owners(sessions - done, {id});
    assert sessions[id].subagent in last by { assert id in sessions - done; }
    assert Owners(sessions, done) + last == Owners(sessions, done + {id});
  }

  lemma CloseOneMoreDisposed(sessions: map<AdapterId, Session>, disposed: map<AdapterId, Session>,
                             done: set<AdapterId>, id: AdapterId)
    requires id in sessions && id !in done
    ensures disposed + Dispose(sessions, done) + Dispose(sessions - done, {id})
            == disposed + Dispose(sessions, done + {id})
  {
  }

  lemma PooledNotDisposed(p: Pool, id: AdapterId)
    requires RepInv(p) && id in p.sessions
    ensures id !in p.disposed && p.sessions[id].subagent in p.subagents && p.subagents[p.sessions[id].subagent] == id
  {
  }

  lemma CloseAbsent(p: Pool, id: AdapterId)
    requires id !in p.sessions
    ensures Close(p, id) == p
  {
  }

  lemma CloseByFields(p: Pool, q: Pool, id: AdapterId)
    requires RepInv(p) && id in p.sessions
    requires q == Pool(p.maxHot, Delete(p.sessions, id), p.disposed[id := p.sessions[id].(closed := true)],
                       Delete(p.subagents, p.sessions[id].subagent), Spliced(p.lru, IndexOf(p.lru, id)),
                       Discard(p.busy, id), Delete(p.leases, id), Discard(p.pending, id), p.creating,
                       p.cancelledCreations,
                       Delete(p.pendingSince, id), Delete(p.cancelTimers, id), Delete(p.evicting, id))
    ensures q == Close(p, id) && RepInv(q)
  {
    hide RepInv, Without, IndexOf, NoDuplicates, Owners, Dispose;
    CloseKeeps(p, id);
    ActiveOnce(p);
    WithoutByIndex(p.lru, id);
    OwnerOfOne(p.sessions, id);
    DisposeOne(p.sessions, p.disposed, id);
    assert q == CloseAll(p, {id});
  }

  lemma WithoutByIndex(s: seq<AdapterId>, id: AdapterId)
    requires NoDuplicates(s)
    ensures Without(s, {id}) == Spliced(s, IndexOf(s, id))
  {
    hide NoDuplicates, IndexOf;
    var i := IndexOf(s, id);
    if i >= 0 {
      WithoutOne(s, i);
    } else {
      WithoutStrangers(s, {id});
    }
  }

  lemma OwnerOfOne(sessions: map<AdapterId, Session>, id: AdapterId)
    requires id in sessions
    ensures Owners(sessions, {id}) == {sessions[id].subagent}
  {
  }

  lemma DisposeOne(sessions: map<AdapterId, Session>, disposed: map<AdapterId, Session>, id: AdapterId)
    requires id in sessions
    ensures disposed + Dispose(sessions, {id}) == disposed[id := sessions[id].(closed := true)]
  {
  }

  lemma ActiveOnce(p: Pool)
    requires RepInv(p)
    ensures NoDuplicates(p.lru)
  {
  }

  /** The reservations that are not expired or still to be looked at. */
  function Unexpired(evicting: map<AdapterId, int>, cutoff: int, todo: set<AdapterId>): map<AdapterId, int> {
    map id | id in evicting && (id in todo || evicting[id] > cutoff) :: evicting[id]
  }

  lemma UnexpiredLeft(p: Pool, now: int)
    ensures Unexpired(p.evicting, now - EVICTION_RESERVATION_TTL_MS, p.evicting.Keys) == p.evicting
    ensures ReleaseExpiredEvictions(p, now)
            == p.(evicting := Unexpired(p.evicting, now - EVICTION_RESERVATION_TTL_MS, {}))
  {
  }

  lemma NoneExpired(p: Pool, now: int)
    requires |p.evicting| == 0
    ensures ReleaseExpiredEvictions(p, now) == p
  {
    assert |p.evicting.Keys| == 0;
  }

  // The abstract operations, field by field.

  lemma EndTurnFields(p: Pool, now: int, id: AdapterId)
    ensures EndTurn(p, now, id) ==
            p.(busy := Discard(p.busy, id), leases := Delete(p.leases, id),
               pendingSince := if id in p.pending then p.pendingSince[id := now] else p.pendingSince)
  {
  }

  lemma ActivateFields(p: Pool, id: AdapterId)
    ensures Activate(p, id) ==
            if id in p.lru then (p, true)
            else if id !in p.pending then (p, false)
            else (p.(pending := Discard(p.pending, id), cancelTimers := Delete(p.cancelTimers, id),
                     pendingSince := Delete(p.pendingSince, id), lru := [id] + p.lru), true)
  {
  }

  lemma ReleaseFields(p: Pool, id: AdapterId)
    ensures ReleaseEviction(p, id) == p.(evicting := Delete(p.evicting, id))
  {
  }

  lemma TouchFields(p: Pool, id: AdapterId)
    requires RepInv(p)
    ensures Touch(p, id) ==
            p.(lru := var i := IndexOf(p.lru, id); if i > 0 then [id] + Spliced(p.lru, i) else p.lru)
  {
    hide RepInv, IndexOf;
    ActiveOnce(p);
    WithoutByIndex(p.lru, id);
  }

  lemma CloseUnmaps(p: Pool, sub: SubagentId)
    requires RepInv(p) && sub in p.subagents
    ensures sub !in Close(p, p.subagents[sub]).subagents
  {
    MappedIsPooled(p, sub);
    OwnerOfOne(p.sessions, p.subagents[sub]);
  }

  lemma TimerFields(p: Pool, id: AdapterId)
    ensures CancelResume(p, id, false) == p.(cancelTimers := Delete(p.cancelTimers, id))
    ensures CancelTimerFires(p, id) ==
            if id in p.sessions && p.sessions[id].cancellationPending
            then Close(p.(cancelTimers := Delete(p.cancelTimers, id)), id)
            else p.(cancelTimers := Delete(p.cancelTimers, id))
  {
  }

  lemma ResumeFailed(p: Pool, now: int, sub: SubagentId, model: ModelId, task: Option<TaskId>, acquire: bool)
    ensures EnsureResume(p, now, sub, model, task, acquire, None) ==
            (p.(creating := Delete(p.creating, sub), cancelledCreations := Discard(p.cancelledCreations, sub)),
             CreationFailed)
  {
  }

  lemma ResumeCancelled(p: Pool, now: int, sub: SubagentId, model: ModelId, task: Option<TaskId>, acquire: bool,
                        id: AdapterId)
    requires sub in p.cancelledCreations
    ensures EnsureResume(p, now, sub, model, task, acquire, Some(id)) ==
            (p.(creating := Delete(p.creating, sub), cancelledCreations := Discard(p.cancelledCreations, sub),
                disposed := p.disposed[id := NewSession(sub, model).(closed := true)]),
             CreationCancelled)
  {
  }

  lemma ResumePublished(p: Pool, now: int, sub: SubagentId, model: ModelId, task: Option<TaskId>, acquire: bool,
                        id: AdapterId)
    requires sub !in p.cancelledCreations
    ensures EnsureResume(p, now, sub, model, task, acquire, Some(id)) ==
            (p.(creating := Delete(p.creating, sub), cancelledCreations := Discard(p.cancelledCreations, sub),
                sessions := p.sessions[id := NewSession(sub, model)],
                subagents := p.subagents[sub := id], pending := p.pending + {id},
                pendingSince := p.pendingSince[id := now],
                busy := if acquire then p.busy + {id} else p.busy,
                leases := if acquire then p.leases[id := Lease(task, false, false)] else p.leases),
             Published(id))
  {
  }

  method Pick<T>(s: set<T>) returns (x: T)
    requires s != {}
    ensures x in s
  {
    x :| x in s;
  }

  class SessionPool {
    const maxHot: nat
    var sessions: map<AdapterId, PiSdkSession>
    var subagentMap: map<SubagentId, AdapterId>
    var lru: seq<AdapterId>
    var busySessions: set<AdapterId>
    var turnLeases: map<AdapterId, Lease>
    var pendingSessions: set<AdapterId>
    var creatingSubagents: map<SubagentId, Option<TaskId>>
    var cancelledCreations: set<SubagentId>
    var pendingSince: map<AdapterId, int>
    var pendingCancelCleanup: map<AdapterId, int>
    var evictingSessions: map<AdapterId, int>
    ghost var disposed: map<AdapterId, PiSdkSession>
    ghost var objects: set<PiSdkSession>

    ghost predicate Linked()
      reads this
    {
      Filed(sessions, objects) && Filed(disposed, objects)
    }

    ghost function View(): Pool
      requires Linked()
      reads this, objects
    {
      Pool(maxHot, States(sessions, RegistersOf(objects)), States(disposed, RegistersOf(objects)), subagentMap, lru,
           busySessions, turnLeases, pendingSessions, creatingSubagents, cancelledCreations, pendingSince,
           pendingCancelCleanup, evictingSessions)
    }

    ghost predicate Valid()
      reads this, objects
    {
      Linked() && RepInv(View())
    }

    lemma SameKeys()
      requires Linked()
      ensures forall id :: id in View().sessions <==> id in sessions
      ensures forall id :: id in View().disposed <==> id in disposed
      ensures forall id | id in sessions :: View().sessions[id] == sessions[id].State()
    {
      StatesKeys(sessions, RegistersOf(objects));
      StatesKeys(disposed, RegistersOf(objects));
    }

    constructor (maxHot: nat)
      requires 1 <= maxHot
      ensures Valid() && View() == EmptyPool(maxHot)
    {
      this.maxHot := maxHot;
      sessions, subagentMap, lru, busySessions, turnLeases := map[], map[], [], {}, map[];
      pendingSessions, creatingSubagents, cancelledCreations := {}, map[], {};
      pendingSince, pendingCancelCleanup, evictingSessions := map[], map[], map[];
      disposed, objects := map[], {};
      new;
      assert View() == EmptyPool(maxHot);
    }

    // ---- close ----

    /** Takes a session out of the maps; the session itself is not touched. */
    method Unlist(id: AdapterId, session: PiSdkSession)
      modifies `sessions, `subagentMap, `lru, `disposed
      ensures sessions == Delete(old(sessions), id) && disposed == old(disposed)[id := session]
      ensures subagentMap == Delete(old(subagentMap), session.subagent)
      ensures lru == Spliced(old(lru), IndexOf(old(lru), id))
    {
      sessions := Delete(sessions, id);
      subagentMap := Delete(subagentMap, session.subagent);
      lru := Spliced(lru, IndexOf(lru, id));
      disposed := disposed[id := session];
    }

    method ForgetTurn(id: AdapterId)
      modifies `busySessions, `turnLeases, `evictingSessions
      ensures busySessions == Discard(old(busySessions), id) && turnLeases == Delete(old(turnLeases), id)
      ensures evictingSessions == Delete(old(evictingSessions), id)
    {
      busySessions := Discard(busySessions, id);
      turnLeases := Delete(turnLeases, id);
      evictingSessions := Delete(evictingSessions, id);
    }

    method ForgetPending(id: AdapterId)
      modifies `pendingCancelCleanup, `pendingSessions, `pendingSince
      ensures pendingCancelCleanup == Delete(old(pendingCancelCleanup), id)
      ensures pendingSessions == Discard(old(pendingSessions), id) && pendingSince == Delete(old(pendingSince), id)
    {
      pendingCancelCleanup := Delete(pendingCancelCleanup, id);
      pendingSessions := Discard(pendingSessions, id);
      pendingSince := Delete(pendingSince, id);
    }

    /** Takes a session out of every field; the session itself is not touched. */
    method Forget(id: AdapterId, session: PiSdkSession)
      modifies `sessions, `subagentMap, `lru, `disposed, `busySessions, `turnLeases, `evictingSessions,
               `pendingCancelCleanup, `pendingSessions, `pendingSince
      ensures sessions == Delete(old(sessions), id) && disposed == old(disposed)[id := session]
      ensures subagentMap == Delete(old(subagentMap), session.subagent)
      ensures lru == Spliced(old(lru), IndexOf(old(lru), id))
      ensures busySessions == Discard(old(busySessions), id) && turnLeases == Delete(old(turnLeases), id)
      ensures evictingSessions == Delete(old(evictingSessions), id)
      ensures pendingCancelCleanup == Delete(old(pendingCancelCleanup), id)
      ensures pendingSessions == Discard(old(pendingSessions), id) && pendingSince == Delete(old(pendingSince), id)
    {
      hide *;
      Unlist(id, session);
      ForgetTurn(id);
      ForgetPending(id);
    }

    method CloseSession(id: AdapterId)
      requires Valid()
      modifies this, objects
      ensures Valid() && View() == Close(old(View()), id)
      ensures objects == old(objects)
    {
      hide RepInv, Close, IndexOf, Spliced, Delete, Discard, States;
      ghost var p, r := View(), RegistersOf(objects);
      SameKeys();
      if id !in sessions {
        CloseAbsent(p, id);
        return;
      }
      PooledNotDisposed(p, id);
      var session := sessions[id];
      Forget(id, session);
      session.Close();
      assert RegistersOf(objects) == r[session := session.State()];
      RemoveObject(old(sessions), r, id, session.State());
      AddObject(old(disposed), r, session, session.State());
      CloseByFields(p, View(), id);
    }

    // ---- expiry ----

    method ReleaseExpired(now: int)
      requires Valid()
      modifies `evictingSessions
      ensures Valid() && View() == ReleaseExpiredEvictions(old(View()), now)
    {
      hide RepInv, States, ReleaseExpiredEvictions;
      ghost var p := View();
      ReleaseExpiredKeeps(p, now);
      UnexpiredLeft(p, now);
      if |evictingSessions| == 0 {
        NoneExpired(p, now);
        return;
      }
      var cutoff := now - EVICTION_RESERVATION_TTL_MS;
      var todo := evictingSessions.Keys;
      while todo != {}
        invariant todo <= p.evicting.Keys
        invariant evictingSessions == Unexpired(p.evicting, cutoff, todo)
        decreases |todo|
      {
        var id := Pick(todo);
        todo := todo - {id};
        if evictingSessions[id] <= cutoff {
          evictingSessions := Delete(evictingSessions, id);
        }
      }
    }

    /** Runs through the pending sessions in any order. */
    method EvictExpired(now: int)
      requires Valid()
      modifies this, objects
      ensures Valid() && View() == EvictExpiredPending(old(View()), now)
      ensures objects == old(objects)
    {
      hide RepInv, Close, CloseAll, States;
      ghost var p := View();
      ghost var done: set<AdapterId> := {};
      CloseNone(p);
      var todo := pendingSessions;
      while todo != {}
        invariant Valid() && objects == old(objects)
        invariant todo <= p.pending && View() == CloseAll(p, done)
        invariant done == ExpiredPending(p, now) - todo
        decreases |todo|
      {
        var id := Pick(todo);
        CloseAllFrame(p, done, id);
        todo := todo - {id};
        if id !in busySessions && id in pendingSince && now - pendingSince[id] > PENDING_TTL_MS {
          CloseOneMore(p, done, id);
          done := done + {id};
          CloseSession(id);
        }
      }
      assert done == ExpiredPending(p, now);
    }

    method GetLruCandidate(now: int) returns (candidate: Option<AdapterId>)
      requires Valid()
      modifies `evictingSessions
      ensures Valid() && View() == LruCandidate(old(View()), now).0
      ensures candidate == LruCandidate(old(View()), now).1
    {
      hide RepInv, States;
      LruCandidateKeeps(View(), now);
      ReleaseExpired(now);
      assert lru[..|lru|] == lru;
      var i := |lru| - 1;
      while i >= 0
        invariant -1 <= i < |lru|
        invariant LastFree(lru[..i + 1], busySessions + evictingSessions.Keys)
                  == LastFree(lru, busySessions + evictingSessions.Keys)
      {
        var id := lru[i];
        assert lru[..i + 1][..i] == lru[..i];
        if id !in busySessions && id !in evictingSessions {
          evictingSessions := evictingSessions[id := now];
          return Some(id);
        }
        i := i - 1;
      }
      return None;
    }

    // ---- turns ----

    method Acquire(id: AdapterId, task: Option<TaskId>)
      modifies `busySessions, `turnLeases
      ensures busySessions == old(busySessions) + {id}
      ensures turnLeases == old(turnLeases)[id := Lease(task, false, false)]
    {
      busySessions := busySessions + {id};
      turnLeases := turnLeases[id := Lease(task, false, false)];
    }

    method TouchSession(id: AdapterId)
      requires Valid()
      modifies `lru
      ensures Valid() && View() == Touch(old(View()), id)
    {
      hide RepInv, Touch, IndexOf, Spliced, States;
      TouchKeeps(View(), id);
      TouchFields(View(), id);
      var idx := IndexOf(lru, id);
      if idx > 0 {
        lru := [id] + Spliced(lru, idx);
      }
    }

    method MarkStarted(id: AdapterId, task: Option<TaskId>) returns (started: bool)
      requires Valid()
      modifies `turnLeases
      ensures Valid() && View() == MarkTurnStarted(old(View()), id, task).0
      ensures started == MarkTurnStarted(old(View()), id, task).1
    {
      hide RepInv, States;
      MarkTurnStartedKeeps(View(), id, task);
      if id !in turnLeases {
        return true;
      }
      var lease := turnLeases[id];
      if lease.taskId != task {
        return false;
      }
      if lease.cancelled {
        return false;
      }
      turnLeases := turnLeases[id := lease.(started := true)];
      return true;
    }

    method EndSessionTurn(id: AdapterId, now: int)
      requires Valid()
      modifies `busySessions, `turnLeases, `pendingSince
      ensures Valid() && View() == EndTurn(old(View()), now, id)
    {
      hide RepInv, EndTurn, Delete, Discard, States;
      EndTurnKeeps(View(), now, id);
      EndTurnFields(View(), now, id);
      busySessions := Discard(busySessions, id);
      turnLeases := Delete(turnLeases, id);
      if id in pendingSessions {
        pendingSince := pendingSince[id := now];
      }
    }

    // ---- activation and eviction ----

    method ActivateSession(id: AdapterId) returns (found: bool)
      requires Valid()
      modifies `pendingSessions, `pendingCancelCleanup, `pendingSince, `lru
      ensures Valid() && View() == Activate(old(View()), id).0 && found == Activate(old(View()), id).1
    {
      hide RepInv, Activate, Delete, Discard, States;
      ActivateKeeps(View(), id);
      ActivateFields(View(), id);
      if id in lru {
        return true;
      }
      if id !in pendingSessions {
        return false;
      }
      pendingSessions := Discard(pendingSessions, id);
      pendingCancelCleanup := Delete(pendingCancelCleanup, id);
      pendingSince := Delete(pendingSince, id);
      lru := [id] + lru;
      return true;
    }

    method ReserveSession(id: AdapterId, now: int) returns (reserved: bool)
      requires Valid()
      modifies `evictingSessions
      ensures Valid() && View() == ReserveForEviction(old(View()), now, id).0
      ensures reserved == ReserveForEviction(old(View()), now, id).1
    {
      hide RepInv, States;
      SameKeys();
      ReserveForEvictionKeeps(View(), now, id);
      ReleaseExpired(now);
      if id in evictingSessions {
        return true;
      }
      if id !in sessions {
        return false;
      }
      if id in pendingSessions {
        return false;
      }
      if id in busySessions {
        return false;
      }
      evictingSessions := evictingSessions[id := now];
      return true;
    }

    method ReleaseReservation(id: AdapterId)
      requires Valid()
      modifies `evictingSessions
      ensures Valid() && View() == ReleaseEviction(old(View()), id)
    {
      hide RepInv, ReleaseEviction, Delete, States;
      ReleaseEvictionKeeps(View(), id);
      ReleaseFields(View(), id);
      evictingSessions := Delete(evictingSessions, id);
    }

    // ---- ensure ----

    /** `ensure` once it has found no session to reuse. */
    method StartMiss(now: int, sub: SubagentId, task: Option<TaskId>) returns (admission: Admission)
      requires Valid() && sub !in subagentMap
      modifies `evictingSessions, `creatingSubagents
      ensures Valid() && View() == Miss(old(View()), now, sub, task).0
      ensures admission == Miss(old(View()), now, sub, task).1
    {
      hide RepInv, States, LruCandidate;
      MissKeeps(View(), now, sub, task);
      if sub in creatingSubagents {
        return AllBusy;
      }
      SameSize();
      if |sessions| + |creatingSubagents| >= maxHot {
        var candidate := GetLruCandidate(now);
        if candidate.None? {
          return AllBusy;
        }
        return LimitReached(candidate.value);
      }
      creatingSubagents := creatingSubagents[sub := task];
      return Create;
    }

    lemma SameSize()
      requires Linked()
      ensures |View().sessions| == |sessions|
    {
      SameKeys();
      assert View().sessions.Keys == sessions.Keys;
    }

    /** `ensure` up to its await, after its housekeeping. */
    method AdmitRequest(now: int, sub: SubagentId, model: ModelId, task: Option<TaskId>, acquire: bool)
      returns (admission: Admission)
      requires Valid()
      modifies this, objects
      ensures Valid() && View() == Admit(old(View()), now, sub, model, task, acquire).0
      ensures admission == Admit(old(View()), now, sub, model, task, acquire).1
      ensures objects == old(objects)
    {
      hide RepInv, States, Miss, Close, Touch, AcquireTurn;
      SameKeys();
      if sub in subagentMap {
        var existing := subagentMap[sub];
        MappedIsPooled(View(), sub);
        if existing in sessions {
          var session := sessions[existing];
          if existing in evictingSessions {
            return AllBusy;
          }
          var cancelling := session.IsCancellationPending();
          if cancelling {
            return AllBusy;
          }
          if existing in busySessions {
            return AllBusy;
          }
          if session.model != model {
            CloseUnmaps(View(), sub);
            CloseSession(existing);
          } else {
            admission := Reuse(existing, task, acquire);
            return;
          }
        } else {
          assert false;
        }
      }
      admission := StartMiss(now, sub, task);
    }

    method Reuse(id: AdapterId, task: Option<TaskId>, acquire: bool) returns (admission: Admission)
      requires Valid() && id in sessions && id !in evictingSessions
      modifies `lru, `busySessions, `turnLeases
      ensures Valid() && admission == Hit(id)
      ensures View() == if acquire then AcquireTurn(Touch(old(View()), id), id, task) else Touch(old(View()), id)
    {
      hide RepInv, States, Touch;
      SameKeys();
      HitKeeps(View(), id, task);
      TouchSession(id);
      if acquire {
        Acquire(id, task);
      }
      return Hit(id);
    }

    method EnsureBeforeFactory(now: int, sub: SubagentId, model: ModelId, task: Option<TaskId>, acquire: bool)
      returns (admission: Admission)
      requires Valid()
      modifies this, objects
      ensures Valid() && View() == EnsureBegin(old(View()), now, sub, model, task, acquire).0
      ensures admission == EnsureBegin(old(View()), now, sub, model, task, acquire).1
      ensures objects == old(objects)
    {
      hide RepInv, States, Admit, EvictExpiredPending, ReleaseExpiredEvictions;
      ReleaseExpired(now);
      EvictExpired(now);
      admission := AdmitRequest(now, sub, model, task, acquire);
    }

    /** `ensure` after its await: the factory has thrown, or it has made `created`. */
    method EnsureAfterFactory(now: int, sub: SubagentId, model: ModelId, task: Option<TaskId>, acquire: bool,
                              created: PiSdkSession?) returns (creation: Creation)
      requires Valid() && sub in creatingSubagents
      requires created != null ==>
                 && created !in objects && created.State() == NewSession(sub, model)
                 && created.adapterId !in sessions && created.adapterId !in disposed
      modifies this, created
      ensures Valid() && objects == old(objects) + if created == null then {} else {created}
      ensures var id := if created == null then None else Some(created.adapterId);
              && View() == EnsureResume(old(View()), now, sub, model, task, acquire, id).0
              && creation == EnsureResume(old(View()), now, sub, model, task, acquire, id).1
    {
      hide RepInv, States, EnsureResume, Delete, Discard;
      ghost var p := View();
      SameKeys();
      EnsureResumeKeeps(p, now, sub, model, task, acquire, if created == null then None else Some(created.adapterId));
      if created == null {
        ResumeFailed(p, now, sub, model, task, acquire);
        EndCreation(sub);
        return CreationFailed;
      } else if sub in cancelledCreations {
        ResumeCancelled(p, now, sub, model, task, acquire, created.adapterId);
        DropCreation(sub, created);
        return CreationCancelled;
      } else {
        ResumePublished(p, now, sub, model, task, acquire, created.adapterId);
        KeepCreation(now, sub, task, acquire, created);
        return Published(created.adapterId);
      }
    }

    method EndCreation(sub: SubagentId)
      modifies `cancelledCreations, `creatingSubagents
      ensures cancelledCreations == Discard(old(cancelledCreations), sub)
      ensures creatingSubagents == Delete(old(creatingSubagents), sub)
    {
      cancelledCreations := Discard(cancelledCreations, sub);
      creatingSubagents := Delete(creatingSubagents, sub);
    }

    method DropCreation(sub: SubagentId, created: PiSdkSession)
      requires Linked() && created !in objects && created.adapterId !in sessions && created.adapterId !in disposed
      modifies `disposed, `objects, `cancelledCreations, `creatingSubagents, created
      ensures Linked() && objects == old(objects) + {created}
      ensures var p := old(View());
              View() == p.(disposed := p.disposed[created.adapterId := old(created.State()).(closed := true)],
                           creating := Delete(p.creating, sub),
                           cancelledCreations := Discard(p.cancelledCreations, sub))
    {
      hide States, Delete, Discard, RegistersOf, PiSdkSession.State;
      ghost var r := RegistersOf(objects);
      RegistersGrow(objects, created);
      NewObject(disposed, sessions, r, created, created.State().(closed := true));
      Dismiss(created);
      EndCreation(sub);
      RegistersGrow(old(objects), created);
    }

    method KeepCreation(now: int, sub: SubagentId, task: Option<TaskId>, acquire: bool, created: PiSdkSession)
      requires Linked() && created !in objects && created.adapterId !in sessions && created.adapterId !in disposed
      modifies this
      ensures Linked() && objects == old(objects) + {created}
      ensures var p, id := old(View()), created.adapterId;
              View() == p.(sessions := p.sessions[id := created.State()], subagents := p.subagents[sub := id],
                           pending := p.pending + {id}, pendingSince := p.pendingSince[id := now],
                           busy := if acquire then p.busy + {id} else p.busy,
                           leases := if acquire then p.leases[id := Lease(task, false, false)] else p.leases,
                           creating := Delete(p.creating, sub),
                           cancelledCreations := Discard(p.cancelledCreations, sub))
    {
      hide States, Delete, Discard, RegistersOf, PiSdkSession.State;
      PublishSession(now, sub, created);
      if acquire {
        Acquire(created.adapterId, task);
      }
      EndCreation(sub);
    }

    /** Closes a session that was never published. */
    method Dismiss(session: PiSdkSession)
      modifies `disposed, `objects, session
      ensures disposed == old(disposed)[session.adapterId := session] && objects == old(objects) + {session}
      ensures session.State() == old(session.State()).(closed := true)
    {
      session.Close();
      disposed, objects := disposed[session.adapterId := session], objects + {session};
    }

    method PublishSession(now: int, sub: SubagentId, created: PiSdkSession)
      requires Linked() && created !in objects && created.adapterId !in sessions && created.adapterId !in disposed
      modifies `sessions, `subagentMap, `pendingSessions, `pendingSince, `objects
      ensures Linked() && objects == old(objects) + {created}
      ensures var p, id := old(View()), created.adapterId;
              View() == p.(sessions := p.sessions[id := created.State()], subagents := p.subagents[sub := id],
                           pending := p.pending + {id}, pendingSince := p.pendingSince[id := now])
    {
      hide States, RegistersOf, PiSdkSession.State;
      var id := created.adapterId;
      Enlist(created);
      subagentMap := subagentMap[sub := id];
      pendingSessions := pendingSessions + {id};
      pendingSince := pendingSince[id := now];
    }

    method Enlist(created: PiSdkSession)
      requires Linked() && created !in objects && created.adapterId !in sessions && created.adapterId !in disposed
      modifies `sessions, `objects
      ensures Linked() && objects == old(objects) + {created}
      ensures View() == old(View()).(sessions := old(View()).sessions[created.adapterId := created.State()])
    {
      hide States, RegistersOf, PiSdkSession.State;
      RegistersGrow(objects, created);
      NewObject(sessions, disposed, RegistersOf(objects), created, created.State());
      sessions := sessions[created.adapterId := created];
      objects := objects + {created};
    }


    // ---- cancel ----

    /** The effect on the view of changing the register of one pooled session. */
    lemma OneRegister(p: Pool, r: Registers, id: AdapterId)
      requires Linked() && id in sessions && id !in disposed
      requires r.Keys == objects && RegistersOf(objects) == r[sessions[id] := sessions[id].State()]
      requires p == View().(sessions := States(sessions, r), disposed := States(disposed, r))
      ensures View() == p.(sessions := p.sessions[id := sessions[id].State()])
    {
      ChangeObject(sessions, r, id, sessions[id].State());
      OtherObject(disposed, r, sessions[id], sessions[id].State());
      hide States, RegistersOf;
    }

    method ScheduleCleanup(id: AdapterId, now: int)
      modifies `pendingCancelCleanup
      ensures pendingCancelCleanup == if id in old(pendingCancelCleanup) then old(pendingCancelCleanup)
                                      else old(pendingCancelCleanup)[id := now + PENDING_CANCEL_GRACE_MS]
    {
      if id in pendingCancelCleanup {
        return;
      }
      pendingCancelCleanup := pendingCancelCleanup[id := now + PENDING_CANCEL_GRACE_MS];
    }

    method AbortRunning(now: int, id: AdapterId, task: Option<TaskId>) returns (reply: CancelReply)
      requires Valid() && id in sessions
      modifies `pendingCancelCleanup, objects
      ensures id in old(View()).sessions
      ensures Valid() && View() == AbortTurn(old(View()), now, id, task).0
      ensures reply == AbortTurn(old(View()), now, id, task).1
    {
      hide RepInv, States, RegistersOf;
      ghost var p, r := View(), RegistersOf(objects);
      SameKeys();
      AbortTurnKeeps(p, now, id, task);
      PooledNotDisposed(p, id);
      RegistersHold(objects);
      var session := sessions[id];
      var aborted := session.AbortBegin(task);
      RegistersChange(objects, r, session);
      OneRegister(p, r, id);
      var cancelling := session.IsCancellationPending();
      if !cancelling {
        return Answer(false);
      }
      ScheduleCleanup(id, now);
      return AwaitAbort(id, aborted);
    }

    /** `abortSession` up to its await. */
    method AbortSession(now: int, sub: SubagentId, task: Option<TaskId>) returns (reply: CancelReply)
      requires Valid()
      modifies `turnLeases, `pendingCancelCleanup, `cancelledCreations, objects
      ensures Valid() && View() == CancelBegin(old(View()), now, sub, task).0
      ensures reply == CancelBegin(old(View()), now, sub, task).1
    {
      hide RepInv, States, AbortTurn;
      SameKeys();
      CancelBeginKeeps(View(), now, sub, task);
      if sub !in subagentMap {
        var creatingTask := if sub in creatingSubagents then creatingSubagents[sub] else None;
        if task.Some? && creatingTask != task {
          return Answer(false);
        }
        if creatingTask.Some? || sub in creatingSubagents {
          cancelledCreations := cancelledCreations + {sub};
          return Answer(true);
        }
        return Answer(false);
      }
      MappedIsPooled(View(), sub);
      var id := subagentMap[sub];
      if id in turnLeases && !turnLeases[id].started {
        if task.Some? && turnLeases[id].taskId != task {
          return Answer(false);
        }
        turnLeases := turnLeases[id := turnLeases[id].(cancelled := true)];
        return Answer(true);
      }
      reply := AbortRunning(now, id, task);
    }

    method ClearCleanup(id: AdapterId)
      requires Valid()
      modifies `pendingCancelCleanup
      ensures Valid() && View() == CancelResume(old(View()), id, false)
    {
      hide RepInv, States, Delete, CancelResume;
      CancelResumeKeeps(View(), id, false);
      TimerFields(View(), id);
      pendingCancelCleanup := Delete(pendingCancelCleanup, id);
    }

    /** `abortSession` after its await. */
    method FinishAbort(id: AdapterId, aborted: bool) returns (accepted: bool)
      requires Valid()
      modifies `pendingCancelCleanup
      ensures Valid() && View() == CancelResume(old(View()), id, aborted) && accepted == aborted
    {
      hide RepInv, States;
      if !aborted {
        ClearCleanup(id);
        return false;
      }
      return true;
    }

    /** The callback of the fallback timer. */
    method CleanupTimer(id: AdapterId)
      requires Valid()
      modifies this, objects
      ensures Valid() && View() == CancelTimerFires(old(View()), id)
      ensures objects == old(objects)
    {
      hide RepInv, States, Close, RegistersOf, Delete, CancelTimerFires, CancelResume;
      TimerFields(View(), id);
      ClearCleanup(id);
      SameKeys();
      if id !in sessions {
        return;
      }
      var cancelling := sessions[id].IsCancellationPending();
      if !cancelling {
        return;
      }
      CloseSession(id);
    }
  }
}
