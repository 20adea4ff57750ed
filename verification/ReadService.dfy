/** The read service: a pool of read-only connections guarded by a semaphore.

    Each query first waits for a permit and then runs as a blocking task of its own, which
    keeps the permit until it ends, whether or not the caller still waits for it: the caller
    may time out, or drop the future at any moment. Steps of
    different queries interleave freely; a step is what happens under the idle list's lock
    or between two awaits. */
module ReadService {
  import opened Options

  type QueryId = int
  type ConnId = int

  datatype QueryError = Timeout | OpenFailed | QueryFailed | Panicked

  /** `Dropped` stands for no answer: the caller has dropped the future of `run`. */
  datatype Answer = Value | Error(error: QueryError) | Dropped

  /** The permit and the task of a query. `Ended` is a task that has given its permit back. */
  datatype Work =
    | Waiting
    | Spawned
    | Opening
    | Holding(conn: ConnId)
    | Returning(conn: ConnId, result: Answer)
    | Releasing(result: Answer)
    | Ended(result: Answer)
    | NeverStarted

  datatype Query = Query(deadline: int, work: Work, answer: Option<Answer>)

  /** `everOpened` and `dropped` record every connection ever opened, and those closed since. */
  datatype Service = Service(
    max: nat,
    now: int,
    permits: int,
    idle: seq<ConnId>,
    queries: map<QueryId, Query>,
    everOpened: set<ConnId>,
    dropped: set<ConnId>)

  datatype Label =
    | Submit(q: QueryId, timeout: nat)
    | GetPermit(q: QueryId)
    | TakeConnection(q: QueryId)
    | OpenReturns(q: QueryId, conn: Option<ConnId>)
    | QueryReturns(q: QueryId, ok: bool)
    | QueryPanics(q: QueryId)
    | ReturnConnection(q: QueryId)
    | ReleasePermit(q: QueryId)
    | CallerGetsAnswer(q: QueryId)
    | CallerTimesOut(q: QueryId)
    | CallerDrops(q: QueryId)
    | Tick(elapsed: nat)

  function Initial(max: nat): Service {
    Service(max, 0, max, [], map[], {}, {})
  }

  /** `idle.pop()`, the other end of the list from where it grows. */
  function Popped(idle: seq<ConnId>): (r: (seq<ConnId>, Option<ConnId>)) {
    if idle == [] then (idle, None) else (idle[..|idle| - 1], Some(idle[|idle| - 1]))
  }

  /** `return_connection`: a connection the list has no room for is dropped. */
  function Pushed(idle: seq<ConnId>, conn: ConnId, max: nat): (seq<ConnId>, bool) {
    if |idle| < max then (idle + [conn], true) else (idle, false)
  }

  predicate HasPermit(work: Work) {
    work.Spawned? || work.Opening? || work.Holding? || work.Returning? || work.Releasing?
  }

  /** The task has a connection or is opening one. */
  predicate HasConnection(work: Work) {
    work.Opening? || work.Holding? || work.Returning?
  }

  predicate Enabled(s: Service, l: Label) {
    match l
    case Submit(q, _) => q !in s.queries
    case Tick(_) => true
    case GetPermit(q) => q in s.queries && s.queries[q].work.Waiting? && s.queries[q].answer.None? && s.permits > 0
    case TakeConnection(q) => q in s.queries && s.queries[q].work.Spawned?
    case OpenReturns(q, conn) =>
      && q in s.queries && s.queries[q].work.Opening?
      && (conn.Some? ==> conn.value !in s.everOpened)
    case QueryReturns(q, _) => q in s.queries && s.queries[q].work.Holding?
    case QueryPanics(q) => q in s.queries && s.queries[q].work.Holding?
    case ReturnConnection(q) => q in s.queries && s.queries[q].work.Returning?
    case ReleasePermit(q) => q in s.queries && s.queries[q].work.Releasing?
    case CallerGetsAnswer(q) => q in s.queries && s.queries[q].work.Ended? && s.queries[q].answer.None?
    case CallerTimesOut(q) => q in s.queries && s.queries[q].answer.None? && s.queries[q].deadline <= s.now
    case CallerDrops(q) => q in s.queries && s.queries[q].answer.None?
  }

  function SetWork(s: Service, q: QueryId, work: Work): map<QueryId, Query>
    requires q in s.queries
  {
    s.queries[q := s.queries[q].(work := work)]
  }

  /** The caller waits no longer. Only a query still waiting for its permit is gone with it; a
      running task carries on. */
  function GivenUp(query: Query, answer: Answer): Query {
    query.(work := if query.work.Waiting? then NeverStarted else query.work, answer := Some(answer))
  }

  function Next(s: Service, l: Label): Service
    requires Enabled(s, l)
  {
    match l
    case Submit(q, timeout) => s.(queries := s.queries[q := Query(s.now + timeout, Waiting, None)])
    case Tick(elapsed) => s.(now := s.now + elapsed)
    case GetPermit(q) =>
      // the permit of a query that is too late goes straight back
      if s.now >= s.queries[q].deadline then
        s.(queries := s.queries[q := s.queries[q].(work := NeverStarted, answer := Some(Error(Timeout)))])
      else s.(permits := s.permits - 1, queries := SetWork(s, q, Spawned))
    case TakeConnection(q) =>
      var (idle, conn) := Popped(s.idle);
      s.(idle := idle, queries := SetWork(s, q, if conn.Some? then Holding(conn.value) else Opening))
    case OpenReturns(q, conn) =>
      if conn.Some? then s.(everOpened := s.everOpened + {conn.value}, queries := SetWork(s, q, Holding(conn.value)))
      else s.(queries := SetWork(s, q, Releasing(Error(OpenFailed))))
    case QueryReturns(q, ok) =>
      s.(queries := SetWork(s, q, Returning(s.queries[q].work.conn, if ok then Value else Error(QueryFailed))))
    case QueryPanics(q) =>
      // unwinding drops the connection first, then the permit
      s.(dropped := s.dropped + {s.queries[q].work.conn}, queries := SetWork(s, q, Releasing(Error(Panicked))))
    case ReturnConnection(q) =>
      var Returning(conn, result) := s.queries[q].work;
      var (idle, kept) := Pushed(s.idle, conn, s.max);
      s.(idle := idle, dropped := if kept then s.dropped else s.dropped + {conn},
         queries := SetWork(s, q, Releasing(result)))
    case ReleasePermit(q) => s.(permits := s.permits + 1, queries := SetWork(s, q, Ended(s.queries[q].work.result)))
    case CallerGetsAnswer(q) =>
      s.(queries := s.queries[q := s.queries[q].(answer := Some(s.queries[q].work.result))])
    case CallerTimesOut(q) => s.(queries := s.queries[q := GivenUp(s.queries[q], Error(Timeout))])
    case CallerDrops(q) => s.(queries := s.queries[q := GivenUp(s.queries[q], Dropped)])
  }

  // ---- invariant ----

  function Workers(queries: map<QueryId, Query>): set<QueryId> {
    set q | q in queries && HasPermit(queries[q].work)
  }

  function Connected(queries: map<QueryId, Query>): set<QueryId> {
    set q | q in queries && HasConnection(queries[q].work)
  }

  predicate Has(work: Work, conn: ConnId) {
    (work.Holding? || work.Returning?) && work.conn == conn
  }

  /** Every open connection is idle or with a task. */
  ghost predicate Complete(idle: seq<ConnId>, queries: map<QueryId, Query>, everOpened: set<ConnId>,
                           dropped: set<ConnId>)
  {
    forall c | c in everOpened && c !in dropped :: c in idle || exists q :: q in queries && Has(queries[q].work, c)
  }

  /** Every open connection is in one place: the idle list, or one task. */
  ghost predicate Placed(idle: seq<ConnId>, queries: map<QueryId, Query>, everOpened: set<ConnId>,
                         dropped: set<ConnId>)
  {
    && (forall i, j | 0 <= i < j < |idle| :: idle[i] != idle[j])
    && (forall c | c in idle :: c in everOpened && c !in dropped)
    && (forall q, c | q in queries && Has(queries[q].work, c) :: c in everOpened && c !in dropped && c !in idle)
    && (forall q, r, c | q in queries && r in queries && Has(queries[q].work, c) && Has(queries[r].work, c) :: q == r)
    && Complete(idle, queries, everOpened, dropped)
  }

  ghost predicate Inv(s: Service) {
    && 0 < s.max && 0 <= s.permits
    && s.permits + |Workers(s.queries)| == s.max
    && |s.idle| + |Connected(s.queries)| <= s.max
    && Placed(s.idle, s.queries, s.everOpened, s.dropped) && s.dropped <= s.everOpened
  }

  lemma Resized<T>(s: set<T>, x: T, kept: bool)
    ensures |s - {x} + (if kept then {x} else {})| == |s| + (if kept then 1 else 0) - (if x in s then 1 else 0)
  {
    if x in s {
      assert s == s - {x} + {x};
    } else {
      assert s - {x} == s;
    }
    if !kept {
      assert s - {x} + {} == s - {x};
    }
  }

  lemma SetsMoved(queries: map<QueryId, Query>, q: QueryId, query: Query)
    ensures Workers(queries[q := query]) == Workers(queries) - {q} + if HasPermit(query.work) then {q} else {}
    ensures Connected(queries[q := query]) == Connected(queries) - {q} + if HasConnection(query.work) then {q} else {}
  {
    var w := if HasPermit(query.work) then {q} else {};
    var c := if HasConnection(query.work) then {q} else {};
    assert Workers(queries[q := query]) == Workers(queries) - {q} + w;
    assert Connected(queries[q := query]) == Connected(queries) - {q} + c;
  }

  /** What moving one query does to the two counts. */
  lemma OneMoved(queries: map<QueryId, Query>, q: QueryId, query: Query)
    ensures |Workers(queries[q := query])|
            == |Workers(queries)| + (if HasPermit(query.work) then 1 else 0) - (if q in Workers(queries) then 1 else 0)
    ensures |Connected(queries[q := query])|
            == |Connected(queries)| + (if HasConnection(query.work) then 1 else 0)
               - (if q in Connected(queries) then 1 else 0)
  {
    SetsMoved(queries, q, query);
    hide Workers, Connected;
    Resized(Workers(queries), q, HasPermit(query.work));
    Resized(Connected(queries), q, HasConnection(query.work));
  }

  lemma ConnectedAreWorkers(queries: map<QueryId, Query>)
    ensures |Connected(queries)| <= |Workers(queries)|
  {
    forall q | q in Connected(queries)
      ensures q in Workers(queries)
    {
    }
    SubsetSize(Connected(queries), Workers(queries));
  }

  // ---- every connection stays in one place ----

  /** A step that moves no connection. */
  lemma PlacedStays(s: Service, q: QueryId, query: Query)
    requires Placed(s.idle, s.queries, s.everOpened, s.dropped)
    requires forall c :: Has(query.work, c) <==> q in s.queries && Has(s.queries[q].work, c)
    ensures Placed(s.idle, s.queries[q := query], s.everOpened, s.dropped)
  {
    var queries := s.queries[q := query];
    forall x, c | x in queries && Has(queries[x].work, c)
      ensures x in s.queries && Has(s.queries[x].work, c)
    {
    }
    forall c | c in s.everOpened && c !in s.dropped
      ensures c in s.idle || exists x :: x in queries && Has(queries[x].work, c)
    {
      if c !in s.idle {
        var x :| x in s.queries && Has(s.queries[x].work, c);
        assert x in queries && Has(queries[x].work, c);
      }
    }
  }

  lemma PlacedPop(s: Service, q: QueryId, query: Query)
    requires Placed(s.idle, s.queries, s.everOpened, s.dropped) && s.idle != []
    requires q in s.queries && !HasConnection(s.queries[q].work) && query.work == Holding(s.idle[|s.idle| - 1])
    ensures Placed(s.idle[..|s.idle| - 1], s.queries[q := query], s.everOpened, s.dropped)
  {
    var n := |s.idle| - 1;
    var idle, queries, conn := s.idle[..n], s.queries[q := query], s.idle[n];
    assert s.idle == idle + [conn] && conn in s.idle;
    forall x, c | x in queries && Has(queries[x].work, c)
      ensures c in s.everOpened && c !in s.dropped && c !in idle
      ensures x == q ==> c == conn
      ensures x != q ==> c != conn
    {
    }
    Rehoused(s, idle, q, query, conn);
  }

  /** Nothing is lost when query `q` gets connection `conn` or takes it to the idle list. */
  lemma Rehoused(s: Service, idle: seq<ConnId>, q: QueryId, query: Query, conn: ConnId)
    requires Complete(s.idle, s.queries, s.everOpened, s.dropped)
    requires forall c | c != conn :: c in s.idle ==> c in idle
    requires forall c | c != conn :: q in s.queries && Has(s.queries[q].work, c) ==> Has(query.work, c)
    requires Has(query.work, conn) || conn in idle || conn in s.dropped || conn !in s.everOpened
    ensures Complete(idle, s.queries[q := query], s.everOpened, s.dropped)
  {
    var queries := s.queries[q := query];
    forall c | c in s.everOpened && c !in s.dropped
      ensures c in idle || exists x :: x in queries && Has(queries[x].work, c)
    {
      if c == conn {
        assert conn in idle || (q in queries && Has(queries[q].work, c));
      } else if c !in idle {
        var x :| x in s.queries && Has(s.queries[x].work, c);
        assert x in queries && Has(queries[x].work, c);
      }
    }
  }

  lemma PlacedReturn(s: Service, q: QueryId, query: Query, conn: ConnId)
    requires Placed(s.idle, s.queries, s.everOpened, s.dropped)
    requires q in s.queries && Has(s.queries[q].work, conn) && !HasConnection(query.work)
    ensures Placed(s.idle + [conn], s.queries[q := query], s.everOpened, s.dropped)
  {
    var queries := s.queries[q := query];
    forall x, c | x in queries && Has(queries[x].work, c)
      ensures c in s.everOpened && c !in s.dropped && c !in s.idle + [conn] && x != q
    {
    }
    var idle := s.idle + [conn];
    forall i, j | 0 <= i < j < |idle|
      ensures idle[i] != idle[j]
    {
      assert idle[i] == s.idle[i] && idle[i] in s.idle;
    }
    forall c | c in idle
      ensures c in s.everOpened && c !in s.dropped
    {
    }
    Rehoused(s, s.idle + [conn], q, query, conn);
  }

  lemma PlacedOpen(s: Service, q: QueryId, query: Query, conn: ConnId)
    requires Placed(s.idle, s.queries, s.everOpened, s.dropped) && s.dropped <= s.everOpened
    requires q in s.queries && !Has(s.queries[q].work, conn) && s.queries[q].work.Opening?
    requires conn !in s.everOpened && query.work == Holding(conn)
    ensures Placed(s.idle, s.queries[q := query], s.everOpened + {conn}, s.dropped)
  {
    var queries := s.queries[q := query];
    forall x, c | x in queries && Has(queries[x].work, c)
      ensures c in s.everOpened + {conn} && c !in s.dropped && c !in s.idle
      ensures x == q <==> c == conn
    {
    }
    Rehoused(s, s.idle, q, query, conn);
    assert q in queries && Has(queries[q].work, conn);
  }

  lemma PlacedPanic(s: Service, q: QueryId, query: Query, conn: ConnId)
    requires Placed(s.idle, s.queries, s.everOpened, s.dropped)
    requires q in s.queries && Has(s.queries[q].work, conn) && !HasConnection(query.work)
    ensures Placed(s.idle, s.queries[q := query], s.everOpened, s.dropped + {conn})
  {
    var queries := s.queries[q := query];
    forall x, c | x in queries && Has(queries[x].work, c)
      ensures c in s.everOpened && c !in s.dropped + {conn} && c !in s.idle && x != q
    {
    }
    Rehoused(s.(dropped := s.dropped + {conn}), s.idle, q, query, conn);
  }

  lemma PlacedStep(s: Service, l: Label)
    requires Inv(s) && Enabled(s, l)
    ensures var t := Next(s, l); Placed(t.idle, t.queries, t.everOpened, t.dropped) && t.dropped <= t.everOpened
  {
    hide Placed, Workers, Connected;
    match l {
      case Tick(_) =>
      case TakeConnection(q) =>
        if s.idle == [] {
          PlacedStays(s, q, Next(s, l).queries[q]);
        } else {
          PlacedPop(s, q, Next(s, l).queries[q]);
        }
      case OpenReturns(q, conn) =>
        if conn.Some? {
          PlacedOpen(s, q, Next(s, l).queries[q], conn.value);
        } else {
          PlacedStays(s, q, Next(s, l).queries[q]);
        }
      case QueryPanics(q) =>
        HeldIsOpen(s, q, s.queries[q].work.conn);
        PlacedPanic(s, q, Next(s, l).queries[q], s.queries[q].work.conn);
      case ReturnConnection(q) =>
        RoomToReturn(s, q);
        PlacedReturn(s, q, Next(s, l).queries[q], s.queries[q].work.conn);
      case Submit(q, _) => PlacedStays(s, q, Next(s, l).queries[q]);
      case GetPermit(q) => PlacedStays(s, q, Next(s, l).queries[q]);
      case QueryReturns(q, _) => PlacedStays(s, q, Next(s, l).queries[q]);
      case ReleasePermit(q) => PlacedStays(s, q, Next(s, l).queries[q]);
      case CallerGetsAnswer(q) => PlacedStays(s, q, Next(s, l).queries[q]);
      case CallerTimesOut(q) => PlacedStays(s, q, Next(s, l).queries[q]);
      case CallerDrops(q) => PlacedStays(s, q, Next(s, l).queries[q]);
    }
  }

  lemma HeldIsOpen(s: Service, q: QueryId, conn: ConnId)
    requires Placed(s.idle, s.queries, s.everOpened, s.dropped) && q in s.queries && Has(s.queries[q].work, conn)
    ensures conn in s.everOpened
  {
  }

  lemma RoomToReturn(s: Service, q: QueryId)
    requires Inv(s) && q in s.queries && HasConnection(s.queries[q].work)
    ensures |s.idle| < s.max
  {
    hide Placed, Workers;
    assert q in Connected(s.queries);
    SubsetSize({q}, Connected(s.queries));
  }

  lemma CountsStep(s: Service, l: Label)
    requires Inv(s) && Enabled(s, l)
    ensures var t := Next(s, l);
            && 0 <= t.permits && t.permits + |Workers(t.queries)| == t.max
            && |t.idle| + |Connected(t.queries)| <= t.max
  {
    hide Placed;
    if !l.Tick? {
      var t := Next(s, l);
      OneMoved(s.queries, l.q, t.queries[l.q]);
      ConnectedAreWorkers(t.queries);
    }
    hide Workers, Connected;
  }

  lemma InvStep(s: Service, l: Label)
    requires Inv(s) && Enabled(s, l)
    ensures Inv(Next(s, l))
  {
    CountsStep(s, l);
    PlacedStep(s, l);
    hide Placed, Workers, Connected;
  }

  // ---- runs ----

  datatype Trace = Trace(states: seq<Service>, labels: seq<Label>)

  ghost predicate StepAt(r: Trace, i: int)
    requires 0 <= i < |r.labels| && |r.states| == |r.labels| + 1
  {
    Enabled(r.states[i], r.labels[i]) && r.states[i + 1] == Next(r.states[i], r.labels[i])
  }

  ghost predicate IsRun(r: Trace, max: nat) {
    && 0 < max
    && |r.states| == |r.labels| + 1 && r.states[0] == Initial(max)
    && forall i | 0 <= i < |r.labels| :: StepAt(r, i)
  }

  lemma {:induction false} Reachable(r: Trace, max: nat, i: nat)
    requires IsRun(r, max) && i <= |r.labels|
    ensures Inv(r.states[i]) && r.states[i].max == max
    decreases i
  {
    if i == 0 {
      assert Workers(map[]) == {} && Connected(map[]) == {};
    } else {
      hide Inv;
      Reachable(r, max, i - 1);
      assert StepAt(r, i - 1);
      InvStep(r.states[i - 1], r.labels[i - 1]);
    }
  }

  /** Open connections never exceed the bound: over every interleaving of waiting, popping,
      opening, returning, failing, panicking, timing out and dropping, the idle connections and those
      held or being opened are at most `max`, and so are the running tasks. */
  lemma OpenConnectionsBounded(r: Trace, max: nat, i: nat)
    requires IsRun(r, max) && i <= |r.labels|
    ensures var s := r.states[i];
            && |s.idle| + |Connected(s.queries)| <= max
            && |Workers(s.queries)| <= max
            && s.permits == max - |Workers(s.queries)|
  {
    Reachable(r, max, i);
    hide Workers, Connected, Placed;
  }

  /** So there is always room to give a connection back: the branch that drops it is never
      taken. */
  lemma ReturnNeverDrops(r: Trace, max: nat, i: nat)
    requires IsRun(r, max) && i < |r.labels| && r.labels[i].ReturnConnection?
    ensures Enabled(r.states[i], r.labels[i])
    ensures var s := r.states[i];
            var conn := s.queries[r.labels[i].q].work.conn;
            && Pushed(s.idle, conn, s.max).1
            && r.states[i + 1].idle == s.idle + [conn] && r.states[i + 1].dropped == s.dropped
  {
    Reachable(r, max, i);
    assert StepAt(r, i);
    RoomToReturn(r.states[i], r.labels[i].q);
    hide Workers, Connected, Placed;
  }

  /** No connection serves two queries, or a query while it is idle; and every connection
      opened and not closed by a panic is idle or in use. */
  lemma ConnectionsAreExclusive(r: Trace, max: nat, i: nat)
    requires IsRun(r, max) && i <= |r.labels|
    ensures var s := r.states[i];
            && (forall q, p, c |
                  q in s.queries && p in s.queries && Has(s.queries[q].work, c) && Has(s.queries[p].work, c) ::
                  q == p && c !in s.idle)
            && (forall c | c in s.everOpened && c !in s.dropped ::
                  c in s.idle || exists q :: q in s.queries && Has(s.queries[q].work, c))
  {
    Reachable(r, max, i);
    hide Workers, Connected;
  }

  /** No permit is lost: once no task is running all of them are back, whatever ended the
      tasks. */
  lemma PermitsComeBack(r: Trace, max: nat, i: nat)
    requires IsRun(r, max) && i <= |r.labels|
    requires forall q | q in r.states[i].queries :: !HasPermit(r.states[i].queries[q].work)
    ensures r.states[i].permits == max
  {
    Reachable(r, max, i);
    NoWorkers(r.states[i].queries);
    hide Placed, Connected, Workers;
  }

  lemma NoWorkers(queries: map<QueryId, Query>)
    requires forall q | q in queries :: !HasPermit(queries[q].work)
    ensures |Workers(queries)| == 0
  {
    if |Workers(queries)| > 0 {
      var q := Member(Workers(queries));
    }
  }

  /** Work never starts at or after the deadline, and a query that gave up while it was
      waiting never starts at all. */
  lemma NoLateStart(r: Trace, max: nat, i: nat)
    requires IsRun(r, max) && i < |r.labels|
    ensures forall q | q in r.states[i].queries && r.states[i].queries[q].work.Waiting? ::
              && q in r.states[i + 1].queries
              && (HasPermit(r.states[i + 1].queries[q].work) ==>
                    r.states[i].now < r.states[i].queries[q].deadline && r.states[i].queries[q].answer.None?)
    ensures forall q | q in r.states[i].queries && r.states[i].queries[q].work.NeverStarted? ::
              q in r.states[i + 1].queries && r.states[i + 1].queries[q].work.NeverStarted?
  {
    assert StepAt(r, i);
  }

  // ---- the code ----

  class ReadPool {
    const maxPoolSize: nat
    var idle: seq<ConnId>

    constructor (maxConnections: nat)
      requires maxConnections > 0
      ensures maxPoolSize == maxConnections && idle == []
    {
      maxPoolSize, idle := maxConnections, [];
    }

    /** `take_connection`; `openReadonly` is what opening the database gives if it comes to that. */
    method Take(openReadonly: Option<ConnId>) returns (conn: Option<ConnId>, reused: bool)
      modifies this
      ensures idle == Popped(old(idle)).0 && reused == Popped(old(idle)).1.Some?
      ensures conn == if reused then Popped(old(idle)).1 else openReadonly
    {
      if |idle| > 0 {
        var last := idle[|idle| - 1];
        idle := idle[..|idle| - 1];
        return Some(last), true;
      }
      return openReadonly, false;
    }

    method GiveBack(conn: ConnId) returns (kept: bool)
      modifies this
      ensures (idle, kept) == Pushed(old(idle), conn, maxPoolSize)
    {
      if |idle| < maxPoolSize {
        idle := idle + [conn];
        return true;
      }
      return false;
    }
  }
}
