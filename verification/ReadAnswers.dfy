/** What the caller of a query is answered, read off the steps of the run. */
module ReadAnswers {
  import opened Options
  import opened ReadService

  /** The step fixes what the task of query `q` ends with. */
  predicate Makes(l: Label, q: QueryId, result: Answer) {
    match result
    case Value => l == QueryReturns(q, true)
    case Error(QueryFailed) => l == QueryReturns(q, false)
    case Error(OpenFailed) => l == OpenReturns(q, None)
    case Error(Panicked) => l == QueryPanics(q)
    case _ => false
  }

  /** The step ends the wait of `q` because its deadline has passed. */
  predicate Expires(s: Service, l: Label, q: QueryId) {
    match l
    case CallerTimesOut(x) => x == q
    case GetPermit(x) => x == q && q in s.queries && s.queries[q].deadline <= s.now
    case _ => false
  }

  ghost predicate Made(r: Trace, i: int, q: QueryId, result: Answer)
    requires i <= |r.labels|
  {
    exists j :: 0 <= j < i && Makes(r.labels[j], q, result)
  }

  ghost predicate Taken(r: Trace, i: int, q: QueryId)
    requires i <= |r.labels|
  {
    exists j :: 0 <= j < i && r.labels[j] == CallerGetsAnswer(q)
  }

  ghost predicate Expired(r: Trace, i: int, q: QueryId)
    requires i <= |r.labels| && |r.states| == |r.labels| + 1
  {
    exists j :: 0 <= j < i && Expires(r.states[j], r.labels[j], q)
  }

  ghost predicate Abandoned(r: Trace, i: int, q: QueryId)
    requires i <= |r.labels|
  {
    exists j :: 0 <= j < i && r.labels[j] == CallerDrops(q)
  }

  // ---- one step ----

  /** The task of `q` has ended, or is about to, with this result. */
  predicate EndsWith(s: Service, q: QueryId, result: Answer) {
    && q in s.queries
    && match s.queries[q].work
       case Returning(_, x) => x == result
       case Releasing(x) => x == result
       case Ended(x) => x == result
       case _ => false
  }

  predicate AnswerOf(s: Service, q: QueryId, answer: Answer) {
    q in s.queries && s.queries[q].answer == Some(answer)
  }

  /** A caller's answer is the result of the task, a timeout, or none because it has gone. */
  ghost predicate AnswersFit(s: Service, q: QueryId) {
    && (forall x | EndsWith(s, q, x) :: x != Error(Timeout) && x != Dropped)
    && (forall x | AnswerOf(s, q, x) && x != Error(Timeout) && x != Dropped ::
          EndsWith(s, q, x) && s.queries[q].work.Ended?)
    && (q in s.queries && s.queries[q].work.NeverStarted? ==> s.queries[q].answer.Some?)
    && (q in s.queries && s.queries[q].work.Waiting? ==> s.queries[q].answer.None?)
  }

  lemma FitsStep(s: Service, l: Label, q: QueryId)
    requires Enabled(s, l) && AnswersFit(s, q)
    ensures AnswersFit(Next(s, l), q)
  {
    var t := Next(s, l);
    forall x
      ensures EndsWith(t, q, x) <==> EndsWith(s, q, x) || Makes(l, q, x)
    {
      EndStep(s, l, q, x);
    }
    forall x | AnswerOf(t, q, x) && x != Error(Timeout) && x != Dropped
      ensures EndsWith(t, q, x) && t.queries[q].work.Ended?
    {
      if AnswerOf(s, q, x) {
        assert EndsWith(s, q, x);
      }
    }
  }

  /** A step gives a task its result, and takes none away. */
  lemma EndStep(s: Service, l: Label, q: QueryId, x: Answer)
    requires Enabled(s, l)
    ensures EndsWith(Next(s, l), q, x) <==> EndsWith(s, q, x) || Makes(l, q, x)
  {
  }

  lemma AnswerStep(s: Service, l: Label, q: QueryId)
    requires Enabled(s, l) && AnswersFit(s, q)
    ensures var t := Next(s, l);
            && (AnswerOf(t, q, Error(Timeout)) <==> AnswerOf(s, q, Error(Timeout)) || Expires(s, l, q))
            && (AnswerOf(t, q, Dropped) <==> AnswerOf(s, q, Dropped) || l == CallerDrops(q))
            && ((exists x :: AnswerOf(t, q, x) && x != Error(Timeout) && x != Dropped)
                <==> (exists x :: AnswerOf(s, q, x) && x != Error(Timeout) && x != Dropped) || l == CallerGetsAnswer(q))
  {
    if l == CallerGetsAnswer(q) {
      var x := s.queries[q].work.result;
      assert EndsWith(s, q, x) && AnswerOf(Next(s, l), q, x);
    } else {
      assert forall x | x != Error(Timeout) && x != Dropped :: AnswerOf(Next(s, l), q, x) <==> AnswerOf(s, q, x);
    }
  }

  // ---- over whole runs ----

  lemma {:induction false} FitsRun(r: Trace, max: nat, i: nat, q: QueryId)
    requires IsRun(r, max) && i <= |r.labels|
    ensures AnswersFit(r.states[i], q)
    ensures forall x :: EndsWith(r.states[i], q, x) <==> Made(r, i, q, x)
    ensures AnswerOf(r.states[i], q, Error(Timeout)) <==> Expired(r, i, q)
    ensures AnswerOf(r.states[i], q, Dropped) <==> Abandoned(r, i, q)
    ensures (exists x :: AnswerOf(r.states[i], q, x) && x != Error(Timeout) && x != Dropped) <==> Taken(r, i, q)
    decreases i
  {
    hide Next, Enabled, Makes, Expires;
    if i == 0 {
      assert q !in r.states[0].queries;
    } else {
      hide AnswersFit, EndsWith, AnswerOf;
      FitsRun(r, max, i - 1, q);
      assert StepAt(r, i - 1);
      var s, l := r.states[i - 1], r.labels[i - 1];
      FitsStep(s, l, q);
      AnswerStep(s, l, q);
      forall x
        ensures EndsWith(r.states[i], q, x) <==> Made(r, i, q, x)
      {
        EndStep(s, l, q, x);
        assert Made(r, i, q, x) <==> Made(r, i - 1, q, x) || Makes(l, q, x);
      }
      assert Expired(r, i, q) <==> Expired(r, i - 1, q) || Expires(s, l, q);
      assert Abandoned(r, i, q) <==> Abandoned(r, i - 1, q) || l == CallerDrops(q);
      assert Taken(r, i, q) <==> Taken(r, i - 1, q) || l == CallerGetsAnswer(q);
    }
  }

  /** In every run the caller of a query is answered with a value if and only if the query
      has returned one and the caller has taken the answer; with a failure of the query, of
      opening the database, or of a panicking task under the same condition for these; with
      a timeout exactly if it has given up at the deadline, or got its permit too late. */
  lemma AnsweredIff(r: Trace, max: nat, i: nat, q: QueryId, answer: Answer)
    requires IsRun(r, max) && i <= |r.labels|
    ensures AnswerOf(r.states[i], q, answer) <==>
            match answer
            case Error(Timeout) => Expired(r, i, q)
            case Dropped => Abandoned(r, i, q)
            case _ => Made(r, i, q, answer) && Taken(r, i, q)
  {
    hide Made, Taken, Expired, Abandoned, Next, Enabled;
    FitsRun(r, max, i, q);
    var s := r.states[i];
    forall x
      ensures Made(r, i, q, x) <==> EndsWith(s, q, x)
      ensures AnswerOf(s, q, x) && x != Error(Timeout) && x != Dropped ==> EndsWith(s, q, x)
    {
    }
    OneResult(s, q);
  }

  lemma OneResult(s: Service, q: QueryId)
    ensures forall x, y | EndsWith(s, q, x) && EndsWith(s, q, y) :: x == y
  {
  }

  /** The deadline of a query is its submission plus its timeout, and it is not answered with
      a timeout before that. */
  lemma {:induction false} NoEarlyTimeout(r: Trace, max: nat, j: nat, i: nat, q: QueryId, timeout: nat)
    requires IsRun(r, max) && j < i <= |r.labels| && r.labels[j] == Submit(q, timeout)
    ensures q in r.states[i].queries && r.states[i].queries[q].deadline == r.states[j].now + timeout
    ensures r.states[i].queries[q].answer == Some(Error(Timeout)) ==> r.states[i].now >= r.states[j].now + timeout
    decreases i
  {
    hide Next, Enabled;
    assert StepAt(r, i - 1);
    if j < i - 1 {
      NoEarlyTimeout(r, max, j, i - 1, q, timeout);
      FitsRun(r, max, i - 1, q);
      AnswerStep(r.states[i - 1], r.labels[i - 1], q);
      DeadlineStep(r.states[i - 1], r.labels[i - 1], q);
    } else {
      SubmitStep(r.states[j], q, timeout);
    }
  }

  lemma SubmitStep(s: Service, q: QueryId, timeout: nat)
    requires Enabled(s, Submit(q, timeout))
    ensures var t := Next(s, Submit(q, timeout));
            q in t.queries && t.queries[q] == Query(s.now + timeout, Waiting, None)
  {
  }

  lemma DeadlineStep(s: Service, l: Label, q: QueryId)
    requires Enabled(s, l) && q in s.queries
    ensures var t := Next(s, l);
            && q in t.queries && t.queries[q].deadline == s.queries[q].deadline && s.now <= t.now
            && (Expires(s, l, q) ==> s.queries[q].deadline <= s.now)
  {
  }

  /** A query that gets its permit in time starts, and its task takes the connection that was
      given back last; it opens one exactly if none is idle. */
  lemma StartsInTime(r: Trace, max: nat, i: nat, q: QueryId)
    requires IsRun(r, max) && i < |r.labels|
    ensures r.labels[i] == GetPermit(q) ==>
              && q in r.states[i].queries && q in r.states[i + 1].queries
              && (r.states[i + 1].queries[q].work == Spawned <==> r.states[i].now < r.states[i].queries[q].deadline)
    ensures r.labels[i] == TakeConnection(q) ==>
              var idle, n := r.states[i].idle, |r.states[i].idle|;
              && q in r.states[i + 1].queries
              && (r.states[i + 1].queries[q].work == if n == 0 then Opening else Holding(idle[n - 1]))
              && r.states[i + 1].idle == if n == 0 then [] else idle[..n - 1]
  {
    assert StepAt(r, i);
  }
}
