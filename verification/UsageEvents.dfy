/** Usage events and the sums the aggregators build from them.

    Token counts are integers without the 64-bit bound and costs are exact numbers.
  */
module UsageEvents {
  import opened Options

  type AgentKind = int

  datatype Event = Event(
    timestamp: int,
    agent: AgentKind,
    sessionId: string,
    project: Option<string>,
    path: Option<string>,
    model: Option<string>,
    input: int,
    output: int,
    total: int,
    cachedInput: int,
    cacheCreation: int,
    cacheRead: int,
    reasoning: int,
    thoughts: int,
    tool: int,
    cost: Option<real>,
    estimatedCost: Option<real>,
    limitReset: Option<int>)

  /** The running sums of one accumulator. */
  datatype Usage = Usage(
    input: int,
    output: int,
    total: int,
    cachedInput: int,
    cacheCreation: int,
    cacheRead: int,
    reasoning: int,
    thoughts: int,
    tool: int,
    cost: Option<real>,
    estimatedCost: Option<real>,
    count: int)

  const NO_USAGE := Usage(0, 0, 0, 0, 0, 0, 0, 0, 0, None, None, 0)

  /** A cost as an amount: a missing one adds nothing. */
  function Amount(cost: Option<real>): real {
    if cost.Some? then cost.value else 0.0
  }

  /** `merge_cost` and `merge_opt_add`: a missing cost is not a zero cost. */
  function MergeCost(a: Option<real>, b: Option<real>): (r: Option<real>)
    ensures r.None? <==> a.None? && b.None?
    ensures Amount(r) == Amount(a) + Amount(b)
  {
    match (a, b)
    case (Some(x), Some(y)) => Some(x + y)
    case (Some(x), None) => Some(x)
    case (None, Some(y)) => Some(y)
    case (None, None) => None
  }

  function Plus(a: Usage, b: Usage): Usage {
    Usage(a.input + b.input, a.output + b.output, a.total + b.total, a.cachedInput + b.cachedInput,
          a.cacheCreation + b.cacheCreation, a.cacheRead + b.cacheRead, a.reasoning + b.reasoning,
          a.thoughts + b.thoughts, a.tool + b.tool, MergeCost(a.cost, b.cost),
          MergeCost(a.estimatedCost, b.estimatedCost), a.count + b.count)
  }

  function UsageOfOne(e: Event): Usage {
    Usage(e.input, e.output, e.total, e.cachedInput, e.cacheCreation, e.cacheRead, e.reasoning, e.thoughts, e.tool,
          e.cost, e.estimatedCost, 1)
  }

  /** The sum over a list of events. */
  function UsageOf(events: seq<Event>): Usage {
    if events == [] then NO_USAGE else Plus(UsageOf(events[..|events| - 1]), UsageOfOne(events[|events| - 1]))
  }

  function TotalAmount(events: seq<Event>, cost: Event -> Option<real>): real {
    if events == [] then 0.0 else Amount(cost(events[0])) + TotalAmount(events[1..], cost)
  }

  lemma {:induction false} TotalPush(events: seq<Event>, e: Event, cost: Event -> Option<real>)
    ensures TotalAmount(events + [e], cost) == TotalAmount(events, cost) + Amount(cost(e))
  {
    if events == [] {
      assert events + [e] == [e] && [e][1..] == [];
    } else {
      assert (events + [e])[1..] == events[1..] + [e];
      TotalPush(events[1..], e, cost);
    }
  }

  /** The count is the number of events; a cost is missing exactly when every one is, and
      else the total of those that are not. */
  lemma {:induction false} CountAndCosts(events: seq<Event>)
    ensures var u := UsageOf(events);
            && u.count == |events|
            && (u.cost.None? <==> forall e | e in events :: e.cost.None?)
            && (u.estimatedCost.None? <==> forall e | e in events :: e.estimatedCost.None?)
            && Amount(u.cost) == TotalAmount(events, (e: Event) => e.cost)
            && Amount(u.estimatedCost) == TotalAmount(events, (e: Event) => e.estimatedCost)
  {
    if events != [] {
      var n := |events| - 1;
      assert events == events[..n] + [events[n]];
      CountAndCosts(events[..n]);
      TotalPush(events[..n], events[n], (e: Event) => e.cost);
      TotalPush(events[..n], events[n], (e: Event) => e.estimatedCost);
    }
  }

  function SumOf(events: seq<Event>, tokens: Event -> int): int {
    if events == [] then 0 else tokens(events[0]) + SumOf(events[1..], tokens)
  }

  lemma {:induction false} SumPush(events: seq<Event>, e: Event, tokens: Event -> int)
    ensures SumOf(events + [e], tokens) == SumOf(events, tokens) + tokens(e)
  {
    if events == [] {
      assert events + [e] == [e] && [e][1..] == [];
    } else {
      assert (events + [e])[1..] == events[1..] + [e];
      SumPush(events[1..], e, tokens);
    }
  }

  /** Each token count is the total of that count over the events. */
  lemma {:induction false} TokenSums(events: seq<Event>)
    ensures UsageOf(events).input == SumOf(events, (e: Event) => e.input)
    ensures UsageOf(events).output == SumOf(events, (e: Event) => e.output)
    ensures UsageOf(events).total == SumOf(events, (e: Event) => e.total)
    ensures UsageOf(events).cachedInput == SumOf(events, (e: Event) => e.cachedInput)
    ensures UsageOf(events).cacheCreation == SumOf(events, (e: Event) => e.cacheCreation)
    ensures UsageOf(events).cacheRead == SumOf(events, (e: Event) => e.cacheRead)
    ensures UsageOf(events).reasoning == SumOf(events, (e: Event) => e.reasoning)
    ensures UsageOf(events).thoughts == SumOf(events, (e: Event) => e.thoughts)
    ensures UsageOf(events).tool == SumOf(events, (e: Event) => e.tool)
  {
    if events != [] {
      var before, last := events[..|events| - 1], events[|events| - 1];
      assert events == before + [last];
      TokenSums(before);
      SumPush(before, last, (e: Event) => e.input);
      SumPush(before, last, (e: Event) => e.output);
      SumPush(before, last, (e: Event) => e.total);
      SumPush(before, last, (e: Event) => e.cachedInput);
      SumPush(before, last, (e: Event) => e.cacheCreation);
      SumPush(before, last, (e: Event) => e.cacheRead);
      SumPush(before, last, (e: Event) => e.reasoning);
      SumPush(before, last, (e: Event) => e.thoughts);
      SumPush(before, last, (e: Event) => e.tool);
      hide SumOf;
    }
  }

  lemma PlusAssociative(a: Usage, b: Usage, c: Usage)
    ensures Plus(Plus(a, b), c) == Plus(a, Plus(b, c))
    ensures Plus(a, b) == Plus(b, a) && Plus(a, NO_USAGE) == a
  {
  }

  lemma {:induction false} UsageOfConcat(a: seq<Event>, b: seq<Event>)
    ensures UsageOf(a + b) == Plus(UsageOf(a), UsageOf(b))
    decreases |b|
  {
    hide Plus, UsageOfOne;
    if b == [] {
      assert a + b == a;
      PlusAssociative(UsageOf(a), NO_USAGE, NO_USAGE);
    } else {
      var n := |b| - 1;
      assert (a + b)[..|a + b| - 1] == a + b[..n];
      UsageOfConcat(a, b[..n]);
      PlusAssociative(UsageOf(a), UsageOf(b[..n]), UsageOfOne(b[n]));
    }
  }

  lemma UsageOfSingle(e: Event)
    ensures UsageOf([e]) == UsageOfOne(e)
  {
    hide Plus, UsageOfOne;
    assert [e][..0] == [];
    PlusAssociative(NO_USAGE, UsageOfOne(e), NO_USAGE);
    PlusAssociative(UsageOfOne(e), NO_USAGE, NO_USAGE);
  }

  /** Taking an event out of the middle. */
  lemma UsageOfRemoved(events: seq<Event>, i: nat)
    requires i < |events|
    ensures UsageOf(events) == Plus(UsageOf(events[..i] + events[i + 1..]), UsageOfOne(events[i]))
  {
    hide Plus, UsageOfOne, UsageOf;
    var a, b := events[..i], events[i + 1..];
    assert events == a + ([events[i]] + b);
    UsageOfConcat(a, [events[i]] + b);
    UsageOfConcat([events[i]], b);
    UsageOfConcat(a, b);
    UsageOfSingle(events[i]);
    PlusAssociative(UsageOfOne(events[i]), UsageOf(b), NO_USAGE);
    PlusAssociative(UsageOf(a), UsageOf(b), UsageOfOne(events[i]));
  }

  /** The sum does not depend on the order of the events. */
  lemma {:induction false} UsageOfPermutation(a: seq<Event>, b: seq<Event>)
    requires multiset(a) == multiset(b)
    ensures UsageOf(a) == UsageOf(b)
    decreases |a|
  {
    hide Plus, UsageOfOne;
    if a == [] {
      assert |multiset(b)| == 0;
    } else {
      var n := |a| - 1;
      var i := RemoveSame(a, b);
      UsageOfPermutation(a[..n], b[..i] + b[i + 1..]);
      UsageOfRemoved(b, i);
    }
  }

  /** Where the last element of `a` is in a permutation of `a`. */
  lemma RemoveSame<T>(a: seq<T>, b: seq<T>) returns (i: nat)
    requires multiset(a) == multiset(b) && a != []
    ensures i < |b| && b[i] == a[|a| - 1]
    ensures multiset(a[..|a| - 1]) == multiset(b[..i] + b[i + 1..])
  {
    var n := |a| - 1;
    assert a == a[..n] + [a[n]];
    assert a[n] in multiset(b);
    i :| 0 <= i < |b| && b[i] == a[n];
    var left, right := b[..i], b[i + 1..];
    assert b == left + [b[i]] + right;
    calc {
      multiset(a[..n]);
      multiset(a) - multiset{a[n]};
      multiset(left) + multiset{b[i]} + multiset(right) - multiset{a[n]};
      multiset(left) + multiset(right);
    }
  }

  // ---- lists of names in the order of first appearance ----

  /** `if !name.is_empty() && !list.contains(name) { list.push(name) }` */
  function PushNew(names: seq<string>, name: string): seq<string> {
    if name == "" || name in names then names else names + [name]
  }

  function NameOf(name: Option<string>): string {
    if name.Some? then name.value else ""
  }

  /** The model of each event, empty if it has none. */
  function ModelNames(events: seq<Event>): seq<string> {
    if events == [] then [] else ModelNames(events[..|events| - 1]) + [NameOf(events[|events| - 1].model)]
  }

  function FirstAppearances(names: seq<string>): seq<string> {
    if names == [] then [] else PushNew(FirstAppearances(names[..|names| - 1]), names[|names| - 1])
  }

  function FirstIndex(names: seq<string>, name: string): (i: nat)
    requires name in names
    ensures i < |names| && names[i] == name && name !in names[..i]
  {
    if names[0] == name then 0 else 1 + FirstIndex(names[1..], name)
  }

  predicate NoRepeats(s: seq<string>) {
    forall i, j | 0 <= i < j < |s| :: s[i] != s[j]
  }

  /** Each non-empty name once, in the order in which they first appear. */
  lemma {:induction false} FirstAppearancesAre(names: seq<string>)
    ensures var r := FirstAppearances(names);
            && (forall x :: x in r <==> x in names && x != "")
            && NoRepeats(r)
            && (forall i, j | 0 <= i < j < |r| :: FirstIndex(names, r[i]) < FirstIndex(names, r[j]))
  {
    if names != [] {
      var n := |names| - 1;
      var before := names[..n];
      assert names == before + [names[n]];
      FirstAppearancesAre(before);
      var q, r := FirstAppearances(before), FirstAppearances(names);
      forall x | x in before
        ensures FirstIndex(names, x) == FirstIndex(before, x)
      {
        FirstIndexPrefix(before, names[n], x);
      }
      if names[n] != "" && names[n] !in before {
        assert FirstIndex(names, names[n]) == n;
      }
    }
  }

  lemma {:induction false} FirstIndexPrefix(names: seq<string>, last: string, name: string)
    requires name in names
    ensures name in names + [last] && FirstIndex(names + [last], name) == FirstIndex(names, name)
  {
    if names[0] != name {
      assert (names + [last])[1..] == names[1..] + [last];
      FirstIndexPrefix(names[1..], last, name);
    }
  }
}
