/** What the rollups of a list of events satisfy. */
module RollupGuarantees {
  import opened Options
  import opened UsageEvents
  import opened Rollups

  // ---- the scan path and the rebuild path ----

  /** The groups and the summary determine the map. */
  lemma GroupsAreUnique<V(!new)>(events: seq<Event>, key: Event -> string, m: map<string, V>, n: map<string, V>,
                                 summary: seq<Event> --> V)
    requires GroupsBy(events, key, m, summary) && GroupsBy(events, key, n, summary)
    ensures m == n
  {
    hide Where;
  }

  /** Writing the session rollups of a scan gives the rows of a full rebuild. */
  lemma ScannedSessionsAreRebuiltSessions(events: seq<Event>, scanned: map<string, SessionRollup>,
                                          rebuilt: map<string, SessionRow>, now: int)
    requires GroupsBy(events, SessionKey, scanned, SessionRollupOf)
    requires GroupsBy(events, SessionKey, rebuilt, SessionRowOf(now))
    ensures (map k | k in scanned :: SessionRollupToRow(scanned[k], now)) == rebuilt
  {
    hide Where, SessionOf;
  }

  /** Project rows agree on totals, cost, path, display name and session count, but not as
      rows: written from a scan they have no agent and both times are zero. Since a rebuilt
      row always has an agent, no project row of a scan equals the rebuilt one. */
  lemma ScannedProjectsDiffer(events: seq<Event>, scanned: map<string, ProjectRollup>,
                              rebuilt: map<string, ProjectRow>, now: int)
    requires GroupsBy(events, ProjectKey, scanned, ProjectRollupOf)
    requires GroupsBy(events, ProjectKey, rebuilt, ProjectRowOf(now))
    ensures scanned.Keys == rebuilt.Keys
    ensures forall k | k in scanned ::
              && ProjectRollupToRow(scanned[k], now) == rebuilt[k].(agent := None, firstSeen := 0, lastSeen := 0)
              && ProjectRollupToRow(scanned[k], now) != rebuilt[k]
  {
    hide Where, ProjectOf, DisplayName;
    assert forall k :: k in scanned <==> k in rebuilt;
  }

  /** Writing the model rollups of a scan gives the rows of a full rebuild, and each row bears
      the name its events have in common. */
  lemma ScannedModelsAreRebuiltModels(events: seq<Event>, scanned: map<string, ModelSummary>,
                                      rebuilt: map<string, ModelRow>)
    requires GroupsBy(events, ModelKey, scanned, ModelOf) && GroupsBy(events, ModelKey, rebuilt, ModelRowOf)
    ensures (map k | k in scanned :: ModelRollupToRow(scanned[k])) == rebuilt
    ensures forall k | k in rebuilt :: rebuilt[k].model == k
  {
    hide GroupsBy;
    ModelsRebuilt(events, scanned);
    GroupsAreUnique(events, ModelKey, map k | k in scanned :: ModelRollupToRow(scanned[k]), rebuilt, ModelRowOf);
    forall k | k in rebuilt
      ensures rebuilt[k].model == k
    {
      NamedByGroup(events, rebuilt, k);
    }
  }

  lemma NamedByGroup(events: seq<Event>, rebuilt: map<string, ModelRow>, k: string)
    requires GroupsBy(events, ModelKey, rebuilt, ModelRowOf) && k in rebuilt
    ensures rebuilt[k].model == k
  {
    hide Where, UsageOf;
    WhereIs(events, ModelKey, k);
    assert Where(events, ModelKey, k)[0] in Where(events, ModelKey, k);
  }

  // ---- the order of the events ----

  lemma {:induction false} WhereIs<K>(events: seq<Event>, key: Event -> K, k: K)
    ensures forall e :: e in Where(events, key, k) <==> e in events && key(e) == k
  {
    if events != [] {
      assert events == events[..|events| - 1] + [events[|events| - 1]];
      WhereIs(events[..|events| - 1], key, k);
    }
  }

  lemma {:induction false} WhereConcat<K>(a: seq<Event>, b: seq<Event>, key: Event -> K, k: K)
    ensures Where(a + b, key, k) == Where(a, key, k) + Where(b, key, k)
    decreases |b|
  {
    if b == [] {
      assert a + b == a;
    } else {
      var n := |b| - 1;
      assert (a + b)[..|a + b| - 1] == a + b[..n];
      WhereConcat(a, b[..n], key, k);
    }
  }

  lemma WhereRemoved<K>(events: seq<Event>, i: nat, key: Event -> K, k: K)
    requires i < |events|
    ensures multiset(Where(events, key, k)) ==
            multiset(Where(events[..i] + events[i + 1..], key, k))
            + (if key(events[i]) == k then multiset{events[i]} else multiset{})
  {
    hide Where;
    var a, e, b := events[..i], events[i], events[i + 1..];
    assert events == (a + [e]) + b;
    WhereConcat(a + [e], b, key, k);
    WherePush(a, e, key, k);
    WhereConcat(a, b, key, k);
  }

  lemma {:induction false} WherePermutation<K>(a: seq<Event>, b: seq<Event>, key: Event -> K, k: K)
    requires multiset(a) == multiset(b)
    ensures multiset(Where(a, key, k)) == multiset(Where(b, key, k))
    decreases |a|
  {
    if a == [] {
      assert |multiset(b)| == 0;
    } else {
      hide Where;
      var n := |a| - 1;
      var i := RemoveSame(a, b);
      WherePermutation(a[..n], b[..i] + b[i + 1..], key, k);
      WhereRemoved(b, i, key, k);
      WhereRemoved(a, n, key, k);
      assert a[..n] + a[n + 1..] == a[..n];
    }
  }

  lemma {:induction false} EarliestAndLatest(events: seq<Event>)
    requires events != []
    ensures exists e :: e in events && e.timestamp == MinTime(events)
    ensures exists e :: e in events && e.timestamp == MaxTime(events)
    ensures forall e | e in events :: MinTime(events) <= e.timestamp <= MaxTime(events)
  {
    var n := |events| - 1;
    if n == 0 {
      assert events[0] in events;
    } else {
      var before := events[..n];
      assert events == before + [events[n]];
      EarliestAndLatest(before);
      assert events[n] in events;
      forall e | e in before
        ensures e in events
      {
      }
    }
  }

  lemma TimesOfPermutation(a: seq<Event>, b: seq<Event>)
    requires a != [] && multiset(a) == multiset(b)
    ensures b != [] && MinTime(a) == MinTime(b) && MaxTime(a) == MaxTime(b)
  {
    assert |multiset(a)| == |multiset(b)|;
    hide MinTime, MaxTime;
    EarliestAndLatest(a);
    EarliestAndLatest(b);
    SameMembers(a, b);
  }

  lemma SameMembers<T>(a: seq<T>, b: seq<T>)
    requires multiset(a) == multiset(b)
    ensures forall x :: x in a <==> x in b
  {
    forall x
      ensures x in a <==> x in b
    {
      assert x in multiset(a) <==> x in multiset(b);
    }
  }

  /** The models of a group as a set. */
  lemma {:induction false} NamesAre(events: seq<Event>)
    ensures forall x :: x in ModelNames(events) <==> exists e :: e in events && NameOf(e.model) == x
  {
    if events != [] {
      var before := events[..|events| - 1];
      assert events == before + [events[|events| - 1]];
      NamesAre(before);
    }
  }

  lemma ModelsOfPermutation(a: seq<Event>, b: seq<Event>)
    requires multiset(a) == multiset(b)
    ensures forall x :: x in FirstAppearances(ModelNames(a)) <==> x in FirstAppearances(ModelNames(b))
  {
    SameMembers(a, b);
    NamesAre(a);
    NamesAre(b);
    FirstAppearancesAre(ModelNames(a));
    FirstAppearancesAre(ModelNames(b));
    hide FirstAppearances, ModelNames;
  }

  /** What a session row says does not depend on the order of the events: which sessions
      there are, the totals, the cost, the count, the first and the last time, and which
      models occur. Only the agent, the project and the order of the models do. */
  lemma SessionsIgnoreOrder(a: seq<Event>, b: seq<Event>, m: map<string, SessionSummary>,
                            n: map<string, SessionSummary>)
    requires multiset(a) == multiset(b)
    requires GroupsBy(a, SessionKey, m, SessionOf) && GroupsBy(b, SessionKey, n, SessionOf)
    ensures m.Keys == n.Keys
    ensures forall k | k in m ::
              && m[k].tokens == n[k].tokens && m[k].cost == n[k].cost && m[k].count == n[k].count
              && m[k].startedAt == n[k].startedAt && m[k].lastSeen == n[k].lastSeen
              && forall x :: x in m[k].models <==> x in n[k].models
  {
    hide Where, UsageOf, MinTime, MaxTime, FirstAppearances, ModelNames;
    forall k
      ensures k in m <==> k in n
    {
      SameGroup(a, b, SessionKey, k);
    }
    forall k | k in m
      ensures m[k].tokens == n[k].tokens && m[k].cost == n[k].cost && m[k].count == n[k].count
      ensures m[k].startedAt == n[k].startedAt && m[k].lastSeen == n[k].lastSeen
      ensures forall x :: x in m[k].models <==> x in n[k].models
    {
      var g, h := Where(a, SessionKey, k), Where(b, SessionKey, k);
      SameGroup(a, b, SessionKey, k);
      UsageOfPermutation(g, h);
      TimesOfPermutation(g, h);
      ModelsOfPermutation(g, h);
    }
  }

  lemma SameGroup(a: seq<Event>, b: seq<Event>, key: Event -> string, k: string)
    requires multiset(a) == multiset(b)
    ensures multiset(Where(a, key, k)) == multiset(Where(b, key, k))
    ensures Where(a, key, k) == [] <==> Where(b, key, k) == []
  {
    WherePermutation(a, b, key, k);
    assert |multiset(Where(a, key, k))| == |multiset(Where(b, key, k))|;
  }

  /** Daily and weekly rows are the same for every order of the events. */
  lemma RowsIgnoreOrder(a: seq<Event>, b: seq<Event>, key: Event -> DayKey, m: map<DayKey, Usage>,
                        n: map<DayKey, Usage>)
    requires multiset(a) == multiset(b) && SumsBy(a, key, m) && SumsBy(b, key, n)
    ensures m == n
  {
    hide Where, UsageOf;
    forall k
      ensures k in m <==> k in n
      ensures k in m && k in n ==> m[k] == n[k]
    {
      WherePermutation(a, b, key, k);
      assert |multiset(Where(a, key, k))| == |multiset(Where(b, key, k))|;
      UsageOfPermutation(Where(a, key, k), Where(b, key, k));
    }
  }

  lemma ModelsIgnoreOrder(a: seq<Event>, b: seq<Event>, m: map<string, ModelSummary>, n: map<string, ModelSummary>)
    requires multiset(a) == multiset(b)
    requires GroupsBy(a, ModelKey, m, ModelOf) && GroupsBy(b, ModelKey, n, ModelOf)
    ensures m == n
  {
    hide Where, UsageOf;
    forall k
      ensures k in m <==> k in n
      ensures k in m && k in n ==> m[k] == n[k]
    {
      SameGroup(a, b, ModelKey, k);
      WhereIs(a, ModelKey, k);
      WhereIs(b, ModelKey, k);
      assert k in m && k in n ==>
               Where(a, ModelKey, k)[0] in Where(a, ModelKey, k) && Where(b, ModelKey, k)[0] in Where(b, ModelKey, k);
      UsageOfPermutation(Where(a, ModelKey, k), Where(b, ModelKey, k));
    }
  }

  lemma {:induction false} SessionNamesAre(events: seq<Event>)
    ensures forall x :: x in SessionNames(events) <==> exists e :: e in events && e.sessionId == x
  {
    if events != [] {
      var before := events[..|events| - 1];
      assert events == before + [events[|events| - 1]];
      SessionNamesAre(before);
    }
  }

  lemma {:induction false} SameSize(s: seq<string>, t: seq<string>)
    requires NoRepeats(s) && NoRepeats(t) && forall x :: x in s <==> x in t
    ensures |s| == |t|
    decreases |s|
  {
    assert |t| > 0 ==> t[0] in t;
    if s != [] {
      assert s[0] in t;
      var i :| 0 <= i < |t| && t[i] == s[0];
      var rest := t[..i] + t[i + 1..];
      assert t == t[..i] + [t[i]] + t[i + 1..];
      assert s == [s[0]] + s[1..];
      forall x
        ensures x in s[1..] <==> x in rest
      {
        assert x in t <==> x in rest || x == t[i];
      }
      SameSize(s[1..], rest);
    }
  }

  lemma SessionCountOfPermutation(a: seq<Event>, b: seq<Event>)
    requires multiset(a) == multiset(b)
    ensures |FirstAppearances(SessionNames(a))| == |FirstAppearances(SessionNames(b))|
  {
    SameMembers(a, b);
    SessionNamesAre(a);
    SessionNamesAre(b);
    FirstAppearancesAre(SessionNames(a));
    FirstAppearancesAre(SessionNames(b));
    hide FirstAppearances, SessionNames;
    SameSize(FirstAppearances(SessionNames(a)), FirstAppearances(SessionNames(b)));
  }

  /** Project totals, cost, count, times and number of sessions do not depend on the order
      of the events. */
  lemma ProjectsIgnoreOrder(a: seq<Event>, b: seq<Event>, m: map<string, ProjectAccumulator>,
                            n: map<string, ProjectAccumulator>)
    requires multiset(a) == multiset(b)
    requires GroupsBy(a, ProjectKey, m, ProjectOf) && GroupsBy(b, ProjectKey, n, ProjectOf)
    ensures m.Keys == n.Keys
    ensures forall k | k in m ::
              && m[k].tokens == n[k].tokens && m[k].cost == n[k].cost && m[k].count == n[k].count
              && m[k].firstSeen == n[k].firstSeen && m[k].lastSeen == n[k].lastSeen
              && |m[k].sessions| == |n[k].sessions|
  {
    hide Where, UsageOf, MinTime, MaxTime, FirstAppearances, SessionNames, FirstPath;
    forall k
      ensures k in m <==> k in n
    {
      SameGroup(a, b, ProjectKey, k);
    }
    forall k | k in m
      ensures m[k].tokens == n[k].tokens && m[k].cost == n[k].cost && m[k].count == n[k].count
      ensures m[k].firstSeen == n[k].firstSeen && m[k].lastSeen == n[k].lastSeen
      ensures |m[k].sessions| == |n[k].sessions|
    {
      var g, h := Where(a, ProjectKey, k), Where(b, ProjectKey, k);
      SameGroup(a, b, ProjectKey, k);
      UsageOfPermutation(g, h);
      TimesOfPermutation(g, h);
      SessionCountOfPermutation(g, h);
    }
  }

  // ---- weeks ----

  lemma SameWeekday(a: int, b: int)
    requires WeekdayOf(a) == WeekdayOf(b)
    ensures (a - b) % 7 == 0
  {
  }

  /** `get_date_week`: the result is the last day up to `day` that falls on the start day. */
  lemma WeekStartIs(day: int, startDay: int)
    requires 0 <= startDay < 7
    ensures var w := WeekStart(day, startDay);
            && WeekdayOf(w) == startDay && 0 <= day - w <= 6
            && WeekStart(w, startDay) == w
            && forall d | d <= day && WeekdayOf(d) == startDay :: d <= w
  {
    var w := WeekStart(day, startDay);
    forall d | d <= day && WeekdayOf(d) == startDay
      ensures d <= w
    {
      SameWeekday(d, w);
    }
  }

  /** The sum of the rows of `keys`. */
  ghost function SumOver(rows: map<DayKey, Usage>, keys: set<DayKey>): Usage
    requires keys <= rows.Keys
  {
    if keys == {} then NO_USAGE
    else
      var k :| k in keys;
      Plus(SumOver(rows, keys - {k}), rows[k])
  }

  /** The events whose key is one of `keys`. */
  function WhereIn(events: seq<Event>, key: Event -> DayKey, keys: set<DayKey>): seq<Event> {
    if events == [] then []
    else
      var n := |events| - 1;
      WhereIn(events[..n], key, keys) + if key(events[n]) in keys then [events[n]] else []
  }

  /** Taking one key out of the set takes its events out of the sum. */
  lemma {:induction false} WhereInSplit(events: seq<Event>, key: Event -> DayKey, keys: set<DayKey>, k: DayKey)
    requires k in keys
    ensures UsageOf(WhereIn(events, key, keys))
            == Plus(UsageOf(WhereIn(events, key, keys - {k})), UsageOf(Where(events, key, k)))
  {
    hide Plus, UsageOfOne;
    if events == [] {
      PlusAssociative(NO_USAGE, NO_USAGE, NO_USAGE);
    } else {
      var n := |events| - 1;
      var before, e := events[..n], events[n];
      var rest, own := WhereIn(before, key, keys - {k}), Where(before, key, k);
      var all := WhereIn(before, key, keys);
      WhereInSplit(before, key, keys, k);
      assert rest + [] == rest && own + [] == own && all + [] == all;
      if key(e) == k {
        UsagePush(all, e);
        UsagePush(own, e);
        PlusAssociative(UsageOf(rest), UsageOf(own), UsageOfOne(e));
      } else if key(e) in keys {
        UsagePush(all, e);
        UsagePush(rest, e);
        PlusAssociative(UsageOf(rest), UsageOf(own), UsageOfOne(e));
        PlusAssociative(UsageOf(rest), UsageOfOne(e), UsageOf(own));
        PlusAssociative(UsageOf(own), UsageOfOne(e), NO_USAGE);
      }
    }
  }

  lemma UsagePush(events: seq<Event>, e: Event)
    ensures UsageOf(events + [e]) == Plus(UsageOf(events), UsageOfOne(e))
  {
    assert (events + [e])[..|events|] == events;
  }

  lemma {:induction false} SumOverIs(events: seq<Event>, key: Event -> DayKey, rows: map<DayKey, Usage>,
                                     keys: set<DayKey>)
    requires SumsBy(events, key, rows) && keys <= rows.Keys
    ensures SumOver(rows, keys) == UsageOf(WhereIn(events, key, keys))
  {
    hide Plus, Where, UsageOf;
    if keys == {} {
      NoneIn(events, key);
    } else {
      var k :| k in keys && SumOver(rows, keys) == Plus(SumOver(rows, keys - {k}), rows[k]);
      SumOverIs(events, key, rows, keys - {k});
      WhereInSplit(events, key, keys, k);
    }
  }

  lemma {:induction false} NoneIn(events: seq<Event>, key: Event -> DayKey)
    ensures UsageOf(WhereIn(events, key, {})) == NO_USAGE && WhereIn(events, key, {}) == []
  {
    if events != [] {
      NoneIn(events[..|events| - 1], key);
    }
  }

  /** The daily keys of week row `w`. */
  function DaysOf(daily: map<DayKey, Usage>, w: DayKey): set<DayKey> {
    set k | k in daily && InWeek(k) == w
  }

  lemma {:induction false} SameEvents(events: seq<Event>, dayOf: int -> Option<int>, keys: set<DayKey>, w: DayKey)
    requires forall e | e in events :: InWeek(DayKeyOf(dayOf)(e)) == w <==> DayKeyOf(dayOf)(e) in keys
    ensures Where(events, WeekKeyOf(dayOf), w) == WhereIn(events, DayKeyOf(dayOf), keys)
  {
    if events != [] {
      var before := events[..|events| - 1];
      assert events == before + [events[|events| - 1]];
      SameEvents(before, dayOf, keys, w);
    }
  }

  /** Weekly is daily regrouped: the weekly rows are the weeks of the daily rows, and each is
      the exact sum, of every token field, both costs and the count, of the daily rows with
      the same agent, project and model whose day falls in that week. */
  lemma WeeklyIsDailyRegrouped(events: seq<Event>, dayOf: int -> Option<int>, daily: map<DayKey, Usage>,
                               weekly: map<DayKey, Usage>)
    requires SumsBy(events, DayKeyOf(dayOf), daily) && SumsBy(events, WeekKeyOf(dayOf), weekly)
    ensures forall w :: w in weekly <==> exists k :: k in daily && InWeek(k) == w
    ensures forall w | w in weekly :: weekly[w] == SumOver(daily, DaysOf(daily, w))
  {
    hide UsageOf, SumOver;
    var key := DayKeyOf(dayOf);
    forall e | e in events
      ensures key(e) in daily
    {
      WhereIs(events, key, key(e));
      assert e in Where(events, key, key(e));
    }
    forall w
      ensures w in weekly <==> exists k :: k in daily && InWeek(k) == w
    {
      WhereIs(events, WeekKeyOf(dayOf), w);
      if w in weekly {
        var e := Where(events, WeekKeyOf(dayOf), w)[0];
        assert e in Where(events, WeekKeyOf(dayOf), w);
        assert InWeek(key(e)) == w;
      }
      if k :| k in daily && InWeek(k) == w {
        WhereIs(events, key, k);
        var e := Where(events, key, k)[0];
        assert e in Where(events, key, k);
        assert e in Where(events, WeekKeyOf(dayOf), w);
      }
    }
    forall w | w in weekly
      ensures weekly[w] == SumOver(daily, DaysOf(daily, w))
    {
      SameEvents(events, dayOf, DaysOf(daily, w), w);
      SumOverIs(events, key, daily, DaysOf(daily, w));
    }
  }
}
