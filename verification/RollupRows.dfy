/** What the rows of the rollups say, column by column, in terms of the events alone. */
module RollupRows {
  import opened Options
  import opened UsageEvents
  import opened Rollups
  import opened RollupGuarantees

  /** The events that satisfy `p`, in their order. */
  function Select(events: seq<Event>, p: Event -> bool): seq<Event> {
    if events == [] then []
    else (if p(events[0]) then [events[0]] else []) + Select(events[1..], p)
  }

  lemma Associative<T>(a: seq<T>, b: seq<T>, c: seq<T>)
    ensures a + (b + c) == a + b + c
  {
  }

  lemma {:induction false} SelectPush(events: seq<Event>, e: Event, p: Event -> bool)
    ensures Select(events + [e], p) == Select(events, p) + if p(e) then [e] else []
  {
    if events == [] {
      assert events + [e] == [e] && [e][1..] == [];
    } else {
      var rest := events[1..];
      assert (events + [e])[0] == events[0] && (events + [e])[1..] == rest + [e];
      SelectPush(rest, e, p);
      Associative(if p(events[0]) then [events[0]] else [], Select(rest, p), if p(e) then [e] else []);
    }
  }

  lemma {:induction false} WhereIsSelect<K>(events: seq<Event>, key: Event -> K, k: K, p: Event -> bool)
    requires forall e | e in events :: p(e) <==> key(e) == k
    ensures Where(events, key, k) == Select(events, p)
  {
    if events != [] {
      var before, last := events[..|events| - 1], events[|events| - 1];
      assert events == before + [last];
      WhereIsSelect(before, key, k, p);
      SelectPush(before, last, p);
    }
  }

  lemma {:induction false} SelectIs(events: seq<Event>, p: Event -> bool)
    ensures forall e :: e in Select(events, p) <==> e in events && p(e)
  {
    if events != [] {
      assert events == [events[0]] + events[1..];
      SelectIs(events[1..], p);
    }
  }

  // ---- the columns the rows share ----

  predicate IsCost(cost: Option<real>, events: seq<Event>) {
    && (cost.None? <==> forall e | e in events :: e.cost.None?)
    && Amount(cost) == TotalAmount(events, (e: Event) => e.cost)
  }

  ghost predicate AreTimes(first: int, last: int, events: seq<Event>) {
    && (exists e :: e in events && e.timestamp == first)
    && (exists e :: e in events && e.timestamp == last)
    && forall e | e in events :: first <= e.timestamp <= last
  }

  lemma SumsAre(events: seq<Event>)
    ensures var u := UsageOf(events);
            && u.total == SumOf(events, (e: Event) => e.total) && IsCost(u.cost, events) && u.count == |events|
  {
    TokenSums(events);
    CountAndCosts(events);
    hide UsageOf, SumOf, TotalAmount;
  }

  lemma TimesAre(events: seq<Event>)
    requires events != []
    ensures AreTimes(MinTime(events), MaxTime(events), events)
  {
    EarliestAndLatest(events);
  }

  // ---- sessions ----

  ghost predicate SessionRowSays(row: SessionRow, group: seq<Event>, now: int) {
    && group != []
    && row.agent == Some(group[0].agent) && row.project == group[0].project
    && AreTimes(row.startedAt, row.lastSeen, group)
    && (forall x :: x in row.modelList <==> x != "" && exists e :: e in group && e.model == Some(x))
    && NoRepeats(row.modelList)
    && row.tokens == SumOf(group, (e: Event) => e.total)
    && IsCost(row.cost, group)
    && row.count == |group|
    && row.isActive == 0 && row.createdAt == now && row.updatedAt == now
  }

  lemma ModelsListed(group: seq<Event>)
    ensures var list := FirstAppearances(ModelNames(group));
            && (forall x :: x in list <==> x != "" && exists e :: e in group && e.model == Some(x))
            && NoRepeats(list)
  {
    NamesAre(group);
    FirstAppearancesAre(ModelNames(group));
    hide FirstAppearances, ModelNames;
    var list := FirstAppearances(ModelNames(group));
    forall x
      ensures x in list <==> x != "" && exists e :: e in group && e.model == Some(x)
    {
      if x in list {
        var e :| e in group && NameOf(e.model) == x;
        assert e.model == Some(x);
      }
      if x != "" && exists e :: e in group && e.model == Some(x) {
        var e :| e in group && e.model == Some(x);
        assert NameOf(e.model) == x;
      }
    }
  }

  lemma SessionSays(group: seq<Event>, now: int)
    requires group != []
    ensures SessionRowSays(RebuiltSessionRow(SessionOf(group), now), group, now)
  {
    SumsAre(group);
    TimesAre(group);
    ModelsListed(group);
    hide UsageOf, SumOf, IsCost, AreTimes, FirstAppearances, ModelNames, MinTime, MaxTime;
  }

  /** There is one row for each session id that occurs and is not empty, and it says what its
      events say. By `ScannedSessionsAreRebuiltSessions` the rows of a scan are the same. */
  lemma SessionRowsSay(events: seq<Event>, rows: map<string, SessionRow>, now: int)
    requires GroupsBy(events, SessionKey, rows, SessionRowOf(now))
    ensures forall k :: k in rows <==> k != "" && exists e :: e in events && e.sessionId == k
    ensures forall k | k in rows :: SessionRowSays(rows[k], Select(events, (e: Event) => e.sessionId == k), now)
  {
    hide SessionOf, SessionRowSays, RebuiltSessionRow, Select, Where;
    forall k
      ensures k in rows <==> k != "" && exists e :: e in events && e.sessionId == k
      ensures k in rows ==> SessionRowSays(rows[k], Select(events, (e: Event) => e.sessionId == k), now)
    {
      WhereIs(events, SessionKey, k);
      var group := Where(events, SessionKey, k);
      WhereIsSelect(events, SessionKey, k, (e: Event) => e.sessionId == k);
      if group != [] {
        assert group[0] in group;
        SessionSays(group, now);
      }
    }
  }

  // ---- projects ----

  function SessionsIn(group: seq<Event>): set<string> {
    set e | e in group && e.sessionId != "" :: e.sessionId
  }

  /** The path of the first event that has one. */
  ghost predicate IsFirstPath(path: Option<string>, group: seq<Event>) {
    if path.None? then forall e | e in group :: e.path.None?
    else exists i :: 0 <= i < |group| && group[i].path == path && forall j | 0 <= j < i :: group[j].path.None?
  }

  ghost predicate ProjectRowSays(row: ProjectRow, group: seq<Event>, now: int) {
    && group != []
    && IsFirstPath(row.path, group)
    && row.agent == Some(group[0].agent)
    && row.displayName == (if row.path.Some? then Some(LastComponent(row.path.value)) else None)
    && AreTimes(row.firstSeen, row.lastSeen, group)
    && row.tokens == SumOf(group, (e: Event) => e.total)
    && IsCost(row.cost, group)
    && row.sessionCount == |SessionsIn(group)|
    && row.createdAt == now && row.updatedAt == now
  }

  function LastComponent(path: string): string {
    AfterLastSlash(TrimSlashes(path))
  }

  lemma {:induction false} FirstPathIs(group: seq<Event>)
    ensures IsFirstPath(FirstPath(group), group)
  {
    if group != [] {
      var n := |group| - 1;
      var before := group[..n];
      assert group == before + [group[n]];
      FirstPathIs(before);
      if FirstPath(before).Some? {
        var i :| 0 <= i < n && before[i].path == FirstPath(before) && forall j | 0 <= j < i :: before[j].path.None?;
        assert group[i].path == FirstPath(group) && forall j | 0 <= j < i :: group[j] == before[j];
      } else if group[n].path.Some? {
        assert group[n].path == FirstPath(group) && forall j | 0 <= j < n :: group[j] in before;
      }
    }
  }

  lemma {:induction false} SizeOfList(s: seq<string>, names: set<string>)
    requires NoRepeats(s) && forall x :: x in s <==> x in names
    ensures |s| == |names|
    decreases |s|
  {
    if s == [] {
      assert names == {};
    } else {
      var x, rest := s[0], s[1..];
      assert s == [x] + rest && names == (names - {x}) + {x};
      forall y
        ensures y in rest <==> y in names - {x}
      {
        assert y in s <==> y == x || y in rest;
        if y in rest {
          var i :| 0 <= i < |rest| && rest[i] == y;
          assert s[i + 1] == y;
        }
      }
      SizeOfList(rest, names - {x});
    }
  }

  lemma SessionsCounted(group: seq<Event>)
    ensures |FirstAppearances(SessionNames(group))| == |SessionsIn(group)|
  {
    SessionNamesAre(group);
    FirstAppearancesAre(SessionNames(group));
    hide FirstAppearances, SessionNames;
    SizeOfList(FirstAppearances(SessionNames(group)), SessionsIn(group));
  }

  lemma ProjectSays(group: seq<Event>, now: int)
    requires group != []
    ensures ProjectRowSays(RebuiltProjectRow(ProjectOf(group), now), group, now)
  {
    SumsAre(group);
    TimesAre(group);
    FirstPathIs(group);
    SessionsCounted(group);
    hide UsageOf, SumOf, IsCost, AreTimes, FirstAppearances, SessionNames, MinTime, MaxTime, FirstPath, IsFirstPath,
      SessionsIn, AfterLastSlash, TrimSlashes;
  }

  /** The same for projects; the rows of a scan differ from these as `ScannedProjectsDiffer`
      says. */
  lemma ProjectRowsSay(events: seq<Event>, rows: map<string, ProjectRow>, now: int)
    requires GroupsBy(events, ProjectKey, rows, ProjectRowOf(now))
    ensures forall k :: k in rows <==> k != "" && exists e :: e in events && e.project == Some(k)
    ensures forall k | k in rows :: ProjectRowSays(rows[k], Select(events, (e: Event) => e.project == Some(k)), now)
  {
    hide ProjectOf, ProjectRowSays, RebuiltProjectRow, Select, Where;
    forall k
      ensures k in rows <==> k != "" && exists e :: e in events && e.project == Some(k)
      ensures k in rows ==> ProjectRowSays(rows[k], Select(events, (e: Event) => e.project == Some(k)), now)
    {
      WhereIs(events, ProjectKey, k);
      var group := Where(events, ProjectKey, k);
      if k != "" {
        WhereIsSelect(events, ProjectKey, k, (e: Event) => e.project == Some(k));
        if group != [] {
          assert group[0] in group;
          ProjectSays(group, now);
        }
        if e :| e in events && e.project == Some(k) {
          assert e in group;
        }
      }
    }
  }

  // ---- models ----

  ghost predicate ModelRowSays(row: ModelRow, group: seq<Event>) {
    && row.tokens == SumOf(group, (e: Event) => e.total) && IsCost(row.cost, group) && row.count == |group|
  }

  lemma ModelRowsSay(events: seq<Event>, rows: map<string, ModelRow>)
    requires GroupsBy(events, ModelKey, rows, ModelRowOf)
    ensures forall k :: k in rows <==> k != "" && exists e :: e in events && e.model == Some(k)
    ensures forall k | k in rows ::
              rows[k].model == k && ModelRowSays(rows[k], Select(events, (e: Event) => e.model == Some(k)))
  {
    hide ModelRowSays, Select, Where, UsageOf;
    forall k
      ensures k in rows <==> k != "" && exists e :: e in events && e.model == Some(k)
      ensures k in rows ==>
                rows[k].model == k && ModelRowSays(rows[k], Select(events, (e: Event) => e.model == Some(k)))
    {
      WhereIs(events, ModelKey, k);
      var group := Where(events, ModelKey, k);
      if k != "" {
        WhereIsSelect(events, ModelKey, k, (e: Event) => e.model == Some(k));
        if group != [] {
          assert group[0] in group;
          ModelSays(group);
        }
        if e :| e in events && e.model == Some(k) {
          assert e in group;
        }
      }
    }
  }

  lemma ModelSays(group: seq<Event>)
    requires group != []
    ensures ModelRowSays(ModelRowOf(group), group)
  {
    SumsAre(group);
    hide UsageOf, SumOf, IsCost;
  }

  // ---- display names ----

  predicate OnlySlashes(s: string) {
    forall c | c in s :: c == '/'
  }

  lemma {:induction false} TrimmedSlashes(path: string)
    ensures TrimSlashes(path) <= path && OnlySlashes(path[|TrimSlashes(path)|..])
    ensures TrimSlashes(path) != "" ==> TrimSlashes(path)[|TrimSlashes(path)| - 1] != '/'
  {
    if path != "" && path[|path| - 1] == '/' {
      var n := |path| - 1;
      TrimmedSlashes(path[..n]);
      var t := TrimSlashes(path);
      assert path[|t|..] == path[..n][|t|..] + [path[n]];
    }
  }

  lemma {:induction false} AfterSlash(path: string)
    ensures var name := AfterLastSlash(path);
            && '/' !in name && |name| <= |path| && path[|path| - |name|..] == name
            && (|name| < |path| ==> path[|path| - |name| - 1] == '/')
  {
    if path != "" && path[|path| - 1] != '/' {
      var n := |path| - 1;
      var before := path[..n];
      AfterSlash(before);
      var name := AfterLastSlash(before);
      assert path == before + [path[n]];
      SuffixPush(before, path[n], n - |name|);
      assert AfterLastSlash(path) == name + [path[n]];
      hide AfterLastSlash;
    }
  }

  lemma SuffixPush(s: string, c: char, k: nat)
    requires k <= |s|
    ensures (s + [c])[k..] == s[k..] + [c]
    ensures 0 < k ==> (s + [c])[k - 1] == s[k - 1]
  {
  }

  predicate IsComponent(path: string, prefix: string, name: string, slashes: string) {
    && path == prefix + name + slashes && OnlySlashes(slashes)
    && (prefix == "" || prefix[|prefix| - 1] == '/')
    && (name == "" ==> prefix == "")
  }

  /** The name shown for a project is the last component of its path: the path is a prefix,
      empty or ending in a slash, then the name, without a slash, then slashes only; the name
      is empty only if the path has nothing but slashes. */
  lemma DisplayNameIs(path: string)
    ensures DisplayName(None) == None && DisplayName(Some(path)).Some?
    ensures var name := DisplayName(Some(path)).value;
            && '/' !in name
            && exists prefix, slashes :: IsComponent(path, prefix, name, slashes)
  {
    hide TrimSlashes, AfterLastSlash, OnlySlashes;
    var t := TrimSlashes(path);
    TrimmedSlashes(path);
    AfterSlash(t);
    Components(path, t, AfterLastSlash(t));
  }

  lemma Components(path: string, t: string, name: string)
    requires t <= path && |name| <= |t| && t[|t| - |name|..] == name && OnlySlashes(path[|t|..])
    requires |name| < |t| ==> t[|t| - |name| - 1] == '/'
    requires t != "" ==> t[|t| - 1] != '/'
    ensures exists prefix, slashes :: IsComponent(path, prefix, name, slashes)
  {
    hide OnlySlashes;
    var prefix, slashes := t[..|t| - |name|], path[|t|..];
    assert t == prefix + name && path == t + slashes;
    assert IsComponent(path, prefix, name, slashes);
  }

  // ---- days and weeks ----

  /** The event is of the day, the agent, the project and the model of row `k`. */
  function OfDay(k: DayKey, dayOf: int -> Option<int>): Event -> bool {
    (e: Event) =>
      dayOf(e.timestamp) == Some(k.day) && e.agent == k.agent && NameOf(e.project) == k.project
      && NameOf(e.model) == k.model
  }

  /** The same for the seven days from day `k.day` on. */
  function OfWeek(k: DayKey, dayOf: int -> Option<int>): Event -> bool {
    (e: Event) =>
      dayOf(e.timestamp).Some? && 0 <= dayOf(e.timestamp).value - k.day <= 6
      && e.agent == k.agent && NameOf(e.project) == k.project && NameOf(e.model) == k.model
  }

  lemma DailyRowsSay(events: seq<Event>, dayOf: int -> Option<int>, rows: map<DayKey, Usage>)
    requires SumsBy(events, DayKeyOf(dayOf), rows) && forall e | e in events :: dayOf(e.timestamp).Some?
    ensures forall k :: k in rows <==> exists e :: e in events && OfDay(k, dayOf)(e)
    ensures forall k | k in rows :: rows[k] == UsageOf(Select(events, OfDay(k, dayOf)))
  {
    hide Where, Select, UsageOf;
    forall k
      ensures k in rows <==> exists e :: e in events && OfDay(k, dayOf)(e)
      ensures k in rows ==> rows[k] == UsageOf(Select(events, OfDay(k, dayOf)))
    {
      WhereIsSelect(events, DayKeyOf(dayOf), k, OfDay(k, dayOf));
      SelectIs(events, OfDay(k, dayOf));
      var group := Select(events, OfDay(k, dayOf));
      if group != [] {
        assert group[0] in group;
      }
    }
  }

  /** Julian day numbers are 6 modulo 7 on Sundays. */
  lemma WeekOf(day: int, w: int)
    ensures WeekStart(day, SUNDAY) == w <==> w % 7 == 6 && 0 <= day - w <= 6
  {
  }

  lemma WeekKeyIs(e: Event, k: DayKey, dayOf: int -> Option<int>)
    requires dayOf(e.timestamp).Some?
    ensures WeekKeyOf(dayOf)(e) == k <==> k.day % 7 == 6 && OfWeek(k, dayOf)(e)
  {
    var day := dayOf(e.timestamp).value;
    WeekOf(day, k.day);
    var key := DayKeyOf(dayOf)(e);
    assert key == DayKey(day, e.agent, NameOf(e.project), NameOf(e.model));
    assert WeekKeyOf(dayOf)(e) == InWeek(key);
  }

  /** The weekly rows: each is of a week that starts on a Sunday, and it is the sum over the
      events of the seven days from then on with its agent, project and model; every event is
      in the row of the last Sunday up to its day. */
  lemma WeeklyRowsSay(events: seq<Event>, dayOf: int -> Option<int>, rows: map<DayKey, Usage>)
    requires SumsBy(events, WeekKeyOf(dayOf), rows) && forall e | e in events :: dayOf(e.timestamp).Some?
    ensures forall k :: k in rows <==> k.day % 7 == 6 && exists e :: e in events && OfWeek(k, dayOf)(e)
    ensures forall k | k in rows :: rows[k] == UsageOf(Select(events, OfWeek(k, dayOf)))
  {
    hide Where, Select, UsageOf, WeekStart;
    forall k
      ensures k in rows <==> k.day % 7 == 6 && exists e :: e in events && OfWeek(k, dayOf)(e)
      ensures k in rows ==> rows[k] == UsageOf(Select(events, OfWeek(k, dayOf)))
    {
      forall e | e in events
        ensures WeekKeyOf(dayOf)(e) == k <==> k.day % 7 == 6 && OfWeek(k, dayOf)(e)
      {
        WeekKeyIs(e, k, dayOf);
      }
      WhereIs(events, WeekKeyOf(dayOf), k);
      SelectIs(events, OfWeek(k, dayOf));
      var group := Where(events, WeekKeyOf(dayOf), k);
      if k.day % 7 == 6 {
        WhereIsSelect(events, WeekKeyOf(dayOf), k, OfWeek(k, dayOf));
      }
      if group != [] {
        assert group[0] in group;
      }
    }
  }
}
