/** The rollups: folds over the events into hash maps, one accumulator for each key.

    A map stands for the rows: their order, which is the hash map's, is not modelled. */
module Rollups {
  import opened Options
  import opened UsageEvents

  // ---- specification: group, then summarise ----

  /** The events with key `k`, in their order. */
  function Where<K(==)>(events: seq<Event>, key: Event -> K, k: K): seq<Event> {
    if events == [] then []
    else
      var n := |events| - 1;
      Where(events[..n], key, k) + if key(events[n]) == k then [events[n]] else []
  }

  function MinTime(events: seq<Event>): int
    requires events != []
  {
    var n := |events| - 1;
    if n == 0 then events[0].timestamp
    else if events[n].timestamp < MinTime(events[..n]) then events[n].timestamp
    else MinTime(events[..n])
  }

  function MaxTime(events: seq<Event>): int
    requires events != []
  {
    var n := |events| - 1;
    if n == 0 then events[0].timestamp
    else if events[n].timestamp > MaxTime(events[..n]) then events[n].timestamp
    else MaxTime(events[..n])
  }

  function SessionNames(events: seq<Event>): seq<string> {
    if events == [] then [] else SessionNames(events[..|events| - 1]) + [events[|events| - 1].sessionId]
  }

  /** The first path there is. */
  function FirstPath(events: seq<Event>): Option<string> {
    if events == [] then None
    else
      var before := FirstPath(events[..|events| - 1]);
      if before.Some? then before else events[|events| - 1].path
  }

  datatype SessionSummary = SessionSummary(agent: AgentKind, project: Option<string>, startedAt: int, lastSeen: int,
                                           models: seq<string>, tokens: int, cost: Option<real>, count: int)

  function SessionOf(events: seq<Event>): SessionSummary
    requires events != []
  {
    var u := UsageOf(events);
    SessionSummary(events[0].agent, events[0].project, MinTime(events), MaxTime(events),
                   FirstAppearances(ModelNames(events)), u.total, u.cost, u.count)
  }

  datatype ProjectAccumulator = ProjectAccumulator(path: Option<string>, agent: AgentKind, firstSeen: int,
                                                   lastSeen: int, tokens: int, cost: Option<real>, count: int,
                                                   sessions: seq<string>)

  function ProjectOf(events: seq<Event>): ProjectAccumulator
    requires events != []
  {
    var u := UsageOf(events);
    ProjectAccumulator(FirstPath(events), events[0].agent, MinTime(events), MaxTime(events), u.total, u.cost, u.count,
                       FirstAppearances(SessionNames(events)))
  }

  datatype ModelSummary = ModelSummary(model: Option<string>, tokens: int, cost: Option<real>, count: int)

  function ModelOf(events: seq<Event>): ModelSummary
    requires events != []
  {
    var u := UsageOf(events);
    ModelSummary(Some(NameOf(events[0].model)), u.total, u.cost, u.count)
  }

  /** `m` groups `events` by `key`, leaving out the empty key, and `summary` sums up each group. */
  ghost predicate GroupsBy<V(!new)>(events: seq<Event>, key: Event -> string, m: map<string, V>,
                                    summary: seq<Event> --> V)
  {
    && (forall k :: k in m <==> k != "" && Where(events, key, k) != [])
    && (forall k | k in m ::
          summary.requires(Where(events, key, k)) && m[k] == summary(Where(events, key, k)))
  }

  function SessionKey(e: Event): string {
    e.sessionId
  }

  function ProjectKey(e: Event): string {
    NameOf(e.project)
  }

  function ModelKey(e: Event): string {
    NameOf(e.model)
  }

  // ---- one more event ----

  lemma WherePush<K>(events: seq<Event>, e: Event, key: Event -> K, k: K)
    ensures key(e) == k ==> Where(events + [e], key, k) == Where(events, key, k) + [e]
    ensures key(e) != k ==> Where(events + [e], key, k) == Where(events, key, k)
  {
    assert (events + [e])[..|events|] == events;
  }

  lemma GroupsStep<V(!new)>(events: seq<Event>, e: Event, key: Event -> string, m: map<string, V>,
                            summary: seq<Event> --> V, v: V)
    requires GroupsBy(events, key, m, summary) && key(e) != ""
    requires summary.requires(Where(events, key, key(e)) + [e]) && v == summary(Where(events, key, key(e)) + [e])
    ensures GroupsBy(events + [e], key, m[key(e) := v], summary)
  {
    hide Where;
    forall k
      ensures key(e) == k ==> Where(events + [e], key, k) == Where(events, key, k) + [e]
      ensures key(e) != k ==> Where(events + [e], key, k) == Where(events, key, k)
    {
      WherePush(events, e, key, k);
    }
  }

  lemma GroupsSkip<V(!new)>(events: seq<Event>, e: Event, key: Event -> string, m: map<string, V>,
                            summary: seq<Event> --> V)
    requires GroupsBy(events, key, m, summary) && key(e) == ""
    ensures GroupsBy(events + [e], key, m, summary)
  {
    hide Where;
    forall k
      ensures key(e) == k ==> Where(events + [e], key, k) == Where(events, key, k) + [e]
      ensures key(e) != k ==> Where(events + [e], key, k) == Where(events, key, k)
    {
      WherePush(events, e, key, k);
    }
  }

  lemma SessionPush(group: seq<Event>, e: Event)
    requires group != []
    ensures var a := SessionOf(group);
            SessionOf(group + [e]) ==
            a.(startedAt := if e.timestamp < a.startedAt then e.timestamp else a.startedAt,
               lastSeen := if e.timestamp > a.lastSeen then e.timestamp else a.lastSeen,
               models := PushNew(a.models, NameOf(e.model)), tokens := a.tokens + e.total,
               cost := MergeCost(a.cost, e.cost), count := a.count + 1)
  {
    assert (group + [e])[..|group|] == group;
    assert (ModelNames(group) + [NameOf(e.model)])[..|ModelNames(group)|] == ModelNames(group);
  }

  lemma SessionFirst(e: Event)
    ensures SessionOf([e]) == SessionSummary(e.agent, e.project, e.timestamp, e.timestamp,
                                             PushNew([], NameOf(e.model)), e.total, e.cost, 1)
  {
    UsageOfSingle(e);
    assert [e][..0] == [];
    var name := NameOf(e.model);
    assert ModelNames([e]) == [name] && [name][..0] == [];
    assert FirstAppearances([name]) == PushNew([], name);
  }

  // ---- the code ----

  /** The session loop of `build_scan_mutations`, which is also that of `rebuild_sessions`. */
  method AccumulateSessions(events: seq<Event>) returns (m: map<string, SessionSummary>)
    ensures GroupsBy(events, SessionKey, m, SessionOf)
  {
    hide SessionOf, Where, GroupsBy;
    m := map[];
    NoGroups(SessionKey, m, SessionOf);
    for i := 0 to |events|
      invariant GroupsBy(events[..i], SessionKey, m, SessionOf)
    {
      var e := events[i];
      assert events[..i + 1] == events[..i] + [e];
      if e.sessionId == "" {
        GroupsSkip(events[..i], e, SessionKey, m, SessionOf);
        continue;
      }
      var acc := if e.sessionId in m then m[e.sessionId]
                 else SessionSummary(e.agent, e.project, e.timestamp, e.timestamp, [], 0, None, 0);
      if e.timestamp < acc.startedAt {
        acc := acc.(startedAt := e.timestamp);
      }
      if e.timestamp > acc.lastSeen {
        acc := acc.(lastSeen := e.timestamp);
      }
      if e.model.Some? && e.model.value != "" && e.model.value !in acc.models {
        acc := acc.(models := acc.models + [e.model.value]);
      }
      acc := acc.(tokens := acc.tokens + e.total, cost := MergeCost(acc.cost, e.cost), count := acc.count + 1);
      ghost var group := Where(events[..i], SessionKey, e.sessionId);
      GroupOf(events[..i], SessionKey, m, SessionOf, e.sessionId);
      if group == [] {
        SessionFirst(e);
      } else {
        SessionPush(group, e);
      }
      assert group + [e] == if group == [] then [e] else group + [e];
      GroupsStep(events[..i], e, SessionKey, m, SessionOf, acc);
      m := m[e.sessionId := acc];
    }
    assert events[..|events|] == events;
  }

  lemma NoGroups<V(!new)>(key: Event -> string, m: map<string, V>, summary: seq<Event> --> V)
    requires m == map[]
    ensures GroupsBy([], key, m, summary)
  {
  }

  lemma GroupOf<V(!new)>(events: seq<Event>, key: Event -> string, m: map<string, V>, summary: seq<Event> --> V,
                         k: string)
    requires GroupsBy(events, key, m, summary) && k != ""
    ensures k in m <==> Where(events, key, k) != []
    ensures k in m ==> summary.requires(Where(events, key, k)) && m[k] == summary(Where(events, key, k))
  {
  }

  lemma ProjectPush(group: seq<Event>, e: Event)
    requires group != []
    ensures var a := ProjectOf(group);
            ProjectOf(group + [e]) ==
            a.(path := if a.path.Some? then a.path else e.path,
               firstSeen := if e.timestamp < a.firstSeen then e.timestamp else a.firstSeen,
               lastSeen := if e.timestamp > a.lastSeen then e.timestamp else a.lastSeen,
               tokens := a.tokens + e.total, cost := MergeCost(a.cost, e.cost), count := a.count + 1,
               sessions := PushNew(a.sessions, e.sessionId))
  {
    assert (group + [e])[..|group|] == group;
    assert (SessionNames(group) + [e.sessionId])[..|SessionNames(group)|] == SessionNames(group);
  }

  lemma ProjectFirst(e: Event)
    ensures ProjectOf([e]) == ProjectAccumulator(e.path, e.agent, e.timestamp, e.timestamp, e.total, e.cost, 1,
                                                 PushNew([], e.sessionId))
  {
    UsageOfSingle(e);
    assert [e][..0] == [];
    assert SessionNames([e]) == [e.sessionId] && [e.sessionId][..0] == [];
    assert FirstPath([]) == None && FirstPath([e]) == e.path;
    assert FirstAppearances([e.sessionId]) == PushNew([], e.sessionId);
  }

  /** The project loop of `build_scan_mutations` and of `rebuild_projects`. */
  method AccumulateProjects(events: seq<Event>) returns (m: map<string, ProjectAccumulator>)
    ensures GroupsBy(events, ProjectKey, m, ProjectOf)
  {
    hide ProjectOf, Where, GroupsBy;
    m := map[];
    NoGroups(ProjectKey, m, ProjectOf);
    for i := 0 to |events|
      invariant GroupsBy(events[..i], ProjectKey, m, ProjectOf)
    {
      var e := events[i];
      assert events[..i + 1] == events[..i] + [e];
      var hash := NameOf(e.project);
      if hash == "" {
        GroupsSkip(events[..i], e, ProjectKey, m, ProjectOf);
        continue;
      }
      var acc := if hash in m then m[hash]
                 else ProjectAccumulator(e.path, e.agent, e.timestamp, e.timestamp, 0, None, 0, []);
      if acc.path.None? && e.path.Some? {
        acc := acc.(path := e.path);
      }
      if e.timestamp < acc.firstSeen {
        acc := acc.(firstSeen := e.timestamp);
      }
      if e.timestamp > acc.lastSeen {
        acc := acc.(lastSeen := e.timestamp);
      }
      acc := acc.(tokens := acc.tokens + e.total, cost := MergeCost(acc.cost, e.cost), count := acc.count + 1);
      if e.sessionId != "" && e.sessionId !in acc.sessions {
        acc := acc.(sessions := acc.sessions + [e.sessionId]);
      }
      ghost var group := Where(events[..i], ProjectKey, hash);
      GroupOf(events[..i], ProjectKey, m, ProjectOf, hash);
      if group == [] {
        ProjectFirst(e);
      } else {
        ProjectPush(group, e);
      }
      assert group + [e] == if group == [] then [e] else group + [e];
      GroupsStep(events[..i], e, ProjectKey, m, ProjectOf, acc);
      m := m[hash := acc];
    }
    assert events[..|events|] == events;
  }

  lemma ModelPush(group: seq<Event>, e: Event)
    requires group != []
    ensures var a := ModelOf(group);
            ModelOf(group + [e])
            == a.(tokens := a.tokens + e.total, cost := MergeCost(a.cost, e.cost), count := a.count + 1)
  {
    assert (group + [e])[..|group|] == group;
  }

  lemma ModelFirst(e: Event)
    ensures ModelOf([e]) == ModelSummary(Some(NameOf(e.model)), e.total, e.cost, 1)
  {
    UsageOfSingle(e);
  }

  /** The model loop of `build_scan_mutations` and of `rebuild_model_summaries`. */
  method AccumulateModels(events: seq<Event>) returns (m: map<string, ModelSummary>)
    ensures GroupsBy(events, ModelKey, m, ModelOf)
  {
    hide ModelOf, Where, GroupsBy;
    m := map[];
    NoGroups(ModelKey, m, ModelOf);
    for i := 0 to |events|
      invariant GroupsBy(events[..i], ModelKey, m, ModelOf)
    {
      var e := events[i];
      assert events[..i + 1] == events[..i] + [e];
      var model := NameOf(e.model);
      if model == "" {
        GroupsSkip(events[..i], e, ModelKey, m, ModelOf);
        continue;
      }
      var acc := if model in m then m[model] else ModelSummary(Some(model), 0, None, 0);
      acc := acc.(tokens := acc.tokens + e.total, cost := MergeCost(acc.cost, e.cost), count := acc.count + 1);
      ghost var group := Where(events[..i], ModelKey, model);
      GroupOf(events[..i], ModelKey, m, ModelOf, model);
      if group == [] {
        ModelFirst(e);
      } else {
        ModelPush(group, e);
      }
      assert group + [e] == if group == [] then [e] else group + [e];
      GroupsStep(events[..i], e, ModelKey, m, ModelOf, acc);
      m := m[model := acc];
    }
    assert events[..|events|] == events;
  }

  // ---- days and weeks ----

  /** The key of a daily row: day, agent, project and model. */
  datatype DayKey = DayKey(day: int, agent: AgentKind, project: string, model: string)

  /** The key under a calendar; the day of an event the calendar cannot date is not used. */
  function DayKeyOf(dayOf: int -> Option<int>): Event -> DayKey {
    (e: Event) =>
      var day := dayOf(e.timestamp);
      DayKey(if day.Some? then day.value else 0, e.agent, NameOf(e.project), NameOf(e.model))
  }

  /** Julian day numbers start on a Monday; 0 is a Sunday here. */
  function WeekdayOf(day: int): (w: int)
    ensures 0 <= w < 7
  {
    (day + 1) % 7
  }

  const SUNDAY := 0

  /** `get_date_week` on day numbers. */
  function WeekStart(day: int, startDay: int): int
    requires 0 <= startDay < 7
  {
    var daysBack := (WeekdayOf(day) - startDay + 7) % 7;
    day - daysBack
  }

  function InWeek(k: DayKey): DayKey {
    k.(day := WeekStart(k.day, SUNDAY))
  }

  function WeekKeyOf(dayOf: int -> Option<int>): Event -> DayKey {
    (e: Event) => InWeek(DayKeyOf(dayOf)(e))
  }

  /** The rows of `key`: for every key that occurs, the sum over its events. */
  ghost predicate SumsBy(events: seq<Event>, key: Event -> DayKey, rows: map<DayKey, Usage>) {
    && (forall k :: k in rows <==> Where(events, key, k) != [])
    && (forall k | k in rows :: rows[k] == UsageOf(Where(events, key, k)))
  }

  lemma SumsStep(events: seq<Event>, e: Event, key: Event -> DayKey, rows: map<DayKey, Usage>)
    requires SumsBy(events, key, rows)
    ensures var u := if key(e) in rows then rows[key(e)] else NO_USAGE;
            SumsBy(events + [e], key, rows[key(e) := Plus(u, UsageOfOne(e))])
  {
    var group := Where(events, key, key(e));
    assert (group + [e])[..|group|] == group;
    assert UsageOf(group + [e]) == Plus(UsageOf(group), UsageOfOne(e));
    hide Where, Plus, UsageOfOne;
    forall k
      ensures key(e) == k ==> Where(events + [e], key, k) == Where(events, key, k) + [e]
      ensures key(e) != k ==> Where(events + [e], key, k) == Where(events, key, k)
    {
      WherePush(events, e, key, k);
    }
  }

  /** The daily loop of `build_scan_mutations`, and the loop of `build_weekly_usage_value`:
      the error of a day that cannot be computed ends it. */
  method AccumulateRows(events: seq<Event>, key: Event -> DayKey, dated: Event -> bool)
    returns (rows: Option<map<DayKey, Usage>>)
    ensures rows.None? <==> exists e :: e in events && !dated(e)
    ensures rows.Some? ==> SumsBy(events, key, rows.value)
  {
    hide Where, SumsBy;
    var m: map<DayKey, Usage> := map[];
    NoSums(key, m);
    for i := 0 to |events|
      invariant forall k | 0 <= k < i :: dated(events[k])
      invariant SumsBy(events[..i], key, m)
    {
      var e := events[i];
      if !dated(e) {
        return None;
      }
      assert events[..i + 1] == events[..i] + [e];
      SumsStep(events[..i], e, key, m);
      var acc := if key(e) in m then m[key(e)] else NO_USAGE;
      acc := Usage(acc.input + e.input, acc.output + e.output, acc.total + e.total, acc.cachedInput + e.cachedInput,
                   acc.cacheCreation + e.cacheCreation, acc.cacheRead + e.cacheRead, acc.reasoning + e.reasoning,
                   acc.thoughts + e.thoughts, acc.tool + e.tool, MergeCost(acc.cost, e.cost),
                   MergeCost(acc.estimatedCost, e.estimatedCost), acc.count + 1);
      m := m[key(e) := acc];
    }
    assert events[..|events|] == events;
    return Some(m);
  }

  lemma NoSums(key: Event -> DayKey, rows: map<DayKey, Usage>)
    requires rows == map[]
    ensures SumsBy([], key, rows)
  {
  }

  method BuildWeeklyUsage(events: seq<Event>, dayOf: int -> Option<int>) returns (rows: Option<map<DayKey, Usage>>)
    ensures rows.None? <==> exists e :: e in events && dayOf(e.timestamp).None?
    ensures rows.Some? ==> SumsBy(events, WeekKeyOf(dayOf), rows.value)
  {
    hide SumsBy;
    rows := AccumulateRows(events, WeekKeyOf(dayOf), (e: Event) => dayOf(e.timestamp).Some?);
  }

  // ---- rollups and rows ----

  datatype SessionRollup = SessionRollup(agent: Option<AgentKind>, project: Option<string>, startedAt: int,
                                         lastSeen: int, modelList: Option<seq<string>>, tokens: int,
                                         cost: Option<real>, count: int)

  /** A missing agent stands for the empty name. */
  datatype SessionRow = SessionRow(agent: Option<AgentKind>, project: Option<string>, startedAt: int, lastSeen: int,
                                   modelList: seq<string>, tokens: int, cost: Option<real>, count: int,
                                   isActive: int, createdAt: int, updatedAt: int)

  datatype ProjectRollup = ProjectRollup(path: Option<string>, tokens: int, cost: Option<real>, count: int,
                                         sessionCount: int)

  datatype ProjectRow = ProjectRow(path: Option<string>, agent: Option<AgentKind>, displayName: Option<string>,
                                   firstSeen: int, lastSeen: int, tokens: int, cost: Option<real>, sessionCount: int,
                                   createdAt: int, updatedAt: int)

  datatype ModelRow = ModelRow(model: string, tokens: int, cost: Option<real>, count: int)

  datatype ScanMutations = ScanMutations(daily: map<DayKey, Usage>, sessions: map<string, SessionRollup>,
                                         projects: map<string, ProjectRollup>, models: map<string, ModelSummary>)

  function RollupOfSession(a: SessionSummary): SessionRollup {
    SessionRollup(Some(a.agent), a.project, a.startedAt, a.lastSeen, Some(a.models), a.tokens, a.cost, a.count)
  }

  function RollupOfProject(a: ProjectAccumulator): ProjectRollup {
    ProjectRollup(a.path, a.tokens, a.cost, a.count, |a.sessions|)
  }

  function TrimSlashes(path: string): string {
    if path != "" && path[|path| - 1] == '/' then TrimSlashes(path[..|path| - 1]) else path
  }

  function AfterLastSlash(path: string): string {
    if path == "" || path[|path| - 1] == '/' then ""
    else AfterLastSlash(path[..|path| - 1]) + [path[|path| - 1]]
  }

  function DisplayName(path: Option<string>): Option<string> {
    if path.Some? then Some(AfterLastSlash(TrimSlashes(path.value))) else None
  }

  function SessionRollupToRow(s: SessionRollup, now: int): SessionRow {
    SessionRow(s.agent, s.project, s.startedAt, s.lastSeen, if s.modelList.Some? then s.modelList.value else [],
               s.tokens, s.cost, s.count, 0, now, now)
  }

  function ProjectRollupToRow(p: ProjectRollup, now: int): ProjectRow {
    ProjectRow(p.path, None, DisplayName(p.path), 0, 0, p.tokens, p.cost, p.sessionCount, now, now)
  }

  function RebuiltSessionRow(a: SessionSummary, now: int): SessionRow {
    SessionRow(Some(a.agent), a.project, a.startedAt, a.lastSeen, a.models, a.tokens, a.cost, a.count, 0, now, now)
  }

  function RebuiltProjectRow(a: ProjectAccumulator, now: int): ProjectRow {
    ProjectRow(a.path, Some(a.agent), DisplayName(a.path), a.firstSeen, a.lastSeen, a.tokens, a.cost, |a.sessions|,
               now, now)
  }

  /** `model_rollups_to_rows`, and the same conversion at the end of `rebuild_model_summaries`. */
  function ModelRollupToRow(m: ModelSummary): ModelRow {
    ModelRow(NameOf(m.model), m.tokens, m.cost, m.count)
  }

  // Each row as a function of the events of its group.

  function ModelRowOf(group: seq<Event>): ModelRow
    requires group != []
  {
    var u := UsageOf(group);
    ModelRow(NameOf(group[0].model), u.total, u.cost, u.count)
  }

  function SessionRollupOf(group: seq<Event>): SessionRollup
    requires group != []
  {
    RollupOfSession(SessionOf(group))
  }

  function ProjectRollupOf(group: seq<Event>): ProjectRollup
    requires group != []
  {
    RollupOfProject(ProjectOf(group))
  }

  lemma SessionsRolledUp(events: seq<Event>, m: map<string, SessionSummary>)
    requires GroupsBy(events, SessionKey, m, SessionOf)
    ensures GroupsBy(events, SessionKey, map k | k in m :: RollupOfSession(m[k]), SessionRollupOf)
  {
    hide Where, SessionOf, RollupOfSession;
  }

  lemma ProjectsRolledUp(events: seq<Event>, m: map<string, ProjectAccumulator>)
    requires GroupsBy(events, ProjectKey, m, ProjectOf)
    ensures GroupsBy(events, ProjectKey, map k | k in m :: RollupOfProject(m[k]), ProjectRollupOf)
  {
    hide Where, ProjectOf, RollupOfProject;
  }

  method BuildScanMutations(events: seq<Event>, dayOf: int -> Option<int>) returns (r: Option<ScanMutations>)
    ensures r.None? <==> exists e :: e in events && dayOf(e.timestamp).None?
    ensures r.Some? ==> SumsBy(events, DayKeyOf(dayOf), r.value.daily)
    ensures r.Some? ==> GroupsBy(events, SessionKey, r.value.sessions, SessionRollupOf)
    ensures r.Some? ==> GroupsBy(events, ProjectKey, r.value.projects, ProjectRollupOf)
    ensures r.Some? ==> GroupsBy(events, ModelKey, r.value.models, ModelOf)
  {
    hide SumsBy, GroupsBy, SessionOf, ProjectOf, SessionRollupOf, ProjectRollupOf, ModelOf;
    var daily := AccumulateRows(events, DayKeyOf(dayOf), (e: Event) => dayOf(e.timestamp).Some?);
    if daily.None? {
      return None;
    }
    var sessions := AccumulateSessions(events);
    SessionsRolledUp(events, sessions);
    var projects := AccumulateProjects(events);
    ProjectsRolledUp(events, projects);
    var models := AccumulateModels(events);
    return Some(ScanMutations(daily.value, map k | k in sessions :: RollupOfSession(sessions[k]),
                              map k | k in projects :: RollupOfProject(projects[k]), models));
  }

  function SessionRowOf(now: int): seq<Event> --> SessionRow {
    (group: seq<Event>) requires group != [] => RebuiltSessionRow(SessionOf(group), now)
  }

  function ProjectRowOf(now: int): seq<Event> --> ProjectRow {
    (group: seq<Event>) requires group != [] => RebuiltProjectRow(ProjectOf(group), now)
  }

  lemma SessionsRebuilt(events: seq<Event>, m: map<string, SessionSummary>, now: int)
    requires GroupsBy(events, SessionKey, m, SessionOf)
    ensures GroupsBy(events, SessionKey, map k | k in m :: RebuiltSessionRow(m[k], now), SessionRowOf(now))
  {
    hide Where, SessionOf, RebuiltSessionRow;
  }

  lemma ProjectsRebuilt(events: seq<Event>, m: map<string, ProjectAccumulator>, now: int)
    requires GroupsBy(events, ProjectKey, m, ProjectOf)
    ensures GroupsBy(events, ProjectKey, map k | k in m :: RebuiltProjectRow(m[k], now), ProjectRowOf(now))
  {
    hide Where, ProjectOf, RebuiltProjectRow;
  }

  method RebuildSessions(events: seq<Event>, now: int) returns (rows: map<string, SessionRow>)
    ensures GroupsBy(events, SessionKey, rows, SessionRowOf(now))
  {
    hide GroupsBy, SessionRowOf;
    var m := AccumulateSessions(events);
    SessionsRebuilt(events, m, now);
    return map k | k in m :: RebuiltSessionRow(m[k], now);
  }

  method RebuildProjects(events: seq<Event>, now: int) returns (rows: map<string, ProjectRow>)
    ensures GroupsBy(events, ProjectKey, rows, ProjectRowOf(now))
  {
    hide GroupsBy, ProjectRowOf;
    var m := AccumulateProjects(events);
    ProjectsRebuilt(events, m, now);
    return map k | k in m :: RebuiltProjectRow(m[k], now);
  }

  lemma ModelsRebuilt(events: seq<Event>, m: map<string, ModelSummary>)
    requires GroupsBy(events, ModelKey, m, ModelOf)
    ensures GroupsBy(events, ModelKey, map k | k in m :: ModelRollupToRow(m[k]), ModelRowOf)
  {
    hide Where, UsageOf;
  }

  method RebuildModelSummaries(events: seq<Event>) returns (rows: map<string, ModelRow>)
    ensures GroupsBy(events, ModelKey, rows, ModelRowOf)
  {
    hide GroupsBy, ModelRowOf;
    var m := AccumulateModels(events);
    ModelsRebuilt(events, m);
    return map k | k in m :: ModelRollupToRow(m[k]);
  }
}
