/** Billing blocks: a greedy sweep over the events in order of time. */
module BillingBlocks {
  import opened Options
  import opened TimeUnits
  import opened UsageEvents
  import opened EventOrder

  /** The sums a block carries. */
  datatype Totals = Totals(input: int, output: int, total: int, cachedInput: int, cacheCreation: int, cacheRead: int,
                           cost: Option<real>, estimatedCost: Option<real>, count: int)

  const NO_TOTALS := Totals(0, 0, 0, 0, 0, 0, None, None, 0)

  datatype Block = Block(start: int, end: int, actualEnd: Option<int>, active: bool, gap: bool, totals: Totals,
                         models: seq<string>, limitReset: Option<int>, agent: Option<AgentKind>)

  /** The remainder as Rust's `%` has it: the sign of the dividend. */
  function TruncatedRem(a: int, b: int): int
    requires b > 0
  {
    if a >= 0 then a % b else -((-a) % b)
  }

  function FloorToHour(time: int): int {
    time - TruncatedRem(time, HOUR_MS)
  }

  /** The result is always a whole hour less than an hour away, but it rounds toward zero:
      it is a floor exactly for times that are not negative or are whole hours already. */
  lemma FloorIffNotNegative(time: int)
    ensures FloorToHour(time) % 3_600_000 == 0 && -3_600_000 < time - FloorToHour(time) < 3_600_000
    ensures FloorToHour(time) <= time <==> time >= 0 || time % 3_600_000 == 0
  {
  }

  predicate FloorsDown(time: int) {
    time >= 0 || time % HOUR_MS == 0
  }

  predicate AllFloorDown(s: seq<Event>) {
    forall e | e in s :: FloorsDown(e.timestamp)
  }

  // ---- specification ----

  function TotalsIn(u: Usage): Totals {
    Totals(u.input, u.output, u.total, u.cachedInput, u.cacheCreation, u.cacheRead, u.cost, u.estimatedCost, u.count)
  }

  function PlusTotals(a: Totals, b: Totals): Totals {
    Totals(a.input + b.input, a.output + b.output, a.total + b.total, a.cachedInput + b.cachedInput,
           a.cacheCreation + b.cacheCreation, a.cacheRead + b.cacheRead, MergeCost(a.cost, b.cost),
           MergeCost(a.estimatedCost, b.estimatedCost), a.count + b.count)
  }

  /** The reset time of the last event that has one. */
  function LastReset(s: seq<Event>): Option<int> {
    if s == [] then None
    else if s[|s| - 1].limitReset.Some? then s[|s| - 1].limitReset
    else LastReset(s[..|s| - 1])
  }

  function BlockOf(s: seq<Event>, now: int, duration: int): Block
    requires s != []
  {
    var start := FloorToHour(s[0].timestamp);
    var last := s[|s| - 1].timestamp;
    Block(start, start + duration, Some(last), now - last < duration && now < start + duration, false,
          TotalsIn(UsageOf(s)), FirstAppearances(ModelNames(s)), LastReset(s), Some(s[0].agent))
  }

  function CreateGap(last: int, next: int, duration: int): Option<Block> {
    if next - last <= duration then None
    else Some(Block(last + duration, next, None, false, true, NO_TOTALS, [], None, None))
  }

  function GapBlocks(last: int, next: int, duration: int): seq<Block> {
    var gap := CreateGap(last, next, duration);
    if gap.Some? then [gap.value] else []
  }

  /** The block that starts at the head of `s` ends before event `n`. */
  predicate Cuts(s: seq<Event>, duration: int, n: nat)
    requires 1 <= n < |s|
  {
    || s[n].timestamp - FloorToHour(s[0].timestamp) > duration
    || s[n].timestamp - s[n - 1].timestamp > duration
  }

  function FirstCut(s: seq<Event>, duration: int, from: nat): (n: nat)
    requires 1 <= from <= |s|
    ensures from <= n <= |s|
    ensures forall k | from <= k < n :: !Cuts(s, duration, k)
    ensures n < |s| ==> Cuts(s, duration, n)
    decreases |s| - from
  {
    if from < |s| && !Cuts(s, duration, from) then FirstCut(s, duration, from + 1) else from
  }

  /** The events of each block. */
  function Groups(s: seq<Event>, duration: int): seq<seq<Event>> {
    if s == [] then []
    else
      var n := FirstCut(s, duration, 1);
      [s[..n]] + Groups(s[n..], duration)
  }

  /** The blocks of events in order of time: one for each group, and one for each pause. */
  function Blocks(s: seq<Event>, duration: int, now: int): seq<Block> {
    if s == [] then []
    else
      var n := FirstCut(s, duration, 1);
      [BlockOf(s[..n], now, duration)]
      + (if n < |s| then GapBlocks(s[n - 1].timestamp, s[n].timestamp, duration) else [])
      + Blocks(s[n..], duration, now)
  }

  // ---- the code ----

  method CreateBlock(start: int, entries: seq<Event>, now: int, duration: int) returns (block: Block)
    requires entries != [] && start == FloorToHour(entries[0].timestamp)
    ensures block == BlockOf(entries, now, duration)
  {
    hide FloorToHour;
    var end := start + duration;
    var actualEnd := entries[|entries| - 1].timestamp;
    var active := now - actualEnd < duration && now < end;
    var totals := NO_TOTALS;
    var models := [];
    var limitReset := None;
    for i := 0 to |entries|
      invariant totals == TotalsIn(UsageOf(entries[..i]))
      invariant models == FirstAppearances(ModelNames(entries[..i]))
      invariant limitReset == LastReset(entries[..i])
    {
      var e := entries[i];
      assert entries[..i + 1][..i] == entries[..i];
      assert (ModelNames(entries[..i]) + [NameOf(e.model)])[..|ModelNames(entries[..i])|] == ModelNames(entries[..i]);
      totals := Totals(totals.input + e.input, totals.output + e.output, totals.total + e.total,
                       totals.cachedInput + e.cachedInput, totals.cacheCreation + e.cacheCreation,
                       totals.cacheRead + e.cacheRead, MergeCost(totals.cost, e.cost),
                       MergeCost(totals.estimatedCost, e.estimatedCost), totals.count + 1);
      if e.model.Some? && e.model.value != "" && e.model.value !in models {
        models := models + [e.model.value];
      }
      if e.limitReset.Some? {
        limitReset := e.limitReset;
      }
    }
    assert entries[..|entries|] == entries;
    return Block(start, end, Some(actualEnd), active, false, totals, models, limitReset, Some(entries[0].agent));
  }

  lemma {:induction false} FirstCutFrom(s: seq<Event>, duration: int, a: nat, b: nat)
    requires 1 <= a <= b <= |s| && forall k | a <= k < b :: !Cuts(s, duration, k)
    ensures FirstCut(s, duration, a) == FirstCut(s, duration, b)
    decreases b - a
  {
    if a < b {
      FirstCutFrom(s, duration, a + 1, b);
    }
  }

  /** What the sweep has done after `i` events: the blocks of everything before the open
      group, which is `s[j..i]`. */
  ghost predicate Swept(s: seq<Event>, duration: int, now: int, i: int, j: int, blocks: seq<Block>) {
    && 0 <= j < i <= |s|
    && blocks + Blocks(s[j..], duration, now) == Blocks(s, duration, now)
    && forall k | 1 <= k < i - j :: !Cuts(s[j..], duration, k)
  }

  lemma FirstCutHere(s: seq<Event>, duration: int, n: nat)
    requires 1 <= n < |s| && Cuts(s, duration, n)
    ensures FirstCut(s, duration, n) == n
  {
  }

  lemma BlocksAtCut(s: seq<Event>, duration: int, now: int, n: nat)
    requires 1 <= n < |s| && FirstCut(s, duration, 1) == n
    ensures Blocks(s, duration, now)
            == [BlockOf(s[..n], now, duration)] + GapBlocks(s[n - 1].timestamp, s[n].timestamp, duration)
               + Blocks(s[n..], duration, now)
  {
    hide FirstCut, BlockOf, GapBlocks;
  }

  lemma Reassociate(a: seq<Block>, b: seq<Block>, c: seq<Block>, d: seq<Block>)
    ensures a + (b + c + d) == (a + b + c) + d
  {
  }

  /** The open group is closed before event `i`. */
  lemma CloseGroup(s: seq<Event>, duration: int, now: int, i: int, j: int, blocks: seq<Block>)
    requires Swept(s, duration, now, i, j, blocks) && i < |s| && Cuts(s[j..], duration, i - j)
    ensures Swept(s, duration, now, i + 1, i,
                  blocks + [BlockOf(s[j..i], now, duration)]
                  + GapBlocks(s[i - 1].timestamp, s[i].timestamp, duration))
  {
    hide Blocks, BlockOf, GapBlocks, Cuts, FirstCut;
    var t := s[j..];
    FirstCutFrom(t, duration, 1, i - j);
    FirstCutHere(t, duration, i - j);
    BlocksAtCut(t, duration, now, i - j);
    assert t[..i - j] == s[j..i] && t[i - j..] == s[i..];
    Reassociate(blocks, [BlockOf(s[j..i], now, duration)], GapBlocks(s[i - 1].timestamp, s[i].timestamp, duration),
                Blocks(s[i..], duration, now));
  }

  lemma CloseLastGroup(s: seq<Event>, duration: int, now: int, j: int, blocks: seq<Block>)
    requires Swept(s, duration, now, |s|, j, blocks)
    ensures blocks + [BlockOf(s[j..], now, duration)] == Blocks(s, duration, now)
  {
    hide FloorToHour, BlockOf, GapBlocks, Cuts;
    var t := s[j..];
    FirstCutFrom(t, duration, 1, |t|);
    assert t[..|t|] == t && t[|t|..] == [];
    assert Blocks(t, duration, now) == [BlockOf(t, now, duration)];
  }

  method IdentifySessionBlocks(events: seq<Event>, sessionDurationHours: int, now: int) returns (blocks: seq<Block>)
    ensures blocks == Blocks(SortByTime(events), sessionDurationHours * HOUR_MS, now)
  {
    hide SortByTime, FloorToHour, BlockOf, Swept, Blocks;
    if events == [] {
      EmptySort();
      return [];
    }
    var duration := sessionDurationHours * 60 * 60 * 1000;
    var sorted := SortByTime(events);
    blocks := [];
    var blockStart: Option<int> := None;
    var entries: seq<Event> := [];
    ghost var j := 0;
    for i := 0 to |sorted|
      invariant blockStart.None? ==> i == 0 && blocks == []
      invariant blockStart.Some? ==> 0 <= j < i && Swept(sorted, duration, now, i, j, blocks)
      invariant blockStart.Some? ==> entries == sorted[j..i] && blockStart == Some(FloorToHour(sorted[j].timestamp))
    {
      var entry := sorted[i];
      if blockStart.None? {
        blockStart := Some(FloorToHour(entry.timestamp));
        entries := [entry];
        OpenFirst(sorted, duration, now);
        j := 0;
      } else {
        var start := blockStart.value;
        var sinceStart := entry.timestamp - start;
        var last := entries[|entries| - 1];
        var sinceLast := entry.timestamp - last.timestamp;
        if sinceStart > duration || sinceLast > duration {
          CloseGroup(sorted, duration, now, i, j, blocks);
          ghost var closed := blocks + [BlockOf(sorted[j..i], now, duration)];
          var block := CreateBlock(start, entries, now, duration);
          blocks := blocks + [block];
          if sinceLast > duration {
            var gap := CreateGap(last.timestamp, entry.timestamp, duration);
            if gap.Some? {
              blocks := blocks + [gap.value];
            }
          }
          blockStart := Some(FloorToHour(entry.timestamp));
          entries := [entry];
          j := i;
          assert blocks == closed + GapBlocks(last.timestamp, entry.timestamp, duration);
          assert entries == sorted[j..i + 1];
        } else {
          GrowGroup(sorted, duration, now, i, j, blocks);
          entries := entries + [entry];
        }
      }
    }
    SortedSize(events);
    CloseLastGroup(sorted, duration, now, j, blocks);
    assert sorted[j..|sorted|] == sorted[j..];
    var block := CreateBlock(blockStart.value, entries, now, duration);
    blocks := blocks + [block];
  }

  lemma EmptySort()
    ensures SortByTime([]) == []
    ensures forall duration, now :: Blocks([], duration, now) == []
  {
  }

  lemma SortedSize(events: seq<Event>)
    ensures |SortByTime(events)| == |events|
  {
    SortIsSorted(events);
    assert |multiset(SortByTime(events))| == |multiset(events)|;
  }

  lemma OpenFirst(s: seq<Event>, duration: int, now: int)
    requires s != []
    ensures Swept(s, duration, now, 1, 0, [])
  {
    assert s[0..] == s;
  }

  lemma GrowGroup(s: seq<Event>, duration: int, now: int, i: int, j: int, blocks: seq<Block>)
    requires Swept(s, duration, now, i, j, blocks) && i < |s| && !Cuts(s[j..], duration, i - j)
    ensures Swept(s, duration, now, i + 1, j, blocks)
  {
  }
}
