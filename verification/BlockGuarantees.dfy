/** What the blocks of a list of events satisfy. Durations are whole hours, as the code has
    them. Where a property depends on times that floor down the exact condition is given;
    where it needs a duration of an hour at least, or none that is negative, it says so. */
module BlockGuarantees {
  import opened TimeUnits
  import opened UsageEvents
  import opened EventOrder
  import opened BillingBlocks

  /** What `IdentifySessionBlocks` returns. */
  function SessionBlocks(events: seq<Event>, hours: int, now: int): seq<Block> {
    Blocks(SortByTime(events), hours * HOUR_MS, now)
  }

  function SessionGroups(events: seq<Event>, hours: int): seq<seq<Event>> {
    Groups(SortByTime(events), hours * HOUR_MS)
  }

  function Flatten(groups: seq<seq<Event>>): seq<Event> {
    if groups == [] then [] else groups[0] + Flatten(groups[1..])
  }

  function RealBlocks(blocks: seq<Block>): seq<Block> {
    if blocks == [] then []
    else (if blocks[0].gap then [] else [blocks[0]]) + RealBlocks(blocks[1..])
  }

  function GapsOf(blocks: seq<Block>): seq<Block> {
    if blocks == [] then []
    else (if blocks[0].gap then [blocks[0]] else []) + GapsOf(blocks[1..])
  }

  function SumTotals(blocks: seq<Block>): Totals {
    if blocks == [] then NO_TOTALS else PlusTotals(blocks[0].totals, SumTotals(blocks[1..]))
  }

  /** What comes before the blocks of `s[n..]`, for the first cut `n`. */
  function Head(s: seq<Event>, duration: int, now: int): (h: seq<Block>)
    requires s != []
    ensures 1 <= |h| <= 2 && !h[0].gap && h[0].start == FloorToHour(s[0].timestamp) && h[0].end == h[0].start + duration
    ensures |h| == 2 ==> h[1].gap
  {
    var n := FirstCut(s, duration, 1);
    [BlockOf(s[..n], now, duration)]
    + if n < |s| then GapBlocks(s[n - 1].timestamp, s[n].timestamp, duration) else []
  }

  lemma BlocksFromHead(s: seq<Event>, duration: int, now: int)
    requires s != []
    ensures Blocks(s, duration, now) == Head(s, duration, now) + Blocks(s[FirstCut(s, duration, 1)..], duration, now)
  {
    hide BlockOf, GapBlocks, FirstCut;
  }

  // ---- partition ----

  lemma {:induction false} FlattenGroups(s: seq<Event>, duration: int)
    ensures Flatten(Groups(s, duration)) == s
    ensures forall g: seq<Event> | g in Groups(s, duration) :: g != []
    decreases |s|
  {
    if s != [] {
      var n := FirstCut(s, duration, 1);
      FlattenGroups(s[n..], duration);
      assert Groups(s, duration)[1..] == Groups(s[n..], duration);
      assert s == s[..n] + s[n..];
    }
  }

  lemma {:induction false} RealBlocksOf(s: seq<Event>, duration: int, now: int)
    ensures var groups, kept := Groups(s, duration), RealBlocks(Blocks(s, duration, now));
            && |kept| == |groups|
            && forall k | 0 <= k < |groups| :: groups[k] != [] && kept[k] == BlockOf(groups[k], now, duration)
    decreases |s|
  {
    hide FirstCut, Head, BlockOf, GapBlocks, RealBlocks;
    if s == [] {
      NoRealBlocks();
    } else {
      var n := FirstCut(s, duration, 1);
      var h, rest := Head(s, duration, now), Blocks(s[n..], duration, now);
      RealBlocksOf(s[n..], duration, now);
      BlocksFromHead(s, duration, now);
      RealConcat(h, rest);
      RealHead(s, duration, now);
      hide Blocks;
      var groups, kept := Groups(s, duration), RealBlocks(Blocks(s, duration, now));
      assert groups == [s[..n]] + Groups(s[n..], duration);
      assert kept == [BlockOf(s[..n], now, duration)] + RealBlocks(rest);
    }
  }

  lemma NoRealBlocks()
    ensures RealBlocks([]) == []
  {
  }

  lemma RealHead(s: seq<Event>, duration: int, now: int)
    requires s != []
    ensures RealBlocks(Head(s, duration, now)) == [BlockOf(s[..FirstCut(s, duration, 1)], now, duration)]
  {
    hide FirstCut, BlockOf, GapBlocks;
    var h := Head(s, duration, now);
    assert |h| == 2 ==> h[1..][1..] == [];
    assert RealBlocks(h[1..]) == [];
  }

  lemma {:induction false} RealConcat(a: seq<Block>, b: seq<Block>)
    ensures RealBlocks(a + b) == RealBlocks(a) + RealBlocks(b)
    ensures GapsOf(a + b) == GapsOf(a) + GapsOf(b)
  {
    if a == [] {
      assert a + b == b;
    } else {
      var rest := a[1..] + b;
      assert a + b != [] && (a + b)[0] == a[0] && (a + b)[1..] == rest;
      RealConcat(a[1..], b);
      var r, g := if a[0].gap then [] else [a[0]], if a[0].gap then [a[0]] else [];
      assert r + (RealBlocks(a[1..]) + RealBlocks(b)) == r + RealBlocks(a[1..]) + RealBlocks(b);
      assert g + (GapsOf(a[1..]) + GapsOf(b)) == g + GapsOf(a[1..]) + GapsOf(b);
    }
  }

  /** The blocks that are not gaps are the groups, one for one, and the groups one after the
      other are the events in order of time: no event is lost, repeated or moved. */
  lemma BlocksPartitionEvents(events: seq<Event>, hours: int, now: int)
    ensures var groups, kept := SessionGroups(events, hours), RealBlocks(SessionBlocks(events, hours, now));
            && Flatten(groups) == SortByTime(events)
            && |kept| == |groups|
            && forall k | 0 <= k < |groups| :: groups[k] != [] && kept[k] == BlockOf(groups[k], now, hours * HOUR_MS)
  {
    hide Groups, Blocks, BlockOf, RealBlocks;
    var s := SortByTime(events);
    FlattenGroups(s, hours * HOUR_MS);
    RealBlocksOf(s, hours * HOUR_MS, now);
  }

  // ---- conservation ----

  lemma TotalsInPlus(a: Usage, b: Usage)
    ensures TotalsIn(Plus(a, b)) == PlusTotals(TotalsIn(a), TotalsIn(b))
  {
  }

  lemma PlusTotalsLaws(a: Totals, b: Totals, c: Totals)
    ensures PlusTotals(PlusTotals(a, b), c) == PlusTotals(a, PlusTotals(b, c))
    ensures PlusTotals(NO_TOTALS, a) == a && PlusTotals(a, NO_TOTALS) == a
  {
  }

  lemma {:induction false} SumConcat(a: seq<Block>, b: seq<Block>)
    ensures SumTotals(a + b) == PlusTotals(SumTotals(a), SumTotals(b))
  {
    hide PlusTotals;
    if a == [] {
      assert a + b == b;
      PlusTotalsLaws(SumTotals(b), NO_TOTALS, NO_TOTALS);
    } else {
      assert (a + b)[1..] == a[1..] + b;
      SumConcat(a[1..], b);
      PlusTotalsLaws(a[0].totals, SumTotals(a[1..]), SumTotals(b));
    }
  }

  lemma SumOfHead(s: seq<Event>, duration: int, now: int)
    requires s != []
    ensures SumTotals(Head(s, duration, now)) == TotalsIn(UsageOf(s[..FirstCut(s, duration, 1)]))
  {
    hide PlusTotals, FirstCut, UsageOf, FloorToHour;
    var h := Head(s, duration, now);
    PlusTotalsLaws(h[0].totals, NO_TOTALS, NO_TOTALS);
    PlusTotalsLaws(NO_TOTALS, NO_TOTALS, NO_TOTALS);
    if |h| == 2 {
      assert h[1..][1..] == [] && h[1..][0] == h[1];
      assert SumTotals(h[1..]) == NO_TOTALS;
    } else {
      assert h[1..] == [];
    }
  }

  lemma {:induction false} SumOfBlocks(s: seq<Event>, duration: int, now: int)
    ensures SumTotals(Blocks(s, duration, now)) == TotalsIn(UsageOf(s))
    decreases |s|
  {
    hide PlusTotals, Plus, Head, FirstCut, UsageOf, BlockOf;
    if s == [] {
      EmptyUsage();
    } else {
      var n := FirstCut(s, duration, 1);
      BlocksFromHead(s, duration, now);
      SumOfBlocks(s[n..], duration, now);
      SumConcat(Head(s, duration, now), Blocks(s[n..], duration, now));
      SumOfHead(s, duration, now);
      UsageOfConcat(s[..n], s[n..]);
      assert s == s[..n] + s[n..];
      TotalsInPlus(UsageOf(s[..n]), UsageOf(s[n..]));
    }
  }

  lemma EmptyUsage()
    ensures UsageOf([]) == NO_USAGE
  {
  }

  /** Nothing is lost in the sums: over all blocks every token count, both costs and the
      number of events add up to those of the events, in whatever order these came. */
  lemma UsageConserved(events: seq<Event>, hours: int, now: int)
    ensures SumTotals(SessionBlocks(events, hours, now)) == TotalsIn(UsageOf(events))
  {
    hide Blocks, UsageOf, SumTotals, SortByTime;
    var s := SortByTime(events);
    SortIsSorted(events);
    SumOfBlocks(s, hours * HOUR_MS, now);
    UsageOfPermutation(s, events);
  }

  // ---- windows ----

  /** The entries of a block lie between its start and its end. */
  predicate InWindow(group: seq<Event>, duration: int)
    requires group != []
  {
    var start := FloorToHour(group[0].timestamp);
    forall e | e in group :: start <= e.timestamp <= start + duration
  }

  /** No event of a group but the first could have started a block of its own. */
  predicate Uncut(group: seq<Event>, duration: int) {
    forall k | 1 <= k < |group| :: !Cuts(group, duration, k)
  }

  lemma {:induction false} GroupsAreUncut(s: seq<Event>, duration: int)
    requires Sorted(s)
    ensures forall g: seq<Event> | g in Groups(s, duration) ::
              g != [] && Sorted(g) && Uncut(g, duration) && forall e | e in g :: e in s
    decreases |s|
  {
    if s != [] {
      var n := FirstCut(s, duration, 1);
      assert forall k | 1 <= k < n :: Cuts(s[..n], duration, k) == Cuts(s, duration, k);
      assert forall e | e in s[n..] :: e in s;
      GroupsAreUncut(s[n..], duration);
    }
  }

  /** A group fits its window exactly if its first event floors down. */
  lemma WindowIff(group: seq<Event>, duration: int)
    requires group != [] && Sorted(group) && Uncut(group, duration) && duration >= HOUR_MS
    ensures InWindow(group, duration) <==> FloorsDown(group[0].timestamp)
  {
    var first := group[0].timestamp;
    var start := FloorToHour(first);
    FloorIffNotNegative(first);
    hide FloorToHour;
    if FloorsDown(first) {
      forall e | e in group
        ensures start <= e.timestamp <= start + duration
      {
        var k :| 0 <= k < |group| && group[k] == e;
        if k > 0 {
          assert !Cuts(group, duration, k) && group[0].timestamp <= group[k].timestamp;
        }
      }
    } else {
      assert group[0] in group;
    }
  }

  /** Every entry lies within its block's window, for every block, exactly if the first
      entry of each block floors down. A block starts at a whole hour, at most an hour
      before its first entry. */
  lemma EntriesInWindow(events: seq<Event>, hours: int)
    requires hours >= 1
    ensures var groups := SessionGroups(events, hours);
            && (forall g: seq<Event> | g in groups :: g != [])
            && ((forall g: seq<Event> | g in groups :: InWindow(g, hours * HOUR_MS))
                <==> (forall g: seq<Event> | g in groups :: FloorsDown(g[0].timestamp)))
    ensures AllFloorDown(events) ==>
              forall g: seq<Event> | g in SessionGroups(events, hours) ::
                && g != [] && InWindow(g, hours * HOUR_MS)
                && var start := FloorToHour(g[0].timestamp);
                   start % HOUR_MS == 0 && start <= g[0].timestamp < start + HOUR_MS
  {
    var s, duration := SortByTime(events), hours * HOUR_MS;
    SortIsSorted(events);
    GroupsAreUncut(s, duration);
    hide SortByTime, Groups, InWindow, FloorToHour, FloorsDown, Uncut, Sorted;
    forall g: seq<Event> | g in Groups(s, duration)
      ensures InWindow(g, duration) <==> FloorsDown(g[0].timestamp)
      ensures g[0] in events
    {
      WindowIff(g, duration);
      assert g[0] in s;
      assert g[0] in multiset(s);
    }
    forall g: seq<Event> | g in Groups(s, duration)
      ensures var start := FloorToHour(g[0].timestamp);
              start % HOUR_MS == 0 && g[0].timestamp < start + HOUR_MS
              && (start <= g[0].timestamp <==> FloorsDown(g[0].timestamp))
    {
      FloorFacts(g[0].timestamp);
    }
  }

  lemma FloorFacts(time: int)
    ensures FloorToHour(time) % HOUR_MS == 0 && time < FloorToHour(time) + HOUR_MS
    ensures FloorToHour(time) <= time <==> FloorsDown(time)
  {
    FloorIffNotNegative(time);
  }

  /** The first half of the cut condition follows from the second. */
  predicate Implies(first: int, last: int, next: int, duration: int) {
    first <= last && next - last > duration ==> next - FloorToHour(first) > duration
  }

  /** For any later neighbours in the block it does so exactly when the block's first entry
      floors down. */
  lemma SinceLastImplied(first: int, duration: int)
    requires duration >= 0
    ensures (forall last, next :: Implies(first, last, next, duration)) <==> FloorsDown(first)
  {
    FloorFacts(first);
    if !FloorsDown(first) {
      assert !Implies(first, first, first + duration + 1, duration);
    }
  }

  // ---- pauses ----

  /** The pauses between neighbours, found without looking at blocks. */
  function Pauses(s: seq<Event>, duration: int): seq<Block> {
    if |s| < 2 then [] else GapBlocks(s[0].timestamp, s[1].timestamp, duration) + Pauses(s[1..], duration)
  }

  /** Up to the first cut there is no pause. */
  lemma {:induction false} PausesSkip(s: seq<Event>, duration: int, n: nat, k: nat)
    requires k < n <= |s| && forall i | 0 < i < n :: s[i].timestamp - s[i - 1].timestamp <= duration
    ensures Pauses(s, duration) == Pauses(s[k..], duration)
    decreases k
  {
    if k == 0 {
      assert s[0..] == s;
    } else {
      PausesSkip(s, duration, n, k - 1);
      var t := s[k - 1..];
      assert t[1..] == s[k..];
      assert s[k].timestamp - s[k - 1].timestamp <= duration;
      assert GapBlocks(t[0].timestamp, t[1].timestamp, duration) == [];
    }
  }

  lemma GapsOfHead(s: seq<Event>, duration: int, now: int)
    requires s != []
    ensures var n := FirstCut(s, duration, 1);
            GapsOf(Head(s, duration, now))
            == if n < |s| then GapBlocks(s[n - 1].timestamp, s[n].timestamp, duration) else []
  {
    hide FirstCut, BlockOf;
    var h := Head(s, duration, now);
    var n := FirstCut(s, duration, 1);
    var gaps := if n < |s| then GapBlocks(s[n - 1].timestamp, s[n].timestamp, duration) else [];
    assert h[1..] == gaps;
    assert gaps != [] ==> gaps[1..] == [] && gaps == [gaps[0]];
    assert GapsOf(gaps) == gaps;
  }

  lemma {:induction false} GapsAre(s: seq<Event>, duration: int, now: int)
    ensures GapsOf(Blocks(s, duration, now)) == Pauses(s, duration)
    decreases |s|
  {
    hide BlockOf, GapBlocks, Head;
    if s != [] {
      var n := FirstCut(s, duration, 1);
      BlocksFromHead(s, duration, now);
      RealConcat(Head(s, duration, now), Blocks(s[n..], duration, now));
      GapsOfHead(s, duration, now);
      GapsAre(s[n..], duration, now);
      forall i | 0 < i < n
        ensures s[i].timestamp - s[i - 1].timestamp <= duration
      {
        assert !Cuts(s, duration, i);
      }
      PausesSkip(s, duration, n, n - 1);
      if n < |s| {
        assert s[n - 1..][1..] == s[n..];
      } else {
        assert s[n..] == [];
      }
    }
  }

  /** The gap blocks are exactly the pauses: there is one between two neighbouring events if
      and only if they are more than the duration apart. It starts one duration after the
      first and ends at the second. */
  lemma GapsAreThePauses(events: seq<Event>, hours: int, now: int)
    ensures GapsOf(SessionBlocks(events, hours, now)) == Pauses(SortByTime(events), hours * HOUR_MS)
  {
    GapsAre(SortByTime(events), hours * HOUR_MS, now);
  }

  lemma {:induction false} NothingInPauses(s: seq<Event>, duration: int)
    requires Sorted(s) && duration >= 0
    ensures forall b, e | b in Pauses(s, duration) && e in s :: !(b.start < e.timestamp < b.end)
    ensures forall b | b in Pauses(s, duration) && s != [] :: s[0].timestamp <= b.start < b.end
  {
    if |s| >= 2 {
      NothingInPauses(s[1..], duration);
      assert s == [s[0]] + s[1..];
      forall b, e | b in Pauses(s, duration) && e in s
        ensures !(b.start < e.timestamp < b.end)
      {
        if b in GapBlocks(s[0].timestamp, s[1].timestamp, duration) {
          var i :| 0 <= i < |s| && s[i] == e;
        }
      }
    }
  }

  /** No event falls strictly inside a gap. */
  lemma GapsAreQuiet(events: seq<Event>, hours: int, now: int)
    requires hours >= 0
    ensures forall b, e | b in GapsOf(SessionBlocks(events, hours, now)) && e in events ::
              !(b.start < e.timestamp < b.end)
  {
    var s := SortByTime(events);
    SortIsSorted(events);
    NothingInPauses(s, hours * HOUR_MS);
    GapsAreThePauses(events, hours, now);
    hide SortByTime, Pauses, GapsOf, Blocks, Sorted;
    forall e | e in events
      ensures e in s
    {
      assert e in multiset(events);
    }
  }

  // ---- order ----

  /** A block ends before the next one starts; a gap reaches less than an hour into the
      block after it, because that block's start is moved down to a whole hour. */
  predicate Neighbours(a: Block, b: Block) {
    if a.gap then !b.gap && a.start < a.end && b.start <= a.end < b.start + HOUR_MS
    else a.end <= b.start
  }

  predicate InOrder(blocks: seq<Block>) {
    && (forall k | 0 < k < |blocks| :: Neighbours(blocks[k - 1], blocks[k]))
    && (forall i, j | 0 <= i < j < |blocks| && !blocks[i].gap && !blocks[j].gap :: blocks[i].end <= blocks[j].start)
    && (blocks != [] ==> !blocks[0].gap && !blocks[|blocks| - 1].gap)
  }

  /** If the pause between two groups is long enough for a gap block, the first group starts
      no later than its last event, and the first event of the second floors down. */
  predicate Fits(a: seq<Event>, b: seq<Event>, duration: int) {
    a != [] && b != [] && b[0].timestamp - a[|a| - 1].timestamp > duration ==>
      FloorToHour(a[0].timestamp) <= a[|a| - 1].timestamp && FloorsDown(b[0].timestamp)
  }

  predicate PausesFit(groups: seq<seq<Event>>, duration: int) {
    forall k | 0 < k < |groups| :: Fits(groups[k - 1], groups[k], duration)
  }

  /** A block that starts after a cut starts no earlier than the block before it ends, in any
      case if there is no pause, and if there is one, provided the first block starts no later
      than its last event. */
  lemma CutLeavesWindow(s: seq<Event>, hours: int, n: nat)
    requires 1 <= n < |s| && Cuts(s, hours * HOUR_MS, n)
    requires s[n].timestamp - s[n - 1].timestamp > hours * HOUR_MS ==> FloorToHour(s[0].timestamp) <= s[n - 1].timestamp
    ensures FloorToHour(s[0].timestamp) + hours * HOUR_MS <= FloorToHour(s[n].timestamp)
  {
    var start, next := FloorToHour(s[0].timestamp), FloorToHour(s[n].timestamp);
    FloorFacts(s[0].timestamp);
    FloorFacts(s[n].timestamp);
    hide FloorToHour;
    assert s[n].timestamp - start > hours * HOUR_MS;
    if next <= s[n].timestamp {
      WholeHours(start, next, hours, s[n].timestamp);
    }
  }

  lemma WholeHours(start: int, next: int, hours: int, time: int)
    requires start % HOUR_MS == 0 && next % HOUR_MS == 0 && next <= time < next + HOUR_MS
    requires time > start + hours * HOUR_MS
    ensures start + hours * HOUR_MS <= next
  {
    var a, b := start / HOUR_MS, next / HOUR_MS;
    assert start == a * HOUR_MS && next == b * HOUR_MS;
    assert (b + 1) * HOUR_MS > (a + hours) * HOUR_MS;
    assert b + 1 > a + hours;
  }

  /** What a group's block and gap look like next to the block after them. */
  lemma HeadFacts(s: seq<Event>, hours: int, now: int, next: Block)
    requires s != [] && var n := FirstCut(s, hours * HOUR_MS, 1);
             n < |s| ==> !next.gap && next.start == FloorToHour(s[n].timestamp)
    ensures var h, n := Head(s, hours * HOUR_MS, now), FirstCut(s, hours * HOUR_MS, 1);
            && (n == |s| ==> |h| == 1)
            && (n < |s| ==>
                  (Fits(s[..n], s[n..], hours * HOUR_MS)
                   <==> Neighbours(h[|h| - 1], next) && h[0].end <= next.start
                        && (|h| == 2 ==> Neighbours(h[0], h[1]))))
  {
    var duration := hours * HOUR_MS;
    var n := FirstCut(s, duration, 1);
    if n < |s| {
      FloorFacts(s[n].timestamp);
      var pause := s[n].timestamp - s[n - 1].timestamp > duration;
      assert s[..n][0] == s[0] && s[..n][n - 1] == s[n - 1] && s[n..][0] == s[n];
      if pause ==> FloorToHour(s[0].timestamp) <= s[n - 1].timestamp {
        CutLeavesWindow(s, hours, n);
      }
    }
    hide FloorToHour, Cuts, FloorsDown;
  }

  lemma Prepend(h: seq<Block>, rest: seq<Block>)
    requires 1 <= |h| <= 2 && !h[0].gap && (|h| == 2 ==> h[1].gap && Neighbours(h[0], h[1]))
    requires rest != [] && InOrder(rest) && h[0].end <= rest[0].start && Neighbours(h[|h| - 1], rest[0])
    requires forall b | b in rest :: !b.gap ==> b.start <= b.end
    ensures InOrder(h + rest)
  {
    var blocks := h + rest;
    forall k | 0 < k < |blocks|
      ensures Neighbours(blocks[k - 1], blocks[k])
    {
      if k > |h| {
        assert Neighbours(rest[k - |h| - 1], rest[k - |h|]);
      }
    }
    forall i, j | 0 <= i < j < |blocks| && !blocks[i].gap && !blocks[j].gap
      ensures blocks[i].end <= blocks[j].start
    {
      assert rest[0] in rest;
      assert j >= |h| && blocks[j] == rest[j - |h|];
      if i >= |h| {
        assert blocks[i] == rest[i - |h|];
      } else {
        assert blocks[i] == h[0];
        assert j > |h| ==> rest[0].end <= rest[j - |h|].start;
      }
    }
  }

  lemma {:induction false} BlocksHaveLength(s: seq<Event>, duration: int, now: int)
    ensures forall b | b in Blocks(s, duration, now) && !b.gap :: b.end == b.start + duration
    decreases |s|
  {
    hide FloorToHour, FirstCut, UsageOf;
    if s != [] {
      BlocksFromHead(s, duration, now);
      BlocksHaveLength(s[FirstCut(s, duration, 1)..], duration, now);
    }
  }

  lemma PrependGroup(group: seq<Event>, groups: seq<seq<Event>>, duration: int)
    ensures PausesFit([group] + groups, duration)
            <==> (groups != [] ==> Fits(group, groups[0], duration)) && PausesFit(groups, duration)
  {
    hide Fits;
    var all := [group] + groups;
    if PausesFit(all, duration) {
      assert groups != [] ==> Fits(all[0], all[1], duration);
      forall k | 0 < k < |groups|
        ensures Fits(groups[k - 1], groups[k], duration)
      {
        assert Fits(all[k], all[k + 1], duration);
      }
    }
  }

  /** The groups are told apart by their first events only. */
  lemma FitsFirst(a: seq<Event>, b: seq<Event>, c: seq<Event>, duration: int)
    requires b != [] && c != [] && b[0] == c[0]
    ensures Fits(a, b, duration) == Fits(a, c, duration)
  {
  }

  lemma Rest(h: seq<Block>, rest: seq<Block>)
    requires InOrder(h + rest) && h != [] && rest != [] && !rest[0].gap && !h[0].gap
    ensures InOrder(rest) && Neighbours(h[|h| - 1], rest[0]) && h[0].end <= rest[0].start
    ensures |h| == 2 ==> Neighbours(h[0], h[1])
  {
    hide Neighbours;
    var blocks := h + rest;
    assert Neighbours(blocks[|h| - 1], blocks[|h|]) && blocks[0].end <= blocks[|h|].start;
    assert |h| == 2 ==> Neighbours(blocks[0], blocks[1]);
    forall k | 0 < k < |rest|
      ensures Neighbours(rest[k - 1], rest[k])
    {
      assert Neighbours(blocks[|h| + k - 1], blocks[|h| + k]);
    }
    forall i, j | 0 <= i < j < |rest| && !rest[i].gap && !rest[j].gap
      ensures rest[i].end <= rest[j].start
    {
      assert blocks[|h| + i].end <= blocks[|h| + j].start;
    }
    assert blocks[|blocks| - 1] == rest[|rest| - 1];
  }

  lemma {:induction false} Chain(s: seq<Event>, hours: int, now: int)
    requires hours >= 1
    ensures var blocks := Blocks(s, hours * HOUR_MS, now);
            && (InOrder(blocks) <==> PausesFit(Groups(s, hours * HOUR_MS), hours * HOUR_MS))
            && (s != [] ==> blocks != [] && !blocks[0].gap && blocks[0].start == FloorToHour(s[0].timestamp))
    decreases |s|
  {
    hide FloorToHour, FirstCut, Head, UsageOf, InOrder, Fits, PausesFit, Neighbours;
    var duration := hours * HOUR_MS;
    if s == [] {
      EmptyOrder(duration);
    } else {
      var n := FirstCut(s, duration, 1);
      var h, rest, groups := Head(s, duration, now), Blocks(s[n..], duration, now), Groups(s[n..], duration);
      BlocksFromHead(s, duration, now);
      Chain(s[n..], hours, now);
      PrependGroup(s[..n], groups, duration);
      if n < |s| {
        HeadFacts(s, hours, now, rest[0]);
        FitsFirst(s[..n], groups[0], s[n..], duration);
        BlocksHaveLength(s[n..], duration, now);
        if InOrder(h + rest) {
          Rest(h, rest);
        } else if Fits(s[..n], s[n..], duration) && PausesFit(groups, duration) {
          Prepend(h, rest);
        }
      } else {
        assert s[n..] == [] && h + rest == h;
        EmptyOrder(duration);
        HeadFacts(s, hours, now, h[0]);
        OneInOrder(h);
      }
    }
  }

  lemma EmptyOrder(duration: int)
    ensures InOrder([]) && PausesFit([], duration)
  {
  }

  lemma OneInOrder(h: seq<Block>)
    requires |h| == 1 && !h[0].gap
    ensures InOrder(h)
  {
  }

  lemma SortKeeps(events: seq<Event>)
    ensures forall e :: e in SortByTime(events) <==> e in events
    ensures Sorted(SortByTime(events))
  {
    SortIsSorted(events);
    forall e
      ensures e in SortByTime(events) <==> e in events
    {
      assert e in multiset(SortByTime(events)) <==> e in multiset(events);
    }
  }

  /** The blocks are in order if and only if every pause fits: each ends at or before the
      start of the next, gap blocks stand only between two others, and only a gap overlaps, by
      less than an hour. So they are if all times floor down. */
  lemma BlocksAreInOrder(events: seq<Event>, hours: int, now: int)
    requires hours >= 1
    ensures InOrder(SessionBlocks(events, hours, now))
            <==> PausesFit(SessionGroups(events, hours), hours * HOUR_MS)
    ensures AllFloorDown(events) ==> InOrder(SessionBlocks(events, hours, now))
  {
    hide SortByTime, InOrder, Blocks, PausesFit, Groups;
    Chain(SortByTime(events), hours, now);
    if AllFloorDown(events) {
      FloorsFit(events, hours);
    }
  }

  lemma FloorsFit(events: seq<Event>, hours: int)
    requires hours >= 1 && AllFloorDown(events)
    ensures PausesFit(SessionGroups(events, hours), hours * HOUR_MS)
  {
    EntriesInWindow(events, hours);
    hide SortByTime, Groups, FloorsDown, FloorToHour;
    var groups := SessionGroups(events, hours);
    forall k | 0 < k < |groups|
      ensures Fits(groups[k - 1], groups[k], hours * HOUR_MS)
    {
      var g := groups[k - 1];
      assert g in groups && groups[k] in groups && g[|g| - 1] in g;
    }
  }

  /** Two events a day and a bit apart, the first just before 1970: the first block is rounded
      up past its only event, so it ends after the gap has begun. */
  lemma RoundingUpOverlaps(e: Event, f: Event, now: int)
    requires e.timestamp == -1 && f.timestamp == 24 * HOUR_MS
    ensures !InOrder(SessionBlocks([e, f], 5, now))
  {
    hide SortByTime, InOrder, Blocks;
    SortedAlready(e, f);
    BlocksAreInOrder([e, f], 5, now);
    var s, duration := [e, f], 5 * HOUR_MS;
    assert FirstCut(s, duration, 1) == 1 by {
      assert Cuts(s, duration, 1);
    }
    var groups := Groups(s, duration);
    assert s[..1] == [e] && s[1..] == [f];
    assert Groups([f], duration)[0] == [f];
    assert groups[0] == [e] && groups[1] == [f];
    assert FloorToHour(-1) == 0;
    assert !Fits(groups[0], groups[1], duration);
  }

  lemma SortedAlready(e: Event, f: Event)
    requires e.timestamp < f.timestamp
    ensures SortByTime([e, f]) == [e, f]
  {
    assert [e, f][..1] == [e] && [e][..0] == [];
    assert SortByTime([e]) == [e];
  }

  lemma HeadInactive(s: seq<Event>, duration: int, now: int)
    requires s != [] && FirstCut(s, duration, 1) < |s| && s[FirstCut(s, duration, 1)].timestamp <= now
    ensures forall b | b in Head(s, duration, now) :: !b.active
  {
    hide FloorToHour, UsageOf, LastReset, FirstAppearances, ModelNames;
  }

  lemma NoBlocks(duration: int, now: int)
    ensures Blocks([], duration, now) == []
  {
  }

  lemma {:induction false} OthersInactive(s: seq<Event>, duration: int, now: int)
    requires forall e | e in s :: e.timestamp <= now
    ensures var blocks := Blocks(s, duration, now);
            && (s != [] ==> blocks != [])
            && forall k | 0 <= k < |blocks| && blocks[k].active :: k == |blocks| - 1
    decreases |s|
  {
    hide Head, FirstCut, Blocks;
    if s == [] {
      NoBlocks(duration, now);
    } else {
      var n := FirstCut(s, duration, 1);
      var h, rest := Head(s, duration, now), Blocks(s[n..], duration, now);
      BlocksFromHead(s, duration, now);
      OthersInactive(s[n..], duration, now);
      if n < |s| {
        assert s[n] in s;
        HeadInactive(s, duration, now);
        assert forall k | 0 <= k < |h| :: h[k] in h;
      } else {
        CutAtEnd(s, duration, now);
      }
    }
  }

  lemma CutAtEnd(s: seq<Event>, duration: int, now: int)
    requires s != [] && FirstCut(s, duration, 1) == |s|
    ensures Blocks(s[|s|..], duration, now) == [] && |Head(s, duration, now)| == 1
  {
    hide FirstCut, BlockOf;
  }

  /** When no event lies in the future, at most one block is active, and it is the last; for
      any times and any duration. */
  lemma OnlyTheLastIsActive(events: seq<Event>, hours: int, now: int)
    requires forall e | e in events :: e.timestamp <= now
    ensures var blocks := SessionBlocks(events, hours, now);
            forall k | 0 <= k < |blocks| && blocks[k].active :: k == |blocks| - 1
  {
    hide SortByTime, BlockOf, GapBlocks, FirstCut;
    SortKeeps(events);
    OthersInactive(SortByTime(events), hours * HOUR_MS, now);
  }
}
