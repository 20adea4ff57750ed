/** What each block says, field by field, in terms of the events in it. */
module BlockFields {
  import opened Options
  import opened TimeUnits
  import opened UsageEvents
  import opened EventOrder
  import opened BillingBlocks
  import opened BlockGuarantees
  import opened RollupRows

  /** The reset time of the last event that has one. */
  ghost predicate IsLastReset(reset: Option<int>, group: seq<Event>) {
    if reset.None? then forall e | e in group :: e.limitReset.None?
    else
      exists i :: 0 <= i < |group| && group[i].limitReset == reset
                  && forall j | i < j < |group| :: group[j].limitReset.None?
  }

  predicate TotalsSay(t: Totals, group: seq<Event>) {
    && t.input == SumOf(group, (e: Event) => e.input)
    && t.output == SumOf(group, (e: Event) => e.output)
    && t.total == SumOf(group, (e: Event) => e.total)
    && t.cachedInput == SumOf(group, (e: Event) => e.cachedInput)
    && t.cacheCreation == SumOf(group, (e: Event) => e.cacheCreation)
    && t.cacheRead == SumOf(group, (e: Event) => e.cacheRead)
    && IsCost(t.cost, group)
    && (t.estimatedCost.None? <==> forall e | e in group :: e.estimatedCost.None?)
    && Amount(t.estimatedCost) == TotalAmount(group, (e: Event) => e.estimatedCost)
    && t.count == |group|
  }

  /** The whole hour a time is rounded to: down from 1970 on, up before. */
  predicate IsHourOf(start: int, time: int) {
    && start % 3_600_000 == 0
    && if time >= 0 then start <= time < start + 3_600_000 else start - 3_600_000 < time <= start
  }

  ghost predicate BlockSays(b: Block, group: seq<Event>, hours: int, now: int) {
    && group != [] && !b.gap
    && IsHourOf(b.start, group[0].timestamp)
    && b.end == b.start + hours * 3_600_000
    && b.actualEnd == Some(group[|group| - 1].timestamp)
    && (b.active <==> now - group[|group| - 1].timestamp < hours * 3_600_000 && now < b.end)
    && TotalsSay(b.totals, group)
    && (forall x :: x in b.models <==> x != "" && exists e :: e in group && e.model == Some(x))
    && NoRepeats(b.models)
    && IsLastReset(b.limitReset, group)
    && b.agent == Some(group[0].agent)
  }

  lemma {:induction false} LastResetIs(group: seq<Event>)
    ensures IsLastReset(LastReset(group), group)
  {
    if group != [] {
      var n := |group| - 1;
      var before := group[..n];
      assert group == before + [group[n]];
      if group[n].limitReset.None? {
        LastResetIs(before);
        if LastReset(before).Some? {
          var i :| 0 <= i < n && before[i].limitReset == LastReset(before)
                   && forall j | i < j < n :: before[j].limitReset.None?;
          assert group[i].limitReset == LastReset(group);
          assert forall j | i < j < n :: group[j] == before[j];
        }
      } else {
        assert group[n].limitReset == LastReset(group);
      }
    }
  }

  lemma TotalsAre(group: seq<Event>)
    ensures TotalsSay(TotalsIn(UsageOf(group)), group)
  {
    TokenSums(group);
    CountAndCosts(group);
    hide UsageOf, SumOf, TotalAmount;
  }

  lemma HourIs(time: int)
    ensures IsHourOf(FloorToHour(time), time)
  {
  }

  lemma GroupSays(group: seq<Event>, hours: int, now: int)
    requires group != []
    ensures BlockSays(BlockOf(group, now, hours * HOUR_MS), group, hours, now)
  {
    TotalsAre(group);
    ModelsListed(group);
    LastResetIs(group);
    HourIs(group[0].timestamp);
    hide FloorToHour, UsageOf, LastReset, FirstAppearances, ModelNames, IsHourOf, IsLastReset, TotalsSay;
  }

  /** An event belongs to the block before it if and only if it is no further than the
      duration from that block's start and from the event before. */
  predicate Belongs(b: Block, last: Event, e: Event, hours: int) {
    && e.timestamp - b.start <= hours * 3_600_000
    && e.timestamp - last.timestamp <= hours * 3_600_000
  }

  predicate AllBelong(b: Block, group: seq<Event>, hours: int) {
    forall k | 1 <= k < |group| :: Belongs(b, group[k - 1], group[k], hours)
  }

  predicate EndsBefore(b: Block, group: seq<Event>, next: seq<Event>, hours: int) {
    group != [] && next != [] && !Belongs(b, group[|group| - 1], next[0], hours)
  }

  lemma UncutBelongs(b: Block, group: seq<Event>, hours: int)
    requires group != [] && b.start == FloorToHour(group[0].timestamp) && Uncut(group, hours * HOUR_MS)
    ensures AllBelong(b, group, hours)
  {
    hide FloorToHour;
    forall k | 1 <= k < |group|
      ensures Belongs(b, group[k - 1], group[k], hours)
    {
      assert !Cuts(group, hours * HOUR_MS, k);
    }
  }

  /** The real blocks say what their events say, and each goes on exactly as long as the next
      event belongs to it. */
  lemma BlocksSay(events: seq<Event>, hours: int, now: int)
    ensures var groups, kept := SessionGroups(events, hours), RealBlocks(SessionBlocks(events, hours, now));
            && |kept| == |groups|
            && (forall n | 0 <= n < |groups| :: BlockSays(kept[n], groups[n], hours, now))
            && (forall n | 0 <= n < |groups| :: AllBelong(kept[n], groups[n], hours))
            && (forall n | 0 < n < |groups| :: EndsBefore(kept[n - 1], groups[n - 1], groups[n], hours))
  {
    hide SortByTime, FirstCut, Blocks, RealBlocks, BlockOf, FloorToHour, BlockSays, Flatten;
    var groups: seq<seq<Event>>, kept := SessionGroups(events, hours), RealBlocks(SessionBlocks(events, hours, now));
    SortIsSorted(events);
    BlocksPartitionEvents(events, hours, now);
    GroupsAreUncut(SortByTime(events), hours * HOUR_MS);
    GroupsAreCut(SortByTime(events), hours * HOUR_MS);
    hide CutApart, EndsBefore, AllBelong, Uncut;
    forall n | 0 <= n < |groups|
      ensures groups[n] != [] && BlockSays(kept[n], groups[n], hours, now)
      ensures kept[n].start == FloorToHour(groups[n][0].timestamp)
    {
      GroupSays(groups[n], hours, now);
      StartOf(groups[n], now, hours * HOUR_MS);
    }
    forall n | 0 <= n < |groups|
      ensures AllBelong(kept[n], groups[n], hours)
    {
      assert groups[n] in groups;
      UncutBelongs(kept[n], groups[n], hours);
    }
    forall n | 0 < n < |groups|
      ensures EndsBefore(kept[n - 1], groups[n - 1], groups[n], hours)
    {
      assert CutApart(groups[n - 1], groups[n], hours * HOUR_MS);
      CutEnds(kept[n - 1], groups[n - 1], groups[n], hours);
    }
  }

  lemma CutEnds(b: Block, group: seq<Event>, next: seq<Event>, hours: int)
    requires CutApart(group, next, hours * HOUR_MS) && b.start == FloorToHour(group[0].timestamp)
    ensures EndsBefore(b, group, next, hours)
  {
    hide FloorToHour;
  }

  lemma StartOf(group: seq<Event>, now: int, duration: int)
    requires group != []
    ensures BlockOf(group, now, duration).start == FloorToHour(group[0].timestamp)
  {
  }

  predicate CutApart(a: seq<Event>, b: seq<Event>, duration: int) {
    && a != [] && b != []
    && (b[0].timestamp - FloorToHour(a[0].timestamp) > duration
        || b[0].timestamp - a[|a| - 1].timestamp > duration)
  }

  lemma {:induction false} GroupsAreCut(s: seq<Event>, duration: int)
    ensures var groups := Groups(s, duration);
            && (s != [] ==> groups != [] && groups[0] != [] && groups[0][0] == s[0])
            && forall n | 0 < n < |groups| :: CutApart(groups[n - 1], groups[n], duration)
    decreases |s|
  {
    hide FloorToHour;
    if s != [] {
      var n := FirstCut(s, duration, 1);
      var groups: seq<seq<Event>>, rest: seq<seq<Event>> := Groups(s, duration), Groups(s[n..], duration);
      GroupsAreCut(s[n..], duration);
      assert groups == [s[..n]] + rest && groups[0][0] == s[0];
      if n < |s| {
        assert Cuts(s, duration, n) && rest[0][0] == s[n];
        assert CutApart(groups[0], groups[1], duration);
      } else {
        assert s[n..] == [];
      }
      hide FirstCut, CutApart, Groups;
      forall k | 0 < k < |groups|
        ensures CutApart(groups[k - 1], groups[k], duration)
      {
        if k > 1 {
          assert groups[k - 1] == rest[k - 2] && groups[k] == rest[k - 1];
        }
      }
    }
  }

  // ---- the block in use ----

  lemma {:induction false} LastBlockIs(s: seq<Event>, duration: int, now: int)
    requires s != []
    ensures var blocks := Blocks(s, duration, now);
            && blocks != []
            && var b := blocks[|blocks| - 1];
               && !b.gap && b.end == b.start + duration
               && (b.active <==> now - s[|s| - 1].timestamp < duration && now < b.end)
    decreases |s|
  {
    hide FirstCut, FloorToHour, UsageOf, Blocks;
    var n := FirstCut(s, duration, 1);
    BlocksFromHead(s, duration, now);
    if n < |s| {
      LastBlockIs(s[n..], duration, now);
    } else {
      CutAtEnd(s, duration, now);
      assert s[..n] == s;
    }
  }

  /** When no event lies in the future, a block is active if and only if it is the last one,
      it has not ended, and the latest event is less than the duration ago. */
  lemma ActiveIff(events: seq<Event>, hours: int, now: int)
    requires forall e | e in events :: e.timestamp <= now
    ensures var blocks := SessionBlocks(events, hours, now);
            && (events != [] ==> blocks != [])
            && forall k | 0 <= k < |blocks| ::
                 (blocks[k].active
                  <==> k == |blocks| - 1 && now < blocks[k].end
                       && exists e :: e in events && now - e.timestamp < hours * 3_600_000)
    ensures var blocks := SessionBlocks(events, hours, now);
            forall k | 0 <= k < |blocks| && blocks[k].active :: !blocks[k].gap
  {
    hide SortByTime, Blocks;
    var s := SortByTime(events);
    SortKeeps(events);
    SortedSize(events);
    OnlyTheLastIsActive(events, hours, now);
    if s == [] {
      NoBlocks(hours * HOUR_MS, now);
    } else {
      LastBlockIs(s, hours * HOUR_MS, now);
      assert s[|s| - 1] in s;
      forall e | e in events
        ensures e.timestamp <= s[|s| - 1].timestamp
      {
        var k :| 0 <= k < |s| && s[k] == e;
      }
    }
  }

  // ---- gaps ----

  /** The gap between two events: from one duration after the first to the second, and empty. */
  predicate IsGapBetween(b: Block, e: Event, f: Event, hours: int) {
    && f.timestamp - e.timestamp > hours * 3_600_000
    && b == Block(e.timestamp + hours * 3_600_000, f.timestamp, None, false, true,
                  Totals(0, 0, 0, 0, 0, 0, None, None, 0), [], None, None)
  }

  lemma {:induction false} PausesAre(s: seq<Event>, hours: int)
    ensures forall b: Block :: b in Pauses(s, hours * HOUR_MS)
                        <==> exists n: int :: 0 <= n < |s| - 1 && IsGapBetween(b, s[n], s[n + 1], hours)
  {
    if |s| >= 2 {
      PausesAre(s[1..], hours);
      hide Pauses, IsGapBetween;
      forall b: Block
        ensures b in Pauses(s, hours * HOUR_MS)
                <==> exists n: int :: 0 <= n < |s| - 1 && IsGapBetween(b, s[n], s[n + 1], hours)
      {
        FirstPause(s, b, hours);
        if n :| 0 <= n < |s| - 1 && IsGapBetween(b, s[n], s[n + 1], hours) {
          if n > 0 {
            assert s[1..][n - 1] == s[n] && s[1..][n] == s[n + 1];
          }
        }
        if b in Pauses(s[1..], hours * HOUR_MS) {
          var n :| 0 <= n < |s[1..]| - 1 && IsGapBetween(b, s[1..][n], s[1..][n + 1], hours);
          assert IsGapBetween(b, s[n + 1], s[n + 2], hours);
        }
      }
    }
  }

  lemma FirstPause(s: seq<Event>, b: Block, hours: int)
    requires |s| >= 2
    ensures b in Pauses(s, hours * HOUR_MS)
            <==> IsGapBetween(b, s[0], s[1], hours) || b in Pauses(s[1..], hours * HOUR_MS)
  {
  }

  /** There is a gap block between two neighbouring events exactly if they are more than the
      duration apart. */
  lemma GapsSay(events: seq<Event>, hours: int, now: int)
    ensures var s := SortByTime(events);
            forall b: Block :: b in GapsOf(SessionBlocks(events, hours, now))
                        <==> exists n: int :: 0 <= n < |s| - 1 && IsGapBetween(b, s[n], s[n + 1], hours)
  {
    hide SortByTime, Blocks, GapsOf, Pauses, IsGapBetween;
    GapsAreThePauses(events, hours, now);
    PausesAre(SortByTime(events), hours);
  }
}
