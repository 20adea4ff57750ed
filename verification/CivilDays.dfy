/** Local days under a fixed UTC offset. A date is its day number, counted from 1970-01-01;
    a time is in milliseconds since then, an offset in seconds. */
module CivilDays {
  import opened TimeUnits

  const DAY_S := 86_400
  const HOUR_S := 3_600

  /** Integer division as Rust has it: toward zero. */
  function TruncatedDiv(a: int, b: int): int
    requires b > 0
  {
    if a >= 0 then a / b else -((-a) / b)
  }

  /** The whole second a time is taken to be in. */
  function SecondOf(ts: int): int {
    TruncatedDiv(ts, 1000)
  }

  /** `local_date_for_timestamp_ms`, fixed offset. */
  function LocalDay(ts: int, offset: int): int {
    (SecondOf(ts) + offset) / DAY_S
  }

  /** `civil_date_to_utc_start_ms`, fixed offset. */
  function DayStart(day: int, offset: int): int {
    (day * DAY_S - offset) * 1000
  }

  function NextDay(day: int): int {
    day + 1
  }

  /** Midnight of the day under the offset, and of the day after. */
  predicate InDay(ts: int, day: int, offset: int) {
    day * 86_400_000 - offset * 1000 <= ts < (day + 1) * 86_400_000 - offset * 1000
  }

  function FloorSecond(ts: int): int {
    ts / 1000
  }

  lemma FloorSecondIs(ts: int)
    ensures FloorSecond(ts) * 1000 <= ts < FloorSecond(ts) * 1000 + 1000
    ensures SecondOf(ts) == if ts >= 0 || ts % 1000 == 0 then FloorSecond(ts) else FloorSecond(ts) + 1
  {
  }

  lemma DayOfSecond(second: int, day: int, offset: int)
    ensures (second + offset) / DAY_S == day <==> day * DAY_S - offset <= second < NextDay(day) * DAY_S - offset
  {
    var local := second + offset;
    assert local == local / DAY_S * DAY_S + local % DAY_S;
  }

  lemma InDayBySecond(ts: int, day: int, offset: int)
    ensures InDay(ts, day, offset) <==> (FloorSecond(ts) + offset) / DAY_S == day
  {
    FloorSecondIs(ts);
    DayOfSecond(FloorSecond(ts), day, offset);
    hide FloorSecond, NextDay;
    var a, b := day * DAY_S - offset, NextDay(day) * DAY_S - offset;
    assert DayStart(day, offset) == a * 1000 && DayStart(NextDay(day), offset) == b * 1000;
    assert a <= FloorSecond(ts) <==> a * 1000 <= ts;
    assert FloorSecond(ts) < b <==> ts < b * 1000;
  }

  /** The rounded second falls on another day than the time itself. */
  predicate RoundsPastMidnight(ts: int, offset: int) {
    ts < 0 && ts % 1000 != 0 && (SecondOf(ts) + offset) % DAY_S == 0
  }

  lemma DayStep(local: int)
    ensures (local + 1) / DAY_S == local / DAY_S + if (local + 1) % DAY_S == 0 then 1 else 0
  {
  }

  /** A time belongs to the local day that starts at or before it and ends after it: for
      every offset and every day number, exactly unless the time is before 1970, is no
      whole second, and is in the last second before a local midnight. */
  lemma LocalDayIsDayContaining(ts: int, offset: int)
    ensures (forall day :: LocalDay(ts, offset) == day <==> InDay(ts, day, offset))
            <==> !RoundsPastMidnight(ts, offset)
  {
    FloorSecondIs(ts);
    DayStep(FloorSecond(ts) + offset);
    forall day
      ensures InDay(ts, day, offset) <==> (FloorSecond(ts) + offset) / DAY_S == day
    {
      InDayBySecond(ts, day, offset);
    }
    hide InDay, SecondOf, FloorSecond;
    var own := LocalDay(ts, offset);
    assert InDay(ts, own, offset) <==> (FloorSecond(ts) + offset) / DAY_S == own;
  }

  /** The last millisecond of 1969 is given the date of the day after it. */
  lemma LastMillisecondOf1969()
    ensures LocalDay(-1, 0) == 0 && InDay(-1, -1, 0) && !InDay(-1, 0, 0)
  {
    LocalDayIsDayContaining(-1, 0);
  }

  // ---- day windows ----

  datatype DayBoundary = DayBoundary(date: int, start: int, end: int)

  predicate AreDailyBoundaries(boundaries: seq<DayBoundary>, fromDate: int, offset: int) {
    forall i | 0 <= i < |boundaries| ::
      boundaries[i] == DayBoundary(fromDate + i, (fromDate + i) * 86_400_000 - offset * 1000,
                                   (fromDate + i + 1) * 86_400_000 - offset * 1000)
  }

  method DailyBoundaries(fromDate: int, days: int, offset: int) returns (boundaries: seq<DayBoundary>)
    requires days >= 0
    ensures |boundaries| == days && AreDailyBoundaries(boundaries, fromDate, offset)
  {
    boundaries := [];
    var cursor := fromDate;
    for n := 0 to days
      invariant |boundaries| == n && cursor == fromDate + n && AreDailyBoundaries(boundaries, fromDate, offset)
    {
      var start := DayStart(cursor, offset);
      var next := NextDay(cursor);
      var end := DayStart(next, offset);
      boundaries := boundaries + [DayBoundary(cursor, start, end)];
      cursor := next;
    }
  }

  predicate Covers(b: DayBoundary, ts: int) {
    b.start <= ts < b.end
  }

  /** The windows tile their range: each is a day long and ends where the next one starts,
      so every time from the first start to the last end lies in exactly one of them. From
      1970 on that is the window of its local date. */
  lemma BoundariesTile(boundaries: seq<DayBoundary>, fromDate: int, offset: int, ts: int)
    requires boundaries != [] && AreDailyBoundaries(boundaries, fromDate, offset)
    requires boundaries[0].start <= ts < boundaries[|boundaries| - 1].end
    ensures forall i | 0 <= i < |boundaries| - 1 :: boundaries[i].end == boundaries[i + 1].start
    ensures exists i :: 0 <= i < |boundaries| && Covers(boundaries[i], ts)
                        && forall j | 0 <= j < |boundaries| && Covers(boundaries[j], ts) :: j == i
    ensures ts >= 0 ==> forall i | 0 <= i < |boundaries| && Covers(boundaries[i], ts) ::
                          boundaries[i].date == LocalDay(ts, offset)
  {
    var day := (FloorSecond(ts) + offset) / DAY_S;
    var n := |boundaries|;
    InDayBySecond(ts, day, offset);
    FloorSecondIs(ts);
    var i := day - fromDate;
    Monotone(fromDate, day, offset);
    Monotone(day + 1, fromDate + n, offset);
    Monotone(day + 1, fromDate, offset);
    Monotone(fromDate + n, day, offset);
    hide FloorSecond, SecondOf, DayStart;
    assert boundaries[0].start == DayStart(fromDate, offset);
    assert boundaries[n - 1].end == DayStart(fromDate + n, offset);
    assert 0 <= i < n;
    assert boundaries[i].date == day && Covers(boundaries[i], ts);
    forall j | 0 <= j < n && Covers(boundaries[j], ts)
      ensures j == i
    {
      InDayBySecond(ts, fromDate + j, offset);
      assert InDay(ts, fromDate + j, offset);
    }
  }

  lemma Monotone(a: int, b: int, offset: int)
    ensures a <= b ==> DayStart(a, offset) <= DayStart(b, offset)
  {
  }

  // ---- hour buckets ----

  predicate IsWholeHourOffset(offset: int) {
    offset % 3_600 == 0
  }

  predicate InBucket(ts: int, hour: int) {
    hour * 3_600_000 <= ts < (hour + 1) * 3_600_000
  }

  /** Two times of one UTC hour are on one local day. */
  predicate Together(hour: int, a: int, b: int, offset: int) {
    InBucket(a, hour) && InBucket(b, hour) ==> LocalDay(a, offset) == LocalDay(b, offset)
  }

  lemma BucketHour(ts: int, hour: int, offset: int)
    requires hour >= 0 && InBucket(ts, hour) && IsWholeHourOffset(offset)
    ensures LocalDay(ts, offset) == (hour + offset / HOUR_S) / 24
  {
    var second := SecondOf(ts);
    assert hour * HOUR_S <= second < (hour + 1) * HOUR_S;
    var k := offset / HOUR_S;
    assert offset == k * HOUR_S;
    var local := hour + k;
    assert local * HOUR_S <= second + offset < (local + 1) * HOUR_S;
    HourOfDay(second + offset, local);
  }

  lemma HourOfDay(second: int, hour: int)
    requires hour * HOUR_S <= second < (hour + 1) * HOUR_S
    ensures second / DAY_S == hour / 24
  {
    var day, rest := hour / 24, hour % 24;
    assert hour == day * 24 + rest && 0 <= rest < 24;
    assert day * DAY_S <= second < (day + 1) * DAY_S;
  }

  /** An hour bucket that a local midnight splits. */
  lemma SplitBucket(offset: int) returns (hour: int, a: int, b: int)
    requires !IsWholeHourOffset(offset)
    ensures hour >= 0 && !Together(hour, a, b, offset)
  {
    var day := if offset >= 0 then offset + 1 else 1;
    var midnight := day * DAY_S - offset;
    hour := midnight / HOUR_S;
    a, b := hour * HOUR_MS, midnight * 1000;
    assert midnight >= 0 && midnight == hour * HOUR_S + midnight % HOUR_S;
    if midnight % HOUR_S == 0 {
      assert offset == (day * 24 - hour) * HOUR_S;
      MultipleOf(day * 24 - hour);
      assert false;
    }
    assert SecondOf(a) == hour * HOUR_S < midnight == SecondOf(b);
    DayOfSecond(midnight, day, offset);
    DayOfSecond(hour * HOUR_S, day, offset);
  }

  lemma MultipleOf(k: int)
    ensures (k * HOUR_S) % HOUR_S == 0
  {
  }

  /** The fast path over UTC hour buckets is sound exactly for offsets of whole hours: then,
      and only then, does no bucket from 1970 on hold times of two local days. */
  lemma WholeHourIffNoSplit(offset: int)
    ensures IsWholeHourOffset(offset) <==> forall hour, a, b | hour >= 0 :: Together(hour, a, b, offset)
  {
    if IsWholeHourOffset(offset) {
      forall hour, a, b | hour >= 0
        ensures Together(hour, a, b, offset)
      {
        if InBucket(a, hour) && InBucket(b, hour) {
          BucketHour(a, hour, offset);
          BucketHour(b, hour, offset);
        }
      }
    } else {
      var hour, a, b := SplitBucket(offset);
      assert !Together(hour, a, b, offset);
    }
  }
}
