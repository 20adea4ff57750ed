/** `sort_by_key(|e| e.timestamp_ms)`: the stable sort, and why there is only one. */
module EventOrder {
  import opened UsageEvents

  predicate Sorted(s: seq<Event>) {
    forall i, j | 0 <= i < j < |s| :: s[i].timestamp <= s[j].timestamp
  }

  function Only(e: Event, time: int): seq<Event> {
    if e.timestamp == time then [e] else []
  }

  /** The events of one moment, in the order they have in `s`. */
  function AtTime(s: seq<Event>, time: int): seq<Event> {
    if s == [] then []
    else
      var n := |s| - 1;
      AtTime(s[..n], time) + Only(s[n], time)
  }

  /** `t` is `s` sorted, and events of the same moment keep their order. */
  ghost predicate IsStableSort(s: seq<Event>, t: seq<Event>) {
    Sorted(t) && forall time :: AtTime(t, time) == AtTime(s, time)
  }

  function Insert(s: seq<Event>, e: Event): seq<Event> {
    if s == [] || s[|s| - 1].timestamp <= e.timestamp then s + [e]
    else Insert(s[..|s| - 1], e) + [s[|s| - 1]]
  }

  function SortByTime(s: seq<Event>): seq<Event> {
    if s == [] then [] else Insert(SortByTime(s[..|s| - 1]), s[|s| - 1])
  }

  lemma AtTimePush(s: seq<Event>, e: Event, time: int)
    ensures AtTime(s + [e], time) == AtTime(s, time) + Only(e, time)
  {
    assert (s + [e])[..|s|] == s;
  }

  lemma {:induction false} AtTimeMembers(s: seq<Event>, time: int)
    ensures forall e :: e in AtTime(s, time) <==> e in s && e.timestamp == time
  {
    if s != [] {
      assert s == s[..|s| - 1] + [s[|s| - 1]];
      AtTimeMembers(s[..|s| - 1], time);
    }
  }

  lemma SortedPush(s: seq<Event>, e: Event)
    requires Sorted(s) && forall x | x in s :: x.timestamp <= e.timestamp
    ensures Sorted(s + [e])
  {
    forall i | 0 <= i < |s|
      ensures s[i].timestamp <= e.timestamp
    {
      assert s[i] in s;
    }
  }

  lemma LastIsLatest(s: seq<Event>)
    requires Sorted(s) && s != []
    ensures forall x | x in s :: x.timestamp <= s[|s| - 1].timestamp
  {
  }

  lemma {:induction false} InsertIs(s: seq<Event>, e: Event)
    requires Sorted(s)
    ensures Sorted(Insert(s, e)) && forall x :: x in Insert(s, e) <==> x in s || x == e
  {
    hide Sorted;
    if s == [] {
      SortedPush(s, e);
    } else {
      var n := |s| - 1;
      assert s == s[..n] + [s[n]];
      LastIsLatest(s);
      if s[n].timestamp <= e.timestamp {
        SortedPush(s, e);
      } else {
        SortedTake(s);
        InsertIs(s[..n], e);
        SortedPush(Insert(s[..n], e), s[n]);
      }
    }
  }

  lemma SortedTake(s: seq<Event>)
    requires Sorted(s) && s != []
    ensures Sorted(s[..|s| - 1])
  {
  }

  lemma {:induction false} InsertIsStable(s: seq<Event>, e: Event, time: int)
    requires Sorted(s)
    ensures AtTime(Insert(s, e), time) == AtTime(s, time) + Only(e, time)
  {
    hide AtTime;
    if s == [] || s[|s| - 1].timestamp <= e.timestamp {
      AtTimePush(s, e, time);
    } else {
      var n := |s| - 1;
      var before, last := s[..n], s[n];
      assert s == before + [last];
      InsertIsStable(before, e, time);
      AtTimePush(before, last, time);
      AtTimePush(Insert(before, e), last, time);
      assert Only(e, time) == [] || Only(last, time) == [];
    }
  }

  lemma {:induction false} InsertAdds(s: seq<Event>, e: Event)
    ensures multiset(Insert(s, e)) == multiset(s) + multiset{e}
  {
    if s != [] {
      assert s == s[..|s| - 1] + [s[|s| - 1]];
      InsertAdds(s[..|s| - 1], e);
    }
  }

  lemma {:induction false} SortIsSorted(s: seq<Event>)
    ensures Sorted(SortByTime(s)) && multiset(SortByTime(s)) == multiset(s)
  {
    if s != [] {
      var n := |s| - 1;
      assert s == s[..n] + [s[n]];
      SortIsSorted(s[..n]);
      hide Insert, Sorted;
      InsertIs(SortByTime(s[..n]), s[n]);
      InsertAdds(SortByTime(s[..n]), s[n]);
    }
  }

  lemma {:induction false} SortKeepsMoments(s: seq<Event>, time: int)
    ensures AtTime(SortByTime(s), time) == AtTime(s, time)
  {
    hide Insert;
    if s != [] {
      var n := |s| - 1;
      assert s == s[..n] + [s[n]];
      SortKeepsMoments(s[..n], time);
      SortIsSorted(s[..n]);
      InsertIsStable(SortByTime(s[..n]), s[n], time);
      AtTimePush(s[..n], s[n], time);
    }
  }

  /** The model of the library sort is a stable sort. */
  lemma SortIsStable(s: seq<Event>)
    ensures IsStableSort(s, SortByTime(s))
  {
    SortIsSorted(s);
    forall time
      ensures AtTime(SortByTime(s), time) == AtTime(s, time)
    {
      SortKeepsMoments(s, time);
    }
  }

  lemma LastAtTime(s: seq<Event>)
    requires s != []
    ensures var m := AtTime(s, s[|s| - 1].timestamp); m != [] && m[|m| - 1] == s[|s| - 1]
  {
    var x := s[|s| - 1];
    assert s == s[..|s| - 1] + [x];
    AtTimePush(s[..|s| - 1], x, x.timestamp);
  }

  lemma NoLaterThan(s: seq<Event>, t: seq<Event>)
    requires Sorted(t) && s != []
    requires AtTime(t, s[|s| - 1].timestamp) == AtTime(s, s[|s| - 1].timestamp)
    ensures t != [] && s[|s| - 1].timestamp <= t[|t| - 1].timestamp
  {
    var m := AtTime(s, s[|s| - 1].timestamp);
    hide AtTime, Sorted;
    LastAtTime(s);
    AtTimeMembers(t, s[|s| - 1].timestamp);
    assert m[|m| - 1] in m;
    assert s[|s| - 1] in t;
    LastIsLatest(t);
  }

  lemma LastMoment(s: seq<Event>, t: seq<Event>)
    requires Sorted(s) && Sorted(t) && s != []
    requires forall time :: AtTime(s, time) == AtTime(t, time)
    ensures t != [] && t[|t| - 1] == s[|s| - 1]
  {
    hide AtTime, Sorted;
    NoLaterThan(s, t);
    NoLaterThan(t, s);
    LastAtTime(s);
    LastAtTime(t);
  }

  /** Whatever stable sort is used, the result is the same. */
  lemma {:induction false} StableSortIsUnique(s: seq<Event>, t: seq<Event>)
    requires Sorted(s) && Sorted(t) && forall time :: AtTime(s, time) == AtTime(t, time)
    ensures s == t
    decreases |s| + |t|
  {
    hide AtTime;
    if s == [] && t == [] {
    } else if s == [] {
      LastMoment(t, s);
    } else {
      LastMoment(s, t);
      var last := s[|s| - 1];
      var a, b := s[..|s| - 1], t[..|t| - 1];
      assert s == a + [last] && t == b + [last];
      forall time
        ensures AtTime(a, time) == AtTime(b, time)
      {
        AtTimePush(a, last, time);
        AtTimePush(b, last, time);
        assert AtTime(a, time) == AtTime(s, time)[..|AtTime(s, time)| - |Only(last, time)|];
      }
      StableSortIsUnique(a, b);
    }
  }
}
