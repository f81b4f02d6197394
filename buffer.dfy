/** The per-measurement buffer every sensor keeps: an ordered list of
    (timestamp, value) pairs. This module gives the meaning of the range
    query (getdata) and of the range removal (cleardata) as functions on
    such a list, and proves how the two relate. */
module Buffer {
  import opened Outcomes

  /** A point in time: microseconds since an hour-aligned instant of naive
      local time (for instance 0001-01-01 00:00). */
  type Timestamp = int

  /** One buffered pair `(dt, value)`. */
  datatype Reading<V> = Reading(time: Timestamp, value: V)

  /** The half-open window `start <= t < end` that getdata selects. */
  predicate InWindow(t: Timestamp, start: Timestamp, end: Timestamp) {
    start <= t < end
  }

  /** The readings of `xs` whose timestamps lie in the window, in list order. */
  function Window<V>(xs: seq<Reading<V>>, start: Timestamp, end: Timestamp): (w: seq<Reading<V>>)
    ensures |w| <= |xs|
  {
    if xs == [] then []
    else
      var rest := Window(xs[..|xs| - 1], start, end);
      var x := xs[|xs| - 1];
      if InWindow(x.time, start, end) then rest + [x] else rest
  }

  /** The readings of `xs` whose timestamps lie outside the window, in list order. */
  function Outside<V>(xs: seq<Reading<V>>, start: Timestamp, end: Timestamp): (o: seq<Reading<V>>)
    ensures |o| <= |xs|
  {
    if xs == [] then []
    else
      var rest := Outside(xs[..|xs| - 1], start, end);
      var x := xs[|xs| - 1];
      if !InWindow(x.time, start, end) then rest + [x] else rest
  }

  /** Timestamps never decrease along the list. */
  ghost predicate Sorted<V>(xs: seq<Reading<V>>) {
    forall i, j :: 0 <= i < j < |xs| ==> xs[i].time <= xs[j].time
  }

  /** The most recent reading, or None for an empty list. */
  function Latest<V>(xs: seq<Reading<V>>): (r: Option<Reading<V>>)
    ensures r.None? <==> xs == []
    ensures r.Some? ==> r.value in xs
    ensures r.Some? && Sorted(xs) ==> forall i :: 0 <= i < |xs| ==> xs[i].time <= r.value.time
  {
    if xs == [] then None else Some(xs[|xs| - 1])
  }

  /** A reading is in the window's answer exactly when it is buffered and its
      timestamp is in the window. */
  lemma {:induction false} WindowMember<V>(xs: seq<Reading<V>>, start: Timestamp, end: Timestamp, x: Reading<V>)
    ensures x in Window(xs, start, end) <==> x in xs && InWindow(x.time, start, end)
  {
    if xs != [] {
      var init := xs[..|xs| - 1];
      WindowMember(init, start, end, x);
      assert xs == init + [xs[|xs| - 1]];
    }
  }

  /** A reading is kept by the removal exactly when it is buffered and its
      timestamp is outside the window. */
  lemma {:induction false} OutsideMember<V>(xs: seq<Reading<V>>, start: Timestamp, end: Timestamp, x: Reading<V>)
    ensures x in Outside(xs, start, end) <==> x in xs && !InWindow(x.time, start, end)
  {
    if xs != [] {
      var init := xs[..|xs| - 1];
      OutsideMember(init, start, end, x);
      assert xs == init + [xs[|xs| - 1]];
    }
  }

  /** The query distributes over concatenation, so it keeps list order. */
  lemma {:induction false} WindowConcat<V>(a: seq<Reading<V>>, b: seq<Reading<V>>, start: Timestamp, end: Timestamp)
    ensures Window(a + b, start, end) == Window(a, start, end) + Window(b, start, end)
  {
    if b == [] {
      assert a + b == a;
    } else {
      var init := b[..|b| - 1];
      WindowConcat(a, init, start, end);
      assert (a + b)[..|a + b| - 1] == a + init;
    }
  }

  /** The removal distributes over concatenation, so it keeps list order. */
  lemma {:induction false} OutsideConcat<V>(a: seq<Reading<V>>, b: seq<Reading<V>>, start: Timestamp, end: Timestamp)
    ensures Outside(a + b, start, end) == Outside(a, start, end) + Outside(b, start, end)
  {
    if b == [] {
      assert a + b == a;
    } else {
      var init := b[..|b| - 1];
      OutsideConcat(a, init, start, end);
      assert (a + b)[..|a + b| - 1] == a + init;
    }
  }

  /** What getdata returns and what cleardata keeps split the buffer: every
      reading lands in exactly one of the two, so the lengths add up too. */
  lemma {:induction false} Partition<V>(xs: seq<Reading<V>>, start: Timestamp, end: Timestamp)
    ensures multiset(Window(xs, start, end)) + multiset(Outside(xs, start, end)) == multiset(xs)
    ensures |Window(xs, start, end)| + |Outside(xs, start, end)| == |xs|
  {
    if xs != [] {
      var init := xs[..|xs| - 1];
      Partition(init, start, end);
      assert xs == init + [xs[|xs| - 1]];
    }
    assert |multiset(Window(xs, start, end))| + |multiset(Outside(xs, start, end))| == |multiset(xs)|;
  }

  /** When every reading is in the window, the query returns the whole buffer
      and the removal empties it. */
  lemma {:induction false} AllInWindow<V>(xs: seq<Reading<V>>, start: Timestamp, end: Timestamp)
    requires forall i :: 0 <= i < |xs| ==> InWindow(xs[i].time, start, end)
    ensures Window(xs, start, end) == xs
    ensures Outside(xs, start, end) == []
  {
    if xs != [] {
      AllInWindow(xs[..|xs| - 1], start, end);
    }
  }

  /** When no reading is in the window, the query is empty and the removal is
      a no-op. */
  lemma {:induction false} NoneInWindow<V>(xs: seq<Reading<V>>, start: Timestamp, end: Timestamp)
    requires forall i :: 0 <= i < |xs| ==> !InWindow(xs[i].time, start, end)
    ensures Window(xs, start, end) == []
    ensures Outside(xs, start, end) == xs
  {
    if xs != [] {
      NoneInWindow(xs[..|xs| - 1], start, end);
    }
  }

  /** After the removal, the same query finds nothing. */
  lemma {:induction false} WindowAfterClearIsEmpty<V>(xs: seq<Reading<V>>, start: Timestamp, end: Timestamp)
    ensures Window(Outside(xs, start, end), start, end) == []
  {
    var kept := Outside(xs, start, end);
    forall i | 0 <= i < |kept|
      ensures !InWindow(kept[i].time, start, end)
    {
      OutsideMember(xs, start, end, kept[i]);
    }
    NoneInWindow(kept, start, end);
  }

  /** Removing the same window twice is the same as removing it once. */
  lemma {:induction false} ClearIdempotent<V>(xs: seq<Reading<V>>, start: Timestamp, end: Timestamp)
    ensures Outside(Outside(xs, start, end), start, end) == Outside(xs, start, end)
  {
    var kept := Outside(xs, start, end);
    forall i | 0 <= i < |kept|
      ensures !InWindow(kept[i].time, start, end)
    {
      OutsideMember(xs, start, end, kept[i]);
    }
    NoneInWindow(kept, start, end);
  }

  /** Removing one window leaves the answer for a window sharing no instant
      with it as it was: a store job does not destroy data another window
      still needs. */
  lemma {:induction false} ClearKeepsDisjointWindow<V>(xs: seq<Reading<V>>, start: Timestamp, end: Timestamp,
                                                       start2: Timestamp, end2: Timestamp)
    requires forall t :: !(InWindow(t, start, end) && InWindow(t, start2, end2))
    ensures Window(Outside(xs, start, end), start2, end2) == Window(xs, start2, end2)
  {
    if xs != [] {
      var init := xs[..|xs| - 1];
      var x := xs[|xs| - 1];
      ClearKeepsDisjointWindow(init, start, end, start2, end2);
      if !InWindow(x.time, start, end) {
        WindowConcat(Outside(init, start, end), [x], start2, end2);
      }
    }
  }

  /** The kept list is a subsequence, so a time-ordered buffer stays
      time-ordered after removal. */
  lemma {:induction false} ClearPreservesSorted<V>(xs: seq<Reading<V>>, start: Timestamp, end: Timestamp)
    requires Sorted(xs)
    ensures Sorted(Outside(xs, start, end))
  {
    if xs != [] {
      var init := xs[..|xs| - 1];
      var x := xs[|xs| - 1];
      ClearPreservesSorted(init, start, end);
      var rest := Outside(init, start, end);
      if !InWindow(x.time, start, end) {
        forall i | 0 <= i < |rest|
          ensures rest[i].time <= x.time
        {
          OutsideMember(init, start, end, rest[i]);
        }
        assert Outside(xs, start, end) == rest + [x];
      }
    }
  }

  /** The answer to a query on a time-ordered buffer is time-ordered. */
  lemma {:induction false} WindowPreservesSorted<V>(xs: seq<Reading<V>>, start: Timestamp, end: Timestamp)
    requires Sorted(xs)
    ensures Sorted(Window(xs, start, end))
  {
    if xs != [] {
      var init := xs[..|xs| - 1];
      var x := xs[|xs| - 1];
      WindowPreservesSorted(init, start, end);
      var rest := Window(init, start, end);
      if InWindow(x.time, start, end) {
        forall i | 0 <= i < |rest|
          ensures rest[i].time <= x.time
        {
          WindowMember(init, start, end, rest[i]);
        }
        assert Window(xs, start, end) == rest + [x];
      }
    }
  }

  /** `t` is no earlier than the last buffered reading. */
  predicate NotBefore<V>(xs: seq<Reading<V>>, t: Timestamp) {
    xs != [] ==> xs[|xs| - 1].time <= t
  }

  /** Appending a reading no older than the last one keeps the buffer
      time-ordered. */
  lemma AppendPreservesSorted<V>(xs: seq<Reading<V>>, x: Reading<V>)
    requires Sorted(xs)
    requires NotBefore(xs, x.time)
    ensures Sorted(xs + [x])
  {
    var ys := xs + [x];
    forall i, j | 0 <= i < j < |ys|
      ensures ys[i].time <= ys[j].time
    {
      if j == |xs| && i < |xs| - 1 {
        assert xs[i].time <= xs[|xs| - 1].time;
      }
    }
  }
}
