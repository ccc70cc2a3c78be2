/**
  The telemetry collection of Open MCT (`TelemetryCollection`): one ordered,
  time-bounded buffer (`boundedTelemetry`) fed by a historical request and a
  real-time subscription, with a buffer of data that lies after the current
  window (`futureBuffer`). Asynchronous deliveries are modelled as sequential
  events: a historical batch arrives, a real-time datum arrives, the bounds or
  the time system change.
 */
module Telemetry {
  import opened Wrappers
  import opened Time

  /** A telemetry datum: its time value under each time-system key, and its payload. */
  datatype Datum = Datum(times: map<string, int>, value: string)

  /** What the collection announces to its consumer. */
  datatype CollectionEvent = Added(data: seq<Datum>) | Removed(data: seq<Datum>) | Cleared

  /** The option `strategy` of a collection request. */
  datatype Strategy = All | Latest

  const AlreadyLoadedMessage: string := "Telemetry Collection has already been loaded."

  /** `parseTime`: the datum's time under the time system keyed `key` (a missing field reads as 0). */
  function ParseTime(key: string, d: Datum): int {
    if key in d.times then d.times[key] else 0
  }

  /** Ascending by time. */
  ghost predicate Sorted(key: string, s: seq<Datum>) {
    forall i, j :: 0 <= i < j < |s| ==> ParseTime(key, s[i]) <= ParseTime(key, s[j])
  }

  ghost predicate Distinct(s: seq<Datum>) {
    forall i, j :: 0 <= i < j < |s| ==> s[i] != s[j]
  }

  ghost function Elements(s: seq<Datum>): set<Datum> {
    set d | d in s
  }

  /** No datum ends after the window. */
  ghost predicate WithinEnd(key: string, s: seq<Datum>, b: Bounds) {
    forall d {:trigger d in s} :: d in s ==> ParseTime(key, d) <= b.end
  }

  /** No datum starts before the window. */
  ghost predicate WithinStart(key: string, s: seq<Datum>, b: Bounds) {
    forall d {:trigger d in s} :: d in s ==> b.start <= ParseTime(key, d)
  }

  /** Every datum lies after the window. */
  ghost predicate PastEnd(key: string, s: seq<Datum>, b: Bounds) {
    forall d {:trigger d in s} :: d in s ==> b.end < ParseTime(key, d)
  }

  /** Some datum lies before the window. */
  ghost predicate HasStale(key: string, s: seq<Datum>, b: Bounds) {
    exists d {:trigger d in s} :: d in s && ParseTime(key, d) < b.start
  }

  /**
    The data of `s` that the window admits: none after its end, and none
    before its start unless stale data is accepted (greedy "latest").
   */
  ghost function Admissible(key: string, s: set<Datum>, b: Bounds, stale: bool): set<Datum> {
    set d | d in s && ParseTime(key, d) <= b.end && (stale || b.start <= ParseTime(key, d))
  }

  /** `r` retains the latest of the candidates `c`: one datum of greatest time, or nothing when there is none. */
  ghost predicate IsLatestOf(key: string, r: seq<Datum>, c: set<Datum>) {
    && |r| <= 1
    && (r == [] <==> c == {})
    && (r != [] ==> r[0] in c && forall x :: x in c ==> ParseTime(key, x) <= ParseTime(key, r[0]))
  }

  /** The data of `s`, in order, that lie after the window `b`. */
  function PastEndOf(key: string, s: seq<Datum>, b: Bounds): (r: seq<Datum>)
    ensures PastEnd(key, r, b)
    ensures forall d {:trigger d in s} :: d in s && b.end < ParseTime(key, d) ==> d in r
    ensures forall d :: d in r ==> d in s
  {
    if s == [] then []
    else
      assert s == s[..|s| - 1] + [s[|s| - 1]];
      PastEndOf(key, s[..|s| - 1], b) + (if b.end < ParseTime(key, s[|s| - 1]) then [s[|s| - 1]] else [])
  }

  lemma ElementsConcat(a: seq<Datum>, b: seq<Datum>)
    ensures Elements(a + b) == Elements(a) + Elements(b)
  {
    forall d | d in a + b
      ensures d in a || d in b
    {
    }
  }

  /** The data of `s`, in order, that are not in `t`. */
  method Difference(s: seq<Datum>, t: seq<Datum>) returns (r: seq<Datum>)
    ensures Elements(r) == Elements(s) - Elements(t)
    ensures forall d :: d in r ==> d in s
  {
    r := [];
    var i := 0;
    while i < |s|
      invariant 0 <= i <= |s|
      invariant Elements(r) == Elements(s[..i]) - Elements(t)
      invariant forall d :: d in r ==> d in s
    {
      ElementsSnoc(s[..i], s[i]);
      assert s[..i + 1] == s[..i] + [s[i]];
      if s[i] !in t {
        ElementsSnoc(r, s[i]);
        r := r + [s[i]];
      }
      i := i + 1;
    }
    assert s[..i] == s;
  }

  /**
    `_sortedIndex`: the binary search of lodash's `sortedIndexBy`, the lowest
    position at which a datum of time `t` can be inserted without breaking the
    order.
   */
  method SortedIndex(key: string, s: seq<Datum>, t: int) returns (r: nat)
    requires Sorted(key, s)
    ensures r <= |s|
    ensures forall i :: 0 <= i < r ==> ParseTime(key, s[i]) < t
    ensures forall i :: r <= i < |s| ==> t <= ParseTime(key, s[i])
  {
    var lo, hi := 0, |s|;
    while lo < hi
      invariant 0 <= lo <= hi <= |s|
      invariant forall i :: 0 <= i < lo ==> ParseTime(key, s[i]) < t
      invariant forall i :: hi <= i < |s| ==> t <= ParseTime(key, s[i])
    {
      var mid := (lo + hi) / 2;
      if ParseTime(key, s[mid]) < t {
        lo := mid + 1;
      } else {
        hi := mid;
      }
    }
    r := lo;
  }

  /** Inserting at a position that separates earlier from later data keeps the order. */
  lemma InsertKeepsSorted(key: string, s: seq<Datum>, k: nat, d: Datum)
    requires Sorted(key, s) && k <= |s|
    requires forall i :: 0 <= i < k ==> ParseTime(key, s[i]) <= ParseTime(key, d)
    requires forall i :: k <= i < |s| ==> ParseTime(key, d) <= ParseTime(key, s[i])
    ensures Sorted(key, s[..k] + [d] + s[k..])
  {
    var r := s[..k] + [d] + s[k..];
    forall i, j | 0 <= i < j < |r|
      ensures ParseTime(key, r[i]) <= ParseTime(key, r[j])
    {
      if j < k {
        assert r[i] == s[i] && r[j] == s[j];
      } else if i > k {
        assert r[i] == s[i - 1] && r[j] == s[j - 1];
      } else if i == k {
        assert r[j] == s[j - 1];
      } else if j == k {
        assert r[i] == s[i];
      } else {
        assert r[i] == s[i] && r[j] == s[j - 1];
      }
    }
  }

  /**
    The insertion of one datum of the window: at the position `_sortedIndex`
    gives, unless an equal datum is already held (a datum equal to `d` has
    `d`'s time, so only the run of that time is searched).
   */
  method InsertSorted(key: string, s: seq<Datum>, d: Datum) returns (r: seq<Datum>, inserted: bool)
    requires Sorted(key, s) && Distinct(s)
    ensures Sorted(key, r) && Distinct(r)
    ensures inserted <==> d !in s
    ensures Elements(r) == Elements(s) + {d}
    ensures !inserted ==> r == s
    ensures |r| == |s| + (if inserted then 1 else 0)
  {
    var t := ParseTime(key, d);
    var k := SortedIndex(key, s, t);
    var j := k;
    while j < |s| && ParseTime(key, s[j]) == t && s[j] != d
      invariant k <= j <= |s|
      invariant forall i :: k <= i < j ==> s[i] != d
    {
      j := j + 1;
    }
    if j < |s| && s[j] == d {
      return s, false;
    }
    forall i | 0 <= i < |s|
      ensures s[i] != d
    {
      if i < k {
        assert ParseTime(key, s[i]) < t;
      } else if i >= j {
        assert j < |s| && ParseTime(key, s[j]) != t;
        assert ParseTime(key, s[j]) <= ParseTime(key, s[i]);
      }
    }
    InsertKeepsSorted(key, s, k, d);
    r := s[..k] + [d] + s[k..];
    inserted := true;
    assert s == s[..k] + s[k..];
    assert Elements(r) == Elements(s[..k]) + {d} + Elements(s[k..]);
    forall i, i' | 0 <= i < i' < |r|
      ensures r[i] != r[i']
    {
      if i' < k || i > k {
      } else if i == k {
        assert r[i'] in s;
      } else if i' == k {
        assert r[i] in s;
      } else {
        assert r[i] == s[i] && r[i'] == s[i' - 1];
      }
    }
  }

  /**
    Splits an ordered buffer where time `t` begins: `lower` is all data before
    `t`, `upper` the rest.
   */
  method SplitAt(key: string, s: seq<Datum>, t: int) returns (lower: seq<Datum>, upper: seq<Datum>)
    requires Sorted(key, s)
    ensures s == lower + upper
    ensures forall d {:trigger d in lower} :: d in lower ==> ParseTime(key, d) < t
    ensures forall d {:trigger d in upper} :: d in upper ==> t <= ParseTime(key, d)
    ensures Sorted(key, lower) && Sorted(key, upper)
    ensures Distinct(s) ==> Distinct(lower) && Distinct(upper)
  {
    var k := SortedIndex(key, s, t);
    lower, upper := s[..k], s[k..];
    SplitBounds(key, s, k, t);
    SliceKeepsOrder(key, s, 0, k);
    SliceKeepsOrder(key, s, k, |s|);
    assert s[0..k] == lower && s[k..|s|] == upper;
  }

  /** The data before a position of the binary search lie before `t`, the rest at or after it. */
  lemma SplitBounds(key: string, s: seq<Datum>, k: nat, t: int)
    requires k <= |s|
    requires forall i :: 0 <= i < k ==> ParseTime(key, s[i]) < t
    requires forall i :: k <= i < |s| ==> t <= ParseTime(key, s[i])
    ensures s == s[..k] + s[k..]
    ensures forall d {:trigger d in s[..k]} :: d in s[..k] ==> ParseTime(key, d) < t
    ensures forall d {:trigger d in s[k..]} :: d in s[k..] ==> t <= ParseTime(key, d)
  {
    forall d | d in s[..k]
      ensures ParseTime(key, d) < t
    {
      var i :| 0 <= i < k && s[..k][i] == d;
    }
    forall d | d in s[k..]
      ensures t <= ParseTime(key, d)
    {
      var i :| 0 <= i < |s| - k && s[k..][i] == d;
      assert s[k + i] == d;
    }
  }

  /** A slice of an ordered buffer is ordered, and a slice of one free of duplicates is free of them. */
  lemma SliceKeepsOrder(key: string, s: seq<Datum>, lo: nat, hi: nat)
    requires Sorted(key, s) && lo <= hi <= |s|
    ensures Sorted(key, s[lo..hi])
    ensures Distinct(s) ==> Distinct(s[lo..hi])
  {
    var r := s[lo..hi];
    forall i, j | 0 <= i < j < |r|
      ensures ParseTime(key, r[i]) <= ParseTime(key, r[j])
      ensures Distinct(s) ==> r[i] != r[j]
    {
      assert r[i] == s[lo + i] && r[j] == s[lo + j];
    }
  }

  /** The last datum of an ordered buffer is the latest one. */
  function LatestOf(key: string, s: seq<Datum>): (r: seq<Datum>)
    requires Sorted(key, s)
    ensures IsLatestOf(key, r, Elements(s))
    ensures Sorted(key, r) && Distinct(r)
  {
    if s == [] then [] else
      assert s[|s| - 1] in s;
      LastIsLatest(key, s);
      [s[|s| - 1]]
  }

  lemma LastIsLatest(key: string, s: seq<Datum>)
    requires Sorted(key, s) && s != []
    ensures forall x :: x in Elements(s) ==> ParseTime(key, x) <= ParseTime(key, s[|s| - 1])
  {
    forall x | x in Elements(s)
      ensures ParseTime(key, x) <= ParseTime(key, s[|s| - 1])
    {
      var i :| 0 <= i < |s| && s[i] == x;
    }
  }

  /** Whatever a merge holds stays in the window its inputs kept to. */
  lemma AdmittedStayInWindow(key: string, s: seq<Datum>, h: seq<Datum>, a: set<Datum>, b: Bounds, stale: bool)
    requires Elements(s) <= Elements(h) + Admissible(key, a, b, stale)
    requires WithinEnd(key, h, b)
    ensures WithinEnd(key, s, b)
    ensures !stale && WithinStart(key, h, b) ==> WithinStart(key, s, b)
  {
    forall d | d in s
      ensures ParseTime(key, d) <= b.end
      ensures !stale && WithinStart(key, h, b) ==> b.start <= ParseTime(key, d)
    {
      assert d in Elements(s);
    }
  }

  /** Admitting one more candidate adds it exactly when the window admits it. */
  lemma AdmissibleStep(key: string, a: set<Datum>, d: Datum, b: Bounds, stale: bool)
    ensures Admissible(key, a + {d}, b, stale)
      == Admissible(key, a, b, stale)
         + (if ParseTime(key, d) <= b.end && (stale || b.start <= ParseTime(key, d)) then {d} else {})
  {
  }

  /**
    The loop of `_processNewTelemetry`: every incoming datum the window admits
    is inserted in order unless already held; a datum after the window's end
    is set aside in `later`; any other datum is dropped. `added` lists the
    data actually inserted, in arrival order.
   */
  method Merge(key: string, held: seq<Datum>, incoming: seq<Datum>, b: Bounds, stale: bool)
    returns (merged: seq<Datum>, later: seq<Datum>, added: seq<Datum>)
    requires Sorted(key, held) && Distinct(held)
    ensures Sorted(key, merged) && Distinct(merged)
    ensures Elements(merged) == Elements(held) + Admissible(key, Elements(incoming), b, stale)
    ensures later == PastEndOf(key, incoming, b)
    ensures Distinct(added) && Elements(added) == Elements(merged) - Elements(held)
    ensures added == [] ==> merged == held
  {
    merged, later, added := held, [], [];
    ghost var seen: set<Datum> := {};
    var i := 0;
    while i < |incoming|
      invariant 0 <= i <= |incoming|
      invariant seen == Elements(incoming[..i])
      invariant MergedFrom(key, held, seen, b, stale, merged, added)
      invariant later == PastEndOf(key, incoming[..i], b)
    {
      var d := incoming[i];
      assert incoming[..i + 1][..i] == incoming[..i];
      ElementsSnoc(incoming[..i], d);
      assert incoming[..i + 1] == incoming[..i] + [d];
      merged, added := MergeOne(key, held, seen, b, stale, merged, added, d);
      seen := seen + {d};
      if b.end < ParseTime(key, d) {
        later := later + [d];
      }
      i := i + 1;
    }
    assert incoming[..i] == incoming;
  }

  /**
    The state of a merge after the candidates `seen`: `merged` is ordered,
    free of duplicates and holds `held` plus the admissible candidates, and
    `added` lists, once each, what was not held before.
   */
  ghost predicate MergedFrom(key: string, held: seq<Datum>, seen: set<Datum>, b: Bounds, stale: bool,
                             merged: seq<Datum>, added: seq<Datum>)
  {
    && Sorted(key, merged) && Distinct(merged)
    && Elements(merged) == Elements(held) + Admissible(key, seen, b, stale)
    && Distinct(added) && Elements(added) == Elements(merged) - Elements(held)
    && (added == [] ==> merged == held)
  }

  /** One step of the loop of `_processNewTelemetry`: an admissible datum is inserted unless already held. */
  method MergeOne(key: string, ghost held: seq<Datum>, ghost seen: set<Datum>, b: Bounds, stale: bool,
                  merged: seq<Datum>, added: seq<Datum>, d: Datum)
    returns (merged': seq<Datum>, added': seq<Datum>)
    requires MergedFrom(key, held, seen, b, stale, merged, added)
    ensures MergedFrom(key, held, seen + {d}, b, stale, merged', added')
  {
    AdmissibleStep(key, seen, d, b, stale);
    var t := ParseTime(key, d);
    merged', added' := merged, added;
    if t <= b.end && (stale || b.start <= t) {
      var inserted;
      merged', inserted := InsertSorted(key, merged, d);
      if inserted {
        ElementsSnoc(added, d);
        DistinctSnoc(added, d);
        added' := added + [d];
      }
    }
  }

  lemma ElementsSnoc(s: seq<Datum>, d: Datum)
    ensures Elements(s + [d]) == Elements(s) + {d}
  {
    ElementsConcat(s, [d]);
  }

  lemma DistinctSnoc(s: seq<Datum>, d: Datum)
    requires Distinct(s) && d !in Elements(s)
    ensures Distinct(s + [d])
  {
  }

  /**
    The buffers of a collection for the window `b`: the held data are
    ordered, without duplicates, never after the window and (except under
    "latest") never before it; pending data all lie after the window.
   */
  ghost predicate WindowInvariant(key: string, held: seq<Datum>, future: seq<Datum>, b: Bounds, latest: bool)
  {
    && Sorted(key, held) && Distinct(held)
    && (latest ==> |held| <= 1)
    && WithinEnd(key, held, b)
    && (!latest ==> WithinStart(key, held, b))
    && PastEnd(key, future, b)
  }

  /**
    What `_processNewTelemetry` makes of the held data and a batch: under
    "all", the held data plus the admissible part of the batch, `added` being
    what is new; under "latest", the latest of those candidates, `added` being
    that datum when it changed.
   */
  method Intake(key: string, held: seq<Datum>, data: seq<Datum>, b: Bounds, latest: bool, stale: bool)
    returns (r: seq<Datum>, later: seq<Datum>, added: seq<Datum>)
    requires WindowInvariant(key, held, [], b, latest)
    requires stale ==> latest
    ensures WindowInvariant(key, r, later, b, latest)
    ensures later == PastEndOf(key, data, b)
    ensures !latest ==>
      && Elements(r) == Elements(held) + Admissible(key, Elements(data), b, false)
      && Distinct(added) && Elements(added) == Elements(r) - Elements(held)
    ensures latest ==>
      && IsLatestOf(key, r, Elements(held) + Admissible(key, Elements(data), b, stale))
      && added == (if r == held then [] else r)
  {
    var merged, inserted;
    merged, later, inserted := Merge(key, held, data, b, stale);
    AdmittedStayInWindow(key, merged, held, Elements(data), b, stale);
    if latest {
      r := LatestOf(key, merged);
      assert Elements(r) <= Elements(merged);
      AdmittedStayInWindow(key, r, merged, {}, b, stale);
      added := if r == held then [] else r;
    } else {
      r, added := merged, inserted;
    }
  }

  /**
    What a tick of `_bounds` makes of the buffers for the new window `b`: held
    data after the new end return to the pending data, pending data the
    window now admits join the held data, and held data before the new start
    are evicted (not when stale data are accepted); under "latest" only the
    latest of what remains is held.
   */
  method Retime(key: string, held: seq<Datum>, future: seq<Datum>, b: Bounds, latest: bool, stale: bool)
    returns (r: seq<Datum>, future': seq<Datum>)
    requires Sorted(key, held) && Distinct(held) && (latest ==> |held| <= 1)
    requires stale ==> latest
    ensures WindowInvariant(key, r, future', b, latest)
    ensures future' == PastEndOf(key, future, b) + PastEndOf(key, held, b)
    ensures !latest ==> Elements(r) == Admissible(key, Elements(held) + Elements(future), b, false)
    ensures latest ==> IsLatestOf(key, r, Admissible(key, Elements(held) + Elements(future), b, stale))
  {
    var kept;
    kept, future' := Rewindow(key, held, future, b, stale);
    r := if latest then LatestOf(key, kept) else kept;
    assert Elements(r) <= Elements(kept);
    AdmittedStayInWindow(key, r, [], Elements(held) + Elements(future), b, stale);
  }

  /** The window part of a tick, for either strategy: the data of both buffers the new window admits, and what lies after it. */
  method Rewindow(key: string, held: seq<Datum>, future: seq<Datum>, b: Bounds, stale: bool)
    returns (kept: seq<Datum>, future': seq<Datum>)
    requires Sorted(key, held) && Distinct(held)
    ensures Sorted(key, kept) && Distinct(kept)
    ensures Elements(kept) == Admissible(key, Elements(held) + Elements(future), b, stale)
    ensures future' == PastEndOf(key, future, b) + PastEndOf(key, held, b)
    ensures PastEnd(key, future', b)
  {
    var upTo, beyond := SplitAt(key, held, b.end + 1);
    var merged, later, _ := Merge(key, upTo, future, b, stale);
    var evicted := [];
    kept := merged;
    if !stale {
      evicted, kept := SplitAt(key, merged, b.start);
    }
    TickElements(key, held, upTo, beyond, future, merged, evicted, kept, b, stale);
    PastEndOfSplit(key, held, upTo, beyond, b);
    future' := later + beyond;
  }

  /** The set of data a tick keeps in the window. */
  lemma TickElements(key: string, before: seq<Datum>, upTo: seq<Datum>, beyond: seq<Datum>, future: seq<Datum>,
                     merged: seq<Datum>, evicted: seq<Datum>, kept: seq<Datum>, b: Bounds, stale: bool)
    requires before == upTo + beyond
    requires forall d {:trigger d in upTo} :: d in upTo ==> ParseTime(key, d) < b.end + 1
    requires forall d {:trigger d in beyond} :: d in beyond ==> b.end + 1 <= ParseTime(key, d)
    requires Elements(merged) == Elements(upTo) + Admissible(key, Elements(future), b, stale)
    requires merged == evicted + kept
    requires forall d {:trigger d in evicted} :: d in evicted ==> ParseTime(key, d) < b.start
    requires !stale ==> forall d {:trigger d in kept} :: d in kept ==> b.start <= ParseTime(key, d)
    requires stale ==> evicted == []
    ensures Elements(kept) == Admissible(key, Elements(before) + Elements(future), b, stale)
  {
    var all := Elements(before) + Elements(future);
    forall d | d in Admissible(key, all, b, stale)
      ensures d in Elements(kept)
    {
      if d in before {
        assert d in upTo || d in beyond;
        assert d in Elements(upTo);
      } else {
        assert d in Elements(future);
      }
      assert d in Elements(merged);
      assert d in merged;
      assert d !in evicted;
    }
    forall d | d in Elements(kept)
      ensures d in Admissible(key, all, b, stale)
    {
      assert d in merged;
      assert d in Elements(merged);
      if d in Elements(upTo) {
        assert d in before;
        assert d in all;
      }
    }
  }

  /** What an ordered split at `end + 1` sets aside is exactly what lies after the window. */
  lemma {:induction false} PastEndOfSplit(key: string, s: seq<Datum>, lower: seq<Datum>, upper: seq<Datum>, b: Bounds)
    requires s == lower + upper
    requires forall d {:trigger d in lower} :: d in lower ==> ParseTime(key, d) < b.end + 1
    requires forall d {:trigger d in upper} :: d in upper ==> b.end + 1 <= ParseTime(key, d)
    ensures upper == PastEndOf(key, s, b)
    decreases |upper|
  {
    if upper == [] {
      assert s == lower;
      PastEndOfNone(key, s, b);
    } else {
      var last := upper[|upper| - 1];
      var front := upper[..|upper| - 1];
      assert upper == front + [last];
      assert s == (lower + front) + [last];
      assert last in upper;
      assert forall d :: d in front ==> d in upper;
      PastEndOfSplit(key, lower + front, lower, front, b);
      PastEndOfSnoc(key, lower + front, last, b);
    }
  }

  lemma PastEndOfSnoc(key: string, s: seq<Datum>, d: Datum, b: Bounds)
    ensures PastEndOf(key, s + [d], b) == PastEndOf(key, s, b) + (if b.end < ParseTime(key, d) then [d] else [])
  {
    assert (s + [d])[..|s|] == s;
  }

  lemma {:induction false} PastEndOfNone(key: string, s: seq<Datum>, b: Bounds)
    requires forall d {:trigger d in s} :: d in s ==> ParseTime(key, d) <= b.end
    ensures PastEndOf(key, s, b) == []
  {
    if s != [] {
      assert s[|s| - 1] in s;
      forall d | d in s[..|s| - 1]
        ensures ParseTime(key, d) <= b.end
      {
        assert d in s;
      }
      PastEndOfNone(key, s[..|s| - 1], b);
    }
  }

  /** The first datum of an ordered buffer is its earliest, so it alone decides whether any is stale. */
  lemma StaleIsFirst(key: string, s: seq<Datum>, b: Bounds)
    requires Sorted(key, s)
    ensures HasStale(key, s, b) <==> s != [] && ParseTime(key, s[0]) < b.start
  {
    if HasStale(key, s, b) {
      var d :| d in s && ParseTime(key, d) < b.start;
      var i :| 0 <= i < |s| && s[i] == d;
      assert ParseTime(key, s[0]) <= ParseTime(key, s[i]);
    }
    if s != [] && ParseTime(key, s[0]) < b.start {
      assert s[0] in s;
    }
  }

  /**
    Whether an ordered buffer holds a datum before the window's start: only
    its first datum, the earliest, needs looking at.
   */
  function OutsideBounds(key: string, s: seq<Datum>, b: Bounds): (r: bool)
    requires Sorted(key, s)
    ensures r <==> HasStale(key, s, b)
  {
    StaleIsFirst(key, s, b);
    s != [] && ParseTime(key, s[0]) < b.start
  }

  /**
    The buffers of a collection: the held data are ordered and free of
    duplicates; nothing held ends after the window and, except for the datum
    greedy "latest" retains, nothing starts before it; the future buffer
    holds only data after the window; the flag says whether a held datum
    lies before the window's start. Before `load` there is no window and
    nothing is held.
   */
  ghost predicate BuffersValid(key: string, latest: bool, loaded: bool, window: Option<Bounds>,
                               held: seq<Datum>, future: seq<Datum>, outside: bool)
  {
    && Sorted(key, held) && Distinct(held)
    && (latest ==> |held| <= 1)
    && (!loaded ==> window.None?)
    && (window.None? ==> held == [] && future == [] && !outside)
    && (window.Some? ==>
          && window.value.start <= window.value.end
          && WindowInvariant(key, held, future, window.value, latest)
          && (outside <==> HasStale(key, held, window.value)))
  }

  /** Empty buffers agree with any window. */
  lemma EmptyBuffersValid(key: string, latest: bool, b: Bounds)
    requires b.start <= b.end
    ensures BuffersValid(key, latest, true, Some(b), [], [], false)
  {
  }

  /** After an intake the buffers agree with the window again, the new data after it joining the future buffer. */
  lemma IntakeValid(key: string, latest: bool, loaded: bool, window: Option<Bounds>,
                    r: seq<Datum>, future: seq<Datum>, later: seq<Datum>)
    requires loaded && window.Some? && window.value.start <= window.value.end
    requires WindowInvariant(key, r, later, window.value, latest) && PastEnd(key, future, window.value)
    ensures BuffersValid(key, latest, loaded, window, r, future + later, OutsideBounds(key, r, window.value))
  {
    assert forall d :: d in future + later ==> d in future || d in later;
  }

  class TelemetryCollection {
    /** `isStrategyLatest`: the request asked for the latest available datum only. */
    const isStrategyLatest: bool
    /** Whether the telemetry API has a historical (request) and a subscription provider for the object. */
    const hasHistoricalProvider: bool
    const hasSubscriptionProvider: bool

    var loaded: bool
    var boundedTelemetry: seq<Datum>
    var futureBuffer: seq<Datum>
    /** `timeKey`: the key of the applied time system, which `parseTime` reads. */
    var timeKey: string
    var lastBounds: Option<Bounds>
    /** `requestAbort`: the position in `requests` of the historical request in flight, if any. */
    var requestAbort: Option<nat>
    /** The window of every historical request issued, oldest first. */
    var requests: seq<Bounds>
    /** `unsubscribe` is set: the real-time subscription is open. */
    var subscribed: bool
    /** The bounds and time-system listeners are registered with the time context. */
    var watchingBounds: bool
    var watchingTimeSystem: bool
    var dataOutsideTimeBounds: bool
    /** Every `add`/`remove`/`clear` announced so far, oldest first. */
    var events: seq<CollectionEvent>

    /** The buffers agree with the window, and a request in flight is one that was issued. */
    ghost predicate Valid()
      reads this
    {
      && BuffersValid(timeKey, isStrategyLatest, loaded, lastBounds, boundedTelemetry, futureBuffer, dataOutsideTimeBounds)
      && (requestAbort.Some? ==> requestAbort.value < |requests|)
    }

    constructor (strategy: Strategy, historical: bool, subscription: bool)
      ensures Valid()
      ensures isStrategyLatest == (strategy == Latest)
      ensures hasHistoricalProvider == historical && hasSubscriptionProvider == subscription
      ensures !loaded && boundedTelemetry == [] && futureBuffer == [] && lastBounds.None?
      ensures requestAbort.None? && requests == [] && events == []
      ensures !subscribed && !watchingBounds && !watchingTimeSystem
    {
      isStrategyLatest := strategy == Latest;
      hasHistoricalProvider, hasSubscriptionProvider := historical, subscription;
      loaded := false;
      boundedTelemetry, futureBuffer := [], [];
      timeKey := "";
      lastBounds, requestAbort := None, None;
      requests, events := [], [];
      subscribed, watchingBounds, watchingTimeSystem := false, false, false;
      dataOutsideTimeBounds := false;
    }

    /** `getAll`: the held, in-order telemetry of the window, never the future buffer. */
    function GetAll(): (r: seq<Datum>)
      reads this
      requires Valid()
      ensures r == boundedTelemetry
      ensures Sorted(timeKey, r) && Distinct(r)
      ensures lastBounds.Some? ==> WithinEnd(timeKey, r, lastBounds.value)
    {
      boundedTelemetry
    }

    /**
      `_handleDataOutsideBounds` / `_handleDataInsideBounds`: the flag records
      whether the buffer holds a datum before the window's start.
     */
    method UpdateOutsideBounds()
      requires lastBounds.Some? && Sorted(timeKey, boundedTelemetry)
      modifies this`dataOutsideTimeBounds
      ensures dataOutsideTimeBounds <==> HasStale(timeKey, boundedTelemetry, lastBounds.value)
    {
      dataOutsideTimeBounds := OutsideBounds(timeKey, boundedTelemetry, lastBounds.value);
    }

    /** `_requestHistoricalTelemetry`: with a historical provider, one request for the current window supersedes any request in flight. */
    method RequestHistoricalTelemetry()
      requires lastBounds.Some?
      requires requestAbort.Some? ==> requestAbort.value < |requests|
      modifies this`requests, this`requestAbort
      ensures requestAbort.Some? ==> requestAbort.value < |requests|
      ensures hasHistoricalProvider ==>
        requests == old(requests) + [lastBounds.value] && requestAbort == Some(|old(requests)|)
      ensures !hasHistoricalProvider ==> requests == old(requests) && requestAbort == old(requestAbort)
    {
      if hasHistoricalProvider {
        requestAbort := Some(|requests|);
        requests := requests + [lastBounds.value];
      }
    }

    /**
      `load`: applies the context's time system and bounds, registers the
      bounds and time-system listeners, issues the historical request and opens
      the subscription. Loading twice is an error that changes nothing.
      Loading while the context's bounds are still unset (`undefined` start
      and end), which `load` also does, is left out: the bounds are required
      to be valid.
     */
    method Load(system: TimeSystem, bounds: Bounds) returns (r: Outcome<string>)
      requires Valid() && ValidateBounds(bounds).valid
      modifies this
      ensures Valid()
      ensures old(loaded) ==> r == Fail(AlreadyLoadedMessage) && unchanged(this)
      ensures !old(loaded) ==>
        && r.Pass? && loaded
        && timeKey == system.key && lastBounds == Some(bounds)
        && watchingBounds && watchingTimeSystem && subscribed == hasSubscriptionProvider
        && requests == old(requests) + (if hasHistoricalProvider then [bounds] else [])
        && boundedTelemetry == [] && futureBuffer == [] && events == old(events)
    {
      if loaded {
        return Fail(AlreadyLoadedMessage);
      }
      assert boundedTelemetry == [] && futureBuffer == [] && !dataOutsideTimeBounds;
      EmptyBuffersValid(system.key, isStrategyLatest, bounds);
      timeKey, lastBounds, watchingBounds, watchingTimeSystem, subscribed, loaded :=
        system.key, Some(bounds), true, true, hasSubscriptionProvider, true;
      RequestHistoricalTelemetry();
      r := Pass;
    }

    /**
      `_processNewTelemetry`: the data the current window admits join the
      buffer in order and without duplicates, data after the window go to the
      future buffer, and the rest is dropped. Stale data are admitted only for
      greedy "latest" in real-time mode; under "latest" only the latest datum
      is retained. Newly held data are announced in one `add`.
     */
    method ProcessNewTelemetry(data: seq<Datum>, realTime: bool, greedyLAD: bool) returns (added: seq<Datum>)
      requires Valid() && lastBounds.Some?
      modifies this`boundedTelemetry, this`futureBuffer, this`dataOutsideTimeBounds, this`events
      ensures Valid()
      ensures futureBuffer == old(futureBuffer) + PastEndOf(timeKey, data, lastBounds.value)
      ensures !isStrategyLatest ==>
        && Elements(boundedTelemetry) == Elements(old(boundedTelemetry)) + Admissible(timeKey, Elements(data), lastBounds.value, false)
        && Distinct(added) && Elements(added) == Elements(boundedTelemetry) - Elements(old(boundedTelemetry))
        && events == old(events) + (if added == [] then [] else [Added(added)])
      ensures isStrategyLatest ==>
        && IsLatestOf(timeKey, boundedTelemetry,
             Elements(old(boundedTelemetry)) + Admissible(timeKey, Elements(data), lastBounds.value, greedyLAD && realTime))
        && added == (if boundedTelemetry == old(boundedTelemetry) then [] else boundedTelemetry)
        && events == old(events) + (if added == [] then [] else [Added(added)])
    {
      var key, held, b := timeKey, boundedTelemetry, lastBounds.value;
      var r, later;
      r, later, added := Intake(key, held, data, b, isStrategyLatest, isStrategyLatest && greedyLAD && realTime);
      IntakeValid(key, isStrategyLatest, loaded, lastBounds, r, futureBuffer, later);
      boundedTelemetry, futureBuffer, dataOutsideTimeBounds, events :=
        r, futureBuffer + later, OutsideBounds(key, r, b), events + (if added == [] then [] else [Added(added)]);
    }

    /**
      A historical batch arrives: only the batch of the request still in
      flight is processed, exactly as `ProcessNewTelemetry` processes it, and
      the request is done; a superseded batch changes nothing. `added` is what
      the `add` event announces.
     */
    method OnHistoricalData(requestId: nat, data: seq<Datum>, realTime: bool, greedyLAD: bool) returns (added: seq<Datum>)
      requires Valid() && lastBounds.Some?
      modifies this`boundedTelemetry, this`futureBuffer, this`dataOutsideTimeBounds, this`events, this`requestAbort
      ensures Valid()
      ensures old(requestAbort) != Some(requestId) ==> unchanged(this) && added == []
      ensures old(requestAbort) == Some(requestId) ==>
        && requestAbort.None?
        && futureBuffer == old(futureBuffer) + PastEndOf(timeKey, data, lastBounds.value)
        && events == old(events) + (if added == [] then [] else [Added(added)])
        && (!isStrategyLatest ==>
              && Elements(boundedTelemetry)
                   == Elements(old(boundedTelemetry)) + Admissible(timeKey, Elements(data), lastBounds.value, false)
              && Distinct(added) && Elements(added) == Elements(boundedTelemetry) - Elements(old(boundedTelemetry)))
        && (isStrategyLatest ==>
              && IsLatestOf(timeKey, boundedTelemetry,
                   Elements(old(boundedTelemetry)) + Admissible(timeKey, Elements(data), lastBounds.value, greedyLAD && realTime))
              && added == (if boundedTelemetry == old(boundedTelemetry) then [] else boundedTelemetry))
    {
      added := [];
      if requestAbort == Some(requestId) {
        requestAbort := None;
        added := ProcessNewTelemetry(data, realTime, greedyLAD);
      }
    }

    /**
      A real-time datum arrives through the open subscription and is
      processed as a batch of one. `added` is what the `add` event announces.
     */
    method OnRealtimeDatum(d: Datum, realTime: bool, greedyLAD: bool) returns (added: seq<Datum>)
      requires Valid() && lastBounds.Some? && subscribed
      modifies this`boundedTelemetry, this`futureBuffer, this`dataOutsideTimeBounds, this`events
      ensures Valid()
      ensures futureBuffer == old(futureBuffer) + PastEndOf(timeKey, [d], lastBounds.value)
      ensures events == old(events) + (if added == [] then [] else [Added(added)])
      ensures !isStrategyLatest ==>
        && Elements(boundedTelemetry) == Elements(old(boundedTelemetry)) + Admissible(timeKey, {d}, lastBounds.value, false)
        && Distinct(added) && Elements(added) == Elements(boundedTelemetry) - Elements(old(boundedTelemetry))
      ensures isStrategyLatest ==>
        && IsLatestOf(timeKey, boundedTelemetry,
             Elements(old(boundedTelemetry)) + Admissible(timeKey, {d}, lastBounds.value, greedyLAD && realTime))
        && added == (if boundedTelemetry == old(boundedTelemetry) then [] else boundedTelemetry)
    {
      assert Elements([d]) == {d};
      added := ProcessNewTelemetry([d], realTime, greedyLAD);
    }

    /**
      `_reset`: every held and pending datum is dropped, a `clear` is
      announced, and exactly one historical request for the current window is
      issued when a historical provider exists.
     */
    method Reset()
      requires loaded && lastBounds.Some? && lastBounds.value.start <= lastBounds.value.end
      requires requestAbort.Some? ==> requestAbort.value < |requests|
      modifies this`boundedTelemetry, this`futureBuffer, this`dataOutsideTimeBounds, this`events,
        this`requests, this`requestAbort
      ensures Valid()
      ensures boundedTelemetry == [] && futureBuffer == [] && !dataOutsideTimeBounds
      ensures events == old(events) + [Cleared]
      ensures hasHistoricalProvider ==>
        requests == old(requests) + [lastBounds.value] && requestAbort == Some(|old(requests)|)
      ensures !hasHistoricalProvider ==> requests == old(requests) && requestAbort == old(requestAbort)
    {
      boundedTelemetry, futureBuffer := [], [];
      dataOutsideTimeBounds := false;
      events := events + [Cleared];
      RequestHistoricalTelemetry();
    }

    /**
      `_bounds`: the window becomes `newBounds`. A tick patches the buffers
      (`ApplyTick`); any other change of bounds resets the collection, which
      issues a new historical request for the new window.
     */
    method OnBounds(newBounds: Bounds, isTick: bool, realTime: bool, greedyLAD: bool)
      returns (removed: seq<Datum>, added: seq<Datum>)
      requires Valid() && watchingBounds && lastBounds.Some? && ValidateBounds(newBounds).valid
      modifies this`boundedTelemetry, this`futureBuffer, this`dataOutsideTimeBounds, this`events,
        this`lastBounds, this`requests, this`requestAbort
      ensures Valid()
      ensures lastBounds == Some(newBounds)
      ensures isTick ==> requests == old(requests) && requestAbort == old(requestAbort)
      ensures !isTick ==>
        && boundedTelemetry == [] && futureBuffer == [] && events == old(events) + [Cleared]
        && requests == old(requests) + (if hasHistoricalProvider then [newBounds] else [])
        && removed == [] && added == []
    {
      if isTick {
        removed, added := ApplyTick(newBounds, realTime, greedyLAD);
      } else {
        lastBounds := Some(newBounds);
        Reset();
        removed, added := [], [];
      }
    }

    /**
      A tick of `_bounds`: held data before the new start are evicted (not
      the datum greedy "latest" retains in real-time mode), held data after the
      new end return to the future buffer, and pending data now inside the
      window are admitted. The data that left and joined the buffer are
      announced as one `remove` and one `add`; no request is issued.
     */
    method ApplyTick(newBounds: Bounds, realTime: bool, greedyLAD: bool)
      returns (removed: seq<Datum>, added: seq<Datum>)
      requires Valid() && lastBounds.Some? && ValidateBounds(newBounds).valid
      modifies this`boundedTelemetry, this`futureBuffer, this`dataOutsideTimeBounds, this`events, this`lastBounds
      ensures Valid()
      ensures lastBounds == Some(newBounds)
      ensures futureBuffer == PastEndOf(timeKey, old(futureBuffer), newBounds) + PastEndOf(timeKey, old(boundedTelemetry), newBounds)
      ensures !isStrategyLatest ==>
        Elements(boundedTelemetry)
          == Admissible(timeKey, Elements(old(boundedTelemetry)) + Elements(old(futureBuffer)), newBounds, false)
      ensures isStrategyLatest ==>
        IsLatestOf(timeKey, boundedTelemetry,
          Admissible(timeKey, Elements(old(boundedTelemetry)) + Elements(old(futureBuffer)), newBounds, greedyLAD && realTime))
      ensures Elements(removed) == Elements(old(boundedTelemetry)) - Elements(boundedTelemetry)
      ensures Elements(added) == Elements(boundedTelemetry) - Elements(old(boundedTelemetry))
      ensures events == old(events) + (if removed == [] then [] else [Removed(removed)])
                                    + (if added == [] then [] else [Added(added)])
    {
      var before := boundedTelemetry;
      RetimeBuffers(newBounds, isStrategyLatest && greedyLAD && realTime);
      removed := Difference(before, boundedTelemetry);
      added := Difference(boundedTelemetry, before);
      events := events + (if removed == [] then [] else [Removed(removed)])
                       + (if added == [] then [] else [Added(added)]);
    }

    /** The buffers and the window of a tick, without its announcements. */
    method RetimeBuffers(newBounds: Bounds, stale: bool)
      requires Valid() && lastBounds.Some? && ValidateBounds(newBounds).valid
      requires stale ==> isStrategyLatest
      modifies this`boundedTelemetry, this`futureBuffer, this`dataOutsideTimeBounds, this`lastBounds
      ensures Valid()
      ensures lastBounds == Some(newBounds)
      ensures futureBuffer == PastEndOf(timeKey, old(futureBuffer), newBounds) + PastEndOf(timeKey, old(boundedTelemetry), newBounds)
      ensures !isStrategyLatest ==>
        Elements(boundedTelemetry)
          == Admissible(timeKey, Elements(old(boundedTelemetry)) + Elements(old(futureBuffer)), newBounds, false)
      ensures isStrategyLatest ==>
        IsLatestOf(timeKey, boundedTelemetry,
          Admissible(timeKey, Elements(old(boundedTelemetry)) + Elements(old(futureBuffer)), newBounds, stale))
    {
      var key, held, future := timeKey, boundedTelemetry, futureBuffer;
      var r, future' := Retime(key, held, future, newBounds, isStrategyLatest, stale);
      boundedTelemetry, futureBuffer, lastBounds := r, future', Some(newBounds);
      UpdateOutsideBounds();
    }

    /**
      `_setTimeSystem` (through the `_setTimeSystemAndFetchData` listener):
      `parseTime` now reads the new system's key, and the collection is reset.
     */
    method SetTimeSystem(system: TimeSystem)
      requires Valid() && watchingTimeSystem && lastBounds.Some?
      modifies this`timeKey, this`boundedTelemetry, this`futureBuffer, this`dataOutsideTimeBounds, this`events,
        this`requests, this`requestAbort
      ensures Valid()
      ensures timeKey == system.key
      ensures boundedTelemetry == [] && futureBuffer == [] && events == old(events) + [Cleared]
      ensures requests == old(requests) + (if hasHistoricalProvider then [lastBounds.value] else [])
    {
      timeKey := system.key;
      Reset();
    }

    /**
      `destroy`: the request in flight is abandoned and the bounds,
      time-system and subscription listeners are removed. Destroying again
      finds nothing left to remove and changes nothing.
     */
    method Destroy()
      requires Valid()
      modifies this`requestAbort, this`watchingBounds, this`watchingTimeSystem, this`subscribed
      ensures Valid()
      ensures requestAbort.None? && !watchingBounds && !watchingTimeSystem && !subscribed
      ensures old(requestAbort).None? && !old(watchingBounds) && !old(watchingTimeSystem) && !old(subscribed) ==>
        unchanged(this)
    {
      requestAbort := None;
      watchingBounds, watchingTimeSystem, subscribed := false, false, false;
    }
  }
}
