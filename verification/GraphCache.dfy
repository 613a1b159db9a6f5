// The LRU simulation that predicts the CUDA graph-cache counters
// (tools/ablate_cuda_graph_cache.py), over any key sequence and any capacity.
//
// The simulation keeps a list of resident keys, oldest use first.  Its counters
// are specified here without a cache: a call hits exactly when fewer than
// `capacity` distinct keys were used since its key was last used.

module GraphCache {
  import opened Arithmetic
  import opened Wrappers

  type Key = int

  datatype Graph = Disabled | Update | Cache | Unknown

  datatype Counters = Counters(
    hits: int,
    misses: int,
    evictions: int,
    instantiations: int,
    updateAttempts: int,
    updateSuccesses: int,
    updateFailures: int,
    launches: int,
    invalidations: int,
    hostNanoseconds: int,
    residentEntries: int,
    peakEntries: int)

  const ZERO := Counters(0, 0, 0, 0, 0, 0, 0, 0, 0, 0, 0, 0)

  // ---------------------------------------------------------------- lists

  ghost function Keys(s: seq<Key>): set<Key> {
    set k | k in s
  }

  /** `list.remove`: drops the first occurrence. */
  function Remove(s: seq<Key>, k: Key): seq<Key> {
    if s == [] then [] else if s[0] == k then s[1..] else [s[0]] + Remove(s[1..], k)
  }

  /** The last `n` entries of `s`, or all of it. */
  function Last(s: seq<Key>, n: nat): seq<Key> {
    if |s| <= n then s else s[|s| - n..]
  }

  lemma {:induction false} KeysConcat(a: seq<Key>, b: seq<Key>)
    ensures Keys(a + b) == Keys(a) + Keys(b)
  {
    forall k ensures k in Keys(a + b) <==> k in Keys(a) + Keys(b) {
      assert k in a + b <==> k in a || k in b;
    }
  }

  lemma Assoc(a: seq<Key>, b: seq<Key>, c: seq<Key>)
    ensures a + (b + c) == (a + b) + c
  {
  }

  /** Removal acts on the half that holds the key. */
  lemma {:induction false} RemoveConcat(a: seq<Key>, b: seq<Key>, k: Key)
    ensures Remove(a + b, k) == if k in a then Remove(a, k) + b else a + Remove(b, k)
  {
    if a == [] {
      assert a + b == b;
    } else {
      assert (a + b)[1..] == a[1..] + b && a == [a[0]] + a[1..];
      if a[0] != k {
        RemoveConcat(a[1..], b, k);
        assert Remove(a + b, k) == [a[0]] + Remove(a[1..] + b, k);
        Assoc([a[0]], Remove(a[1..], k), b);
        Assoc([a[0]], a[1..], Remove(b, k));
      }
    }
  }

  lemma {:induction false} RemoveKeys(s: seq<Key>, k: Key)
    ensures Keys(Remove(s, k)) + {k} == Keys(s) + {k}
    ensures |Remove(s, k)| == |s| - (if k in s then 1 else 0)
    ensures k !in s ==> Remove(s, k) == s
  {
    if s != [] {
      assert s == [s[0]] + s[1..];
      KeysConcat([s[0]], s[1..]);
      if s[0] != k {
        RemoveKeys(s[1..], k);
        KeysConcat([s[0]], Remove(s[1..], k));
      }
    }
  }

  lemma {:induction false} RemoveDistinct(s: seq<Key>, k: Key)
    requires Distinct(s)
    ensures Distinct(Remove(s, k)) && k !in Remove(s, k)
    ensures forall x :: x in Remove(s, k) ==> x in s
  {
    if s != [] {
      assert forall x :: x in s[1..] ==> x in s;
      assert forall i :: 0 < i < |s| ==> s[i] != s[0];
      assert s[0] !in s[1..];
      if s[0] != k {
        RemoveDistinct(s[1..], k);
        assert s[0] !in Remove(s[1..], k);
      }
    }
  }

  lemma {:induction false} DistinctCount(s: seq<Key>)
    requires Distinct(s)
    ensures |Keys(s)| == |s|
  {
    if s != [] {
      var t := s[..|s| - 1];
      DistinctCount(t);
      assert s == t + [s[|s| - 1]];
      KeysConcat(t, [s[|s| - 1]]);
      assert s[|s| - 1] !in Keys(t) && Keys([s[|s| - 1]]) == {s[|s| - 1]};
    }
  }

  // ------------------------------------------------------- recency order

  /** The distinct keys of `t` in order of last use: an unbounded cache. */
  ghost function Recency(t: seq<Key>): (r: seq<Key>) {
    if t == [] then [] else
      var k := t[|t| - 1];
      Remove(Recency(t[..|t| - 1]), k) + [k]
  }

  lemma {:induction false} RecencyStep(u: seq<Key>, k: Key)
    ensures Recency(u + [k]) == Remove(Recency(u), k) + [k]
  {
    assert (u + [k])[..|u|] == u;
  }

  lemma {:induction false} AppendKeys(s: seq<Key>, k: Key)
    ensures Keys(s + [k]) == Keys(s) + {k}
    ensures Distinct(s) && k !in s ==> Distinct(s + [k])
  {
    KeysConcat(s, [k]);
  }

  lemma {:induction false} RecencyIsDistinct(t: seq<Key>)
    ensures Distinct(Recency(t))
    ensures Keys(Recency(t)) == Keys(t)
    ensures |Recency(t)| == |Keys(t)|
  {
    if t != [] {
      var u, k := t[..|t| - 1], t[|t| - 1];
      assert t == u + [k];
      RecencyIsDistinct(u);
      RecencyStep(u, k);
      RemoveDistinct(Recency(u), k);
      RemoveKeys(Recency(u), k);
      AppendKeys(u, k);
      AppendKeys(Remove(Recency(u), k), k);
    }
    DistinctCount(Recency(t));
  }

  /** The keys a cache of `capacity` holds after the calls `t`. */
  ghost function Resident(t: seq<Key>, capacity: nat): seq<Key> {
    Last(Recency(t), capacity)
  }

  /** Call `i` hits: some earlier use of its key is followed by fewer than
      `capacity` distinct keys. */
  ghost predicate Hit(t: seq<Key>, i: nat, capacity: nat)
    requires i < |t|
  {
    exists j :: 0 <= j < i && t[j] == t[i] && |Keys(t[j + 1..i])| < capacity
  }

  /** The number of calls in [lo, hi) that hit. */
  ghost function Hits(t: seq<Key>, lo: nat, hi: nat, capacity: nat): nat
    requires lo <= hi <= |t|
    decreases hi - lo
  {
    if lo == hi then 0 else Hits(t, lo, hi - 1, capacity) + (if Hit(t, hi - 1, capacity) then 1 else 0)
  }

  /** After its last use at `j`, the keys behind `t[j]` in recency order are
      exactly the keys used since. */
  lemma {:induction false} RecencySplit(t: seq<Key>, j: nat) returns (a: seq<Key>, b: seq<Key>)
    requires j < |t| && t[j] !in t[j + 1..]
    ensures Recency(t) == a + [t[j]] + b
    ensures Keys(b) == Keys(t[j + 1..])
  {
    var n := |t| - 1;
    var u, k, x := t[..n], t[j], t[n];
    assert t == u + [x];
    RecencyStep(u, x);
    if j == n {
      a, b := Remove(Recency(u), k), [];
    } else {
      assert t[j + 1..] == u[j + 1..] + [x];
      var a', b' := RecencySplit(u, j);
      AppendKeys(u[j + 1..], x);
      RemoveBeyond(a', k, b', x);
      RemoveKeys(b', x);
      a, b := Remove(a', x), (if x in a' then b' else Remove(b', x)) + [x];
      AppendKeys(b', x);
      AppendKeys(Remove(b', x), x);
      Assoc(a + [k], if x in a' then b' else Remove(b', x), [x]);
    }
  }

  /** Removing a key other than `k` leaves `k` between what was before and after it. */
  lemma {:induction false} RemoveBeyond(a: seq<Key>, k: Key, b: seq<Key>, x: Key)
    requires x != k
    ensures Remove(a + [k] + b, x) == Remove(a, x) + [k] + (if x in a then b else Remove(b, x))
  {
    RemoveConcat(a + [k], b, x);
    RemoveConcat(a, [k], x);
    RemoveKeys([k], x);
    RemoveKeys(a, x);
  }

  lemma {:induction false} LastUse(t: seq<Key>, k: Key) returns (j: nat)
    requires k in t
    ensures j < |t| && t[j] == k && k !in t[j + 1..]
  {
    var n := |t| - 1;
    if t[n] == k {
      j := n;
    } else {
      j := LastUse(t[..n], k);
      assert t[j + 1..] == t[..n][j + 1..] + [t[n]];
    }
  }

  /** A bounded cache hits exactly when the reuse distance is below its capacity. */
  lemma {:induction false} HitIffResident(t: seq<Key>, i: nat, capacity: nat)
    requires i < |t|
    ensures t[i] in Resident(t[..i], capacity) <==> Hit(t, i, capacity)
  {
    hide Recency;
    var u, k := t[..i], t[i];
    var r, o := Recency(u), Resident(u, capacity);
    RecencyIsDistinct(u);
    if k !in u {
      assert k !in Keys(r);
    } else {
      var j := LastUse(u, k);
      var a, b := RecencySplit(u, j);
      assert Distinct(b) by {
        assert forall x :: 0 <= x < |b| ==> b[x] == r[|a| + 1 + x];
      }
      DistinctCount(b);
      assert u[j + 1..] == t[j + 1..i];
      assert k in o <==> |b| < capacity by {
        if |b| < capacity {
          assert o[|o| - 1 - |b|] == k;
        } else {
          assert r[|a|] == k;
          assert forall x :: 0 <= x < |o| ==> o[x] == r[|r| - |o| + x];
        }
      }
      if Hit(t, i, capacity) {
        var j' :| 0 <= j' < i && t[j'] == t[i] && |Keys(t[j' + 1..i])| < capacity;
        assert j' <= j by {
          assert forall x :: j < x < i ==> t[x] == u[j + 1..][x - j - 1];
        }
        assert t[j' + 1..i] == t[j' + 1..j + 1] + t[j + 1..i];
        KeysConcat(t[j' + 1..j + 1], t[j + 1..i]);
        SubsetSize(Keys(t[j + 1..i]), Keys(t[j' + 1..i]));
      }
    }
  }

  // ------------------------------------------------------ the simulation

  /** What one call does to the bounded list. */
  function Touch(resident: seq<Key>, k: Key, capacity: nat): seq<Key>
    requires capacity > 0
  {
    (if k in resident then Remove(resident, k)
     else if |resident| == capacity then resident[1..] else resident) + [k]
  }

  lemma LastOfConcat(front: seq<Key>, o: seq<Key>, capacity: nat)
    requires |o| == capacity
    ensures Last(front + o, capacity) == o
  {
  }

  /** The halves of a duplicate-free list share no key. */
  lemma {:induction false} DistinctHalves(a: seq<Key>, b: seq<Key>, k: Key)
    requires Distinct(a + b)
    ensures !(k in a && k in b)
  {
    forall i, j | 0 <= i < |a| && 0 <= j < |b|
      ensures a[i] != b[j]
    {
      assert (a + b)[i] == a[i] && (a + b)[|a| + j] == b[j];
    }
  }

  lemma {:induction false} TouchHeld(front: seq<Key>, o: seq<Key>, k: Key)
    requires k in o && k !in front
    ensures Remove(front + o, k) + [k] == front + (Remove(o, k) + [k])
    ensures |Remove(o, k) + [k]| == |o|
  {
    RemoveConcat(front, o, k);
    RemoveKeys(o, k);
    Assoc(front, Remove(o, k), [k]);
  }

  lemma {:induction false} TouchOther(front: seq<Key>, o: seq<Key>, k: Key)
    requires k !in o && o != []
    ensures Remove(front + o, k) + [k] == (Remove(front, k) + [o[0]]) + (o[1..] + [k])
  {
    RemoveConcat(front, o, k);
    RemoveKeys(o, k);
    RemoveKeys(front, k);
    var front' := Remove(front, k);
    assert o == [o[0]] + o[1..];
    Assoc(front', [o[0]], o[1..]);
    Assoc(front' + [o[0]], o[1..], [k]);
  }

  lemma {:induction false} TouchLast(r: seq<Key>, k: Key, capacity: nat)
    requires capacity > 0 && Distinct(r)
    ensures Last(Remove(r, k) + [k], capacity) == Touch(Last(r, capacity), k, capacity)
  {
    hide Remove, Keys;
    if |r| <= capacity {
      RemoveKeys(r, k);
    } else {
      var front, o := r[..|r| - capacity], r[|r| - capacity..];
      assert r == front + o;
      if k in o {
        DistinctHalves(front, o, k);
        TouchHeld(front, o, k);
        LastOfConcat(front, Remove(o, k) + [k], capacity);
      } else {
        TouchOther(front, o, k);
        LastOfConcat(Remove(front, k) + [o[0]], o[1..] + [k], capacity);
      }
    }
  }

  /** One call moves the bounded list exactly as it moves the unbounded one. */
  lemma {:induction false} ResidentStep(t: seq<Key>, k: Key, capacity: nat)
    requires capacity > 0
    ensures Resident(t + [k], capacity) == Touch(Resident(t, capacity), k, capacity)
  {
    assert (t + [k])[..|t|] == t;
    RecencyIsDistinct(t);
    TouchLast(Recency(t), k, capacity);
  }

  lemma {:induction false} ResidentSize(t: seq<Key>, capacity: nat)
    ensures |Resident(t, capacity)| == Min(capacity, |Keys(t)|)
  {
    RecencyIsDistinct(t);
  }

  lemma {:induction false} HitsStep(t: seq<Key>, k: Key, capacity: nat)
    ensures var u := t + [k];
            Hits(u, 0, |u|, capacity) ==
              Hits(t, 0, |t|, capacity) + (if k in Resident(t, capacity) then 1 else 0)
  {
    var u := t + [k];
    assert u[..|t|] == t && u[|t|] == k;
    HitIffResident(u, |t|, capacity);
    HitsPrefix(u, |t|, 0, |t|, capacity);
  }

  /** One call moves the counters of a bounded cache by a hit or a miss. */
  lemma {:induction false} CountersStep(t: seq<Key>, k: Key, capacity: nat)
    requires capacity > 0
    ensures var o, c := Resident(t, capacity), CacheCounters(t, capacity);
            CacheCounters(t + [k], capacity) ==
              if k in o then c.(hits := c.hits + 1, launches := c.launches + 1)
              else c.(misses := c.misses + 1, instantiations := c.instantiations + 1,
                      evictions := c.evictions + (if |o| == capacity then 1 else 0),
                      launches := c.launches + 1,
                      residentEntries := |Touch(o, k, capacity)|, peakEntries := |Touch(o, k, capacity)|)
  {
    HitsStep(t, k, capacity);
    ResidentSize(t, capacity);
    ResidentSize(t + [k], capacity);
    ResidentStep(t, k, capacity);
    RemoveKeys(Resident(t, capacity), k);
  }

  /** The calls the loop makes: the sequence repeated for `calls` calls. */
  function Trace(sequence: seq<Key>, calls: nat): seq<Key>
    requires sequence != []
  {
    seq(calls, i requires 0 <= i => sequence[i % |sequence|])
  }

  lemma TraceStep(sequence: seq<Key>, n: nat)
    requires sequence != []
    ensures Trace(sequence, n + 1) == Trace(sequence, n) + [sequence[n % |sequence|]]
  {
  }

  lemma TracePrefix(sequence: seq<Key>, n: nat, m: nat)
    requires sequence != [] && n <= m
    ensures Trace(sequence, m)[..n] == Trace(sequence, n)
  {
  }

  /** Closed forms for all twelve counters of a bounded cache. */
  ghost function CacheCounters(t: seq<Key>, capacity: nat): Counters {
    var misses := |t| - Hits(t, 0, |t|, capacity);
    var resident := Min(capacity, |Keys(t)|);
    ZERO.(hits := Hits(t, 0, |t|, capacity),
          misses := misses,
          evictions := misses - resident,
          instantiations := misses,
          launches := |t|,
          residentEntries := resident,
          peakEntries := resident)
  }

  ghost function UpdateCounters(calls: nat): Counters {
    if calls == 0 then ZERO else
      ZERO.(instantiations := 1,
            updateAttempts := calls - 1,
            updateSuccesses := calls - 1,
            launches := calls,
            residentEntries := 1,
            peakEntries := 1)
  }

  ghost function Expected(sequence: seq<Key>, graph: Graph, entries: int, calls: nat): Result<Counters>
    requires sequence != []
  {
    match graph
    case Disabled => Ok(ZERO)
    case Update => Ok(UpdateCounters(calls))
    case Cache => if entries <= 0 then Err(InvalidGraphConfiguration)
                  else Ok(CacheCounters(Trace(sequence, calls), entries))
    case Unknown => Err(InvalidGraphConfiguration)
  }

  lemma {:induction false} HitsBound(t: seq<Key>, hi: nat, capacity: nat)
    requires hi <= |t|
    ensures 0 <= Hits(t, 0, hi, capacity) <= hi
    decreases hi
  {
    if hi > 0 {
      HitsBound(t, hi - 1, capacity);
    }
  }

  /** Every launch is accounted for, in every mode: it was found in the cache, updated in
      place, or instantiated; and what was instantiated and not evicted is resident. */
  lemma {:induction false} EveryLaunchAccounted(sequence: seq<Key>, graph: Graph, entries: int, calls: nat)
    requires sequence != [] && Expected(sequence, graph, entries, calls).Ok?
    ensures var c := Expected(sequence, graph, entries, calls).value;
            && c.launches == (if graph == Disabled then 0 else calls)
            && c.hits + c.updateSuccesses + c.instantiations == c.launches
            && c.hits + c.misses == (if graph == Cache then calls else 0)
            && c.instantiations - c.evictions == c.residentEntries == c.peakEntries
            && c.updateAttempts == c.updateSuccesses + c.updateFailures
            && (graph == Update ==> c.instantiations == Min(1, calls) && c.evictions == c.updateFailures == 0)
            && c.invalidations == c.hostNanoseconds == 0
            && 0 <= c.hits && 0 <= c.misses
  {
    if graph == Cache {
      HitsBound(Trace(sequence, calls), calls, entries);
    }
  }

  /** The calls start with the sequence and repeat it. */
  lemma {:induction false} TracePeriodic(sequence: seq<Key>, calls: nat, i: nat)
    requires sequence != [] && i < calls
    ensures |Trace(sequence, calls)| == calls
    ensures i < |sequence| ==> Trace(sequence, calls)[i] == sequence[i]
    ensures i >= |sequence| ==> Trace(sequence, calls)[i] == Trace(sequence, calls)[i - |sequence|]
  {
    if i >= |sequence| {
      OnePeriod(i - |sequence|, |sequence|);
    }
  }

  lemma {:induction false} OnePeriod(i: nat, n: nat)
    requires n > 0
    ensures (i + n) % n == i % n
  {
    Division(i + n, n, i / n + 1, i % n);
  }

  lemma {:induction false} HitPrefix(t: seq<Key>, n: nat, i: nat, capacity: nat)
    requires i < n <= |t|
    ensures Hit(t[..n], i, capacity) == Hit(t, i, capacity)
  {
    forall j | 0 <= j < i ensures t[..n][j] == t[j] && t[..n][j + 1..i] == t[j + 1..i] {
    }
  }

  lemma {:induction false} HitsPrefix(t: seq<Key>, n: nat, lo: nat, hi: nat, capacity: nat)
    requires lo <= hi <= n <= |t|
    ensures Hits(t[..n], lo, hi, capacity) == Hits(t, lo, hi, capacity)
    decreases hi
  {
    if lo < hi {
      HitsPrefix(t, n, lo, hi - 1, capacity);
      HitPrefix(t, n, hi - 1, capacity);
    }
  }

  /** The body of the loop: one call with `key`. */
  method Launch(resident: seq<Key>, counters: Counters, entries: nat, key: Key, ghost t: seq<Key>)
    returns (resident': seq<Key>, counters': Counters)
    requires entries > 0
    requires resident == Resident(t, entries)
    requires counters == CacheCounters(t, entries).(residentEntries := 0)
    ensures resident' == Resident(t + [key], entries)
    ensures counters' == CacheCounters(t + [key], entries).(residentEntries := 0)
  {
    ResidentStep(t, key, entries);
    CountersStep(t, key, entries);
    resident', counters' := resident, counters;
    if key in resident {
      counters' := counters'.(hits := counters.hits + 1);
      resident' := Remove(resident', key);
      resident' := resident' + [key];
    } else {
      counters' := counters'.(misses := counters.misses + 1, instantiations := counters.instantiations + 1);
      if |resident| == entries {
        resident' := resident'[1..];
        counters' := counters'.(evictions := counters.evictions + 1);
      }
      resident' := resident' + [key];
      ResidentSize(t, entries);
      counters' := counters'.(peakEntries := Max(counters.peakEntries, |resident'|));
    }
    counters' := counters'.(launches := counters.launches + 1);
  }

  method CounterSnapshot(sequence: seq<Key>, graph: Graph, entries: int, calls: nat)
    returns (r: Result<Counters>)
    requires sequence != []
    ensures r == Expected(sequence, graph, entries, calls)
  {
    var counters := ZERO;
    if graph == Disabled {
      return Ok(counters);
    }
    if graph == Update {
      if calls != 0 {
        counters := counters.(instantiations := 1, updateAttempts := calls - 1,
          updateSuccesses := calls - 1, launches := calls, residentEntries := 1, peakEntries := 1);
      }
      return Ok(counters);
    }
    if graph != Cache || entries <= 0 {
      return Err(InvalidGraphConfiguration);
    }
    var resident: seq<Key> := [];
    var call := 0;
    while call < calls
      invariant 0 <= call <= calls
      invariant resident == Resident(Trace(sequence, call), entries)
      invariant counters == CacheCounters(Trace(sequence, call), entries).(residentEntries := 0)
    {
      var key := sequence[call % |sequence|];
      resident, counters := Launch(resident, counters, entries, key, Trace(sequence, call));
      TraceStep(sequence, call);
      call := call + 1;
    }
    ResidentSize(Trace(sequence, calls), entries);
    counters := counters.(residentEntries := |resident|);
    return Ok(counters);
  }

  // ------------------------------------------------- laws of the counters

  /** A larger cache never hits less and never misses more, over any window. */
  lemma {:induction false} LargerCacheHitsMore(t: seq<Key>, lo: nat, hi: nat, c: nat, d: nat)
    requires c <= d && lo <= hi <= |t|
    ensures Hits(t, lo, hi, c) <= Hits(t, lo, hi, d)
    decreases hi
  {
    if lo < hi {
      LargerCacheHitsMore(t, lo, hi - 1, c, d);
    }
  }

  // ------------------------------------------------ the loop, from any list

  /** What the loop carries. */
  datatype Loop = Loop(resident: seq<Key>, hits: nat, misses: nat, evictions: nat)

  /** The body of the loop on one key. */
  function Turn(w: Loop, k: Key, capacity: nat): Loop
    requires capacity > 0
  {
    if k in w.resident then w.(resident := Touch(w.resident, k, capacity), hits := w.hits + 1)
    else w.(resident := Touch(w.resident, k, capacity), misses := w.misses + 1,
            evictions := w.evictions + (if |w.resident| == capacity then 1 else 0))
  }

  /** The loop over `t`, started with `start` resident. */
  function LoopFrom(start: seq<Key>, t: seq<Key>, capacity: nat): Loop
    requires capacity > 0
  {
    if t == [] then Loop(start, 0, 0, 0)
    else Turn(LoopFrom(start, t[..|t| - 1], capacity), t[|t| - 1], capacity)
  }

  lemma {:induction false} TouchKeepsDistinct(o: seq<Key>, k: Key, capacity: nat)
    requires capacity > 0 && Distinct(o) && |o| <= capacity
    ensures Distinct(Touch(o, k, capacity))
    ensures |Touch(o, k, capacity)| == |o| + (if k in o || |o| == capacity then 0 else 1) <= capacity
  {
    if k in o {
      RemoveKeys(o, k);
      RemoveDistinct(o, k);
      AppendKeys(Remove(o, k), k);
    } else {
      AppendKeys(o, k);
      AppendKeys(if |o| == capacity then o[1..] else o, k);
    }
  }

  /** The counters balance from any warm list: every launch is a hit or a miss, and what
      was inserted and not evicted was added to the residents, which stay distinct, never
      shrink, and stay within capacity. */
  lemma {:induction false} CountersBalance(start: seq<Key>, t: seq<Key>, capacity: nat)
    requires capacity > 0 && Distinct(start) && |start| <= capacity
    ensures var w := LoopFrom(start, t, capacity);
            && w.hits + w.misses == |t|
            && |start| + w.misses - w.evictions == |w.resident|
            && Distinct(w.resident) && |start| <= |w.resident| <= capacity
  {
    if t != [] {
      var u, k := t[..|t| - 1], t[|t| - 1];
      CountersBalance(start, u, capacity);
      hide Touch;
      TouchKeepsDistinct(LoopFrom(start, u, capacity).resident, k, capacity);
    }
  }

  /** Hits of a window of calls do not depend on the calls after it. */
  lemma {:induction false} HitsSplit(t: seq<Key>, mid: nat, hi: nat, capacity: nat)
    requires mid <= hi <= |t|
    ensures Hits(t, 0, hi, capacity) == Hits(t, 0, mid, capacity) + Hits(t, mid, hi, capacity)
    decreases hi
  {
    if mid < hi {
      HitsSplit(t, mid, hi - 1, capacity);
    }
  }

  function Difference(after: Counters, before: Counters): Counters {
    Counters(after.hits - before.hits, after.misses - before.misses,
             after.evictions - before.evictions, after.instantiations - before.instantiations,
             after.updateAttempts - before.updateAttempts,
             after.updateSuccesses - before.updateSuccesses,
             after.updateFailures - before.updateFailures,
             after.launches - before.launches, after.invalidations - before.invalidations,
             after.hostNanoseconds - before.hostNanoseconds,
             after.residentEntries, after.peakEntries)
  }

  /** The measured calls alone: the loop over calls [first, |t|), from the list the
      calls before them left.  Residency stays absolute. */
  ghost function WindowCounters(t: seq<Key>, first: nat, capacity: nat): Counters
    requires first <= |t| && capacity > 0
  {
    var w := LoopFrom(Resident(t[..first], capacity), t[first..], capacity);
    ZERO.(hits := w.hits, misses := w.misses, instantiations := w.misses, evictions := w.evictions,
          launches := |t| - first, residentEntries := |w.resident|, peakEntries := |w.resident|)
  }

  /** The warm loop ends with the list of the whole trace, and adds its counts. */
  lemma {:induction false} LoopContinues(t: seq<Key>, first: nat, capacity: nat)
    requires first <= |t| && capacity > 0
    ensures var w := LoopFrom(Resident(t[..first], capacity), t[first..], capacity);
            var before, after := CacheCounters(t[..first], capacity), CacheCounters(t, capacity);
            && w.resident == Resident(t, capacity)
            && w.hits == after.hits - before.hits && w.misses == after.misses - before.misses
            && w.evictions == after.evictions - before.evictions
    decreases |t|
  {
    hide CacheCounters, Resident, Touch;
    if first == |t| {
      assert t[..first] == t && t[first..] == [];
    } else {
      var u, k := t[..|t| - 1], t[|t| - 1];
      assert u[..first] == t[..first] && u[first..] == t[first..][..|t[first..]| - 1];
      assert t == u + [k];
      LoopContinues(u, first, capacity);
      CountersStep(u, k, capacity);
      ResidentStep(u, k, capacity);
    }
  }

  lemma {:induction false} DifferenceIsWindow(t: seq<Key>, first: nat, capacity: nat)
    requires first <= |t| && capacity > 0
    ensures Difference(CacheCounters(t, capacity), CacheCounters(t[..first], capacity)) ==
            WindowCounters(t, first, capacity)
  {
    hide Hits, LoopFrom;
    LoopContinues(t, first, capacity);
    ResidentSize(t, capacity);
  }

  /** Started empty, the loop keeps the most recent part of the keys in order of last use. */
  lemma {:induction false} LoopIsRecency(t: seq<Key>, capacity: nat)
    requires capacity > 0
    ensures LoopFrom([], t, capacity).resident == Resident(t, capacity)
  {
    assert t[0..] == t && t[..0] == [];
    LoopContinues(t, 0, capacity);
  }

  /** Inclusion: after the same calls the list of a smaller cache is the most
      recent part of the list of a larger one. */
  lemma {:induction false} StackProperty(t: seq<Key>, c: nat, d: nat)
    requires 0 < c <= d
    ensures LoopFrom([], t, c).resident == Last(LoopFrom([], t, d).resident, c)
  {
    hide LoopFrom, Recency;
    LoopIsRecency(t, c);
    LoopIsRecency(t, d);
  }

  /** Over a window the warm loop hits as often as reuse distances say. */
  lemma {:induction false} WindowHits(t: seq<Key>, first: nat, capacity: nat)
    requires first <= |t| && capacity > 0
    ensures WindowCounters(t, first, capacity).hits == Hits(t, first, |t|, capacity)
  {
    hide LoopFrom;
    LoopContinues(t, first, capacity);
    HitsPrefix(t, first, 0, first, capacity);
    HitsSplit(t, first, |t|, capacity);
  }

  /** Warm up with one and `warmup` more calls, then count `iterations` calls.  An
      updated graph was instantiated during the warm-up, so each measured call updates it. */
  method ExpectedGraphCounters(sequence: seq<Key>, graph: Graph, entries: int, warmup: nat, iterations: nat)
    returns (r: Result<Counters>)
    requires sequence != []
    ensures r.Err? <==> graph == Unknown || (graph == Cache && entries <= 0)
    ensures r.Ok? && graph == Disabled ==> r.value == ZERO
    ensures r.Ok? && graph == Update ==>
      r.value == ZERO.(updateAttempts := iterations, updateSuccesses := iterations, launches := iterations,
                       residentEntries := 1, peakEntries := 1)
    ensures r.Ok? && graph == Cache ==>
      r.value == WindowCounters(Trace(sequence, 1 + warmup + iterations), 1 + warmup, entries)
  {
    var before := CounterSnapshot(sequence, graph, entries, 1 + warmup);
    var after := CounterSnapshot(sequence, graph, entries, 1 + warmup + iterations);
    if before.Err? {
      return before;
    }
    if graph == Cache {
      TracePrefix(sequence, 1 + warmup, 1 + warmup + iterations);
      DifferenceIsWindow(Trace(sequence, 1 + warmup + iterations), 1 + warmup, entries);
    }
    return Ok(Difference(after.value, before.value));
  }

  // ------------------------------------------------------- cyclic traces

  lemma {:induction false} ModEqualFar(i: nat, j: nat, p: nat)
    requires p > 0 && j < i && i % p == j % p
    ensures j + p <= i
  {
    var d := i / p - j / p;
    assert i - j == p * d;
    SmallProduct(p, d);
  }

  lemma {:induction false} ModShift(i: nat, p: nat)
    requires 0 < p <= i
    ensures (i - p) % p == i % p
  {
    Division(i - p, p, i / p - 1, i % p);
  }

  /** The trace has period `p`, and a key recurs no sooner than that. */
  ghost predicate Cyclic(t: seq<Key>, p: nat) {
    && p > 0
    && (forall i :: p <= i < |t| ==> t[i - p] == t[i])
    && (forall i, j :: 0 <= j < i < |t| && t[j] == t[i] ==> j + p <= i)
  }

  lemma {:induction false} TraceIsCyclic(sequence: seq<Key>, calls: nat)
    requires sequence != [] && Distinct(sequence)
    ensures Cyclic(Trace(sequence, calls), |sequence|)
  {
    var t, p := Trace(sequence, calls), |sequence|;
    forall i | p <= i < calls ensures t[i - p] == t[i] {
      ModShift(i, p);
    }
    forall i, j | 0 <= j < i < |t| && t[j] == t[i] ensures j + p <= i {
      assert sequence[j % p] == sequence[i % p];
      ModEqualFar(i, j, p);
    }
  }

  lemma {:induction false} CycleTail(t: seq<Key>, p: nat, i: nat)
    requires Cyclic(t, p) && p <= i < |t|
    ensures |Keys(t[i - p + 1..i])| == p - 1
  {
    var w := t[i - p + 1..i];
    forall a, b | 0 <= a < b < |w| ensures w[a] != w[b] {
      assert w[a] == t[i - p + 1 + a] && w[b] == t[i - p + 1 + b];
    }
    DistinctCount(w);
  }

  /** In a trace that cycles through `p` distinct keys, a call hits exactly when
      a full cycle came before it and the whole cycle fits the cache. */
  lemma {:induction false} CyclicHit(t: seq<Key>, p: nat, i: nat, capacity: nat)
    requires Cyclic(t, p) && i < |t|
    ensures Hit(t, i, capacity) <==> p <= i && p <= capacity
  {
    forall j | 0 <= j < i && t[j] == t[i]
      ensures j + p <= i && |Keys(t[j + 1..i])| >= p - 1
    {
      CycleTail(t, p, i);
      assert t[j + 1..i] == t[j + 1..i - p + 1] + t[i - p + 1..i];
      KeysConcat(t[j + 1..i - p + 1], t[i - p + 1..i]);
      SubsetSize(Keys(t[i - p + 1..i]), Keys(t[j + 1..i]));
    }
    if p <= i {
      CycleTail(t, p, i);
      assert t[i - p] == t[i];
    }
  }

  lemma {:induction false} CyclicHits(t: seq<Key>, p: nat, n: nat, capacity: nat)
    requires Cyclic(t, p) && n <= |t|
    ensures Hits(t, 0, n, capacity) == if p <= capacity then Max(0, n - p) else 0
    decreases n
  {
    if n > 0 {
      CyclicHits(t, p, n - 1, capacity);
      CyclicHit(t, p, n - 1, capacity);
    }
  }

  lemma {:induction false} KeysNext(u: seq<Key>, k: Key)
    ensures |Keys(u + [k])| == |Keys(u)| + (if k in u then 0 else 1)
  {
    AppendKeys(u, k);
    if k in u {
      assert Keys(u) + {k} == Keys(u);
    } else {
      assert k !in Keys(u);
    }
  }

  /** A key of a cyclic trace is old exactly after the first cycle. */
  lemma {:induction false} CyclicKeyIsOld(t: seq<Key>, p: nat, i: nat)
    requires Cyclic(t, p) && i < |t|
    ensures t[i] in t[..i] <==> p <= i
  {
    if p <= i {
      assert t[..i][i - p] == t[i - p] == t[i];
    }
    if t[i] in t[..i] {
      var j :| 0 <= j < i && t[..i][j] == t[i];
      assert t[j] == t[i];
    }
  }

  lemma {:induction false} CyclicKeys(t: seq<Key>, p: nat, n: nat)
    requires Cyclic(t, p) && n <= |t|
    ensures |Keys(t[..n])| == Min(n, p)
    decreases n
  {
    hide Keys;
    if n > 0 {
      CyclicKeys(t, p, n - 1);
      CyclicKeyIsOld(t, p, n - 1);
      hide Cyclic;
      assert t[..n] == t[..n - 1] + [t[n - 1]];
      KeysNext(t[..n - 1], t[n - 1]);
    } else {
      NoKeys(t);
    }
  }

  lemma NoKeys(t: seq<Key>)
    ensures |Keys(t[..0])| == 0
  {
  }

  /** Cyclic workloads either thrash completely or miss only on the first cycle. */
  lemma {:induction false} CyclicCounters(sequence: seq<Key>, calls: nat, capacity: nat)
    requires sequence != [] && Distinct(sequence)
    ensures var c := CacheCounters(Trace(sequence, calls), capacity);
            if |sequence| > capacity
            then c.hits == 0 && c.misses == calls && c.evictions == Max(0, calls - capacity)
            else c.misses == Min(calls, |sequence|) && c.evictions == 0
  {
    var t := Trace(sequence, calls);
    TraceIsCyclic(sequence, calls);
    CyclicHits(t, |sequence|, calls, capacity);
    CyclicKeys(t, |sequence|, calls);
    assert t[..calls] == t;
  }

  /** Two keys in turn never meet again in a cache of one. */
  lemma {:induction false} TwoKeysThrash(calls: nat)
    ensures var c := CacheCounters(Trace([7, 8], calls), 1);
            c.hits == 0 && c.misses == calls && c.evictions == Max(0, calls - 1)
  {
    CyclicCounters([7, 8], calls, 1);
  }
}
