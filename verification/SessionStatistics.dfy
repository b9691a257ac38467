/** The statistics of one RIFE session (Runtime::begin_session, process, stats and
    record_inference in dev/windows/mpv/rife_runtime.cpp): counters and a histogram
    from which the 95th percentile of the inference time is read back.
    Milliseconds are exact non-negative reals and 0.95 is 19/20. */
module SessionStatistics {
  import opened SceneClassifier

  const BUCKETS: nat := 4001

  type Milliseconds = x: real | x >= 0.0

  /** What one call of process meets. */
  datatype Call =
    | Unclassified                                         // a texture, a view or the scene pass failed
    | Pair(scene: SceneClass, completes: bool, milliseconds: Milliseconds) // a copy for a hard cut, inference otherwise

  predicate Failed(call: Call) {
    call.Unclassified? || !call.completes
  }

  predicate Cut(call: Call) {
    call.Pair? && call.scene == HardCut && call.completes
  }

  predicate Inferred(call: Call) {
    call.Pair? && call.scene != HardCut && call.completes
  }

  /** Bucket of a duration: 0.025 ms each, the last one open-ended. */
  function Bucket(milliseconds: Milliseconds): (b: nat)
    ensures b < BUCKETS
    ensures b < BUCKETS - 1 ==> b as real * 0.025 <= milliseconds < (b + 1) as real * 0.025
    ensures b == BUCKETS - 1 <==> milliseconds >= 100.0
  {
    var exact := (milliseconds / 0.025).Floor;
    if exact < BUCKETS - 1 then exact else BUCKETS - 1
  }

  /** Durations of the inferred pairs, in order. */
  function Durations(calls: seq<Call>): (ds: seq<Milliseconds>)
  {
    if calls == [] then []
    else
      var c, before := calls[|calls| - 1], Durations(calls[..|calls| - 1]);
      if Inferred(c) then before + [c.milliseconds] else before
  }

  function CountFailed(calls: seq<Call>): (n: nat) {
    if calls == [] then 0
    else CountFailed(calls[..|calls| - 1]) + if Failed(calls[|calls| - 1]) then 1 else 0
  }

  function CountCuts(calls: seq<Call>): (n: nat) {
    if calls == [] then 0
    else CountCuts(calls[..|calls| - 1]) + if Cut(calls[|calls| - 1]) then 1 else 0
  }

  function CountClass(calls: seq<Call>, scene: SceneClass): (n: nat) {
    if calls == [] then 0
    else
      var c := calls[|calls| - 1];
      CountClass(calls[..|calls| - 1], scene) + if c.Pair? && c.scene == scene then 1 else 0
  }

  function CountBucket(ds: seq<Milliseconds>, b: nat): (n: nat)
  {
    if ds == [] then 0
    else CountBucket(ds[..|ds| - 1], b) + if Bucket(ds[|ds| - 1]) == b then 1 else 0
  }

  function Index(scene: SceneClass): (i: nat)
    ensures i < 5
  {
    match scene
    case Normal => 0
    case Flash => 1
    case FadeDissolve => 2
    case HardCut => 3
    case Uncertain => 4
  }

  // The codes of rife_runtime.h, by which callers read scene_classes.
  const RIFE_SCENE_NORMAL := 0
  const RIFE_SCENE_FLASH := 1
  const RIFE_SCENE_FADE_DISSOLVE := 2
  const RIFE_SCENE_HARD_CUT := 3
  const RIFE_SCENE_UNCERTAIN := 4

  /** Each class has its own counter, at its code. */
  lemma IndexIsCode(scene: SceneClass, other: SceneClass)
    ensures Index(Normal) == RIFE_SCENE_NORMAL && Index(Flash) == RIFE_SCENE_FLASH
    ensures Index(FadeDissolve) == RIFE_SCENE_FADE_DISSOLVE && Index(HardCut) == RIFE_SCENE_HARD_CUT
    ensures Index(Uncertain) == RIFE_SCENE_UNCERTAIN
    ensures Index(scene) == Index(other) ==> scene == other
  {
  }

  // ---------------------------------------------------------------- the session

  class Session {
    var pairs: nat
    var sceneCuts: nat
    var inferredPairs: nat
    var failures: nat
    const sceneClasses: array<nat>
    const histogram: array<nat>
    ghost var calls: seq<Call>

    ghost predicate Valid()
      reads this, sceneClasses, histogram
    {
      && sceneClasses.Length == 5 && histogram.Length == BUCKETS && sceneClasses != histogram
      && failures == CountFailed(calls)
      && sceneCuts == CountCuts(calls)
      && inferredPairs == |Durations(calls)|
      && (forall scene :: sceneClasses[Index(scene)] == CountClass(calls, scene))
      && pairs == sceneClasses[0] + sceneClasses[1] + sceneClasses[2] + sceneClasses[3] + sceneClasses[4]
      && (forall b | 0 <= b < BUCKETS :: histogram[b] == CountBucket(Durations(calls), b))
    }

    constructor ()
      ensures Valid() && calls == [] && fresh(sceneClasses) && fresh(histogram)
    {
      pairs, sceneCuts, inferredPairs, failures, calls := 0, 0, 0, 0, [];
      sceneClasses := new nat[5](_ => 0);
      histogram := new nat[BUCKETS](_ => 0);
    }

    method RecordInference(milliseconds: Milliseconds)
      requires histogram.Length == BUCKETS 
      modifies histogram
      ensures forall b | 0 <= b < BUCKETS ::
        histogram[b] == old(histogram[b]) + if b == Bucket(milliseconds) then 1 else 0
    {
      var bucket := Bucket(milliseconds);
      histogram[bucket] := histogram[bucket] + 1;
    }

    method Process(call: Call) returns (ok: bool)
      requires Valid()
      modifies this, sceneClasses, histogram
      ensures Valid() && calls == old(calls) + [call]
      ensures ok <==> Cut(call) || Inferred(call)
    {
      ghost var before := calls;
      calls := calls + [call];
      CallsGrow(before, call);
      if call.Unclassified? {
        failures := failures + 1;
        return false;
      }
      pairs := pairs + 1;
      sceneClasses[Index(call.scene)] := sceneClasses[Index(call.scene)] + 1;
      if !call.completes {
        failures := failures + 1;
        return false;
      }
      if call.scene == HardCut {
        sceneCuts := sceneCuts + 1;
      } else {
        RecordInference(call.milliseconds);
        inferredPairs := inferredPairs + 1;
      }
      return true;
    }

    method BeginSession()
      requires Valid()
      modifies this, sceneClasses, histogram
      ensures Valid() && calls == []
    {
      pairs, sceneCuts, inferredPairs, failures, calls := 0, 0, 0, 0, [];
      forall i | 0 <= i < 5 {
        sceneClasses[i] := 0;
      }
      forall b | 0 <= b < BUCKETS {
        histogram[b] := 0;
      }
    }

    /** In any sorted arrangement of the recorded durations, the one at position
        ceil(19n/20) lies in the bucket whose lower end is reported. */
    method P95() returns (p95: Milliseconds)
      requires Valid()
      ensures Durations(calls) == [] ==> p95 == 0.0
      ensures Durations(calls) != [] ==>
        forall ordered | IsSortingOf(ordered, Durations(calls)) :: IsP95(ordered, p95)
    {
      ghost var ds := Durations(calls);
      p95 := 0.0;
      if inferredPairs == 0 {
        return;
      }
      var target := Rank(inferredPairs);
      var accumulated := 0;
      AllBelow(ds);
      for index := 0 to BUCKETS
        invariant accumulated == CountBelow(ds, index) && accumulated < target
      {
        accumulated := accumulated + histogram[index];
        BelowGrows(ds, index);
        if accumulated >= target {
          p95 := index as real * 0.025;
          forall ordered | IsSortingOf(ordered, ds)
            ensures IsP95(ordered, p95)
          {
            SelectedBucket(ordered, ds, index);
          }
          return;
        }
      }
    }
  }

  /** The lower end of the bucket of the duration with the rank of the percentile:
      within one bucket width of it, unless that duration is off the scale. */
  predicate IsP95(ordered: seq<Milliseconds>, p95: Milliseconds) {
    && ordered != []
    && var d := ordered[Rank(|ordered|) - 1];
       && p95 == Bucket(d) as real * 0.025
       && (d < 100.0 ==> p95 <= d < p95 + 0.025)
       && (d >= 100.0 ==> p95 == 100.0)
  }

  /** How one more call moves every count. */
  lemma CallsGrow(calls: seq<Call>, c: Call)
    ensures CountFailed(calls + [c]) == CountFailed(calls) + if Failed(c) then 1 else 0
    ensures CountCuts(calls + [c]) == CountCuts(calls) + if Cut(c) then 1 else 0
    ensures |Durations(calls + [c])| == |Durations(calls)| + if Inferred(c) then 1 else 0
    ensures forall scene :: CountClass(calls + [c], scene)
                         == CountClass(calls, scene) + if c.Pair? && c.scene == scene then 1 else 0
    ensures forall b :: CountBucket(Durations(calls + [c]), b)
                     == CountBucket(Durations(calls), b) + if Inferred(c) && b == Bucket(c.milliseconds) then 1 else 0
  {
    assert (calls + [c])[..|calls|] == calls;
    if Inferred(c) {
      OneMoreDuration(Durations(calls), c.milliseconds);
    }
  }

  lemma OneMoreDuration(ds: seq<Milliseconds>, d: Milliseconds)
    ensures forall b :: CountBucket(ds + [d], b) == CountBucket(ds, b) + if b == Bucket(d) then 1 else 0
  {
    assert (ds + [d])[..|ds|] == ds;
  }

  // ---------------------------------------------------------------- the percentile

  /** ceil(19n/20), counting from 1. */
  function Rank(n: nat): (r: nat)
    requires n > 0
    ensures 1 <= r <= n && 20 * (r - 1) < 19 * n <= 20 * r
  {
    (19 * n + 19) / 20
  }

  predicate Sorted(ds: seq<Milliseconds>) {
    forall i, j | 0 <= i < j < |ds| :: ds[i] <= ds[j]
  }

  predicate IsSortingOf(ordered: seq<Milliseconds>, ds: seq<Milliseconds>) {
    Sorted(ordered) && multiset(ordered) == multiset(ds)
  }

  /** Durations in a bucket before b. */
  function CountBelow(ds: seq<Milliseconds>, b: nat): (n: nat)
    ensures n <= |ds|
  {
    if ds == [] then 0
    else CountBelow(ds[..|ds| - 1], b) + if Bucket(ds[|ds| - 1]) < b then 1 else 0
  }

  lemma {:induction false} BelowGrows(ds: seq<Milliseconds>, b: nat)
    ensures CountBelow(ds, b + 1) == CountBelow(ds, b) + CountBucket(ds, b)
  {
    if ds != [] {
      BelowGrows(ds[..|ds| - 1], b);
    }
  }

  lemma {:induction false} AllBelow(ds: seq<Milliseconds>)
    ensures CountBelow(ds, BUCKETS) == |ds|
    ensures CountBelow(ds, 0) == 0
  {
    if ds != [] {
      AllBelow(ds[..|ds| - 1]);
    }
  }

  lemma BucketMonotone(x: Milliseconds, y: Milliseconds)
    requires x <= y
    ensures Bucket(x) <= Bucket(y)
  {
    assert x / 0.025 <= y / 0.025;
  }

  /** In sorted order, exactly the positions before CountBelow hold the smaller buckets. */
  lemma {:induction false} SortedSplit(ordered: seq<Milliseconds>, b: nat, k: nat)
    requires Sorted(ordered) && k < |ordered|
    ensures Bucket(ordered[k]) < b <==> k < CountBelow(ordered, b)
  {
    var last := |ordered| - 1;
    if k < last {
      SortedSplit(ordered[..last], b, k);
      BucketMonotone(ordered[k], ordered[last]);
    } else if k > 0 {
      SortedSplit(ordered[..last], b, k - 1);
      BucketMonotone(ordered[k - 1], ordered[k]);
    }
  }

  lemma {:induction false} BelowAppends(x: seq<Milliseconds>, y: seq<Milliseconds>, b: nat)
    ensures CountBelow(x + y, b) == CountBelow(x, b) + CountBelow(y, b)
  {
    if y == [] {
      assert x + y == x;
    } else {
      BelowAppends(x, y[..|y| - 1], b);
      assert (x + y)[..|x + y| - 1] == x + y[..|y| - 1];
    }
  }

  lemma BelowWithout(y: seq<Milliseconds>, i: nat, b: nat)
    requires i < |y|
    ensures CountBelow(y, b) == CountBelow(y[..i] + y[i + 1..], b) + if Bucket(y[i]) < b then 1 else 0
  {
    BelowAppends(y[..i], y[i + 1..], b);
    BelowAppends(y[..i + 1], y[i + 1..], b);
    assert y == y[..i + 1] + y[i + 1..] && y[..i + 1][..i] == y[..i];
  }

  lemma Without<T>(s: seq<T>, i: nat)
    requires i < |s|
    ensures multiset(s) == multiset(s[..i] + s[i + 1..]) + multiset{s[i]}
  {
    assert s == s[..i] + [s[i]] + s[i + 1..];
  }

  lemma Cancel<T>(a: multiset<T>, b: multiset<T>, e: T)
    requires a + multiset{e} == b + multiset{e}
    ensures a == b
  {
    assert (a + multiset{e}) - multiset{e} == a;
    assert (b + multiset{e}) - multiset{e} == b;
  }

  lemma {:induction false} BelowOfPermutation(x: seq<Milliseconds>, y: seq<Milliseconds>, b: nat)
    requires multiset(x) == multiset(y)
    ensures CountBelow(x, b) == CountBelow(y, b)
    decreases |x|
  {
    if x == [] {
      assert y == [];
    } else {
      var last := |x| - 1;
      assert x[last] in multiset(x);
      var i :| 0 <= i < |y| && y[i] == x[last];
      var rest := y[..i] + y[i + 1..];
      Without(x, last);
      Without(y, i);
      assert x[..last] + x[last + 1..] == x[..last];
      Cancel(multiset(x[..last]), multiset(rest), y[i]);
      BelowOfPermutation(x[..last], rest, b);
      BelowWithout(y, i, b);
    }
  }

  lemma SelectedBucket(ordered: seq<Milliseconds>, ds: seq<Milliseconds>, index: nat)
    requires ds != [] && IsSortingOf(ordered, ds)
    requires CountBelow(ds, index) < Rank(|ds|) <= CountBelow(ds, index + 1)
    ensures |ordered| == |ds|
    ensures Bucket(ordered[Rank(|ordered|) - 1]) == index
  {
    assert |multiset(ordered)| == |multiset(ds)|;
    BelowOfPermutation(ordered, ds, index);
    BelowOfPermutation(ordered, ds, index + 1);
    SortedSplit(ordered, index, Rank(|ordered|) - 1);
    SortedSplit(ordered, index + 1, Rank(|ordered|) - 1);
  }

  function Insert(ordered: seq<Milliseconds>, d: Milliseconds): (r: seq<Milliseconds>)
    requires Sorted(ordered)
    ensures Sorted(r) && multiset(r) == multiset(ordered) + multiset{d}
    ensures forall e | e in r :: e == d || e in ordered
  {
    var last := |ordered| - 1;
    if ordered == [] || ordered[last] <= d then ordered + [d]
    else
      assert ordered == ordered[..last] + [ordered[last]];
      var r := Insert(ordered[..last], d);
      SortedSnoc(r, ordered[last]);
      r + [ordered[last]]
  }

  lemma SortedSnoc(ordered: seq<Milliseconds>, d: Milliseconds)
    requires Sorted(ordered) && forall e | e in ordered :: e <= d
    ensures Sorted(ordered + [d])
  {
    forall i | 0 <= i < |ordered|
      ensures ordered[i] <= d
    {
      assert ordered[i] in ordered;
    }
  }

  /** Every list of durations has a sorted arrangement. */
  lemma {:induction false} SortingExists(ds: seq<Milliseconds>)
    ensures exists ordered :: IsSortingOf(ordered, ds)
  {
    if ds == [] {
      assert IsSortingOf(ds, ds);
    } else {
      var last := |ds| - 1;
      SortingExists(ds[..last]);
      var rest :| IsSortingOf(rest, ds[..last]);
      assert ds == ds[..last] + [ds[last]];
      assert IsSortingOf(Insert(rest, ds[last]), ds);
    }
  }

  // ---------------------------------------------------------------- conservation

  /** Main result: every call is exactly one of inferred, cut or failed; every
      classified pair is counted in exactly one class, which bounds the other counters. */
  lemma {:induction false} CallsAreConserved(calls: seq<Call>)
    ensures |calls| == |Durations(calls)| + CountCuts(calls) + CountFailed(calls)
    ensures CountCuts(calls) <= CountClass(calls, HardCut)
    ensures |Durations(calls)| <= CountClass(calls, Normal) + CountClass(calls, Flash)
                                + CountClass(calls, FadeDissolve) + CountClass(calls, Uncertain)
    ensures |calls| <= CountFailed(calls) + CountClass(calls, Normal) + CountClass(calls, Flash)
                     + CountClass(calls, FadeDissolve) + CountClass(calls, Uncertain) + CountClass(calls, HardCut)
  {
    if calls != [] {
      CallsAreConserved(calls[..|calls| - 1]);
    }
  }

  lemma {:induction false} HistogramTotal(ds: seq<Milliseconds>, b: nat)
    requires b <= BUCKETS
    ensures CountBelow(ds, b) == SumBuckets(ds, b)
    ensures b == BUCKETS ==> SumBuckets(ds, b) == |ds|
  {
    AllBelow(ds);
    if b > 0 {
      HistogramTotal(ds, b - 1);
      BelowGrows(ds, b - 1);
    }
  }

  /** The first b entries of the histogram of ds, added up. */
  function SumBuckets(ds: seq<Milliseconds>, b: nat): nat
  {
    if b == 0 then 0 else SumBuckets(ds, b - 1) + CountBucket(ds, b - 1)
  }
}
