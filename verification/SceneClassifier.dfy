/** Scene classification of a RIFE session (Runtime::detect_scene and reset in
    dev/windows/mpv/rife_runtime.cpp), from the metrics of a frame pair onwards.
    Metrics are exact reals; how the shaders and histograms yield them is not
    part of this model. */
module SceneClassifier {
  import opened Basics

  datatype SceneClass = Normal | Flash | FadeDissolve | HardCut | Uncertain

  datatype Config = Config(averageThreshold: real, changedRatio: real)

  function Abs(x: real): real {
    if x < 0.0 then -x else x
  }

  datatype Metrics = Metrics(averageDelta: real, changedRatio: real, averageKl: real, regionalKlMax: real,
                             chromaDelta: real, edgeDelta: real, exposureDelta: real, exposureSpread: real) {

    predicate LooksFlash() {
      && exposureDelta >= 18.0 && exposureSpread <= 12.0 && changedRatio >= 0.25
      && averageKl < 0.14 && edgeDelta < 12.0 && chromaDelta < 12.0
    }

    predicate LooksHardCut(config: Config) {
      && averageDelta >= config.averageThreshold && changedRatio >= config.changedRatio && averageKl >= 0.11
      && (regionalKlMax >= 0.22 || chromaDelta >= 10.0 || edgeDelta >= 10.0)
    }

    predicate LooksExposureFade() {
      && exposureDelta >= 6.0 && exposureSpread <= 20.0 && changedRatio >= 0.12
      && 0.025 <= averageKl < 0.18 && edgeDelta < 18.0
    }

    predicate SustainsDissolve(previous: Metrics, previousClass: SceneClass) {
      && (previousClass == Uncertain || previousClass == FadeDissolve)
      && previous.averageKl >= 0.30 && averageKl >= 0.30
      && 3.0 <= previous.averageDelta <= 16.0 && 3.0 <= averageDelta <= 16.0
      && Abs(previous.averageDelta - averageDelta) <= 8.0
      && previous.changedRatio <= 0.08 && changedRatio <= 0.08
      && edgeDelta < 4.0
    }

    predicate LooksUncertain() {
      (averageDelta >= 12.0 && changedRatio >= 0.18) || averageKl >= 0.08
    }

    /** The exposure still drifts: a fade goes on although nothing else moves. */
    predicate StillFading() {
      exposureDelta >= 3.0 && averageKl >= 0.012
    }
  }

  const NO_METRICS := Metrics(0.0, 0.0, 0.0, 0.0, 0.0, 0.0, 0.0, 0.0)

  /** The raw class of a pair, before smoothing. */
  function Candidate(config: Config, previous: Metrics, previousClass: SceneClass, m: Metrics): SceneClass {
    if m.LooksFlash() then Flash
    else if m.LooksHardCut(config) then HardCut
    else if m.LooksExposureFade() || m.SustainsDissolve(previous, previousClass) then FadeDissolve
    else if m.LooksUncertain() then Uncertain
    else Normal
  }

  /** What came before matters in one way only: it turns an uncertain pair into a fade,
      and only after a pair that was itself reported as uncertain or as a fade. */
  lemma PastOnlyTurnsUncertainIntoFade(config: Config, m: Metrics, previous: Metrics, previousClass: SceneClass,
                                       other: Metrics, otherClass: SceneClass)
    ensures var here := Candidate(config, previous, previousClass, m);
      var there := Candidate(config, other, otherClass, m);
      && (here != there ==> {here, there} == {Uncertain, FadeDissolve})
      && (here == FadeDissolve && there == Uncertain ==> previousClass == Uncertain || previousClass == FadeDissolve)
  {
    var here, there := Candidate(config, previous, previousClass, m), Candidate(config, other, otherClass, m);
    if here != there {
      assert m.SustainsDissolve(previous, previousClass) != m.SustainsDissolve(other, otherClass);
    }
  }

  // ---------------------------------------------------------------- the reference: whole histories

  /** How many of the last elements are equal. */
  function RunLength(classes: seq<SceneClass>): (n: nat)
    ensures n <= |classes| && (n == 0 <==> classes == [])
  {
    var last := |classes| - 1;
    if classes == [] then 0
    else if last == 0 || classes[last - 1] != classes[last] then 1
    else 1 + RunLength(classes[..last])
  }

  lemma {:induction false} RunIsMaximal(classes: seq<SceneClass>)
    requires classes != []
    ensures forall k | |classes| - RunLength(classes) <= k < |classes| :: classes[k] == classes[|classes| - 1]
    ensures RunLength(classes) < |classes| ==> classes[|classes| - RunLength(classes) - 1] != classes[|classes| - 1]
  {
    var last := |classes| - 1;
    if last > 0 && classes[last - 1] == classes[last] {
      RunIsMaximal(classes[..last]);
    }
  }

  /** The class before pair k; a session starts as if it had been Normal. */
  function ClassBefore(classes: seq<SceneClass>, k: nat): SceneClass
    requires k <= |classes|
  {
    if k == 0 then Normal else classes[k - 1]
  }

  function CandidateAt(config: Config, ms: seq<Metrics>, classes: seq<SceneClass>, k: nat): SceneClass
    requires k < |ms| && k <= |classes|
  {
    Candidate(config, if k == 0 then NO_METRICS else ms[k - 1], ClassBefore(classes, k), ms[k])
  }

  /** Smoothing, told from the classes reported so far: an uncertain pair joins a
      flash or fade of fewer than three pairs, a quiet one a fade that still drifts. */
  function Smoothed(candidate: SceneClass, before: seq<SceneClass>, stillFading: bool): SceneClass {
    var previous := ClassBefore(before, |before|);
    if candidate == Uncertain && (previous == Flash || previous == FadeDissolve) && RunLength(before) < 3 then previous
    else if candidate == Normal && previous == FadeDissolve && stillFading then previous
    else candidate
  }

  /** The classes of all pairs since the last reset. */
  function Classes(config: Config, ms: seq<Metrics>): (classes: seq<SceneClass>)
    ensures |classes| == |ms|
  {
    if ms == [] then []
    else
      var k := |ms| - 1;
      var before := Classes(config, ms[..k]);
      before + [Smoothed(CandidateAt(config, ms, before, k), before, ms[k].StillFading())]
  }

  // ---------------------------------------------------------------- the detector

  /** What the detector keeps of the pairs seen since the reset. */
  predicate Remembers(config: Config, seen: seq<Metrics>, scene: Metrics, previousClass: SceneClass, streak: nat) {
    var classes := Classes(config, seen);
    && scene == (if seen == [] then NO_METRICS else seen[|seen| - 1])
    && previousClass == ClassBefore(classes, |classes|)
    && streak == Min(RunLength(classes), 255)
  }

  /** The capped streak and the last pair decide as the whole history would. */
  lemma RemembersNext(config: Config, seen: seq<Metrics>, scene: Metrics, previousClass: SceneClass, streak: nat,
                      m: Metrics, classification: SceneClass)
    requires Remembers(config, seen, scene, previousClass, streak)
    requires classification
          == Smoothed(Candidate(config, scene, previousClass, m), Classes(config, seen), m.StillFading())
    ensures Classes(config, seen + [m]) == Classes(config, seen) + [classification]
    ensures Remembers(config, seen + [m], m, classification,
                      if classification == previousClass then Min(streak + 1, 255) else 1)
  {
    ClassesGrow(config, seen, m);
    RunLengthGrows(Classes(config, seen), classification);
  }

  class SceneDetector {
    const config: Config
    var previousScene: Metrics
    var previousClass: SceneClass
    var previousStreak: nat
    ghost var seen: seq<Metrics>

    ghost predicate Valid()
      reads this
    {
      Remembers(config, seen, previousScene, previousClass, previousStreak)
    }

    constructor (config: Config)
      ensures Valid() && seen == [] && this.config == config
    {
      this.config := config;
      previousScene, previousClass, previousStreak, seen := NO_METRICS, Normal, 0, [];
    }

    method RawClass(m: Metrics) returns (candidate: SceneClass)
      ensures candidate == Candidate(config, previousScene, previousClass, m)
    {
      var fade := m.LooksExposureFade() || m.SustainsDissolve(previousScene, previousClass);
      candidate := Normal;
      if m.LooksFlash() {
        candidate := Flash;
      } else if m.LooksHardCut(config) {
        candidate := HardCut;
      } else if fade {
        candidate := FadeDissolve;
      } else if m.LooksUncertain() {
        candidate := Uncertain;
      }
    }

    method Smooth(candidate: SceneClass, stillFading: bool) returns (classification: SceneClass)
      requires Valid()
      ensures classification == Smoothed(candidate, Classes(config, seen), stillFading)
    {
      classification := candidate;
      if candidate == Uncertain && (previousClass == Flash || previousClass == FadeDissolve) && previousStreak < 3 {
        classification := previousClass;
      } else if candidate == Normal && previousClass == FadeDissolve && stillFading {
        classification := previousClass;
      }
    }

    /** The three remembered fields decide as the whole history since the reset would. */
    method DetectScene(m: Metrics) returns (classification: SceneClass)
      requires Valid()
      modifies this
      ensures Valid() && seen == old(seen) + [m]
      ensures Classes(config, seen) == Classes(config, old(seen)) + [classification]
    {
      var candidate := RawClass(m);
      classification := Smooth(candidate, m.StillFading());
      Remember(m, classification);
    }

    method Remember(m: Metrics, classification: SceneClass)
      requires Valid()
      requires classification
            == Smoothed(Candidate(config, previousScene, previousClass, m), Classes(config, seen), m.StillFading())
      modifies this
      ensures Valid() && seen == old(seen) + [m]
      ensures Classes(config, seen) == Classes(config, old(seen)) + [classification]
    {
      RemembersNext(config, seen, previousScene, previousClass, previousStreak, m, classification);
      previousStreak := if classification == previousClass then Min(previousStreak + 1, 255) else 1;
      previousClass := classification;
      previousScene := m;
      seen := seen + [m];
    }

    method Reset()
      modifies this
      ensures Valid() && seen == []
    {
      previousScene, previousClass, previousStreak, seen := NO_METRICS, Normal, 0, [];
    }
  }

  function Min(a: nat, b: nat): nat {
    if a < b then a else b
  }

  lemma RunLengthGrows(before: seq<SceneClass>, c: SceneClass)
    ensures RunLength(before + [c]) == if before != [] && before[|before| - 1] == c then RunLength(before) + 1 else 1
  {
    assert (before + [c])[..|before|] == before;
  }

  lemma ClassesGrow(config: Config, ms: seq<Metrics>, m: Metrics)
    ensures Classes(config, ms + [m])
         == Classes(config, ms)
            + [Smoothed(CandidateAt(config, ms + [m], Classes(config, ms), |ms|), Classes(config, ms), m.StillFading())]
  {
    assert (ms + [m])[..|ms|] == ms;
  }

  // ---------------------------------------------------------------- what smoothing can and cannot do

  lemma {:induction false} PrefixClasses(config: Config, ms: seq<Metrics>, k: nat)
    requires k <= |ms|
    ensures Classes(config, ms[..k]) == Classes(config, ms)[..k]
  {
    if k < |ms| {
      PrefixClasses(config, ms[..|ms| - 1], k);
      assert ms[..|ms| - 1][..k] == ms[..k];
    } else {
      assert ms[..k] == ms;
    }
  }

  lemma ClassAt(config: Config, ms: seq<Metrics>, k: nat)
    requires k < |ms|
    ensures var classes := Classes(config, ms);
      classes[k] == Smoothed(CandidateAt(config, ms, classes, k), classes[..k], ms[k].StillFading())
  {
    PrefixClasses(config, ms, k);
    PrefixClasses(config, ms, k + 1);
    CandidateOfPrefix(config, ms, k);
  }

  lemma CandidateOfPrefix(config: Config, ms: seq<Metrics>, k: nat)
    requires k < |ms|
    ensures var classes := Classes(config, ms);
      CandidateAt(config, ms[..k + 1], classes[..k], k) == CandidateAt(config, ms, classes, k)
    ensures ms[..k + 1][..k] == ms[..k]
  {
    assert ms[..k + 1][..k] == ms[..k];
  }

  /** Smoothing neither hides nor invents a hard cut. */
  lemma HardCutIffCandidate(config: Config, ms: seq<Metrics>, k: nat)
    requires k < |ms|
    ensures Classes(config, ms)[k] == HardCut <==> CandidateAt(config, ms, Classes(config, ms), k) == HardCut
  {
    ClassAt(config, ms, k);
  }

  /** What a pair looks like decides, whatever came before: a flash is always reported as
      one, a hard cut is reported exactly for a pair that looks like one and not like a
      flash, a fade in exposure is a fade, and a normal pair looks like nothing else. */
  lemma ReportedOnSight(config: Config, ms: seq<Metrics>, k: nat)
    requires k < |ms|
    ensures var m, c := ms[k], Classes(config, ms)[k];
      && (m.LooksFlash() ==> c == Flash)
      && (c == HardCut <==> m.LooksHardCut(config) && !m.LooksFlash())
      && (m.LooksExposureFade() && !m.LooksFlash() && !m.LooksHardCut(config) ==> c == FadeDissolve)
      && (c == Normal ==>
            !m.LooksFlash() && !m.LooksHardCut(config) && !m.LooksExposureFade() && !m.LooksUncertain())
      && (c == Uncertain ==>
            !m.LooksFlash() && !m.LooksHardCut(config) && !m.LooksExposureFade() && m.LooksUncertain())
  {
    ClassAt(config, ms, k);
  }

  /** A slow dissolve that was reported as uncertain or as a fade goes on as a fade. */
  lemma DissolveGoesOn(config: Config, ms: seq<Metrics>, k: nat)
    requires 0 < k < |ms| && ms[k].SustainsDissolve(ms[k - 1], Classes(config, ms)[k - 1])
    requires !ms[k].LooksFlash() && !ms[k].LooksHardCut(config)
    ensures Classes(config, ms)[k] == FadeDissolve
  {
    ClassAt(config, ms, k);
  }

  /** Start of the run of equal classes that pair k belongs to. */
  function RunStart(classes: seq<SceneClass>, k: nat): (start: nat)
    requires k < |classes|
    ensures start <= k && forall j | start <= j <= k :: classes[j] == classes[k]
    ensures start > 0 ==> classes[start - 1] != classes[k]
  {
    RunIsMaximal(classes[..k + 1]);
    k + 1 - RunLength(classes[..k + 1])
  }

  /** A flash or fade is never made up: the run begins with a pair that is one. */
  lemma RunsStartWithTheirCandidate(config: Config, ms: seq<Metrics>, k: nat)
    requires k < |ms| && (Classes(config, ms)[k] == Flash || Classes(config, ms)[k] == FadeDissolve)
    ensures var classes := Classes(config, ms);
      CandidateAt(config, ms, classes, RunStart(classes, k)) == classes[k]
  {
    ClassAt(config, ms, RunStart(Classes(config, ms), k));
  }

  /** A pair reported as a flash without being one is uncertain, and is the second or
      third pair of its run, which a real flash began. */
  lemma HeldFlash(config: Config, ms: seq<Metrics>, k: nat)
    requires k < |ms| && Classes(config, ms)[k] == Flash
    requires CandidateAt(config, ms, Classes(config, ms), k) != Flash
    ensures var classes := Classes(config, ms);
      && CandidateAt(config, ms, classes, k) == Uncertain
      && 1 <= k - RunStart(classes, k) <= 2
      && CandidateAt(config, ms, classes, RunStart(classes, k)) == Flash
  {
    var classes := Classes(config, ms);
    ClassAt(config, ms, k);
    RunsStartWithTheirCandidate(config, ms, k);
    assert classes[..k + 1] == classes[..k] + [Flash];
    RunLengthGrows(classes[..k], Flash);
  }

  /** The pairs of [from, to) that are reported as a flash without being one. */
  function HeldFlashes(config: Config, ms: seq<Metrics>, from: nat, to: nat): set<nat>
    requires to <= |ms|
  {
    set k |
      && from <= k < to && Classes(config, ms)[k] == Flash
      && CandidateAt(config, ms, Classes(config, ms), k) != Flash
  }

  lemma SameRun(classes: seq<SceneClass>, from: nat, k: nat)
    requires from <= k < |classes| && forall j | from <= j <= k :: classes[j] == classes[from]
    ensures RunStart(classes, k) == RunStart(classes, from)
  {
    var start, other := RunStart(classes, from), RunStart(classes, k);
    if other > from {
      assert false;
    } else if other < start {
      assert false;
    }
  }

  /** Main result: no flash is stretched by more than two uncertain pairs. */
  lemma AtMostTwoHeld(config: Config, ms: seq<Metrics>, from: nat, to: nat)
    requires from < to <= |ms|
    requires forall k | from <= k < to :: Classes(config, ms)[k] == Flash
    ensures |HeldFlashes(config, ms, from, to)| <= 2
  {
    var classes := Classes(config, ms);
    var start := RunStart(classes, from);
    forall k | k in HeldFlashes(config, ms, from, to)
      ensures k in {start + 1, start + 2}
    {
      HeldFlash(config, ms, k);
      SameRun(classes, from, k);
    }
    assert HeldFlashes(config, ms, from, to) <= {start + 1, start + 2};
    SubsetSize(HeldFlashes(config, ms, from, to), {start + 1, start + 2});
  }

  /** A fade goes on past its third pair only through pairs that are fades themselves
      or quiet with the exposure still drifting. */
  lemma LongFades(config: Config, ms: seq<Metrics>, k: nat)
    requires k < |ms| && Classes(config, ms)[k] == FadeDissolve
    ensures var classes := Classes(config, ms);
      var candidate := CandidateAt(config, ms, classes, k);
      && (k - RunStart(classes, k) >= 3 ==>
            candidate == FadeDissolve || (candidate == Normal && ms[k].StillFading()))
      && (k == RunStart(classes, k) ==> candidate == FadeDissolve)
      && candidate != Flash && candidate != HardCut
  {
    var classes := Classes(config, ms);
    ClassAt(config, ms, k);
    assert classes[..k + 1] == classes[..k] + [FadeDissolve];
    RunLengthGrows(classes[..k], FadeDissolve);
  }

  /** Main result: exactly when a pair is reported as something else than its candidate. It
      is then reported as the pair before it: an uncertain pair while the run of flashes
      or fades before it has fewer than three pairs, or a quiet one behind a fade while
      the exposure still drifts. */
  lemma HeldIff(config: Config, ms: seq<Metrics>, k: nat)
    requires k < |ms|
    ensures var classes := Classes(config, ms);
      var candidate := CandidateAt(config, ms, classes, k);
      && (classes[k] != candidate <==>
            k > 0
            && ((candidate == Uncertain && classes[k - 1] in {Flash, FadeDissolve} && k - RunStart(classes, k - 1) < 3)
                || (candidate == Normal && classes[k - 1] == FadeDissolve && ms[k].StillFading())))
      && (classes[k] != candidate ==> classes[k] == classes[k - 1])
  {
    var classes := Classes(config, ms);
    ClassAt(config, ms, k);
    if k > 0 {
      assert classes[..k - 1 + 1] == classes[..k];
    }
  }

  /** Uncertain whatever came before. */
  ghost predicate Unsure(config: Config, m: Metrics) {
    forall previous, previousClass :: Candidate(config, previous, previousClass, m) == Uncertain
  }

  /** Normal whatever came before, with the exposure still drifting. */
  ghost predicate Drifting(config: Config, m: Metrics) {
    m.StillFading() && forall previous, previousClass :: Candidate(config, previous, previousClass, m) == Normal
  }

  function Repeated(c: SceneClass, n: nat): (r: seq<SceneClass>)
    ensures |r| == n && (n > 0 ==> r[n - 1] == c)
  {
    if n == 0 then [] else Repeated(c, n - 1) + [c]
  }

  lemma {:induction false} LongRun(c: SceneClass, n: nat)
    ensures RunLength(Repeated(c, n)) == n
  {
    if n > 0 {
      LongRun(c, n - 1);
      RunLengthGrows(Repeated(c, n - 1), c);
    }
  }

  lemma UnsureNext(config: Config, ms: seq<Metrics>, m: Metrics)
    requires Unsure(config, m)
    ensures Classes(config, ms + [m])
         == Classes(config, ms) + [Smoothed(Uncertain, Classes(config, ms), m.StillFading())]
  {
    ClassesGrow(config, ms, m);
  }

  /** At most three pairs of a class, and then uncertain ones. */
  function Stretched(c: SceneClass, n: nat): seq<SceneClass> {
    if n <= 3 then Repeated(c, n) else Stretched(c, n - 1) + [Uncertain]
  }

  lemma StretchedNext(c: SceneClass, n: nat, stillFading: bool)
    requires n > 0 && (c == Flash || c == FadeDissolve)
    ensures Stretched(c, n + 1) == Stretched(c, n) + [Smoothed(Uncertain, Stretched(c, n), stillFading)]
  {
    if n <= 3 {
      LongRun(c, n);
    } else {
      LastIsUncertain(c, n);
    }
  }

  lemma LastIsUncertain(c: SceneClass, n: nat)
    requires n > 3
    ensures |Stretched(c, n)| > 0 && Stretched(c, n)[|Stretched(c, n)| - 1] == Uncertain
  {
  }

  lemma FirstAlone(config: Config, first: Metrics)
    ensures Classes(config, [first]) == [Candidate(config, NO_METRICS, Normal, first)]
  {
    ClassesGrow(config, [], first);
    assert [] + [first] == [first];
  }

  /** A pair of class c and then uncertain pairs only. */
  lemma {:induction false} ThenUncertain(config: Config, c: SceneClass, first: Metrics, rest: seq<Metrics>)
    requires (c == Flash || c == FadeDissolve) && Candidate(config, NO_METRICS, Normal, first) == c
    requires forall m | m in rest :: Unsure(config, m)
    ensures Classes(config, [first] + rest) == Stretched(c, |rest| + 1)
  {
    if rest == [] {
      FirstAlone(config, first);
      assert [first] + rest == [first] && Repeated(c, 1) == Repeated(c, 0) + [c];
    } else {
      var last := |rest| - 1;
      var before := [first] + rest[..last];
      ThenUncertain(config, c, first, rest[..last]);
      assert rest[last] in rest && |before| == |rest|;
      OneMoreUnsure(config, c, before, rest[last]);
      assert [first] + rest == before + [rest[last]];
    }
  }

  lemma OneMoreUnsure(config: Config, c: SceneClass, ms: seq<Metrics>, m: Metrics)
    requires (c == Flash || c == FadeDissolve) && ms != [] && Classes(config, ms) == Stretched(c, |ms|)
    requires Unsure(config, m)
    ensures Classes(config, ms + [m]) == Stretched(c, |ms| + 1)
  {
    UnsureNext(config, ms, m);
    StretchedNext(c, |ms|, m.StillFading());
  }

  /** The bound is attained: a flash followed by uncertain pairs only is reported as
      exactly three flashes, or as many as there are pairs, and then as uncertain. */
  lemma FlashThenUncertain(config: Config, flash: Metrics, rest: seq<Metrics>)
    requires flash.LooksFlash()
    requires forall m | m in rest :: Unsure(config, m)
    ensures Classes(config, [flash] + rest) == Stretched(Flash, |rest| + 1)
  {
    ThenUncertain(config, Flash, flash, rest);
  }

  /** The same of a fade. */
  lemma FadeThenUncertain(config: Config, fade: Metrics, rest: seq<Metrics>)
    requires fade.LooksExposureFade() && !fade.LooksFlash() && !fade.LooksHardCut(config)
    requires forall m | m in rest :: Unsure(config, m)
    ensures Classes(config, [fade] + rest) == Stretched(FadeDissolve, |rest| + 1)
  {
    ThenUncertain(config, FadeDissolve, fade, rest);
  }

  /** Whatever came before, a fade goes on through any number of quiet pairs whose exposure
      still drifts. */
  lemma {:induction false} FadeGoesOn(config: Config, ms: seq<Metrics>, from: nat, k: nat)
    requires 0 < from <= k < |ms| && Classes(config, ms)[from - 1] == FadeDissolve
    requires forall j | from <= j <= k :: Drifting(config, ms[j])
    ensures Classes(config, ms)[k] == FadeDissolve
  {
    if from < k {
      FadeGoesOn(config, ms, from, k - 1);
    }
    ClassAt(config, ms, k);
  }

  /** Two pairs that are unsure and drifting, so that the above is not empty. */
  lemma SomePairs(config: Config)
    requires config.averageThreshold > 0.0 && config.changedRatio > 0.0
    ensures Unsure(config, NO_METRICS.(averageKl := 0.09))
    ensures Drifting(config, NO_METRICS.(exposureDelta := 4.0, averageKl := 0.02))
  {
  }
}
