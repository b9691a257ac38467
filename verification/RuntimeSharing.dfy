/** The one-slot cache of RIFE runtimes (dev/windows/mpv/rife_runtime.cpp): a
    Runtime is handed out again only when the cache holds its one reference.

    Creation runs under the cache mutex, but handles are destroyed without it, so
    a destruction may fall between any two steps of a creation. */
module RuntimeSharing {
  import opened Wrappers

  // Everything Runtime::matches compares.
  datatype Config = Config(device: nat, context: nat, engine: string, cudart: string,
                           width: nat, height: nat, alignment: nat, matrix: nat, limitedRange: nat,
                           sampleStride: nat, pixelThreshold: nat, averageThreshold: real, changedRatio: real,
                           profiling: nat)

  /** Runtimes are numbered in the order in which they were initialized. */
  datatype Sharing = Sharing(slot: Option<nat>, configs: seq<Config>, handles: map<nat, nat>, nextHandle: nat) {

    predicate Valid() {
      && (slot.Some? ==> slot.value < |configs|)
      && (forall h | h in handles :: h < nextHandle && handles[h] < |configs|)
    }

    function Holders(runtime: nat): set<nat> {
      set h | h in handles && handles[h] == runtime
    }

    /** shared_ptr::use_count: the slot and the handles. */
    function UseCount(runtime: nat): nat {
      |Holders(runtime)| + if slot == Some(runtime) then 1 else 0
    }

    predicate Unused() {
      slot.Some? && UseCount(slot.value) == 1
    }

    predicate Reusable(config: Config, deviceAvailable: bool) {
      Unused() && deviceAvailable && slot.value < |configs| && configs[slot.value] == config
    }

    function Taken(runtime: nat): Sharing {
      this.(handles := handles[nextHandle := runtime], nextHandle := nextHandle + 1)
    }

    function Reset(): Sharing {
      if Unused() then this.(slot := None) else this
    }

    function Initialized(config: Config): Sharing {
      this.(configs := configs + [config])
    }

    function Installed(runtime: nat): Sharing {
      this.(slot := Some(runtime)).Taken(runtime)
    }

    function Destroyed(handle: nat): Sharing {
      this.(handles := handles - {handle})
    }

    /** A creation that nothing interrupts. */
    function Created(config: Config, deviceAvailable: bool, initializes: bool): Sharing {
      if Reusable(config, deviceAvailable) then Taken(slot.value)
      else if initializes then Reset().Initialized(config).Installed(|configs|)
      else Reset()
    }

    predicate NoSharing() {
      forall g, h | g in handles && h in handles && handles[g] == handles[h] :: g == h
    }
  }

  class RuntimeCache {
    var slot: Option<nat>
    var configs: seq<Config>
    var handles: map<nat, nat>
    var nextHandle: nat

    function View(): Sharing
      reads this
    {
      Sharing(slot, configs, handles, nextHandle)
    }

    ghost predicate Valid()
      reads this
    {
      View().Valid() && View().NoSharing()
    }

    constructor ()
      ensures Valid() && View() == Sharing(None, [], map[], 0)
    {
      slot, configs, handles, nextHandle := None, [], map[], 0;
    }

    method Create(config: Config, deviceAvailable: bool, initializes: bool) returns (handle: Option<nat>)
      requires Valid()
      modifies this
      ensures Valid() && View() == old(View()).Created(config, deviceAvailable, initializes)
      ensures handle.Some? <==> initializes || old(View()).Reusable(config, deviceAvailable)
      ensures handle.Some? ==> handle.value in handles && configs[handles[handle.value]] == config
      ensures handle.Some? ==> old(View()).Holders(handles[handle.value]) == {}
      ensures handle.Some? ==>
        (handles[handle.value] < |old(configs)| <==> CanReuse(old(View()), config, deviceAvailable))
    {
      CreatedIsUnshared(View(), config, deviceAvailable, initializes);
      ReusableIff(View(), config, deviceAvailable);
      if View().Reusable(config, deviceAvailable) {
        handles := handles[nextHandle := slot.value];
      } else {
        if View().Unused() {
          slot := None;
        }
        if !initializes {
          return None;
        }
        configs := configs + [config];
        slot := Some(|configs| - 1);
        handles := handles[nextHandle := |configs| - 1];
      }
      handle := Some(nextHandle);
      nextHandle := nextHandle + 1;
    }

    method Destroy(handle: nat)
      requires Valid()
      modifies this`handles
      ensures Valid() && View() == old(View()).Destroyed(handle)
    {
      handles := handles - {handle};
    }
  }

  /** The slot holds a Runtime of the configuration that nobody uses on a device that works. */
  predicate CanReuse(s: Sharing, config: Config, deviceAvailable: bool) {
    && s.slot.Some? && s.slot.value < |s.configs| && s.configs[s.slot.value] == config
    && deviceAvailable && forall h | h in s.handles :: s.handles[h] != s.slot.value
  }

  lemma ReusableIff(s: Sharing, config: Config, deviceAvailable: bool)
    ensures s.Reusable(config, deviceAvailable) <==> CanReuse(s, config, deviceAvailable)
  {
    if s.slot.Some? {
      HoldersOfUnused(s, s.slot.value);
    }
  }

  /** A creation that fails gives up a cached Runtime that nobody uses, and nothing else. */
  lemma FailedCreationFrees(s: Sharing, config: Config, deviceAvailable: bool)
    requires s.Valid() && !s.Reusable(config, deviceAvailable)
    ensures var s' := s.Created(config, deviceAvailable, false);
      && s'.configs == s.configs && s'.handles == s.handles && s'.nextHandle == s.nextHandle
      && s'.slot == if s.slot.Some? && s.Holders(s.slot.value) == {} then None else s.slot
  {
    if s.slot.Some? {
      HoldersOfUnused(s, s.slot.value);
    }
  }

  /** A Runtime that was created and given back is used again for the same configuration. */
  lemma GivenBackIsReused(s: Sharing, config: Config)
    requires s.Valid() && s.NoSharing()
    ensures var created := s.Created(config, true, true);
      var again := created.Destroyed(s.nextHandle).Created(config, true, true);
      && s.nextHandle in created.handles && created.nextHandle in again.handles
      && again.handles[created.nextHandle] == created.handles[s.nextHandle]
      && again.configs == created.configs
  {
    CreatedIsUnshared(s, config, true, true);
    var created := s.Created(config, true, true);
    ReusableIff(created.Destroyed(s.nextHandle), config, true);
  }

  lemma HoldersOfUnused(s: Sharing, runtime: nat)
    ensures s.slot == Some(runtime) ==> (s.UseCount(runtime) == 1 <==> s.Holders(runtime) == {})
    ensures s.Holders(runtime) == {} <==> forall h | h in s.handles :: s.handles[h] != runtime
  {
    forall h | h in s.handles && s.handles[h] == runtime
      ensures h in s.Holders(runtime)
    {
    }
  }

  lemma TakenKeepsSharing(sh: Sharing, runtime: nat)
    requires sh.Valid() && sh.NoSharing() && runtime < |sh.configs| && sh.Holders(runtime) == {}
    ensures sh.Taken(runtime).Valid() && sh.Taken(runtime).NoSharing()
    ensures sh.Installed(runtime).Valid() && sh.Installed(runtime).NoSharing()
  {
    HoldersOfUnused(sh, runtime);
  }

  lemma NewIsUnheld(sh: Sharing, config: Config)
    requires sh.Valid()
    ensures sh.Initialized(config).Valid() && sh.Initialized(config).Holders(|sh.configs|) == {}
  {
    HoldersOfUnused(sh.Initialized(config), |sh.configs|);
  }

  /** The Runtime that a creation hands out is held by no other handle. */
  lemma CreatedIsUnshared(s: Sharing, config: Config, deviceAvailable: bool, initializes: bool)
    requires s.Valid() && s.NoSharing()
    ensures var s' := s.Created(config, deviceAvailable, initializes);
      && s'.Valid() && s'.NoSharing()
      && (initializes || s.Reusable(config, deviceAvailable) ==>
            && s.nextHandle in s'.handles && s'.handles[s.nextHandle] < |s'.configs|
            && s'.configs[s'.handles[s.nextHandle]] == config
            && s.Holders(s'.handles[s.nextHandle]) == {})
  {
    if s.Reusable(config, deviceAvailable) {
      HoldersOfUnused(s, s.slot.value);
      TakenKeepsSharing(s, s.slot.value);
    } else if initializes {
      NewIsUnheld(s.Reset(), config);
      HoldersOfUnused(s, |s.configs|);
      TakenKeepsSharing(s.Reset().Initialized(config), |s.configs|);
    }
  }

  // ---------------------------------------------------------------- interleavings

  /** Where a creation stands; all but the first and the last hold the mutex. */
  datatype Creator =
    | Entering(config: Config)
    | Checking(config: Config)                  // first look at use_count
    | Reusing(config: Config, runtime: nat)     // saw 1: about to take it
    | Clearing(config: Config)                  // second look at use_count
    | Initializing(config: Config)
    | Installing(config: Config, runtime: nat)  // built, referenced only here
    | Returned(handle: Option<nat>, config: Config)

  datatype System = System(sharing: Sharing, creators: seq<Creator>, lock: Option<nat>)

  const INITIAL := System(Sharing(None, [], map[], 0), [], None)

  datatype Step =
    | Create(config: Config)
    | CreatorStep(creator: nat, outcome: bool)
    | Destroy(handle: nat)

  function StepCreator(s: System, i: nat, outcome: bool): System
    requires i < |s.creators|
  {
    var sh := s.sharing;
    match s.creators[i]
    case Entering(config) =>
      if s.lock.Some? then s else s.(lock := Some(i), creators := s.creators[i := Checking(config)])
    case Checking(config) =>
      s.(creators := s.creators[i :=
           if sh.Reusable(config, outcome) then Reusing(config, sh.slot.value) else Clearing(config)])
    case Reusing(config, runtime) =>
      s.(sharing := sh.Taken(runtime), lock := None,
         creators := s.creators[i := Returned(Some(sh.nextHandle), config)])
    case Clearing(config) =>
      s.(sharing := sh.Reset(), creators := s.creators[i := Initializing(config)])
    case Initializing(config) =>
      if outcome then s.(sharing := sh.Initialized(config),
                         creators := s.creators[i := Installing(config, |sh.configs|)])
      else s.(lock := None, creators := s.creators[i := Returned(None, config)])
    case Installing(config, runtime) =>
      s.(sharing := sh.Installed(runtime), lock := None,
         creators := s.creators[i := Returned(Some(sh.nextHandle), config)])
    case Returned(_, _) => s
  }

  function Next(s: System, step: Step): System {
    match step
    case Create(config) => s.(creators := s.creators + [Entering(config)])
    case CreatorStep(i, outcome) => if i < |s.creators| then StepCreator(s, i, outcome) else s
    case Destroy(h) => s.(sharing := s.sharing.Destroyed(h))
  }

  predicate HoldsLock(c: Creator) {
    !c.Entering? && !c.Returned?
  }

  predicate CreatorInv(sh: Sharing, c: Creator) {
    match c
    case Reusing(config, runtime) =>
      && sh.slot == Some(runtime) && runtime < |sh.configs| && sh.configs[runtime] == config
      && sh.Holders(runtime) == {}
    case Installing(config, runtime) =>
      && runtime < |sh.configs| && sh.configs[runtime] == config
      && sh.slot != Some(runtime) && sh.Holders(runtime) == {}
    case Returned(handle, config) =>
      handle.Some? ==>
        handle.value < sh.nextHandle
        && (handle.value in sh.handles ==>
              sh.handles[handle.value] < |sh.configs| && sh.configs[sh.handles[handle.value]] == config)
    case _ => true
  }

  predicate Inv(s: System) {
    && s.sharing.Valid() && s.sharing.NoSharing()
    && (s.lock.Some? ==> s.lock.value < |s.creators|)
    && (forall i | 0 <= i < |s.creators| :: HoldsLock(s.creators[i]) <==> s.lock == Some(i))
    && (forall i | 0 <= i < |s.creators| :: CreatorInv(s.sharing, s.creators[i]))
  }

  /** A destruction, at any point, frees the Runtime of its handle and touches no other. */
  lemma DestroyGivesUp(s: System, h: nat)
    requires Inv(s) && h in s.sharing.handles
    ensures var s' := Next(s, Destroy(h));
      && h !in s'.sharing.handles && s'.sharing.Holders(s.sharing.handles[h]) == {}
      && (forall g | g in s.sharing.handles && g != h ::
            g in s'.sharing.handles && s'.sharing.handles[g] == s.sharing.handles[g])
      && s'.sharing.slot == s.sharing.slot && s'.creators == s.creators && s'.lock == s.lock
  {
  }

  lemma DestroyedHolders(sh: Sharing, handle: nat, runtime: nat)
    ensures sh.Destroyed(handle).Holders(runtime) <= sh.Holders(runtime)
  {
  }

  lemma DestroyKeepsInv(s: System, handle: nat)
    requires Inv(s)
    ensures Inv(Next(s, Destroy(handle)))
  {
    var s' := Next(s, Destroy(handle));
    forall i | 0 <= i < |s.creators|
      ensures CreatorInv(s'.sharing, s'.creators[i])
    {
      assert CreatorInv(s.sharing, s.creators[i]);
      match s.creators[i]
      case Reusing(_, runtime) => DestroyedHolders(s.sharing, handle, runtime);
      case Installing(_, runtime) => DestroyedHolders(s.sharing, handle, runtime);
      case _ =>
    }
  }

  /** What the others may rely on when creator i, who holds the mutex, moves. */
  lemma OthersKept(s: System, s': System, i: nat)
    requires Inv(s) && i < |s.creators| == |s'.creators| && (s.lock == Some(i) || s.sharing == s'.sharing)
    requires forall j | 0 <= j < |s.creators| && j != i :: s'.creators[j] == s.creators[j]
    requires s.sharing.configs <= s'.sharing.configs && s.sharing.nextHandle <= s'.sharing.nextHandle
    requires forall h | h in s'.sharing.handles && h < s.sharing.nextHandle ::
      h in s.sharing.handles && s'.sharing.handles[h] == s.sharing.handles[h]
    ensures forall j | 0 <= j < |s'.creators| && j != i :: CreatorInv(s'.sharing, s'.creators[j])
  {
    forall j | 0 <= j < |s'.creators| && j != i
      ensures CreatorInv(s'.sharing, s'.creators[j])
    {
      assert CreatorInv(s.sharing, s.creators[j]);
      assert HoldsLock(s.creators[j]) <==> s.lock == Some(j);
    }
  }

  /** What creator i itself knows after its own step. */
  lemma OwnStep(s: System, i: nat, outcome: bool)
    requires Inv(s) && i < |s.creators|
    ensures CreatorInv(StepCreator(s, i, outcome).sharing, StepCreator(s, i, outcome).creators[i])
  {
    assert CreatorInv(s.sharing, s.creators[i]);
    match s.creators[i]
    case Checking(config) =>
      if s.sharing.slot.Some? {
        HoldersOfUnused(s.sharing, s.sharing.slot.value);
      }
    case Initializing(config) => NewIsUnheld(s.sharing, config);
    case _ =>
  }

  lemma CreatorKeepsInv(s: System, i: nat, outcome: bool)
    requires Inv(s) && i < |s.creators|
    ensures Inv(StepCreator(s, i, outcome))
  {
    var s' := StepCreator(s, i, outcome);
    assert CreatorInv(s.sharing, s.creators[i]);
    assert HoldsLock(s.creators[i]) <==> s.lock == Some(i);
    OwnStep(s, i, outcome);
    OthersKept(s, s', i);
    assert s'.sharing.Valid() && s'.sharing.NoSharing() by {
      match s.creators[i]
      case Reusing(_, runtime) => TakenKeepsSharing(s.sharing, runtime);
      case Installing(_, runtime) => TakenKeepsSharing(s.sharing, runtime);
      case _ =>
    }
  }

  function Run(steps: seq<Step>): (s: System)
    ensures Inv(s)
  {
    if steps == [] then INITIAL
    else
      var before := Run(steps[..|steps| - 1]);
      StepKeepsInv(before, steps[|steps| - 1]);
      Next(before, steps[|steps| - 1])
  }

  lemma StepKeepsInv(s: System, step: Step)
    requires Inv(s)
    ensures Inv(Next(s, step))
  {
    match step
    case Create(config) =>
    case CreatorStep(i, outcome) =>
      if i < |s.creators| {
        CreatorKeepsInv(s, i, outcome);
      }
    case Destroy(h) => DestroyKeepsInv(s, h);
  }

  /** Main result: in every interleaving of creations and destructions no two live
      handles share a Runtime, and each live handle has the configuration it asked for. */
  lemma HandlesNeverShare(steps: seq<Step>)
    ensures Run(steps).sharing.NoSharing()
    ensures forall i | 0 <= i < |Run(steps).creators| ::
      match Run(steps).creators[i]
      case Returned(Some(h), config) =>
        h in Run(steps).sharing.handles ==>
          Run(steps).sharing.handles[h] < |Run(steps).sharing.configs|
          && Run(steps).sharing.configs[Run(steps).sharing.handles[h]] == config
      case _ => true
  {
    var s := Run(steps);
    forall i | 0 <= i < |s.creators|
      ensures match s.creators[i]
        case Returned(Some(h), config) =>
          h in s.sharing.handles ==>
            s.sharing.handles[h] < |s.sharing.configs| && s.sharing.configs[s.sharing.handles[h]] == config
        case _ => true
    {
      assert CreatorInv(s.sharing, s.creators[i]);
    }
  }

  /** A use count of 1 seen under the mutex is still 1 after any step of others,
      until the Runtime is taken. */
  lemma UnusedUntilTaken(s: System, step: Step, i: nat)
    requires Inv(s) && i < |s.creators| && s.creators[i].Reusing?
    requires i < |Next(s, step).creators| && Next(s, step).creators[i] == s.creators[i]
    ensures s.sharing.UseCount(s.creators[i].runtime) == 1
    ensures Next(s, step).sharing.UseCount(s.creators[i].runtime) == 1
  {
    StepKeepsInv(s, step);
    assert CreatorInv(s.sharing, s.creators[i]);
    assert CreatorInv(Next(s, step).sharing, Next(s, step).creators[i]);
  }

  /** The state after further steps of creator i, of which the k-th has outcomes[k]. */
  function Steps(s: System, i: nat, outcomes: seq<bool>): System
    decreases |outcomes|
  {
    if outcomes == [] then s else Steps(Next(s, CreatorStep(i, outcomes[0])), i, outcomes[1..])
  }

  lemma OneStep(s: System, i: nat, outcome: bool, outcomes: seq<bool>)
    ensures Steps(s, i, [outcome] + outcomes) == Steps(Next(s, CreatorStep(i, outcome)), i, outcomes)
  {
    assert ([outcome] + outcomes)[1..] == outcomes;
  }

  /** The steps of one creation, run back to back, are the uninterrupted creation. */
  lemma AloneIsAtomic(s: System, config: Config, deviceAvailable: bool, initializes: bool)
    requires s.lock.None?
    ensures Steps(Next(s, Create(config)), |s.creators|, [true, deviceAvailable, true, initializes, true]).sharing
         == s.sharing.Created(config, deviceAvailable, initializes)
  {
    var i, s0 := |s.creators|, Next(s, Create(config));
    OneStep(s0, i, true, [deviceAvailable, true, initializes, true]);
    var s1 := s0.(lock := Some(i), creators := s0.creators[i := Checking(config)]);
    OneStep(s1, i, deviceAvailable, [true, initializes, true]);
    CheckedAlone(Next(s1, CreatorStep(i, deviceAvailable)), i, initializes);
  }

  lemma CheckedAlone(s: System, i: nat, initializes: bool)
    requires i < |s.creators| && (s.creators[i].Reusing? || s.creators[i].Clearing?)
    ensures Steps(s, i, [true, initializes, true]).sharing
         == (var c := s.creators[i];
             if c.Reusing? then s.sharing.Taken(c.runtime)
             else if initializes then s.sharing.Reset().Initialized(c.config).Installed(|s.sharing.configs|)
             else s.sharing.Reset())
  {
    OneStep(s, i, true, [initializes, true]);
    var s1 := Next(s, CreatorStep(i, true));
    OneStep(s1, i, initializes, [true]);
    OneStep(Next(s1, CreatorStep(i, initializes)), i, true, []);
  }
}
