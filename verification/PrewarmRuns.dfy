/** All interleavings of the prewarm protocol: API callers, workers and builds
    that may fail (dev/windows/mpv/rife_runtime.cpp). */
module PrewarmRuns {
  import opened Wrappers
  import opened Basics
  import opened PrewarmProtocol

  datatype Goal = Prewarm | Create

  /** Where a call of the API stands; each constructor is followed by one atomic step. */
  datatype Caller =
    | QueueFindState(key: Key)
    | QueueFindTask(key: Key)
    | QueueEnsureWorker(key: Key)
    | QueuePush(key: Key)
    | WaitFind(key: Key, goal: Goal)
    | Waiting(key: Key, goal: Goal, task: nat)
    | Lookup(key: Key, goal: Goal, waited: bool)
    | Binding(key: Key, goal: Goal, waited: bool)
    | Building(key: Key, goal: Goal, hit: bool, waited: bool)
    | PushState(key: Key)
    | Refused(key: Key)                            // the call failed
    | Queued(key: Key)                             // a queue call succeeded
    | Prewarmed(key: Key)                          // a synchronous prewarm succeeded
    | Created(key: Key, hit: bool, waited: bool)   // a Runtime was initialized

  datatype Worker =
    | Idle
    | WorkerBinding(task: nat)
    | WorkerBuilding(task: nat)
    | Publishing(task: nat, ok: bool)
    | Completing(task: nat, ok: bool)

  datatype Bound = Bound(cudart: string, device: nat)

  datatype System = System(shared: Shared, callers: seq<Caller>, workers: seq<Worker>, bound: Option<Bound>)

  const INITIAL := System(Shared([], [], [], false), [], [], None)

  /** `outcome` is the result of whatever may fail in the step. */
  datatype Step =
    | Queue(key: Key)
    | PrewarmNow(key: Key)
    | CreateRuntime(key: Key)
    | CallerStep(caller: nat, outcome: bool)
    | WorkerStep(worker: nat, outcome: bool)

  /** bind_cuda_d3d11: the first successful call decides for the process. */
  function Bind(bound: Option<Bound>, key: Key, deviceSet: bool): (bool, Option<Bound>) {
    match bound
    case Some(b) => (b == Bound(key.cudart, key.device), bound)
    case None => if deviceSet then (true, Some(Bound(key.cudart, key.device))) else (false, None)
  }

  function StepCaller(s: System, i: nat, outcome: bool): System
    requires s.shared.Valid() && i < |s.callers|
  {
    match s.callers[i]
    case QueueFindState(key) =>
      s.(callers := s.callers[i := if key in s.shared.states then Queued(key) else QueueFindTask(key)])
    case QueueFindTask(key) =>
      s.(callers := s.callers[i := if s.shared.FindTask(key).Some? then Queued(key) else QueueEnsureWorker(key)])
    case QueueEnsureWorker(key) =>
      s.(callers := s.callers[i := QueuePush(key)],
         shared := s.shared.(workerStarted := true),
         workers := if s.shared.workerStarted then s.workers else s.workers + [Idle])
    case QueuePush(key) =>
      s.(callers := s.callers[i := Queued(key)], shared := s.shared.Pushed(key))
    case WaitFind(key, goal) =>
      var task := s.shared.FindTask(key);
      s.(callers := s.callers[i := if task.Some? then Waiting(key, goal, task.value) else Lookup(key, goal, false)])
    case Waiting(key, goal, task) =>
      if task < |s.shared.tasks| && s.shared.tasks[task].done then
        s.(callers := s.callers[i := if s.shared.tasks[task].ok then Lookup(key, goal, true) else Refused(key)])
      else s
    case Lookup(key, goal, waited) =>
      s.(callers := s.callers[i :=
           if key !in s.shared.states then Binding(key, goal, waited)
           else if goal.Prewarm? then Prewarmed(key)
           else Building(key, goal, true, waited)])
    case Binding(key, goal, waited) =>
      var (ok, bound) := Bind(s.bound, key, outcome);
      s.(bound := bound, callers := s.callers[i := if ok then Building(key, goal, false, waited) else Refused(key)])
    case Building(key, goal, hit, waited) =>
      s.(callers := s.callers[i :=
           if !outcome then Refused(key)
           else if goal.Create? then Created(key, hit, waited)
           else PushState(key)])
    case PushState(key) =>
      s.(callers := s.callers[i := Prewarmed(key)], shared := s.shared.WithState(key))
    case _ => s
  }

  function StepWorker(s: System, w: nat, outcome: bool): System
    requires s.shared.Valid() && w < |s.workers|
  {
    match s.workers[w]
    case Idle =>
      var next := s.shared.NextTask();
      if next.None? then s
      else s.(workers := s.workers[w := WorkerBinding(next.value)], shared := s.shared.Started(next.value))
    case WorkerBinding(task) =>
      if task >= |s.shared.tasks| then s
      else
        var (ok, bound) := Bind(s.bound, s.shared.tasks[task].key, outcome);
        s.(bound := bound, workers := s.workers[w := if ok then WorkerBuilding(task) else Publishing(task, false)])
    case WorkerBuilding(task) => s.(workers := s.workers[w := Publishing(task, outcome)])
    case Publishing(task, ok) =>
      if task >= |s.shared.tasks| then s
      else s.(workers := s.workers[w := Completing(task, ok)], shared := s.shared.Published(task, ok))
    case Completing(task, ok) =>
      if task >= |s.shared.tasks| then s
      else s.(workers := s.workers[w := Idle], shared := s.shared.Completed(task, ok))
  }

  function Next(s: System, step: Step): System
    requires s.shared.Valid()
  {
    match step
    case Queue(key) => s.(callers := s.callers + [QueueFindState(key)])
    case PrewarmNow(key) => s.(callers := s.callers + [WaitFind(key, Prewarm)])
    case CreateRuntime(key) => s.(callers := s.callers + [WaitFind(key, Create)])
    case CallerStep(i, outcome) => if i < |s.callers| then StepCaller(s, i, outcome) else s
    case WorkerStep(w, outcome) => if w < |s.workers| then StepWorker(s, w, outcome) else s
  }

  // ---------------------------------------------------------------- the invariant

  predicate Increasing(ids: seq<nat>) {
    forall i, j | 0 <= i < j < |ids| :: ids[i] < ids[j]
  }

  /** The task a worker holds before it has published it. */
  function Held(w: Worker): Option<nat> {
    match w
    case WorkerBinding(task) => Some(task)
    case WorkerBuilding(task) => Some(task)
    case Publishing(task, _) => Some(task)
    case _ => None
  }

  predicate CacheInv(sh: Shared) {
    && sh.Valid()
    && NoDuplicates(sh.states)
    && Increasing(sh.pending)
    && NoDuplicates(sh.PendingKeys())
    && (forall id | id in sh.pending :: !sh.tasks[id].done)
  }

  /** Only the task at the head of the queue is ever started, by the one worker. */
  predicate WorkerInv(sh: Shared, workers: seq<Worker>) {
    && |workers| == (if sh.workerStarted then 1 else 0)
    && (sh.pending != [] ==> sh.workerStarted)
    && (forall i | 0 <= i < |sh.pending| && sh.pending[i] < |sh.tasks| ::
          sh.tasks[sh.pending[i]].started <==> i == 0 && |workers| == 1 && Held(workers[0]) == Some(sh.pending[0]))
    && (|workers| == 1 && Held(workers[0]).Some? ==> sh.pending != [] && Held(workers[0]).value == sh.pending[0])
    && (|workers| == 1 && workers[0].Completing? ==>
          && workers[0].task < |sh.tasks| && !sh.tasks[workers[0].task].done && workers[0].task !in sh.pending
          && (workers[0].ok ==> sh.tasks[workers[0].task].key in sh.states))
  }

  /** A pushed task is pending, about to be reported, or reported; a task that was
      reported as a success has its key cached. */
  predicate TaskInv(sh: Shared, workers: seq<Worker>) {
    forall id | 0 <= id < |sh.tasks| ::
      && (id in sh.pending || sh.tasks[id].done || (|workers| == 1 && workers[0].Completing? && workers[0].task == id))
      && (sh.tasks[id].done && sh.tasks[id].ok ==> sh.tasks[id].key in sh.states)
  }

  predicate BoundTo(bound: Option<Bound>, key: Key) {
    bound == Some(Bound(key.cudart, key.device))
  }

  /** A task of the key has been pushed. */
  predicate Asked(sh: Shared, key: Key) {
    exists id | 0 <= id < |sh.tasks| :: sh.tasks[id].key == key
  }

  predicate CallerInv(s: System, c: Caller) {
    match c
    case QueuePush(_) => s.shared.workerStarted
    case Waiting(key, _, task) => task < |s.shared.tasks| && s.shared.tasks[task].key == key
    case Lookup(key, _, waited) => waited ==> key in s.shared.states
    case Binding(_, _, waited) => !waited
    case Building(key, _, hit, waited) =>
      BoundTo(s.bound, key) && (hit ==> key in s.shared.states) && (waited ==> hit)
    case PushState(key) => BoundTo(s.bound, key)
    case Queued(key) => key in s.shared.states || Asked(s.shared, key)
    case Prewarmed(key) => key in s.shared.states
    case Created(key, hit, waited) => BoundTo(s.bound, key) && (waited ==> hit)
    case _ => true
  }

  predicate BindingInv(s: System) {
    && (forall key | key in s.shared.states :: BoundTo(s.bound, key))
    && (forall w | 0 <= w < |s.workers| ::
          match s.workers[w]
          case WorkerBuilding(task) => task < |s.shared.tasks| && BoundTo(s.bound, s.shared.tasks[task].key)
          case Publishing(task, ok) => task < |s.shared.tasks| && (ok ==> BoundTo(s.bound, s.shared.tasks[task].key))
          case _ => true)
  }

  predicate Inv(s: System) {
    && CacheInv(s.shared)
    && WorkerInv(s.shared, s.workers)
    && TaskInv(s.shared, s.workers)
    && BindingInv(s)
    && (forall i | 0 <= i < |s.callers| :: CallerInv(s, s.callers[i]))
  }

  // ---------------------------------------------------------------- the cache operations

  lemma {:induction false} WithoutMembers(ids: seq<nat>, id: nat)
    ensures forall x :: x in Without(ids, id) <==> x in ids && x != id
    ensures id !in ids ==> Without(ids, id) == ids
  {
    if ids != [] {
      WithoutMembers(ids[1..], id);
      assert ids == [ids[0]] + ids[1..];
    }
  }

  lemma PrependIncreasing(first: nat, rest: seq<nat>)
    requires Increasing(rest) && forall x | x in rest :: first < x
    ensures Increasing([first] + rest)
  {
    forall j | 0 <= j < |rest|
      ensures first < rest[j]
    {
      assert rest[j] in rest;
    }
  }

  lemma {:induction false} WithoutIncreasing(ids: seq<nat>, id: nat)
    requires Increasing(ids)
    ensures Increasing(Without(ids, id))
  {
    if ids != [] {
      var rest := Without(ids[1..], id);
      WithoutIncreasing(ids[1..], id);
      WithoutMembers(ids[1..], id);
      if ids[0] != id {
        PrependIncreasing(ids[0], rest);
      }
    }
  }

  lemma WithoutFacts(ids: seq<nat>, id: nat)
    requires Increasing(ids)
    ensures forall x :: x in Without(ids, id) <==> x in ids && x != id
    ensures Increasing(Without(ids, id))
    ensures ids != [] && ids[0] == id ==> Without(ids, id) == ids[1..]
    ensures id !in ids ==> Without(ids, id) == ids
  {
    WithoutMembers(ids, id);
    WithoutIncreasing(ids, id);
    if ids != [] && ids[0] == id {
      WithoutMembers(ids[1..], id);
    }
  }

  lemma FindTaskInQueue(sh: Shared, key: Key)
    requires sh.Valid()
    ensures sh.FindTask(key).Some? <==> key in sh.PendingKeys()
  {
    if sh.FindTask(key).Some? {
      var i :| 0 <= i < |sh.pending| && sh.pending[i] == sh.FindTask(key).value;
      assert sh.PendingKeys()[i] == key;
    }
  }

  /** The worker always takes the head of the queue. */
  lemma NextIsHead(sh: Shared, workers: seq<Worker>)
    requires sh.Valid() && WorkerInv(sh, workers)
    requires |workers| == 1 && Held(workers[0]).None?
    ensures sh.NextTask() == if sh.pending == [] then None else Some(sh.pending[0])
  {
  }

  lemma PushedInv(sh: Shared, key: Key)
    requires CacheInv(sh)
    ensures CacheInv(sh.Pushed(key))
  {
    var next := sh.Pushed(key);
    if key !in sh.PendingKeys() {
      assert next.PendingKeys() == sh.PendingKeys() + [key];
    }
  }

  lemma PushedIsAsked(sh: Shared, key: Key)
    requires sh.Valid()
    ensures Asked(sh.Pushed(key), key)
  {
    if key in sh.PendingKeys() {
      var i :| 0 <= i < |sh.pending| && sh.PendingKeys()[i] == key;
      assert sh.tasks[sh.pending[i]].key == key;
    } else {
      assert sh.Pushed(key).tasks[|sh.tasks|].key == key;
    }
  }

  lemma PublishedInv(sh: Shared, id: nat, ok: bool)
    requires CacheInv(sh) && sh.pending != [] && sh.pending[0] == id
    ensures CacheInv(sh.Published(id, ok))
    ensures sh.Published(id, ok).pending == sh.pending[1..]
  {
    WithoutFacts(sh.pending, id);
    var next := sh.Published(id, ok);
    assert next.PendingKeys() == sh.PendingKeys()[1..];
  }

  // ---------------------------------------------------------------- what every step keeps

  /** Nothing is ever forgotten: cached states, the key of a task, its outcome once
      reported, and the binding once made. */
  predicate Grows(s: System, s': System) {
    && s.shared.states <= s'.shared.states
    && |s.shared.tasks| <= |s'.shared.tasks|
    && (forall id | 0 <= id < |s.shared.tasks| :: s'.shared.tasks[id].key == s.shared.tasks[id].key)
    && (s.bound.Some? ==> s'.bound == s.bound)
    && (s.shared.workerStarted ==> s'.shared.workerStarted)
  }

  lemma CallerKept(s: System, s': System, c: Caller)
    requires Grows(s, s') && CallerInv(s, c)
    ensures CallerInv(s', c)
  {
  }

  lemma CallersKept(s: System, s': System, i: nat)
    requires Grows(s, s') && |s'.callers| == |s.callers| && i < |s.callers|
    requires forall j | 0 <= j < |s.callers| :: CallerInv(s, s.callers[j])
    requires forall j | 0 <= j < |s.callers| && j != i :: s'.callers[j] == s.callers[j]
    requires CallerInv(s', s'.callers[i])
    ensures forall j | 0 <= j < |s'.callers| :: CallerInv(s', s'.callers[j])
  {
    forall j | 0 <= j < |s'.callers|
      ensures CallerInv(s', s'.callers[j])
    {
      if j != i {
        CallerKept(s, s', s.callers[j]);
      }
    }
  }

  lemma BindKeeps(s: System, key: Key, outcome: bool, bound: Option<Bound>)
    requires BindingInv(s) && bound == Bind(s.bound, key, outcome).1
    ensures s.bound.Some? ==> bound == s.bound
    ensures Bind(s.bound, key, outcome).0 ==> BoundTo(bound, key)
    ensures BindingInv(s.(bound := bound))
  {
  }

  /** Steps that leave the shared cache alone. */
  lemma LocalCallerStep(s: System, i: nat, outcome: bool)
    requires Inv(s) && i < |s.callers|
    requires !s.callers[i].QueueEnsureWorker? && !s.callers[i].QueuePush? && !s.callers[i].PushState?
    ensures Inv(StepCaller(s, i, outcome)) && Grows(s, StepCaller(s, i, outcome))
  {
    var s' := StepCaller(s, i, outcome);
    if s.callers[i].Binding? {
      BindKeeps(s, s.callers[i].key, outcome, s'.bound);
    }
    assert CallerInv(s, s.callers[i]);
    CallersKept(s, s', i);
  }

  lemma EnsureWorkerStep(s: System, i: nat, outcome: bool)
    requires Inv(s) && i < |s.callers| && s.callers[i].QueueEnsureWorker?
    ensures Inv(StepCaller(s, i, outcome)) && Grows(s, StepCaller(s, i, outcome))
  {
    var s' := StepCaller(s, i, outcome);
    assert s'.shared.PendingKeys() == s.shared.PendingKeys();
    CallersKept(s, s', i);
  }

  lemma QueuePushStep(s: System, i: nat, outcome: bool)
    requires Inv(s) && i < |s.callers| && s.callers[i].QueuePush?
    ensures Inv(StepCaller(s, i, outcome)) && Grows(s, StepCaller(s, i, outcome))
  {
    var s' := StepCaller(s, i, outcome);
    assert CallerInv(s, s.callers[i]);
    PushedInv(s.shared, s.callers[i].key);
    PushedIsAsked(s.shared, s.callers[i].key);
    CallersKept(s, s', i);
  }

  lemma WithStateInv(sh: Shared, key: Key)
    requires CacheInv(sh)
    ensures CacheInv(sh.WithState(key)) && key in sh.WithState(key).states && sh.states <= sh.WithState(key).states
  {
    assert sh.WithState(key).PendingKeys() == sh.PendingKeys();
  }

  lemma PushStateStep(s: System, i: nat, outcome: bool)
    requires Inv(s) && i < |s.callers| && s.callers[i].PushState?
    ensures Inv(StepCaller(s, i, outcome)) && Grows(s, StepCaller(s, i, outcome))
  {
    var s' := StepCaller(s, i, outcome);
    assert CallerInv(s, s.callers[i]);
    WithStateInv(s.shared, s.callers[i].key);
    CallersKept(s, s', i);
  }

  lemma CallersKeptByWorker(s: System, s': System)
    requires Grows(s, s') && s'.callers == s.callers
    requires forall j | 0 <= j < |s.callers| :: CallerInv(s, s.callers[j])
    ensures forall j | 0 <= j < |s'.callers| :: CallerInv(s', s'.callers[j])
  {
    forall j | 0 <= j < |s'.callers|
      ensures CallerInv(s', s'.callers[j])
    {
      CallerKept(s, s', s.callers[j]);
    }
  }

  lemma TakeStep(s: System, w: nat, outcome: bool)
    requires Inv(s) && w < |s.workers| && s.workers[w].Idle?
    ensures Inv(StepWorker(s, w, outcome)) && Grows(s, StepWorker(s, w, outcome))
  {
    var s' := StepWorker(s, w, outcome);
    NextIsHead(s.shared, s.workers);
    assert s'.shared.PendingKeys() == s.shared.PendingKeys();
    CallersKeptByWorker(s, s');
  }

  lemma WorkerBuildStep(s: System, w: nat, outcome: bool)
    requires Inv(s) && w < |s.workers| && (s.workers[w].WorkerBinding? || s.workers[w].WorkerBuilding?)
    ensures Inv(StepWorker(s, w, outcome)) && Grows(s, StepWorker(s, w, outcome))
  {
    var s' := StepWorker(s, w, outcome);
    if s.workers[w].WorkerBinding? {
      BindKeeps(s, s.shared.tasks[s.workers[w].task].key, outcome, s'.bound);
    }
    CallersKeptByWorker(s, s');
  }

  lemma PublishCache(sh: Shared, workers: seq<Worker>, task: nat, ok: bool)
    requires CacheInv(sh) && WorkerInv(sh, workers) && TaskInv(sh, workers) && workers == [Publishing(task, ok)]
    ensures var sh' := sh.Published(task, ok);
      CacheInv(sh') && sh'.pending == sh.pending[1..] && task !in sh'.pending
    ensures var sh' := sh.Published(task, ok);
      sh'.tasks == sh.tasks && sh.states <= sh'.states && (ok ==> sh.tasks[task].key in sh'.states)
  {
    WithStateInv(sh, sh.tasks[task].key);
    PublishedInv(sh, task, ok);
    assert sh.pending == [task] + sh.pending[1..];
  }

  lemma PublishWorkerInv(sh: Shared, sh': Shared, task: nat, ok: bool)
    requires CacheInv(sh) && WorkerInv(sh, [Publishing(task, ok)]) && TaskInv(sh, [Publishing(task, ok)])
    requires sh'.tasks == sh.tasks && sh'.pending == sh.pending[1..] && sh'.workerStarted == sh.workerStarted
    requires sh.states <= sh'.states && (ok ==> sh.tasks[task].key in sh'.states)
    requires sh'.Valid() && task !in sh'.pending
    ensures WorkerInv(sh', [Completing(task, ok)])
    ensures TaskInv(sh', [Completing(task, ok)])
  {
    forall i | 0 <= i < |sh'.pending|
      ensures !sh'.tasks[sh'.pending[i]].started
    {
      assert sh'.pending[i] == sh.pending[i + 1];
    }
    assert sh.pending == [task] + sh'.pending;
  }

  lemma PublishStep(s: System, w: nat, outcome: bool)
    requires Inv(s) && w < |s.workers| && s.workers[w].Publishing?
    ensures Inv(StepWorker(s, w, outcome)) && Grows(s, StepWorker(s, w, outcome))
    ensures StepWorker(s, w, outcome).shared.pending == s.shared.pending[1..]
  {
    var s' := StepWorker(s, w, outcome);
    var task, ok := s.workers[w].task, s.workers[w].ok;
    assert s.workers == [Publishing(task, ok)];
    PublishCache(s.shared, s.workers, task, ok);
    PublishWorkerInv(s.shared, s'.shared, task, ok);
    assert s'.workers == [Completing(task, ok)];
    CallersKeptByWorker(s, s');
  }

  lemma CompleteStep(s: System, w: nat, outcome: bool)
    requires Inv(s) && w < |s.workers| && s.workers[w].Completing?
    ensures Inv(StepWorker(s, w, outcome)) && Grows(s, StepWorker(s, w, outcome))
  {
    var s' := StepWorker(s, w, outcome);
    assert s'.shared.PendingKeys() == s.shared.PendingKeys();
    CallersKeptByWorker(s, s');
  }

  lemma StepKeepsInv(s: System, step: Step)
    requires Inv(s)
    ensures Inv(Next(s, step)) && Grows(s, Next(s, step))
  {
    match step
    case CallerStep(i, outcome) =>
      if i < |s.callers| {
        if s.callers[i].QueueEnsureWorker? {
          EnsureWorkerStep(s, i, outcome);
        } else if s.callers[i].QueuePush? {
          QueuePushStep(s, i, outcome);
        } else if s.callers[i].PushState? {
          PushStateStep(s, i, outcome);
        } else {
          LocalCallerStep(s, i, outcome);
        }
      }
    case WorkerStep(w, outcome) =>
      if w < |s.workers| {
        match s.workers[w]
        case Idle => TakeStep(s, w, outcome);
        case Publishing(_, _) => PublishStep(s, w, outcome);
        case Completing(_, _) => CompleteStep(s, w, outcome);
        case _ => WorkerBuildStep(s, w, outcome);
      }
    case _ =>
      var s' := Next(s, step);
      forall j | 0 <= j < |s'.callers|
        ensures CallerInv(s', s'.callers[j])
      {
        if j < |s.callers| {
          CallerKept(s, s', s.callers[j]);
        }
      }
  }

  // ---------------------------------------------------------------- runs

  /** The state after any interleaving. */
  function Run(s: System, steps: seq<Step>): (r: System)
    requires Inv(s)
    ensures Inv(r) && Grows(s, r)
  {
    if steps == [] then s
    else
      var before := Run(s, steps[..|steps| - 1]);
      StepKeepsInv(before, steps[|steps| - 1]);
      Next(before, steps[|steps| - 1])
  }

  /** The task has failed, whether or not its waiters know it yet. */
  predicate HasFailed(s: System, id: nat)
    requires id < |s.shared.tasks|
  {
    (s.shared.tasks[id].done && !s.shared.tasks[id].ok) || Completing(id, false) in s.workers
  }

  /** Main result: in every interleaving cached states and pending tasks have
      pairwise distinct keys, there is at most one worker, and every task that was
      ever pushed is pending, has its key cached, or has failed. */
  lemma NothingIsLost(steps: seq<Step>)
    ensures var s := Run(INITIAL, steps);
      && NoDuplicates(s.shared.states) && NoDuplicates(s.shared.PendingKeys()) && |s.workers| <= 1
      && forall id | 0 <= id < |s.shared.tasks| ::
           id in s.shared.pending || s.shared.tasks[id].key in s.shared.states || HasFailed(s, id)
  {
    var s := Run(INITIAL, steps);
    forall id | 0 <= id < |s.shared.tasks|
      ensures id in s.shared.pending || s.shared.tasks[id].key in s.shared.states || HasFailed(s, id)
    {
      if id !in s.shared.pending && !s.shared.tasks[id].done && !s.workers[0].ok {
        assert s.workers[0] == Completing(id, false);
      }
    }
  }

  /** A task leaves the queue only from its head, by the worker's publication, and
      its key is cached by that same step if the build succeeded. */
  lemma LeavesQueueAtomically(s: System, step: Step, id: nat)
    requires Inv(s) && id in s.shared.pending && id !in Next(s, step).shared.pending
    ensures s.shared.pending[0] == id && |s.workers| == 1 && s.workers[0].Publishing? && s.workers[0].task == id
    ensures s.workers[0].ok ==> s.shared.tasks[id].key in Next(s, step).shared.states
    ensures !s.workers[0].ok ==> HasFailed(Next(s, step), id)
  {
    match step
    case WorkerStep(w, outcome) =>
      if w < |s.workers| && s.workers[w].Publishing? {
        PublishStep(s, w, outcome);
        assert s.shared.pending == [s.shared.pending[0]] + s.shared.pending[1..];
        WithStateInv(s.shared, s.shared.tasks[s.workers[w].task].key);
        assert Next(s, step).workers[0] == Completing(s.workers[w].task, s.workers[w].ok);
      }
    case _ =>
  }

  /** Only the head of the queue is started. */
  predicate StartsHeadOnly(sh: Shared, sh': Shared) {
    forall id | 0 <= id < |sh.tasks| && id < |sh'.tasks| && sh'.tasks[id].started && !sh.tasks[id].started ::
      sh.pending != [] && id == sh.pending[0]
  }

  /** A new task goes to the tail, or the head leaves, or the queue stays as it is. */
  predicate InPushOrder(sh: Shared, sh': Shared) {
    || sh'.pending == sh.pending
    || sh'.pending == sh.pending + [|sh.tasks|]
    || (sh.pending != [] && sh'.pending == sh.pending[1..])
  }

  lemma WorkerServes(s: System, w: nat, outcome: bool)
    requires Inv(s) && w < |s.workers|
    ensures InPushOrder(s.shared, StepWorker(s, w, outcome).shared)
    ensures StartsHeadOnly(s.shared, StepWorker(s, w, outcome).shared)
  {
    match s.workers[w]
    case Publishing(task, ok) =>
      PublishStep(s, w, outcome);
      assert StepWorker(s, w, outcome).shared.tasks == s.shared.tasks;
    case Idle => NextIsHead(s.shared, s.workers);
    case _ => assert StepWorker(s, w, outcome).shared.pending == s.shared.pending;
  }

  lemma CallerServes(s: System, i: nat, outcome: bool)
    requires s.shared.Valid() && i < |s.callers|
    ensures InPushOrder(s.shared, StepCaller(s, i, outcome).shared)
    ensures StartsHeadOnly(s.shared, StepCaller(s, i, outcome).shared)
  {
  }

  /** Tasks are served in the order in which they were pushed: one step appends a
      new task at the tail, removes the head, or leaves the queue as it is; and
      only the head is started. */
  lemma ServedInOrder(s: System, step: Step)
    requires Inv(s)
    ensures InPushOrder(s.shared, Next(s, step).shared) && StartsHeadOnly(s.shared, Next(s, step).shared)
  {
    match step
    case CallerStep(i, outcome) =>
      if i < |s.callers| {
        CallerServes(s, i, outcome);
      }
    case WorkerStep(w, outcome) =>
      if w < |s.workers| {
        WorkerServes(s, w, outcome);
      }
    case _ =>
  }

  /** A call that looks the key up while its state is cached: it uses that state. A
      prewarm succeeds at once; a creation initializes a Runtime from it or fails. */
  predicate UsesTheState(c: Caller, key: Key, goal: Goal, waited: bool) {
    || c == Lookup(key, goal, waited)
    || (goal.Prewarm? && c == Prewarmed(key))
    || (goal.Create? && (c == Building(key, Create, true, waited) || c == Created(key, true, waited)
                         || c == Refused(key)))
  }

  lemma CallersStay(s: System, step: Step, i: nat)
    requires s.shared.Valid() && i < |s.callers| && (step.CallerStep? ==> step.caller != i)
    ensures |Next(s, step).callers| >= |s.callers| && Next(s, step).callers[i] == s.callers[i]
  {
  }

  lemma {:induction false} CachedStateIsUsed(s: System, steps: seq<Step>, i: nat, key: Key, goal: Goal, waited: bool)
    requires Inv(s) && i < |s.callers| && s.callers[i] == Lookup(key, goal, waited) && key in s.shared.states
    ensures i < |Run(s, steps).callers| && UsesTheState(Run(s, steps).callers[i], key, goal, waited)
  {
    if steps != [] {
      var n := |steps| - 1;
      CachedStateIsUsed(s, steps[..n], i, key, goal, waited);
      UseContinues(Run(s, steps[..n]), steps[n], i, key, goal, waited);
    }
  }

  lemma UseContinues(s: System, step: Step, i: nat, key: Key, goal: Goal, waited: bool)
    requires s.shared.Valid() && i < |s.callers| && UsesTheState(s.callers[i], key, goal, waited)
    requires key in s.shared.states
    ensures i < |Next(s, step).callers| && UsesTheState(Next(s, step).callers[i], key, goal, waited)
  {
    if !step.CallerStep? || step.caller != i {
      CallersStay(s, step, i);
    }
  }

  /** A queue call that looks for a state which is cached pushes no task: whatever happens,
      it succeeds at once. */
  lemma {:induction false} CachedKeyIsNotQueued(s: System, steps: seq<Step>, i: nat, key: Key)
    requires Inv(s) && i < |s.callers| && s.callers[i] == QueueFindState(key) && key in s.shared.states
    ensures i < |Run(s, steps).callers| && Run(s, steps).callers[i] in {QueueFindState(key), Queued(key)}
  {
    if steps != [] {
      var n := |steps| - 1;
      CachedKeyIsNotQueued(s, steps[..n], i, key);
      NotQueuedContinues(Run(s, steps[..n]), steps[n], i, key);
    }
  }

  lemma NotQueuedContinues(s: System, step: Step, i: nat, key: Key)
    requires s.shared.Valid() && i < |s.callers| && key in s.shared.states
    requires s.callers[i] in {QueueFindState(key), Queued(key)}
    ensures i < |Next(s, step).callers| && Next(s, step).callers[i] in {QueueFindState(key), Queued(key)}
  {
    if !step.CallerStep? || step.caller != i {
      CallersStay(s, step, i);
    }
  }

  /** A creation that was released with success: from the end of its wait on it never binds
      or builds, and the Runtime it initializes is a prewarm hit. */
  predicate HitsAfterWait(c: Caller) {
    match c
    case Binding(_, _, waited) => !waited
    case Building(_, _, hit, waited) => waited ==> hit
    case Created(_, hit, waited) => waited ==> hit
    case _ => true
  }

  /** Main result: a waiter that is released with success finds the state of its key, and
      whatever happens then it uses that state: a Runtime initialized after such a wait is
      a prewarm hit, and a prewarm returns without building. */
  lemma ReleasedWaiterHits(steps: seq<Step>, more: seq<Step>, i: nat)
    requires i < |Run(INITIAL, steps).callers|
    ensures HitsAfterWait(Run(INITIAL, steps).callers[i])
    ensures var s := Run(INITIAL, steps);
      s.callers[i].Lookup? && s.callers[i].waited ==>
        && s.callers[i].key in s.shared.states
        && i < |Run(s, more).callers|
        && UsesTheState(Run(s, more).callers[i], s.callers[i].key, s.callers[i].goal, true)
  {
    var s := Run(INITIAL, steps);
    assert CallerInv(s, s.callers[i]);
    if s.callers[i].Lookup? && s.callers[i].waited {
      CachedStateIsUsed(s, more, i, s.callers[i].key, s.callers[i].goal, true);
    }
  }

  /** A call that finds a pending task of its key waits for that task until it is reported,
      whatever happens in between. */
  lemma {:induction false} PendingTaskIsAwaited(s: System, outcome: bool, steps: seq<Step>, i: nat)
    requires Inv(s) && i < |s.callers| && s.callers[i].WaitFind? && s.callers[i].key in s.shared.PendingKeys()
    ensures var s' := StepCaller(s, i, outcome);
      && Inv(s') && i < |s'.callers| && s'.callers[i].Waiting?
      && s'.callers[i].task in s.shared.pending && s.shared.tasks[s'.callers[i].task].key == s.callers[i].key
      && i < |Run(s', steps).callers| && s'.callers[i].task < |Run(s', steps).shared.tasks|
      && (Run(s', steps).shared.tasks[s'.callers[i].task].done || Run(s', steps).callers[i] == s'.callers[i])
  {
    var s' := StepCaller(s, i, outcome);
    StepKeepsInv(s, CallerStep(i, outcome));
    FindTaskInQueue(s.shared, s.callers[i].key);
    WaitsUntilReported(s', steps, i);
  }

  lemma {:induction false} WaitsUntilReported(s: System, steps: seq<Step>, i: nat)
    requires Inv(s) && i < |s.callers| && s.callers[i].Waiting?
    ensures i < |Run(s, steps).callers| && s.callers[i].task < |Run(s, steps).shared.tasks|
    ensures Run(s, steps).shared.tasks[s.callers[i].task].done || Run(s, steps).callers[i] == s.callers[i]
  {
    assert CallerInv(s, s.callers[i]);
    if steps != [] {
      var n := |steps| - 1;
      WaitsUntilReported(s, steps[..n], i);
      WaitContinues(Run(s, steps[..n]), steps[n], i, s.callers[i]);
    }
  }

  lemma WaitContinues(s: System, step: Step, i: nat, c: Caller)
    requires Inv(s) && i < |s.callers| && c.Waiting? && c.task < |s.shared.tasks|
    requires s.shared.tasks[c.task].done || s.callers[i] == c
    ensures var s' := Next(s, step);
      && i < |s'.callers| && c.task < |s'.shared.tasks|
      && (s'.shared.tasks[c.task].done || s'.callers[i] == c)
  {
    StepKeepsInv(s, step);
    if s.shared.tasks[c.task].done {
      DoneStays(s, step, c.task);
    } else if !step.CallerStep? || step.caller != i {
      CallersStay(s, step, i);
    }
  }

  lemma DoneStays(s: System, step: Step, id: nat)
    requires s.shared.Valid() && id < |s.shared.tasks| && s.shared.tasks[id].done
    ensures id < |Next(s, step).shared.tasks| && Next(s, step).shared.tasks[id].done
    ensures |Next(s, step).callers| >= |s.callers|
  {
  }

  /** Waiting ends in Lookup only through a task that succeeded for the same key. */
  lemma WaitedMeansSucceeded(s: System, i: nat, outcome: bool)
    requires Inv(s) && i < |s.callers| && s.callers[i].Waiting?
    ensures match StepCaller(s, i, outcome).callers[i]
      case Waiting(_, _, _) => !s.shared.tasks[s.callers[i].task].done
      case Lookup(key, _, waited) => waited && key == s.callers[i].key && key in s.shared.states
      case Refused(key) => key == s.callers[i].key && HasFailed(s, s.callers[i].task)
      case _ => false
  {
    assert CallerInv(s, s.callers[i]);
  }

  lemma FourSteps(s: System, a: Step, b: Step, c: Step, d: Step)
    requires Inv(s)
    ensures Inv(Next(s, a)) && Inv(Next(Next(s, a), b)) && Inv(Next(Next(Next(s, a), b), c))
    ensures Run(s, [a, b, c, d]) == Next(Next(Next(Next(s, a), b), c), d)
  {
    assert Run(s, []) == s && [] + [a] == [a] && [a] + [b] == [a, b] && [a, b] + [c] == [a, b, c];
    assert [a, b, c] + [d] == [a, b, c, d];
    RunOneMore(s, [], a);
    RunOneMore(s, [a], b);
    RunOneMore(s, [a, b], c);
    RunOneMore(s, [a, b, c], d);
  }

  /** One more call. */
  function Calling(s: System, c: Caller): System {
    s.(callers := s.callers + [c])
  }

  lemma CallGoesOn(s: System, c: Caller, c': Caller)
    requires s.shared.Valid()
    requires var called := Calling(s, c);
      StepCaller(called, |s.callers|, true) == called.(callers := called.callers[|s.callers| := c'])
    ensures Next(Calling(s, c), CallerStep(|s.callers|, true)) == Calling(s, c')
  {
    assert (s.callers + [c])[|s.callers| := c'] == s.callers + [c'];
  }

  lemma CreationSteps(s: System, key: Key)
    requires s.shared.Valid() && key in s.shared.states && key !in s.shared.PendingKeys()
    ensures var step := CallerStep(|s.callers|, true);
      && Next(s, CreateRuntime(key)) == Calling(s, WaitFind(key, Create))
      && Next(Calling(s, WaitFind(key, Create)), step) == Calling(s, Lookup(key, Create, false))
      && Next(Calling(s, Lookup(key, Create, false)), step) == Calling(s, Building(key, Create, true, false))
      && Next(Calling(s, Building(key, Create, true, false)), step) == Calling(s, Created(key, true, false))
  {
    FindTaskInQueue(s.shared, key);
    CallGoesOn(s, WaitFind(key, Create), Lookup(key, Create, false));
    CallGoesOn(s, Lookup(key, Create, false), Building(key, Create, true, false));
    CallGoesOn(s, Building(key, Create, true, false), Created(key, true, false));
  }

  /** A creation that nothing interrupts, of a key that is cached and not pending, is a hit. */
  lemma CreationHits(s: System, key: Key)
    requires Inv(s) && key in s.shared.states && key !in s.shared.PendingKeys()
    ensures var step := CallerStep(|s.callers|, true);
      Run(s, [CreateRuntime(key), step, step, step]) == s.(callers := s.callers + [Created(key, true, false)])
  {
    var step := CallerStep(|s.callers|, true);
    FourSteps(s, CreateRuntime(key), step, step, step);
    CreationSteps(s, key);
  }

  // ---------------------------------------------------------------- outcomes are told truly

  /** The keys of all states that were built, and the tasks whose build succeeded. */
  datatype Builds = Builds(keys: set<Key>, tasks: set<nat>)

  function BuiltBy(s: System, step: Step, b: Builds): Builds {
    match step
    case CallerStep(i, true) =>
      if i < |s.callers| && s.callers[i].Building? && s.callers[i].goal.Prewarm?
      then b.(keys := b.keys + {s.callers[i].key}) else b
    case WorkerStep(w, true) =>
      if w < |s.workers| && s.workers[w].WorkerBuilding? && s.workers[w].task < |s.shared.tasks|
      then Builds(b.keys + {s.shared.tasks[s.workers[w].task].key}, b.tasks + {s.workers[w].task}) else b
    case _ => b
  }

  function AllBuilt(steps: seq<Step>): Builds {
    if steps == [] then Builds({}, {})
    else BuiltBy(Run(INITIAL, steps[..|steps| - 1]), steps[|steps| - 1], AllBuilt(steps[..|steps| - 1]))
  }

  predicate WorkerTells(sh: Shared, w: Worker, b: Builds) {
    match w
    case WorkerBinding(id) => id !in b.tasks
    case WorkerBuilding(id) => id !in b.tasks
    case Publishing(id, ok) => (ok <==> id in b.tasks) && (ok ==> id < |sh.tasks| && sh.tasks[id].key in b.keys)
    case Completing(id, ok) => ok <==> id in b.tasks
    case Idle => true
  }

  /** What was built is told, and nothing else is. */
  predicate Truthful(s: System, b: Builds) {
    && (forall key | key in s.shared.states :: key in b.keys)
    && (forall id | id in b.tasks :: id < |s.shared.tasks|)
    && (forall id | 0 <= id < |s.shared.tasks| && s.shared.tasks[id].done :: s.shared.tasks[id].ok <==> id in b.tasks)
    && (forall id | id in b.tasks && id < |s.shared.tasks| && id in s.shared.pending ::
          |s.workers| == 1 && Held(s.workers[0]) == Some(id))
    && (forall w | 0 <= w < |s.workers| :: WorkerTells(s.shared, s.workers[w], b))
    && (forall i | 0 <= i < |s.callers| && s.callers[i].PushState? :: s.callers[i].key in b.keys)
  }

  /** Calls that leave cache and worker alone. */
  lemma LocalCallTells(s: System, i: nat, outcome: bool, b: Builds)
    requires s.shared.Valid() && Truthful(s, b) && i < |s.callers|
    requires !s.callers[i].QueueEnsureWorker? && !s.callers[i].QueuePush? && !s.callers[i].PushState?
    ensures Truthful(StepCaller(s, i, outcome), BuiltBy(s, CallerStep(i, outcome), b))
  {
  }

  lemma CallerTells(s: System, i: nat, outcome: bool, b: Builds)
    requires Inv(s) && Truthful(s, b) && i < |s.callers|
    ensures Truthful(StepCaller(s, i, outcome), BuiltBy(s, CallerStep(i, outcome), b))
  {
    match s.callers[i]
    case QueueEnsureWorker(_) =>
    case QueuePush(key) => assert BuiltBy(s, CallerStep(i, outcome), b) == b;
    case PushState(key) => assert BuiltBy(s, CallerStep(i, outcome), b) == b;
    case _ => LocalCallTells(s, i, outcome, b);
  }

  lemma TakeTells(s: System, outcome: bool, b: Builds)
    requires Inv(s) && Truthful(s, b) && |s.workers| == 1 && s.workers[0].Idle?
    ensures Truthful(StepWorker(s, 0, outcome), b)
  {
    NextIsHead(s.shared, s.workers);
  }

  lemma BuildTells(s: System, outcome: bool, b: Builds)
    requires Inv(s) && Truthful(s, b) && |s.workers| == 1
    requires s.workers[0].WorkerBinding? || s.workers[0].WorkerBuilding?
    ensures Truthful(StepWorker(s, 0, outcome), BuiltBy(s, WorkerStep(0, outcome), b))
  {
  }

  lemma PublishTells(s: System, outcome: bool, b: Builds)
    requires Inv(s) && Truthful(s, b) && |s.workers| == 1 && s.workers[0].Publishing?
    ensures Truthful(StepWorker(s, 0, outcome), b)
  {
    PublishStep(s, 0, outcome);
    TailNoDuplicates(s.shared.pending);
  }

  lemma CompleteTells(s: System, outcome: bool, b: Builds)
    requires Inv(s) && Truthful(s, b) && |s.workers| == 1 && s.workers[0].Completing?
    ensures Truthful(StepWorker(s, 0, outcome), b)
  {
  }

  lemma WorkerStepTells(s: System, w: nat, outcome: bool, b: Builds)
    requires Inv(s) && Truthful(s, b) && w < |s.workers|
    ensures Truthful(StepWorker(s, w, outcome), BuiltBy(s, WorkerStep(w, outcome), b))
  {
    match s.workers[0]
    case Idle => TakeTells(s, outcome, b);
    case Publishing(_, _) => PublishTells(s, outcome, b);
    case Completing(_, _) => CompleteTells(s, outcome, b);
    case _ => BuildTells(s, outcome, b);
  }

  lemma StepTells(s: System, step: Step, b: Builds)
    requires Inv(s) && Truthful(s, b)
    ensures Truthful(Next(s, step), BuiltBy(s, step, b))
  {
    match step
    case CallerStep(i, outcome) =>
      if i < |s.callers| {
        CallerTells(s, i, outcome, b);
      }
    case WorkerStep(w, outcome) =>
      if w < |s.workers| {
        WorkerStepTells(s, w, outcome, b);
      }
    case _ =>
  }

  /** Main result: in every interleaving a task is reported as a success if and only if its
      own build succeeded, and a state is cached only after a build of its key succeeded. */
  lemma {:induction false} OutcomesAreTrue(steps: seq<Step>)
    ensures Truthful(Run(INITIAL, steps), AllBuilt(steps))
    ensures var s, b := Run(INITIAL, steps), AllBuilt(steps);
      && (forall key | key in s.shared.states :: key in b.keys)
      && (forall id | 0 <= id < |s.shared.tasks| && s.shared.tasks[id].done ::
            s.shared.tasks[id].ok <==> id in b.tasks)
  {
    if steps != [] {
      var n := |steps| - 1;
      OutcomesAreTrue(steps[..n]);
      StepTells(Run(INITIAL, steps[..n]), steps[n], AllBuilt(steps[..n]));
    }
  }

  /** Nothing fails in the step, and its key is of the one CUDA path and device. */
  predicate Sunny(step: Step, b: Bound) {
    match step
    case CallerStep(_, outcome) => outcome
    case WorkerStep(_, outcome) => outcome
    case _ => Of(step.key, b)
  }

  predicate Of(key: Key, b: Bound) {
    Bound(key.cudart, key.device) == b
  }

  predicate WellSoFar(s: System, b: Bound) {
    && (s.bound.None? || s.bound == Some(b))
    && (forall i | 0 <= i < |s.callers| :: !s.callers[i].Refused? && Of(s.callers[i].key, b))
    && (forall id | 0 <= id < |s.shared.tasks| ::
          Of(s.shared.tasks[id].key, b) && (s.shared.tasks[id].done ==> s.shared.tasks[id].ok))
    && (forall w | 0 <= w < |s.workers| ::
          (s.workers[w].Publishing? ==> s.workers[w].ok) && (s.workers[w].Completing? ==> s.workers[w].ok))
  }

  lemma CallerGoesWell(s: System, i: nat, b: Bound)
    requires Inv(s) && WellSoFar(s, b) && i < |s.callers|
    ensures WellSoFar(StepCaller(s, i, true), b)
  {
    assert CallerInv(s, s.callers[i]);
  }

  lemma WorkerGoesWell(s: System, w: nat, b: Bound)
    requires Inv(s) && WellSoFar(s, b) && w < |s.workers|
    ensures WellSoFar(StepWorker(s, w, true), b)
  {
  }

  /** Main result: while nothing fails and all calls are for one CUDA path and device, no
      call is refused and no task fails, in any interleaving. */
  lemma {:induction false} SunnyRunsSucceed(steps: seq<Step>, b: Bound)
    requires forall step | step in steps :: Sunny(step, b)
    ensures WellSoFar(Run(INITIAL, steps), b)
  {
    if steps != [] {
      var n, s := |steps| - 1, Run(INITIAL, steps[..|steps| - 1]);
      SunnyRunsSucceed(steps[..n], b);
      assert steps[n] in steps;
      SunnyStep(s, steps[n], b);
    }
  }

  lemma SunnyStep(s: System, step: Step, b: Bound)
    requires Inv(s) && WellSoFar(s, b) && Sunny(step, b)
    ensures WellSoFar(Next(s, step), b)
  {
    match step
    case CallerStep(i, _) =>
      if i < |s.callers| {
        CallerGoesWell(s, i, b);
      }
    case WorkerStep(w, _) =>
      if w < |s.workers| {
        WorkerGoesWell(s, w, b);
      }
    case _ =>
  }

  /** Everything that may fail fails. */
  predicate Stormy(step: Step) {
    match step
    case CallerStep(_, outcome) => !outcome
    case WorkerStep(_, outcome) => !outcome
    case _ => true
  }

  /** Nothing has been bound or built. */
  predicate NothingMade(s: System) {
    && s.bound.None? && s.shared.states == []
    && (forall i | 0 <= i < |s.callers| ::
          !s.callers[i].Building? && !s.callers[i].PushState? && !s.callers[i].Created? && !s.callers[i].Prewarmed?)
    && (forall w | 0 <= w < |s.workers| ::
          && !s.workers[w].WorkerBuilding?
          && (s.workers[w].Publishing? ==> !s.workers[w].ok) && (s.workers[w].Completing? ==> !s.workers[w].ok))
  }

  lemma StormyStep(s: System, step: Step)
    requires s.shared.Valid() && NothingMade(s) && Stormy(step)
    ensures NothingMade(Next(s, step))
  {
  }

  /** While whatever may fail does fail, nothing is bound, cached or created. */
  lemma {:induction false} StormyRunsMakeNothing(steps: seq<Step>)
    requires forall step | step in steps :: Stormy(step)
    ensures NothingMade(Run(INITIAL, steps))
  {
    if steps != [] {
      var n := |steps| - 1;
      StormyRunsMakeNothing(steps[..n]);
      assert steps[n] in steps;
      StormyStep(Run(INITIAL, steps[..n]), steps[n]);
    }
  }

  /** Everything that was built in the process, prewarmed or not, belongs to one
      CUDA Runtime path and one D3D11 device. */
  lemma OneBinding(steps: seq<Step>, a: Key, b: Key)
    requires WasBuilt(Run(INITIAL, steps), a) && WasBuilt(Run(INITIAL, steps), b)
    ensures a.cudart == b.cudart && a.device == b.device
  {
    var s := Run(INITIAL, steps);
    BuiltIsBound(s, a);
    BuiltIsBound(s, b);
  }

  predicate WasBuilt(s: System, key: Key) {
    key in s.shared.states
    || exists i :: 0 <= i < |s.callers| && s.callers[i].Created? && s.callers[i].key == key
  }

  lemma BuiltIsBound(s: System, key: Key)
    requires Inv(s) && WasBuilt(s, key)
    ensures BoundTo(s.bound, key)
  {
    if key !in s.shared.states {
      var i :| 0 <= i < |s.callers| && s.callers[i].Created? && s.callers[i].key == key;
      assert CallerInv(s, s.callers[i]);
    }
  }

  // ---------------------------------------------------------------- progress

  function Position(ids: seq<nat>, id: nat): nat
    requires id in ids
  {
    if ids[0] == id then 0 else 1 + Position(ids[1..], id)
  }

  /** How far the worker is from its next publication. */
  function Phase(w: Worker): nat {
    match w
    case Idle => 5
    case WorkerBinding(_) => 4
    case WorkerBuilding(_) => 3
    case Publishing(_, _) => 2
    case Completing(_, _) => 6
  }

  function QueueRank(pending: seq<nat>, workers: seq<Worker>, done: bool, id: nat): nat {
    if id in pending then 5 * Position(pending, id) + if workers == [] then 6 else Phase(workers[0])
    else if done then 0
    else 1
  }

  /** How many steps of the worker a task still needs at most: at most five for
      every task in front of it and for itself, and one to report the previous one. */
  function Rank(s: System, id: nat): nat
    requires id < |s.shared.tasks|
  {
    QueueRank(s.shared.pending, s.workers, s.shared.tasks[id].done, id)
  }

  lemma {:induction false} PositionAppend(ids: seq<nat>, last: nat, id: nat)
    requires id in ids
    ensures Position(ids + [last], id) == Position(ids, id)
  {
    if ids[0] != id {
      assert (ids + [last])[1..] == ids[1..] + [last];
      PositionAppend(ids[1..], last, id);
    }
  }

  /** The head leaves the queue: everything behind it moves up. */
  lemma QueueAdvances(pending: seq<nat>, task: nat, ok: bool, done: bool, id: nat)
    requires Increasing(pending) && pending != [] && pending[0] == task && (id in pending ==> !done)
    ensures QueueRank(pending[1..], [Completing(task, ok)], done, id)
         <= QueueRank(pending, [Publishing(task, ok)], done, id)
    ensures id in pending ==>
      QueueRank(pending[1..], [Completing(task, ok)], done, id) < QueueRank(pending, [Publishing(task, ok)], done, id)
  {
    assert pending == [pending[0]] + pending[1..];
  }

  lemma PublishRank(s: System, outcome: bool, id: nat)
    requires Inv(s) && id < |s.shared.tasks| && |s.workers| == 1 && s.workers[0].Publishing?
    ensures id < |StepWorker(s, 0, outcome).shared.tasks|
    ensures Rank(s, id) > 0 ==> Rank(StepWorker(s, 0, outcome), id) < Rank(s, id)
    ensures Rank(s, id) == 0 ==> Rank(StepWorker(s, 0, outcome), id) == 0
  {
    var task, ok := s.workers[0].task, s.workers[0].ok;
    PublishStep(s, 0, outcome);
    assert s.workers == [Publishing(task, ok)] && StepWorker(s, 0, outcome).workers == [Completing(task, ok)];
    QueueAdvances(s.shared.pending, task, ok, s.shared.tasks[id].done, id);
    OnlyPendingRank(s, id);
  }

  lemma WorkerRank(s: System, outcome: bool, id: nat)
    requires Inv(s) && id < |s.shared.tasks| && |s.workers| == 1
    ensures id < |StepWorker(s, 0, outcome).shared.tasks|
    ensures Rank(s, id) > 0 ==> Rank(StepWorker(s, 0, outcome), id) < Rank(s, id)
    ensures Rank(s, id) == 0 ==> Rank(StepWorker(s, 0, outcome), id) == 0
  {
    var s' := StepWorker(s, 0, outcome);
    assert s.workers == [s.workers[0]];
    match s.workers[0]
    case Idle =>
      NextIsHead(s.shared, s.workers);
      OnlyPendingRank(s, id);
    case Publishing(_, _) => PublishRank(s, outcome, id);
    case Completing(task, ok) => assert s'.shared.pending == s.shared.pending;
    case _ =>
      assert s'.shared == s.shared;
      OnlyPendingRank(s, id);
  }

  /** While nothing waits to be reported, a task is pending or done. */
  lemma OnlyPendingRank(s: System, id: nat)
    requires Inv(s) && id < |s.shared.tasks| && |s.workers| == 1 && !s.workers[0].Completing?
    ensures id in s.shared.pending || s.shared.tasks[id].done
  {
  }

  lemma PushRank(sh: Shared, key: Key, workers: seq<Worker>, id: nat)
    requires CacheInv(sh) && id < |sh.tasks| && (workers == [] ==> id !in sh.pending)
    ensures QueueRank(sh.Pushed(key).pending, workers, sh.Pushed(key).tasks[id].done, id)
         == QueueRank(sh.pending, workers, sh.tasks[id].done, id)
  {
    if id in sh.pending {
      PositionAppend(sh.pending, |sh.tasks|, id);
    }
  }

  /** Callers never delay a task. */
  lemma CallerRank(s: System, i: nat, outcome: bool, id: nat)
    requires Inv(s) && id < |s.shared.tasks| && i < |s.callers|
    ensures id < |StepCaller(s, i, outcome).shared.tasks|
    ensures Rank(StepCaller(s, i, outcome), id) <= Rank(s, id)
  {
    var s' := StepCaller(s, i, outcome);
    if s.callers[i].QueuePush? {
      PushRank(s.shared, s.callers[i].key, s.workers, id);
    } else {
      assert s'.shared.pending == s.shared.pending && s'.shared.tasks == s.shared.tasks;
      assert s.workers != [] ==> s'.workers == s.workers;
    }
  }

  /** No step delays a task, and every step of the worker brings it closer. */
  lemma RankDecreases(s: System, step: Step, id: nat)
    requires Inv(s) && id < |s.shared.tasks|
    ensures id < |Next(s, step).shared.tasks|
    ensures Rank(Next(s, step), id) <= Rank(s, id)
    ensures step.WorkerStep? && step.worker == 0 && Rank(s, id) > 0 ==> Rank(Next(s, step), id) < Rank(s, id)
  {
    match step
    case WorkerStep(w, outcome) =>
      if w < |s.workers| {
        WorkerRank(s, outcome, id);
      } else {
        assert |s.workers| == 0 ==> id !in s.shared.pending && s.shared.tasks[id].done;
      }
    case CallerStep(i, outcome) =>
      if i < |s.callers| {
        CallerRank(s, i, outcome, id);
      }
    case _ =>
  }

  function WorkerSteps(steps: seq<Step>): nat {
    if steps == [] then 0
    else WorkerSteps(steps[..|steps| - 1])
         + if steps[|steps| - 1].WorkerStep? && steps[|steps| - 1].worker == 0 then 1 else 0
  }

  /** Whatever else happens in between, and whether or not builds succeed, a task
      is reported once the worker has taken as many steps as its rank. */
  lemma {:induction false} EventuallyReported(s: System, steps: seq<Step>, id: nat)
    requires Inv(s) && id < |s.shared.tasks|
    ensures Rank(Run(s, steps), id) == 0 || Rank(Run(s, steps), id) + WorkerSteps(steps) <= Rank(s, id)
    ensures WorkerSteps(steps) >= Rank(s, id) ==> Run(s, steps).shared.tasks[id].done
  {
    if steps != [] {
      var n := |steps| - 1;
      EventuallyReported(s, steps[..n], id);
      var before := Run(s, steps[..n]);
      StepKeepsInv(before, steps[n]);
      RankDecreases(before, steps[n], id);
    }
  }

  // ---------------------------------------------------------------- what is not promised

  lemma RunOneMore(s: System, steps: seq<Step>, step: Step)
    requires Inv(s)
    ensures Run(s, steps + [step]) == Next(Run(s, steps), step)
  {
    assert (steps + [step])[..|steps|] == steps;
  }

  ghost predicate Reached(s: System) {
    exists steps :: Run(INITIAL, steps) == s
  }

  lemma ReachedNext(s: System, step: Step, s': System)
    requires Reached(s) && s.shared.Valid() && Next(s, step) == s'
    ensures Reached(s')
  {
    var steps :| Run(INITIAL, steps) == s;
    RunOneMore(INITIAL, steps, step);
    assert Run(INITIAL, steps + [step]) == s';
  }

  /** One call under way, before any task or state. */
  function Alone(c: Caller, worker: bool): System {
    System(Shared([], [], [], worker), [c], if worker then [Idle] else [], None)
  }

  lemma AloneNext(c: Caller, worker: bool, c': Caller, worker': bool)
    requires Reached(Alone(c, worker)) && StepCaller(Alone(c, worker), 0, true) == Alone(c', worker')
    ensures Reached(Alone(c', worker'))
  {
    ReachedNext(Alone(c, worker), CallerStep(0, true), Alone(c', worker'));
  }

  lemma InitialReached()
    ensures Reached(INITIAL)
  {
    assert Run(INITIAL, []) == INITIAL;
  }

  lemma QueueLooked(key: Key)
    ensures Reached(Alone(QueueFindTask(key), false))
  {
    InitialReached();
    ReachedNext(INITIAL, Queue(key), Alone(QueueFindState(key), false));
    AloneNext(QueueFindState(key), false, QueueFindTask(key), false);
  }

  /** A call that has looked everywhere and is about to push its task. */
  lemma AboutToPush(key: Key)
    ensures Reached(Alone(QueuePush(key), true))
  {
    QueueLooked(key);
    AloneNext(QueueFindTask(key), false, QueueEnsureWorker(key), false);
    AloneNext(QueueEnsureWorker(key), false, QueuePush(key), true);
  }

  /** Meanwhile a synchronous prewarm of the same key. */
  function Beside(key: Key, c: Caller, bound: Option<Bound>): System {
    System(Shared([], [], [], true), [QueuePush(key), c], [Idle], bound)
  }

  lemma BesideNext(key: Key, c: Caller, bound: Option<Bound>, c': Caller, bound': Option<Bound>)
    requires Reached(Beside(key, c, bound))
    requires StepCaller(Beside(key, c, bound), 1, true) == Beside(key, c', bound')
    ensures Reached(Beside(key, c', bound'))
  {
    ReachedNext(Beside(key, c, bound), CallerStep(1, true), Beside(key, c', bound'));
  }

  lemma PrewarmEntered(key: Key)
    ensures Reached(Beside(key, WaitFind(key, Prewarm), None))
  {
    AboutToPush(key);
    ReachedNext(Alone(QueuePush(key), true), PrewarmNow(key), Beside(key, WaitFind(key, Prewarm), None));
  }

  lemma PrewarmLooked(key: Key)
    ensures Reached(Beside(key, Binding(key, Prewarm, false), None))
  {
    PrewarmEntered(key);
    BesideNext(key, WaitFind(key, Prewarm), None, Lookup(key, Prewarm, false), None);
    BesideNext(key, Lookup(key, Prewarm, false), None, Binding(key, Prewarm, false), None);
  }

  lemma PrewarmBuilt(key: Key)
    ensures Reached(Beside(key, PushState(key), Some(Bound(key.cudart, key.device))))
  {
    var bound := Some(Bound(key.cudart, key.device));
    PrewarmLooked(key);
    BesideNext(key, Binding(key, Prewarm, false), None, Building(key, Prewarm, false, false), bound);
    BesideNext(key, Building(key, Prewarm, false, false), bound, PushState(key), bound);
  }

  lemma PrewarmPublished(key: Key) returns (cached: System)
    ensures Reached(cached) && cached.shared == Shared([key], [], [], true)
    ensures cached.callers == [QueuePush(key), Prewarmed(key)]
  {
    var bound := Some(Bound(key.cudart, key.device));
    PrewarmBuilt(key);
    cached := System(Shared([key], [], [], true), [QueuePush(key), Prewarmed(key)], [Idle], bound);
    ReachedNext(Beside(key, PushState(key), bound), CallerStep(1, true), cached);
  }

  /** The task is pushed all the same: a key may be both cached and pending. */
  lemma CachedAndPending(key: Key)
    ensures exists s :: Reached(s) && s.shared.Valid() && key in s.shared.states && key in s.shared.PendingKeys()
  {
    var cached := PrewarmPublished(key);
    PushedBeside(key);
    var both := cached.(callers := cached.callers[0 := Queued(key)],
                        shared := Shared([key], [Task(key, false, false, false)], [0], true));
    ReachedNext(cached, CallerStep(0, true), both);
  }

  lemma PushedBeside(key: Key)
    ensures Shared([key], [], [], true).Pushed(key) == Shared([key], [Task(key, false, false, false)], [0], true)
    ensures Shared([key], [Task(key, false, false, false)], [0], true).Valid()
    ensures key in Shared([key], [Task(key, false, false, false)], [0], true).PendingKeys()
  {
    assert Shared([key], [Task(key, false, false, false)], [0], true).PendingKeys()[0] == key;
  }

  predicate CachedAndPendingIn(sh: Shared, key: Key)
    requires sh.Valid()
  {
    key in sh.states && key in sh.PendingKeys()
  }

  lemma PublishedMakesNoBoth(sh: Shared, id: nat, ok: bool, key: Key)
    requires CacheInv(sh) && sh.pending != [] && sh.pending[0] == id && !CachedAndPendingIn(sh, key)
    ensures sh.Published(id, ok).Valid() && !CachedAndPendingIn(sh.Published(id, ok), key)
  {
    PublishedInv(sh, id, ok);
    TailNoDuplicates(sh.PendingKeys());
    assert sh.Published(id, ok).PendingKeys() == sh.PendingKeys()[1..];
  }

  lemma MarkedTasksPend(sh: Shared, id: nat, ok: bool)
    requires sh.Valid() && id < |sh.tasks|
    ensures sh.Started(id).PendingKeys() == sh.PendingKeys() == sh.Completed(id, ok).PendingKeys()
  {
  }

  lemma WorkerNeverMakesBoth(s: System, w: nat, outcome: bool, key: Key)
    requires s.shared.Valid() && CacheInv(s.shared) && WorkerInv(s.shared, s.workers) && w < |s.workers|
    requires !CachedAndPendingIn(s.shared, key)
    ensures StepWorker(s, w, outcome).shared.Valid() && !CachedAndPendingIn(StepWorker(s, w, outcome).shared, key)
  {
    match s.workers[w]
    case Idle =>
      NextIsHead(s.shared, s.workers);
      if s.shared.pending != [] {
        MarkedTasksPend(s.shared, s.shared.pending[0], true);
      }
    case Publishing(task, ok) => PublishedMakesNoBoth(s.shared, task, ok, key);
    case Completing(task, ok) => MarkedTasksPend(s.shared, task, ok);
    case _ => assert StepWorker(s, w, outcome).shared == s.shared;
  }

  /** A key becomes both cached and pending by exactly two steps: a queue call pushes its
      task although the key is cached, or a synchronous prewarm publishes its state although
      a task of the key is pending. The worker never makes it so. */
  lemma BecomesCachedAndPendingIff(s: System, step: Step, key: Key)
    requires Inv(s) && !CachedAndPendingIn(s.shared, key)
    ensures Next(s, step).shared.Valid()
    ensures CachedAndPendingIn(Next(s, step).shared, key) <==>
      && step.CallerStep? && step.caller < |s.callers|
      && ((s.callers[step.caller] == QueuePush(key) && key in s.shared.states)
          || (s.callers[step.caller] == PushState(key) && key in s.shared.PendingKeys()))
  {
    match step
    case WorkerStep(w, outcome) =>
      if w < |s.workers| {
        WorkerNeverMakesBoth(s, w, outcome, key);
      }
    case CallerStep(i, outcome) =>
      if i < |s.callers| {
        CallerMakesBoth(s, i, outcome, key);
      }
    case _ =>
  }

  lemma CallerMakesBoth(s: System, i: nat, outcome: bool, key: Key)
    requires s.shared.Valid() && i < |s.callers| && !CachedAndPendingIn(s.shared, key)
    ensures StepCaller(s, i, outcome).shared.Valid()
    ensures CachedAndPendingIn(StepCaller(s, i, outcome).shared, key) <==>
      || (s.callers[i] == QueuePush(key) && key in s.shared.states)
      || (s.callers[i] == PushState(key) && key in s.shared.PendingKeys())
  {
    var sh' := StepCaller(s, i, outcome).shared;
    if s.callers[i].QueuePush? {
      var pushed := s.callers[i].key;
      if pushed !in s.shared.PendingKeys() {
        assert sh'.PendingKeys() == s.shared.PendingKeys() + [pushed];
      }
    } else {
      assert sh'.PendingKeys() == s.shared.PendingKeys();
    }
  }

  /** There is one worker from the first queue call on, so that a pending task always
      has one. */
  lemma OneWorker(steps: seq<Step>)
    ensures var s := Run(INITIAL, steps);
      && |s.workers| == (if s.shared.workerStarted then 1 else 0)
      && (s.shared.pending != [] ==> |s.workers| == 1)
      && (forall i | 0 <= i < |s.callers| && s.callers[i].QueuePush? :: |s.workers| == 1)
  {
    var s := Run(INITIAL, steps);
    forall i | 0 <= i < |s.callers| && s.callers[i].QueuePush?
      ensures |s.workers| == 1
    {
      assert CallerInv(s, s.callers[i]);
    }
  }
}
