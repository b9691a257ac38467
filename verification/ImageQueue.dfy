/** Image loading in src/web/mediastation.js: requests to the native side, the queue
    with two slots, and the account reset. The steps are user actions, replies,
    timeouts and the promise handlers that run after them, in any order. */
module ImageQueue {
  import opened Basics

  type Key = string

  /** Waiting for the native side; answered, with the handlers still to run; settled,
      with only the finally handler still to run. */
  datatype Phase = Waiting | Answered(valid: bool) | Finishing

  datatype Flight = Flight(task: nat, phase: Phase)

  const SLOTS := 2

  /** Tasks and native requests are numbered in the order in which they are made. */
  datatype Loader = Loader(
    keys: seq<Key>,               // of all tasks so far
    queue: seq<nat>,              // tasks waiting for a slot
    active: int,                  // imageActive
    flights: map<nat, Flight>,    // by native request
    pending: set<nat>,            // native requests that still have a timer
    imagePending: map<Key, nat>,
    cache: set<Key>,
    deletes: seq<nat>,            // settled tasks whose imagePending.delete handler has not run
    settlements: seq<nat>,        // how often each task was resolved or rejected
    answers: seq<nat>)            // how often each native request was
  {
    function Launched(accepted: bool): Loader
      requires queue != []
    {
      var r := |answers|;
      this.(queue := queue[1..], active := active + 1,
            flights := flights[r := Flight(queue[0], if accepted then Waiting else Answered(false))],
            pending := if accepted then pending + {r} else pending,
            answers := answers + [if accepted then 0 else 1])
    }

    function Pumped(accepted: bool): Loader
      decreases |queue|
    {
      if active < SLOTS && queue != [] then Launched(accepted).Pumped(accepted) else this
    }

    function Created(key: Key): Loader {
      this.(keys := keys + [key], queue := queue + [|keys|], settlements := settlements + [0])
    }

    function Requested(key: Key, accepted: bool): Loader {
      if key in cache || key in imagePending then this
      else
        var l := Created(key).Pumped(accepted);
        l.(imagePending := l.imagePending[key := |keys|])
    }

    /** A reply or a timeout; one that comes late is dropped. */
    function Replied(request: nat, valid: bool): Loader {
      if request !in pending || request !in flights || request >= |answers| then this
      else this.(pending := pending - {request},
                 flights := flights[request := flights[request].(phase := Answered(valid))],
                 answers := answers[request := answers[request] + 1])
    }

    /** The then and catch handlers of an answered request. */
    function Settled(request: nat): Loader {
      if request !in flights || !flights[request].phase.Answered? then this
      else SettledBy(request, flights[request].task, flights[request].phase.valid)
    }

    function SettledBy(request: nat, task: nat, valid: bool): Loader {
      if task >= |settlements| || task >= |keys| then this
      else this.(flights := flights[request := Flight(task, Finishing)],
                 cache := if valid then cache + {keys[task]} else cache,
                 deletes := deletes + [task],
                 settlements := settlements[task := settlements[task] + 1])
    }

    function Finished(request: nat, accepted: bool): Loader {
      if request !in flights || !flights[request].phase.Finishing? then this
      else this.(flights := flights - {request}, active := active - 1).Pumped(accepted)
    }

    function Deleted(i: nat): Loader {
      if i >= |deletes| || deletes[i] >= |keys| then this
      else this.(deletes := deletes[..i] + deletes[i + 1..], imagePending := imagePending - {keys[deletes[i]]})
    }

    function RejectedFirst(): Loader
      requires queue != []
    {
      this.(queue := queue[1..], deletes := deletes + [queue[0]],
            settlements := if queue[0] < |settlements| then settlements[queue[0] := settlements[queue[0]] + 1]
                           else settlements)
    }

    function AllRejected(): Loader
      decreases |queue|
    {
      if queue == [] then this else RejectedFirst().AllRejected()
    }

    function Reset(): Loader {
      this.(cache := {}, imagePending := map[]).AllRejected()
    }

    ghost predicate Flying(task: nat) {
      exists r :: r in flights && flights[r].task == task && !flights[r].phase.Finishing?
    }

    /** Created and neither resolved nor rejected. */
    ghost predicate Live(task: nat) {
      task in queue || Flying(task)
    }
  }

  // ---------------------------------------------------------------- the code

  /** The fields are always those of a run: whatever holds of every run holds of them. */
  class ImageLoader {
    var keys: seq<Key>
    var queue: seq<nat>
    var active: int
    var flights: map<nat, Flight>
    var pending: set<nat>
    var imagePending: map<Key, nat>
    var cache: set<Key>
    var deletes: seq<nat>
    var settlements: seq<nat>
    var answers: seq<nat>
    ghost var steps: seq<Step>  // everything that has happened so far

    function View(): Loader
      reads this
    {
      Loader(keys, queue, active, flights, pending, imagePending, cache, deletes, settlements, answers)
    }

    ghost predicate Valid()
      reads this
    {
      View() == Run(EMPTY, steps)
    }

    constructor ()
      ensures Valid() && View() == EMPTY && steps == []
    {
      keys, queue, active, flights, pending := [], [], 0, map[], {};
      imagePending, cache, deletes, settlements, answers, steps := map[], {}, [], [], [], [];
    }

    method PumpImages(accepted: bool)
      modifies this`queue, this`active, this`flights, this`pending, this`answers
      ensures View() == old(View()).Pumped(accepted)
    {
      while active < SLOTS && queue != []
        invariant View().Pumped(accepted) == old(View()).Pumped(accepted)
        decreases |queue|
      {
        var request, task := |answers|, queue[0];
        queue, active := queue[1..], active + 1;
        if accepted {
          flights, pending, answers := flights[request := Flight(task, Waiting)], pending + {request}, answers + [0];
        } else {
          flights, answers := flights[request := Flight(task, Answered(false))], answers + [1];
        }
      }
    }

    method RequestImage(key: Key, accepted: bool)
      requires Valid()
      modifies this
      ensures Valid() && steps == old(steps) + [Request(key, accepted)]
      ensures View() == old(View()).Requested(key, accepted)
      ensures ImageAsked(old(View()), View(), key)
    {
      Asking(steps, key, accepted);
      steps := steps + [Request(key, accepted)];
      if key !in cache && key !in imagePending {
        QueueTask(key, accepted);
      }
    }

    method QueueTask(key: Key, accepted: bool)
      requires key !in cache && key !in imagePending
      modifies this`keys, this`queue, this`active, this`flights, this`pending
      modifies this`imagePending, this`settlements, this`answers
      ensures View() == old(View()).Requested(key, accepted)
    {
      var task := |keys|;
      keys, queue, settlements := keys + [key], queue + [task], settlements + [0];
      PumpImages(accepted);
      imagePending := imagePending[key := task];
    }

    method OnResponse(request: nat, operationMatches: bool, ok: bool, payloadValid: bool)
      requires Valid()
      modifies this
      ensures Valid() && steps == old(steps) + [Reply(request, operationMatches && ok && payloadValid)]
      ensures View() == old(View()).Replied(request, operationMatches && ok && payloadValid)
      ensures AnsweredOnce(old(View()), View(), request, operationMatches && ok && payloadValid)
    {
      Answering(steps, request, operationMatches && ok && payloadValid);
      steps := steps + [Reply(request, operationMatches && ok && payloadValid)];
      if request in pending && request in flights && request < |answers| {
        pending := pending - {request};
        var valid := if !operationMatches then false else if ok then payloadValid else false;
        flights := flights[request := flights[request].(phase := Answered(valid))];
        answers := answers[request := answers[request] + 1];
      }
    }

    /** A reply that comes after the timeout changes nothing any more. */
    method OnTimeout(request: nat)
      requires Valid()
      modifies this
      ensures Valid() && steps == old(steps) + [Reply(request, false)]
      ensures View() == old(View()).Replied(request, false)
      ensures AnsweredOnce(old(View()), View(), request, false)
      ensures forall valid :: View().Replied(request, valid) == View()
    {
      Answering(steps, request, false);
      steps := steps + [Reply(request, false)];
      if request in pending && request in flights && request < |answers| {
        pending := pending - {request};
        flights := flights[request := flights[request].(phase := Answered(false))];
        answers := answers[request := answers[request] + 1];
      }
    }

    /** then and catch of an answered image request. */
    method SettleTask(request: nat)
      requires Valid()
      modifies this
      ensures Valid() && steps == old(steps) + [RunHandlers(request)]
      ensures View() == old(View()).Settled(request)
      ensures SettledOnce(old(View()), View(), request)
    {
      Settling(steps, request);
      steps := steps + [RunHandlers(request)];
      if request in flights && flights[request].phase.Answered? {
        var task, valid := flights[request].task, flights[request].phase.valid;
        if task < |settlements| && task < |keys| {
          if valid {
            cache := cache + {keys[task]};
          }
          settlements := settlements[task := settlements[task] + 1];
          deletes := deletes + [task];
          flights := flights[request := Flight(task, Finishing)];
        }
      }
    }

    /** finally of the same request. */
    method ReleaseSlot(request: nat, accepted: bool)
      requires Valid()
      modifies this
      ensures Valid() && steps == old(steps) + [RunFinally(request, accepted)]
      ensures View() == old(View()).Finished(request, accepted)
      ensures SlotPassedOn(old(View()), View(), request)
    {
      Releasing(steps, request, accepted);
      steps := steps + [RunFinally(request, accepted)];
      if request in flights && flights[request].phase.Finishing? {
        flights := flights - {request};
        active := active - 1;
        PumpImages(accepted);
      }
    }

    /** Handler number i of those that forget a settled request. */
    method ForgetRequest(i: nat)
      requires Valid()
      modifies this
      ensures Valid() && steps == old(steps) + [RunDelete(i)]
      ensures View() == old(View()).Deleted(i)
      ensures EntryForgotten(old(View()), View(), i)
    {
      Forgetting(steps, i);
      steps := steps + [RunDelete(i)];
      if i < |deletes| && deletes[i] < |keys| {
        imagePending := imagePending - {keys[deletes[i]]};
        deletes := deletes[..i] + deletes[i + 1..];
      }
    }

    method ResetCatalogState()
      requires Valid()
      modifies this
      ensures Valid() && steps == old(steps) + [ResetAccount]
      ensures View() == old(View()).Reset()
      ensures OnlyFlightsSurvive(old(View()), View())
    {
      ghost var target := View().Reset();
      Resetting(steps);
      RejectWaiting();
      steps := steps + [ResetAccount];
      assert View() == target;
    }

    method RejectWaiting()
      modifies this`cache, this`imagePending, this`queue, this`deletes, this`settlements
      ensures View() == old(View()).Reset()
    {
      cache, imagePending := {}, map[];
      while queue != []
        invariant View().AllRejected() == old(View()).Reset()
        decreases |queue|
      {
        var task := queue[0];
        queue, deletes := queue[1..], deletes + [task];
        if task < |settlements| {
          settlements := settlements[task := settlements[task] + 1];
        }
      }
    }
  }

  const EMPTY := Loader([], [], 0, map[], {}, map[], {}, [], [], [])

  // ---------------------------------------------------------------- runs

  datatype Step =
    | Request(key: Key, accepted: bool)
    | Reply(request: nat, valid: bool)      // also a timeout, with valid false
    | RunHandlers(request: nat)
    | RunFinally(request: nat, accepted: bool)
    | RunDelete(index: nat)
    | ClearImageCache
    | ResetAccount

  function Next(l: Loader, step: Step): Loader {
    match step
    case Request(key, accepted) => l.Requested(key, accepted)
    case Reply(r, valid) => l.Replied(r, valid)
    case RunHandlers(r) => l.Settled(r)
    case RunFinally(r, accepted) => l.Finished(r, accepted)
    case RunDelete(i) => l.Deleted(i)
    case ClearImageCache => l.(cache := {})
    case ResetAccount => l.Reset()
  }

  function Run(l: Loader, steps: seq<Step>): Loader
    decreases |steps|
  {
    if steps == [] then l else Run(Next(l, steps[0]), steps[1..])
  }

  // ---------------------------------------------------------------- the invariant of every run

  predicate QueueSound(l: Loader) {
    NoDuplicates(l.queue) && forall t | t in l.queue :: t < |l.keys|
  }

  /** A task flies at most once and does not wait as well. */
  predicate FlightsSound(l: Loader) {
    && (forall r | r in l.flights :: l.flights[r].task < |l.keys| && l.flights[r].task !in l.queue)
    && EachTaskOnce(l.flights)
  }

  /** A native request is answered once, or has its timer and has not been answered. */
  ghost predicate RequestsSound(l: Loader) {
    && (forall r | r in l.flights :: r < |l.answers|)
    && (forall r :: r in l.pending <==> r in l.flights && l.flights[r].phase.Waiting?)
    && (forall r | 0 <= r < |l.answers| :: l.answers[r] == if r in l.pending then 0 else 1)
  }

  /** A task has been settled once, or is live and has not been settled. */
  ghost predicate TasksSound(l: Loader) {
    && |l.settlements| == |l.keys|
    && (forall t | 0 <= t < |l.keys| :: l.settlements[t] == if l.Live(t) then 0 else 1)
    && NoDuplicates(l.deletes) && (forall d | d in l.deletes :: d < |l.keys| && !l.Live(d))
  }

  predicate SlotsFit(l: Loader) {
    l.active == |l.flights| <= SLOTS
  }

  ghost predicate Sound(l: Loader) {
    QueueSound(l) && FlightsSound(l) && RequestsSound(l) && TasksSound(l) && SlotsFit(l)
  }

  /** An entry of imagePending is a task of that key, until its delete handler runs. */
  ghost predicate Registry(l: Loader) {
    forall k | k in l.imagePending ::
      var t := l.imagePending[k];
      t < |l.keys| && l.keys[t] == k && (l.Live(t) || t in l.deletes)
  }

  ghost predicate Inv(l: Loader) {
    Sound(l) && (l.queue != [] ==> l.active == SLOTS) && Registry(l)
  }

  lemma SameTasks(l: Loader, l': Loader)
    requires TasksSound(l) && forall t :: l'.Live(t) <==> l.Live(t)
    requires l'.keys == l.keys && l'.settlements == l.settlements && l'.deletes == l.deletes
    ensures TasksSound(l')
  {
  }

  lemma LaunchedLive(l: Loader, accepted: bool)
    requires l.queue != [] && NoDuplicates(l.queue) && RequestsSound(l)
    ensures forall t :: l.Launched(accepted).Live(t) <==> l.Live(t)
  {
    var l', r := l.Launched(accepted), |l.answers|;
    TailNoDuplicates(l.queue);
    forall t
      ensures l'.Flying(t) <==> t == l.queue[0] || l.Flying(t)
    {
      if l.Flying(t) {
        var q :| q in l.flights && l.flights[q].task == t && !l.flights[q].phase.Finishing?;
        assert q in l'.flights && l'.flights[q] == l.flights[q];
      }
      if t == l.queue[0] {
        assert r in l'.flights;
      }
    }
  }

  predicate EachTaskOnce(flights: map<nat, Flight>) {
    forall r, r' | r in flights && r' in flights && flights[r].task == flights[r'].task :: r == r'
  }

  lemma FlightAdded(flights: map<nat, Flight>, r: nat, flight: Flight)
    requires EachTaskOnce(flights) && r !in flights && forall q | q in flights :: flights[q].task != flight.task
    ensures EachTaskOnce(flights[r := flight]) && |flights[r := flight]| == |flights| + 1
  {
    assert flights[r := flight].Keys == flights.Keys + {r};
  }

  lemma LaunchedFlights(l: Loader, accepted: bool)
    requires l.queue != [] && QueueSound(l) && FlightsSound(l) && |l.answers| !in l.flights
    ensures var l' := l.Launched(accepted); QueueSound(l') && FlightsSound(l') && |l'.flights| == |l.flights| + 1
  {
    var l', r := l.Launched(accepted), |l.answers|;
    TailNoDuplicates(l.queue);
    FlightAdded(l.flights, r, l'.flights[r]);
    forall q | q in l'.flights
      ensures l'.flights[q].task < |l'.keys| && l'.flights[q].task !in l'.queue
    {
      assert q == r || (q in l.flights && l'.flights[q] == l.flights[q]);
    }
  }

  lemma LaunchedRequests(l: Loader, accepted: bool)
    requires l.queue != [] && RequestsSound(l)
    ensures RequestsSound(l.Launched(accepted)) && |l.answers| !in l.flights
  {
  }

  lemma {:induction false} PumpKeepsSound(l: Loader, accepted: bool)
    requires Sound(l)
    ensures var l' := l.Pumped(accepted);
      && Sound(l') && (l'.queue != [] ==> l'.active == SLOTS)
      && (forall t :: l'.Live(t) <==> l.Live(t))
      && l'.keys == l.keys && l'.imagePending == l.imagePending && l'.cache == l.cache && l'.deletes == l.deletes
    decreases |l.queue|
  {
    if l.active < SLOTS && l.queue != [] {
      LaunchedLive(l, accepted);
      LaunchedRequests(l, accepted);
      LaunchedFlights(l, accepted);
      SameTasks(l, l.Launched(accepted));
      PumpKeepsSound(l.Launched(accepted), accepted);
    }
  }

  lemma CreatedLive(l: Loader, key: Key)
    ensures forall t :: l.Created(key).Live(t) <==> t == |l.keys| || l.Live(t)
  {
    var l' := l.Created(key);
    assert forall t :: l'.Flying(t) <==> l.Flying(t);
    assert forall t :: t in l'.queue <==> t == |l.keys| || t in l.queue;
  }

  lemma Snoc(s: seq<nat>, x: nat)
    requires NoDuplicates(s) && x !in s
    ensures NoDuplicates(s + [x]) && forall t :: t in s + [x] <==> t == x || t in s
  {
    forall i | 0 <= i < |s|
      ensures s[i] != x
    {
      assert s[i] in s;
    }
  }

  lemma CreateKeepsSound(l: Loader, key: Key)
    requires Sound(l)
    ensures Sound(l.Created(key))
  {
    var l' := l.Created(key);
    CreatedLive(l, key);
    Snoc(l.queue, |l.keys|);
    CreatedTasks(l, l', key);
  }

  lemma CreatedTasks(l: Loader, l': Loader, key: Key)
    requires TasksSound(l) && l' == l.Created(key)
    requires forall t :: l'.Live(t) <==> t == |l.keys| || l.Live(t)
    ensures TasksSound(l')
  {
    forall t | 0 <= t < |l'.keys|
      ensures l'.settlements[t] == if l'.Live(t) then 0 else 1
    {
      assert t < |l.keys| ==> l'.settlements[t] == l.settlements[t];
    }
  }

  /** Flight r moves to another phase, which ends its task's flight or not. */
  lemma PhaseChanged(l: Loader, l': Loader, r: nat, phase: Phase)
    requires FlightsSound(l) && r in l.flights && l'.queue == l.queue && l'.keys == l.keys
    requires l'.flights == l.flights[r := Flight(l.flights[r].task, phase)]
    ensures FlightsSound(l') && l'.flights.Keys == l.flights.Keys && |l'.flights| == |l.flights|
    ensures forall t :: l'.Flying(t) <==> if t == l.flights[r].task then !phase.Finishing? else l.Flying(t)
  {
    assert l'.flights.Keys == l.flights.Keys;
    forall t
      ensures l'.Flying(t) <==> if t == l.flights[r].task then !phase.Finishing? else l.Flying(t)
    {
      if t == l.flights[r].task {
        assert l'.flights[r] == Flight(t, phase);
      } else if l.Flying(t) {
        var q :| q in l.flights && l.flights[q].task == t && !l.flights[q].phase.Finishing?;
        assert q in l'.flights && l'.flights[q] == l.flights[q];
      }
    }
  }

  lemma ReplyKeepsSound(l: Loader, r: nat, valid: bool)
    requires Sound(l)
    ensures Sound(l.Replied(r, valid)) && forall t :: l.Replied(r, valid).Live(t) <==> l.Live(t)
  {
    var l' := l.Replied(r, valid);
    if r in l.pending && r in l.flights {
      PhaseChanged(l, l', r, Answered(valid));
      assert l.Flying(l.flights[r].task);
      SameTasks(l, l');
      AnsweredRequests(l, l', r, valid);
    }
  }

  lemma AnsweredRequests(l: Loader, l': Loader, r: nat, valid: bool)
    requires RequestsSound(l) && r in l.pending && l'.pending == l.pending - {r}
    requires l'.flights == l.flights[r := Flight(l.flights[r].task, Answered(valid))]
    requires l'.answers == l.answers[r := l.answers[r] + 1]
    ensures RequestsSound(l')
  {
  }

  lemma SettleKeepsSound(l: Loader, r: nat)
    requires Sound(l) && r in l.flights && l.flights[r].phase.Answered?
    ensures Sound(l.Settled(r))
    ensures forall t :: l.Settled(r).Live(t) <==> l.Live(t) && t != l.flights[r].task
  {
    var l', task := l.Settled(r), l.flights[r].task;
    PhaseChanged(l, l', r, Finishing);
    assert l.Flying(task) && task !in l.queue;
    SettledTasks(l, l', task);
  }

  lemma SettledTasks(l: Loader, l': Loader, task: nat)
    requires TasksSound(l) && l.Live(task) && task < |l.keys| && l'.keys == l.keys
    requires l'.deletes == l.deletes + [task] && l'.settlements == l.settlements[task := l.settlements[task] + 1]
    requires forall t :: l'.Live(t) <==> l.Live(t) && t != task
    ensures TasksSound(l')
  {
    Snoc(l.deletes, task);
  }

  lemma FinishKeepsSound(l: Loader, r: nat, accepted: bool)
    requires Sound(l) && r in l.flights && l.flights[r].phase.Finishing?
    ensures var l' := l.Finished(r, accepted);
      && Sound(l') && (l'.queue != [] ==> l'.active == SLOTS)
      && (forall t :: l'.Live(t) <==> l.Live(t))
      && l'.keys == l.keys && l'.imagePending == l.imagePending && l'.deletes == l.deletes
  {
    var l' := l.(flights := l.flights - {r}, active := l.active - 1);
    assert l'.flights.Keys == l.flights.Keys - {r};
    forall t
      ensures l'.Flying(t) <==> l.Flying(t)
    {
      if l.Flying(t) {
        var q :| q in l.flights && l.flights[q].task == t && !l.flights[q].phase.Finishing?;
        assert q in l'.flights;
      }
    }
    SameTasks(l, l');
    PumpKeepsSound(l', accepted);
  }

  lemma WithoutOne(s: seq<nat>, i: nat)
    requires i < |s| && NoDuplicates(s)
    ensures NoDuplicates(s[..i] + s[i + 1..]) && s[i] !in s[..i] + s[i + 1..]
    ensures forall d :: d in s <==> d == s[i] || d in s[..i] + s[i + 1..]
  {
    assert s == s[..i] + [s[i]] + s[i + 1..];
  }

  lemma DeleteKeepsSound(l: Loader, i: nat)
    requires Sound(l)
    ensures Sound(l.Deleted(i)) && forall t :: l.Deleted(i).Live(t) <==> l.Live(t)
  {
    var l' := l.Deleted(i);
    if i < |l.deletes| {
      WithoutOne(l.deletes, i);
      assert forall t :: l'.Flying(t) <==> l.Flying(t);
      forall d | d in l'.deletes
        ensures d < |l'.keys| && !l'.Live(d)
      {
        assert d in l.deletes && !l.Live(d);
      }
    }
  }

  lemma RejectKeepsSound(l: Loader)
    requires Sound(l) && l.queue != []
    ensures Sound(l.RejectedFirst())
    ensures forall t :: l.RejectedFirst().Live(t) <==> l.Live(t) && t != l.queue[0]
  {
    var l', task := l.RejectedFirst(), l.queue[0];
    TailNoDuplicates(l.queue);
    assert forall t :: l'.Flying(t) <==> l.Flying(t);
    assert !l.Flying(task);
    SettledTasks(l, l', task);
  }

  lemma {:induction false} RejectAllKeepsSound(l: Loader)
    requires Sound(l)
    ensures var l' := l.AllRejected();
      && Sound(l') && l'.queue == [] && (forall t :: l'.Live(t) <==> l.Flying(t))
      && l'.imagePending == l.imagePending && l'.keys == l.keys && l'.flights == l.flights && l'.active == l.active
      && l'.cache == l.cache
      && |l'.deletes| == |l.deletes| + |l.queue|
    decreases |l.queue|
  {
    if l.queue != [] {
      RejectKeepsSound(l);
      RejectAllKeepsSound(l.RejectedFirst());
      assert forall t :: l.RejectedFirst().Flying(t) <==> l.Flying(t);
    }
  }

  lemma ResetKeepsInv(l: Loader)
    requires Inv(l)
    ensures Inv(l.Reset()) && l.Reset().queue == []
  {
    var cleared := l.(cache := {}, imagePending := map[]);
    assert forall t :: cleared.Live(t) <==> l.Live(t);
    SameTasks(l, cleared);
    RejectAllKeepsSound(cleared);
  }

  lemma RequestKeepsInv(l: Loader, key: Key, accepted: bool)
    requires Inv(l) && key !in l.cache && key !in l.imagePending
    ensures Inv(l.Requested(key, accepted))
    ensures forall t :: l.Requested(key, accepted).Live(t) <==> t == |l.keys| || l.Live(t)
    ensures l.Requested(key, accepted).imagePending == l.imagePending[key := |l.keys|]
    ensures l.Requested(key, accepted).deletes == l.deletes && l.Requested(key, accepted).keys == l.keys + [key]
    ensures l.Requested(key, accepted).cache == l.cache
  {
    CreatedLive(l, key);
    CreateKeepsSound(l, key);
    PumpKeepsSound(l.Created(key), accepted);
    Registered(l.Created(key).Pumped(accepted), key, |l.keys|);
  }

  lemma ClearKeepsSound(l: Loader)
    requires Sound(l)
    ensures Sound(l.(cache := {})) && forall t :: l.(cache := {}).Live(t) <==> l.Live(t)
  {
    var l' := l.(cache := {});
    assert forall t :: l'.Flying(t) <==> l.Flying(t);
    SameTasks(l, l');
  }

  lemma ReplyKeepsInv(l: Loader, r: nat, valid: bool)
    requires Inv(l)
    ensures Inv(l.Replied(r, valid)) && (Tracked(l) ==> Tracked(l.Replied(r, valid)))
  {
    ReplyKeepsSound(l, r, valid);
    SameRegistry(l, l.Replied(r, valid));
  }

  lemma SettleKeepsInv(l: Loader, r: nat)
    requires Inv(l)
    ensures Inv(l.Settled(r)) && (Tracked(l) ==> Tracked(l.Settled(r)))
  {
    if r in l.flights && l.flights[r].phase.Answered? {
      SettleKeepsSound(l, r);
      assert l.Flying(l.flights[r].task);
      DeleteAwaited(l, l.Settled(r), l.flights[r].task);
    }
  }

  /** A task that is settled awaits its delete handler. */
  lemma DeleteAwaited(l: Loader, l': Loader, task: nat)
    requires Registry(l) && l'.keys == l.keys && l'.imagePending == l.imagePending
    requires l.Live(task) && l'.deletes == l.deletes + [task]
    requires forall t :: l'.Live(t) <==> l.Live(t) && t != task
    ensures Registry(l') && (Tracked(l) ==> Tracked(l'))
  {
    assert forall t :: t in l'.deletes <==> t == task || t in l.deletes;
    SameRegistry(l, l');
  }

  lemma FinishKeepsInv(l: Loader, r: nat, accepted: bool)
    requires Inv(l)
    ensures Inv(l.Finished(r, accepted)) && (Tracked(l) ==> Tracked(l.Finished(r, accepted)))
  {
    if r in l.flights && l.flights[r].phase.Finishing? {
      FinishKeepsSound(l, r, accepted);
      SameRegistry(l, l.Finished(r, accepted));
    }
  }

  lemma ClearKeepsInv(l: Loader)
    requires Inv(l)
    ensures Inv(l.(cache := {})) && (Tracked(l) ==> Tracked(l.(cache := {})))
  {
    ClearKeepsSound(l);
    SameRegistry(l, l.(cache := {}));
  }

  /** No entry changes, and each task is live or awaits its delete handler as before. */
  lemma SameRegistry(l: Loader, l': Loader)
    requires Registry(l) && l'.keys == l.keys && l'.imagePending == l.imagePending
    requires forall t :: l'.Live(t) || t in l'.deletes <==> l.Live(t) || t in l.deletes
    ensures Registry(l') && (Tracked(l) ==> Tracked(l'))
  {
    if Tracked(l) {
      forall t | 0 <= t < |l'.keys| && (l'.Live(t) || t in l'.deletes)
        ensures Owns(l', t)
      {
        assert Owns(l, t);
      }
    }
  }

  lemma DeleteKeepsInv(l: Loader, i: nat)
    requires Inv(l)
    ensures Inv(l.Deleted(i)) && (Tracked(l) ==> Tracked(l.Deleted(i)))
    ensures forall t :: l.Deleted(i).Live(t) <==> l.Live(t)
  {
    DeleteKeepsSound(l, i);
    if i < |l.deletes| {
      WithoutOne(l.deletes, i);
      if Tracked(l) {
        DeleteKeepsTracked(l, i);
      }
    }
  }

  lemma StepKeepsInv(l: Loader, step: Step)
    requires Inv(l)
    ensures Inv(Next(l, step))
  {
    match step
    case Request(key, accepted) =>
      if key !in l.cache && key !in l.imagePending {
        RequestKeepsInv(l, key, accepted);
      }
    case Reply(r, valid) => ReplyKeepsInv(l, r, valid);
    case RunHandlers(r) => SettleKeepsInv(l, r);
    case RunFinally(r, accepted) => FinishKeepsInv(l, r, accepted);
    case RunDelete(i) => DeleteKeepsInv(l, i);
    case ClearImageCache => ClearKeepsInv(l);
    case ResetAccount => ResetKeepsInv(l);
  }

  lemma Registered(l: Loader, key: Key, task: nat)
    requires Sound(l)
    ensures Sound(l.(imagePending := l.imagePending[key := task]))
    ensures forall t :: l.(imagePending := l.imagePending[key := task]).Live(t) <==> l.Live(t)
  {
    var l' := l.(imagePending := l.imagePending[key := task]);
    assert forall t :: l'.Live(t) <==> l.Live(t);
    SameTasks(l, l');
  }

  /** Main result: over every run at most two requests are in flight and imageActive
      counts them, a waiting task means that both slots are busy, and every native
      request and every task that is over was settled exactly once. */
  lemma {:induction false} SlotsAndSettlements(steps: seq<Step>)
    ensures var l := Run(EMPTY, steps);
      && l.active == |l.flights| <= 2 && (l.queue != [] ==> l.active == 2)
      && |l.settlements| == |l.keys|
      && (forall t | 0 <= t < |l.keys| :: l.settlements[t] == if l.Live(t) then 0 else 1)
      && (forall r | 0 <= r < |l.answers| :: l.answers[r] == if r in l.pending then 0 else 1)
      && (forall t | t in l.queue :: !l.Flying(t))
  {
    RunKeepsInv(EMPTY, steps);
  }

  lemma {:induction false} RunKeepsInv(l: Loader, steps: seq<Step>)
    requires Inv(l)
    ensures Inv(Run(l, steps))
    decreases |steps|
  {
    if steps != [] {
      StepKeepsInv(l, steps[0]);
      RunKeepsInv(Next(l, steps[0]), steps[1..]);
    }
  }

  lemma {:induction false} RunGrows(l: Loader, steps: seq<Step>, step: Step)
    ensures Run(l, steps + [step]) == Next(Run(l, steps), step)
    decreases |steps|
  {
    if steps != [] {
      assert (steps + [step])[1..] == steps[1..] + [step];
      RunGrows(Next(l, steps[0]), steps[1..], step);
    }
  }

  // ---------------------------------------------------------------- what each event promises

  ghost predicate SameLive(l: Loader, l': Loader) {
    forall t :: l'.Live(t) <==> l.Live(t)
  }

  /** Afterwards the image is cached or has an entry; a task is made only if it had
      neither, and no other task is settled or lost. */
  ghost predicate ImageAsked(l: Loader, l': Loader, key: Key) {
    && (key in l'.cache || key in l'.imagePending)
    && (key in l.cache || key in l.imagePending ==> l' == l)
    && (key !in l.cache && key !in l.imagePending ==>
          && l'.keys == l.keys + [key] && l'.imagePending == l.imagePending[key := |l.keys|]
          && forall t :: l'.Live(t) <==> t == |l.keys| || l.Live(t))
    && |l'.flights| <= SLOTS && (l'.queue != [] ==> |l'.flights| == SLOTS)
  }

  lemma Asking(steps: seq<Step>, key: Key, accepted: bool)
    ensures ImageAsked(Run(EMPTY, steps), Run(EMPTY, steps).Requested(key, accepted), key)
    ensures Run(EMPTY, steps + [Request(key, accepted)]) == Run(EMPTY, steps).Requested(key, accepted)
  {
    var l := Run(EMPTY, steps);
    RunGrows(EMPTY, steps, Request(key, accepted));
    EmptyIsTracked();
    RunKeepsInv(EMPTY, steps);
    if key !in l.cache && key !in l.imagePending {
      RequestKeepsInv(l, key, accepted);
    }
  }

  /** A request that waits is answered, for the first and only time; what becomes of its
      task is left to the handlers. Any other reply is dropped. */
  ghost predicate AnsweredOnce(l: Loader, l': Loader, request: nat, valid: bool) {
    && (request !in l.pending ==> l' == l)
    && (request in l.pending ==>
          && request < |l.answers| && l.answers[request] == 0 && l'.answers == l.answers[request := 1]
          && l'.pending == l.pending - {request}
          && request in l'.flights && l'.flights[request].phase == Answered(valid))
    && l'.settlements == l.settlements && l'.cache == l.cache && SameLive(l, l')
  }

  lemma Answering(steps: seq<Step>, request: nat, valid: bool)
    ensures AnsweredOnce(Run(EMPTY, steps), Run(EMPTY, steps).Replied(request, valid), request, valid)
    ensures Run(EMPTY, steps + [Reply(request, valid)]) == Run(EMPTY, steps).Replied(request, valid)
  {
    RunGrows(EMPTY, steps, Reply(request, valid));
    EmptyIsTracked();
    RunKeepsInv(EMPTY, steps);
    ReplyKeepsSound(Run(EMPTY, steps), request, valid);
  }

  predicate HasAnswer(l: Loader, request: nat) {
    request in l.flights && l.flights[request].phase.Answered?
  }

  /** The task of an answered request, live until now, is settled for the first and only
      time, and its image is kept exactly if it is valid. */
  ghost predicate SettledOnce(l: Loader, l': Loader, request: nat) {
    && (!HasAnswer(l, request) ==> l' == l)
    && (HasAnswer(l, request) ==>
          var task := l.flights[request].task;
          && task < |l.keys| && task < |l.settlements| && l.Live(task)
          && l.settlements[task] == 0 && l'.settlements == l.settlements[task := 1]
          && l'.cache == l.cache + (if l.flights[request].phase.valid then {l.keys[task]} else {})
          && forall t :: l'.Live(t) <==> l.Live(t) && t != task)
  }

  lemma Settling(steps: seq<Step>, request: nat)
    ensures SettledOnce(Run(EMPTY, steps), Run(EMPTY, steps).Settled(request), request)
    ensures Run(EMPTY, steps + [RunHandlers(request)]) == Run(EMPTY, steps).Settled(request)
  {
    var l := Run(EMPTY, steps);
    RunGrows(EMPTY, steps, RunHandlers(request));
    EmptyIsTracked();
    RunKeepsInv(EMPTY, steps);
    SettlesItsTask(l, request);
  }

  lemma SettlesItsTask(l: Loader, request: nat)
    requires Sound(l)
    ensures SettledOnce(l, l.Settled(request), request)
  {
    if HasAnswer(l, request) {
      SettleKeepsSound(l, request);
      assert l.Flying(l.flights[request].task);
    }
  }

  predicate IsFinishing(l: Loader, request: nat) {
    request in l.flights && l.flights[request].phase.Finishing?
  }

  /** The first waiting task takes the slot over: no slot stays free while a task waits,
      and never more than one task moves up. */
  ghost predicate SlotPassedOn(l: Loader, l': Loader, request: nat) {
    && (!IsFinishing(l, request) ==> l' == l)
    && (IsFinishing(l, request) ==>
          && request !in l'.flights
          && (l.queue == [] ==> l'.queue == [] && |l'.flights| == |l.flights| - 1)
          && (l.queue != [] ==>
                l'.queue == l.queue[1..] && l'.Flying(l.queue[0]) && |l'.flights| == |l.flights| == SLOTS))
    && SameLive(l, l')
  }

  lemma Releasing(steps: seq<Step>, request: nat, accepted: bool)
    ensures SlotPassedOn(Run(EMPTY, steps), Run(EMPTY, steps).Finished(request, accepted), request)
    ensures Run(EMPTY, steps + [RunFinally(request, accepted)]) == Run(EMPTY, steps).Finished(request, accepted)
  {
    var l := Run(EMPTY, steps);
    RunGrows(EMPTY, steps, RunFinally(request, accepted));
    EmptyIsTracked();
    RunKeepsInv(EMPTY, steps);
    if IsFinishing(l, request) {
      FinishKeepsSound(l, request, accepted);
      FreedSlot(l, request, accepted);
    }
  }

  lemma FreedSlot(l: Loader, request: nat, accepted: bool)
    requires IsFinishing(l, request) && SlotsFit(l) && (l.queue != [] ==> l.active == SLOTS)
    requires forall r | r in l.flights :: r < |l.answers|
    ensures var l' := l.Finished(request, accepted);
      && request !in l'.flights
      && (l.queue == [] ==> l'.queue == [] && |l'.flights| == |l.flights| - 1)
      && (l.queue != [] ==>
            l'.queue == l.queue[1..] && l'.Flying(l.queue[0]) && |l'.flights| == |l.flights| == SLOTS)
  {
    var freed := l.(flights := l.flights - {request}, active := l.active - 1);
    assert freed.flights.Keys == l.flights.Keys - {request};
    if l.queue != [] {
      var r, launched := |l.answers|, freed.Launched(accepted);
      assert freed.Pumped(accepted) == launched.Pumped(accepted) == launched;
      assert launched.flights.Keys == freed.flights.Keys + {r};
      assert r in launched.flights && launched.flights[r].task == l.queue[0];
    }
  }

  /** The image of a settled task may be asked for again; entries of other images and all
      live tasks stay. */
  ghost predicate EntryForgotten(l: Loader, l': Loader, i: nat) {
    && (i >= |l.deletes| ==> l' == l)
    && (i < |l.deletes| ==>
          var task := l.deletes[i];
          && task < |l.keys| && task < |l.settlements| && l.settlements[task] == 1 && task !in l'.deletes
          && l'.imagePending == l.imagePending - {l.keys[task]})
    && SameLive(l, l')
  }

  lemma Forgetting(steps: seq<Step>, i: nat)
    ensures EntryForgotten(Run(EMPTY, steps), Run(EMPTY, steps).Deleted(i), i)
    ensures Run(EMPTY, steps + [RunDelete(i)]) == Run(EMPTY, steps).Deleted(i)
  {
    var l := Run(EMPTY, steps);
    RunGrows(EMPTY, steps, RunDelete(i));
    EmptyIsTracked();
    RunKeepsInv(EMPTY, steps);
    DeleteKeepsSound(l, i);
    if i < |l.deletes| {
      WithoutOne(l.deletes, i);
      assert l.deletes[i] in l.deletes;
    }
  }

  /** Only tasks in flight survive a reset; those that waited have been settled. */
  ghost predicate OnlyFlightsSurvive(l: Loader, l': Loader) {
    && l'.queue == [] && l'.cache == {} && l'.imagePending == map[] && l'.flights == l.flights
    && (forall t :: l'.Live(t) <==> l.Flying(t))
    && (forall t | t in l.queue :: t < |l'.settlements| && l'.settlements[t] == 1)
  }

  lemma Resetting(steps: seq<Step>)
    ensures OnlyFlightsSurvive(Run(EMPTY, steps), Run(EMPTY, steps).Reset())
    ensures Run(EMPTY, steps + [ResetAccount]) == Run(EMPTY, steps).Reset()
  {
    var l := Run(EMPTY, steps);
    RunGrows(EMPTY, steps, ResetAccount);
    EmptyIsTracked();
    RunKeepsInv(EMPTY, steps);
    ResetKeepsInv(l);
    ResetLive(l);
    assert forall t | t in l.queue :: t < |l.keys| && !l.Flying(t);
  }

  // ---------------------------------------------------------------- first come, first served

  /** Tasks wait in the order in which they were made, and whatever was made later waits
      behind all that fly. */
  predicate InOrder(l: Loader) {
    && Rising(l.queue) && (forall t | t in l.queue :: t < |l.keys|)
    && (forall r, t | r in l.flights && t in l.queue :: l.flights[r].task < t)
    && (forall r | r in l.flights :: l.flights[r].task < |l.keys|)
  }

  predicate Rising(queue: seq<nat>) {
    forall i, j | 0 <= i < j < |queue| :: queue[i] < queue[j]
  }

  lemma HeadFirst(queue: seq<nat>)
    requires queue != [] && Rising(queue)
    ensures Rising(queue[1..]) && forall t | t in queue[1..] :: t in queue && queue[0] < t
  {
  }

  lemma LaunchedInOrder(l: Loader, accepted: bool)
    requires InOrder(l) && l.queue != []
    ensures InOrder(l.Launched(accepted))
  {
    var l' := l.Launched(accepted);
    HeadFirst(l.queue);
    assert forall r | r in l'.flights && r != |l.answers| :: r in l.flights && l'.flights[r] == l.flights[r];
    assert l.queue[0] in l.queue;
  }

  lemma {:induction false} PumpedInOrder(l: Loader, accepted: bool)
    requires InOrder(l)
    ensures InOrder(l.Pumped(accepted))
    decreases |l.queue|
  {
    if l.active < SLOTS && l.queue != [] {
      LaunchedInOrder(l, accepted);
      PumpedInOrder(l.Launched(accepted), accepted);
    }
  }

  lemma RequestedInOrder(l: Loader, key: Key, accepted: bool)
    requires InOrder(l)
    ensures InOrder(l.Requested(key, accepted))
  {
    if key !in l.cache && key !in l.imagePending {
      var created := l.Created(key);
      assert forall t :: t in created.queue <==> t == |l.keys| || t in l.queue;
      assert forall i | 0 <= i < |l.queue| :: created.queue[i] == l.queue[i] && l.queue[i] in l.queue;
      PumpedInOrder(created, accepted);
    }
  }

  lemma {:induction false} RejectedInOrder(l: Loader)
    requires InOrder(l)
    ensures InOrder(l.AllRejected())
    decreases |l.queue|
  {
    if l.queue != [] {
      HeadFirst(l.queue);
      RejectedInOrder(l.RejectedFirst());
    }
  }

  lemma StepInOrder(l: Loader, step: Step)
    requires InOrder(l)
    ensures InOrder(Next(l, step))
  {
    match step
    case Request(key, accepted) => RequestedInOrder(l, key, accepted);
    case RunFinally(r, accepted) =>
      if r in l.flights && l.flights[r].phase.Finishing? {
        PumpedInOrder(l.(flights := l.flights - {r}, active := l.active - 1), accepted);
      }
    case ResetAccount => RejectedInOrder(l.(cache := {}, imagePending := map[]));
    case _ =>
  }

  /** Main result: in every run images are asked for in the order in which they were
      requested: no task flies while an earlier one waits. */
  lemma {:induction false} FirstComeFirstServed(l: Loader, steps: seq<Step>)
    requires InOrder(l)
    ensures InOrder(Run(l, steps))
    decreases |steps|
  {
    if steps != [] {
      StepInOrder(l, steps[0]);
      FirstComeFirstServed(Next(l, steps[0]), steps[1..]);
    }
  }

  // ---------------------------------------------------------------- where images come from

  /** Requests that wait for their handlers with a valid image. */
  predicate HasImage(l: Loader, r: nat) {
    r in l.flights && l.flights[r].phase == Answered(true)
  }

  lemma {:induction false} PumpBringsNoImage(l: Loader, accepted: bool, r: nat)
    requires RequestsSound(l) && HasImage(l.Pumped(accepted), r)
    ensures HasImage(l, r)
    decreases |l.queue|
  {
    if l.active < SLOTS && l.queue != [] {
      LaunchedRequests(l, accepted);
      PumpBringsNoImage(l.Launched(accepted), accepted, r);
    }
  }

  lemma {:induction false} RejectionBringsNoImage(l: Loader)
    ensures l.AllRejected().flights == l.flights && l.AllRejected().cache == l.cache
    decreases |l.queue|
  {
    if l.queue != [] {
      RejectionBringsNoImage(l.RejectedFirst());
    }
  }

  lemma {:induction false} PumpKeepsCache(l: Loader, accepted: bool)
    ensures l.Pumped(accepted).cache == l.cache
    decreases |l.queue|
  {
    if l.active < SLOTS && l.queue != [] {
      PumpKeepsCache(l.Launched(accepted), accepted);
    }
  }

  /** An image comes only with a valid reply to a request that still waits for one, and
      is cached only by the handlers of that request, under the key of its task. */
  lemma ImagesComeWithReplies(l: Loader, step: Step)
    requires Inv(l)
    ensures forall r | HasImage(Next(l, step), r) && !HasImage(l, r) :: step == Reply(r, true) && r in l.pending
    ensures forall key | key in Next(l, step).cache && key !in l.cache ::
      step.RunHandlers? && HasImage(l, step.request) && l.flights[step.request].task < |l.keys|
      && key == l.keys[l.flights[step.request].task]
  {
    match step
    case Request(key, accepted) =>
      if key !in l.cache && key !in l.imagePending {
        RequestBringsNoImage(l, key, accepted);
      }
    case RunFinally(r, accepted) => FinishBringsNoImage(l, r, accepted);
    case ResetAccount => RejectionBringsNoImage(l.(cache := {}, imagePending := map[]));
    case _ =>
  }

  lemma RequestBringsNoImage(l: Loader, key: Key, accepted: bool)
    requires RequestsSound(l)
    ensures l.Requested(key, accepted).cache == l.cache
    ensures forall r | HasImage(l.Requested(key, accepted), r) :: HasImage(l, r)
  {
    var created := l.Created(key);
    PumpKeepsCache(created, accepted);
    forall r | HasImage(created.Pumped(accepted), r)
      ensures HasImage(l, r)
    {
      PumpBringsNoImage(created, accepted, r);
    }
  }

  lemma FinishBringsNoImage(l: Loader, request: nat, accepted: bool)
    requires RequestsSound(l)
    ensures l.Finished(request, accepted).cache == l.cache
    ensures forall r | HasImage(l.Finished(request, accepted), r) :: HasImage(l, r)
  {
    if IsFinishing(l, request) {
      var freed := l.(flights := l.flights - {request}, active := l.active - 1);
      PumpKeepsCache(freed, accepted);
      forall r | HasImage(freed.Pumped(accepted), r)
        ensures HasImage(l, r)
      {
        PumpBringsNoImage(freed, accepted, r);
      }
    }
  }

  // ---------------------------------------------------------------- one request for each image

  /** No key is queued or in flight twice. */
  ghost predicate Distinct(l: Loader) {
    forall t, t' | 0 <= t < t' < |l.keys| && l.Live(t) && l.Live(t') :: l.keys[t] != l.keys[t']
  }

  ghost predicate Owns(l: Loader, t: nat)
    requires t < |l.keys|
  {
    l.keys[t] in l.imagePending && l.imagePending[l.keys[t]] == t
  }

  /** Every live task has the entry of its key, and so has every settled task whose
      delete handler is still to run. */
  ghost predicate Tracked(l: Loader) {
    forall t | 0 <= t < |l.keys| && (l.Live(t) || t in l.deletes) :: Owns(l, t)
  }

  lemma TrackedIsDistinct(l: Loader)
    requires Inv(l) && Tracked(l)
    ensures Distinct(l)
  {
    forall t, t' | 0 <= t < t' < |l.keys| && l.Live(t) && l.Live(t')
      ensures l.keys[t] != l.keys[t']
    {
      assert Owns(l, t) && Owns(l, t');
    }
  }

  /** Only an account reset can lose track. */
  lemma StepKeepsTracked(l: Loader, step: Step)
    requires Inv(l) && Tracked(l) && !step.ResetAccount?
    ensures Tracked(Next(l, step))
  {
    match step
    case Request(key, accepted) =>
      if key !in l.cache && key !in l.imagePending {
        RequestKeepsInv(l, key, accepted);
        RequestKeepsTracked(l, Next(l, step), key);
      }
    case Reply(r, valid) => ReplyKeepsInv(l, r, valid);
    case RunHandlers(r) => SettleKeepsInv(l, r);
    case RunFinally(r, accepted) => FinishKeepsInv(l, r, accepted);
    case RunDelete(i) => DeleteKeepsInv(l, i);
    case ClearImageCache => ClearKeepsInv(l);
  }

  lemma RequestKeepsTracked(l: Loader, l': Loader, key: Key)
    requires Inv(l) && Tracked(l) && key !in l.imagePending
    requires l'.keys == l.keys + [key] && l'.imagePending == l.imagePending[key := |l.keys|]
    requires l'.deletes == l.deletes && forall t :: l'.Live(t) <==> t == |l.keys| || l.Live(t)
    ensures Tracked(l')
  {
    forall t | 0 <= t < |l'.keys| && (l'.Live(t) || t in l'.deletes)
      ensures Owns(l', t)
    {
      if t < |l.keys| {
        assert Owns(l, t);
      }
    }
  }

  lemma DeleteKeepsTracked(l: Loader, i: nat)
    requires Inv(l) && Tracked(l) && i < |l.deletes| && forall t :: l.Deleted(i).Live(t) <==> l.Live(t)
    ensures Tracked(l.Deleted(i))
  {
    var l' := l.Deleted(i);
    WithoutOne(l.deletes, i);
    forall t | 0 <= t < |l'.keys| && (l'.Live(t) || t in l'.deletes)
      ensures Owns(l', t)
    {
      assert l.deletes[i] in l.deletes;
      assert Owns(l, t) && Owns(l, l.deletes[i]);
    }
  }

  predicate NoReset(steps: seq<Step>) {
    ResetAccount !in steps
  }

  ghost predicate Breaks(l: Loader, steps: seq<Step>) {
    !Distinct(Run(l, steps))
  }

  /** Some continuation without a reset queues or loads a key twice. */
  ghost predicate Breakable(l: Loader) {
    exists steps :: NoReset(steps) && Breaks(l, steps)
  }

  lemma {:induction false} TrackedNeverBreaks(l: Loader, steps: seq<Step>)
    requires Inv(l) && Tracked(l) && NoReset(steps)
    ensures !Breaks(l, steps)
    decreases |steps|
  {
    if steps == [] {
      TrackedIsDistinct(l);
    } else {
      assert steps[0] in steps;
      StepKeepsInv(l, steps[0]);
      StepKeepsTracked(l, steps[0]);
      TrackedNeverBreaks(Next(l, steps[0]), steps[1..]);
    }
  }

  lemma BreakableBefore(l: Loader, step: Step)
    requires !step.ResetAccount? && Breakable(Next(l, step))
    ensures Breakable(l)
  {
    var rest :| NoReset(rest) && Breaks(Next(l, step), rest);
    var steps := [step] + rest;
    assert steps[1..] == rest;
    assert Breaks(l, steps) && NoReset(steps);
  }

  lemma TwinsBreak(l: Loader, t: nat, t': nat)
    requires Inv(l) && t < t' < |l.keys| && l.Live(t) && l.Live(t') && l.keys[t] == l.keys[t']
    ensures Breakable(l)
  {
    assert Breaks(l, []) && NoReset([]);
  }

  /** A live task without an entry: its key is requested again. */
  lemma UnlistedBreaks(l: Loader, t: nat)
    requires Inv(l) && t < |l.keys| && l.Live(t) && l.keys[t] !in l.imagePending
    ensures Breakable(l)
  {
    var l1 := Next(l, ClearImageCache);
    ClearKeepsInv(l);
    ClearKeepsSound(l);
    var l2 := Next(l1, Request(l.keys[t], true));
    RequestKeepsInv(l1, l.keys[t], true);
    TwinsBreak(l2, t, |l.keys|);
    BreakableBefore(l1, Request(l.keys[t], true));
    BreakableBefore(l, ClearImageCache);
  }

  /** A delete handler without an entry to delete: it takes away the next one. */
  lemma StrayDeleteBreaks(l: Loader, i: nat)
    requires Inv(l) && i < |l.deletes| && l.deletes[i] < |l.keys| && l.keys[l.deletes[i]] !in l.imagePending
    ensures Breakable(l)
  {
    var key := l.keys[l.deletes[i]];
    var l1 := Next(l, ClearImageCache);
    ClearKeepsInv(l);
    var l2 := Next(l1, Request(key, true));
    RequestKeepsInv(l1, key, true);
    DeletedEntryBreaks(l2, i, |l.keys|);
    BreakableBefore(l1, Request(key, true));
    BreakableBefore(l, ClearImageCache);
  }

  /** A delete handler that takes away the entry of a live task of the same key. */
  lemma DeletedEntryBreaks(l: Loader, i: nat, t: nat)
    requires Inv(l) && i < |l.deletes| && t < |l.keys| && l.Live(t)
    requires l.deletes[i] < |l.keys| && l.keys[l.deletes[i]] == l.keys[t]
    ensures Breakable(l)
  {
    DeleteKeepsInv(l, i);
    UnlistedBreaks(Next(l, RunDelete(i)), t);
    BreakableBefore(l, RunDelete(i));
  }

  lemma UntrackedBreaks(l: Loader, t: nat)
    requires Inv(l) && t < |l.keys| && (l.Live(t) || t in l.deletes) && !Owns(l, t)
    ensures Breakable(l)
  {
    var key := l.keys[t];
    if key !in l.imagePending {
      if l.Live(t) {
        UnlistedBreaks(l, t);
      } else {
        var i :| 0 <= i < |l.deletes| && l.deletes[i] == t;
        StrayDeleteBreaks(l, i);
      }
    } else {
      var other := l.imagePending[key];
      if l.Live(t) && l.Live(other) {
        TwinsBreak(l, if t < other then t else other, if t < other then other else t);
      } else if l.Live(t) {
        var i :| 0 <= i < |l.deletes| && l.deletes[i] == other;
        DeletedEntryBreaks(l, i, t);
      } else {
        var i :| 0 <= i < |l.deletes| && l.deletes[i] == t;
        if l.Live(other) {
          DeletedEntryBreaks(l, i, other);
        } else {
          TwoDeletesBreak(l, i, other);
        }
      }
    }
  }

  lemma TwoDeletesBreak(l: Loader, i: nat, other: nat)
    requires Inv(l) && i < |l.deletes| && other in l.deletes && l.deletes[i] != other
    requires l.deletes[i] < |l.keys| && other < |l.keys| && l.keys[l.deletes[i]] == l.keys[other]
    ensures Breakable(l)
  {
    var l' := Next(l, RunDelete(i));
    StepKeepsInv(l, RunDelete(i));
    WithoutOne(l.deletes, i);
    var j :| 0 <= j < |l'.deletes| && l'.deletes[j] == other;
    StrayDeleteBreaks(l', j);
    BreakableBefore(l, RunDelete(i));
  }

  /** Main result: exactly from tracked states on, no key is ever queued or in flight
      twice until the next reset. */
  lemma DeduplicatedIffTracked(l: Loader)
    requires Inv(l)
    ensures Tracked(l) <==> forall steps :: NoReset(steps) ==> !Breaks(l, steps)
  {
    if Tracked(l) {
      forall steps | NoReset(steps)
        ensures !Breaks(l, steps)
      {
        TrackedNeverBreaks(l, steps);
      }
    } else {
      var t :| 0 <= t < |l.keys| && (l.Live(t) || t in l.deletes) && !Owns(l, t);
      UntrackedBreaks(l, t);
    }
  }

  /** Nothing waits, is in flight, or has promise handlers still to run. */
  predicate Quiet(l: Loader) {
    l.queue == [] && l.deletes == [] && forall r | r in l.flights :: l.flights[r].phase.Finishing?
  }

  /** Main result: after an account reset images are deduplicated exactly if it came
      while nothing was loading. */
  lemma ResetIsSafeIffQuiet(l: Loader)
    requires Inv(l)
    ensures Inv(l.Reset())
    ensures Quiet(l) <==> forall steps :: NoReset(steps) ==> !Breaks(l.Reset(), steps)
  {
    var l' := l.Reset();
    ResetKeepsInv(l);
    DeduplicatedIffTracked(l');
    ResetLive(l);
    if Quiet(l) {
      assert Tracked(l');
    } else if l.queue != [] || l.deletes != [] {
      assert l'.deletes[0] in l'.deletes;
      assert !Owns(l', l'.deletes[0]);
    } else {
      var r :| r in l.flights && !l.flights[r].phase.Finishing?;
      assert l.Flying(l.flights[r].task);
      assert !Owns(l', l.flights[r].task);
    }
  }

  lemma ResetLive(l: Loader)
    requires Inv(l)
    ensures var l' := l.Reset();
      && (forall t :: l'.Live(t) <==> l.Flying(t)) && l'.imagePending == map[] && l'.keys == l.keys
      && |l'.deletes| == |l.deletes| + |l.queue|
      && l'.queue == [] && l'.cache == {} && l'.flights == l.flights
  {
    var cleared := l.(cache := {}, imagePending := map[]);
    assert forall t :: cleared.Flying(t) <==> l.Flying(t);
    assert forall t :: cleared.Live(t) <==> l.Live(t);
    SameTasks(l, cleared);
    RejectAllKeepsSound(cleared);
  }

  lemma EmptyIsTracked()
    ensures Inv(EMPTY) && Tracked(EMPTY)
  {
    assert forall t :: !EMPTY.Flying(t) && !EMPTY.Live(t);
  }

  /** A concrete run: after a reset under way, the same image is loaded twice. */
  lemma ResetLosesTrack()
    ensures var l := Run(EMPTY, [Request("a", true), ResetAccount, Request("a", true)]);
      l.Live(0) && l.Live(1) && l.keys == ["a", "a"]
  {
    var l1 := Next(EMPTY, Request("a", true));
    var l2 := Next(l1, ResetAccount);
    var l3 := Next(l2, Request("a", true));
    assert l3.flights[0] == Flight(0, Waiting) && l3.flights[1] == Flight(1, Waiting);
    var steps := [Request("a", true), ResetAccount, Request("a", true)];
    assert steps[1..] == [ResetAccount, Request("a", true)] && steps[1..][1..] == [Request("a", true)];
    assert Run(EMPTY, steps) == Run(l1, steps[1..]) == Run(l2, [Request("a", true)]) == Run(l3, []);
  }
}
