/** Background refreshes of the home page in src/web/mediastation.js: generations,
    the timer, replies that come late, and the local update of Continue Watching. */
module HomeRefresh {
  import opened Wrappers

  datatype Id = Id(text: string)

  const NO_ID := Id("")

  datatype Card = Card(id: Id, resumePositionMs: int, durationMs: int)

  /** resume is None when the server sends no list. */
  datatype HomeData = HomeData(resume: Option<seq<Card>>)

  datatype Player = Player(card: Card, positionMs: int, durationMs: int)

  /** A scheduled refresh: its generation and the session it belongs to. */
  datatype Ticket = Ticket(generation: nat, session: nat)

  // ---------------------------------------------------------------- Continue Watching

  function Max(a: int, b: int): (max: int)
    ensures a <= max && b <= max && (max == a || max == b)
  {
    if a < b then b else a
  }

  function IndexOf(resume: seq<Card>, id: Id): (i: nat)
    ensures i <= |resume| && (i < |resume| ==> resume[i].id == id)
    ensures forall k | 0 <= k < i :: resume[k].id != id
  {
    if resume == [] || resume[0].id == id then 0 else 1 + IndexOf(resume[1..], id)
  }

  function Updated(item: Card, p: Player): Card {
    Card(item.id, Max(p.positionMs, item.resumePositionMs),
         if p.durationMs > 0 then Max(p.durationMs, item.durationMs) else item.durationMs)
  }

  function WithoutAt(resume: seq<Card>, i: nat): seq<Card> {
    if i < |resume| then resume[..i] + resume[i + 1..] else resume
  }

  function MovedToFront(resume: seq<Card>, p: Player): seq<Card> {
    var i := IndexOf(resume, p.card.id);
    [Updated(if i < |resume| then resume[i] else p.card, p)] + WithoutAt(resume, i)
  }

  predicate DistinctIds(resume: seq<Card>) {
    forall i, j | 0 <= i < j < |resume| :: resume[i].id != resume[j].id
  }

  /** The cards that are not this one, in order. */
  function Others(resume: seq<Card>, id: Id): seq<Card> {
    if resume == [] then []
    else (if resume[0].id == id then [] else [resume[0]]) + Others(resume[1..], id)
  }

  lemma {:induction false} OthersAre(resume: seq<Card>, id: Id)
    requires DistinctIds(resume)
    ensures Others(resume, id) == WithoutAt(resume, IndexOf(resume, id))
  {
    if resume != [] {
      TailIsDistinct(resume);
      if resume[0].id == id {
        NoneOf(resume[1..], id);
        OthersAfterHit(resume, id);
      } else {
        OthersAre(resume[1..], id);
        OthersAfterMiss(resume, id);
      }
    }
  }

  lemma OthersAfterHit(resume: seq<Card>, id: Id)
    requires resume != [] && resume[0].id == id && Others(resume[1..], id) == resume[1..]
    ensures Others(resume, id) == WithoutAt(resume, IndexOf(resume, id))
  {
    WithoutAtTail(resume, 0);
  }

  lemma OthersAfterMiss(resume: seq<Card>, id: Id)
    requires resume != [] && resume[0].id != id
    requires Others(resume[1..], id) == WithoutAt(resume[1..], IndexOf(resume[1..], id))
    ensures Others(resume, id) == WithoutAt(resume, IndexOf(resume, id))
  {
    WithoutAtTail(resume, IndexOf(resume[1..], id));
  }

  lemma TailIsDistinct(resume: seq<Card>)
    requires resume != [] && DistinctIds(resume)
    ensures DistinctIds(resume[1..])
    ensures forall k | 0 <= k < |resume[1..]| :: resume[1..][k].id != resume[0].id
  {
  }

  lemma WithoutAtTail(resume: seq<Card>, i: nat)
    requires resume != []
    ensures WithoutAt(resume, 0) == resume[1..]
    ensures WithoutAt(resume, i + 1) == [resume[0]] + WithoutAt(resume[1..], i)
  {
    var first, rest := resume[0], resume[1..];
    assert resume == [first] + rest;
    if i < |rest| {
      assert resume[..i + 1] == [first] + rest[..i];
      assert resume[i + 2..] == rest[i + 1..];
      assert ([first] + rest[..i]) + rest[i + 1..] == [first] + (rest[..i] + rest[i + 1..]);
    }
  }

  lemma {:induction false} NoneOf(resume: seq<Card>, id: Id)
    requires forall k | 0 <= k < |resume| :: resume[k].id != id
    ensures Others(resume, id) == resume && IndexOf(resume, id) == |resume|
  {
    if resume != [] {
      NoneOf(resume[1..], id);
    }
  }

  lemma OthersAreDistinct(resume: seq<Card>, id: Id)
    requires DistinctIds(resume)
    ensures var rest := WithoutAt(resume, IndexOf(resume, id));
      DistinctIds(rest) && forall k | 0 <= k < |rest| :: rest[k].id != id
  {
    WithoutIsDistinct(resume, IndexOf(resume, id), id);
  }

  lemma WithoutIsDistinct(resume: seq<Card>, i: nat, id: Id)
    requires DistinctIds(resume) && (i < |resume| ==> resume[i].id == id)
    requires i >= |resume| ==> forall k | 0 <= k < |resume| :: resume[k].id != id
    ensures var rest := WithoutAt(resume, i);
      DistinctIds(rest) && forall k | 0 <= k < |rest| :: rest[k].id != id
  {
    var rest := WithoutAt(resume, i);
    if i < |resume| {
      assert forall k | 0 <= k < |rest| :: rest[k] == resume[if k < i then k else k + 1];
    }
  }

  /** The played card comes first, the others follow unchanged and in order, and ids
      stay distinct. */
  lemma MoveToFrontKeepsTheRest(resume: seq<Card>, p: Player)
    requires DistinctIds(resume)
    ensures var moved := MovedToFront(resume, p);
      DistinctIds(moved) && moved[0].id == p.card.id && moved[1..] == Others(resume, p.card.id)
  {
    OthersAre(resume, p.card.id);
    OthersAreDistinct(resume, p.card.id);
  }

  /** Its position is the later of the one played to and the one known before, its duration
      the longer one, if playback knew any. */
  lemma PositionAdvances(resume: seq<Card>, p: Player, k: nat)
    requires DistinctIds(resume) && k < |resume| && resume[k].id == p.card.id
    ensures var first := MovedToFront(resume, p)[0];
      && p.positionMs <= first.resumePositionMs && resume[k].resumePositionMs <= first.resumePositionMs
      && first.resumePositionMs in {p.positionMs, resume[k].resumePositionMs}
      && resume[k].durationMs <= first.durationMs && first.durationMs in {p.durationMs, resume[k].durationMs}
      && (0 < p.durationMs ==> p.durationMs <= first.durationMs)
      && (p.durationMs <= 0 ==> first.durationMs == resume[k].durationMs)
  {
    IndexIsFirst(resume, p.card.id, k);
  }

  lemma {:induction false} IndexIsFirst(resume: seq<Card>, id: Id, k: nat)
    requires DistinctIds(resume) && k < |resume| && resume[k].id == id
    ensures IndexOf(resume, id) == k
  {
    if k > 0 {
      TailIsDistinct(resume);
      IndexIsFirst(resume[1..], id, k - 1);
    }
  }

  // ---------------------------------------------------------------- the state

  datatype Home = Home(
    data: Option<HomeData>, generation: nat,
    timer: Option<Ticket>,       // homeRefreshTimer
    flights: seq<Ticket>,        // refreshes sent and not answered
    retries: nat,                // 4000 ms timers running
    failures: nat, verificationPending: bool, player: Option<Player>, session: nat)
  {
    function Scheduled(): Home {
      this.(generation := generation + 1, timer := Some(Ticket(generation + 1, session)))
    }

    function Invalidated(): Home {
      this.(generation := generation + 1, timer := None)
    }

    function TimerFired(): Home {
      if timer.None? then this else this.(timer := None, flights := flights + [timer.value])
    }

    predicate IsNewest(t: Ticket) {
      t.generation == generation && t.session == session
    }

    function Answered(t: Ticket, refreshed: Option<HomeData>): Home {
      if !IsNewest(t) then this
      else if refreshed.Some? then this.(data := refreshed, failures := 0)
      else this.(failures := failures + 1, retries := if failures + 1 < 3 then retries + 1 else retries)
    }

    function Replied(i: nat, refreshed: Option<HomeData>): Home {
      if i >= |flights| then this
      else this.(flights := flights[..i] + flights[i + 1..]).Answered(flights[i], refreshed)
    }

    function RetryFired(): Home {
      if retries == 0 then this else this.(retries := retries - 1).Scheduled()
    }

    function WentStale(): Home {
      if player.Some? then this.(verificationPending := true)
      else this.(verificationPending := false).Scheduled()
    }

    predicate UpdatesResume() {
      && player.Some? && player.value.positionMs > 0 && player.value.card.id != NO_ID
      && data.Some? && data.value.resume.Some?
    }

    function ResumeUpdated(): Home {
      if !UpdatesResume() then this
      else this.(data := Some(HomeData(Some(MovedToFront(data.value.resume.value, player.value))))).Invalidated()
    }

    function Finished(): Home {
      var h := ResumeUpdated().(player := None);
      if verificationPending then h.(verificationPending := false).Scheduled() else h
    }

    /** The reply of loadHome, which no generation guards. */
    function Loaded(loaded: HomeData, cacheHit: bool): Home {
      var h := this.(data := Some(loaded));
      if cacheHit then h.Scheduled() else h
    }

    function Reset(newSession: nat): Home {
      Invalidated().(failures := 0, verificationPending := false, data := None, session := newSession)
    }
  }

  const START := Home(None, 0, None, [], 0, 0, false, None, 0)

  // ---------------------------------------------------------------- the code

  /** The fields are always those of a run: whatever holds of every run holds of them. */
  class HomeScreen {
    var data: Option<HomeData>
    var generation: nat
    var timer: Option<Ticket>
    var flights: seq<Ticket>
    var retries: nat
    var failures: nat
    var verificationPending: bool
    var player: Option<Player>
    var session: nat
    ghost var steps: seq<Step>  // everything that has happened so far

    function View(): Home
      reads this
    {
      Home(data, generation, timer, flights, retries, failures, verificationPending, player, session)
    }

    ghost predicate Valid()
      reads this
    {
      View() == Run(steps)
    }

    constructor ()
      ensures Valid() && View() == START && steps == []
    {
      data, generation, timer, flights, retries := None, 0, None, [], 0;
      failures, verificationPending, player, session, steps := 0, false, None, 0, [];
    }

    /** Nothing that was scheduled or sent before can be applied any more. */
    method InvalidateHomeRefresh()
      requires Numbered(View())
      modifies this`timer, this`generation
      ensures View() == old(View()).Invalidated()
      ensures NoneNewest(View())
    {
      timer := None;
      generation := generation + 1;
    }

    /** Only the refresh that is scheduled now can be applied. */
    method ScheduleHomeRefresh()
      requires Numbered(View())
      modifies this`timer, this`generation
      ensures View() == old(View()).Scheduled()
      ensures OnlyTimerIsNewest(View())
    {
      generation := generation + 1;
      timer := Some(Ticket(generation, session));
    }

    method RefreshHomeAfterEntry()
      requires Valid()
      modifies this
      ensures Valid() && steps == old(steps) + [Schedule]
      ensures View() == old(View()).Scheduled() && OnlyTimerIsNewest(View())
    {
      RunGrows(steps, Schedule);
      steps := steps + [Schedule];
      ScheduleHomeRefresh();
    }

    method OnTimer()
      requires Valid()
      modifies this
      ensures Valid() && steps == old(steps) + [FireTimer]
      ensures View() == old(View()).TimerFired()
    {
      RunGrows(steps, FireTimer);
      steps := steps + [FireTimer];
      if timer.Some? {
        flights := flights + [timer.value];
        timer := None;
      }
    }

    /** The reply to refresh number i of those in flight: the page changes only with one
        that nothing scheduled or invalidated since it was issued. */
    method OnRefreshReply(i: nat, refreshed: Option<HomeData>)
      requires Valid() && i < |flights|
      modifies this
      ensures Valid() && steps == old(steps) + [Reply(i, refreshed)]
      ensures View() == old(View()).Replied(i, refreshed)
      ensures RefreshTaken(old(View()), View(), i, refreshed)
      ensures data != old(data) ==> LastIsNewest(History(steps))
    {
      RunGrows(steps, Reply(i, refreshed));
      Refreshing(steps, i, refreshed);
      steps := steps + [Reply(i, refreshed)];
      var t := flights[i];
      flights := flights[..i] + flights[i + 1..];
      TakeRefresh(t, refreshed);
    }

    method TakeRefresh(t: Ticket, refreshed: Option<HomeData>)
      modifies this`data, this`failures, this`retries
      ensures View() == old(View()).Answered(t, refreshed)
    {
      if t.generation != generation || t.session != session {
        return;
      }
      if refreshed.Some? {
        data := refreshed;
        failures := 0;
      } else {
        failures := failures + 1;
        if failures < 3 {
          retries := retries + 1;
        }
      }
    }

    method OnHomeStale()
      requires Valid()
      modifies this
      ensures Valid() && steps == old(steps) + [HomeStale]
      ensures View() == old(View()).WentStale()
      ensures StaleTaken(old(View()), View())
    {
      RunGrows(steps, HomeStale);
      steps := steps + [HomeStale];
      if player.Some? {
        verificationPending := true;
      } else {
        verificationPending := false;
        ScheduleHomeRefresh();
      }
    }

    method FindIndex(resume: seq<Card>, id: Id) returns (index: int)
      ensures index == if IndexOf(resume, id) < |resume| then IndexOf(resume, id) else -1
    {
      index := 0;
      while index < |resume|
        invariant 0 <= index <= |resume|
        invariant IndexOf(resume, id) == index + IndexOf(resume[index..], id)
      {
        if resume[index].id == id {
          return;
        }
        index := index + 1;
      }
      index := -1;
    }

    method MoveToFront(resume: seq<Card>, p: Player) returns (moved: seq<Card>)
      ensures moved == MovedToFront(resume, p)
    {
      var index := FindIndex(resume, p.card.id);
      var item := if index >= 0 then resume[index] else p.card;
      item := Card(item.id, Max(p.positionMs, item.resumePositionMs), item.durationMs);
      if p.durationMs > 0 {
        item := Card(item.id, item.resumePositionMs, Max(p.durationMs, item.durationMs));
      }
      var rest := resume;
      if index >= 0 {
        rest := resume[..index] + resume[index + 1..];
      }
      moved := [item] + rest;
    }

    /** The played card comes first, and no earlier refresh can undo that. */
    method UpdateResume()
      requires Numbered(View())
      modifies this`data, this`timer, this`generation
      ensures View() == old(View()).ResumeUpdated() && Numbered(View())
      ensures old(View()).UpdatesResume() ==> NoneNewest(View()) && PlayedFirst(old(View()), View())
      ensures !old(View()).UpdatesResume() ==> View() == old(View())
    {
      if player.None? || player.value.positionMs <= 0 || data.None? || data.value.resume.None? {
        return;
      }
      if player.value.card.id != NO_ID {
        ghost var before := View();
        var resume := MoveToFront(data.value.resume.value, player.value);
        FrontOf(data.value.resume.value, player.value);
        data := Some(HomeData(Some(resume)));
        InvalidateHomeRefresh();
      }
    }

    method FinishPlayer()
      requires Valid()
      modifies this
      ensures Valid() && steps == old(steps) + [Step.FinishPlayer]
      ensures View() == old(View()).Finished()
      ensures PlaybackEnded(old(View()), View())
    {
      RunGrows(steps, Step.FinishPlayer);
      Ending(View());
      steps := steps + [Step.FinishPlayer];
      UpdateResume();
      player := None;
      if verificationPending {
        verificationPending := false;
        ScheduleHomeRefresh();
      }
    }
  }

  /** No ticket is newer than the last generation that was given out. */
  predicate Numbered(h: Home) {
    && (h.timer.Some? ==> h.timer.value.generation == h.generation)
    && forall t | t in h.flights :: t.generation <= h.generation
  }

  /** No refresh that was scheduled or sent could still be applied. */
  predicate NoneNewest(h: Home) {
    h.timer.None? && forall t | t in h.flights :: t.generation < h.generation
  }

  /** Only the refresh that waits for its timer could be applied. */
  predicate OnlyTimerIsNewest(h: Home) {
    h.timer == Some(Ticket(h.generation, h.session)) && forall t | t in h.flights :: t.generation < h.generation
  }

  /** A refresh that is not the newest of its session changes neither the page nor the
      failure count; the newest one is shown, or retried at most twice in a row. */
  predicate RefreshTaken(h: Home, h': Home, i: nat, refreshed: Option<HomeData>)
    requires i < |h.flights|
  {
    && h'.generation == h.generation && h'.timer == h.timer
    && (h.flights[i].session != h.session || h.flights[i].generation != h.generation ==>
          h'.data == h.data && h'.failures == h.failures && h'.retries == h.retries)
    && (h.IsNewest(h.flights[i]) && refreshed.Some? ==> h'.data == refreshed && h'.failures == 0)
    && (refreshed.None? ==> h'.data == h.data && (h'.retries != h.retries ==> 0 < h'.failures < 3))
  }

  /** During playback the page is only marked; otherwise it is refreshed at once. */
  predicate StaleTaken(h: Home, h': Home) {
    && h'.data == h.data
    && (h.player.Some? ==> h'.verificationPending && h'.generation == h.generation && h'.timer == h.timer)
    && (h.player.None? ==> !h'.verificationPending && OnlyTimerIsNewest(h'))
  }

  /** The played card leads the list with the later position, the others follow in order. */
  predicate PlayedFirst(h: Home, h': Home)
    requires h.UpdatesResume()
  {
    && h'.data.Some? && h'.data.value.resume.Some?
    && var resume, moved, p := h.data.value.resume.value, h'.data.value.resume.value, h.player.value;
       moved == MovedToFront(resume, p)
       && (DistinctIds(resume) ==>
             DistinctIds(moved) && moved[0].id == p.card.id && moved[1..] == Others(resume, p.card.id))
  }

  lemma FrontOf(resume: seq<Card>, p: Player)
    ensures var moved := MovedToFront(resume, p);
      DistinctIds(resume) ==>
        DistinctIds(moved) && moved[0].id == p.card.id && moved[1..] == Others(resume, p.card.id)
  {
    if DistinctIds(resume) {
      MoveToFrontKeepsTheRest(resume, p);
    }
  }

  /** The local update is shown and no refresh from before the end of playback can undo
      it; a page that went stale during playback is refreshed now. */
  predicate PlaybackEnded(h: Home, h': Home) {
    && h'.player.None? && !h'.verificationPending
    && (h.UpdatesResume() ==> PlayedFirst(h, h') && forall t | t in h.flights :: !h'.IsNewest(t))
    && (h.player.None? || h.player.value.positionMs <= 0 || h.player.value.card.id == NO_ID ==> h'.data == h.data)
    && (!h.UpdatesResume() ==> h'.data == h.data)
    && (if h.verificationPending then OnlyTimerIsNewest(h')
        else if h.UpdatesResume() then NoneNewest(h')
        else h'.generation == h.generation && h'.timer == h.timer)
  }

  lemma Ending(h: Home)
    requires Numbered(h)
    ensures PlaybackEnded(h, h.Finished())
  {
    if h.UpdatesResume() {
      FrontOf(h.data.value.resume.value, h.player.value);
    }
  }

  // ---------------------------------------------------------------- runs and their history

  datatype Step =
    | Schedule                                    // a view that leads back to the home page
    | FireTimer
    | Reply(flight: nat, refreshed: Option<HomeData>)
    | FireRetry
    | HomeStale
    | OpenPlayer(player: Player)
    | Progress(positionMs: int, durationMs: int)
    | FinishPlayer
    | HomeLoaded(loaded: HomeData, cacheHit: bool)
    | ResetAccount(session: nat)

  function Next(h: Home, step: Step): Home {
    match step
    case Schedule => h.Scheduled()
    case FireTimer => h.TimerFired()
    case Reply(i, refreshed) => h.Replied(i, refreshed)
    case FireRetry => h.RetryFired()
    case HomeStale => h.WentStale()
    case OpenPlayer(p) => h.(player := Some(p))
    case Progress(position, duration) =>
      if h.player.None? then h
      else h.(player := Some(h.player.value.(positionMs := position, durationMs := duration)))
    case FinishPlayer => h.Finished()
    case HomeLoaded(loaded, cacheHit) => h.Loaded(loaded, cacheHit)
    case ResetAccount(session) => h.Reset(session)
  }

  /** What happens to the home page and its refreshes, in order. */
  datatype Event =
    | Issued(generation: nat)     // a refresh is scheduled
    | Superseded                  // what was scheduled is invalidated
    | ResumeChanged               // the local update of Continue Watching
    | Applied(generation: nat)    // the answer of a refresh is shown

  /** The local update, if there is one. */
  function UpdateEvents(h: Home): seq<Event> {
    if h.UpdatesResume() then [ResumeChanged, Superseded] else []
  }

  function Events(h: Home, step: Step): seq<Event> {
    match step
    case Schedule => [Issued(h.generation + 1)]
    case Reply(i, refreshed) =>
      if i < |h.flights| && h.IsNewest(h.flights[i]) && refreshed.Some? then [Applied(h.flights[i].generation)] else []
    case FireRetry => if h.retries > 0 then [Issued(h.generation + 1)] else []
    case HomeStale => if h.player.None? then [Issued(h.generation + 1)] else []
    case FinishPlayer =>
      UpdateEvents(h) + if h.verificationPending then [Issued(h.ResumeUpdated().generation + 1)] else []
    case HomeLoaded(_, cacheHit) => if cacheHit then [Issued(h.generation + 1)] else []
    case ResetAccount(_) => [Superseded]
    case _ => []
  }

  function Run(steps: seq<Step>): Home {
    if steps == [] then START else Next(Run(steps[..|steps| - 1]), steps[|steps| - 1])
  }

  lemma RunGrows(steps: seq<Step>, step: Step)
    ensures Run(steps + [step]) == Next(Run(steps), step) && Numbered(Run(steps))
  {
    assert (steps + [step])[..|steps|] == steps;
    RunKeepsInv(steps);
  }

  function History(steps: seq<Step>): seq<Event> {
    if steps == [] then []
    else
      var before := steps[..|steps| - 1];
      History(before) + Events(Run(before), steps[|steps| - 1])
  }

  predicate Bumps(e: Event) {
    e.Issued? || e.Superseded?
  }

  function CountBumps(log: seq<Event>): nat {
    if log == [] then 0 else CountBumps(log[..|log| - 1]) + if Bumps(log[|log| - 1]) then 1 else 0
  }

  /** Generation g was issued as the g-th bump of the history. */
  predicate IssuedAt(log: seq<Event>, j: nat, g: nat) {
    j < |log| && log[j] == Issued(g) && CountBumps(log[..j + 1]) == g
  }

  ghost predicate IssuedIn(log: seq<Event>, g: nat) {
    exists j: nat :: IssuedAt(log, j, g)
  }

  ghost predicate Inv(h: Home, log: seq<Event>) {
    && h.generation == CountBumps(log)
    && (h.timer.Some? ==> h.timer.value.generation == h.generation && IssuedIn(log, h.generation))
    && (forall t | t in h.flights :: t.generation <= h.generation && IssuedIn(log, t.generation))
    && (h.verificationPending ==> h.player.Some?)
  }

  lemma {:induction false} CountAppends(a: seq<Event>, b: seq<Event>)
    ensures CountBumps(a + b) == CountBumps(a) + CountBumps(b)
  {
    if b == [] {
      assert a + b == a;
    } else {
      CountAppends(a, b[..|b| - 1]);
      assert (a + b)[..|a + b| - 1] == a + b[..|b| - 1];
    }
  }

  lemma IssuedStays(log: seq<Event>, more: seq<Event>, g: nat)
    requires IssuedIn(log, g)
    ensures IssuedIn(log + more, g)
  {
    var j: nat :| IssuedAt(log, j, g);
    assert (log + more)[..j + 1] == log[..j + 1];
    assert IssuedAt(log + more, j, g);
  }

  lemma CountSnoc(log: seq<Event>, e: Event)
    ensures CountBumps(log + [e]) == CountBumps(log) + if Bumps(e) then 1 else 0
  {
    assert (log + [e])[..|log|] == log;
  }

  lemma IssuedNow(log: seq<Event>, g: nat)
    requires g == CountBumps(log) + 1
    ensures IssuedIn(log + [Issued(g)], g) && CountBumps(log + [Issued(g)]) == g
  {
    CountSnoc(log, Issued(g));
    assert (log + [Issued(g)])[..|log| + 1] == log + [Issued(g)];
    assert IssuedAt(log + [Issued(g)], |log|, g);
  }

  lemma FlightsStayIssued(h: Home, log: seq<Event>, more: seq<Event>)
    requires Inv(h, log)
    ensures forall t | t in h.flights :: IssuedIn(log + more, t.generation)
    ensures h.timer.Some? ==> IssuedIn(log + more, h.generation)
  {
    forall t | t in h.flights
      ensures IssuedIn(log + more, t.generation)
    {
      IssuedStays(log, more, t.generation);
    }
    if h.timer.Some? {
      IssuedStays(log, more, h.generation);
    }
  }

  lemma ScheduleKeepsInv(h: Home, log: seq<Event>)
    requires Inv(h, log)
    ensures Inv(h.Scheduled(), log + [Issued(h.generation + 1)])
  {
    FlightsStayIssued(h, log, [Issued(h.generation + 1)]);
    IssuedNow(log, h.generation + 1);
  }

  lemma QuietEvent(h: Home, log: seq<Event>, e: Event)
    requires Inv(h, log) && !Bumps(e)
    ensures Inv(h, log + [e])
  {
    FlightsStayIssued(h, log, [e]);
    CountSnoc(log, e);
  }

  lemma InvalidateKeepsInv(h: Home, log: seq<Event>)
    requires Inv(h, log)
    ensures Inv(h.Invalidated(), log + [Superseded])
  {
    FlightsStayIssued(h, log, [Superseded]);
    CountSnoc(log, Superseded);
  }

  lemma ReplyKeepsInv(h: Home, log: seq<Event>, i: nat, refreshed: Option<HomeData>)
    requires Inv(h, log)
    ensures Inv(h.Replied(i, refreshed), log + Events(h, Reply(i, refreshed)))
  {
    assert log + [] == log;
    if i < |h.flights| {
      var rest := h.flights[..i] + h.flights[i + 1..];
      assert forall t | t in rest :: t in h.flights;
      if h.IsNewest(h.flights[i]) && refreshed.Some? {
        QuietEvent(h, log, Applied(h.flights[i].generation));
      }
    }
  }

  lemma UpdateKeepsInv(h: Home, log: seq<Event>)
    requires Inv(h, log) && h.UpdatesResume()
    ensures Inv(h.ResumeUpdated(), log + [ResumeChanged, Superseded])
  {
    QuietEvent(h, log, ResumeChanged);
    InvalidateKeepsInv(h, log + [ResumeChanged]);
    assert log + [ResumeChanged, Superseded] == (log + [ResumeChanged]) + [Superseded];
  }

  lemma CloseKeepsInv(h: Home, log: seq<Event>)
    requires Inv(h, log)
    ensures var closed := h.(player := None, verificationPending := false);
      && Inv(closed, log)
      && Inv(closed.Scheduled(), log + [Issued(h.generation + 1)])
  {
    ScheduleKeepsInv(h.(player := None, verificationPending := false), log);
  }

  lemma ResumeUpdatedKeepsInv(h: Home, log: seq<Event>)
    requires Inv(h, log)
    ensures Inv(h.ResumeUpdated(), log + UpdateEvents(h))
  {
    if h.UpdatesResume() {
      UpdateKeepsInv(h, log);
    } else {
      NoEvents(h, log);
    }
  }

  lemma ClosedEvents(events: seq<Event>, pending: bool, g: nat, log: seq<Event>)
    ensures log + (events + if pending then [Issued(g)] else [])
         == if pending then (log + events) + [Issued(g)] else log + events
  {
    assert log + (events + [Issued(g)]) == (log + events) + [Issued(g)];
    assert events + [] == events;
  }

  lemma FinishKeepsInv(h: Home, log: seq<Event>)
    requires Inv(h, log)
    ensures Inv(h.Finished(), log + Events(h, FinishPlayer))
  {
    ResumeUpdatedKeepsInv(h, log);
    CloseKeepsInv(h.ResumeUpdated(), log + UpdateEvents(h));
    FinishedAgrees(h, log);
  }

  /** The end of playback, as an update and a close one after the other. */
  lemma FinishedAgrees(h: Home, log: seq<Event>)
    ensures var updated := h.ResumeUpdated();
      var closed, longer := updated.(player := None, verificationPending := false), log + UpdateEvents(h);
      if h.verificationPending then
        h.Finished() == closed.Scheduled()
        && log + Events(h, FinishPlayer) == longer + [Issued(updated.generation + 1)]
      else h.Finished() == closed && log + Events(h, FinishPlayer) == longer
  {
    ClosedEvents(UpdateEvents(h), h.verificationPending, h.ResumeUpdated().generation + 1, log);
    FinishedIs(h);
  }

  lemma FinishedIs(h: Home)
    ensures var closed := h.ResumeUpdated().(player := None, verificationPending := false);
      h.Finished() == if h.verificationPending then closed.Scheduled() else closed
  {
  }

  lemma NoEvents(h: Home, log: seq<Event>)
    requires Inv(h, log)
    ensures Inv(h, log + [])
  {
    assert log + [] == log;
  }

  lemma TimerKeepsInv(h: Home, log: seq<Event>)
    requires Inv(h, log)
    ensures Inv(h.TimerFired(), log + [])
  {
    NoEvents(h.TimerFired(), log);
  }

  lemma RetryKeepsInv(h: Home, log: seq<Event>)
    requires Inv(h, log)
    ensures Inv(h.RetryFired(), log + Events(h, FireRetry))
  {
    if h.retries > 0 {
      ScheduleKeepsInv(h.(retries := h.retries - 1), log);
    } else {
      NoEvents(h, log);
    }
  }

  lemma StaleKeepsInv(h: Home, log: seq<Event>)
    requires Inv(h, log)
    ensures Inv(h.WentStale(), log + Events(h, HomeStale))
  {
    if h.player.None? {
      ScheduleKeepsInv(h, log);
    } else {
      NoEvents(h.WentStale(), log);
    }
  }

  lemma LoadedKeepsInv(h: Home, log: seq<Event>, loaded: HomeData, cacheHit: bool)
    requires Inv(h, log)
    ensures Inv(h.Loaded(loaded, cacheHit), log + Events(h, HomeLoaded(loaded, cacheHit)))
  {
    if cacheHit {
      ScheduleKeepsInv(h.(data := Some(loaded)), log);
    } else {
      NoEvents(h.(data := Some(loaded)), log);
    }
  }

  lemma ResetKeepsInv(h: Home, log: seq<Event>, session: nat)
    requires Inv(h, log)
    ensures Inv(h.Reset(session), log + [Superseded])
  {
    InvalidateKeepsInv(h, log);
  }

  lemma PlayerKeepsInv(h: Home, log: seq<Event>, player: Option<Player>)
    requires Inv(h, log) && (player.None? ==> h.player.None?)
    ensures Inv(h.(player := player), log + [])
  {
    NoEvents(h.(player := player), log);
  }

  lemma StepKeepsInv(h: Home, log: seq<Event>, step: Step)
    requires Inv(h, log)
    ensures Inv(Next(h, step), log + Events(h, step))
  {
    match step
    case Schedule => ScheduleKeepsInv(h, log);
    case FireTimer => TimerKeepsInv(h, log);
    case Reply(i, refreshed) => ReplyKeepsInv(h, log, i, refreshed);
    case FireRetry => RetryKeepsInv(h, log);
    case HomeStale => StaleKeepsInv(h, log);
    case OpenPlayer(p) => PlayerKeepsInv(h, log, Some(p));
    case Progress(_, _) => PlayerKeepsInv(h, log, Next(h, step).player);
    case FinishPlayer => FinishKeepsInv(h, log);
    case HomeLoaded(loaded, cacheHit) => LoadedKeepsInv(h, log, loaded, cacheHit);
    case ResetAccount(session) => ResetKeepsInv(h, log, session);
  }

  lemma {:induction false} RunKeepsInv(steps: seq<Step>)
    ensures Inv(Run(steps), History(steps))
  {
    if steps != [] {
      RunKeepsInv(steps[..|steps| - 1]);
      StepKeepsInv(Run(steps[..|steps| - 1]), History(steps[..|steps| - 1]), steps[|steps| - 1]);
    }
  }

  // ---------------------------------------------------------------- what is applied

  /** Event i applies a refresh that was issued at j and that nothing has superseded since. */
  predicate NewestWhenApplied(log: seq<Event>, i: nat, j: nat)
    requires i < |log|
  {
    j < i && log[i].Applied? && log[j] == Issued(log[i].generation) && forall k | j < k < i :: !Bumps(log[k])
  }

  lemma {:induction false} NoBumpsBetween(log: seq<Event>, j: nat, i: nat)
    requires j <= i <= |log| && CountBumps(log[..j]) == CountBumps(log[..i])
    ensures forall k | j <= k < i :: !Bumps(log[k])
    decreases i
  {
    if j < i {
      assert log[..i][..i - 1] == log[..i - 1];
      BumpsMonotone(log, j, i - 1);
      NoBumpsBetween(log, j, i - 1);
    }
  }

  lemma {:induction false} BumpsMonotone(log: seq<Event>, j: nat, i: nat)
    requires j <= i <= |log|
    ensures CountBumps(log[..j]) <= CountBumps(log[..i])
  {
    assert log[..i] == log[..j] + log[j..i];
    CountAppends(log[..j], log[j..i]);
  }

  lemma AppliesNewest(h: Home, log: seq<Event>, g: nat)
    requires Inv(h, log) && g == h.generation && IssuedIn(log, g)
    ensures exists j :: NewestWhenApplied(log + [Applied(g)], |log|, j)
  {
    var j: nat :| IssuedAt(log, j, g);
    assert log[..|log|] == log;
    NoBumpsBetween(log, j + 1, |log|);
    var longer := log + [Applied(g)];
    assert forall k | 0 <= k < |log| :: longer[k] == log[k];
    assert NewestWhenApplied(longer, |log|, j);
  }

  ghost predicate AllNewest(log: seq<Event>) {
    forall i | 0 <= i < |log| && log[i].Applied? :: exists j :: NewestWhenApplied(log, i, j)
  }

  lemma AllNewestAppends(log: seq<Event>, more: seq<Event>)
    requires AllNewest(log)
    requires (forall e | e in more :: !e.Applied?)
          || (|more| == 1 && exists j :: NewestWhenApplied(log + more, |log|, j))
    ensures AllNewest(log + more)
  {
    var longer := log + more;
    forall i | 0 <= i < |longer| && longer[i].Applied?
      ensures exists j :: NewestWhenApplied(longer, i, j)
    {
      if i < |log| {
        var j :| NewestWhenApplied(log, i, j);
        assert NewestWhenApplied(longer, i, j);
      } else {
        assert longer[i] in more;
      }
    }
  }

  /** Main result: in every run a background refresh is applied only if it is the newest
      one scheduled and nothing invalidated it since. */
  lemma {:induction false} OnlyTheNewestIsApplied(steps: seq<Step>)
    ensures AllNewest(History(steps))
  {
    if steps != [] {
      var before, step := steps[..|steps| - 1], steps[|steps| - 1];
      var h, log := Run(before), History(before);
      OnlyTheNewestIsApplied(before);
      RunKeepsInv(before);
      if step.Reply? && step.flight < |h.flights| && h.IsNewest(h.flights[step.flight]) && step.refreshed.Some? {
        assert h.flights[step.flight] in h.flights;
        AppliesNewest(h, log, h.flights[step.flight].generation);
      }
      AllNewestAppends(log, Events(h, step));
    }
  }

  ghost predicate AppliesNewestAt(log: seq<Event>, i: nat)
    requires i < |log|
  {
    exists j :: NewestWhenApplied(log, i, j)
  }

  /** The history ends with the application of a refresh that nothing superseded. */
  ghost predicate LastIsNewest(log: seq<Event>) {
    log != [] && log[|log| - 1].Applied? && AppliesNewestAt(log, |log| - 1)
  }

  lemma Refreshing(steps: seq<Step>, i: nat, refreshed: Option<HomeData>)
    requires i < |Run(steps).flights|
    ensures RefreshTaken(Run(steps), Run(steps).Replied(i, refreshed), i, refreshed)
    ensures Run(steps).Replied(i, refreshed).data != Run(steps).data ==>
              LastIsNewest(History(steps + [Reply(i, refreshed)]))
  {
    var longer, h := steps + [Reply(i, refreshed)], Run(steps);
    assert longer[..|steps|] == steps;
    if h.IsNewest(h.flights[i]) && refreshed.Some? {
      assert History(longer) == History(steps) + [Applied(h.flights[i].generation)];
      OnlyTheNewestIsApplied(longer);
    }
  }

  predicate UpdatesFollowed(log: seq<Event>) {
    forall i | 0 <= i < |log| && log[i] == ResumeChanged :: i + 1 < |log| && log[i + 1] == Superseded
  }

  lemma FollowedAppends(log: seq<Event>, more: seq<Event>)
    requires UpdatesFollowed(log) && UpdatesFollowed(more)
    ensures UpdatesFollowed(log + more)
  {
    forall i | 0 <= i < |log + more| && (log + more)[i] == ResumeChanged
      ensures i + 1 < |log + more| && (log + more)[i + 1] == Superseded
    {
      if i < |log| {
        assert log[i] == ResumeChanged && log[i + 1] == Superseded;
      } else {
        assert more[i - |log|] == ResumeChanged && more[i - |log| + 1] == Superseded;
      }
    }
  }

  lemma EventsFollowed(h: Home, step: Step)
    ensures UpdatesFollowed(Events(h, step))
  {
    if step.FinishPlayer? {
      assert UpdatesFollowed(UpdateEvents(h)) && UpdatesFollowed([Issued(h.ResumeUpdated().generation + 1)]);
      FollowedAppends(UpdateEvents(h), [Issued(h.ResumeUpdated().generation + 1)]);
      assert UpdateEvents(h) + [] == UpdateEvents(h);
    }
  }

  lemma {:induction false} RunUpdatesFollowed(steps: seq<Step>)
    ensures UpdatesFollowed(History(steps))
  {
    if steps != [] {
      var before, step := steps[..|steps| - 1], steps[|steps| - 1];
      RunUpdatesFollowed(before);
      EventsFollowed(Run(before), step);
      FollowedAppends(History(before), Events(Run(before), step));
    }
  }

  /** The generation of an issued refresh is its number among the bumps, n of which came
      before this part of the history. */
  predicate NumberedFrom(log: seq<Event>, n: nat) {
    forall j | 0 <= j < |log| && log[j].Issued? :: log[j].generation == n + CountBumps(log[..j + 1])
  }

  lemma NumberedAppends(log: seq<Event>, more: seq<Event>)
    requires NumberedFrom(log, 0) && NumberedFrom(more, CountBumps(log))
    ensures NumberedFrom(log + more, 0)
  {
    var longer := log + more;
    forall j | 0 <= j < |longer| && longer[j].Issued?
      ensures longer[j].generation == CountBumps(longer[..j + 1])
    {
      if j < |log| {
        assert longer[..j + 1] == log[..j + 1];
      } else {
        assert longer[..j + 1] == log + more[..j - |log| + 1];
        CountAppends(log, more[..j - |log| + 1]);
      }
    }
  }

  lemma OneEventNumbered(e: Event, n: nat)
    requires e.Issued? ==> e.generation == n + 1
    ensures NumberedFrom([e], n)
  {
    CountSnoc([], e);
    assert [e][..1] == [] + [e];
  }

  lemma UpdateEventsNumbered(h: Home)
    ensures NumberedFrom(UpdateEvents(h) + [Issued(h.ResumeUpdated().generation + 1)], h.generation)
  {
    var g := h.ResumeUpdated().generation + 1;
    if h.UpdatesResume() {
      CountSnoc([], ResumeChanged);
      CountSnoc([ResumeChanged], Superseded);
      CountSnoc([ResumeChanged, Superseded], Issued(g));
      assert [] + [ResumeChanged] == [ResumeChanged];
      assert [ResumeChanged] + [Superseded] == [ResumeChanged, Superseded];
      assert [ResumeChanged, Superseded] + [Issued(g)] == [ResumeChanged, Superseded, Issued(g)];
      assert [ResumeChanged, Superseded, Issued(g)][..3] == [ResumeChanged, Superseded, Issued(g)];
    } else {
      OneEventNumbered(Issued(g), h.generation);
      assert [] + [Issued(g)] == [Issued(g)];
    }
  }

  lemma EventsNumbered(h: Home, step: Step)
    ensures NumberedFrom(Events(h, step), h.generation)
  {
    match step
    case FinishPlayer => UpdateEventsNumbered(h);
    case Schedule => OneEventNumbered(Issued(h.generation + 1), h.generation);
    case FireRetry => OneEventNumbered(Issued(h.generation + 1), h.generation);
    case HomeStale => OneEventNumbered(Issued(h.generation + 1), h.generation);
    case HomeLoaded(_, _) => OneEventNumbered(Issued(h.generation + 1), h.generation);
    case _ =>
  }

  /** In every run each generation is issued at most once, as the bump of that number. */
  lemma {:induction false} RunIsNumbered(steps: seq<Step>)
    ensures NumberedFrom(History(steps), 0)
  {
    if steps != [] {
      var before, step := steps[..|steps| - 1], steps[|steps| - 1];
      RunIsNumbered(before);
      RunKeepsInv(before);
      EventsNumbered(Run(before), step);
      NumberedAppends(History(before), Events(Run(before), step));
    }
  }

  lemma IssuedOnce(log: seq<Event>, j: nat, j': nat)
    requires NumberedFrom(log, 0) && j < j' < |log| && log[j].Issued? && log[j'].Issued?
    ensures log[j].generation < log[j'].generation
  {
    BumpsMonotone(log, j + 1, j');
    assert log[..j' + 1][..j'] == log[..j'];
  }

  /** Main result: in every run a refresh that was issued before a local resume update is
      never applied after it. */
  lemma OlderRefreshNeverUndoesUpdate(steps: seq<Step>, j: nat, u: nat, i: nat)
    requires j < u < i < |History(steps)|
    requires History(steps)[j].Issued? && History(steps)[u] == ResumeChanged
    ensures History(steps)[i] != Applied(History(steps)[j].generation)
  {
    var log := History(steps);
    OnlyTheNewestIsApplied(steps);
    RunUpdatesFollowed(steps);
    RunIsNumbered(steps);
    if log[i] == Applied(log[j].generation) {
      var j' :| NewestWhenApplied(log, i, j');
      assert log[u + 1] == Superseded;
      if j < j' {
        IssuedOnce(log, j, j');
      }
    }
  }

  /** What that means for the page: whatever happens after the end of playback, the reply
      of a refresh scheduled or sent before it leaves the page as it is. */
  lemma OlderReplyKeepsPage(before: seq<Step>, after: seq<Step>, i: nat, refreshed: Option<HomeData>)
    requires Run(before).UpdatesResume()
    requires var h := RunFrom(Next(Run(before), FinishPlayer), after);
      i < |h.flights| && (h.flights[i] in Run(before).flights || Run(before).timer == Some(h.flights[i]))
    ensures var h := RunFrom(Next(Run(before), FinishPlayer), after);
      Next(h, Reply(i, refreshed)).data == h.data
  {
    RunKeepsInv(before);
    GenerationGrows(Next(Run(before), FinishPlayer), after);
  }

  // ---------------------------------------------------------------- what is not lost

  /** A refresh that is scheduled, whose timer fires and which is answered before anything
      else happens to it, is shown. */
  lemma ScheduledIsShown(h: Home, refreshed: HomeData)
    ensures var sent := Next(Next(h, Schedule), FireTimer);
      && |sent.flights| == |h.flights| + 1 && sent.timer.None?
      && var shown := Next(sent, Reply(|h.flights|, Some(refreshed)));
         shown.data == Some(refreshed) && shown.flights == h.flights && shown.failures == 0
  {
    var sent := Next(Next(h, Schedule), FireTimer);
    assert sent.flights[..|h.flights|] + sent.flights[|h.flights| + 1..] == h.flights;
  }

  /** Its failure is retried while it is the first or second in a row, and the retry is a
      refresh that is scheduled anew. */
  lemma FailedIsRetried(h: Home)
    ensures var failed := Next(Next(Next(h, Schedule), FireTimer), Reply(|h.flights|, None));
      && failed.failures == h.failures + 1 && failed.data == h.data
      && failed.retries == h.retries + (if h.failures < 2 then 1 else 0)
      && (failed.retries > 0 ==>
            OnlyTimer(Next(failed, FireRetry)) && Next(failed, FireRetry).retries == failed.retries - 1)
  {
  }

  predicate OnlyTimer(h: Home) {
    h.timer == Some(Ticket(h.generation, h.session))
  }

  /** What was played is what is updated: from the opening of the player over its progress
      to its end. */
  lemma PlaybackUpdatesResume(h: Home, p: Player, positionMs: int, durationMs: int)
    requires h.data.Some? && h.data.value.resume.Some? && 0 < positionMs && p.card.id != NO_ID
    ensures var played := Next(Next(h, OpenPlayer(p)), Progress(positionMs, durationMs));
      Next(played, FinishPlayer).data
      == Some(HomeData(Some(MovedToFront(h.data.value.resume.value, Player(p.card, positionMs, durationMs)))))
  {
  }

  /** The reply of loadHome is shown; if it came from the cache, a refresh follows. */
  lemma LoadedIsShown(h: Home, loaded: HomeData, cacheHit: bool)
    ensures var h' := Next(h, HomeLoaded(loaded, cacheHit));
      && h'.data == Some(loaded) && h'.player == h.player && h'.flights == h.flights
      && (cacheHit ==> OnlyTimer(h') && h'.generation > h.generation)
      && (!cacheHit ==> h'.timer == h.timer && h'.generation == h.generation)
  {
  }

  /** A reset forgets the page, and nothing that was scheduled or sent before can bring it
      back. */
  lemma ResetForgets(h: Home, session: nat)
    requires Numbered(h)
    ensures var h' := Next(h, ResetAccount(session));
      && NoneNewest(h') && h'.data == None && h'.failures == 0 && !h'.verificationPending && h'.session == session
  {
  }

  predicate ClosesOrResets(step: Step) {
    step.FinishPlayer? || step.ResetAccount?
  }

  function RunFrom(h: Home, steps: seq<Step>): Home
    decreases |steps|
  {
    if steps == [] then h else RunFrom(Next(h, steps[0]), steps[1..])
  }

  /** A home_stale seen during playback stays pending whatever happens before the
      player closes, and then becomes the newest scheduled refresh. */
  lemma {:induction false} StaleBecomesRefresh(h: Home, steps: seq<Step>)
    requires h.player.Some? && h.verificationPending
    requires forall step | step in steps :: !ClosesOrResets(step)
    ensures RunFrom(h, steps).player.Some? && RunFrom(h, steps).verificationPending
    ensures var closed := Next(RunFrom(h, steps), FinishPlayer);
      && closed.player.None? && !closed.verificationPending
      && closed.timer == Some(Ticket(closed.generation, closed.session))
    decreases |steps|
  {
    if steps != [] {
      assert steps[0] in steps;
      StaleBecomesRefresh(Next(h, steps[0]), steps[1..]);
    }
  }

  predicate OnlyRefreshes(step: Step) {
    !step.HomeLoaded? && !ClosesOrResets(step)
  }

  /** Until another refresh is scheduled, nothing but loadHome, a reset or another end of
      playback changes the home data that the end of playback left. A reply of loadHome
      is guarded by no generation: one that was asked for before can overwrite the update. */
  lemma {:induction false} UpdateSurvives(h: Home, steps: seq<Step>)
    requires NoneNewest(h) && forall step | step in steps :: OnlyRefreshes(step)
    ensures RunFrom(h, steps).generation >= h.generation
    ensures RunFrom(h, steps).generation == h.generation ==> RunFrom(h, steps).data == h.data
    decreases |steps|
  {
    if steps != [] {
      assert steps[0] in steps;
      var h' := Next(h, steps[0]);
      if h'.generation == h.generation {
        assert NoneNewest(h');
        UpdateSurvives(h', steps[1..]);
      } else {
        GenerationGrows(h', steps[1..]);
      }
    }
  }

  lemma {:induction false} GenerationGrows(h: Home, steps: seq<Step>)
    ensures RunFrom(h, steps).generation >= h.generation
    decreases |steps|
  {
    if steps != [] {
      GenerationGrows(Next(h, steps[0]), steps[1..]);
    }
  }

  /** The end of playback leaves no refresh that could still be applied, other than the
      one it schedules itself. */
  lemma FinishSupersedes(h: Home, log: seq<Event>)
    requires Inv(h, log) && h.UpdatesResume() && !h.verificationPending
    ensures NoneNewest(h.Finished())
    ensures h.Finished().data == Some(HomeData(Some(MovedToFront(h.data.value.resume.value, h.player.value))))
  {
  }
}
