/** The filtered, paged library list of src/web/mediastation.js: filter changes, the
    first-page sync, load-more, and replies that may come late or never. */
module LibraryPaging {
  import opened Wrappers

  datatype Filter = Filter(itemType: string, genre: string)

  /** An item, with the filter under which the server listed it. */
  datatype Item = Item(id: nat, listedFor: Filter)

  datatype Page = Page(items: seq<Item>, startIndex: int, nextStartIndex: int, totalRecordCount: int)

  predicate DistinctIds(items: seq<Item>) {
    forall i, j | 0 <= i < j < |items| :: items[i].id != items[j].id
  }

  predicate ValidPage(page: Page, requestedStart: int) {
    && page.startIndex == requestedStart && page.totalRecordCount >= 0
    && page.nextStartIndex == page.startIndex + |page.items| <= page.totalRecordCount
    && (page.nextStartIndex < page.totalRecordCount ==> page.items != [])
    && DistinctIds(page.items)
  }

  method ValidateLibraryPage(page: Page, requestedStart: int) returns (ok: bool)
    ensures ok <==> ValidPage(page, requestedStart)
  {
    if page.startIndex != requestedStart || page.totalRecordCount < 0
       || page.nextStartIndex != page.startIndex + |page.items| {
      return false;
    }
    if page.nextStartIndex > page.totalRecordCount
       || (page.nextStartIndex < page.totalRecordCount && |page.items| == 0) {
      return false;
    }
    var ids: set<nat> := {};
    for i := 0 to |page.items|
      invariant DistinctIds(page.items[..i])
      invariant ids == set j | 0 <= j < i :: page.items[j].id
    {
      if page.items[i].id in ids {
        return false;
      }
      ids := ids + {page.items[i].id};
    }
    assert page.items[..|page.items|] == page.items;
    return true;
  }

  // ---------------------------------------------------------------- the list and its requests

  datatype Kind = ForFilter | ForMore | ForSync

  /** A request in flight, with what its closure captured. */
  datatype Request = Request(kind: Kind, revision: nat, filter: Filter, start: int, view: nat)

  datatype Listing = Listing(
    filter: Filter, revision: nat,
    items: seq<Item>, nextStartIndex: int, totalRecordCount: int,
    isLoadingMore: bool, syncing: bool, filterLoading: bool,
    view: Option<nat>,          // the view that shows this list, if it is current
    clock: nat,                 // libraryFilterRevision, shared with other lists
    requests: seq<Request>)
  {
    function Applied(f: Filter, force: bool): Listing {
      if view.None? || filterLoading || (!force && f == filter) then this
      else this.(filter := f, revision := clock + 1, clock := clock + 1,
                 items := [], nextStartIndex := 0, totalRecordCount := 0,
                 isLoadingMore := false, syncing := false, filterLoading := true,
                 requests := requests + [Request(ForFilter, clock + 1, f, 0, view.value)])
    }

    predicate MayLoadMore() {
      !isLoadingMore && !syncing && nextStartIndex < totalRecordCount && view.Some?
    }

    function MoreRequested(): Listing {
      if !MayLoadMore() then this
      else this.(isLoadingMore := true,
                 requests := requests + [Request(ForMore, revision, filter, nextStartIndex, view.value)])
    }

    predicate IsCurrent(r: Request) {
      revision == r.revision && filter == r.filter
    }

    function FilterAnswered(r: Request, page: Option<Page>): Listing {
      if !IsCurrent(r) || view.None? then this
      else if page.Some? && ValidPage(page.value, 0) then
        this.(items := page.value.items, nextStartIndex := page.value.nextStartIndex,
              totalRecordCount := page.value.totalRecordCount, filterLoading := false)
      else this.(filterLoading := false)
    }

    predicate Fits(page: Page) {
      && page.startIndex == nextStartIndex && page.totalRecordCount == totalRecordCount
      && forall i, j | 0 <= i < |page.items| && 0 <= j < |items| :: page.items[i].id != items[j].id
    }

    predicate Accepts(r: Request, page: Option<Page>, grid: bool) {
      IsCurrent(r) && view == Some(r.view) && page.Some? && ValidPage(page.value, r.start) && grid && Fits(page.value)
    }

    function MoreAnswered(r: Request, page: Option<Page>, grid: bool): Listing {
      if !IsCurrent(r) then this
      else if Accepts(r, page, grid) then
        this.(isLoadingMore := false, items := items + page.value.items, nextStartIndex := page.value.nextStartIndex)
      else this.(isLoadingMore := false)
    }

    predicate Unchanged(page: Page) {
      && totalRecordCount == page.totalRecordCount && |page.items| <= |items|
      && forall i | 0 <= i < |page.items| :: items[i].id == page.items[i].id
    }

    function SyncAnswered(r: Request, page: Option<Page>): Listing {
      if !IsCurrent(r) then this
      else if page.None? || !ValidPage(page.value, 0) then this.(syncing := false)
      else if Unchanged(page.value) then this.(syncing := false, nextStartIndex := |items|)
      else this.(syncing := false, items := page.value.items, nextStartIndex := page.value.nextStartIndex,
                 totalRecordCount := page.value.totalRecordCount)
    }

    function Answered(r: Request, page: Option<Page>, grid: bool): Listing {
      match r.kind
      case ForFilter => FilterAnswered(r, page)
      case ForMore => MoreAnswered(r, page, grid)
      case ForSync => SyncAnswered(r, page)
    }

    function Taken(i: nat): Listing
      requires i < |requests|
    {
      this.(requests := requests[..i] + requests[i + 1..])
    }
  }

  // ---------------------------------------------------------------- the code

  /** The fields are always those of a run: whatever holds of every run holds of them. */
  class Library {
    var filter: Filter
    var revision: nat
    var items: seq<Item>
    var nextStartIndex: int
    var totalRecordCount: int
    var isLoadingMore: bool
    var syncing: bool
    var filterLoading: bool
    var view: Option<nat>
    var clock: nat
    var requests: seq<Request>
    ghost const initial: Listing
    ghost var steps: seq<Step>  // everything since the list was opened

    function View(): Listing
      reads this
    {
      Listing(filter, revision, items, nextStartIndex, totalRecordCount,
              isLoadingMore, syncing, filterLoading, view, clock, requests)
    }

    ghost predicate Valid()
      reads this
    {
      Inv(initial) && View() == Run(initial, steps)
    }

    /** openLibrary with the first page from the server. */
    constructor OpenFetched(f: Filter, page: Page, v: nat, c: nat)
      requires ValidPage(page, 0)
      ensures Valid() && steps == [] && View() == Fetched(f, page, v, c)
    {
      filter, revision, clock, view := f, c + 1, c + 1, Some(v);
      items, nextStartIndex, totalRecordCount := ListedFor(page.items, f), page.nextStartIndex, page.totalRecordCount;
      isLoadingMore, syncing, filterLoading, requests := false, false, false, [];
      initial, steps := Fetched(f, page, v, c), [];
      FetchedHasInv(f, page, v, c);
    }

    /** openLibrary with a cached list, which it syncs. */
    constructor OpenCached(cached: Listing, v: nat, c: nat)
      requires ListInv(cached)
      ensures Valid() && steps == [] && View() == Reopened(cached, v, c)
    {
      filter, revision, clock, view := cached.filter, c + 1, c + 1, Some(v);
      items, nextStartIndex, totalRecordCount := cached.items, cached.nextStartIndex, cached.totalRecordCount;
      isLoadingMore, syncing, filterLoading := false, true, false;
      requests := [Request(ForSync, c + 1, cached.filter, 0, v)];
      initial, steps := Reopened(cached, v, c), [];
      ReopenedHasInv(cached, v, c);
    }

    method ApplyLibraryFilter(f: Filter, force: bool)
      requires Valid()
      modifies this
      ensures Valid() && steps == old(steps) + [ApplyFilter(f, force)]
      ensures View() == old(View()).Applied(f, force)
      ensures OnlyNewFilterCounts(old(View()), View(), f, force)
    {
      Applying(initial, steps, f, force);
      steps := steps + [ApplyFilter(f, force)];
      SwitchFilter(f, force);
    }

    method SwitchFilter(f: Filter, force: bool)
      modifies this`filter, this`revision, this`items, this`nextStartIndex, this`totalRecordCount
      modifies this`isLoadingMore, this`syncing, this`filterLoading, this`clock, this`requests
      ensures View() == old(View()).Applied(f, force)
    {
      if view.None? || filterLoading {
        return;
      }
      if !force && f.itemType == filter.itemType && f.genre == filter.genre {
        return;
      }
      clock := clock + 1;
      filter, revision := f, clock;
      items, nextStartIndex, totalRecordCount := [], 0, 0;
      isLoadingMore, syncing, filterLoading := false, false, true;
      requests := requests + [Request(ForFilter, revision, f, 0, view.value)];
    }

    /** The reply to request number i, which asked for the first page of a filter. */
    method OnFilterReply(i: nat, page: Option<Page>)
      requires Valid() && i < |requests| && requests[i].kind == ForFilter
      modifies this
      ensures Valid() && steps == old(steps) + [Reply(i, page, true)]
      ensures View() == Next(old(View()), Reply(i, page, true))
      ensures FilterReplyTaken(old(View()), View(), i, page)
    {
      Replying(initial, steps, i, page, true);
      steps := steps + [Reply(i, page, true)];
      var r := requests[i];
      requests := requests[..i] + requests[i + 1..];
      TakeFilterPage(r, ListedPage(page, r.filter));
    }

    method TakeFilterPage(r: Request, page: Option<Page>)
      modifies this`items, this`nextStartIndex, this`totalRecordCount, this`filterLoading
      ensures View() == old(View()).FilterAnswered(r, page)
    {
      var ok := page.Some?;
      if ok {
        ok := ValidateLibraryPage(page.value, 0);
      }
      if !(revision == r.revision && filter == r.filter) || view.None? {
        return;
      }
      if ok {
        items, nextStartIndex := page.value.items, page.value.nextStartIndex;
        totalRecordCount := page.value.totalRecordCount;
      }
      filterLoading := false;
    }

    method LoadMoreLibrary()
      requires Valid()
      modifies this
      ensures Valid() && steps == old(steps) + [LoadMore]
      ensures View() == old(View()).MoreRequested()
      ensures MoreAsked(old(View()), View())
    {
      Asking(initial, steps);
      steps := steps + [LoadMore];
      if isLoadingMore || syncing || nextStartIndex >= totalRecordCount || view.None? {
        return;
      }
      isLoadingMore := true;
      requests := requests + [Request(ForMore, revision, filter, nextStartIndex, view.value)];
    }

    method AppendLibraryPage(page: Page) returns (ok: bool)
      modifies this`items, this`nextStartIndex
      ensures ok <==> old(View()).Fits(page)
      ensures View() == if ok then old(View()).(items := old(items) + page.items, nextStartIndex := page.nextStartIndex)
                        else old(View())
    {
      if page.startIndex != nextStartIndex || page.totalRecordCount != totalRecordCount {
        return false;
      }
      ghost var before := View();
      var existing := set i | 0 <= i < |items| :: items[i].id;
      for i := 0 to |page.items|
        invariant View() == before
        invariant forall k, j | 0 <= k < i && 0 <= j < |items| :: page.items[k].id != items[j].id
      {
        if page.items[i].id in existing {
          return false;
        }
        assert forall j | 0 <= j < |items| :: items[j].id in existing;
      }
      items := items + page.items;
      nextStartIndex := page.nextStartIndex;
      return true;
    }

    /** The reply to request number i, which asked for the next page. */
    method OnMoreReply(i: nat, page: Option<Page>, grid: bool)
      requires Valid() && i < |requests| && requests[i].kind == ForMore
      modifies this
      ensures Valid() && steps == old(steps) + [Reply(i, page, grid)]
      ensures View() == Next(old(View()), Reply(i, page, grid))
      ensures MoreReplyTaken(old(View()), View(), i, page, grid)
    {
      Replying(initial, steps, i, page, grid);
      steps := steps + [Reply(i, page, grid)];
      var r := requests[i];
      requests := requests[..i] + requests[i + 1..];
      TakeNextPage(r, ListedPage(page, r.filter), grid);
    }

    method TakeNextPage(r: Request, page: Option<Page>, grid: bool)
      modifies this`items, this`nextStartIndex, this`isLoadingMore
      ensures View() == old(View()).MoreAnswered(r, page, grid)
    {
      if !(revision == r.revision && filter == r.filter) {
        return;
      }
      isLoadingMore := false;
      if page.None? || view != Some(r.view) {
        return;
      }
      var ok := ValidateLibraryPage(page.value, r.start);
      if ok && grid {
        var _ := AppendLibraryPage(page.value);
      }
    }

    /** The reply to request number i, which synchronizes a cached list. */
    method OnSyncReply(i: nat, page: Option<Page>)
      requires Valid() && i < |requests| && requests[i].kind == ForSync
      modifies this
      ensures Valid() && steps == old(steps) + [Reply(i, page, true)]
      ensures View() == Next(old(View()), Reply(i, page, true))
      ensures SyncReplyTaken(old(View()), View(), i, page)
    {
      Replying(initial, steps, i, page, true);
      steps := steps + [Reply(i, page, true)];
      var r := requests[i];
      requests := requests[..i] + requests[i + 1..];
      TakeSyncPage(r, ListedPage(page, r.filter));
    }

    method TakeSyncPage(r: Request, page: Option<Page>)
      modifies this`items, this`nextStartIndex, this`totalRecordCount, this`syncing
      ensures View() == old(View()).SyncAnswered(r, page)
    {
      if !(revision == r.revision && filter == r.filter) {
        return;
      }
      syncing := false;
      if page.None? {
        return;
      }
      var ok := ValidateLibraryPage(page.value, 0);
      if !ok {
        return;
      }
      var p := page.value;
      var prefix := items[..if |p.items| < |items| then |p.items| else |items|];
      var same := totalRecordCount == p.totalRecordCount && |prefix| == |p.items|
                  && forall i | 0 <= i < |prefix| :: prefix[i].id == p.items[i].id;
      nextStartIndex := if same then |items| else p.nextStartIndex;
      if !same {
        items := p.items;
      }
      totalRecordCount := p.totalRecordCount;
    }
  }

  // ---------------------------------------------------------------- runs

  datatype Step =
    | ApplyFilter(filter: Filter, force: bool)
    | LoadMore
    | Reply(request: nat, page: Option<Page>, grid: bool)  // None: a failure or a timeout
    | Show(view: Option<nat>)                              // navigation
    | OtherFilter                                          // another list takes a revision

  /** The reply to a request lists for the filter of that request. */
  function ListedFor(items: seq<Item>, f: Filter): (r: seq<Item>)
    ensures |r| == |items| && forall i | 0 <= i < |r| :: r[i] == Item(items[i].id, f)
  {
    seq(|items|, i requires 0 <= i < |items| => Item(items[i].id, f))
  }

  function ListedPage(page: Option<Page>, f: Filter): Option<Page> {
    if page.Some? then Some(page.value.(items := ListedFor(page.value.items, f))) else None
  }

  function Next(l: Listing, step: Step): Listing {
    match step
    case ApplyFilter(f, force) => l.Applied(f, force)
    case LoadMore => l.MoreRequested()
    case Reply(i, page, grid) =>
      if i >= |l.requests| then l
      else
        var r := l.requests[i];
        l.Taken(i).Answered(r, ListedPage(page, r.filter), grid)
    case Show(view) => l.(view := view)
    case OtherFilter => l.(clock := l.clock + 1)
  }

  function Run(l: Listing, steps: seq<Step>): Listing
    decreases |steps|
  {
    if steps == [] then l else Run(Next(l, steps[0]), steps[1..])
  }

  /** Requests of one kind made since the last filter change. */
  function Count(rs: seq<Request>, revision: nat, kind: Kind): nat {
    if rs == [] then 0
    else Count(rs[..|rs| - 1], revision, kind)
         + if rs[|rs| - 1].revision == revision && rs[|rs| - 1].kind == kind then 1 else 0
  }

  predicate ListInv(l: Listing) {
    && DistinctIds(l.items) && l.nextStartIndex == |l.items| <= l.totalRecordCount
    && forall i | 0 <= i < |l.items| :: l.items[i].listedFor == l.filter
  }

  predicate RequestsInv(l: Listing) {
    && l.revision <= l.clock
    && forall r | r in l.requests :: r.revision <= l.clock && (r.revision == l.revision ==> r.filter == l.filter)
  }

  predicate FlagsInv(l: Listing) {
    && Count(l.requests, l.revision, ForMore) == (if l.isLoadingMore then 1 else 0)
    && Count(l.requests, l.revision, ForSync) == (if l.syncing then 1 else 0)
    && Count(l.requests, l.revision, ForFilter) <= (if l.filterLoading then 1 else 0)
    && (forall r | r in l.requests && r.revision == l.revision && r.kind == ForMore :: r.start == l.nextStartIndex)
    && (l.isLoadingMore ==> !l.syncing && l.nextStartIndex < l.totalRecordCount)
    && (l.filterLoading ==> !l.isLoadingMore && !l.syncing && l.totalRecordCount == 0)
  }

  predicate Inv(l: Listing) {
    ListInv(l) && RequestsInv(l) && FlagsInv(l)
  }

  lemma CountSnoc(rs: seq<Request>, r: Request, revision: nat, kind: Kind)
    ensures Count(rs + [r], revision, kind)
         == Count(rs, revision, kind) + if r.revision == revision && r.kind == kind then 1 else 0
  {
    assert (rs + [r])[..|rs|] == rs;
  }

  lemma {:induction false} CountWithout(rs: seq<Request>, i: nat, revision: nat, kind: Kind)
    requires i < |rs|
    ensures Count(rs, revision, kind) == Count(rs[..i] + rs[i + 1..], revision, kind)
                                       + if rs[i].revision == revision && rs[i].kind == kind then 1 else 0
  {
    var last := |rs| - 1;
    if i == last {
      assert rs[..i] + rs[i + 1..] == rs[..last];
    } else {
      CountWithout(rs[..last], i, revision, kind);
      assert rs[..last][..i] + rs[..last][i + 1..] == (rs[..i] + rs[i + 1..])[..last - 1];
    }
  }

  lemma {:induction false} CountFresh(rs: seq<Request>, revision: nat, kind: Kind)
    requires forall r | r in rs :: r.revision < revision
    ensures Count(rs, revision, kind) == 0
  {
    if rs != [] {
      CountFresh(rs[..|rs| - 1], revision, kind);
    }
  }

  lemma ApplyKeepsInv(l: Listing, f: Filter, force: bool)
    requires Inv(l)
    ensures Inv(l.Applied(f, force))
  {
    var l' := l.Applied(f, force);
    if l' != l {
      var r := l'.requests[|l.requests|];
      assert l'.requests == l.requests + [r];
      forall kind
        ensures Count(l'.requests, l'.revision, kind) == if kind == ForFilter then 1 else 0
      {
        CountFresh(l.requests, l'.revision, kind);
        CountSnoc(l.requests, r, l'.revision, kind);
      }
    }
  }

  lemma MoreKeepsInv(l: Listing)
    requires Inv(l)
    ensures Inv(l.MoreRequested())
  {
    if l.MayLoadMore() {
      var r := Request(ForMore, l.revision, l.filter, l.nextStartIndex, l.view.value);
      forall kind
        ensures Count(l.MoreRequested().requests, l.revision, kind)
             == Count(l.requests, l.revision, kind) + if kind == ForMore then 1 else 0
      {
        CountSnoc(l.requests, r, l.revision, kind);
      }
      NoneInFlight(l.requests, l.revision, ForMore);
    }
  }

  lemma {:induction false} NoneInFlight(rs: seq<Request>, revision: nat, kind: Kind)
    requires Count(rs, revision, kind) == 0
    ensures forall r | r in rs :: r.revision != revision || r.kind != kind
  {
    if rs != [] {
      NoneInFlight(rs[..|rs| - 1], revision, kind);
      assert rs == rs[..|rs| - 1] + [rs[|rs| - 1]];
    }
  }

  lemma TakenCounts(l: Listing, i: nat)
    requires i < |l.requests|
    ensures forall revision, kind ::
      Count(l.Taken(i).requests, revision, kind)
      == Count(l.requests, revision, kind)
         - if l.requests[i].revision == revision && l.requests[i].kind == kind then 1 else 0
    ensures forall r | r in l.Taken(i).requests :: r in l.requests
  {
    forall revision, kind
      ensures Count(l.Taken(i).requests, revision, kind) == Count(l.requests, revision, kind)
        - if l.requests[i].revision == revision && l.requests[i].kind == kind then 1 else 0
    {
      CountWithout(l.requests, i, revision, kind);
    }
  }

  lemma StaleKeepsInv(l: Listing, i: nat)
    requires Inv(l) && i < |l.requests| && l.requests[i].revision != l.revision
    ensures Inv(l.Taken(i)) && !l.Taken(i).IsCurrent(l.requests[i])
  {
    TakenCounts(l, i);
  }

  /** A page as the server lists it for a filter. */
  predicate PageFor(page: Option<Page>, f: Filter) {
    page.Some? ==> forall k | 0 <= k < |page.value.items| :: page.value.items[k].listedFor == f
  }

  lemma FilterReplyKeepsInv(l: Listing, i: nat, page: Option<Page>)
    requires Inv(l) && i < |l.requests| && l.requests[i].kind == ForFilter && l.requests[i].revision == l.revision
    requires PageFor(page, l.filter)
    ensures Inv(l.Taken(i).FilterAnswered(l.requests[i], page))
  {
    TakenCounts(l, i);
    assert l.requests[i] in l.requests;
    var l' := l.Taken(i).FilterAnswered(l.requests[i], page);
    NoneInFlight(l'.requests, l.revision, ForMore);
  }

  lemma MoreReplyKeepsInv(l: Listing, i: nat, page: Option<Page>, grid: bool)
    requires Inv(l) && i < |l.requests| && l.requests[i].kind == ForMore && l.requests[i].revision == l.revision
    requires PageFor(page, l.filter)
    ensures Inv(l.Taken(i).MoreAnswered(l.requests[i], page, grid))
  {
    TakenCounts(l, i);
    assert l.requests[i] in l.requests;
    var l' := l.Taken(i).MoreAnswered(l.requests[i], page, grid);
    NoneInFlight(l'.requests, l.revision, ForMore);
  }

  lemma SyncReplyKeepsInv(l: Listing, i: nat, page: Option<Page>)
    requires Inv(l) && i < |l.requests| && l.requests[i].kind == ForSync && l.requests[i].revision == l.revision
    requires PageFor(page, l.filter)
    ensures Inv(l.Taken(i).SyncAnswered(l.requests[i], page))
  {
    TakenCounts(l, i);
    assert l.requests[i] in l.requests;
    var l' := l.Taken(i).SyncAnswered(l.requests[i], page);
    NoneInFlight(l'.requests, l.revision, ForMore);
  }

  lemma StepKeepsInv(l: Listing, step: Step)
    requires Inv(l)
    ensures Inv(Next(l, step))
  {
    match step
    case ApplyFilter(f, force) => ApplyKeepsInv(l, f, force);
    case LoadMore => MoreKeepsInv(l);
    case Reply(i, page, grid) =>
      if i < |l.requests| {
        var r := l.requests[i];
        assert r in l.requests;
        var listed := ListedPage(page, r.filter);
        if r.revision != l.revision {
          StaleKeepsInv(l, i);
        } else {
          match r.kind
          case ForFilter => FilterReplyKeepsInv(l, i, listed);
          case ForMore => MoreReplyKeepsInv(l, i, listed, grid);
          case ForSync => SyncReplyKeepsInv(l, i, listed);
        }
      }
    case Show(view) =>
    case OtherFilter =>
  }

  /** openLibrary without a cached list: the first page has been validated. */
  function Fetched(f: Filter, page: Page, view: nat, clock: nat): Listing {
    Listing(f, clock + 1, ListedFor(page.items, f), page.nextStartIndex, page.totalRecordCount,
            false, false, false, Some(view), clock + 1, [])
  }

  /** openLibrary with a cached list, which is synced at once. */
  function Reopened(cached: Listing, view: nat, clock: nat): Listing {
    Listing(cached.filter, clock + 1, cached.items, cached.nextStartIndex, cached.totalRecordCount,
            false, true, false, Some(view), clock + 1, [Request(ForSync, clock + 1, cached.filter, 0, view)])
  }

  lemma FetchedHasInv(f: Filter, page: Page, view: nat, clock: nat)
    requires ValidPage(page, 0)
    ensures Inv(Fetched(f, page, view, clock))
  {
    var l := Fetched(f, page, view, clock);
    assert DistinctIds(l.items);
  }

  lemma ReopenedHasInv(cached: Listing, view: nat, clock: nat)
    requires ListInv(cached)
    ensures Inv(Reopened(cached, view, clock))
  {
    var r := Request(ForSync, clock + 1, cached.filter, 0, view);
    assert Reopened(cached, view, clock).requests == [r];
    OneRequest(r, ForMore);
    OneRequest(r, ForSync);
    OneRequest(r, ForFilter);
  }

  lemma OneRequest(r: Request, kind: Kind)
    ensures Count([r], r.revision, kind) == if r.kind == kind then 1 else 0
  {
    assert [r] == [] + [r];
    CountSnoc([], r, r.revision, kind);
  }

  /** Main result: whatever is opened, requested, answered late or never answered, the
      list has distinct ids, nextStartIndex is its length and at most the total, and
      every item was listed for the current filter. */
  lemma {:induction false} ListStaysSound(l: Listing, steps: seq<Step>)
    requires Inv(l)
    ensures Inv(Run(l, steps))
    ensures var l' := Run(l, steps);
      && DistinctIds(l'.items) && l'.nextStartIndex == |l'.items| <= l'.totalRecordCount
      && (forall i | 0 <= i < |l'.items| :: l'.items[i].listedFor == l'.filter)
    decreases |steps|
  {
    if steps != [] {
      StepKeepsInv(l, steps[0]);
      ListStaysSound(Next(l, steps[0]), steps[1..]);
    }
  }

  // ---------------------------------------------------------------- what each event promises

  lemma {:induction false} RunGrows(l: Listing, steps: seq<Step>, step: Step)
    ensures Run(l, steps + [step]) == Next(Run(l, steps), step)
    decreases |steps|
  {
    if steps != [] {
      assert (steps + [step])[1..] == steps[1..] + [step];
      RunGrows(Next(l, steps[0]), steps[1..], step);
    }
  }

  /** From now on only the answer for the new filter counts: whatever was asked for before
      is stale, and until the answer comes the list is empty and loads nothing else. */
  predicate OnlyNewFilterCounts(l: Listing, l': Listing, f: Filter, force: bool) {
    if l.view.None? || l.filterLoading || (!force && f == l.filter) then l' == l
    else
      && l'.filter == f && l'.items == [] && !l'.MayLoadMore() && l'.view == l.view
      && (forall r | r in l.requests :: !l'.IsCurrent(r))
      && (forall kind :: Count(l'.requests, l'.revision, kind) == if kind == ForFilter then 1 else 0)
  }

  lemma Applying(initial: Listing, steps: seq<Step>, f: Filter, force: bool)
    requires Inv(initial)
    ensures OnlyNewFilterCounts(Run(initial, steps), Run(initial, steps).Applied(f, force), f, force)
    ensures Run(initial, steps + [ApplyFilter(f, force)]) == Run(initial, steps).Applied(f, force)
  {
    RunGrows(initial, steps, ApplyFilter(f, force));
    ListStaysSound(initial, steps);
    NewFilterCounts(Run(initial, steps), f, force);
  }

  lemma NewFilterCounts(l: Listing, f: Filter, force: bool)
    requires RequestsInv(l)
    ensures OnlyNewFilterCounts(l, l.Applied(f, force), f, force)
  {
    var l' := l.Applied(f, force);
    if !(l.view.None? || l.filterLoading || (!force && f == l.filter)) {
      var r := l'.requests[|l.requests|];
      forall kind
        ensures Count(l'.requests, l'.revision, kind) == if kind == ForFilter then 1 else 0
      {
        CountFresh(l.requests, l'.revision, kind);
        CountSnoc(l.requests, r, l'.revision, kind);
      }
    }
  }

  /** At most one request for more is under way, and it asks for what follows the list. */
  predicate MoreAsked(l: Listing, l': Listing) {
    && l'.items == l.items && l'.filter == l.filter && l'.revision == l.revision
    && (l'.isLoadingMore <==> l.isLoadingMore || l.MayLoadMore())
    && Count(l'.requests, l'.revision, ForMore) == (if l'.isLoadingMore then 1 else 0)
    && (forall r | r in l'.requests && r.revision == l'.revision && r.kind == ForMore :: r.start == |l'.items|)
  }

  lemma Asking(initial: Listing, steps: seq<Step>)
    requires Inv(initial)
    ensures MoreAsked(Run(initial, steps), Run(initial, steps).MoreRequested())
    ensures Run(initial, steps + [LoadMore]) == Run(initial, steps).MoreRequested()
  {
    RunGrows(initial, steps, LoadMore);
    ListStaysSound(initial, steps);
    MoreKeepsInv(Run(initial, steps));
  }

  /** A stale or hidden answer leaves the list as it is; any other ends the loading, with
      the items of a valid page and an empty list otherwise. */
  predicate FilterReplyTaken(l: Listing, l': Listing, i: nat, page: Option<Page>) {
    i < |l.requests| && l.requests[i].kind == ForFilter ==>
      if !l.IsCurrent(l.requests[i]) || l.view.None? then l' == l.Taken(i)
      else
        && !l'.filterLoading && l'.filter == l.filter && l'.requests == l.Taken(i).requests
        && Ids(l'.items) == if page.Some? && ValidPage(page.value, 0) then Ids(page.value.items) else []
  }

  /** A valid page that continues the list of the same total without repeating an id. */
  predicate Continues(l: Listing, page: Page) {
    && ValidPage(page, |l.items|) && page.totalRecordCount == l.totalRecordCount
    && forall i, j | 0 <= i < |page.items| && 0 <= j < |l.items| :: page.items[i].id != l.items[j].id
  }

  /** A stale answer leaves the list as it is, and no answer takes anything out of it; it
      grows exactly by a page that continues it, in the view that asked, while its grid is
      there. */
  predicate MoreReplyTaken(l: Listing, l': Listing, i: nat, page: Option<Page>, grid: bool) {
    i < |l.requests| && l.requests[i].kind == ForMore ==>
      && (!l.IsCurrent(l.requests[i]) ==> l' == l.Taken(i))
      && l.items <= l'.items && l'.filter == l.filter && l'.totalRecordCount == l.totalRecordCount
      && (if l.IsCurrent(l.requests[i]) && l.view == Some(l.requests[i].view) && grid
             && page.Some? && Continues(l, page.value)
          then Ids(l'.items) == Ids(l.items) + Ids(page.value.items)
          else l'.items == l.items)
      && (l.IsCurrent(l.requests[i]) ==> !l'.isLoadingMore && Count(l'.requests, l'.revision, ForMore) == 0)
  }

  /** A stale or failed answer leaves the list as it is. So does one whose page the list
      starts with, of the same total, however long the list; any other page becomes the
      list. */
  predicate SyncReplyTaken(l: Listing, l': Listing, i: nat, page: Option<Page>) {
    i < |l.requests| && l.requests[i].kind == ForSync ==>
      && (!l.IsCurrent(l.requests[i]) ==> l' == l.Taken(i))
      && (l.IsCurrent(l.requests[i]) ==> !l'.syncing && l'.filter == l.filter)
      && (l.IsCurrent(l.requests[i]) && (page.None? || !ValidPage(page.value, 0)) ==> l'.items == l.items)
      && (l.IsCurrent(l.requests[i]) && page.Some? && ValidPage(page.value, 0) ==>
            && l'.totalRecordCount == page.value.totalRecordCount && l'.nextStartIndex == |l'.items|
            && (if l.totalRecordCount == page.value.totalRecordCount && Ids(page.value.items) <= Ids(l.items)
                then l'.items == l.items
                else Ids(l'.items) == Ids(page.value.items)))
  }

  lemma Replying(initial: Listing, steps: seq<Step>, i: nat, page: Option<Page>, grid: bool)
    requires Inv(initial)
    ensures var l := Run(initial, steps);
      var l' := Next(l, Reply(i, page, grid));
      FilterReplyTaken(l, l', i, page) && MoreReplyTaken(l, l', i, page, grid) && SyncReplyTaken(l, l', i, page)
    ensures Run(initial, steps + [Reply(i, page, grid)]) == Next(Run(initial, steps), Reply(i, page, grid))
  {
    var l := Run(initial, steps);
    RunGrows(initial, steps, Reply(i, page, grid));
    ListStaysSound(initial, steps);
    if i < |l.requests| {
      match l.requests[i].kind
      case ForFilter => FilterReplying(l, i, page, grid);
      case ForMore => MoreReplying(l, i, page, grid);
      case ForSync => SyncReplying(l, i, page, grid);
    }
  }

  lemma ListedPageIsValid(page: Page, f: Filter, start: int)
    ensures ValidPage(page.(items := ListedFor(page.items, f)), start) <==> ValidPage(page, start)
    ensures Ids(ListedFor(page.items, f)) == Ids(page.items)
  {
    assert DistinctIds(ListedFor(page.items, f)) <==> DistinctIds(page.items) by {
      var listed := ListedFor(page.items, f);
      assert forall i | 0 <= i < |listed| :: listed[i].id == page.items[i].id;
    }
  }

  lemma FilterReplying(l: Listing, i: nat, page: Option<Page>, grid: bool)
    requires Inv(l) && i < |l.requests| && l.requests[i].kind == ForFilter
    ensures FilterReplyTaken(l, Next(l, Reply(i, page, grid)), i, page)
  {
    if page.Some? {
      ListedPageIsValid(page.value, l.requests[i].filter, 0);
    }
    if l.IsCurrent(l.requests[i]) && !l.filterLoading {
      NoneInFlight(l.requests, l.revision, ForFilter);
    }
  }

  lemma MoreReplying(l: Listing, i: nat, page: Option<Page>, grid: bool)
    requires Inv(l) && i < |l.requests| && l.requests[i].kind == ForMore
    ensures MoreReplyTaken(l, Next(l, Reply(i, page, grid)), i, page, grid)
  {
    TakenCounts(l, i);
    assert l.requests[i] in l.requests;
    if page.Some? {
      ListedPageIsValid(page.value, l.requests[i].filter, l.requests[i].start);
      FitsIfContinues(l, page.value, l.requests[i].filter);
    }
  }

  lemma FitsIfContinues(l: Listing, page: Page, f: Filter)
    requires l.nextStartIndex == |l.items|
    ensures ValidPage(page, |l.items|) ==> (l.Fits(page.(items := ListedFor(page.items, f))) <==> Continues(l, page))
    ensures Ids(l.items + ListedFor(page.items, f)) == Ids(l.items) + Ids(page.items)
  {
    var listed := ListedFor(page.items, f);
    assert forall i | 0 <= i < |listed| :: listed[i].id == page.items[i].id;
  }

  lemma SyncReplying(l: Listing, i: nat, page: Option<Page>, grid: bool)
    requires Inv(l) && i < |l.requests| && l.requests[i].kind == ForSync
    ensures SyncReplyTaken(l, Next(l, Reply(i, page, grid)), i, page)
  {
    if page.Some? {
      ListedPageIsValid(page.value, l.requests[i].filter, 0);
    }
  }

  // ---------------------------------------------------------------- against a server that does not change

  type Server = Filter -> seq<nat>

  ghost predicate FixedServer(server: Server) {
    forall f :: forall i, j | 0 <= i < j < |server(f)| :: server(f)[i] != server(f)[j]
  }

  function Ids(items: seq<Item>): (ids: seq<nat>)
    ensures |ids| == |items| && forall i | 0 <= i < |ids| :: ids[i] == items[i].id
  {
    seq(|items|, i requires 0 <= i < |items| => items[i].id)
  }

  /** The part of the list from start on that fits the page size. */
  predicate HonestPage(list: seq<nat>, start: int, page: Page) {
    && 0 <= start <= |list| && page.startIndex == start && page.totalRecordCount == |list|
    && page.nextStartIndex == start + |page.items| <= |list|
    && Ids(page.items) == list[start..page.nextStartIndex]
    && (start < |list| ==> page.items != [])
  }

  /** A step in which the server, if it answers, answers truly. */
  predicate Honest(server: Server, l: Listing, step: Step) {
    step.Reply? && step.request < |l.requests| && step.page.Some? ==>
      var r := l.requests[step.request]; HonestPage(server(r.filter), r.start, step.page.value)
  }

  predicate HonestRun(server: Server, l: Listing, steps: seq<Step>)
    decreases |steps|
  {
    steps == [] || (Honest(server, l, steps[0]) && HonestRun(server, Next(l, steps[0]), steps[1..]))
  }

  /** The list is a prefix of the server's, with the true total once it has loaded. */
  predicate Agrees(server: Server, l: Listing) {
    && Shows(server(l.filter), l.items, l.totalRecordCount)
    && (forall r | r in l.requests && r.kind != ForMore :: r.start == 0)
  }

  lemma HonestIsValid(list: seq<nat>, start: int, page: Page, f: Filter)
    requires HonestPage(list, start, page) && forall i, j | 0 <= i < j < |list| :: list[i] != list[j]
    ensures ValidPage(page.(items := ListedFor(page.items, f)), start)
  {
    forall i, j | 0 <= i < j < |page.items|
      ensures page.items[i].id != page.items[j].id
    {
      assert Ids(page.items)[i] == list[start + i] && Ids(page.items)[j] == list[start + j];
    }
  }

  /** A page that follows the list on the server always fits. */
  lemma HonestFits(list: seq<nat>, l: Listing, page: Page, f: Filter)
    requires HonestPage(list, l.nextStartIndex, page) && forall i, j | 0 <= i < j < |list| :: list[i] != list[j]
    requires l.nextStartIndex == |l.items| <= |list| && Ids(l.items) == list[..|l.items|]
    requires l.totalRecordCount == |list|
    ensures l.Fits(page.(items := ListedFor(page.items, f)))
    ensures Ids(l.items + ListedFor(page.items, f)) == list[..page.nextStartIndex]
  {
    var listed := ListedFor(page.items, f);
    forall i | 0 <= i < |page.items|
      ensures listed[i].id == list[|l.items| + i]
    {
      assert Ids(page.items)[i] == list[l.nextStartIndex + i];
    }
    forall j | 0 <= j < |l.items|
      ensures l.items[j].id == list[j]
    {
      assert Ids(l.items)[j] == list[j];
    }
  }

  /** What of the server's list a listing shows. */
  predicate Shows(list: seq<nat>, items: seq<Item>, total: int) {
    && |items| <= |list| && Ids(items) == list[..|items|]
    && (total == |list| || (items == [] && total == 0))
  }

  lemma FirstPageShows(list: seq<nat>, page: Page, f: Filter)
    requires HonestPage(list, 0, page)
    ensures Shows(list, ListedFor(page.items, f), page.totalRecordCount)
  {
    assert Ids(ListedFor(page.items, f)) == Ids(page.items);
  }

  lemma NextPageShows(list: seq<nat>, l: Listing, page: Page, f: Filter)
    requires HonestPage(list, l.nextStartIndex, page) && forall i, j | 0 <= i < j < |list| :: list[i] != list[j]
    requires l.nextStartIndex == |l.items| && Shows(list, l.items, l.totalRecordCount)
    ensures l.Fits(page.(items := ListedFor(page.items, f))) ==>
              Shows(list, l.items + ListedFor(page.items, f), l.totalRecordCount)
  {
    if l.totalRecordCount == |list| {
      HonestFits(list, l, page, f);
    }
  }

  lemma MoreReplyShows(list: seq<nat>, l: Listing, r: Request, page: Page, grid: bool)
    requires HonestPage(list, r.start, page) && forall i, j | 0 <= i < j < |list| :: list[i] != list[j]
    requires l.nextStartIndex == |l.items| && Shows(list, l.items, l.totalRecordCount)
    requires r.start == l.nextStartIndex
    ensures var l' := l.MoreAnswered(r, Some(page.(items := ListedFor(page.items, r.filter))), grid);
      l'.filter == l.filter && Shows(list, l'.items, l'.totalRecordCount)
  {
    NextPageShows(list, l, page, r.filter);
  }

  lemma FirstReplyShows(list: seq<nat>, l: Listing, r: Request, page: Page)
    requires HonestPage(list, 0, page) && Shows(list, l.items, l.totalRecordCount)
    ensures var listed := Some(page.(items := ListedFor(page.items, r.filter)));
      && l.FilterAnswered(r, listed).filter == l.SyncAnswered(r, listed).filter == l.filter
      && Shows(list, l.FilterAnswered(r, listed).items, l.FilterAnswered(r, listed).totalRecordCount)
      && Shows(list, l.SyncAnswered(r, listed).items, l.SyncAnswered(r, listed).totalRecordCount)
  {
    FirstPageShows(list, page, r.filter);
  }

  lemma ReplyKeepsAgreement(server: Server, l: Listing, i: nat, page: Option<Page>, grid: bool)
    requires FixedServer(server) && Inv(l) && Agrees(server, l) && Honest(server, l, Reply(i, page, grid))
    requires i < |l.requests| && page.Some? && l.requests[i].revision == l.revision
    ensures var l' := Next(l, Reply(i, page, grid));
      l'.filter == l.filter && Shows(server(l.filter), l'.items, l'.totalRecordCount)
  {
    var r := l.requests[i];
    assert r in l.requests;
    if r.kind == ForMore {
      MoreReplyShows(server(l.filter), l.Taken(i), r, page.value, grid);
    } else {
      FirstReplyShows(server(l.filter), l.Taken(i), r, page.value);
    }
  }

  lemma RequestKeepsAgreement(server: Server, l: Listing, f: Filter, force: bool)
    requires Agrees(server, l)
    ensures Agrees(server, l.Applied(f, force)) && Agrees(server, l.MoreRequested())
  {
  }

  lemma FailureKeepsAgreement(server: Server, l: Listing, i: nat, page: Option<Page>, grid: bool)
    requires Inv(l) && Agrees(server, l) && i < |l.requests|
    requires page.None? || l.requests[i].revision != l.revision
    ensures var l' := Next(l, Reply(i, page, grid));
      l'.filter == l.filter && Shows(server(l.filter), l'.items, l'.totalRecordCount)
  {
    assert l.requests[i] in l.requests;
  }

  lemma AnswerKeepsAgreement(server: Server, l: Listing, i: nat, page: Option<Page>, grid: bool)
    requires FixedServer(server) && Inv(l) && Agrees(server, l) && Honest(server, l, Reply(i, page, grid))
    requires i < |l.requests|
    ensures Agrees(server, Next(l, Reply(i, page, grid)))
  {
    TakenCounts(l, i);
    if page.Some? && l.requests[i].revision == l.revision {
      ReplyKeepsAgreement(server, l, i, page, grid);
    } else {
      FailureKeepsAgreement(server, l, i, page, grid);
    }
  }

  lemma StepKeepsAgreement(server: Server, l: Listing, step: Step)
    requires FixedServer(server) && Inv(l) && Agrees(server, l) && Honest(server, l, step)
    ensures Agrees(server, Next(l, step))
  {
    match step
    case Reply(i, page, grid) =>
      if i < |l.requests| {
        AnswerKeepsAgreement(server, l, i, page, grid);
      }
    case ApplyFilter(f, force) => RequestKeepsAgreement(server, l, f, force);
    case LoadMore => RequestKeepsAgreement(server, l, l.filter, false);
    case _ =>
  }

  /** Main result: against a server that does not change the list is always a prefix of
      the server's list for the current filter, and is all of it once nothing is left
      to load after a page has come. */
  lemma {:induction false} ListIsPrefix(server: Server, l: Listing, steps: seq<Step>)
    requires FixedServer(server) && Inv(l) && Agrees(server, l) && HonestRun(server, l, steps)
    ensures var l', list := Run(l, steps), server(Run(l, steps).filter);
      && Agrees(server, l') && Ids(l'.items) <= list
      && (l'.nextStartIndex == l'.totalRecordCount > 0 ==> Ids(l'.items) == list)
    decreases |steps|
  {
    if steps == [] {
      ListStaysSound(l, []);
    } else {
      StepKeepsInv(l, steps[0]);
      StepKeepsAgreement(server, l, steps[0]);
      ListIsPrefix(server, Next(l, steps[0]), steps[1..]);
    }
  }

  /** A true answer to the current request for more, in the view that asked, is never
      turned down and leaves strictly less to load. */
  lemma MoreShrinksTheRest(server: Server, l: Listing, i: nat, page: Page)
    requires FixedServer(server) && Inv(l) && Agrees(server, l)
    requires i < |l.requests| && l.requests[i].kind == ForMore && l.requests[i].revision == l.revision
    requires l.view == Some(l.requests[i].view)
    requires Honest(server, l, Reply(i, Some(page), true))
    ensures var l' := Next(l, Reply(i, Some(page), true));
      && !l'.isLoadingMore && l'.totalRecordCount == l.totalRecordCount
      && l'.nextStartIndex == l.nextStartIndex + |page.items| > l.nextStartIndex
  {
    var r, list := l.requests[i], server(l.filter);
    assert r in l.requests;
    if !l.isLoadingMore {
      NoneInFlight(l.requests, l.revision, ForMore);
    }
    HonestIsValid(list, r.start, page, r.filter);
    HonestFits(list, l, page, r.filter);
  }

  /** A list opened with a true first page starts in agreement with the server. */
  lemma FetchedAgrees(server: Server, f: Filter, page: Page, view: nat, clock: nat)
    requires FixedServer(server) && HonestPage(server(f), 0, page)
    ensures Inv(Fetched(f, page, view, clock)) && Agrees(server, Fetched(f, page, view, clock))
  {
    HonestIsValid(server(f), 0, page, f);
    ListedPageIsValid(page, f, 0);
    FetchedHasInv(f, page, view, clock);
    FirstPageShows(server(f), page, f);
  }

  /** So does a cached list that agreed when it was put into the cache. */
  lemma ReopenedAgrees(server: Server, cached: Listing, view: nat, clock: nat)
    requires ListInv(cached) && Agrees(server, cached)
    ensures Inv(Reopened(cached, view, clock)) && Agrees(server, Reopened(cached, view, clock))
  {
    ReopenedHasInv(cached, view, clock);
  }

  const PAGE_SIZE: nat := 48

  function PageAt(list: seq<nat>, start: nat): (page: Page)
    requires start <= |list|
    ensures HonestPage(list, start, page)
  {
    var end := if start + PAGE_SIZE < |list| then start + PAGE_SIZE else |list|;
    Page(seq(end - start, i requires 0 <= i < end - start => Item(list[start + i], Filter("", ""))), start, end, |list|)
  }

  /** Loading more once, answered with a full page. */
  function LoadOnce(server: Server, l: Listing): (l': Listing)
    requires FixedServer(server) && Inv(l) && Agrees(server, l) && l.MayLoadMore()
    ensures Inv(l') && Agrees(server, l') && !l'.isLoadingMore
    ensures l'.filter == l.filter && l'.view == l.view && l'.syncing == l.syncing
    ensures l'.totalRecordCount == l.totalRecordCount && l'.nextStartIndex > l.nextStartIndex
  {
    AskedMore(server, l);
    var asked, page := l.MoreRequested(), PageAt(server(l.filter), l.nextStartIndex);
    var reply := Reply(|l.requests|, Some(page), true);
    StepKeepsInv(asked, reply);
    StepKeepsAgreement(server, asked, reply);
    MoreShrinksTheRest(server, asked, |l.requests|, page);
    Next(asked, reply)
  }

  lemma AskedMore(server: Server, l: Listing)
    requires FixedServer(server) && Inv(l) && Agrees(server, l) && l.MayLoadMore()
    ensures var asked := l.MoreRequested();
      && Inv(asked) && Agrees(server, asked) && |asked.requests| == |l.requests| + 1
      && asked.requests[|l.requests|] == Request(ForMore, l.revision, l.filter, l.nextStartIndex, l.view.value)
  {
    MoreKeepsInv(l);
    StepKeepsAgreement(server, l, LoadMore);
  }

  function LoadAll(server: Server, l: Listing): Listing
    requires FixedServer(server) && Inv(l) && Agrees(server, l)
    decreases l.totalRecordCount - l.nextStartIndex
  {
    if l.MayLoadMore() then LoadAll(server, LoadOnce(server, l)) else l
  }

  /** Main result: loading more ends, with the whole list. */
  lemma {:induction false} LoadAllIsWhole(server: Server, l: Listing)
    requires FixedServer(server) && Inv(l) && Agrees(server, l)
    requires l.view.Some? && !l.isLoadingMore && !l.syncing && l.totalRecordCount == |server(l.filter)|
    ensures LoadAll(server, l).filter == l.filter && Ids(LoadAll(server, l).items) == server(l.filter)
    decreases l.totalRecordCount - l.nextStartIndex
  {
    if l.MayLoadMore() {
      LoadAllIsWhole(server, LoadOnce(server, l));
    }
  }

  // ---------------------------------------------------------------- a filter that never finishes

  /** Marked as loading, although no request for it is in flight. */
  predicate Stranded(l: Listing) {
    l.filterLoading && Count(l.requests, l.revision, ForFilter) == 0
  }

  /** The answer to the current filter request ends the loading exactly if the list is
      shown at that moment; otherwise the list is stranded. */
  lemma FilterAnswerLostIffHidden(l: Listing, i: nat, page: Option<Page>)
    requires Inv(l) && i < |l.requests| && l.requests[i].kind == ForFilter && l.requests[i].revision == l.revision
    ensures Stranded(Next(l, Reply(i, page, true))) <==> l.view.None?
  {
    TakenCounts(l, i);
    assert l.requests[i] in l.requests;
    var rest := l.Taken(i).requests;
    if Count(l.requests, l.revision, ForFilter) == 0 {
      NoneInFlight(l.requests, l.revision, ForFilter);
    }
  }

  /** A stranded list stays empty for ever: no step can load it. */
  lemma {:induction false} StrandedForEver(l: Listing, steps: seq<Step>)
    requires Inv(l) && Stranded(l)
    ensures Stranded(Run(l, steps)) && Run(l, steps).items == []
    decreases |steps|
  {
    if steps != [] {
      StepKeepsInv(l, steps[0]);
      StrandedStep(l, steps[0]);
      StrandedForEver(Next(l, steps[0]), steps[1..]);
    }
  }

  /** A concrete run: a list is opened, another filter chosen, another view shown, and
      then the answer comes. */
  lemma StrandedByNavigation(page: Option<Page>)
    ensures var f, g := Filter("", ""), Filter("Movie", "");
      var initial := Fetched(f, Page([Item(1, f)], 0, 1, 1), 0, 0);
      Inv(initial) && Stranded(Run(initial, [ApplyFilter(g, false), Show(None), Reply(0, page, true), Show(Some(0))]))
  {
    var f, g := Filter("", ""), Filter("Movie", "");
    var initial := Fetched(f, Page([Item(1, f)], 0, 1, 1), 0, 0);
    FetchedHasInv(f, Page([Item(1, f)], 0, 1, 1), 0, 0);
    var l1 := Next(initial, ApplyFilter(g, false));
    var l2 := Next(l1, Show(None));
    var l3 := Next(l2, Reply(0, page, true));
    assert l1.requests == [Request(ForFilter, 2, g, 0, 0)];
    assert l3.requests == [] && l3.filterLoading;
    var steps := [ApplyFilter(g, false), Show(None), Reply(0, page, true), Show(Some(0))];
    assert steps[1..] == [Show(None), Reply(0, page, true), Show(Some(0))];
    assert steps[1..][1..] == [Reply(0, page, true), Show(Some(0))] && steps[1..][1..][1..] == [Show(Some(0))];
    assert Run(initial, steps) == Run(l1, steps[1..]) == Run(l2, steps[1..][1..]) == Run(l3, [Show(Some(0))]);
    assert Run(l3, [Show(Some(0))]) == Run(Next(l3, Show(Some(0))), []);
  }

  lemma StrandedStep(l: Listing, step: Step)
    requires Inv(l) && Stranded(l)
    ensures Stranded(Next(l, step))
  {
    match step
    case Reply(i, page, grid) =>
      if i < |l.requests| {
        TakenCounts(l, i);
        NoneInFlight(l.requests, l.revision, ForFilter);
        NoneInFlight(l.requests, l.revision, ForMore);
        NoneInFlight(l.requests, l.revision, ForSync);
        assert l.requests[i] in l.requests;
      }
    case _ =>
  }
}
