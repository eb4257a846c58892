/**
 * The paged booking list (src/components/List.jsx), together with the two
 * pieces of parent state it is driven by (src/components/App.jsx): the page
 * cursor `pageNum` and the reset signal `sFetch`.
 *
 * The state machine is given twice: as pure step functions over a
 * `ListState` value, which the lemmas in ListRuns reason about, and as the
 * class `Lists`, whose methods update the fields in place and are proved to
 * follow the step functions.
 */
module BookingList {
  import opened Wrappers

  type AirportId = int

  /** One booking as the listing service returns it. */
  datatype Booking = Booking(
    id: int,
    firstName: string,
    lastName: string,
    departureAirportId: AirportId,
    arrivalAirportId: AirportId,
    departureDate: string,
    returnDate: string)

  datatype Airport = Airport(id: AirportId, title: string)

  /** How a page request settles: the page's records, or a network/JSON failure. */
  datatype PageOutcome = Success(page: seq<Booking>) | Failure

  /** The scroll geometry of the list container at a scroll event. */
  datatype Viewport = Viewport(scrollHeight: int, scrollTop: real, clientHeight: int)

  /** Pixels before the literal bottom at which the next page is asked for. */
  const NearBottomMargin: int := 10

  /** The list is near its bottom when at most the margin is left to scroll below the visible part. */
  predicate NearBottom(v: Viewport): (r: bool)
    ensures r <==> v.scrollHeight as real - (v.scrollTop + v.clientHeight as real) <= NearBottomMargin as real
  {
    v.scrollHeight as real - v.scrollTop <= (v.clientHeight + NearBottomMargin) as real
  }

  /**
   * Everything the list controller keeps: the accumulated bookings, the two
   * flags, the initial-fetch flag, and the parent's cursor and reset signal.
   */
  datatype ListState = ListState(
    lists: seq<Booking>,
    loading: bool,
    hasMore: bool,
    initialFetchDone: bool,
    pageNum: nat,
    sFetch: bool)

  /** The state right after the parent and the list have mounted. */
  const Mounted := ListState([], false, true, false, 0, false)

  /** A state change, together with the page request it issues, if any. */
  datatype Transition = Transition(state: ListState, request: Option<nat>)

  /** The guard of `fetchData`: a request goes out only when idle and not exhausted. */
  predicate CanFetch(s: ListState)
  {
    !s.loading && s.hasMore
  }

  /** The synchronous part of `fetchData(page)`: the guard and `setLoading(true)`. */
  function Begin(s: ListState, page: nat): (t: Transition)
    ensures !CanFetch(s) ==> t == Transition(s, None)
    ensures CanFetch(s) ==> t.request == Some(page) && t.state.loading
    ensures t.state.(loading := s.loading) == s
  {
    if s.loading || !s.hasMore then Transition(s, None)
    else Transition(s.(loading := true), Some(page))
  }

  /** The part of `fetchData` after the request settles, ending with the `finally`. */
  function Complete(s: ListState, o: PageOutcome): (r: ListState)
    ensures !r.loading
    ensures o.Success? && o.page == [] ==> !r.hasMore && r.lists == s.lists
    ensures o.Success? && o.page != [] ==> r.hasMore == s.hasMore && r.lists == s.lists + o.page
    ensures o.Failure? ==> r.hasMore == s.hasMore && r.lists == s.lists
    ensures r.(lists := s.lists, loading := s.loading, hasMore := s.hasMore) == s
  {
    var settled :=
      match o
      case Success(page) =>
        if |page| == 0 then s.(hasMore := false) else s.(lists := s.lists + page)
      case Failure => s;
    settled.(loading := false)
  }

  /** `changePageNum` of the parent. */
  function WithPageNum(s: ListState, n: nat): (r: ListState)
    ensures r.pageNum == n && r.(pageNum := s.pageNum) == s
  {
    s.(pageNum := n)
  }

  /** `changeSFetch` of the parent. */
  function WithSFetch(s: ListState, raised: bool): (r: ListState)
    ensures r.sFetch == raised && r.(sFetch := s.sFetch) == s
  {
    s.(sFetch := raised)
  }

  /** `handleScroll`: with no container nothing happens. */
  function Scroll(s: ListState, container: Option<Viewport>): (r: ListState)
    ensures r.pageNum == s.pageNum + 1 || r.pageNum == s.pageNum
    ensures r.pageNum == s.pageNum + 1 <==>
              container.Some? && NearBottom(container.value) && CanFetch(s)
    ensures r.(pageNum := s.pageNum) == s
  {
    match container
    case None => s
    case Some(v) =>
      if NearBottom(v) && !s.loading && s.hasMore then WithPageNum(s, s.pageNum + 1) else s
  }

  /** The effect that runs when `pageNum` changes: it fetches only pages after the first. */
  function PageEffect(s: ListState): (t: Transition)
    ensures s.pageNum == 0 ==> t == Transition(s, None)
    ensures t.request.Some? <==> s.pageNum > 0 && CanFetch(s)
    ensures t.request.Some? ==> t.request.value == s.pageNum
    ensures t.request.None? ==> t.state == s
    ensures t.state.loading == (s.loading || t.request.Some?)
    ensures t.state.(loading := s.loading) == s
  {
    if s.pageNum > 0 then Begin(s, s.pageNum) else Transition(s, None)
  }

  /**
   * The effect that fetches page 0 once per reset. The flag is raised even
   * when the guard of `fetchData` skips the request.
   */
  function InitialEffect(s: ListState): (t: Transition)
    ensures s.initialFetchDone ==> t == Transition(s, None)
    ensures !s.initialFetchDone ==> t.state.initialFetchDone
    ensures t.request.Some? <==> !s.initialFetchDone && CanFetch(s)
    ensures t.request.Some? ==> t.request.value == 0
    ensures t.state.loading == (s.loading || t.request.Some?)
    ensures t.state.(loading := s.loading, initialFetchDone := s.initialFetchDone) == s
  {
    if !s.initialFetchDone then
      var started := Begin(s, 0);
      Transition(started.state.(initialFetchDone := true), started.request)
    else
      Transition(s, None)
  }

  /** The reset shared by a delete and the new-booking signal. */
  function Reset(s: ListState): (r: ListState)
    ensures r.lists == [] && r.hasMore && r.pageNum == 0 && !r.initialFetchDone
    ensures r.loading == s.loading && r.sFetch == s.sFetch
  {
    WithPageNum(s.(lists := [], hasMore := true), 0).(initialFetchDone := false)
  }

  /**
   * `handleRemove` after its DELETE request: when the request is rejected the
   * awaited call throws and nothing is reset.
   */
  function Remove(s: ListState, delivered: bool): (r: ListState)
    ensures delivered ==> r == Reset(s)
    ensures !delivered ==> r == s
  {
    if delivered then Reset(s) else s
  }

  /** The effect that watches the reset signal. */
  function SignalEffect(s: ListState): (r: ListState)
    ensures s.sFetch ==> r == Reset(s)
    ensures !s.sFetch ==> r == s
  {
    if s.sFetch then Reset(s) else s
  }

  /**
   * `checkAirport`'s result: `undefined` when the airports are not loaded,
   * a title, or the TypeError raised by reading `.title` of `airports[-1]`.
   */
  datatype AirportTitle = NotLoaded | Title(title: string) | Throws

  /** `Array.prototype.findIndex` for an airport id: the first match, or -1. */
  function FindIndex(airports: seq<Airport>, id: AirportId): (i: int)
    ensures -1 <= i < |airports|
    ensures i >= 0 ==> airports[i].id == id && forall j :: 0 <= j < i ==> airports[j].id != id
    ensures i == -1 ==> forall j :: 0 <= j < |airports| ==> airports[j].id != id
  {
    if airports == [] then -1
    else if airports[0].id == id then 0
    else
      var rest := FindIndex(airports[1..], id);
      if rest == -1 then -1 else rest + 1
  }

  /** `checkAirport(id)`; `None` stands for the parent's not-yet-loaded airport list. */
  function CheckAirport(airports: Option<seq<Airport>>, id: AirportId): (r: AirportTitle)
    ensures airports.None? <==> r == NotLoaded
    ensures r == Throws <==>
              airports.Some? && forall j :: 0 <= j < |airports.value| ==> airports.value[j].id != id
    ensures r.Title? ==> exists i :: 0 <= i < |airports.value| && airports.value[i].id == id
                           && r.title == airports.value[i].title
                           && forall j :: 0 <= j < i ==> airports.value[j].id != id
  {
    match airports
    case None => NotLoaded
    case Some(ports) =>
      var i := FindIndex(ports, id);
      if i < 0 then Throws else Title(ports[i].title)
  }

  /** The list component with its parent's cursor and reset signal folded in. */
  class Lists {
    var lists: seq<Booking>
    var loading: bool
    var hasMore: bool
    var initialFetchDone: bool
    var pageNum: nat
    var sFetch: bool

    function State(): ListState
      reads this
    {
      ListState(lists, loading, hasMore, initialFetchDone, pageNum, sFetch)
    }

    constructor ()
      ensures State() == Mounted
    {
      lists := [];
      loading := false;
      hasMore := true;
      initialFetchDone := false;
      pageNum := 0;
      sFetch := false;
    }

    /** Starts `fetchData(page)`; returns the page index requested, if any. */
    method FetchData(page: nat) returns (request: Option<nat>)
      modifies this
      ensures Transition(State(), request) == Begin(old(State()), page)
    {
      if loading || !hasMore {
        return None;
      }
      loading := true;
      request := Some(page);
    }

    /** Settles the request in flight with outcome `o`. */
    method FetchSettled(o: PageOutcome)
      modifies this
      ensures State() == Complete(old(State()), o)
    {
      match o {
        case Success(page) =>
          if |page| == 0 {
            hasMore := false;
          } else {
            lists := lists + page;
          }
        case Failure =>
      }
      loading := false;
    }

    method ChangePageNum(n: nat)
      modifies this
      ensures State() == WithPageNum(old(State()), n)
    {
      pageNum := n;
    }

    method ChangeSFetch(raised: bool)
      modifies this
      ensures State() == WithSFetch(old(State()), raised)
    {
      sFetch := raised;
    }

    method HandleScroll(container: Option<Viewport>)
      modifies this
      ensures State() == Scroll(old(State()), container)
    {
      if container.Some? {
        var nearBottom := NearBottom(container.value);
        if nearBottom && !loading && hasMore {
          ChangePageNum(pageNum + 1);
        }
      }
    }

    method PageNumEffect() returns (request: Option<nat>)
      modifies this
      ensures Transition(State(), request) == PageEffect(old(State()))
    {
      request := None;
      if pageNum > 0 {
        request := FetchData(pageNum);
      }
    }

    method InitialFetchEffect() returns (request: Option<nat>)
      modifies this
      ensures Transition(State(), request) == InitialEffect(old(State()))
    {
      request := None;
      if !initialFetchDone {
        request := FetchData(0);
        initialFetchDone := true;
      }
    }

    method HandleRemove(delivered: bool)
      modifies this
      ensures State() == Remove(old(State()), delivered)
    {
      if !delivered {
        return;
      }
      lists := [];
      hasMore := true;
      ChangePageNum(0);
      initialFetchDone := false;
    }

    method ResetSignalEffect()
      modifies this
      ensures State() == SignalEffect(old(State()))
    {
      if sFetch {
        lists := [];
        hasMore := true;
        ChangePageNum(0);
        initialFetchDone := false;
      }
    }
  }
}
