/**
 * Runs of the list controller: sequences of the events the component reacts
 * to, and the properties that relate several steps (append order,
 * exhaustion, at most one request in flight, what a reset does to a request
 * still in flight).
 */
module ListRuns {
  import opened Wrappers
  import opened BookingList

  datatype Event =
    | Scrolled(container: Option<Viewport>)
    | PageNumEffectRan
    | InitialFetchEffectRan
    | Settled(outcome: PageOutcome)
    | Removed(delivered: bool)
    | ResetSignalEffectRan
    | PageNumChanged(n: nat)
    | ResetSignalChanged(raised: bool)

  function Step(s: ListState, e: Event): Transition
  {
    match e
    case Scrolled(c) => Transition(Scroll(s, c), None)
    case PageNumEffectRan => PageEffect(s)
    case InitialFetchEffectRan => InitialEffect(s)
    case Settled(o) => Transition(Complete(s, o), None)
    case Removed(delivered) => Transition(Remove(s, delivered), None)
    case ResetSignalEffectRan => Transition(SignalEffect(s), None)
    case PageNumChanged(n) => Transition(WithPageNum(s, n), None)
    case ResetSignalChanged(raised) => Transition(WithSFetch(s, raised), None)
  }

  function Issued(request: Option<nat>): seq<nat>
  {
    if request.Some? then [request.value] else []
  }

  /** The final state of a run and the page indices it requested, in order. */
  datatype Trace = Trace(state: ListState, requests: seq<nat>)

  function Run(s: ListState, events: seq<Event>): Trace
    decreases |events|
  {
    if events == [] then Trace(s, [])
    else
      var t := Step(s, events[0]);
      var rest := Run(t.state, events[1..]);
      Trace(rest.state, Issued(t.request) + rest.requests)
  }

  /** A request settles only while one is in flight, that is, while `loading` holds. */
  predicate Feasible(s: ListState, events: seq<Event>)
    decreases |events|
  {
    events == [] ||
    ((events[0].Settled? ==> s.loading) && Feasible(Step(s, events[0]).state, events[1..]))
  }

  function Settlements(events: seq<Event>): nat
    decreases |events|
  {
    if events == [] then 0
    else (if events[0].Settled? then 1 else 0) + Settlements(events[1..])
  }

  /** Running two event sequences one after the other. */
  lemma {:induction false} RunAppend(s: ListState, a: seq<Event>, b: seq<Event>)
    ensures Run(s, a + b).state == Run(Run(s, a).state, b).state
    ensures Run(s, a + b).requests == Run(s, a).requests + Run(Run(s, a).state, b).requests
    decreases |a|
  {
    if a == [] {
      assert a + b == b;
    } else {
      assert (a + b)[0] == a[0];
      assert (a + b)[1..] == a[1..] + b;
      RunAppend(Step(s, a[0]).state, a[1..], b);
    }
  }

  /**
   * At most one request is in flight: every request issued is either settled
   * within the run or still marked by `loading` at its end, and no request is
   * issued while `loading` holds.
   */
  lemma {:induction false} InFlightAccounting(s: ListState, events: seq<Event>)
    requires Feasible(s, events)
    ensures |Run(s, events).requests| + (if s.loading then 1 else 0)
            == Settlements(events) + (if Run(s, events).state.loading then 1 else 0)
    decreases |events|
  {
    if events != [] {
      var t := Step(s, events[0]);
      InFlightAccounting(t.state, events[1..]);
    }
  }

  /** `Mounted` is idle, so along any feasible run from it requests never outnumber settlements by more than one. */
  lemma AtMostOneInFlightFromMount(events: seq<Event>)
    requires Feasible(Mounted, events)
    ensures Settlements(events) <= |Run(Mounted, events).requests| <= Settlements(events) + 1
  {
    InFlightAccounting(Mounted, events);
  }

  /** The events that reset the list. */
  predicate Resets(e: Event)
  {
    e == Removed(true) || e == ResetSignalEffectRan
  }

  /**
   * Once a page came back empty, nothing is requested and the list does not
   * change until a delete or the new-booking signal resets it.
   */
  lemma {:induction false} ExhaustedUntilReset(s: ListState, events: seq<Event>)
    requires !s.hasMore && !s.loading
    requires Feasible(s, events)
    requires forall i :: 0 <= i < |events| ==> !Resets(events[i])
    ensures Run(s, events).requests == []
    ensures Run(s, events).state.lists == s.lists
    ensures !Run(s, events).state.hasMore && !Run(s, events).state.loading
    decreases |events|
  {
    if events != [] {
      var t := Step(s, events[0]);
      assert !Resets(events[0]);
      assert t.request == None && !t.state.hasMore && !t.state.loading && t.state.lists == s.lists;
      assert forall i :: 0 <= i < |events[1..]| ==> !Resets(events[1..][i]) by {
        forall i | 0 <= i < |events[1..]| ensures !Resets(events[1..][i]) {
          assert events[1..][i] == events[i + 1];
        }
      }
      ExhaustedUntilReset(t.state, events[1..]);
    }
  }

  /** One scroll-driven page: scroll near the bottom, the cursor effect fetches, the page arrives. */
  function ScrollCycle(v: Viewport, page: seq<Booking>): seq<Event>
  {
    [Scrolled(Some(v)), PageNumEffectRan, Settled(Success(page))]
  }

  function ScrollCycles(v: Viewport, pages: seq<seq<Booking>>): seq<Event>
    decreases |pages|
  {
    if pages == [] then [] else ScrollCycle(v, pages[0]) + ScrollCycles(v, pages[1..])
  }

  function Concat(pages: seq<seq<Booking>>): seq<Booking>
    decreases |pages|
  {
    if pages == [] then [] else pages[0] + Concat(pages[1..])
  }

  function TotalSize(pages: seq<seq<Booking>>): nat
    decreases |pages|
  {
    if pages == [] then 0 else |pages[0]| + TotalSize(pages[1..])
  }

  /** The consecutive page indices `from`, `from + 1`, ..., `from + count - 1`. */
  function Range(from: nat, count: nat): (r: seq<nat>)
    ensures |r| == count && forall i :: 0 <= i < count ==> r[i] == from + i
    decreases count
  {
    if count == 0 then [] else [from] + Range(from + 1, count - 1)
  }

  lemma {:induction false} ConcatSize(pages: seq<seq<Booking>>)
    ensures |Concat(pages)| == TotalSize(pages)
    decreases |pages|
  {
    if pages != [] {
      ConcatSize(pages[1..]);
    }
  }

  lemma OneScrollCycle(s: ListState, v: Viewport, page: seq<Booking>)
    requires NearBottom(v) && CanFetch(s) && page != []
    ensures Run(s, ScrollCycle(v, page))
            == Trace(s.(lists := s.lists + page, pageNum := s.pageNum + 1), [s.pageNum + 1])
  {
    var e := ScrollCycle(v, page);
    var s1 := Scroll(s, Some(v));
    var t2 := PageEffect(s1);
    var s3 := Complete(t2.state, Success(page));
    assert e[1..] == [PageNumEffectRan, Settled(Success(page))];
    assert e[1..][1..] == [Settled(Success(page))];
    assert e[1..][1..][1..] == [];
    assert Run(s3, []) == Trace(s3, []);
    assert Run(t2.state, e[1..][1..]) == Trace(s3, []);
    assert Run(s1, e[1..]) == Trace(s3, [s.pageNum + 1]);
  }

  /**
   * Scrolling through non-empty pages appends them to the list in the order
   * they arrive and requests the pages after the cursor one by one; the list
   * stays open for more.
   */
  lemma {:induction false} ScrollingAppendsInOrder(s: ListState, v: Viewport, pages: seq<seq<Booking>>)
    requires NearBottom(v) && CanFetch(s)
    requires forall i :: 0 <= i < |pages| ==> pages[i] != []
    ensures Run(s, ScrollCycles(v, pages))
            == Trace(s.(lists := s.lists + Concat(pages), pageNum := s.pageNum + |pages|),
                     Range(s.pageNum + 1, |pages|))
    decreases |pages|
  {
    if pages == [] {
      assert s.lists + [] == s.lists;
    } else {
      var s1 := s.(lists := s.lists + pages[0], pageNum := s.pageNum + 1);
      OneScrollCycle(s, v, pages[0]);
      RunAppend(s, ScrollCycle(v, pages[0]), ScrollCycles(v, pages[1..]));
      ScrollingAppendsInOrder(s1, v, pages[1..]);
      assert s.lists + pages[0] + Concat(pages[1..]) == s.lists + Concat(pages);
      assert [s.pageNum + 1] + Range(s.pageNum + 2, |pages| - 1) == Range(s.pageNum + 1, |pages|);
    }
  }

  /** The list grows by the sum of the page sizes. */
  lemma ScrollingGrowsByTotalSize(s: ListState, v: Viewport, pages: seq<seq<Booking>>)
    requires NearBottom(v) && CanFetch(s)
    requires forall i :: 0 <= i < |pages| ==> pages[i] != []
    ensures |Run(s, ScrollCycles(v, pages)).state.lists| == |s.lists| + TotalSize(pages)
  {
    ScrollingAppendsInOrder(s, v, pages);
    ConcatSize(pages);
  }

  /**
   * Every scroll event reads the current cursor, so two near-bottom events
   * before the cursor effect runs advance it twice and the page in between
   * is never requested.
   */
  lemma DoubleScrollSkipsPage(s: ListState, v: Viewport)
    requires NearBottom(v) && CanFetch(s)
    ensures Run(s, [Scrolled(Some(v)), Scrolled(Some(v)), PageNumEffectRan]).requests
            == [s.pageNum + 2]
  {
    var e := [Scrolled(Some(v)), Scrolled(Some(v)), PageNumEffectRan];
    var s1 := Scroll(s, Some(v));
    var s2 := Scroll(s1, Some(v));
    var t3 := PageEffect(s2);
    assert s2.pageNum == s.pageNum + 2;
    assert e[1..] == [Scrolled(Some(v)), PageNumEffectRan];
    assert e[1..][1..] == [PageNumEffectRan];
    assert e[1..][1..][1..] == [];
    assert Run(s2, e[1..][1..]) == Trace(t3.state, [s.pageNum + 2]);
    assert Run(s1, e[1..]) == Trace(t3.state, [s.pageNum + 2]);
  }

  /**
   * Page 0 is requested only by the initial-fetch effect, so once its flag is
   * set no run without a reset requests page 0 again, even when the guard
   * swallowed the initial request.
   */
  lemma {:induction false} InitialFetchNotRepeated(s: ListState, events: seq<Event>)
    requires s.initialFetchDone
    requires forall i :: 0 <= i < |events| ==> !Resets(events[i])
    ensures 0 !in Run(s, events).requests
    ensures Run(s, events).state.initialFetchDone
    decreases |events|
  {
    if events != [] {
      var t := Step(s, events[0]);
      assert !Resets(events[0]);
      assert t.request.Some? ==> t.request.value > 0;
      assert t.state.initialFetchDone;
      assert forall i :: 0 <= i < |events[1..]| ==> !Resets(events[1..][i]) by {
        forall i | 0 <= i < |events[1..]| ensures !Resets(events[1..][i]) {
          assert events[1..][i] == events[i + 1];
        }
      }
      InitialFetchNotRepeated(t.state, events[1..]);
    }
  }

  /** An empty page closes the list without touching its contents. */
  lemma EmptyPageExhausts(s: ListState, v: Viewport)
    requires NearBottom(v) && CanFetch(s)
    ensures Run(s, ScrollCycle(v, []))
            == Trace(s.(pageNum := s.pageNum + 1, hasMore := false), [s.pageNum + 1])
  {
    var e := ScrollCycle(v, []);
    var s1 := Scroll(s, Some(v));
    var t2 := PageEffect(s1);
    var s3 := Complete(t2.state, Success([]));
    assert e[1..] == [PageNumEffectRan, Settled(Success([]))];
    assert e[1..][1..] == [Settled(Success([]))];
    assert e[1..][1..][1..] == [];
    assert Run(t2.state, e[1..][1..]) == Trace(s3, []);
    assert Run(s1, e[1..]) == Trace(s3, [s.pageNum + 1]);
  }

  /**
   * After mounting, a first page of 20 records, a second of 20 and an empty
   * third leave 40 records and the list closed, after requests for pages 0, 1 and 2.
   */
  lemma TwentyTwentyEmpty(v: Viewport, p0: seq<Booking>, p1: seq<Booking>)
    requires NearBottom(v) && |p0| == 20 && |p1| == 20
    ensures var r := Run(Mounted, [InitialFetchEffectRan, Settled(Success(p0))]
                                  + ScrollCycles(v, [p1]) + ScrollCycle(v, []));
            r.state.lists == p0 + p1 && |r.state.lists| == 40 && !r.state.hasMore
            && r.requests == [0, 1, 2]
  {
    var start := [InitialFetchEffectRan, Settled(Success(p0))];
    var s1 := Mounted.(lists := p0, initialFetchDone := true);
    assert start[1..] == [Settled(Success(p0))];
    assert start[1..][1..] == [];
    var t0 := InitialEffect(Mounted);
    assert t0 == Transition(Mounted.(loading := true, initialFetchDone := true), Some(0));
    assert Run(t0.state, start[1..]) == Trace(s1, []);
    assert Run(Mounted, start) == Trace(s1, [0]);
    ScrollingAppendsInOrder(s1, v, [p1]);
    assert Concat([p1]) == p1 by {
      assert [p1][1..] == [];
    }
    var s2 := s1.(lists := p0 + p1, pageNum := 1);
    assert Run(s1, ScrollCycles(v, [p1])) == Trace(s2, [1]);
    EmptyPageExhausts(s2, v);
    RunAppend(Mounted, start, ScrollCycles(v, [p1]));
    RunAppend(Mounted, start + ScrollCycles(v, [p1]), ScrollCycle(v, []));
  }

  /**
   * No stale-response guard: a delete while a request is in flight resets the
   * list, the initial-fetch effect is then swallowed by the `loading` guard
   * (yet marks page 0 as fetched), and the old request's page becomes the
   * whole new list.
   */
  lemma StalePageSurvivesReset(s: ListState, page: seq<Booking>)
    requires s.loading && page != []
    ensures Run(s, [Removed(true), InitialFetchEffectRan, Settled(Success(page))])
            == Trace(s.(lists := page, loading := false, hasMore := true,
                        pageNum := 0, initialFetchDone := true), [])
  {
    var e := [Removed(true), InitialFetchEffectRan, Settled(Success(page))];
    assert e[1..] == [InitialFetchEffectRan, Settled(Success(page))];
    assert e[1..][1..] == [Settled(Success(page))];
    assert e[1..][1..][1..] == [];
    var s1 := Reset(s);
    var t2 := InitialEffect(s1);
    assert t2 == Transition(s1.(initialFetchDone := true), None);
    var s3 := Complete(t2.state, Success(page));
    assert [] + page == page;
    assert Run(t2.state, e[1..][1..]) == Trace(s3, []);
    assert Run(s1, e[1..]) == Trace(s3, []);
  }
}
