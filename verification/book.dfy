/**
 The page-turn state machine of the `Book` component.

 The component keeps three pieces of state: the index of the page on the
 right-hand side, whether a flip animation is in flight, and the direction of
 that flip. A turn request starts the flip and schedules a timer; the timer's
 callback later commits the move. Here the timer is explicit: a `Reader` is
 the component state together with the callbacks scheduled but not yet run,
 oldest first. Running one of them is a separate `Tick` step, so any order of
 requests and timer firings can be described as a trace of events.
 */
module Book {
  import opened StoryData

  /** The way a flip turns the page. */
  datatype Direction = Forward | Backward

  /** The component's state: `currentPage`, `isFlipping` and `flipDirection`. */
  datatype BookState = BookState(currentPage: int, isFlipping: bool, flipDirection: Direction)

  /**
   A scheduled timer callback. Its closure holds the requested direction and
   the value of `currentPage` seen when the request was made; the callback
   checks the bound against that captured value and then updates the page
   from its latest value.
   */
  datatype Timer = Timer(direction: Direction, capturedPage: int)

  /** The component state together with the timer callbacks still pending, oldest first. */
  datatype Reader = Reader(state: BookState, timers: seq<Timer>)

  /** The events that drive the reader: a direct turn request, the two guarded
      navigation handlers, and the firing of the oldest pending timer. */
  datatype Event = Turn(direction: Direction) | Next | Prev | Tick

  /** The index of the last page, `totalPages - 1`. */
  function LastIndex(pages: seq<StoryPage>): int {
    |pages| - 1
  }

  /**
   The invariant of every state the reader can reach: the index lies on a page,
   at most one flip is pending, a flip is pending exactly while `isFlipping`
   is set, and the pending callback holds the recorded direction and the
   current index.
   */
  predicate Inv(r: Reader, pages: seq<StoryPage>) {
    && 0 <= r.state.currentPage <= LastIndex(pages)
    && |r.timers| <= 1
    && (r.state.isFlipping <==> |r.timers| == 1)
    && (|r.timers| == 1 ==> r.timers[0] == Timer(r.state.flipDirection, r.state.currentPage))
  }

  /** The state when the component is first shown: first page, no flip, direction forward, no timer. */
  function Initial(): (r: Reader)
    ensures forall pages {:trigger Inv(r, pages)} :: |pages| > 0 ==> Inv(r, pages)
    ensures r.state.currentPage == 0 && !r.state.isFlipping && r.state.flipDirection == Forward
  {
    Reader(BookState(0, false, Forward), [])
  }

  /** How far a committed flip in direction `d` would move the index, were no bound in the way. */
  function Delta(d: Direction): int {
    match d
    case Forward => 1
    case Backward => -1
  }

  /** `x` limited to the range `lo..hi`; the reference for where a committed flip lands. */
  function Clamp(x: int, lo: int, hi: int): (y: int)
    requires lo <= hi
    ensures lo <= y <= hi
    ensures lo <= x <= hi ==> y == x
  {
    if x < lo then lo else if x > hi then hi else x
  }

  /**
   `handlePageTurn(direction)`: refused while a flip is in flight; otherwise
   it marks the flip, records its direction and schedules the commit. It never
   moves the index itself, and it does not check the page bounds.
   */
  function HandlePageTurn(r: Reader, d: Direction): (r': Reader)
    ensures r'.state.currentPage == r.state.currentPage
    ensures r.state.isFlipping ==> r' == r
    ensures !r.state.isFlipping ==>
      && r'.state.isFlipping && r'.state.flipDirection == d
      && r'.timers == r.timers + [Timer(d, r.state.currentPage)]
  {
    if r.state.isFlipping then r
    else
      var s := r.state.(isFlipping := true, flipDirection := d);
      Reader(s, r.timers + [Timer(d, r.state.currentPage)])
  }

  /**
   The body of the timer callback: a forward flip adds one to the index and a
   backward flip subtracts one, each only when the captured index is not yet at
   the corresponding bound; in every case the flip ends. When the captured index
   is the current one, the index lands where the clamped move would put it.
   */
  function Commit(s: BookState, t: Timer, pages: seq<StoryPage>): (s': BookState)
    ensures !s'.isFlipping
    ensures s'.flipDirection == s.flipDirection
    ensures -1 <= s'.currentPage - s.currentPage <= 1
    ensures t.capturedPage == s.currentPage && 0 <= s.currentPage <= LastIndex(pages) ==>
      s'.currentPage == Clamp(s.currentPage + Delta(t.direction), 0, LastIndex(pages))
  {
    var page :=
      if t.direction == Forward && t.capturedPage < |pages| - 1 then s.currentPage + 1
      else if t.direction == Backward && t.capturedPage > 0 then s.currentPage - 1
      else s.currentPage;
    s.(currentPage := page, isFlipping := false)
  }

  /** The oldest pending timer fires and runs its callback; with no timer pending nothing happens. */
  function Fire(r: Reader, pages: seq<StoryPage>): (r': Reader)
    ensures |r.timers| == 0 ==> r' == r
    ensures |r.timers| > 0 ==> r'.timers == r.timers[1..] && !r'.state.isFlipping
  {
    if |r.timers| == 0 then r
    else Reader(Commit(r.state, r.timers[0], pages), r.timers[1..])
  }

  /** `handleNextPage`: asks for a forward turn unless the last page is showing, in which case nothing changes. */
  function HandleNextPage(r: Reader, pages: seq<StoryPage>): (r': Reader)
    ensures r.state.currentPage >= LastIndex(pages) ==> r' == r
    ensures r.state.currentPage < LastIndex(pages) ==> r' == HandlePageTurn(r, Forward)
  {
    if r.state.currentPage < |pages| - 1 then HandlePageTurn(r, Forward) else r
  }

  /** `handlePrevPage`: asks for a backward turn unless the first page is showing, in which case nothing changes. */
  function HandlePrevPage(r: Reader): (r': Reader)
    ensures r.state.currentPage <= 0 ==> r' == r
    ensures r.state.currentPage > 0 ==> r' == HandlePageTurn(r, Backward)
  {
    if r.state.currentPage > 0 then HandlePageTurn(r, Backward) else r
  }

  /**
   One event. Only a timer firing can move the index, and every event keeps
   the invariant, including a direct turn request at a bound.
   */
  function Step(r: Reader, e: Event, pages: seq<StoryPage>): (r': Reader)
    ensures !e.Tick? ==> r'.state.currentPage == r.state.currentPage
    ensures Inv(r, pages) ==> Inv(r', pages)
  {
    match e
    case Turn(d) => HandlePageTurn(r, d)
    case Next => HandleNextPage(r, pages)
    case Prev => HandlePrevPage(r)
    case Tick => Fire(r, pages)
  }

  /** The number of timer firings in a trace. */
  function Ticks(trace: seq<Event>): nat {
    if |trace| == 0 then 0
    else (if trace[0].Tick? then 1 else 0) + Ticks(trace[1..])
  }

  /** The reader after the events of `trace`, in order. A trace without timer firings never moves the index. */
  function Run(r: Reader, trace: seq<Event>, pages: seq<StoryPage>): (r': Reader)
    ensures Ticks(trace) == 0 ==> r'.state.currentPage == r.state.currentPage
    decreases |trace|
  {
    if |trace| == 0 then r
    else Run(Step(r, trace[0], pages), trace[1..], pages)
  }
}
