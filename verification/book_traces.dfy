/**
 Properties of the page-turn state machine over whole traces: every
 interleaving of requests and timer firings keeps the invariant, the index
 moves by at most one page per firing, and repeated clicks walk to the ends
 of the book and stop there.
 */
module BookTraces {
  import opened StoryData
  import opened Book

  /** A click on `e` followed by the firing of the timer it may have scheduled, `k` times over. */
  function Clicks(e: Event, k: nat): (t: seq<Event>)
    ensures |t| == 2 * k
  {
    if k == 0 then [] else [e, Tick] + Clicks(e, k - 1)
  }

  /** Running a non-empty trace is running its first event and then the rest. */
  lemma RunCons(r: Reader, trace: seq<Event>, pages: seq<StoryPage>)
    requires |trace| > 0
    ensures Run(r, trace, pages) == Run(Step(r, trace[0], pages), trace[1..], pages)
  {
  }

  /** Every trace of events, started in a valid state, ends in a valid state. */
  lemma {:induction false} RunKeepsInvariant(r: Reader, trace: seq<Event>, pages: seq<StoryPage>)
    requires Inv(r, pages)
    ensures Inv(Run(r, trace, pages), pages)
    decreases |trace|
  {
    if |trace| > 0 {
      RunKeepsInvariant(Step(r, trace[0], pages), trace[1..], pages);
    }
  }

  /**
   Whatever requests, navigation clicks and timer firings happen, and in
   whatever order, the index stays on a page of the book and at most one flip
   is ever pending.
   */
  lemma ReachableStatesAreValid(trace: seq<Event>, pages: seq<StoryPage>)
    requires |pages| > 0
    ensures Inv(Run(Initial(), trace, pages), pages)
    ensures 0 <= Run(Initial(), trace, pages).state.currentPage <= LastIndex(pages)
    ensures |Run(Initial(), trace, pages).timers| <= 1
  {
    RunKeepsInvariant(Initial(), trace, pages);
  }

  /** The index moves by at most one page per timer firing, and by none between firings. */
  lemma {:induction false} MovesAtMostOnePerTick(r: Reader, trace: seq<Event>, pages: seq<StoryPage>)
    ensures -(Ticks(trace) as int) <= Run(r, trace, pages).state.currentPage - r.state.currentPage <= Ticks(trace)
    decreases |trace|
  {
    if |trace| > 0 {
      MovesAtMostOnePerTick(Step(r, trace[0], pages), trace[1..], pages);
    }
  }

  /** Running `k` clicks starts with one click on `e` and one timer firing. */
  lemma ClickThenTick(r: Reader, e: Event, k: nat, pages: seq<StoryPage>)
    requires k > 0
    ensures Run(r, Clicks(e, k), pages) == Run(Step(Step(r, e, pages), Tick, pages), Clicks(e, k - 1), pages)
  {
  }

  /**
   From an idle valid state, `k` clicks on Next, each followed by its flip's
   commit, advance the index by `k` pages but never past the last page, and
   leave the reader idle.
   */
  lemma {:induction false} ForwardWalk(r: Reader, k: nat, pages: seq<StoryPage>)
    requires Inv(r, pages) && !r.state.isFlipping
    ensures var r' := Run(r, Clicks(Next, k), pages);
      && r'.state.currentPage == Clamp(r.state.currentPage + k, 0, LastIndex(pages))
      && !r'.state.isFlipping && r'.timers == []
    decreases k
  {
    if k > 0 {
      var r2 := Step(Step(r, Next, pages), Tick, pages);
      ClickThenTick(r, Next, k, pages);
      assert r2.state.currentPage == Clamp(r.state.currentPage + 1, 0, LastIndex(pages));
      ForwardWalk(r2, k - 1, pages);
    }
  }

  /**
   From an idle valid state, `k` clicks on Previous, each followed by its
   flip's commit, move the index back by `k` pages but never before the first
   page, and leave the reader idle.
   */
  lemma {:induction false} BackwardWalk(r: Reader, k: nat, pages: seq<StoryPage>)
    requires Inv(r, pages) && !r.state.isFlipping
    ensures var r' := Run(r, Clicks(Prev, k), pages);
      && r'.state.currentPage == Clamp(r.state.currentPage - k, 0, LastIndex(pages))
      && !r'.state.isFlipping && r'.timers == []
    decreases k
  {
    if k > 0 {
      var r2 := Step(Step(r, Prev, pages), Tick, pages);
      ClickThenTick(r, Prev, k, pages);
      assert r2.state.currentPage == Clamp(r.state.currentPage - 1, 0, LastIndex(pages));
      BackwardWalk(r2, k - 1, pages);
    }
  }

  /**
   An accepted request followed by its commit: the flip is pending right after
   the request with the index still in place, and after the commit the flip
   is over and the index sits where the clamped move puts it.
   */
  lemma RequestThenCommit(r: Reader, d: Direction, pages: seq<StoryPage>)
    requires Inv(r, pages) && !r.state.isFlipping
    ensures var r1 := Step(r, Turn(d), pages);
      && r1.state == BookState(r.state.currentPage, true, d)
      && |r1.timers| == 1
    ensures var r2 := Run(r, [Turn(d), Tick], pages);
      && r2.state == BookState(Clamp(r.state.currentPage + Delta(d), 0, LastIndex(pages)), false, d)
      && r2.timers == []
  {
    RunCons(r, [Turn(d), Tick], pages);
    RunCons(Step(r, Turn(d), pages), [Tick], pages);
  }
}
