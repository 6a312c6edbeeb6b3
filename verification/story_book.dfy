/**
 The reader running over the book's own page list: fifteen pages, a title on
 the first, the end flag on the last. Stated for every choice of prose.
 */
module StoryBook {
  import opened Wrappers
  import opened StoryData
  import opened Book
  import opened BookView
  import opened BookTraces

  /** Opening the book: the first page is showing, with the title as its heading and no left page. */
  lemma OpeningSpread(prose: seq<string>)
    requires |prose| == PageCount
    ensures var pages := StoryPages(prose);
      && Inv(Initial(), pages)
      && LeftSlot(Initial().state, pages) == None
      && RightSlot(Initial().state, pages) == RightPage(1, Some(prose[0]), Some(Title))
      && PageCounter(Initial().state, pages) == Counter(1, 15)
      && PrevDisabled(Initial().state) && !NextDisabled(Initial().state, pages)
      && !EndMarkerShown(Initial().state, pages)
  {
  }

  /** Only the first page of the story has a heading. */
  lemma HeadingOnlyOnFirstPage(r: Reader, prose: seq<string>)
    requires |prose| == PageCount && Inv(r, StoryPages(prose))
    ensures RightSlot(r.state, StoryPages(prose)).heading.Some? <==> r.state.currentPage == 0
  {
  }

  /**
   From the opening spread: a forward request flips with the index still 0
   and its commit shows index 1; Previous on the first page changes nothing;
   fourteen clicks on Next, each committed, reach index 14, where Next is
   disabled, the right click zone hidden and the end marker shown.
   */
  lemma OpeningScenario(prose: seq<string>)
    requires |prose| == PageCount
    ensures var pages := StoryPages(prose);
      && Run(Initial(), [Turn(Forward)], pages).state == BookState(0, true, Forward)
      && Run(Initial(), [Turn(Forward), Tick], pages).state == BookState(1, false, Forward)
      && Run(Initial(), [Prev], pages) == Initial()
    ensures var pages := StoryPages(prose);
      var end := Run(Initial(), Clicks(Next, 14), pages);
      && end.state.currentPage == 14
      && NextDisabled(end.state, pages) && RightZoneHidden(end.state, pages)
      && EndMarkerShown(end.state, pages)
  {
    var pages := StoryPages(prose);
    RequestThenCommit(Initial(), Forward, pages);
    RunCons(Initial(), [Turn(Forward)], pages);
    RunCons(Initial(), [Prev], pages);
    ForwardWalk(Initial(), 14, pages);
    var end := Run(Initial(), Clicks(Next, 14), pages);
    EndMarkerIffLastPage(end, pages);
  }
}
