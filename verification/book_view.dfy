/**
 What the `Book` component shows, as functions of its state and the page
 list: the two page slots of the spread, the page counter, the end marker,
 the disabled flags of the two buttons and the visibility of the two click
 zones. Page lookups follow the optional chaining of the component: an index
 outside the list yields no content instead of failing.
 */
module BookView {
  import opened Wrappers
  import opened StoryData
  import opened Book

  /** The left page of the spread: its "Page n" label number and its text. */
  datatype LeftPage = LeftPage(number: int, content: Option<string>)

  /** The right page of the spread: its "Page n" label number, its text and its heading. */
  datatype RightPage = RightPage(number: int, content: Option<string>, heading: Option<string>)

  /** The "n of N" indicator between the buttons. */
  datatype Counter = Counter(shown: int, total: int)

  /** `storyPages[i]?`: the page at `i`, or nothing when `i` is outside the list. */
  function Lookup(pages: seq<StoryPage>, i: int): (o: Option<StoryPage>)
    ensures o.Some? <==> 0 <= i < |pages|
    ensures o.Some? ==> o.value == pages[i]
  {
    if 0 <= i < |pages| then Some(pages[i]) else None
  }

  /** `storyPages[i]?.content`: the text of the page at `i`, or nothing when `i` is outside the list. */
  function ContentAt(pages: seq<StoryPage>, i: int): (c: Option<string>)
    ensures c.Some? <==> 0 <= i < |pages|
    ensures c.Some? ==> c.value == pages[i].content
  {
    match Lookup(pages, i)
    case Some(p) => Some(p.content)
    case None => None
  }

  /** The left slot: drawn only past the first page, showing the previous page labelled with the current index. */
  function LeftSlot(s: BookState, pages: seq<StoryPage>): (slot: Option<LeftPage>)
    ensures slot.Some? <==> s.currentPage > 0
    ensures 0 < s.currentPage <= |pages| ==> slot == Some(LeftPage(s.currentPage, Some(pages[s.currentPage - 1].content)))
  {
    if s.currentPage > 0 then Some(LeftPage(s.currentPage, ContentAt(pages, s.currentPage - 1)))
    else None
  }

  /** The heading of the right slot: drawn only when the page has a non-empty title. */
  function HeadingAt(pages: seq<StoryPage>, i: int): (h: Option<string>)
    ensures h.Some? <==> 0 <= i < |pages| && pages[i].title.Some? && |pages[i].title.value| > 0
    ensures h.Some? ==> h == pages[i].title
  {
    match Lookup(pages, i)
    case Some(p) =>
      if p.title.Some? && |p.title.value| > 0 then p.title else None
    case None => None
  }

  /** The right slot: the current page, labelled with the index plus one. */
  function RightSlot(s: BookState, pages: seq<StoryPage>): (slot: RightPage)
    ensures slot.number == s.currentPage + 1
    ensures slot.content.Some? <==> 0 <= s.currentPage < |pages|
    ensures 0 <= s.currentPage < |pages| ==> slot.content == Some(pages[s.currentPage].content)
  {
    RightPage(s.currentPage + 1, ContentAt(pages, s.currentPage), HeadingAt(pages, s.currentPage))
  }

  /** The page counter. */
  function PageCounter(s: BookState, pages: seq<StoryPage>): Counter {
    Counter(s.currentPage + 1, |pages|)
  }

  /** Whether "The End" is shown under the right page: the current page carries the end flag. */
  function EndMarkerShown(s: BookState, pages: seq<StoryPage>): (shown: bool)
    ensures shown ==> 0 <= s.currentPage < |pages|
    ensures WellFormed(pages) && 0 <= s.currentPage < |pages| ==> (shown <==> s.currentPage == |pages| - 1)
  {
    match Lookup(pages, s.currentPage)
    case Some(p) => MarkedLast(p)
    case None => false
  }

  /** Whether the Previous button is disabled. */
  function PrevDisabled(s: BookState): bool {
    s.currentPage == 0 || s.isFlipping
  }

  /** Whether the Next button is disabled. */
  function NextDisabled(s: BookState, pages: seq<StoryPage>): bool {
    s.currentPage == |pages| - 1 || s.isFlipping
  }

  /** Whether the click zone over the left page is hidden. */
  function LeftZoneHidden(s: BookState): bool {
    s.currentPage == 0
  }

  /** Whether the click zone over the right page is hidden. */
  function RightZoneHidden(s: BookState, pages: seq<StoryPage>): bool {
    s.currentPage == |pages| - 1
  }

  /**
   In every valid state both slots find their page: the right slot shows the
   current page, and the left slot, drawn exactly past the first page, shows
   the page just before it with the number one less. The labels count pages
   from one, so the counter agrees with the right slot and never exceeds the
   total.
   */
  lemma SpreadShowsConsecutivePages(r: Reader, pages: seq<StoryPage>)
    requires Inv(r, pages)
    ensures var cur := r.state.currentPage;
      && RightSlot(r.state, pages).content == Some(pages[cur].content)
      && RightSlot(r.state, pages).number == cur + 1
      && (LeftSlot(r.state, pages).Some? <==> cur > 0)
      && (LeftSlot(r.state, pages).Some? ==>
            && LeftSlot(r.state, pages).value.content == Some(pages[cur - 1].content)
            && LeftSlot(r.state, pages).value.number + 1 == RightSlot(r.state, pages).number)
      && PageCounter(r.state, pages).shown == RightSlot(r.state, pages).number
      && 1 <= PageCounter(r.state, pages).shown <= PageCounter(r.state, pages).total
  {
  }

  /**
   In a valid state the Next button is disabled exactly when clicking Next
   would change nothing; while it is enabled a click starts a forward flip.
   */
  lemma NextDisabledIffNoop(r: Reader, pages: seq<StoryPage>)
    requires Inv(r, pages)
    ensures NextDisabled(r.state, pages) <==> HandleNextPage(r, pages) == r
    ensures !NextDisabled(r.state, pages) ==>
      HandleNextPage(r, pages).state == r.state.(isFlipping := true, flipDirection := Forward)
  {
  }

  /**
   In a valid state the Previous button is disabled exactly when clicking
   Previous would change nothing; while it is enabled a click starts a
   backward flip.
   */
  lemma PrevDisabledIffNoop(r: Reader, pages: seq<StoryPage>)
    requires Inv(r, pages)
    ensures PrevDisabled(r.state) <==> HandlePrevPage(r) == r
    ensures !PrevDisabled(r.state) ==>
      HandlePrevPage(r).state == r.state.(isFlipping := true, flipDirection := Backward)
  {
  }

  /**
   A click zone is hidden exactly at its bound, where the button beside it is
   disabled too; a visible zone whose button is disabled belongs to a state
   with a flip in flight, in which its click is ignored.
   */
  lemma ZonesFollowBounds(r: Reader, pages: seq<StoryPage>)
    requires Inv(r, pages)
    ensures LeftZoneHidden(r.state) ==> PrevDisabled(r.state) && HandlePrevPage(r) == r
    ensures RightZoneHidden(r.state, pages) ==> NextDisabled(r.state, pages) && HandleNextPage(r, pages) == r
    ensures !LeftZoneHidden(r.state) && PrevDisabled(r.state) ==> r.state.isFlipping && HandlePrevPage(r) == r
    ensures !RightZoneHidden(r.state, pages) && NextDisabled(r.state, pages) ==>
      r.state.isFlipping && HandleNextPage(r, pages) == r
  {
  }

  /**
   With a well-formed page list, the end marker shows exactly on the last
   page, where Next is disabled and the right click zone hidden: no page after
   the marked one can be reached.
   */
  lemma EndMarkerIffLastPage(r: Reader, pages: seq<StoryPage>)
    requires WellFormed(pages) && Inv(r, pages)
    ensures EndMarkerShown(r.state, pages) <==> r.state.currentPage == LastIndex(pages)
    ensures EndMarkerShown(r.state, pages) ==> NextDisabled(r.state, pages) && RightZoneHidden(r.state, pages)
  {
  }
}
