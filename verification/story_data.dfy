/**
 This module describes the static page data of the book: the shape of one page
 and the fixed list of pages the reader displays. The prose of each page is not
 part of the model; it is supplied as a parameter, so every fact proved here
 holds whatever the pages say.
 */
module StoryData {
  import opened Wrappers

  /** One page of the story. `content` is always present; `title` and `isLastPage` are optional. */
  datatype StoryPage = StoryPage(content: string, title: Option<string>, isLastPage: Option<bool>)

  /** The number of entries in the story. */
  const PageCount: nat := 15

  /** The title carried by the first page. */
  const Title: string := "I'd Still Choose You"

  /** A page whose `isLastPage` flag is set; an absent flag counts as false. */
  predicate MarkedLast(p: StoryPage) {
    p.isLastPage == Some(true)
  }

  /** A page list the reader can show: it is non-empty and exactly its final entry carries the end flag. */
  predicate WellFormed(pages: seq<StoryPage>) {
    && |pages| > 0
    && forall i :: 0 <= i < |pages| ==> (MarkedLast(pages[i]) <==> i == |pages| - 1)
  }

  /** The book's page list, with the given prose as the content of its pages, in order. */
  function StoryPages(prose: seq<string>): (pages: seq<StoryPage>)
    requires |prose| == PageCount
    ensures |pages| == PageCount
    ensures forall i :: 0 <= i < |pages| ==> pages[i].content == prose[i]
    ensures forall i :: 0 <= i < |pages| ==> (pages[i].title.Some? <==> i == 0)
    ensures pages[0].title == Some(Title)
    ensures forall i :: 0 <= i < |pages| ==> (MarkedLast(pages[i]) <==> i == PageCount - 1)
    ensures WellFormed(pages)
  {
    [ StoryPage(prose[0], Some(Title), None),
      StoryPage(prose[1], None, None),
      StoryPage(prose[2], None, None),
      StoryPage(prose[3], None, None),
      StoryPage(prose[4], None, None),
      StoryPage(prose[5], None, None),
      StoryPage(prose[6], None, None),
      StoryPage(prose[7], None, None),
      StoryPage(prose[8], None, None),
      StoryPage(prose[9], None, None),
      StoryPage(prose[10], None, None),
      StoryPage(prose[11], None, None),
      StoryPage(prose[12], None, None),
      StoryPage(prose[13], None, None),
      StoryPage(prose[14], None, Some(true)) ]
  }
}
