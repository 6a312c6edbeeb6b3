# Storybook page-turn model

A Dafny model of the page-turn logic of the storybook reader: the `Book`
component and the static page list it reads.

The component shows a two-page spread. The right slot holds the current page.
The left slot holds the page before it. Next and Previous buttons, and a click
zone over each half of the spread, turn pages. A turn is animated. The request
`handlePageTurn(direction)` marks a flip as in flight and records its
direction. It then schedules a timer, and the timer's callback commits the move
and ends the flip. While a flip is in flight, further requests are dropped.

## How the model is built

- `StoryData` (`story_data.dfy`): the `StoryPage` record, the fifteen-entry
  page list `StoryPages(prose)`, and `WellFormed`, which says the list is
  non-empty and only its final entry carries the end flag. The prose of the
  pages is a parameter, so every fact holds for any text.
- `Book` (`book.dfy`): the state `BookState(currentPage, isFlipping,
  flipDirection)`. A `Reader` pairs it with the timer callbacks that are
  scheduled but have not run yet, oldest first. A `Timer` keeps the direction
  and the `currentPage` its closure captured. The callback checks the bound
  against that captured value and moves the page from its latest value, as the
  source does. Four events drive the reader: `Turn(d)` calls `handlePageTurn`
  directly, `Next` and `Prev` call the guarded handlers, and `Tick` fires the
  oldest pending timer. `Run` applies a trace of events, so every interleaving
  of requests and timer firings is covered. `Inv` is the invariant of
  reachable states.
- `BookTraces` (`book_traces.dfy`): lemmas over traces. They cover the
  invariant, movement of at most one page per timer firing, and repeated clicks
  walking to either end of the book and stopping there.
- `BookView` (`book_view.dfy`): the derived views. These are the two slots,
  the heading, the counter, the end marker, the disabled flags and the
  click-zone visibility. Each view is tied to the transitions it guards.
- `StoryBook` (`story_book.dfy`): the same facts for the book's own page list.

Time is not modelled. The 400 ms delay becomes the `Tick` event, which may
come at any point after its request. The timer cannot be cancelled and fires
once.

Two behaviours of the code are worth stating on their own:
- `handlePageTurn` has no bound check. Only `handleNextPage` and
  `handlePrevPage` check the bounds. A direct request at a bound therefore
  starts a flip whose commit leaves the index where it is. `HandlePageTurn`
  models this, and `ReachableStatesAreValid` shows the index still stays in
  range.
- The click zones are hidden only at a bound. While a flip is in flight they
  stay visible and clickable, and the handler they call drops the click.
  `ZonesFollowBounds` states this.

## Model

| member | source | states |
|---|---|---|
| `StoryData.StoryPages` | src/data/storyData.ts:1-125 | the story has 15 pages in order, each with its content; only page 0 has a title, and it is the book's title; only page 14 carries `isLastPage`; so the list is non-empty and flags exactly its last entry |
| `Book.Initial` | src/components/Book.tsx:7-9 | the reader opens on page 0, not flipping, direction forward, with no timer pending; this state satisfies the invariant for every non-empty page list |
| `Book.HandlePageTurn` | src/components/Book.tsx:13-19 | a request while a flip is in flight changes nothing and schedules nothing; otherwise it sets `isFlipping`, records the direction and schedules exactly one callback, which captures the current index; the index itself never moves on a request |
| `Book.Commit` | src/components/Book.tsx:19-26 | the timer callback always ends the flip and keeps the direction; it moves the index by at most one; when the captured index is the current one, the index lands at the clamped position `Clamp(cur + delta, 0, last)`, so forward stops at the last page and backward at page 0 |
| `Book.Fire` | src/components/Book.tsx:19-26 | firing runs the oldest pending callback and removes it, ending the flip; with nothing pending, nothing happens |
| `Book.HandleNextPage` | src/components/Book.tsx:29-33 | at the last page the whole reader is unchanged, including `isFlipping`; before it the handler is a forward request |
| `Book.HandlePrevPage` | src/components/Book.tsx:35-39 | at page 0 the whole reader is unchanged, including `isFlipping`; past it the handler is a backward request |
| `Book.Step` | src/components/Book.tsx:13-39 | every event keeps the invariant, including a direct request at a bound; only a timer firing moves the index |
| `Book.Run` | src/components/Book.tsx:13-39 | a trace without timer firings leaves the index where it was |
| `BookTraces.RunKeepsInvariant` | src/components/Book.tsx:13-39 | any trace started in a valid state ends in a valid state |
| `BookTraces.ReachableStatesAreValid` | src/components/Book.tsx:7-39 | after any interleaving of requests, clicks and timer firings from the opening state, `0 <= currentPage <= totalPages - 1` and at most one flip is pending |
| `BookTraces.MovesAtMostOnePerTick` | src/components/Book.tsx:19-26 | over any trace the index moves by at most as many pages as there were timer firings |
| `BookTraces.ForwardWalk` | src/components/Book.tsx:20-33 | `k` committed clicks on Next from an idle state advance the index to `min(cur + k, last)` and leave the reader idle |
| `BookTraces.BackwardWalk` | src/components/Book.tsx:20-39 | `k` committed clicks on Previous from an idle state move the index back to `max(cur - k, 0)` and leave the reader idle |
| `BookTraces.RequestThenCommit` | src/components/Book.tsx:13-26 | right after an accepted request the flip is in flight, with the direction recorded and the index unchanged; after the commit the flip is over and the index has moved one page within the bounds |
| `BookView.Lookup` | src/components/Book.tsx:81-83 | an optional-chained lookup yields the page exactly when the index is inside the list, and nothing otherwise |
| `BookView.SpreadShowsConsecutivePages` | src/components/Book.tsx:51-126 | in a valid state the right slot shows the current page labelled `currentPage + 1`; the left slot is drawn iff `currentPage > 0` and shows the previous page, labelled one less; the counter reads the right slot's number out of the total |
| `BookView.ContentAt` | src/components/Book.tsx:55 | `storyPages[i]?.content` yields the page's text exactly when `i` is inside the list, and no content otherwise, never a failure |
| `BookView.LeftSlot` | src/components/Book.tsx:51-58 | the left slot is drawn iff `currentPage > 0`; when the previous page exists it shows that page's text labelled "Page currentPage" |
| `BookView.RightSlot` | src/components/Book.tsx:76-82 | the right slot is labelled `currentPage + 1` and shows the current page's text, which is present exactly when the index is inside the list |
| `BookView.HeadingAt` | src/components/Book.tsx:83-87 | a heading is drawn exactly when the page exists and has a non-empty title, and it is that title |
| `BookView.EndMarkerShown` | src/components/Book.tsx:90-99 | "The End" is never drawn for an index outside the list; with a well-formed list it is drawn exactly on the last page |
| `BookView.NextDisabledIffNoop` | src/components/Book.tsx:128-133 | in a valid state the Next button is disabled iff the index is on the last page or a flip is in flight, which is exactly when clicking Next changes nothing; an enabled Next starts a forward flip |
| `BookView.PrevDisabledIffNoop` | src/components/Book.tsx:111-115 | in a valid state the Previous button is disabled iff the index is 0 or a flip is in flight, which is exactly when clicking Previous changes nothing; an enabled Previous starts a backward flip |
| `BookView.ZonesFollowBounds` | src/components/Book.tsx:141-149 | a click zone is hidden exactly at its bound, where clicking would change nothing; a visible zone beside a disabled button means a flip is in flight, and its click is dropped |
| `BookView.EndMarkerIffLastPage` | src/components/Book.tsx:90-149 | in a valid state with a well-formed page list, "The End" shows iff the index is the last page; there Next is disabled and the right zone hidden, so no page after the marked one is reachable |
| `StoryBook.OpeningSpread` | src/data/storyData.ts:8-17 | on opening, the right slot is page 1 with the title as heading, the left slot is empty, the counter reads 1 of 15, and only Next is enabled |
| `StoryBook.HeadingOnlyOnFirstPage` | src/data/storyData.ts:8-10 | in the story, the right slot has a heading iff the index is 0 |
| `StoryBook.OpeningScenario` | src/components/Book.tsx:13-39 | in the story, a forward request flips at index 0 and its commit shows index 1; Previous at index 0 changes nothing; fourteen committed Next clicks reach index 14, where Next is disabled, the right zone is hidden and the end marker shows |

## Left out

- Rendering, JSX markup, styling classes, the flip-animation class choice and the shading overlay drawn while flipping (src/components/Book.tsx:41-153, apart from the values above): these are presentation only.
- The text under the end marker ("Written by …") and the button icons: these are fixed markup with no logic.
- The 400 ms delay and any clock: a timer firing is the `Tick` event, allowed at any point after its request.
- React's state batching and stale closures within one render. If two requests ran against the same render, both would see `isFlipping` as false. The model applies every event to the latest state, so a request always sees the flip started by an earlier one.
- The `Button` component and the icon library: these are foreign UI components whose code is not part of this model.
- The prose of each page: `StoryPages` takes it as a parameter, and only the page count, titles and end flags are fixed.
