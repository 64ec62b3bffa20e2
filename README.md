# Social feed pagination, modelled in Dafny

A model of the infinite-scrolling post feed of a client-side social-feed UI:

- `mock_api.dfy` (module `MockApi`): the mock paginated data source. Five fixed
  authors, the post generator (`post-{k}` ids, authors cycled modulo 5, content
  and image path embedding the index, likes in [10, 509], comments in [2, 51])
  and the exhaustion rule `offset + limit < 30`.
- `use_posts.dfy` (module `UsePosts`): the pagination controller, a class
  `PostFeed` with the four cells `posts`, `loading`, `hasMore`, `offset`. The
  asynchronous `fetchPosts` is split into `BeginFetch` (re-entry guard, then
  `loading := true`, remembering the requested offset in `pending`) and
  `CompleteFetch` (append the page and move the cursor past the posts actually
  returned, or stop for good on failure; release `loading` on both paths).
  `InitialLoad` and `LoadMorePosts` are the two public entry points. Three
  client scenarios drive the controller against the mock source.
- `app.dfy` (module `FeedApp`): the feed view's Boolean logic (which of
  skeleton, sentinel and end marker is rendered, when the visibility observer
  is armed, when its callback loads more) and the sidebar's `isOpen` /
  `isMobile` flags.
- `post_card.dfy` (module `PostCards`): a post card's like toggle and comment
  counter.

Invariants kept by the controller: `offset == |posts|` and a fetch in flight
asks for the page at the cursor (`CursorInSync`); a fetch is only in flight
while `hasMore` holds (`Valid`), so once `hasMore` is false no operation can
make it true again, and a second request while one is in flight is refused
by the guard. The posts are exactly `post-0 .. post-(n-1)` in order
(`IdsSequential`) as long as every resolved page is numbered from the offset
it was requested at, which holds for every page served by the mock source
(`ServeFromMockApi`); a rejected fetch keeps it too. `CompleteFetch` with an
arbitrary page promises only the cursor invariant. The card keeps `likesCount == post.likes + (liked ? 1 : 0)`.

The generator always returns exactly `limit` posts: with page size 7 the
fifth load, at offset 28, still returns 7 posts (not the 2 that would remain
of a 30-post source); `hasMore` turns false because 28 + 7 is not below 30,
and the feed ends with 35 posts. The model follows the code here
(`UsePosts.ScrollToEnd`).

## Model

| member | source | states |
|---|---|---|
| `MockApi.NatToDecimal` | src/lib/mock-api.ts:28 | the printed index is a non-empty string of decimal digits without a leading zero, a single digit exactly for indices below 10 |
| `MockApi.DecimalRoundTrip` | src/lib/mock-api.ts:28 | read back as a decimal number, the printed index is the index itself |
| `MockApi.DecimalInjective` | src/lib/mock-api.ts:28 | two indices that print the same are equal |
| `MockApi.PostId` | src/lib/mock-api.ts:28 | an id is `post-` followed by the decimal index |
| `MockApi.PostIdInjective` | src/lib/mock-api.ts:28 | two indices with the same post id are equal |
| `MockApi.AuthorAt` | src/lib/mock-api.ts:17-29 | the author of index k is one of the five mock authors (the one at k mod 5) |
| `MockApi.AuthorsCycle` | src/lib/mock-api.ts:17-29 | authors repeat every five indices and neighbouring indices have different authors |
| `MockApi.GenerateMockPosts` | src/lib/mock-api.ts:25-48 | exactly `limit` posts; the i-th has id, author and content fixed by `offset+i`, no image or the image path for `offset+i`, likes in [10, 509] and comments in [2, 51] |
| `MockApi.FetchPostsMockApi` | src/lib/mock-api.ts:50-61 | the page holds the generated posts for `(offset, limit)` and `hasMore` is true iff `offset + limit < 30` |
| `MockApi.IdsDistinct` | src/lib/mock-api.ts:27-28 | posts numbered consecutively have pairwise distinct ids |
| `MockApi.DisjointPagesShareNoIds` | src/lib/mock-api.ts:27-28 | pages for disjoint index ranges share no id |
| `MockApi.IdsFromAppend` | src/hooks/use-posts.ts:22 | appending a page that continues the numbering keeps the whole feed consecutively numbered |
| `UsePosts.PostFeed.constructor` | src/hooks/use-posts.ts:9-12 | the feed starts with no posts, idle, with more to load and cursor 0 |
| `UsePosts.PostFeed.BeginFetch` | src/hooks/use-posts.ts:15-19 | a fetch starts iff the feed is idle and not exhausted; then `loading` is true and the requested offset is remembered; otherwise nothing changes |
| `UsePosts.PostFeed.CompleteFetch` | src/hooks/use-posts.ts:20-30 | success appends the page after the unchanged earlier posts, sets `offset` to the requested offset plus the number of posts returned and takes the page's `hasMore`; failure keeps posts and offset and sets `hasMore` false; `loading` is false on both paths; the cursor invariant is preserved, and the id numbering is preserved when the page is numbered from the requested offset |
| `UsePosts.PostFeed.InitialLoad` | src/hooks/use-posts.ts:36-40 | a fetch at offset 0 starts iff the feed is empty, idle and not exhausted; otherwise nothing changes |
| `UsePosts.PostFeed.LoadMorePosts` | src/hooks/use-posts.ts:42-44 | a fetch at the current cursor starts iff the guard is open; otherwise nothing changes; the cursor invariant is preserved |
| `UsePosts.ServeFromMockApi` | src/hooks/use-posts.ts:21-24 | answering the fetch in flight from the mock source appends 7 posts numbered from the requested offset, moves the cursor by 7 and sets `hasMore` by the exhaustion rule |
| `UsePosts.ScrollToEnd` | src/hooks/use-posts.ts:6-44 | scrolling to the end requests offsets 0, 7, 14, 21, 28 with `hasMore` true, true, true, true, false, leaves 35 posts `post-0 .. post-34`, and a further scroll starts nothing |
| `UsePosts.DuplicateRequestsRejected` | src/hooks/use-posts.ts:17-40 | while the first page is in flight a second `initialLoad` and a `loadMorePosts` start nothing; after it arrives `initialLoad` starts nothing |
| `UsePosts.SecondPageFails` | src/hooks/use-posts.ts:25-30 | a failed fetch at offset 7 leaves exactly the posts `post-0 .. post-6`, releases `loading`, exhausts the feed, and the next load starts nothing |
| `FeedApp.TailOf` | src/App.tsx:178-192 | the skeleton shows iff loading, the sentinel iff idle with more to load, the end marker iff idle, exhausted and non-empty; hence at most one of the three shows |
| `FeedApp.ArmedCallbackPassesGuard` | src/App.tsx:143-151 | when the observer is armed on a rendered sentinel and its callback asks for more, the fetch guard is open |
| `FeedApp.OnMount` | src/App.tsx:135-137 | each run of the mount effect calls `initialLoad`: a fetch at offset 0 starts iff the feed is empty, idle and not exhausted; posts, cursor and `hasMore` stay, and the cursor invariant is kept |
| `FeedApp.OnIntersection` | src/App.tsx:139-167 | an intersection event starts a load at the cursor iff the container is mounted, the entry intersects and the feed is idle, not exhausted and non-empty; otherwise nothing changes; posts, cursor and `hasMore` stay either way |
| `FeedApp.Sidebar.constructor` | src/App.tsx:24-25 | before the first resize the sidebar is open and not mobile |
| `FeedApp.Sidebar.HandleResize` | src/App.tsx:28-35 | after a resize `isMobile` is `width < 768` and `isOpen` is its negation |
| `FeedApp.Sidebar.Toggle` | src/App.tsx:97-98 | the header toggle, rendered only on mobile, flips `isOpen` and keeps `isMobile` |
| `FeedApp.Sidebar.OverlayClick` | src/App.tsx:44-45 | an overlay click, possible only on mobile while open, closes the sidebar, which hides the overlay, and keeps `isMobile` |
| `FeedApp.MountSidebar` | src/App.tsx:24-40 | a sidebar mounted at a width is mobile iff the width is below 768 and open iff not mobile |
| `PostCards.PostCard.constructor` | src/components/post-card.tsx:15-19 | a card starts unliked, with the post's likes and comments, and the comment input hidden |
| `PostCards.PostCard.HandleLike` | src/components/post-card.tsx:21-24 | `liked` flips; the count goes up by one when it was unliked and down by one when it was liked; `likesCount == likes + (liked ? 1 : 0)` is kept |
| `PostCards.PostCard.HandleCommentClick` | src/components/post-card.tsx:26-28 | the comment input toggles and nothing else changes |
| `PostCards.PostCard.HandleCommentSubmit` | src/components/post-card.tsx:30-35 | the comment count goes up by exactly one and the input is hidden; the like state is unchanged |
| `PostCards.LikeTwice` | src/components/post-card.tsx:21-24 | two likes in a row restore both `liked` and `likesCount` |
| `PostCards.LikeAndComment` | src/components/post-card.tsx:15-35 | a generated post's card liked and commented once shows likes in [11, 510] and comments in [3, 52] |

## Left out

- MockApi.GenerateMockPosts: indices `offset + i` are exact unbounded integers, and so are `NatToDecimal`, `IdsDistinct` and `DisjointPagesShareNoIds` over them; the source adds them as floating-point numbers and prints them with a template literal, which agrees only below 2^53 (beyond it neighbouring indices can collapse to one id, and from 10^21 on the printing switches to exponent notation). The feed never asks past index 34.
- The latency of the mock source (a one-second timer around the generator): a fetch is a begin/complete pair, and any outcome, including a rejection the mock never produces, can be fed to `CompleteFetch`.
- React hook machinery: state-update batching, `useCallback` dependency lists and stale closures. The guard check and `loading := true` are one atomic step, and the observer callback reads the current `loading` rather than the value it captured.
- `IntersectionObserver`, DOM refs, the 0.1 intersection threshold, observer subscription and teardown, and the window resize listener: only their Boolean guards are kept; the container ref and the intersection flag are parameters.
- `Math.random`: image presence and the like and comment draws are arbitrary choices within the integer ranges `floor(random * 500)` and `floor(random * 50)` give; floating point is not modelled.
- Timestamps (`Date.now()` formatted with `toLocaleString`): clock and locale dependent, an arbitrary string.
- All markup, class names, styling, `alert` and console logging; the comment text submitted to a card is only logged by the source and is ignored.
- The UI component library, the `cn` helper and the comment section component are not part of this model.
- The post composer, comment dialog and post skeleton components: their only logic is an emptiness check on trimmed text before posting, delegated to the string library.
- `UsePosts.PostFeed.CompleteFetch` does not restate "once `hasMore` is false it stays false": its precondition (a fetch is in flight) together with `Valid` already means `hasMore` was true; the other methods keep `hasMore` unchanged.
