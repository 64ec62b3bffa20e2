/**
 * The infinite-scroll pagination controller: the feed's four state cells
 * (`posts`, `loading`, `hasMore`, `offset`) and the operations that change
 * them. The asynchronous fetch is split into the step that passes the guard
 * and raises `loading` (BeginFetch) and the step that applies the data
 * source's answer and releases `loading` (CompleteFetch).
 */
module UsePosts {
  import opened MockApi

  /** Page size requested on every fetch. */
  const POSTS_PER_LOAD: nat := 7

  /** How an awaited fetch ended: resolved with a page, or rejected. */
  datatype FetchOutcome = Resolved(page: Page) | Rejected

  /** The re-entry guard of a fetch: it proceeds only when idle and not exhausted. */
  predicate FetchGuardOpen(loading: bool, hasMore: bool)
  {
    !(loading || !hasMore)
  }

  class PostFeed {
    var posts: seq<Post>
    var loading: bool
    var hasMore: bool
    var offset: nat
    /** The `currentOffset` the fetch in flight was issued with. */
    var pending: nat

    /** A fetch is only ever in flight while the feed is not exhausted. */
    ghost predicate Valid()
      reads this
    {
      loading ==> hasMore
    }

    /** The cursor counts the posts fetched so far, and the fetch in flight asks for the next ones. */
    ghost predicate CursorInSync()
      reads this
    {
      offset == |posts| && (loading ==> pending == offset)
    }

    /** The feed holds exactly the posts `post-0 .. post-(n-1)`, in order. */
    ghost predicate IdsSequential()
      reads this
    {
      IdsFrom(posts, 0)
    }

    /** The hook's initial state: no posts, idle, more to fetch, cursor 0. */
    constructor ()
      ensures Valid() && CursorInSync() && IdsSequential()
      ensures posts == [] && !loading && hasMore && offset == 0
    {
      posts, loading, hasMore, offset, pending := [], false, true, 0, 0;
    }

    /**
     * First half of `fetchPosts(currentOffset)`: the guard, then `loading := true`.
     * When the guard refuses, nothing changes.
     */
    method BeginFetch(currentOffset: nat) returns (started: bool)
      requires Valid()
      modifies this
      ensures Valid()
      ensures started == FetchGuardOpen(old(loading), old(hasMore))
      ensures started ==> loading && pending == currentOffset
      ensures posts == old(posts) && offset == old(offset) && hasMore == old(hasMore)
      ensures !started ==> unchanged(this)
    {
      if loading || !hasMore {
        return false;
      }
      loading, pending := true, currentOffset;
      started := true;
    }

    /**
     * Second half of `fetchPosts`: on success append the page, move the
     * cursor past the posts actually returned and take the page's `hasMore`;
     * on failure stop for good. Either way `loading` is released.
     */
    method CompleteFetch(outcome: FetchOutcome)
      requires Valid() && loading
      modifies this
      ensures Valid() && !loading && pending == old(pending)
      ensures outcome.Resolved? ==>
        && posts == old(posts) + outcome.page.posts
        && offset == old(pending) + |outcome.page.posts|
        && hasMore == outcome.page.hasMore
      ensures outcome.Rejected? ==> posts == old(posts) && offset == old(offset) && !hasMore
      ensures old(CursorInSync()) ==> CursorInSync()
      ensures old(IdsSequential() && CursorInSync()) && outcome.Resolved? && IdsFrom(outcome.page.posts, old(pending))
        ==> IdsSequential()
    {
      ghost var before := posts;
      match outcome {
        case Resolved(page) =>
          posts := posts + page.posts;
          offset := pending + |page.posts|;
          hasMore := page.hasMore;
          if IdsFrom(before, 0) && |before| == pending && IdsFrom(page.posts, pending) {
            IdsFromAppend(before, page.posts, 0);
          }
        case Rejected =>
          hasMore := false;
      }
      loading := false;  // the `finally` release, on both paths
    }

    /** `initialLoad`: fetch the first page, but only into an empty, idle feed. */
    method InitialLoad() returns (started: bool)
      requires Valid()
      modifies this
      ensures Valid()
      ensures started == (|old(posts)| == 0 && !old(loading) && old(hasMore))
      ensures started ==> loading && pending == 0
      ensures !started ==> unchanged(this)
      ensures posts == old(posts) && offset == old(offset) && hasMore == old(hasMore)
      ensures old(CursorInSync()) ==> CursorInSync()
    {
      if |posts| == 0 && !loading {
        started := BeginFetch(0);
      } else {
        started := false;
      }
    }

    /** `loadMorePosts`: fetch the page that starts at the cursor. */
    method LoadMorePosts() returns (started: bool)
      requires Valid()
      modifies this
      ensures Valid()
      ensures started == FetchGuardOpen(old(loading), old(hasMore))
      ensures started ==> loading && pending == old(offset)
      ensures !started ==> unchanged(this)
      ensures posts == old(posts) && offset == old(offset) && hasMore == old(hasMore)
      ensures old(CursorInSync()) ==> CursorInSync()
    {
      started := BeginFetch(offset);
    }
  }

  /**
   * Serves the fetch in flight from the mock data source and applies the
   * answer: one complete `await fetchPostsMockApi(currentOffset, 7)`.
   */
  method ServeFromMockApi(feed: PostFeed) returns (page: Page)
    requires feed.Valid() && feed.loading
    modifies feed
    ensures feed.Valid() && !feed.loading
    ensures |page.posts| == POSTS_PER_LOAD && IdsFrom(page.posts, old(feed.pending))
    ensures feed.posts == old(feed.posts) + page.posts
    ensures feed.offset == old(feed.pending) + POSTS_PER_LOAD
    ensures feed.hasMore == PageHasMore(old(feed.pending), POSTS_PER_LOAD)
    ensures old(feed.CursorInSync()) ==> feed.CursorInSync()
    ensures old(feed.IdsSequential() && feed.CursorInSync()) ==> feed.IdsSequential()
  {
    page := FetchPostsMockApi(feed.pending, POSTS_PER_LOAD);
    feed.CompleteFetch(Resolved(page));
  }

  /**
   * Scrolling the feed to its end against the mock source: pages are asked
   * for at offsets 0, 7, 14, 21 and 28; `hasMore` stays true after the first
   * four and turns false after the fifth, whose page still holds 7 posts, so
   * the feed ends with 35 posts numbered `post-0 .. post-34`. A further
   * scroll starts nothing.
   */
  method ScrollToEnd() returns (offsets: seq<nat>, flags: seq<bool>, posts: seq<Post>, extra: bool)
    ensures offsets == [0, 7, 14, 21, 28]
    ensures flags == [true, true, true, true, false]
    ensures |posts| == 35 && IdsFrom(posts, 0)
    ensures !extra
  {
    var feed := new PostFeed();
    var started := feed.InitialLoad();
    assert started;
    offsets := [feed.pending];
    var page := ServeFromMockApi(feed);
    flags := [feed.hasMore];

    started := feed.LoadMorePosts();
    assert started;
    offsets := offsets + [feed.pending];
    page := ServeFromMockApi(feed);
    flags := flags + [feed.hasMore];

    started := feed.LoadMorePosts();
    assert started;
    offsets := offsets + [feed.pending];
    page := ServeFromMockApi(feed);
    flags := flags + [feed.hasMore];

    started := feed.LoadMorePosts();
    assert started;
    offsets := offsets + [feed.pending];
    page := ServeFromMockApi(feed);
    flags := flags + [feed.hasMore];

    started := feed.LoadMorePosts();
    assert started;
    offsets := offsets + [feed.pending];
    page := ServeFromMockApi(feed);
    flags := flags + [feed.hasMore];

    posts := feed.posts;
    extra := feed.LoadMorePosts();
  }

  /**
   * A second `initialLoad`, and a `loadMorePosts`, issued while the first
   * page is still in flight are both turned away by the guard; once the
   * first page has arrived, `initialLoad` stays a no-op.
   */
  method DuplicateRequestsRejected() returns (first: bool, second: bool, third: bool, afterwards: bool)
    ensures first && !second && !third && !afterwards
  {
    var feed := new PostFeed();
    first := feed.InitialLoad();
    second := feed.InitialLoad();
    third := feed.LoadMorePosts();
    var page := ServeFromMockApi(feed);
    afterwards := feed.InitialLoad();
  }

  /**
   * The fetch of the second page (offset 7) is rejected: the feed keeps its
   * first 7 posts, is released, is exhausted, and never fetches again.
   */
  method SecondPageFails() returns (posts: seq<Post>, hasMore: bool, loading: bool, retried: bool)
    ensures |posts| == 7 && IdsFrom(posts, 0)
    ensures !hasMore && !loading && !retried
  {
    var feed := new PostFeed();
    var started := feed.InitialLoad();
    var page := ServeFromMockApi(feed);
    started := feed.LoadMorePosts();
    assert started && feed.pending == 7;
    feed.CompleteFetch(Rejected);
    posts, hasMore, loading := feed.posts, feed.hasMore, feed.loading;
    retried := feed.LoadMorePosts();
  }
}
