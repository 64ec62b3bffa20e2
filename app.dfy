/**
 * The feed view: what it renders below the posts, when it arms the
 * visibility observer, when the observer's callback asks for more posts,
 * and the sidebar's open/mobile state.
 */
module FeedApp {
  import opened MockApi
  import opened UsePosts

  /** The one element the feed renders after its posts. */
  datatype FeedTail = Skeleton | Sentinel | EndMarker | Blank

  /**
   * The view renders three independently guarded elements after the posts;
   * this is the one that shows. Each ensures is the guard of one element,
   * so at most one of them is ever rendered, and with an empty exhausted
   * idle feed none is.
   */
  function TailOf(loading: bool, hasMore: bool, postCount: nat): (t: FeedTail)
    ensures t == Skeleton <==> loading
    ensures t == Sentinel <==> !loading && hasMore
    ensures t == EndMarker <==> !hasMore && !loading && postCount > 0
  {
    if loading then Skeleton
    else if hasMore then Sentinel
    else if postCount > 0 then EndMarker
    else Blank
  }

  /** The observer is set up only with both elements mounted, more to load and a non-empty feed. */
  predicate ObserverArmed(sentinelMounted: bool, containerMounted: bool, hasMore: bool, postCount: nat)
  {
    sentinelMounted && containerMounted && hasMore && postCount > 0
  }

  /** The observer's callback asks for more posts on an intersecting entry while idle. */
  predicate CallbackLoads(isIntersecting: bool, loading: bool)
  {
    isIntersecting && !loading
  }

  /** Whenever the armed observer's callback asks for more, the fetch guard lets it through. */
  lemma ArmedCallbackPassesGuard(loading: bool, hasMore: bool, postCount: nat, containerMounted: bool, isIntersecting: bool)
    requires ObserverArmed(TailOf(loading, hasMore, postCount) == Sentinel, containerMounted, hasMore, postCount)
    requires CallbackLoads(isIntersecting, loading)
    ensures FetchGuardOpen(loading, hasMore)
  {
  }

  /**
   * The mount effect runs `initialLoad`. The effect depends on the
   * callback, whose identity changes with the post count, `loading` and
   * `hasMore`, so it runs on mount and again whenever those cells change;
   * this contract covers every such run.
   */
  method OnMount(feed: PostFeed) returns (started: bool)
    requires feed.Valid()
    modifies feed
    ensures feed.Valid()
    ensures started == (|old(feed.posts)| == 0 && !old(feed.loading) && old(feed.hasMore))
    ensures started ==> feed.loading && feed.pending == 0
    ensures !started ==> unchanged(feed)
    ensures feed.posts == old(feed.posts) && feed.offset == old(feed.offset) && feed.hasMore == old(feed.hasMore)
    ensures old(feed.CursorInSync()) ==> feed.CursorInSync()
  {
    started := feed.InitialLoad();
  }

  /**
   * One intersection event: the sentinel is mounted exactly when the view
   * renders it; if the observer is armed and the callback fires, it calls
   * `loadMorePosts`. A load starts exactly when the container is mounted,
   * the sentinel is intersecting, the feed is idle, not exhausted and
   * non-empty, and it then asks for the page at the cursor.
   */
  method OnIntersection(feed: PostFeed, containerMounted: bool, isIntersecting: bool) returns (started: bool)
    requires feed.Valid()
    modifies feed
    ensures feed.Valid()
    ensures started == (containerMounted && isIntersecting && !old(feed.loading) && old(feed.hasMore) && |old(feed.posts)| > 0)
    ensures started ==> feed.loading && feed.pending == old(feed.offset)
    ensures !started ==> unchanged(feed)
    ensures feed.posts == old(feed.posts) && feed.offset == old(feed.offset) && feed.hasMore == old(feed.hasMore)
    ensures old(feed.CursorInSync()) ==> feed.CursorInSync()
  {
    var sentinelMounted := TailOf(feed.loading, feed.hasMore, |feed.posts|) == Sentinel;
    if ObserverArmed(sentinelMounted, containerMounted, feed.hasMore, |feed.posts|)
      && CallbackLoads(isIntersecting, feed.loading)
    {
      started := feed.LoadMorePosts();
    } else {
      started := false;
    }
  }

  /** Viewport widths below this are treated as mobile. */
  const MOBILE_BREAKPOINT: int := 768

  /** The sidebar's two flags. */
  class Sidebar {
    var isOpen: bool
    var isMobile: bool

    /** The first render, before the mount effect has measured the window. */
    constructor ()
      ensures isOpen && !isMobile
    {
      isOpen, isMobile := true, false;
    }

    /** The overlay that closes the sidebar is rendered only on mobile while open. */
    predicate OverlayShown()
      reads this
    {
      isMobile && isOpen
    }

    /** The header toggle button is rendered only on mobile. */
    predicate ToggleShown()
      reads this
    {
      isMobile
    }

    /** `handleResize`: mobile below the breakpoint, and open exactly when not mobile. */
    method HandleResize(width: int)
      modifies this
      ensures isMobile == (width < MOBILE_BREAKPOINT)
      ensures isOpen == !isMobile
    {
      isMobile := width < MOBILE_BREAKPOINT;
      if width < MOBILE_BREAKPOINT {
        isOpen := false;
      } else {
        isOpen := true;
      }
    }

    /** The header toggle, rendered only on mobile, flips `isOpen` and leaves `isMobile`. */
    method Toggle()
      requires ToggleShown()
      modifies this
      ensures isOpen == !old(isOpen) && isMobile == old(isMobile)
    {
      isOpen := !isOpen;
    }

    /** A click on the overlay, rendered only on mobile while open, closes the sidebar and leaves `isMobile`. */
    method OverlayClick()
      requires OverlayShown()
      modifies this
      ensures !isOpen && isMobile == old(isMobile)
      ensures !OverlayShown()
    {
      isOpen := false;
    }
  }

  /** Mounting the sidebar at a given width: the initial flags, then the mount-time resize. */
  method MountSidebar(width: int) returns (isOpen: bool, isMobile: bool)
    ensures isMobile == (width < MOBILE_BREAKPOINT) && isOpen == !isMobile
  {
    var sidebar := new Sidebar();
    sidebar.HandleResize(width);
    isOpen, isMobile := sidebar.isOpen, sidebar.isMobile;
  }
}
