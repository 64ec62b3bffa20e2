/**
 * The mock paginated data source of the social feed: the five fixed authors,
 * the post generator and the page-level `hasMore` rule.
 *
 * The generator's randomness (image presence, like and comment counts) is an
 * arbitrary choice inside the integer ranges the source produces, and the
 * clock/locale timestamp is an arbitrary string.
 */
module MockApi {

  datatype Option<T> = None | Some(value: T)

  datatype Author = Author(id: string, name: string, avatar: string)

  datatype Post = Post(
    id: string,
    author: Author,
    timestamp: string,
    content: string,
    image: Option<string>,
    likes: int,
    comments: int)

  /** What one call of the data source hands back. */
  datatype Page = Page(posts: seq<Post>, hasMore: bool)

  /** Number of posts the source pretends to hold. */
  const TOTAL_POSTS: nat := 30

  const MockAuthors: seq<Author> := [
    Author("1", "Alice Johnson", "/placeholder-user.jpg?query=user+avatar+1"),
    Author("2", "Bob Smith", "/placeholder-user.jpg?query=user+avatar+2"),
    Author("3", "Charlie Brown", "/placeholder-user.jpg?query=user+avatar+3"),
    Author("4", "Diana Prince", "/placeholder-user.jpg?query=user+avatar+4"),
    Author("5", "Eve Adams", "/placeholder-user.jpg?query=user+avatar+5")
  ]

  // ---------------------------------------------------------------------
  // Decimal rendering of an index, as a template literal `${n}` prints an
  // integer-valued number below 2^53 (indices are exact unbounded integers)
  // ---------------------------------------------------------------------

  function Digit(d: nat): (c: char)
    requires d < 10
    ensures '0' <= c <= '9'
  {
    ('0' as int + d) as char
  }

  /** The decimal digits of `n`, most significant first, without leading zeros. */
  function NatToDecimal(n: nat): (s: string)
    ensures 1 <= |s|
    ensures |s| == 1 <==> n < 10
    ensures forall i :: 0 <= i < |s| ==> '0' <= s[i] <= '9'
    ensures n > 0 ==> s[0] != '0'
    decreases n
  {
    if n < 10 then [Digit(n)] else NatToDecimal(n / 10) + [Digit(n % 10)]
  }

  /** The number a string of decimal digits denotes, most significant digit first. */
  function DigitsValue(s: string): nat
    requires forall i :: 0 <= i < |s| ==> '0' <= s[i] <= '9'
  {
    if s == [] then 0
    else DigitsValue(s[..|s| - 1]) * 10 + (s[|s| - 1] as int - '0' as int)
  }

  /** Reading the rendering back as a decimal number gives the index: `${n}` prints `n`. */
  lemma {:induction false} DecimalRoundTrip(n: nat)
    ensures DigitsValue(NatToDecimal(n)) == n
    decreases n
  {
    var s := NatToDecimal(n);
    if n < 10 {
      assert s[..0] == [];
    } else {
      assert s[..|s| - 1] == NatToDecimal(n / 10);
      DecimalRoundTrip(n / 10);
    }
  }

  /** Distinct indices print differently: the rendering loses nothing. */
  lemma {:induction false} DecimalInjective(a: nat, b: nat)
    requires NatToDecimal(a) == NatToDecimal(b)
    ensures a == b
    decreases a
  {
    var s := NatToDecimal(a);
    if a < 10 {
      assert b < 10;
      assert Digit(a) == s[0] == Digit(b);
    } else {
      assert b >= 10;
      var n := |s|;
      assert NatToDecimal(a / 10) == s[..n - 1] == NatToDecimal(b / 10);
      DecimalInjective(a / 10, b / 10);
      assert Digit(a % 10) == s[n - 1] == Digit(b % 10);
    }
  }

  // ---------------------------------------------------------------------
  // Per-index formulas of the generator
  // ---------------------------------------------------------------------

  /** The id of the post at global index `k`: `post-{k}`. */
  function PostId(k: nat): (id: string)
    ensures |id| > 5 && id[..5] == "post-" && id[5..] == NatToDecimal(k)
  {
    "post-" + NatToDecimal(k)
  }

  /** Post ids are unique: two indices share an id only if they are equal. */
  lemma PostIdInjective(a: nat, b: nat)
    requires PostId(a) == PostId(b)
    ensures a == b
  {
    assert NatToDecimal(a) == PostId(a)[5..] == PostId(b)[5..] == NatToDecimal(b);
    DecimalInjective(a, b);
  }

  /** Authors are cycled by index modulo the number of mock authors. */
  function AuthorAt(k: nat): (a: Author)
    ensures a in MockAuthors
  {
    MockAuthors[k % |MockAuthors|]
  }

  function ContentFor(k: nat, author: Author): string
  {
    "This is a mock post number " + NatToDecimal(k) + " by " + author.name
      + ". It's great to be building a social feed! #react #typescript #shadcn"
  }

  function ImagePath(k: nat): string
  {
    "/placeholder.svg?height=400&width=600&query=abstract+image+" + NatToDecimal(k)
  }

  /**
   * `p` is a post the generator can produce at global index `k`: its id,
   * author and content are fixed by `k`, the image is absent or the path
   * for `k`, and the counters lie in the ranges the random draws give.
   */
  ghost predicate IsMockPost(p: Post, k: nat)
  {
    && p.id == PostId(k)
    && p.author == AuthorAt(k)
    && p.content == ContentFor(k, p.author)
    && (p.image == None || p.image == Some(ImagePath(k)))
    && 10 <= p.likes <= 509
    && 2 <= p.comments <= 51
  }

  /** The i-th post of `posts` carries the id of global index `start + i`. */
  ghost predicate IdsFrom(posts: seq<Post>, start: nat)
  {
    forall i :: 0 <= i < |posts| ==> posts[i].id == PostId(start + i)
  }

  // ---------------------------------------------------------------------
  // The generator and the data source
  // ---------------------------------------------------------------------

  /**
   * Builds `limit` posts for the global indices `offset .. offset+limit-1`.
   * Random draws and the clock are arbitrary choices within their ranges.
   */
  method GenerateMockPosts(offset: nat, limit: nat) returns (posts: seq<Post>)
    ensures |posts| == limit
    ensures forall i :: 0 <= i < limit ==> IsMockPost(posts[i], offset + i)
    ensures IdsFrom(posts, offset)
  {
    posts := [];
    for i := 0 to limit
      invariant |posts| == i
      invariant forall j :: 0 <= j < i ==> IsMockPost(posts[j], offset + j)
    {
      var k := offset + i;
      var author := AuthorAt(k);
      var timestamp: string :| true;                   // clock and locale
      var content := ContentFor(k, author);
      var hasImage: bool :| true;                      // Math.random() > 0.5
      var image := if hasImage then Some(ImagePath(k)) else None;
      var likeDraw: int :| 0 <= likeDraw < 500;        // floor(random * 500)
      var commentDraw: int :| 0 <= commentDraw < 50;   // floor(random * 50)
      posts := posts + [Post(PostId(k), author, timestamp, content, image, likeDraw + 10, commentDraw + 2)];
    }
  }

  /** The source's exhaustion rule for a request `(offset, limit)`. */
  predicate PageHasMore(offset: nat, limit: nat)
  {
    offset + limit < TOTAL_POSTS
  }

  /** One resolved call of the mock data source (its latency is not modelled). */
  method FetchPostsMockApi(offset: nat, limit: nat) returns (page: Page)
    ensures |page.posts| == limit
    ensures forall i :: 0 <= i < limit ==> IsMockPost(page.posts[i], offset + i)
    ensures IdsFrom(page.posts, offset)
    ensures page.hasMore <==> offset + limit < TOTAL_POSTS
  {
    var posts := GenerateMockPosts(offset, limit);
    page := Page(posts, PageHasMore(offset, limit));
  }

  // ---------------------------------------------------------------------
  // Properties of the id scheme
  // ---------------------------------------------------------------------

  /** Within a page, and within any run of consecutive indices, ids are distinct. */
  lemma IdsDistinct(posts: seq<Post>, start: nat)
    requires IdsFrom(posts, start)
    ensures forall i, j :: 0 <= i < j < |posts| ==> posts[i].id != posts[j].id
  {
    forall i, j | 0 <= i < j < |posts|
      ensures posts[i].id != posts[j].id
    {
      if posts[i].id == posts[j].id {
        PostIdInjective(start + i, start + j);
      }
    }
  }

  /** Pages fetched for disjoint index ranges share no id. */
  lemma DisjointPagesShareNoIds(p: seq<Post>, a: nat, q: seq<Post>, b: nat)
    requires IdsFrom(p, a) && IdsFrom(q, b)
    requires a + |p| <= b || b + |q| <= a
    ensures forall i, j :: 0 <= i < |p| && 0 <= j < |q| ==> p[i].id != q[j].id
  {
    forall i, j | 0 <= i < |p| && 0 <= j < |q|
      ensures p[i].id != q[j].id
    {
      if p[i].id == q[j].id {
        PostIdInjective(a + i, b + j);
      }
    }
  }

  /** Appending a page that continues the numbering keeps the numbering. */
  lemma IdsFromAppend(p: seq<Post>, q: seq<Post>, start: nat)
    requires IdsFrom(p, start) && IdsFrom(q, start + |p|)
    ensures IdsFrom(p + q, start)
  {
    forall i | 0 <= i < |p + q|
      ensures (p + q)[i].id == PostId(start + i)
    {
      if i >= |p| {
        assert (p + q)[i] == q[i - |p|];
      }
    }
  }

  /** Author of index `k` and of index `k + 5` are the same; neighbours differ. */
  lemma AuthorsCycle(k: nat)
    ensures AuthorAt(k + 5) == AuthorAt(k)
    ensures AuthorAt(k + 1) != AuthorAt(k)
  {
  }
}
