/**
 * The per-post interaction state of a post card: the like toggle with its
 * counter, the comment counter and whether the comment input is shown.
 * Counts live only in the card; nothing is sent back to the data source.
 */
module PostCards {
  import opened MockApi

  /** The like counter a card shows for a post with `base` likes. */
  function ShownLikes(base: int, liked: bool): int
  {
    base + (if liked then 1 else 0)
  }

  class PostCard {
    const post: Post
    var liked: bool
    var likesCount: int
    var commentsCount: int
    var showCommentInput: bool

    /** The like counter is the post's likes plus one for the card's own like; comments only grow. */
    ghost predicate Valid()
      reads this
    {
      likesCount == ShownLikes(post.likes, liked) && commentsCount >= post.comments
    }

    /** A card starts unliked, with the post's own counts and the comment input hidden. */
    constructor (post: Post)
      ensures Valid()
      ensures this.post == post && !liked && likesCount == post.likes
      ensures commentsCount == post.comments && !showCommentInput
    {
      this.post := post;
      liked, likesCount := false, post.likes;
      commentsCount, showCommentInput := post.comments, false;
    }

    /** `handleLike`: flips `liked`; one more like if it was off, one fewer if it was on. */
    method HandleLike()
      requires Valid()
      modifies this
      ensures Valid()
      ensures liked == !old(liked)
      ensures likesCount == if old(liked) then old(likesCount) - 1 else old(likesCount) + 1
      ensures commentsCount == old(commentsCount) && showCommentInput == old(showCommentInput)
    {
      var wasLiked := liked;
      liked := !wasLiked;
      likesCount := if wasLiked then likesCount - 1 else likesCount + 1;
    }

    /** `handleCommentClick`: toggles the comment input and nothing else. */
    method HandleCommentClick()
      requires Valid()
      modifies this
      ensures Valid()
      ensures showCommentInput == !old(showCommentInput)
      ensures liked == old(liked) && likesCount == old(likesCount) && commentsCount == old(commentsCount)
    {
      showCommentInput := !showCommentInput;
    }

    /** `handleCommentSubmit`: one more comment, and the input is hidden; the text itself is only logged. */
    method HandleCommentSubmit(comment: string)
      requires Valid()
      modifies this
      ensures Valid()
      ensures commentsCount == old(commentsCount) + 1 && !showCommentInput
      ensures liked == old(liked) && likesCount == old(likesCount)
    {
      commentsCount := commentsCount + 1;
      showCommentInput := false;
    }
  }

  /** Liking twice is an involution: both `liked` and `likesCount` are restored. */
  method LikeTwice(card: PostCard)
    requires card.Valid()
    modifies card
    ensures card.Valid()
    ensures card.liked == old(card.liked) && card.likesCount == old(card.likesCount)
    ensures card.commentsCount == old(card.commentsCount) && card.showCommentInput == old(card.showCommentInput)
  {
    card.HandleLike();
    card.HandleLike();
  }

  /**
   * A freshly mounted card for a generated post, liked once and commented
   * once: each shown count is the post's own plus one, so likes lie in
   * [11, 510] and comments in [3, 52].
   */
  method LikeAndComment(post: Post, k: nat) returns (likes: int, comments: int, liked: bool)
    requires IsMockPost(post, k)
    ensures liked && likes == post.likes + 1 && comments == post.comments + 1
    ensures 11 <= likes <= 510 && 3 <= comments <= 52
  {
    var card := new PostCard(post);
    card.HandleLike();
    card.HandleCommentClick();
    card.HandleCommentSubmit("nice");
    likes, comments, liked := card.likesCount, card.commentsCount, card.liked;
  }
}
