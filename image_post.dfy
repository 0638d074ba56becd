/**
 * One post card of the feed. Its only state is the optimistic like toggle:
 * whether the viewer has liked the post and the like count shown next to the heart.
 */
module ImagePost {

  datatype Author = Author(name: string, avatar: string)

  /** The display record a card is given. */
  datatype Post = Post(id: string, imageUrl: string, author: Author, likes: int,
                       comments: int, createdAt: string, prompt: string)

  /** The card's two state fields. */
  datatype LikeState = LikeState(liked: bool, likeCount: int)

  /** A freshly mounted card: not liked, showing the post's own like count. */
  function Initial(post: Post): LikeState
  {
    LikeState(false, post.likes)
  }

  /** One click on the heart: flip `liked` and move the count by one, with no clamping at zero. */
  function Toggle(s: LikeState): LikeState
  {
    if s.liked then LikeState(false, s.likeCount - 1) else LikeState(true, s.likeCount + 1)
  }

  /** The state after `n` clicks. */
  function Toggles(s: LikeState, n: nat): LikeState
    decreases n
  {
    if n == 0 then s else Toggle(Toggles(s, n - 1))
  }

  /** The count shown is the post's count plus one exactly when the viewer has liked it. */
  predicate Consistent(post: Post, s: LikeState)
  {
    s.likeCount == post.likes + (if s.liked then 1 else 0)
  }

  /** A click preserves consistency. */
  lemma ToggleConsistent(post: Post, s: LikeState)
    requires Consistent(post, s)
    ensures Consistent(post, Toggle(s))
    ensures Toggle(s).liked == !s.liked
  {
  }

  /** Two clicks in a row restore both the flag and the count. */
  lemma ToggleTwiceRestores(s: LikeState)
    ensures Toggle(Toggle(s)) == s
  {
  }

  /** After any number of clicks the card is consistent, liked after an odd number of them. */
  lemma {:induction false} TogglesConsistent(post: Post, n: nat)
    ensures Consistent(post, Toggles(Initial(post), n))
    ensures Toggles(Initial(post), n).liked == (n % 2 == 1)
    ensures Toggles(Initial(post), n).likeCount == post.likes + n % 2
  {
    if n > 0 {
      TogglesConsistent(post, n - 1);
      ToggleConsistent(post, Toggles(Initial(post), n - 1));
    }
  }

  /** The shown count never drops below the post's count, so it stays non-negative when that is. */
  lemma LikeCountBounded(post: Post, n: nat)
    ensures post.likes <= Toggles(Initial(post), n).likeCount <= post.likes + 1
    ensures post.likes >= 0 ==> Toggles(Initial(post), n).likeCount >= 0
  {
    TogglesConsistent(post, n);
  }

  /** The mounted card. */
  class ImagePostView {
    const post: Post
    var liked: bool
    var likeCount: int

    function State(): LikeState
      reads this
    {
      LikeState(liked, likeCount)
    }

    ghost predicate Valid()
      reads this
    {
      Consistent(post, State())
    }

    /** The comment count shown next to the speech bubble. */
    function CommentCount(): int
      reads this
    {
      post.comments
    }

    constructor (post: Post)
      ensures this.post == post
      ensures State() == Initial(post) && !liked && likeCount == post.likes
      ensures Valid()
    {
      this.post := post;
      liked := false;
      likeCount := post.likes;
    }

    /** `handleLike`. */
    method HandleLike()
      requires Valid()
      modifies this
      ensures Valid()
      ensures State() == Toggle(old(State()))
      ensures liked == !old(liked)
      ensures likeCount == if old(liked) then old(likeCount) - 1 else old(likeCount) + 1
      ensures CommentCount() == old(CommentCount()) == post.comments
    {
      if liked {
        likeCount := likeCount - 1;
      } else {
        likeCount := likeCount + 1;
      }
      liked := !liked;
    }
  }
}
