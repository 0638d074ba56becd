/**
 * The home feed: the list of memes with their authors and counts, newest
 * first, a loading flag for the first load, and the realtime insert handler
 * that puts a newly created meme at the head. Each row is mapped to the
 * display record a post card takes.
 */
module Feed {
  import opened Wrappers
  import ImagePost

  /** A `profiles` row. */
  datatype Profile = Profile(id: string, username: string, avatarUrl: Option<string>, createdAt: string)

  /** A `memes` row joined with its author's profile and its like and comment aggregates. */
  datatype MemeWithAuthor = MemeWithAuthor(
    id: string, userId: string, imageUrl: string, caption: Option<string>, createdAt: string,
    profile: Profile, likesCount: Option<int>, commentsCount: Option<int>)

  const AvatarServiceUrl := "https://api.dicebear.com/7.x/avataaars/svg?seed="

  /** `count || 0`: a missing or zero aggregate shows as 0. */
  function CountOrZero(count: Option<int>): int
  {
    if count.Some? && count.value != 0 then count.value else 0
  }

  /** The avatar shown: the stored one, or a generated one seeded with the username. */
  function AvatarFor(profile: Profile): string
  {
    OrElse(profile.avatarUrl, AvatarServiceUrl + profile.username)
  }

  /** The display record built for one feed row. */
  function ToPost(m: MemeWithAuthor): ImagePost.Post
  {
    ImagePost.Post(
      m.id, m.imageUrl,
      ImagePost.Author(m.profile.username, AvatarFor(m.profile)),
      CountOrZero(m.likesCount), CountOrZero(m.commentsCount),
      m.createdAt, OrElse(m.caption, ""))
  }

  /** What each fallback of the mapping gives. */
  lemma ToPostFallbacks(m: MemeWithAuthor)
    ensures ToPost(m).id == m.id && ToPost(m).imageUrl == m.imageUrl
    ensures ToPost(m).author.name == m.profile.username
    ensures (m.likesCount.None? || m.likesCount == Some(0)) <==> ToPost(m).likes == 0
    ensures m.likesCount.Some? ==> ToPost(m).likes == m.likesCount.value
    ensures (m.commentsCount.None? || m.commentsCount == Some(0)) <==> ToPost(m).comments == 0
    ensures m.commentsCount.Some? ==> ToPost(m).comments == m.commentsCount.value
    ensures !Truthy(m.profile.avatarUrl) ==>
      ToPost(m).author.avatar == "https://api.dicebear.com/7.x/avataaars/svg?seed=" + m.profile.username
    ensures Truthy(m.profile.avatarUrl) ==> ToPost(m).author.avatar == m.profile.avatarUrl.value
    ensures ToPost(m).author.avatar != ""
    ensures m.caption.None? ==> ToPost(m).prompt == ""
    ensures m.caption.Some? ==> ToPost(m).prompt == m.caption.value
  {
  }

  /** A card built from a row with non-negative aggregates never shows a negative like count, however often it is clicked. */
  lemma FeedLikeCountNonNegative(m: MemeWithAuthor, clicks: nat)
    requires m.likesCount.Some? ==> m.likesCount.value >= 0
    ensures ImagePost.Toggles(ImagePost.Initial(ToPost(m)), clicks).likeCount >= 0
  {
    ImagePost.LikeCountBounded(ToPost(m), clicks);
  }

  /** The cards rendered for the feed, in feed order. */
  function PostsOf(memes: seq<MemeWithAuthor>): (posts: seq<ImagePost.Post>)
    ensures |posts| == |memes|
    ensures forall i :: 0 <= i < |memes| ==> posts[i] == ToPost(memes[i])
  {
    if memes == [] then [] else [ToPost(memes[0])] + PostsOf(memes[1..])
  }

  /** The insert handler's update: a re-fetched meme goes to the head, a failed re-fetch changes nothing. */
  function ApplyInsert(memes: seq<MemeWithAuthor>, fetched: Option<MemeWithAuthor>): seq<MemeWithAuthor>
  {
    if fetched.Some? then [fetched.value] + memes else memes
  }

  /** The feed after a run of insert events, handled in order. */
  function ApplyInserts(memes: seq<MemeWithAuthor>, events: seq<Option<MemeWithAuthor>>): seq<MemeWithAuthor>
    decreases |events|
  {
    if events == [] then memes else ApplyInserts(ApplyInsert(memes, events[0]), events[1..])
  }

  /** How many of the events re-fetched their meme. */
  function Successes(events: seq<Option<MemeWithAuthor>>): nat
  {
    if events == [] then 0 else (if events[0].Some? then 1 else 0) + Successes(events[1..])
  }

  /** One event grows the feed by one on success and keeps earlier memes in order behind the new one. */
  lemma ApplyInsertSpec(memes: seq<MemeWithAuthor>, fetched: Option<MemeWithAuthor>)
    ensures fetched.None? ==> ApplyInsert(memes, fetched) == memes
    ensures fetched.Some? ==> |ApplyInsert(memes, fetched)| == |memes| + 1
    ensures fetched.Some? ==> ApplyInsert(memes, fetched)[0] == fetched.value
    ensures fetched.Some? ==> ApplyInsert(memes, fetched)[1..] == memes
  {
  }

  /** After any run of events the feed grows by the number of successful re-fetches, and the earlier feed is its tail, unchanged and in order. */
  lemma {:induction false} ApplyInsertsSpec(memes: seq<MemeWithAuthor>, events: seq<Option<MemeWithAuthor>>)
    ensures |ApplyInserts(memes, events)| == |memes| + Successes(events)
    ensures ApplyInserts(memes, events)[Successes(events)..] == memes
    decreases |events|
  {
    if events != [] {
      var next := ApplyInsert(memes, events[0]);
      ApplyInsertsSpec(next, events[1..]);
      var r := ApplyInserts(memes, events);
      var k := Successes(events[1..]);
      assert r == ApplyInserts(next, events[1..]);
      if events[0].Some? {
        assert r[k + 1..] == r[k..][1..];
        assert r[k..] == next;
      }
    }
  }

  /** The feed page's state. */
  class Home {
    var memes: seq<MemeWithAuthor>
    var loading: bool

    constructor ()
      ensures memes == [] && loading
    {
      memes := [];
      loading := true;
    }

    /** The cards the page shows once loading is over. */
    function Posts(): (posts: seq<ImagePost.Post>)
      reads this
      ensures |posts| == |memes|
    {
      PostsOf(memes)
    }

    /** The initial load: the rows replace the list when the query succeeds; loading ends in every case. */
    method LoadMemes(rows: Option<seq<MemeWithAuthor>>)
      modifies this
      ensures !loading
      ensures rows.Some? ==> memes == rows.value
      ensures rows.None? ==> memes == old(memes)
    {
      if rows.Some? {
        memes := rows.value;
      }
      loading := false;
    }

    /** The realtime insert handler, given the result of re-fetching the new meme. */
    method OnInsert(fetched: Option<MemeWithAuthor>)
      modifies this
      ensures memes == ApplyInsert(old(memes), fetched)
      ensures fetched.Some? ==> |memes| == |old(memes)| + 1 && memes[0] == fetched.value && memes[1..] == old(memes)
      ensures fetched.None? ==> memes == old(memes)
      ensures loading == old(loading)
    {
      if fetched.Some? {
        memes := [fetched.value] + memes;
      }
    }
  }
}
