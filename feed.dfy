/** The feed state of the `Index` page: its stories and posts, and the four updaters the
    page hands to React's state setters. Each updater is copy-on-write: it builds a new
    sequence from the previous one and never changes an element in place, so each is a
    function here. `prev.map(f)` is a sequence comprehension over the indices of `prev`. */
module Feed {
  import opened Decimal

  datatype Option<T> = None | Some(value: T)

  datatype Story = Story(id: string, username: string, avatar: string, seen: bool)

  /** `images` is an optional field of the record: absent (None) is distinct from an
      empty array, and generated posts leave it absent. `likes` and `comments` are
      JavaScript numbers; the code never makes them fractional, so they are `int`. */
  datatype Post = Post(
    id: string,
    username: string,
    avatar: string,
    content: string,
    images: Option<seq<string>>,
    likes: int,
    comments: int,
    timeAgo: string,
    liked: bool,
    saved: bool)

  predicate NoPostWithId(posts: seq<Post>, postId: string) {
    forall p :: p in posts ==> p.id != postId
  }

  predicate NoStoryWithId(stories: seq<Story>, storyId: string) {
    forall s :: s in stories ==> s.id != storyId
  }

  predicate DistinctIds(posts: seq<Post>) {
    forall i, j :: 0 <= i < j < |posts| ==> posts[i].id != posts[j].id
  }

  // ---------------------------------------------------------------- toggleLike

  /** What `toggleLike` does to the one post whose id matches. */
  function LikeToggled(p: Post): Post {
    p.(liked := !p.liked, likes := if p.liked then p.likes - 1 else p.likes + 1)
  }

  /** `toggleLike(postId)`: every post with that id has `liked` flipped and `likes` moved
      one step in the same direction; every other post is kept as it was. */
  function ToggleLike(posts: seq<Post>, postId: string): (r: seq<Post>)
    ensures |r| == |posts|
    ensures forall i :: 0 <= i < |posts| && posts[i].id != postId ==> r[i] == posts[i]
    ensures forall i :: 0 <= i < |posts| && posts[i].id == postId ==>
              && r[i].liked == !posts[i].liked
              && r[i].likes == (if r[i].liked then posts[i].likes + 1 else posts[i].likes - 1)
              && r[i] == posts[i].(liked := r[i].liked, likes := r[i].likes)
    ensures NoPostWithId(posts, postId) ==> r == posts
  {
    seq(|posts|, i requires 0 <= i < |posts| =>
      if posts[i].id == postId then LikeToggled(posts[i]) else posts[i])
  }

  /** Liking twice with the same id gives back the original feed. */
  lemma ToggleLikeTwice(posts: seq<Post>, postId: string)
    ensures ToggleLike(ToggleLike(posts, postId), postId) == posts
  {
  }

  /** When ids are distinct, liking an existing post replaces exactly that one entry. */
  lemma ToggleLikeAt(posts: seq<Post>, k: nat)
    requires DistinctIds(posts) && k < |posts|
    ensures ToggleLike(posts, posts[k].id) == posts[k := LikeToggled(posts[k])]
  {
  }

  /** A post's counts are consistent when they are non-negative and a liked post has at
      least its own like counted. */
  predicate CountsConsistent(p: Post) {
    0 <= p.likes && 0 <= p.comments && (p.liked ==> 1 <= p.likes)
  }

  predicate AllCountsConsistent(posts: seq<Post>) {
    forall p :: p in posts ==> CountsConsistent(p)
  }

  /** The code does not guard the decrement, but from consistent counts it cannot go
      below zero: toggling keeps every post's counts consistent. */
  lemma ToggleLikeKeepsCounts(posts: seq<Post>, postId: string)
    requires AllCountsConsistent(posts)
    ensures AllCountsConsistent(ToggleLike(posts, postId))
  {
    var r := ToggleLike(posts, postId);
    forall q | q in r ensures CountsConsistent(q) {
      var i :| 0 <= i < |r| && r[i] == q;
      assert posts[i] in posts;
    }
  }

  /** Without that invariant the unguarded decrement does take a count below zero. */
  lemma ToggleLikeUnguardedAtZero(posts: seq<Post>, i: nat)
    requires i < |posts| && posts[i].liked && posts[i].likes == 0
    ensures ToggleLike(posts, posts[i].id)[i].likes == -1
  {
  }

  // ---------------------------------------------------------------- toggleSave

  /** `toggleSave(postId)`: every post with that id has `saved` flipped and nothing else;
      in particular no like flag or like count ever changes. */
  function ToggleSave(posts: seq<Post>, postId: string): (r: seq<Post>)
    ensures |r| == |posts|
    ensures forall i :: 0 <= i < |posts| && posts[i].id != postId ==> r[i] == posts[i]
    ensures forall i :: 0 <= i < |posts| && posts[i].id == postId ==>
              r[i].saved == !posts[i].saved && r[i] == posts[i].(saved := r[i].saved)
    ensures forall i :: 0 <= i < |posts| ==> r[i].likes == posts[i].likes && r[i].liked == posts[i].liked
    ensures NoPostWithId(posts, postId) ==> r == posts
  {
    seq(|posts|, i requires 0 <= i < |posts| =>
      if posts[i].id == postId then posts[i].(saved := !posts[i].saved) else posts[i])
  }

  /** Saving twice with the same id gives back the original feed. */
  lemma ToggleSaveTwice(posts: seq<Post>, postId: string)
    ensures ToggleSave(ToggleSave(posts, postId), postId) == posts
  {
  }

  /** Liking and saving act on independent fields, so their order does not matter. */
  lemma ToggleLikeSaveCommute(posts: seq<Post>, likeId: string, saveId: string)
    ensures ToggleLike(ToggleSave(posts, saveId), likeId) == ToggleSave(ToggleLike(posts, likeId), saveId)
  {
  }

  /** Saving keeps every post's counts consistent. */
  lemma ToggleSaveKeepsCounts(posts: seq<Post>, postId: string)
    requires AllCountsConsistent(posts)
    ensures AllCountsConsistent(ToggleSave(posts, postId))
  {
    var r := ToggleSave(posts, postId);
    forall q | q in r ensures CountsConsistent(q) {
      var i :| 0 <= i < |r| && r[i] == q;
      assert posts[i] in posts;
    }
  }

  // ---------------------------------------------------------------- markStoryAsSeen

  /** `markStoryAsSeen(storyId)`: every story with that id becomes seen and nothing else
      about it changes; every other story is kept; a story once seen stays seen. */
  function MarkStoryAsSeen(stories: seq<Story>, storyId: string): (r: seq<Story>)
    ensures |r| == |stories|
    ensures forall i :: 0 <= i < |stories| && stories[i].id != storyId ==> r[i] == stories[i]
    ensures forall i :: 0 <= i < |stories| && stories[i].id == storyId ==>
              r[i].seen && r[i] == stories[i].(seen := true)
    ensures forall i :: 0 <= i < |stories| ==> r[i].id == stories[i].id && (stories[i].seen ==> r[i].seen)
    ensures NoStoryWithId(stories, storyId) ==> r == stories
  {
    seq(|stories|, i requires 0 <= i < |stories| =>
      if stories[i].id == storyId then stories[i].(seen := true) else stories[i])
  }

  /** Marking a story seen a second time changes nothing. */
  lemma MarkStoryAsSeenIdempotent(stories: seq<Story>, storyId: string)
    ensures MarkStoryAsSeen(MarkStoryAsSeen(stories, storyId), storyId) == MarkStoryAsSeen(stories, storyId)
  {
  }

  // ---------------------------------------------------------------- loading more posts

  /** The bounds of `Math.floor(Math.random() * 200)` and `Math.floor(Math.random() * 50)`. */
  predicate ValidDraws(likes: int, comments: int) {
    0 <= likes < 200 && 0 <= comments < 50
  }

  /** The post generated when the feed holds `n` posts, with the drawn counts. */
  function GeneratedPost(n: nat, likes: int, comments: int): Post {
    var num := NatToString(n + 1);
    Post(
      num,
      "user" + num,
      "https://randomuser.me/api/portraits/" + (if n % 2 == 0 then "women" else "men") + "/" + num + ".jpg",
      "This is post number " + num + " with some sample content.",
      None,
      likes,
      comments,
      num + "h ago",
      false,
      false)
  }

  /** The updater the infinite-scroll timer passes to `setPosts`: the previous posts, in
      order and untouched, followed by one generated post whose id is the decimal string
      of the new length and whose other texts are built from that id. */
  function AppendGeneratedPost(prev: seq<Post>, likes: int, comments: int): (r: seq<Post>)
    requires ValidDraws(likes, comments)
    ensures |r| == |prev| + 1 && r[..|prev|] == prev
    ensures AllDigits(r[|prev|].id) && ParseDecimal(r[|prev|].id) == |prev| + 1
    ensures r[|prev|].id[0] != '0'
    ensures var q := r[|prev|];
              && q.username == "user" + q.id
              && q.content == "This is post number " + q.id + " with some sample content."
              && q.timeAgo == q.id + "h ago"
              && q.images == None
              && !q.liked && !q.saved
              && q.likes == likes && q.comments == comments
    ensures |prev| % 2 == 0 ==>
              r[|prev|].avatar == "https://randomuser.me/api/portraits/women/" + r[|prev|].id + ".jpg"
    ensures |prev| % 2 == 1 ==>
              r[|prev|].avatar == "https://randomuser.me/api/portraits/men/" + r[|prev|].id + ".jpg"
    ensures CountsConsistent(r[|prev|]) && r[|prev|].likes < 200 && r[|prev|].comments < 50
  {
    ParseNatToString(|prev| + 1);
    prev + [GeneratedPost(|prev|, likes, comments)]
  }

  /** Appending keeps every post's counts consistent. */
  lemma AppendKeepsCounts(prev: seq<Post>, likes: int, comments: int)
    requires ValidDraws(likes, comments) && AllCountsConsistent(prev)
    ensures AllCountsConsistent(AppendGeneratedPost(prev, likes, comments))
  {
  }

  /** The posts carry the ids "1", "2", ... in order, as the seed does. */
  ghost predicate SequentialIds(posts: seq<Post>) {
    forall i :: 0 <= i < |posts| ==> posts[i].id == NatToString(i + 1)
  }

  /** Appending to a feed with ids "1".."n" gives ids "1".."n+1". */
  lemma AppendKeepsSequentialIds(prev: seq<Post>, likes: int, comments: int)
    requires ValidDraws(likes, comments) && SequentialIds(prev)
    ensures SequentialIds(AppendGeneratedPost(prev, likes, comments))
  {
  }

  /** Sequential ids are distinct ids. */
  lemma SequentialIdsDistinct(posts: seq<Post>)
    requires SequentialIds(posts)
    ensures DistinctIds(posts)
  {
    forall i, j | 0 <= i < j < |posts| ensures posts[i].id != posts[j].id {
      NatToStringInjective(i + 1, j + 1);
    }
  }

  /** Over sequential ids the generated id is fresh: it collides with no existing post. */
  lemma GeneratedIdIsFresh(prev: seq<Post>, likes: int, comments: int)
    requires ValidDraws(likes, comments) && SequentialIds(prev)
    ensures NoPostWithId(prev, AppendGeneratedPost(prev, likes, comments)[|prev|].id)
  {
    var id := AppendGeneratedPost(prev, likes, comments)[|prev|].id;
    forall p | p in prev ensures p.id != id {
      var i :| 0 <= i < |prev| && prev[i] == p;
      ParseNatToString(i + 1);
    }
  }
}
