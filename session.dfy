/** The page's feed state over time: the seed it starts from and the updaters applied to
    it one after another, in the order React applies them. Each event is one user action
    or one completed load-more timer; the timer's random counts arrive with its event. */
module Session {
  import opened Decimal
  import opened Feed

  datatype FeedState = FeedState(stories: seq<Story>, posts: seq<Post>)

  datatype Event =
    | LikeTapped(postId: string)
    | SaveTapped(postId: string)
    | StoryOpened(storyId: string)
    | MorePostsLoaded(likes: int, comments: int)

  predicate ValidEvent(e: Event) {
    e.MorePostsLoaded? ==> ValidDraws(e.likes, e.comments)
  }

  predicate ValidEvents(events: seq<Event>) {
    forall e :: e in events ==> ValidEvent(e)
  }

  /** The stories the page starts with. */
  function SeedStories(): (r: seq<Story>)
    ensures |r| == 5
    ensures forall i :: 0 <= i < |r| ==> r[i].id == NatToString(i + 1)
    ensures r[2].seen && r[4].seen && !r[0].seen && !r[1].seen && !r[3].seen
  {
    [
      Story("1", "your_story", "https://randomuser.me/api/portraits/women/1.jpg", false),
      Story("2", "user1", "https://randomuser.me/api/portraits/men/1.jpg", false),
      Story("3", "user2", "https://randomuser.me/api/portraits/women/2.jpg", true),
      Story("4", "user3", "https://randomuser.me/api/portraits/men/2.jpg", false),
      Story("5", "user4", "https://randomuser.me/api/portraits/women/3.jpg", true)
    ]
  }

  /** The posts the page starts with. */
  function SeedPosts(): (r: seq<Post>)
    ensures |r| == 3
    ensures AllCountsConsistent(r)
    ensures r[1].liked && r[1].likes == 89 && !r[0].liked && !r[2].liked
  {
    [
      Post("1", "traveler", "https://randomuser.me/api/portraits/women/4.jpg",
        "Beautiful sunset at the beach today! \U{1F305} #vacation #summer",
        Some(["https://images.unsplash.com/photo-1507525428034-b723cf961d3e",
              "https://images.unsplash.com/photo-1519046904884-53103b34b206"]),
        124, 23, "2h ago", false, false),
      Post("2", "foodlover", "https://randomuser.me/api/portraits/men/3.jpg",
        "Homemade pasta for dinner tonight! \U{1F35D} #foodie #homecooking",
        Some(["https://images.unsplash.com/photo-1555949258-eb67b1ef0ceb"]),
        89, 12, "4h ago", true, true),
      Post("3", "fitnessguru", "https://randomuser.me/api/portraits/women/5.jpg",
        "Morning workout complete! \U{1F4AA} #fitness #healthylifestyle",
        None,
        215, 42, "6h ago", false, false)
    ]
  }

  function Seed(): FeedState {
    FeedState(SeedStories(), SeedPosts())
  }

  /** One updater applied to the state. */
  function Apply(s: FeedState, e: Event): (r: FeedState)
    requires ValidEvent(e)
    ensures r.stories == s.stories || e.StoryOpened?
    ensures r.posts == s.posts || !e.StoryOpened?
    ensures |r.stories| == |s.stories|
    ensures forall i :: 0 <= i < |s.stories| ==> r.stories[i].id == s.stories[i].id
    ensures |r.posts| == |s.posts| + (if e.MorePostsLoaded? then 1 else 0)
    ensures forall i :: 0 <= i < |s.posts| ==> r.posts[i].id == s.posts[i].id
  {
    match e
    case LikeTapped(id) => s.(posts := ToggleLike(s.posts, id))
    case SaveTapped(id) => s.(posts := ToggleSave(s.posts, id))
    case StoryOpened(id) => s.(stories := MarkStoryAsSeen(s.stories, id))
    case MorePostsLoaded(likes, comments) => s.(posts := AppendGeneratedPost(s.posts, likes, comments))
  }

  /** The events applied in order, first event first. */
  function Run(s: FeedState, events: seq<Event>): (r: FeedState)
    requires ValidEvents(events)
    ensures |r.posts| >= |s.posts| && |r.stories| == |s.stories|
    decreases |events|
  {
    if events == [] then s else Run(Apply(s, events[0]), events[1..])
  }

  function LoadCount(events: seq<Event>): nat {
    if events == [] then 0
    else (if events[0].MorePostsLoaded? then 1 else 0) + LoadCount(events[1..])
  }

  /** What holds of every state the page can reach: ids "1".."n" on the posts, consistent
      counts on every post, and the seed's story ids, in order. */
  ghost predicate Good(s: FeedState) {
    && SequentialIds(s.posts)
    && AllCountsConsistent(s.posts)
    && |s.stories| == 5
    && forall i :: 0 <= i < |s.stories| ==> s.stories[i].id == NatToString(i + 1)
  }

  lemma SeedIsGood()
    ensures Good(Seed())
  {
  }

  lemma ApplyKeepsGood(s: FeedState, e: Event)
    requires Good(s) && ValidEvent(e)
    ensures Good(Apply(s, e))
  {
    match e
    case LikeTapped(id) =>
      ToggleLikeKeepsCounts(s.posts, id);
    case SaveTapped(id) =>
      ToggleSaveKeepsCounts(s.posts, id);
    case StoryOpened(id) =>
    case MorePostsLoaded(likes, comments) =>
      AppendKeepsCounts(s.posts, likes, comments);
      AppendKeepsSequentialIds(s.posts, likes, comments);
  }

  /** Every reachable state is good; in particular no two posts ever share an id and no
      like count ever goes negative. */
  lemma {:induction false} RunKeepsGood(s: FeedState, events: seq<Event>)
    requires Good(s) && ValidEvents(events)
    ensures Good(Run(s, events))
    ensures DistinctIds(Run(s, events).posts)
    decreases |events|
  {
    if events == [] {
      SequentialIdsDistinct(s.posts);
    } else {
      assert events[0] in events;
      ApplyKeepsGood(s, events[0]);
      RunKeepsGood(Apply(s, events[0]), events[1..]);
    }
  }

  /** Posts are only ever appended: the feed grows by one post per completed load, the
      posts already there keep their places, and a run of loads alone leaves them
      untouched; the stories keep their number and their order. */
  lemma {:induction false} RunOnlyAppends(s: FeedState, events: seq<Event>)
    requires ValidEvents(events)
    ensures |Run(s, events).posts| == |s.posts| + LoadCount(events)
    ensures forall i :: 0 <= i < |s.posts| ==> Run(s, events).posts[i].id == s.posts[i].id
    ensures (forall e :: e in events ==> e.MorePostsLoaded?) ==> Run(s, events).posts[..|s.posts|] == s.posts
    ensures |Run(s, events).stories| == |s.stories|
    ensures forall i :: 0 <= i < |s.stories| ==> Run(s, events).stories[i].id == s.stories[i].id
    decreases |events|
  {
    if events != [] {
      assert events[0] in events;
      var next := Apply(s, events[0]);
      RunOnlyAppends(next, events[1..]);
      if forall e :: e in events ==> e.MorePostsLoaded? {
        assert forall e :: e in events[1..] ==> e in events;
        assert next.posts[..|s.posts|] == s.posts;
        assert Run(next, events[1..]).posts[..|next.posts|][..|s.posts|] == next.posts[..|s.posts|];
      }
    }
  }

  /** A post's like count without the viewer's own like: the count of everybody else. */
  function OthersLikes(p: Post): int {
    p.likes - (if p.liked then 1 else 0)
  }

  /** One updater changes an existing post only in its two flags and its like count, and
      keeps the likes of everybody else; it changes an existing story only in `seen`, and
      never from seen to unseen. */
  lemma ApplyKeepsBase(s: FeedState, e: Event)
    requires ValidEvent(e)
    ensures forall i :: 0 <= i < |s.posts| ==>
              var q := Apply(s, e).posts[i];
              q == s.posts[i].(liked := q.liked, likes := q.likes, saved := q.saved)
              && OthersLikes(q) == OthersLikes(s.posts[i])
    ensures forall i :: 0 <= i < |s.stories| ==>
              var t := Apply(s, e).stories[i];
              t == s.stories[i].(seen := t.seen) && (s.stories[i].seen ==> t.seen)
  {
  }

  /** Over any run of updaters, a post keeps every field except its like flag, save flag
      and like count, and its like count stays the likes of everybody else plus one exactly
      when the viewer likes it; a story keeps every field except `seen`, and once seen it
      stays seen. */
  lemma {:induction false} RunKeepsBase(s: FeedState, events: seq<Event>)
    requires ValidEvents(events)
    ensures forall i :: 0 <= i < |s.posts| ==>
              var q := Run(s, events).posts[i];
              q == s.posts[i].(liked := q.liked, likes := q.likes, saved := q.saved)
              && q.likes == OthersLikes(s.posts[i]) + (if q.liked then 1 else 0)
    ensures forall i :: 0 <= i < |s.stories| ==>
              var t := Run(s, events).stories[i];
              t == s.stories[i].(seen := t.seen) && (s.stories[i].seen ==> t.seen)
    decreases |events|
  {
    if events != [] {
      assert events[0] in events;
      var next := Apply(s, events[0]);
      ApplyKeepsBase(s, events[0]);
      RunKeepsBase(next, events[1..]);
    }
  }

  /** Starting from the seed, one completed load gives four posts, the new one "4". */
  lemma LoadFromSeed(likes: int, comments: int)
    requires ValidDraws(likes, comments)
    ensures var r := Run(Seed(), [MorePostsLoaded(likes, comments)]).posts;
              |r| == 4 && r[3].id == "4" && r[3].username == "user4"
              && r[3].avatar == "https://randomuser.me/api/portraits/men/4.jpg"
              && !r[3].liked && !r[3].saved && 0 <= r[3].likes < 200 && 0 <= r[3].comments < 50
  {
  }

  /** Post "2" of the seed is liked with 89 likes: one tap unlikes it to 88, a second
      tap restores 89 and the like. */
  lemma UnlikeThenLikeSeedPost()
    ensures var once := Run(Seed(), [LikeTapped("2")]).posts;
              !once[1].liked && once[1].likes == 88
    ensures var twice := Run(Seed(), [LikeTapped("2"), LikeTapped("2")]).posts;
              twice[1].liked && twice[1].likes == 89 && twice == SeedPosts()
  {
  }
}
