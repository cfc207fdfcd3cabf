# Feed state of the social feed page

This project models the feed state of the `Index` page. The page is a social-media-style
feed made of a row of stories and a list of posts, and it keeps both lists in local
component state. The model covers the four updaters the page passes to its state setters:

- `toggleLike` likes or unlikes a post and moves its like count with the flag.
- `toggleSave` saves or unsaves a post.
- `markStoryAsSeen` marks a story as seen.
- The infinite-scroll loader appends one generated post when its timer fires.

Each updater is copy-on-write. It maps or spreads the previous array into a new one and
never changes an element in place. The model therefore writes each one as a Dafny
function over `seq`, and `Array.prototype.map` becomes a sequence comprehension.

Modules:

- `Decimal` (`decimal.dfy`): the decimal rendering that JavaScript gives an array
  length (below 2^32) through `.toString()` and template interpolation. `ParseDecimal` is
  a left inverse of it: reading a rendered number back gives the number. Every
  generated id and text comes from this rendering, so this round trip shows that
  generated ids never collide.
- `Feed` (`feed.dfy`): the `Story` and `Post` records, the four updaters and their
  properties. These are: double toggle is the identity, an unknown id is a no-op, and
  nothing else changes. Liking and saving commute. Marking a story seen is idempotent.
  Appending keeps every earlier post and yields ids "1".."n+1". Like counts stay
  consistent.
- `Session` (`session.dfy`): the seed data, one event per updater application, and runs
  of events from any state. These give the invariants of every reachable state: posts
  carry ids "1".."n" and so distinct ids, and no like count goes negative. Posts are
  only ever appended. An existing post changes only in its two flags and its like count,
  and that count is always the likes of everybody else plus one exactly when the viewer
  likes the post. A story changes only from unseen to seen. It also holds the two concrete
  scenarios: loading once from the seed gives post "4", and tapping like twice on seed
  post "2" takes it from 89 to 88 and back to 89.

`Math.random()` in the loader becomes two parameters, the like and comment counts, with
the bounds the code gives them: `0 <= likes < 200` and `0 <= comments < 50`.

The code does not guard the like decrement. A post with `liked == true` and
`likes == 0` would go to -1 (`Feed.ToggleLikeUnguardedAtZero`). No reachable state has
such a post, though. The seed posts and every generated post have consistent counts, and
all four updaters keep them consistent (`Session.RunKeepsGood`). So this is not a defect
of the page.

## Model

| member | source | states |
|---|---|---|
| `Decimal.NatToString` | src/pages/Index.tsx:93 | the rendering of `prev.length + 1` is a non-empty digit string whose first digit is '0' exactly when the number is 0 (no leading zeros) |
| `Decimal.ParseNatToString` | src/pages/Index.tsx:93 | reading the rendered id back as a decimal number gives the number: the rendering loses nothing |
| `Decimal.NatToStringInjective` | src/pages/Index.tsx:93 | two numbers render to the same id string if and only if they are equal |
| `Feed.ToggleLike` | src/pages/Index.tsx:112-123 | the length is kept; a post with another id is unchanged; a matching post has `liked` flipped and `likes` one higher if now liked and one lower if now unliked, with every other field as before; an unknown id returns the input |
| `Feed.ToggleLikeTwice` | src/pages/Index.tsx:113-122 | toggling like twice with the same id gives back the original list |
| `Feed.ToggleLikeAt` | src/pages/Index.tsx:113-122 | when ids are distinct, toggling the id of post k replaces exactly entry k with its toggled version |
| `Feed.ToggleLikeKeepsCounts` | src/pages/Index.tsx:115-119 | if every post has non-negative counts and at least one like when liked, that still holds after a toggle |
| `Feed.ToggleLikeUnguardedAtZero` | src/pages/Index.tsx:118 | the decrement is unguarded: in any list, toggling a liked post that has zero likes takes its count to -1 |
| `Feed.ToggleSave` | src/pages/Index.tsx:125-135 | the length is kept; a post with another id is unchanged; a matching post has only `saved` flipped; `likes` and `liked` never change; an unknown id returns the input |
| `Feed.ToggleSaveTwice` | src/pages/Index.tsx:126-134 | toggling save twice with the same id gives back the original list |
| `Feed.ToggleLikeSaveCommute` | src/pages/Index.tsx:112-135 | liking and saving act on independent fields, so applying them in either order gives the same list |
| `Feed.ToggleSaveKeepsCounts` | src/pages/Index.tsx:126-134 | saving keeps every post's counts consistent |
| `Feed.MarkStoryAsSeen` | src/pages/Index.tsx:137-147 | the length and every id are kept; a matching story becomes seen with its other fields unchanged; other stories are unchanged; a seen story stays seen; an unknown id returns the input |
| `Feed.MarkStoryAsSeenIdempotent` | src/pages/Index.tsx:138-146 | marking a story seen twice gives the same list as marking it once |
| `Feed.AppendGeneratedPost` | src/pages/Index.tsx:90-103 | the result has one more post; the first `prev.length` posts are exactly `prev`; the new id is a canonical decimal string that reads back as `prev.length + 1`; the new username is "user" + id, the content is "This is post number " + id + " with some sample content.", and the time label is id + "h ago"; the avatar folder is `women` for even `prev.length` and `men` for odd; there are no images, it is neither liked nor saved, and it carries the drawn counts, in [0,200) and [0,50) |
| `Feed.AppendKeepsCounts` | src/pages/Index.tsx:97-101 | appending keeps every post's counts consistent |
| `Feed.AppendKeepsSequentialIds` | src/pages/Index.tsx:93 | if the post ids are "1".."n" in order, after an append they are "1".."n+1" |
| `Feed.SequentialIdsDistinct` | src/pages/Index.tsx:39-66 | posts with ids "1".."n" in order have pairwise distinct ids |
| `Feed.GeneratedIdIsFresh` | src/pages/Index.tsx:93 | over ids "1".."n", the generated id equals no existing post's id |
| `Session.SeedStories` | src/pages/Index.tsx:29-35 | the page starts with five stories with ids "1".."5"; stories 3 and 5 are already seen and the others are not |
| `Session.SeedPosts` | src/pages/Index.tsx:37-76 | the page starts with three posts with consistent counts; only the second, post "2", is liked, with 89 likes |
| `Session.Apply` | src/pages/Index.tsx:90-147 | each updater keeps every existing post and story id in place; only opening a story changes the stories; only loading adds a post, and exactly one |
| `Session.SeedIsGood` | src/pages/Index.tsx:29-76 | the seed has post ids "1".."3", consistent counts on every post, and story ids "1".."5" |
| `Session.ApplyKeepsGood` | src/pages/Index.tsx:90-147 | every updater keeps sequential post ids, consistent counts and the story ids |
| `Session.RunKeepsGood` | src/pages/Index.tsx:90-147 | after any sequence of updaters from a good state (such as the seed), post ids are sequential and distinct and no like count is negative |
| `Session.RunOnlyAppends` | src/pages/Index.tsx:90-147 | after any sequence of updaters, the feed has one more post per load; earlier posts keep their places and ids; loads alone leave earlier posts untouched; stories keep their number and ids |
| `Session.ApplyKeepsBase` | src/pages/Index.tsx:90-147 | one updater changes an existing post only in `liked`, `likes` and `saved`, and keeps its likes from everybody else; it changes an existing story only in `seen`, and never from seen to unseen |
| `Session.RunKeepsBase` | src/pages/Index.tsx:90-147 | after any sequence of updaters, every existing post differs only in `liked`, `likes` and `saved`; its like count equals its original likes from everybody else plus one exactly when it is now liked; every story differs only in `seen`, and a seen story stays seen |
| `Session.LoadFromSeed` | src/pages/Index.tsx:90-103 | one load from the seed gives four posts; the new post has id "4", username "user4", the `men` avatar 4, is neither liked nor saved, and has counts in range |
| `Session.UnlikeThenLikeSeedPost` | src/pages/Index.tsx:112-123 | seed post "2" (liked, 89 likes) becomes unliked with 88 after one tap; a second tap makes it liked with 89, and the list equals the seed again |

## Left out

- Rendering of stories, posts, avatars, carousels, buttons and icons (src/pages/Index.tsx:149-270): presentation and third-party UI components.
- The `IntersectionObserver` that watches the last post, with its `disconnect` and `observe` calls (src/pages/Index.tsx:79-86, 109): a browser API. Which element is watched, and when, is not modelled.
- The `setTimeout` delay of 1000 ms before the append (src/pages/Index.tsx:89, 105): asynchronous scheduling. An append appears in the model only as an event applied to the state.
- The `loading` flag (src/pages/Index.tsx:78, 82, 88, 104). The observer callback itself never reads the flag. Whether repeated visibility callbacks lead to one append or several depends on React re-running the ref callback and on timer interleaving. The model does not claim that only one load runs at a time. It only proves what holds after any sequence of appends.
- `Math.random()` and `Math.floor` (src/pages/Index.tsx:97-98): floating point. They are replaced by integer parameters bounded as the code bounds them.
- `toLocaleString` display of the counts (src/pages/Index.tsx:258-259): depends on the locale.
- The `useState` setters themselves and React's batching of updaters: an updater is modelled as a function from the previous list to the next, which is what React calls it with.
- Feed.AppendGeneratedPost: the length of the list is an unbounded natural number. In JavaScript an array length is below 2^32, and spreading `prev` into a new array throws a RangeError once it would pass that cap (src/pages/Index.tsx:90-103). The model does not capture that error; below the cap its rendering of the length is exactly JavaScript's.
