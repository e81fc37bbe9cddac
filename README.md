# Blogify front end: comment thread and post stores

This project models the client-side state logic of the Blogify React front end in Dafny and proves properties of it.

- **`CommentProvider`** holds three things: the comment list of the post being viewed, a `loading` flag, and the id of the post whose socket room the client is in. It rewrites the list in two cases:
  - when a REST call settles (fetch, add, update, delete, like);
  - when one of four socket events arrives (`new_comment`, `delete_comment`, `update_comment`, `update_likes`).
  It also emits `join_post` on every successful fetch, including a refetch of the current post, and `leave_post` when the active post changes and when it unmounts.
- **`PostProvider`** holds one `posts` list, the `currentPost` being viewed, and the `loading` and `error` flags. It rewrites them when post requests settle: fetch, create, update, delete, like and unlike.
- **The single post page** decides whether the signed-in user has liked the post (`hasLiked`) and whether they wrote it (`isAuthor`). Its like button handler dispatches to the post store, refetches, and toggles a local loading flag.

Each asynchronous operation is one atomic transition. The server's outcome is a parameter, `Reply<T> = Ok(value) | Fail(message)`. Three of the code's effects are recorded in fields and stated in the contracts:
- socket emits (`CommentProvider.emitted`);
- `setLocalLoading` calls (`SinglePostPage.loadingWrites`);
- navigations (`SinglePostPage.navigations`).

JavaScript details are modelled as written:
- `""` is falsy, so the effect cleanup sends no `leave_post` for an empty id.
- `a || b` falls through on any falsy value.
- `likePost` appends whatever `getMyId()` returns, including `null`.
- In `hasLiked`, `null.toString()` throws a `TypeError`.
- In `isAuthor`, a populated author without an `_id` stringifies to `"[object Object]"`.
- In `isAuthor`, `undefined === undefined` is true.

Modules, one per core source file, plus two shared helper modules:
- `JsValues`: nullable values, truthiness, `||`, settled replies.
- `Seqs`: `Array.prototype.map` and `filter` over sequences, with their order lemmas.
- `CommentContext`: `src/context/CommentContext.jsx`.
- `PostContext`: `src/context/PostContext.jsx`.
- `SinglePost`: `src/pages/SinglePost.jsx`.

## Behaviour worth knowing

The model follows the code in each case below, and a scenario method exhibits each one.

- **Duplicate comments.** Inserts are not deduplicated: the author's own comment, confirmed by the REST reply and echoed by `new_comment`, is listed twice (`EchoedCommentScenario`).
- **Late responses.** `fetchComments` has no stale-response guard: the fetch that settles last decides the thread and the room (`LateResponseScenario`). Each fetch is one atomic step here, so the model does not distinguish when a request was made from when it settled.
- **Event filtering.** Only `new_comment` is filtered by post. The other three handlers act on every comment with a matching id, whatever its post (`ForeignEventScenario`).
- **Join/leave pairing.** Joins and leaves are not paired one to one: refetching the same post joins its room twice and leaves it once (`RefetchScenario`). After every transition the client is in at most one non-empty room (`CommentProvider.Valid`, kept by every method). During a fetch that changes posts it is briefly in both rooms, because the code emits the join before the cleanup sends the leave for the previous id (`FetchPassesThroughBothRooms`).
- **Duplicate likers.** `likePost` appends without a membership check, so a post's likers can hold the same id twice. The like/unlike round trip restores the likers exactly when the user was not among them (`UnlikeUndoesLike`, `UnlikeUndoesLikeConverse`, `ToggleTwice`).
- **One post list.** There is a single `posts` list, which `fetchPosts` and `fetchMyPosts` both overwrite, plus `currentPost` (`PostCopiesScenario`).

## Model

Six helpers are specification functions with no contract of their own, each read through the contracts of the members that use it. `SinglePost.MyIdOf` is `user?.id || user?._id` (src/pages/SinglePost.jsx:42,47). `SinglePost.AuthorText` is the author's stringified id (src/pages/SinglePost.jsx:41-43). `PostContext.Likers` is `p.likes || []`. `CommentContext.FetchSignals` is the emit sequence of a successful fetch (src/context/CommentContext.jsx:24-27). `SinglePost.NullBeforeMatch` and `SinglePost.MatchBeforeNull` name the two orders in which `.some` can meet a null liker and a match (src/pages/SinglePost.jsx:48).

| member | source | states |
|---|---|---|
| `JsValues.ErrorTextFallsBack` | src/context/PostContext.jsx:30 | the stored error is the server's message when it is truthy, otherwise the fixed fallback text |
| `Seqs.Map` | src/context/CommentContext.jsx:56 | `map` keeps the length and puts `f(s[i])` at every index `i` |
| `Seqs.Filter` | src/context/CommentContext.jsx:68 | `filter` never grows the list, and an element is in the result exactly when it is in the input and accepted |
| `Seqs.FilterConcat` | src/context/CommentContext.jsx:68 | filtering a concatenation is concatenating the filtered parts, so kept elements keep their relative order |
| `Seqs.FilterKeepsAll` | src/context/PostContext.jsx:151 | a filter that rejects no element returns its input unchanged |
| `Seqs.FilterIdempotent` | src/context/PostContext.jsx:104 | filtering twice with one test is filtering once |
| `CommentContext.RemoveById` | src/context/CommentContext.jsx:68 | after a delete no entry carries the id, every other entry is still there, and nothing is added |
| `CommentContext.RemoveByIdMissing` | src/context/CommentContext.jsx:97 | deleting an id no comment carries leaves the list unchanged |
| `CommentContext.RemoveByIdConcat` | src/context/CommentContext.jsx:97 | deletion works entry by entry, so the surviving comments keep their relative order |
| `CommentContext.RemoveByIdLength` | src/context/CommentContext.jsx:68 | a delete shortens the list by exactly the number of entries carrying the id |
| `CommentContext.RemoveByIdIdempotent` | src/context/CommentContext.jsx:97 | a local delete followed by its echoed `delete_comment` equals one delete |
| `CommentContext.SetContent` | src/context/CommentContext.jsx:55-57 | a content update keeps length and order, changes no field but `content`, and changes it only on entries with the id |
| `CommentContext.SetLikes` | src/context/CommentContext.jsx:78-82 | a like update keeps length and order, changes no field but `likesCount`, and sets it only on entries with the id |
| `CommentContext.SetContentIdempotent` | src/context/CommentContext.jsx:101-103 | a local edit followed by its echoed `update_comment` equals one edit |
| `CommentContext.RemoveAfterSetContent` | src/context/CommentContext.jsx:101-103 | an edit later followed by a delete of the same id leaves the same list as the delete alone |
| `CommentContext.SetContentSetLikesCommute` | src/context/CommentContext.jsx:107-111 | content updates and like-count updates commute, whatever their ids |
| `CommentContext.Cleanup` | src/context/CommentContext.jsx:119 | the cleanup emits at most one signal: `leave_post` for the previous id, exactly when that id is truthy |
| `CommentContext.Resubscribe` | src/context/CommentContext.jsx:114-121 | the cleanup runs only when `currentPostId` changed, and then only for a truthy previous id, emitting at most one `leave_post` for it |
| `CommentContext.RoomsAfterAppend` | src/context/CommentContext.jsx:27 | applying two stretches of the emit log one after the other is applying their concatenation |
| `CommentContext.FetchSignalsMoveRoom` | src/context/CommentContext.jsx:24-27 | a successful fetch moves the client from the previous non-empty room to the new post's room and no other |
| `CommentContext.FetchPassesThroughBothRooms` | src/context/CommentContext.jsx:27 | between the join that a fetch of a new post emits and the cleanup's leave, the client is in both the old and the new room |
| `CommentContext.CommentProvider.constructor` | src/context/CommentContext.jsx:14-16 | starts with no comments, not loading, no current post, nothing emitted |
| `CommentContext.CommentProvider.FetchComments` | src/context/CommentContext.jsx:19-33 | success replaces the list wholesale, sets the current post and emits `join_post` and then the cleanup's leave; failure keeps list, post id and emits; `loading` ends false |
| `CommentContext.CommentProvider.AddComment` | src/context/CommentContext.jsx:36-47 | success prepends the server's comment with no duplicate check; failure changes nothing |
| `CommentContext.CommentProvider.UpdateComment` | src/context/CommentContext.jsx:50-62 | success applies the requested content to matching entries and returns the reply; failure changes nothing and returns nothing |
| `CommentContext.CommentProvider.DeleteComment` | src/context/CommentContext.jsx:65-72 | success removes every entry with the id; failure changes nothing |
| `CommentContext.CommentProvider.ToggleLike` | src/context/CommentContext.jsx:75-86 | success sets `likesCount` from the reply on matching entries; failure changes nothing |
| `CommentContext.CommentProvider.OnNewComment` | src/context/CommentContext.jsx:90-94 | a pushed comment is prepended exactly when its post is the current post; otherwise the list is unchanged |
| `CommentContext.CommentProvider.OnDeleteComment` | src/context/CommentContext.jsx:96-98 | a pushed delete removes every entry with the id, with no check of the post |
| `CommentContext.CommentProvider.OnUpdateComment` | src/context/CommentContext.jsx:100-104 | a pushed edit rewrites the content of matching entries, with no check of the post |
| `CommentContext.CommentProvider.OnUpdateLikes` | src/context/CommentContext.jsx:106-112 | a pushed like count is set on matching entries, with no check of the post |
| `CommentContext.CommentProvider.Unmount` | src/context/CommentContext.jsx:114-120 | unmounting emits the cleanup's leave for a truthy current id and leaves the client in no non-empty room |
| `CommentContext.LikesEventScenario` | src/context/CommentContext.jsx:106-112 | `[C1(2), C2(0)]` plus `update_likes(C2, 3)` gives `[C1(2), C2(3)]` in the same order |
| `CommentContext.DeleteMissingScenario` | src/context/CommentContext.jsx:65-72 | deleting a missing id from a thread of three leaves the same three comments |
| `CommentContext.EchoedCommentScenario` | src/context/CommentContext.jsx:43 | a confirmed comment echoed by `new_comment` is listed twice |
| `CommentContext.LateResponseScenario` | src/context/CommentContext.jsx:21-24 | of two successful fetches, the one that settles last decides the comments and the post id |
| `CommentContext.ForeignEventScenario` | src/context/CommentContext.jsx:90-98 | a `new_comment` for another post is ignored, but a `delete_comment` still removes a listed comment of another post |
| `CommentContext.RefetchScenario` | src/context/CommentContext.jsx:114-121 | fetching one post twice, then unmounting, emits two joins and one leave and ends in no room |
| `PostContext.GetMyId` | src/context/PostContext.jsx:13-20 | the id is `id` when truthy, else `_id` when truthy, else null; it is never the empty string |
| `PostContext.WithLike` | src/context/PostContext.jsx:121 | a like keeps every other field and the old likers as a prefix, and appends the caller's id at the end |
| `PostContext.WithoutLike` | src/context/PostContext.jsx:151 | an unlike keeps every other field, and a liker survives exactly when it is not the caller's id |
| `PostContext.WithoutLikeConcat` | src/context/PostContext.jsx:151 | unliking works entry by entry, so the other likers keep their order |
| `PostContext.WithoutLikeAbsent` | src/context/PostContext.jsx:151 | unliking a post the caller had not liked changes nothing but turning a missing `likes` into `[]` |
| `PostContext.UnlikeUndoesLike` | src/context/PostContext.jsx:121 | like then unlike restores the liker list when the caller was not in it |
| `PostContext.UnlikeUndoesLikeConverse` | src/context/PostContext.jsx:151 | when the caller was already a liker, like then unlike removes every copy of them, so the likers are not restored |
| `PostContext.LikeIn` | src/context/PostContext.jsx:118-124 | posts with another id are untouched; posts with the id get the caller appended; length and ids are kept |
| `PostContext.UnlikeIn` | src/context/PostContext.jsx:146-155 | posts with another id are untouched; posts with the id lose every occurrence of the caller; length and ids are kept |
| `PostContext.ReplaceById` | src/context/PostContext.jsx:88-90 | exactly the posts with the id become the server's post; length is kept |
| `PostContext.RemoveById` | src/context/PostContext.jsx:104 | after a delete no post carries the id and every other post is still there |
| `PostContext.RemoveByIdConcat` | src/context/PostContext.jsx:104 | deletion works post by post, so the remaining posts keep their order |
| `PostContext.RemoveByIdMissing` | src/context/PostContext.jsx:104 | deleting an id no post carries leaves the list unchanged |
| `PostContext.LikeThenUnlikeRestores` | src/context/PostContext.jsx:118-124 | like followed by unlike gives back the original list when every matching post had `likes` present and did not hold the caller's id (a missing `likes` comes back as `[]`) |
| `PostContext.LikeCurrent` | src/context/PostContext.jsx:126-131 | `currentPost` gets the caller appended only when its id is the liked id |
| `PostContext.UnlikeCurrent` | src/context/PostContext.jsx:157-162 | `currentPost` loses the caller only when its id is the unliked id |
| `PostContext.PostCopiesScenario` | src/context/PostContext.jsx:23-48 | loading "my posts" after the full list leaves only "my posts" in the one `posts` list |
| `PostContext.PostProvider.constructor` | src/context/PostContext.jsx:7-10 | starts with no posts, no current post, not loading, no error |
| `PostContext.PostProvider.LoadPosts` | src/context/PostContext.jsx:23-34 | success overwrites `posts` and clears the error; failure keeps `posts` and stores the message or fallback; `loading` ends false |
| `PostContext.PostProvider.FetchPosts` | src/context/PostContext.jsx:23-34 | as `LoadPosts`, with the fallback "Failed to fetch posts" |
| `PostContext.PostProvider.FetchMyPosts` | src/context/PostContext.jsx:37-48 | as `LoadPosts` on the same `posts` list, with the fallback "Failed to fetch your posts" |
| `PostContext.PostProvider.FetchPostById` | src/context/PostContext.jsx:51-70 | when `currentPost` has the id it is returned and no state changes; otherwise success sets it and failure sets the error and rethrows |
| `PostContext.PostProvider.CreatePost` | src/context/PostContext.jsx:73-82 | success prepends the server's post; failure rethrows and changes nothing |
| `PostContext.PostProvider.UpdatePost` | src/context/PostContext.jsx:85-98 | success replaces the matching posts, and `currentPost` only when its id matches; failure rethrows and changes nothing |
| `PostContext.PostProvider.DeletePost` | src/context/PostContext.jsx:101-110 | success filters the posts and clears `currentPost` exactly when its id matches; failure rethrows and changes nothing |
| `PostContext.PostProvider.LikePost` | src/context/PostContext.jsx:113-138 | success appends `getMyId()` to the likers of matching posts and of a matching `currentPost`; failure rethrows and changes nothing |
| `PostContext.PostProvider.UnlikePost` | src/context/PostContext.jsx:141-169 | success filters `getMyId()` out of matching posts and a matching `currentPost`; failure rethrows and changes nothing |
| `SinglePost.MyIdAgreesWithGetMyId` | src/pages/SinglePost.jsx:47 | when storage yields an id for a user, the page reads the same id from that user |
| `SinglePost.AnyLiker` | src/pages/SinglePost.jsx:48 | `some` throws exactly when a null liker comes before any match, is true exactly when a match comes before any null liker, and without null likers is true exactly when the caller's id is among them |
| `SinglePost.SkipLikerNull` | src/pages/SinglePost.jsx:48 | a non-null first liker that is not the caller does not change whether a null liker comes before any match |
| `SinglePost.SkipLikerMatch` | src/pages/SinglePost.jsx:48 | a non-null first liker that is not the caller does not change whether a match comes before any null liker |
| `SinglePost.HasLiked` | src/pages/SinglePost.jsx:46-49 | false with no post or no `likes`; without null likers, true exactly when the user's id is among the likers; true only for a liker, and a throw only with a null liker |
| `SinglePost.HasLikedInOrder` | src/pages/SinglePost.jsx:46-49 | `hasLiked()` throws exactly when a null liker precedes any match of the user's id, and is true exactly when a match precedes any null liker |
| `SinglePost.IsAuthor` | src/pages/SinglePost.jsx:39-44 | false without post or user; compares a truthy `author._id`, or a bare author id, with `user.id`, falling back to `user._id`; a missing author matches exactly a user with neither id, and a populated author without `_id` matches exactly a user id of `"[object Object]"` |
| `SinglePost.IsAuthorWithoutIds` | src/pages/SinglePost.jsx:43 | a post without an author counts as written by a user record without ids |
| `SinglePost.SinglePostPage.constructor` | src/pages/SinglePost.jsx:24 | the page starts not loading, with no loading writes and no navigation |
| `SinglePost.SinglePostPage.HandleLikeToggle` | src/pages/SinglePost.jsx:51-60 | no user: redirect to `/login`, no call. Otherwise it unlikes iff `hasLiked()`, else likes, then refetches; `localLoading` is set true, then false, even on failure |
| `SinglePost.SinglePostPage.SendAndRefetch` | src/pages/SinglePost.jsx:55-56 | the chosen like or unlike call, then the refetch: a rejected call changes nothing; otherwise the store's lists are rewritten and `currentPost` is refetched unless it already is the post |
| `SinglePost.ToggleTwice` | src/pages/SinglePost.jsx:55 | two clicks by a user who has not liked the post like and then unlike it, restoring `posts` and `currentPost` |

## Left out

- The HTTP client and the socket.io transport are not modelled. Each request is a `Reply` parameter. Room joins and leaves are a log whose meaning assumes the server adds on `join_post` and removes on `leave_post`; the server is not part of this model.
- Request bodies are not modelled: `newPost`, `data`, and the comment payload's `postId`, `content` and `parentComment`. State changes come from the reply, except in `updateComment`, which writes the requested `newContent` into the list; `UpdateComment` takes it as a parameter. `AddComment` still takes the payload arguments.
- Socket events from the previous post's room that arrive between the new `join_post` and the cleanup's `leave_post` are not modelled, because that window belongs to effect timing.
- React scheduling is left out, because it is concurrency: batching, effect timing, stale closures and overlapping completions. So are completions that arrive after unmount. Every transition is atomic and requires a mounted provider.
- Reading `localStorage` and `JSON.parse` are out of scope. The parsed stored user is the parameter `stored`; `None` means missing or unparsable.
- `console.error` logging, the raw `setCurrentPost` setter in the context value, rendering and routing are left out. So are the page's other handlers (`handleDelete`, scrolling). `navigate` is recorded as a path.
- Likers and ids are strings or null. No object-valued liker is modelled, whose `toString` would differ.
- `CommentContext.CommentProvider.FetchComments` states only the final `loading == false`. The intermediate `true` cannot be observed in an atomic transition.
- `PostContext.PostProvider.LoadPosts` states only the final `loading == false`, for the same reason. This also holds for `FetchPosts`, `FetchMyPosts` and `FetchPostById`.
- `SinglePost.SinglePostPage.HandleLikeToggle` records `localLoading` through its write log (`[true, false]`), not through a state observed mid-call.
- The initial `fetchPosts()` run by the post provider's mount effect is not modelled. Callers invoke `FetchPosts` after construction.
