/// The logic of the single post page: whether the signed-in user likes the
/// post or wrote it, and the like button's handler, which dispatches to the
/// post store and then refetches.
module SinglePost {
  import opened JsValues
  import opened PostContext

  /** What evaluating an expression gives: a value, or a thrown `TypeError`. */
  datatype Eval<T> = Value(v: T) | Threw

  /** `user?.id || user?._id` for the signed-in user. */
  function MyIdOf(user: Option<User>): Option<string>
  {
    match user
    case None => None
    case Some(u) => Or(u.id, u.docId)
  }

  /** Whenever local storage yields an id for a user, the page reads the same id from it. */
  lemma MyIdAgreesWithGetMyId(u: User)
    requires GetMyId(Some(u)).Some?
    ensures MyIdOf(Some(u)) == GetMyId(Some(u))
  {
  }

  /** Some liker is `null` and no earlier liker is `me`. */
  predicate NullBeforeMatch(likes: seq<Liker>, me: Option<string>)
  {
    exists k :: 0 <= k < |likes| && likes[k].None? && (me.None? || me !in likes[..k])
  }

  /** Some liker is `me` and no earlier liker is `null`. */
  predicate MatchBeforeNull(likes: seq<Liker>, me: Option<string>)
  {
    exists k :: 0 <= k < |likes| && me.Some? && likes[k] == me && None !in likes[..k]
  }

  /** `likes.some((u) => u.toString() === me)`: entries are tried in order,
      and a `null` entry throws before it can be compared. */
  function AnyLiker(likes: seq<Liker>, me: Option<string>): (r: Eval<bool>)
    ensures r.Threw? ==> None in likes
    ensures r == Value(true) ==> me.Some? && me in likes
    ensures None !in likes ==> r == Value(me.Some? && me in likes)
    ensures r.Threw? <==> NullBeforeMatch(likes, me)
    ensures r == Value(true) <==> MatchBeforeNull(likes, me)
  {
    if likes == [] then Value(false)
    else if likes[0].None? then
      assert likes[..0] == [];
      Threw
    else if likes[0] == me then
      assert likes[..0] == [];
      Value(true)
    else
      SkipLikerNull(likes, me);
      SkipLikerMatch(likes, me);
      AnyLiker(likes[1..], me)
  }

  /** A non-null first liker that is not `me` does not throw, so whether a
      `null` comes before any match is decided by the rest. */
  lemma SkipLikerNull(likes: seq<Liker>, me: Option<string>)
    requires likes != [] && likes[0].Some? && likes[0] != me
    ensures NullBeforeMatch(likes, me) <==> NullBeforeMatch(likes[1..], me)
  {
    var tail := likes[1..];
    if NullBeforeMatch(likes, me) {
      var k :| 0 <= k < |likes| && likes[k].None? && (me.None? || me !in likes[..k]);
      assert likes[..k] == [likes[0]] + tail[..k - 1];
      assert tail[k - 1].None? && (me.None? || me !in tail[..k - 1]);
    }
    if NullBeforeMatch(tail, me) {
      var k :| 0 <= k < |tail| && tail[k].None? && (me.None? || me !in tail[..k]);
      assert likes[..k + 1] == [likes[0]] + tail[..k];
      assert likes[k + 1].None? && (me.None? || me !in likes[..k + 1]);
    }
  }

  /** A non-null first liker that is not `me` does not match, so whether a
      match comes before any `null` is decided by the rest. */
  lemma SkipLikerMatch(likes: seq<Liker>, me: Option<string>)
    requires likes != [] && likes[0].Some? && likes[0] != me
    ensures MatchBeforeNull(likes, me) <==> MatchBeforeNull(likes[1..], me)
  {
    var tail := likes[1..];
    if MatchBeforeNull(likes, me) {
      var k :| 0 <= k < |likes| && me.Some? && likes[k] == me && None !in likes[..k];
      assert likes[..k] == [likes[0]] + tail[..k - 1];
      assert tail[k - 1] == me && None !in tail[..k - 1];
    }
    if MatchBeforeNull(tail, me) {
      var k :| 0 <= k < |tail| && me.Some? && tail[k] == me && None !in tail[..k];
      assert likes[..k + 1] == [likes[0]] + tail[..k];
      assert likes[k + 1] == me && None !in likes[..k + 1];
    }
  }

  /** `hasLiked()`: `currentPost?.likes?.some(...)`; a missing post or a
      missing `likes` gives `undefined`, which the page treats as false. */
  function HasLiked(post: Option<Post>, user: Option<User>): (r: Eval<bool>)
    ensures post.None? || post.value.likes.None? ==> r == Value(false)
    ensures post.Some? && None !in Likers(post.value) ==>
              r == Value(MyIdOf(user).Some? && MyIdOf(user) in Likers(post.value))
    ensures r == Value(true) ==> post.Some? && MyIdOf(user).Some? && MyIdOf(user) in Likers(post.value)
    ensures r.Threw? ==> post.Some? && None in Likers(post.value)
  {
    match post
    case None => Value(false)
    case Some(p) =>
      match p.likes
      case None => Value(false)
      case Some(likes) => AnyLiker(likes, MyIdOf(user))
  }

  /** `hasLiked()` inherits the order of `.some`: it throws exactly when a
      `null` liker precedes any match, and is true exactly when a match
      precedes any `null`. */
  lemma HasLikedInOrder(post: Option<Post>, user: Option<User>)
    ensures HasLiked(post, user).Threw? <==> post.Some? && NullBeforeMatch(Likers(post.value), MyIdOf(user))
    ensures HasLiked(post, user) == Value(true) <==> post.Some? && MatchBeforeNull(Likers(post.value), MyIdOf(user))
  {
    if post.Some? {
      assert HasLiked(post, user) == AnyLiker(Likers(post.value), MyIdOf(user));
    }
  }

  /** What `String(obj)` gives for a plain object. */
  const ObjectText := "[object Object]"

  /** `(currentPost.author?._id || currentPost.author)?.toString()` */
  function AuthorText(a: Author): Option<string>
  {
    match a
    case NoAuthor => None
    case AuthorRef(userId) => Some(userId)
    case AuthorDoc(docId, _) => if Truthy(docId) then docId else Some(ObjectText)
  }

  /** `isAuthor()` */
  function IsAuthor(post: Option<Post>, user: Option<User>): (r: bool)
    ensures post.None? || user.None? ==> !r
    ensures post.Some? && user.Some? && post.value.author.AuthorDoc? && Truthy(post.value.author.docId) ==>
              (r <==> post.value.author.docId == MyIdOf(user))
    ensures post.Some? && user.Some? && post.value.author.AuthorRef? ==>
              (r <==> MyIdOf(user) == Some(post.value.author.userId))
    ensures post.Some? && user.Some? && post.value.author.NoAuthor? ==> (r <==> MyIdOf(user).None?)
    ensures post.Some? && user.Some? && post.value.author.AuthorDoc? && !Truthy(post.value.author.docId) ==>
              (r <==> MyIdOf(user) == Some(ObjectText))
    ensures user.Some? && !Truthy(user.value.id) ==>
              (r <==> post.Some? && AuthorText(post.value.author) == user.value.docId)
  {
    if post.None? || user.None? then false
    else AuthorText(post.value.author) == MyIdOf(user)
  }

  /** Both sides `undefined` compare equal: a post without an author counts as
      written by a user record without an id. */
  lemma IsAuthorWithoutIds(p: Post, u: User)
    requires p.author == NoAuthor && u.id == None && u.docId == None
    ensures IsAuthor(Some(p), Some(u))
  {
  }

  /** Which store mutation a click dispatched. */
  datatype Dispatch = NoCall | LikeCall | UnlikeCall

  /** How the promise returned by `handleLikeToggle()` settles. */
  datatype Settled = Redirected | Done | Rejected

  class SinglePostPage {
    const store: PostProvider
    /** The route's `:id`. */
    const id: string
    var localLoading: bool
    /** Every `setLocalLoading` call, in order. */
    var loadingWrites: seq<bool>
    /** Every `navigate` call, in order. */
    var navigations: seq<string>

    constructor (store: PostProvider, id: string)
      ensures this.store == store && this.id == id
      ensures !localLoading && loadingWrites == [] && navigations == []
    {
      this.store := store;
      this.id := id;
      localLoading := false;
      loadingWrites := [];
      navigations := [];
    }

    /** `handleLikeToggle()`: `user` is the signed-in user, `stored` the user
        `getMyId` reads, `likeRes` and `fetchRes` how the like (or unlike)
        request and the refetch settle. */
    method HandleLikeToggle(user: Option<User>, stored: Option<User>, likeRes: Reply<Post>, fetchRes: Reply<Post>)
      returns (call: Dispatch, outcome: Settled)
      modifies this`localLoading, this`loadingWrites, this`navigations, store
      ensures user.None? ==> call == NoCall && outcome == Redirected && unchanged(store)
                             && navigations == old(navigations) + ["/login"]
                             && loadingWrites == old(loadingWrites) && localLoading == old(localLoading)
      ensures user.Some? ==> navigations == old(navigations) && !localLoading
                             && loadingWrites == old(loadingWrites) + [true, false]
      ensures var liked := HasLiked(old(store.currentPost), user);
              user.Some? ==> call == (if liked == Value(true) then UnlikeCall
                                      else if liked == Value(false) then LikeCall else NoCall)
      ensures user.Some? && call == NoCall ==> outcome == Rejected && unchanged(store)
      ensures call != NoCall && likeRes.Fail? ==> outcome == Rejected && unchanged(store)
      ensures var myId := GetMyId(stored);
              var mutated := if call == LikeCall then LikeCurrent(old(store.currentPost), id, myId)
                             else UnlikeCurrent(old(store.currentPost), id, myId);
              call != NoCall && likeRes.Ok? ==>
                store.posts == (if call == LikeCall then LikeIn(old(store.posts), id, myId)
                                else UnlikeIn(old(store.posts), id, myId))
                && if mutated.Some? && mutated.value.id == id
                   then outcome == Done && store.currentPost == mutated
                        && store.loading == old(store.loading) && store.error == old(store.error)
                   else outcome == (if fetchRes.Ok? then Done else Rejected) && !store.loading
                        && store.currentPost == (if fetchRes.Ok? then Some(fetchRes.value) else mutated)
                        && store.error == (if fetchRes.Ok? then None
                                           else Some(ErrorText(fetchRes.message, "Failed to fetch post")))
    {
      if user.None? {
        navigations := navigations + ["/login"];
        return NoCall, Redirected;
      }
      localLoading := true;
      loadingWrites := loadingWrites + [true];
      call, outcome := NoCall, Rejected;
      var liked := HasLiked(store.currentPost, user);
      if liked.Value? {
        call := if liked.v then UnlikeCall else LikeCall;
        outcome := SendAndRefetch(call, stored, likeRes, fetchRes);
      }
      localLoading := false;
      loadingWrites := loadingWrites + [false];
    }

    /** The `try` block after the choice: `unlikePost(id)` or `likePost(id)`,
        then `fetchPostById(id)`; a rejection of either ends it. */
    method SendAndRefetch(call: Dispatch, stored: Option<User>, likeRes: Reply<Post>, fetchRes: Reply<Post>)
      returns (outcome: Settled)
      requires call != NoCall
      modifies store
      ensures likeRes.Fail? ==> outcome == Rejected && unchanged(store)
      ensures var myId := GetMyId(stored);
              var mutated := if call == LikeCall then LikeCurrent(old(store.currentPost), id, myId)
                             else UnlikeCurrent(old(store.currentPost), id, myId);
              likeRes.Ok? ==>
                store.posts == (if call == LikeCall then LikeIn(old(store.posts), id, myId)
                                else UnlikeIn(old(store.posts), id, myId))
                && if mutated.Some? && mutated.value.id == id
                   then outcome == Done && store.currentPost == mutated
                        && store.loading == old(store.loading) && store.error == old(store.error)
                   else outcome == (if fetchRes.Ok? then Done else Rejected) && !store.loading
                        && store.currentPost == (if fetchRes.Ok? then Some(fetchRes.value) else mutated)
                        && store.error == (if fetchRes.Ok? then None
                                           else Some(ErrorText(fetchRes.message, "Failed to fetch post")))
    {
      var r;
      if call == UnlikeCall {
        r := store.UnlikePost(id, stored, likeRes);
      } else {
        r := store.LikePost(id, stored, likeRes);
      }
      outcome := Rejected;
      if r.Ok? {
        var refetched := store.FetchPostById(id, fetchRes);
        if refetched.Ok? {
          outcome := Done;
        }
      }
    }
  }

  /** Two clicks on the like button of a post the user has not liked: the
      first likes and the second unlikes, and every copy of the post's likers
      is back where it started. */
  method ToggleTwice(ps: seq<Post>, p: Post, user: User, reply: Post)
    returns (first: Dispatch, second: Dispatch, afterFirst: Option<Post>, posts: seq<Post>, current: Option<Post>)
    requires GetMyId(Some(user)).Some?
    requires p.likes.Some? && None !in Likers(p) && GetMyId(Some(user)) !in Likers(p)
    requires forall i :: 0 <= i < |ps| && ps[i].id == p.id ==>
               ps[i].likes.Some? && GetMyId(Some(user)) !in Likers(ps[i])
    ensures first == LikeCall && second == UnlikeCall
    ensures afterFirst == Some(WithLike(p, GetMyId(Some(user))))
    ensures posts == ps && current == Some(p)
  {
    var myId := GetMyId(Some(user));
    var store := new PostProvider();
    store.FetchPosts(Ok(ps));
    var loaded := store.FetchPostById(p.id, Ok(p));
    var page := new SinglePostPage(store, p.id);
    MyIdAgreesWithGetMyId(user);
    assert HasLiked(store.currentPost, Some(user)) == Value(false);
    var outcome;
    first, outcome := page.HandleLikeToggle(Some(user), Some(user), Ok(reply), Ok(reply));
    afterFirst := store.currentPost;
    var liked := WithLike(p, myId);
    assert afterFirst == Some(liked);
    assert Likers(liked) == Likers(p) + [myId];
    assert None !in Likers(liked) && myId in Likers(liked);
    assert HasLiked(store.currentPost, Some(user)) == Value(true);
    second, outcome := page.HandleLikeToggle(Some(user), Some(user), Ok(reply), Ok(reply));
    UnlikeUndoesLike(p, myId);
    LikeThenUnlikeRestores(ps, p.id, myId);
    posts, current := store.posts, store.currentPost;
  }
}
