/// The post store of `PostProvider`: one `posts` list shared by the full
/// list and the "my posts" page, the single `currentPost`, and the
/// `loading` and `error` flags.
module PostContext {
  import opened JsValues
  import Seqs

  /** One entry of a post's `likes`: a user id, or `null` (`None`), which
      `likePost` appends when `getMyId` finds no id. */
  type Liker = Option<string>

  /** A post's `author`: missing, a bare user id, or a populated user document. */
  datatype Author = NoAuthor | AuthorRef(userId: string) | AuthorDoc(docId: Option<string>, name: string)

  datatype Post = Post(
    id: string,                    // `_id`
    title: string,
    content: string,
    category: string,
    author: Author,
    likes: Option<seq<Liker>>)     // missing until the server or a like sets it

  /** A user record: its `id` and `_id` fields, either of which may be missing. */
  datatype User = User(id: Option<string>, docId: Option<string>, name: string)

  /** `getMyId`: `user?.id || user?._id || null` over the stored user, which is
      `None` when local storage holds nothing or nothing parsable. */
  function GetMyId(stored: Option<User>): (r: Option<string>)
    ensures r.Some? ==> r.value != ""
    ensures r.Some? ==> stored.Some? && (r == stored.value.id || r == stored.value.docId)
    ensures r.None? <==> stored.None? || (!Truthy(stored.value.id) && !Truthy(stored.value.docId))
    ensures stored.Some? && Truthy(stored.value.id) ==> r == stored.value.id
  {
    match stored
    case None => None
    case Some(u) => if Truthy(u.id) then u.id else if Truthy(u.docId) then u.docId else None
  }

  /** `p.likes || []` */
  function Likers(p: Post): seq<Liker>
  {
    p.likes.GetOr([])
  }

  // ---------------------------------------------------------------------------
  // One post's likers
  // ---------------------------------------------------------------------------

  /** `{ ...p, likes: [...(p.likes || []), myId] }` */
  function WithLike(p: Post, myId: Liker): (q: Post)
    ensures q.(likes := p.likes) == p
    ensures q.likes.Some? && |Likers(q)| == |Likers(p)| + 1
    ensures Likers(q)[..|Likers(p)|] == Likers(p) && Likers(q)[|Likers(p)|] == myId
  {
    p.(likes := Some(Likers(p) + [myId]))
  }

  /** `{ ...p, likes: (p.likes || []).filter((u) => u !== myId) }` */
  function WithoutLike(p: Post, myId: Liker): (q: Post)
    ensures q.(likes := p.likes) == p
    ensures q.likes.Some? && |Likers(q)| <= |Likers(p)|
    ensures forall u :: u in Likers(q) <==> u in Likers(p) && u != myId
  {
    p.(likes := Some(Seqs.Filter(Likers(p), (u: Liker) => u != myId)))
  }

  /** Unliking keeps the other likers in their order: it works entry by entry. */
  lemma WithoutLikeConcat(p: Post, a: seq<Liker>, b: seq<Liker>, myId: Liker)
    requires Likers(p) == a + b
    ensures Likers(WithoutLike(p, myId)) == Likers(WithoutLike(p.(likes := Some(a)), myId))
                                           + Likers(WithoutLike(p.(likes := Some(b)), myId))
  {
    Seqs.FilterConcat(a, b, (u: Liker) => u != myId);
  }

  /** Unliking a post the user had not liked only materialises a missing `likes`. */
  lemma WithoutLikeAbsent(p: Post, myId: Liker)
    requires myId !in Likers(p)
    ensures WithoutLike(p, myId) == p.(likes := Some(Likers(p)))
  {
    var keep := (u: Liker) => u != myId;
    forall i | 0 <= i < |Likers(p)| ensures keep(Likers(p)[i]) {
      assert Likers(p)[i] in Likers(p);
    }
    Seqs.FilterKeepsAll(Likers(p), keep);
  }

  /** Unlike undoes like, for a liker who was not already there. */
  lemma UnlikeUndoesLike(p: Post, myId: Liker)
    requires myId !in Likers(p)
    ensures WithoutLike(WithLike(p, myId), myId) == p.(likes := Some(Likers(p)))
  {
    var liked := WithLike(p, myId);
    var front, back := liked.(likes := Some(Likers(p))), liked.(likes := Some([myId]));
    assert Likers(liked) == Likers(p) + [myId];
    WithoutLikeConcat(liked, Likers(p), [myId], myId);
    assert Likers(WithoutLike(back, myId)) == [];
    assert front == p.(likes := Some(Likers(p)));
    WithoutLikeAbsent(front, myId);
    assert Likers(WithoutLike(front, myId)) == Likers(p);
    assert Likers(WithoutLike(liked, myId)) == Likers(p);
  }

  /** For a liker who was already there, like then unlike loses every copy of
      them, so the likers are not restored. */
  lemma UnlikeUndoesLikeConverse(p: Post, myId: Liker)
    requires myId in Likers(p)
    ensures Likers(WithoutLike(WithLike(p, myId), myId)) != Likers(p)
  {
    assert myId !in Likers(WithoutLike(WithLike(p, myId), myId));
  }

  // ---------------------------------------------------------------------------
  // The list rewrites passed to `setPosts` and `setCurrentPost`
  // ---------------------------------------------------------------------------

  /** `prev.map((p) => p._id === id ? { ...p, likes: [...(p.likes || []), myId] } : p)` */
  function LikeIn(ps: seq<Post>, id: string, myId: Liker): (r: seq<Post>)
    ensures |r| == |ps|
    ensures forall i :: 0 <= i < |ps| ==> r[i].id == ps[i].id
    ensures forall i :: 0 <= i < |ps| && ps[i].id != id ==> r[i] == ps[i]
    ensures forall i :: 0 <= i < |ps| && ps[i].id == id ==> r[i] == WithLike(ps[i], myId)
  {
    Seqs.Map(ps, (p: Post) => if p.id == id then WithLike(p, myId) else p)
  }

  /** `prev.map((p) => p._id === id ? { ...p, likes: (p.likes || []).filter(...) } : p)` */
  function UnlikeIn(ps: seq<Post>, id: string, myId: Liker): (r: seq<Post>)
    ensures |r| == |ps|
    ensures forall i :: 0 <= i < |ps| ==> r[i].id == ps[i].id
    ensures forall i :: 0 <= i < |ps| && ps[i].id != id ==> r[i] == ps[i]
    ensures forall i :: 0 <= i < |ps| && ps[i].id == id ==> r[i] == WithoutLike(ps[i], myId)
  {
    Seqs.Map(ps, (p: Post) => if p.id == id then WithoutLike(p, myId) else p)
  }

  /** `prev.map((p) => (p._id === id ? post : p))` */
  function ReplaceById(ps: seq<Post>, id: string, post: Post): (r: seq<Post>)
    ensures |r| == |ps|
    ensures forall i :: 0 <= i < |ps| && ps[i].id != id ==> r[i] == ps[i]
    ensures forall i :: 0 <= i < |ps| && ps[i].id == id ==> r[i] == post
  {
    Seqs.Map(ps, (p: Post) => if p.id == id then post else p)
  }

  /** `prev.filter((p) => p._id !== id)` */
  function RemoveById(ps: seq<Post>, id: string): (r: seq<Post>)
    ensures |r| <= |ps|
    ensures forall p :: p in r <==> p in ps && p.id != id
  {
    Seqs.Filter(ps, (p: Post) => p.id != id)
  }

  /** Deleting keeps the other posts in their order: it works post by post. */
  lemma RemoveByIdConcat(a: seq<Post>, b: seq<Post>, id: string)
    ensures RemoveById(a + b, id) == RemoveById(a, id) + RemoveById(b, id)
  {
    Seqs.FilterConcat(a, b, (p: Post) => p.id != id);
  }

  /** Deleting an id no post carries changes nothing. */
  lemma RemoveByIdMissing(ps: seq<Post>, id: string)
    requires forall i :: 0 <= i < |ps| ==> ps[i].id != id
    ensures RemoveById(ps, id) == ps
  {
    Seqs.FilterKeepsAll(ps, (p: Post) => p.id != id);
  }

  /** Like then unlike restores every post the user had not liked and whose
      `likes` was present; non-matching posts are never touched. */
  lemma LikeThenUnlikeRestores(ps: seq<Post>, id: string, myId: Liker)
    requires forall i :: 0 <= i < |ps| && ps[i].id == id ==> myId !in Likers(ps[i]) && ps[i].likes.Some?
    ensures UnlikeIn(LikeIn(ps, id, myId), id, myId) == ps
  {
    var r := UnlikeIn(LikeIn(ps, id, myId), id, myId);
    forall i | 0 <= i < |ps| ensures r[i] == ps[i] {
      if ps[i].id == id {
        UnlikeUndoesLike(ps[i], myId);
      }
    }
  }

  /** `currentPost` after `likePost(id)`: changed only when it is the post liked. */
  function LikeCurrent(current: Option<Post>, id: string, myId: Liker): (r: Option<Post>)
    ensures r.Some? <==> current.Some?
    ensures current.Some? && current.value.id == id ==> r == Some(WithLike(current.value, myId))
    ensures current.None? || current.value.id != id ==> r == current
  {
    if current.Some? && current.value.id == id then Some(WithLike(current.value, myId)) else current
  }

  /** `currentPost` after `unlikePost(id)`. */
  function UnlikeCurrent(current: Option<Post>, id: string, myId: Liker): (r: Option<Post>)
    ensures r.Some? <==> current.Some?
    ensures current.Some? && current.value.id == id ==> r == Some(WithoutLike(current.value, myId))
    ensures current.None? || current.value.id != id ==> r == current
  {
    if current.Some? && current.value.id == id then Some(WithoutLike(current.value, myId)) else current
  }

  // ---------------------------------------------------------------------------
  // The provider's state and its transitions
  // ---------------------------------------------------------------------------

  class PostProvider {
    var posts: seq<Post>
    var currentPost: Option<Post>
    var loading: bool
    var error: Option<string>

    constructor ()
      ensures posts == [] && currentPost == None && !loading && error == None
    {
      posts := [];
      currentPost := None;
      loading := false;
      error := None;
    }

    /** The body shared by `fetchPosts` and `fetchMyPosts`: both overwrite `posts`. */
    method LoadPosts(res: Reply<seq<Post>>, fallback: string)
      modifies this`posts, this`loading, this`error
      ensures !loading
      ensures res.Ok? ==> posts == res.value && error == None
      ensures res.Fail? ==> posts == old(posts) && error == Some(ErrorText(res.message, fallback))
    {
      loading := true;
      if res.Ok? {
        posts := res.value;
        error := None;
      } else {
        error := Some(ErrorText(res.message, fallback));
      }
      loading := false;
    }

    /** `fetchPosts()`, settled with `res`. */
    method FetchPosts(res: Reply<seq<Post>>)
      modifies this`posts, this`loading, this`error
      ensures !loading
      ensures res.Ok? ==> posts == res.value && error == None
      ensures res.Fail? ==> posts == old(posts) && error == Some(ErrorText(res.message, "Failed to fetch posts"))
    {
      LoadPosts(res, "Failed to fetch posts");
    }

    /** `fetchMyPosts()`, settled with `res`. */
    method FetchMyPosts(res: Reply<seq<Post>>)
      modifies this`posts, this`loading, this`error
      ensures !loading
      ensures res.Ok? ==> posts == res.value && error == None
      ensures res.Fail? ==> posts == old(posts) && error == Some(ErrorText(res.message, "Failed to fetch your posts"))
    {
      LoadPosts(res, "Failed to fetch your posts");
    }

    /** `fetchPostById(id)`: no request when `currentPost` already is that post;
        otherwise settled with `res`, whose failure is rethrown. */
    method FetchPostById(id: string, res: Reply<Post>) returns (r: Reply<Post>)
      modifies this`currentPost, this`loading, this`error
      ensures old(currentPost).Some? && old(currentPost).value.id == id ==>
                r == Ok(old(currentPost).value) && currentPost == old(currentPost)
                && loading == old(loading) && error == old(error)
      ensures old(currentPost).None? || old(currentPost).value.id != id ==>
                r == res && !loading
                && currentPost == (if res.Ok? then Some(res.value) else old(currentPost))
                && error == (if res.Ok? then None else Some(ErrorText(res.message, "Failed to fetch post")))
    {
      if currentPost.Some? && currentPost.value.id == id {
        return Ok(currentPost.value);
      }
      loading := true;
      if res.Ok? {
        currentPost := Some(res.value);
        error := None;
      } else {
        error := Some(ErrorText(res.message, "Failed to fetch post"));
      }
      r := res;
      loading := false;
    }

    /** `createPost(newPost)`, settled with `res`, whose value is `res.data.post`. */
    method CreatePost(res: Reply<Post>) returns (r: Reply<Post>)
      modifies this`posts
      ensures r == res
      ensures posts == if res.Ok? then [res.value] + old(posts) else old(posts)
    {
      if res.Ok? {
        posts := [res.value] + posts;
      }
      r := res;
    }

    /** `updatePost(id, data)`, settled with `res`, whose value is `res.data.post`. */
    method UpdatePost(id: string, res: Reply<Post>) returns (r: Reply<Post>)
      modifies this`posts, this`currentPost
      ensures r == res
      ensures res.Ok? ==> posts == ReplaceById(old(posts), id, res.value)
                          && currentPost == (if old(currentPost).Some? && old(currentPost).value.id == id
                                             then Some(res.value) else old(currentPost))
      ensures res.Fail? ==> posts == old(posts) && currentPost == old(currentPost)
    {
      if res.Ok? {
        posts := ReplaceById(posts, id, res.value);
        if currentPost.Some? && currentPost.value.id == id {
          currentPost := Some(res.value);
        }
      }
      r := res;
    }

    /** `deletePost(id)`, settled with `res`. */
    method DeletePost(id: string, res: Reply<()>) returns (r: Reply<()>)
      modifies this`posts, this`currentPost
      ensures r == res
      ensures res.Ok? ==> posts == RemoveById(old(posts), id)
                          && currentPost == (if old(currentPost).Some? && old(currentPost).value.id == id
                                             then None else old(currentPost))
      ensures res.Fail? ==> posts == old(posts) && currentPost == old(currentPost)
    {
      if res.Ok? {
        posts := RemoveById(posts, id);
        if currentPost.Some? && currentPost.value.id == id {
          currentPost := None;
        }
      }
      r := res;
    }

    /** `likePost(id)`, settled with `res`; `stored` is the user in local storage. */
    method LikePost(id: string, stored: Option<User>, res: Reply<Post>) returns (r: Reply<Post>)
      modifies this`posts, this`currentPost
      ensures r == res
      ensures res.Ok? ==> posts == LikeIn(old(posts), id, GetMyId(stored))
                          && currentPost == LikeCurrent(old(currentPost), id, GetMyId(stored))
      ensures res.Fail? ==> posts == old(posts) && currentPost == old(currentPost)
    {
      if res.Ok? {
        var myId := GetMyId(stored);
        posts := LikeIn(posts, id, myId);
        if currentPost.Some? && currentPost.value.id == id {
          currentPost := Some(WithLike(currentPost.value, myId));
        }
      }
      r := res;
    }

    /** `unlikePost(id)`, settled with `res`; `stored` is the user in local storage. */
    method UnlikePost(id: string, stored: Option<User>, res: Reply<Post>) returns (r: Reply<Post>)
      modifies this`posts, this`currentPost
      ensures r == res
      ensures res.Ok? ==> posts == UnlikeIn(old(posts), id, GetMyId(stored))
                          && currentPost == UnlikeCurrent(old(currentPost), id, GetMyId(stored))
      ensures res.Fail? ==> posts == old(posts) && currentPost == old(currentPost)
    {
      if res.Ok? {
        var myId := GetMyId(stored);
        posts := UnlikeIn(posts, id, myId);
        if currentPost.Some? && currentPost.value.id == id {
          currentPost := Some(WithoutLike(currentPost.value, myId));
        }
      }
      r := res;
    }
  }

  /** There is one `posts` list: loading "my posts" after the full list
      replaces it, and nothing of the full list is kept apart. */
  method PostCopiesScenario(all: seq<Post>, mine: seq<Post>) returns (shown: seq<Post>)
    ensures shown == mine
  {
    var store := new PostProvider();
    store.FetchPosts(Ok(all));
    store.FetchMyPosts(Ok(mine));
    shown := store.posts;
  }
}
