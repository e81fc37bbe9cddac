/// The comment thread store of `CommentProvider`: the comment list, the
/// loading flag, the id of the post whose room the client is in, and the
/// `join_post` / `leave_post` signals it emits on the shared socket.
module CommentContext {
  import opened JsValues
  import Seqs

  /** A comment as the server sends it. */
  datatype Comment = Comment(
    id: string,                     // `_id`
    post: string,                   // id of the post it belongs to
    parentComment: Option<string>,
    authorName: string,
    content: string,
    likesCount: Option<int>,        // absent until a like result or event sets it
    createdAt: string)

  // ---------------------------------------------------------------------------
  // The list rewrites passed to `setComments`
  // ---------------------------------------------------------------------------

  /** `prev.filter((c) => c._id !== id)`, used by `deleteComment` and `delete_comment`. */
  function RemoveById(cs: seq<Comment>, id: string): (r: seq<Comment>)
    ensures |r| <= |cs|
    ensures forall c :: c in r <==> c in cs && c.id != id
  {
    Seqs.Filter(cs, (c: Comment) => c.id != id)
  }

  /** Deleting an id no comment carries changes nothing. */
  lemma RemoveByIdMissing(cs: seq<Comment>, id: string)
    requires forall i :: 0 <= i < |cs| ==> cs[i].id != id
    ensures RemoveById(cs, id) == cs
  {
    Seqs.FilterKeepsAll(cs, (c: Comment) => c.id != id);
  }

  /** `prev.map((c) => (c._id === id ? { ...c, content } : c))`, used by
      `updateComment` and `update_comment`. */
  function SetContent(cs: seq<Comment>, id: string, content: string): (r: seq<Comment>)
    ensures |r| == |cs|
    ensures forall i :: 0 <= i < |cs| ==> r[i].(content := cs[i].content) == cs[i]
    ensures forall i :: 0 <= i < |cs| ==>
              r[i].content == if cs[i].id == id then content else cs[i].content
  {
    Seqs.Map(cs, (c: Comment) => if c.id == id then c.(content := content) else c)
  }

  /** `prev.map((c) => c._id === id ? { ...c, likesCount } : c)`, used by
      `toggleLike` and `update_likes`. */
  function SetLikes(cs: seq<Comment>, id: string, likesCount: int): (r: seq<Comment>)
    ensures |r| == |cs|
    ensures forall i :: 0 <= i < |cs| ==> r[i].(likesCount := cs[i].likesCount) == cs[i]
    ensures forall i :: 0 <= i < |cs| ==>
              r[i].likesCount == if cs[i].id == id then Some(likesCount) else cs[i].likesCount
  {
    Seqs.Map(cs, (c: Comment) => if c.id == id then c.(likesCount := Some(likesCount)) else c)
  }

  /** The number of entries carrying `id`. */
  function CountId(cs: seq<Comment>, id: string): nat
  {
    if cs == [] then 0 else (if cs[0].id == id then 1 else 0) + CountId(cs[1..], id)
  }

  /** Deleting keeps every other comment in the order it had: it works entry by entry. */
  lemma RemoveByIdConcat(a: seq<Comment>, b: seq<Comment>, id: string)
    ensures RemoveById(a + b, id) == RemoveById(a, id) + RemoveById(b, id)
  {
    Seqs.FilterConcat(a, b, (c: Comment) => c.id != id);
  }

  /** Deleting removes as many entries as carry the id, and no more. */
  lemma {:induction false} RemoveByIdLength(cs: seq<Comment>, id: string)
    ensures |RemoveById(cs, id)| == |cs| - CountId(cs, id)
  {
    if cs != [] {
      RemoveByIdLength(cs[1..], id);
      RemoveByIdConcat([cs[0]], cs[1..], id);
      assert [cs[0]] + cs[1..] == cs;
    }
  }

  /** A repeated delete (the local one and the echoed event) is harmless. */
  lemma RemoveByIdIdempotent(cs: seq<Comment>, id: string)
    ensures RemoveById(RemoveById(cs, id), id) == RemoveById(cs, id)
  {
    Seqs.FilterIdempotent(cs, (c: Comment) => c.id != id);
  }

  /** A repeated content update is harmless. */
  lemma SetContentIdempotent(cs: seq<Comment>, id: string, content: string)
    ensures SetContent(SetContent(cs, id, content), id, content) == SetContent(cs, id, content)
  {
  }

  /** Updates to comments that are then deleted leave no trace. */
  lemma {:induction false} RemoveAfterSetContent(cs: seq<Comment>, id: string, content: string)
    ensures RemoveById(SetContent(cs, id, content), id) == RemoveById(cs, id)
  {
    if cs != [] {
      var up := SetContent(cs, id, content);
      assert [up[0]] + up[1..] == up;
      assert [cs[0]] + cs[1..] == cs;
      assert up[1..] == SetContent(cs[1..], id, content) by {
        var tail := SetContent(cs[1..], id, content);
        forall i | 0 <= i < |tail| ensures up[1..][i] == tail[i] {
          assert up[1..][i].(content := cs[i + 1].content) == cs[i + 1];
          assert tail[i].(content := cs[i + 1].content) == cs[i + 1];
        }
      }
      RemoveByIdConcat([up[0]], up[1..], id);
      RemoveByIdConcat([cs[0]], cs[1..], id);
      RemoveAfterSetContent(cs[1..], id, content);
      if cs[0].id != id {
        assert up[0].(content := cs[0].content) == cs[0];
      }
    }
  }

  /** A content update and a like-count update never interfere. */
  lemma SetContentSetLikesCommute(cs: seq<Comment>, a: string, content: string, b: string, n: int)
    ensures SetLikes(SetContent(cs, a, content), b, n) == SetContent(SetLikes(cs, b, n), a, content)
  {
  }

  // ---------------------------------------------------------------------------
  // Room signals
  // ---------------------------------------------------------------------------

  /** What the provider emits to control its membership of a post's room. */
  datatype Signal = JoinPost(postId: string) | LeavePost(postId: string)

  /** The effect cleanup: `if (currentPostId) socket.emit("leave_post", currentPostId)`. */
  function Cleanup(prev: Option<string>): (r: seq<Signal>)
    ensures |r| <= 1
    ensures forall s :: s in r <==> Truthy(prev) && s == LeavePost(prev.value)
  {
    if Truthy(prev) then [LeavePost(prev.value)] else []
  }

  /** The effect keyed on `[currentPostId]` runs its cleanup only when the id changed. */
  function Resubscribe(prev: Option<string>, next: Option<string>): (r: seq<Signal>)
    ensures |r| <= 1
    ensures r != [] <==> prev != next && Truthy(prev)
    ensures forall s :: s in r ==> s == LeavePost(prev.value)
  {
    if prev == next then [] else Cleanup(prev)
  }

  /** The signals emitted by a successful `fetchComments(postId)` while the
      provider was subscribed to `prev`: the join comes first, the cleanup it
      triggers after the re-render. */
  function FetchSignals(prev: Option<string>, postId: string): seq<Signal>
  {
    [JoinPost(postId)] + Resubscribe(prev, Some(postId))
  }

  /** A room server that adds on join and removes on leave. */
  function ApplySignal(rooms: set<string>, s: Signal): set<string>
  {
    match s
    case JoinPost(p) => rooms + {p}
    case LeavePost(p) => rooms - {p}
  }

  /** The rooms the socket is in after `log`, starting from `rooms`. */
  function RoomsAfter(rooms: set<string>, log: seq<Signal>): set<string>
    decreases |log|
  {
    if log == [] then rooms else RoomsAfter(ApplySignal(rooms, log[0]), log[1..])
  }

  lemma {:induction false} RoomsAfterAppend(rooms: set<string>, a: seq<Signal>, b: seq<Signal>)
    ensures RoomsAfter(rooms, a + b) == RoomsAfter(RoomsAfter(rooms, a), b)
    decreases a
  {
    if a == [] {
      assert a + b == b;
    } else {
      assert (a + b)[1..] == a[1..] + b;
      RoomsAfterAppend(ApplySignal(rooms, a[0]), a[1..], b);
    }
  }

  /** The rooms a non-empty id can be in: at most the one the provider is subscribed to. */
  function Subscribed(mounted: bool, postId: Option<string>): set<string>
  {
    if mounted && Truthy(postId) then {postId.value} else {}
  }

  /** Between its join and the cleanup's leave, a fetch that changes posts has
      the socket in both the old and the new room. */
  lemma FetchPassesThroughBothRooms(rooms: set<string>, prev: string, postId: string)
    requires prev != "" && postId != "" && prev != postId
    requires rooms - {""} == Subscribed(true, Some(prev))
    ensures FetchSignals(Some(prev), postId) == [JoinPost(postId), LeavePost(prev)]
    ensures RoomsAfter(rooms, FetchSignals(Some(prev), postId)[..1]) - {""} == {prev, postId}
  {
    assert FetchSignals(Some(prev), postId)[..1] == [JoinPost(postId)];
    assert RoomsAfter(rooms, [JoinPost(postId)]) == RoomsAfter(rooms + {postId}, []);
  }

  /** After a fetch completes, the socket is in at most one (non-empty) room: the new one. */
  lemma FetchSignalsMoveRoom(rooms: set<string>, prev: Option<string>, postId: string)
    requires rooms - {""} == Subscribed(true, prev)
    ensures RoomsAfter(rooms, FetchSignals(prev, postId)) - {""} == Subscribed(true, Some(postId))
  {
    var after := RoomsAfter(rooms, FetchSignals(prev, postId));
    RoomsAfterAppend(rooms, [JoinPost(postId)], Resubscribe(prev, Some(postId)));
    var joined := rooms + {postId};
    assert RoomsAfter(rooms, [JoinPost(postId)]) == joined;
    if prev != Some(postId) && Truthy(prev) {
      assert after == joined - {prev.value};
    } else {
      assert after == joined;
    }
  }

  function CountJoins(log: seq<Signal>): nat
  {
    if log == [] then 0 else (if log[0].JoinPost? then 1 else 0) + CountJoins(log[1..])
  }

  function CountLeaves(log: seq<Signal>): nat
  {
    if log == [] then 0 else (if log[0].LeavePost? then 1 else 0) + CountLeaves(log[1..])
  }

  // ---------------------------------------------------------------------------
  // The provider's state and its transitions
  // ---------------------------------------------------------------------------

  class CommentProvider {
    var comments: seq<Comment>
    var loading: bool
    var currentPostId: Option<string>
    /** Every `join_post` / `leave_post` emitted so far, in order. */
    var emitted: seq<Signal>
    /** False once the provider has unmounted and its effect was cleaned up. */
    var mounted: bool

    /** The socket is in no non-empty room other than the current post's,
        and in none after unmounting. */
    ghost predicate Valid()
      reads this
    {
      RoomsAfter({}, emitted) - {""} == Subscribed(mounted, currentPostId)
    }

    constructor ()
      ensures Valid() && mounted
      ensures comments == [] && !loading && currentPostId == None && emitted == []
    {
      comments := [];
      loading := false;
      currentPostId := None;
      emitted := [];
      mounted := true;
    }

    /** `fetchComments(postId)`, settled with `res`. */
    method FetchComments(postId: string, res: Reply<seq<Comment>>)
      requires Valid() && mounted
      modifies this`comments, this`loading, this`currentPostId, this`emitted
      ensures Valid() && !loading
      ensures res.Ok? ==> comments == res.value && currentPostId == Some(postId)
                          && emitted == old(emitted) + FetchSignals(old(currentPostId), postId)
      ensures res.Fail? ==> comments == old(comments) && currentPostId == old(currentPostId)
                            && emitted == old(emitted)
    {
      loading := true;
      if res.Ok? {
        var prev := currentPostId;
        RoomsAfterAppend({}, emitted, FetchSignals(prev, postId));
        FetchSignalsMoveRoom(RoomsAfter({}, emitted), prev, postId);
        comments := res.value;
        currentPostId := Some(postId);
        emitted := emitted + [JoinPost(postId)];
        // the re-render runs the effect cleanup for the old id
        emitted := emitted + Resubscribe(prev, currentPostId);
        assert emitted == old(emitted) + FetchSignals(prev, postId);
      }
      loading := false;
    }

    /** `addComment(postId, content, parentComment)`, settled with `res`. */
    method AddComment(postId: string, content: string, parentComment: Option<string>, res: Reply<Comment>)
      requires Valid() && mounted
      modifies this`comments
      ensures Valid()
      ensures comments == if res.Ok? then [res.value] + old(comments) else old(comments)
    {
      if res.Ok? {
        comments := [res.value] + comments;
      }
    }

    /** `updateComment(id, newContent)`, settled with `res`; returns `res.data`
        on success and `undefined` on failure. */
    method UpdateComment(id: string, newContent: string, res: Reply<Comment>) returns (r: Option<Comment>)
      requires Valid() && mounted
      modifies this`comments
      ensures Valid()
      ensures r == if res.Ok? then Some(res.value) else None
      ensures comments == if res.Ok? then SetContent(old(comments), id, newContent) else old(comments)
    {
      r := None;
      if res.Ok? {
        comments := SetContent(comments, id, newContent);
        r := Some(res.value);
      }
    }

    /** `deleteComment(id)`, settled with `res`. */
    method DeleteComment(id: string, res: Reply<()>)
      requires Valid() && mounted
      modifies this`comments
      ensures Valid()
      ensures comments == if res.Ok? then RemoveById(old(comments), id) else old(comments)
    {
      if res.Ok? {
        comments := RemoveById(comments, id);
      }
    }

    /** `toggleLike(id)`, settled with `res`, whose value is `res.data.likes`. */
    method ToggleLike(id: string, res: Reply<int>)
      requires Valid() && mounted
      modifies this`comments
      ensures Valid()
      ensures comments == if res.Ok? then SetLikes(old(comments), id, res.value) else old(comments)
    {
      if res.Ok? {
        comments := SetLikes(comments, id, res.value);
      }
    }

    /** The `new_comment` handler: only comments of the current post are prepended. */
    method OnNewComment(comment: Comment)
      requires Valid() && mounted
      modifies this`comments
      ensures Valid()
      ensures comments == if Some(comment.post) == currentPostId then [comment] + old(comments)
                          else old(comments)
    {
      if Some(comment.post) == currentPostId {
        comments := [comment] + comments;
      }
    }

    /** The `delete_comment` handler. */
    method OnDeleteComment(commentId: string)
      requires Valid() && mounted
      modifies this`comments
      ensures Valid()
      ensures comments == RemoveById(old(comments), commentId)
    {
      comments := RemoveById(comments, commentId);
    }

    /** The `update_comment` handler, with `data._id` and `data.content`. */
    method OnUpdateComment(id: string, content: string)
      requires Valid() && mounted
      modifies this`comments
      ensures Valid()
      ensures comments == SetContent(old(comments), id, content)
    {
      comments := SetContent(comments, id, content);
    }

    /** The `update_likes` handler, with `commentId` and `likesCount`. */
    method OnUpdateLikes(commentId: string, likesCount: int)
      requires Valid() && mounted
      modifies this`comments
      ensures Valid()
      ensures comments == SetLikes(old(comments), commentId, likesCount)
    {
      comments := SetLikes(comments, commentId, likesCount);
    }

    /** Unmounting runs the effect cleanup one last time. */
    method Unmount()
      requires Valid() && mounted
      modifies this`emitted, this`mounted
      ensures Valid() && !mounted
      ensures emitted == old(emitted) + Cleanup(currentPostId)
      ensures RoomsAfter({}, emitted) - {""} == {}
    {
      RoomsAfterAppend({}, emitted, Cleanup(currentPostId));
      emitted := emitted + Cleanup(currentPostId);
      mounted := false;
    }
  }

  // ---------------------------------------------------------------------------
  // Scenarios
  // ---------------------------------------------------------------------------

  /** A like-count event for the second of two comments changes that count only. */
  method LikesEventScenario(c1: Comment, c2: Comment) returns (after: seq<Comment>)
    requires c1.id != c2.id && c1.likesCount == Some(2) && c2.likesCount == Some(0)
    ensures after == [c1, c2.(likesCount := Some(3))]
  {
    var store := new CommentProvider();
    store.FetchComments(c1.post, Ok([c1, c2]));
    store.OnUpdateLikes(c2.id, 3);
    after := store.comments;
    assert after[0].(likesCount := c1.likesCount) == c1;
  }

  /** Deleting an id that no comment carries leaves the thread as it was. */
  method DeleteMissingScenario(thread: seq<Comment>, missing: string) returns (after: seq<Comment>)
    requires |thread| == 3 && forall i :: 0 <= i < |thread| ==> thread[i].id != missing
    ensures after == thread && |after| == 3
  {
    var store := new CommentProvider();
    store.FetchComments("p", Ok(thread));
    RemoveByIdMissing(thread, missing);
    store.DeleteComment(missing, Ok(()));
    after := store.comments;
  }

  /** Inserts are not deduplicated: the author's own comment, confirmed by the
      server and echoed by `new_comment`, appears twice. */
  method EchoedCommentScenario(c: Comment) returns (copies: nat)
    ensures copies == 2
  {
    var store := new CommentProvider();
    store.FetchComments(c.post, Ok([]));
    store.AddComment(c.post, c.content, c.parentComment, Ok(c));
    store.OnNewComment(c);
    assert store.comments == [c, c];
    assert [c, c][1..] == [c] && [c][1..] == [];
    assert CountId([c], c.id) == 1;
    copies := CountId(store.comments, c.id);
  }

  /** There is no stale-response guard: whichever fetch settles last decides
      the thread and the room. Each fetch is one atomic transition here, so
      this shows only that the later settlement overwrites the earlier; the
      moment a request is made is not modelled, and with it not whether the
      response that wins belonged to the earlier request. */
  method LateResponseScenario(a: string, b: string, forA: seq<Comment>, forB: seq<Comment>)
    returns (shown: seq<Comment>, room: Option<string>)
    ensures shown == forA && room == Some(a)
  {
    var store := new CommentProvider();
    store.FetchComments(b, Ok(forB));
    store.FetchComments(a, Ok(forA));
    shown, room := store.comments, store.currentPostId;
  }

  /** Only `new_comment` is filtered by post: a pushed comment of another post
      is ignored, but a `delete_comment` for a listed comment of another post
      still removes it. */
  method ForeignEventScenario(shown: string, c: Comment, other: Comment)
    returns (afterNew: seq<Comment>, afterDelete: seq<Comment>)
    requires c.post != shown && other.post != shown
    ensures afterNew == [c]
    ensures afterDelete == []
  {
    var store := new CommentProvider();
    store.FetchComments(shown, Ok([c]));
    store.OnNewComment(other);
    afterNew := store.comments;
    store.OnDeleteComment(c.id);
    afterDelete := store.comments;
  }

  /** Fetching the same post twice joins its room twice but leaves it once;
      the socket still ends in no room. */
  method RefetchScenario(postId: string) returns (log: seq<Signal>)
    requires postId != ""
    ensures CountJoins(log) == 2 && CountLeaves(log) == 1
    ensures log == [JoinPost(postId), JoinPost(postId), LeavePost(postId)]
    ensures RoomsAfter({}, log) == {}
  {
    var store := new CommentProvider();
    store.FetchComments(postId, Ok([]));
    store.FetchComments(postId, Ok([]));
    store.Unmount();
    log := store.emitted;
    assert log == [JoinPost(postId), JoinPost(postId), LeavePost(postId)];
    var rest, last := [JoinPost(postId), LeavePost(postId)], [LeavePost(postId)];
    assert log[1..] == rest && rest[1..] == last && last[1..] == [];
    assert ApplySignal({}, JoinPost(postId)) == {postId};
    assert ApplySignal({postId}, JoinPost(postId)) == {postId};
    assert ApplySignal({postId}, LeavePost(postId)) == {};
    assert RoomsAfter({postId}, last) == {};
    assert RoomsAfter({postId}, rest) == {};
    assert CountJoins(last) == 0 && CountLeaves(last) == 1;
    assert CountJoins(rest) == 1 && CountLeaves(rest) == 1;
  }
}
