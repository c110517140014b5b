/** The posts store (`usePostsStore`): the feed as a list of posts with a
    loading flag and an error message, the synchronous setters, and the
    asynchronous actions that call the posts API, with optimistic updates
    that are reverted when the call fails.

    Each asynchronous action is modelled by the state it leaves behind, given
    the outcome of its API call; the call's outcome is a parameter.
 */
module PostsStore {
  import opened Wrappers
  import opened Interfaces
  import PostsApi

  datatype PostsState = PostsState(posts: seq<Post>, isLoading: bool, error: Option<string>)

  const Initial := PostsState([], false, None)

  const FetchFailed := "Failed to fetch posts"
  const CreateFailed := "Failed to create post"

  predicate HasId(posts: seq<Post>, id: string) {
    exists i :: 0 <= i < |posts| && posts[i].id == id
  }

  /** The number of posts carrying `id`. */
  function Occurrences(posts: seq<Post>, id: string): nat
    decreases |posts|
  {
    if |posts| == 0 then 0
    else (if posts[0].id == id then 1 else 0) + Occurrences(posts[1..], id)
  }

  // ---------------------------------------------------------------------
  // Setters
  // ---------------------------------------------------------------------

  /** `addPost`: the new post goes on top. */
  function AddPost(s: PostsState, post: Post): (t: PostsState)
    ensures |t.posts| == |s.posts| + 1
    ensures t.posts[0] == post && t.posts[1..] == s.posts
    ensures t.isLoading == s.isLoading && t.error == s.error
  {
    s.(posts := [post] + s.posts)
  }

  /** The posts whose id is not `id`, in order. */
  function Without(posts: seq<Post>, id: string): (r: seq<Post>)
    ensures |r| == |posts| - Occurrences(posts, id)
    ensures forall p :: p in r <==> p in posts && p.id != id
    decreases |posts|
  {
    if |posts| == 0 then []
    else
      assert forall p :: p in posts <==> p == posts[0] || p in posts[1..];
      (if posts[0].id == id then [] else [posts[0]]) + Without(posts[1..], id)
  }

  /** `removePost`: every post with the id goes. */
  function RemovePost(s: PostsState, postId: string): (t: PostsState)
    ensures !HasId(t.posts, postId)
    ensures forall p :: p in t.posts <==> p in s.posts && p.id != postId
    ensures t.isLoading == s.isLoading && t.error == s.error
  {
    var t := s.(posts := Without(s.posts, postId));
    assert forall i :: 0 <= i < |t.posts| ==> t.posts[i] in t.posts;
    t
  }

  lemma {:induction false} WithoutUnchanged(posts: seq<Post>, id: string)
    requires !HasId(posts, id)
    ensures Without(posts, id) == posts
    decreases |posts|
  {
    if |posts| > 0 {
      NoIdInTail(posts, id);
      WithoutUnchanged(posts[1..], id);
      assert posts[0].id != id;
      assert posts == [posts[0]] + posts[1..];
    }
  }

  /** A feed without the id has no tail with it. */
  lemma NoIdInTail(posts: seq<Post>, id: string)
    requires |posts| > 0 && !HasId(posts, id)
    ensures !HasId(posts[1..], id)
  {
    forall i | 0 <= i < |posts| - 1
      ensures posts[1..][i].id != id
    {
      assert posts[1..][i] == posts[i + 1];
    }
  }

  /** Removing a freshly added post whose id is new gives back the feed. */
  lemma RemoveUndoesAdd(s: PostsState, post: Post)
    requires !HasId(s.posts, post.id)
    ensures RemovePost(AddPost(s, post), post.id) == s
  {
    WithoutUnchanged(s.posts, post.id);
    assert AddPost(s, post).posts[1..] == s.posts;
  }

  /** Removing is idempotent. */
  lemma RemovePostIdempotent(s: PostsState, postId: string)
    ensures RemovePost(RemovePost(s, postId), postId) == RemovePost(s, postId)
  {
    WithoutUnchanged(RemovePost(s, postId).posts, postId);
  }

  function SetLike(p: Post, postId: string, isLiked: bool, likeCount: int): Post {
    if p.id == postId then p.(is_liked_by_user := isLiked, like_count := likeCount) else p
  }

  /** `updatePostLike`: the posts with the id get the flag and the count;
      nothing else changes. */
  function UpdatePostLike(s: PostsState, postId: string, isLiked: bool, likeCount: int): (t: PostsState)
    ensures |t.posts| == |s.posts|
    ensures forall i :: 0 <= i < |s.posts| ==>
      if s.posts[i].id == postId
      then t.posts[i] == s.posts[i].(is_liked_by_user := isLiked, like_count := likeCount)
      else t.posts[i] == s.posts[i]
    ensures t.isLoading == s.isLoading && t.error == s.error
  {
    s.(posts := seq(|s.posts|, i requires 0 <= i < |s.posts| => SetLike(s.posts[i], postId, isLiked, likeCount)))
  }

  /** A later like update overrides an earlier one. */
  lemma UpdatePostLikeLastWins(s: PostsState, postId: string, a: bool, m: int, b: bool, n: int)
    ensures UpdatePostLike(UpdatePostLike(s, postId, a, m), postId, b, n) == UpdatePostLike(s, postId, b, n)
  {
    var l := UpdatePostLike(UpdatePostLike(s, postId, a, m), postId, b, n);
    var r := UpdatePostLike(s, postId, b, n);
    assert l.posts == r.posts;
  }

  function SetPosts(s: PostsState, posts: seq<Post>): (t: PostsState)
    ensures t.posts == posts && t.isLoading == s.isLoading && t.error == s.error
  {
    s.(posts := posts)
  }

  function SetLoading(s: PostsState, loading: bool): (t: PostsState)
    ensures t.isLoading == loading && t.posts == s.posts && t.error == s.error
  {
    s.(isLoading := loading)
  }

  function SetError(s: PostsState, error: Option<string>): (t: PostsState)
    ensures t.error == error && t.posts == s.posts && t.isLoading == s.isLoading
  {
    s.(error := error)
  }

  // ---------------------------------------------------------------------
  // Asynchronous actions
  // ---------------------------------------------------------------------

  /** The state while a fetch or create is in flight. */
  function Begin(s: PostsState): (t: PostsState)
    ensures t.isLoading && t.error.None? && t.posts == s.posts
  {
    s.(isLoading := true, error := None)
  }

  /** `fetchPosts`, given what `getPosts` produced: the feed is replaced on
      success; on failure it is kept and the error message is set. Loading
      ends either way. */
  function FetchPosts(s: PostsState, fetched: Result<seq<Post>>): (t: PostsState)
    ensures !t.isLoading
    ensures fetched.Ok? ==> t.posts == fetched.value && t.error.None?
    ensures fetched.Err? ==> t.posts == s.posts && t.error == Some(FetchFailed)
  {
    var b := Begin(s);
    match fetched
    case Ok(posts) => b.(posts := posts, isLoading := false)
    case Err(_) => b.(error := Some(FetchFailed), isLoading := false)
  }

  /** `fetchPosts` is the same whatever the state before, apart from the
      posts kept on failure. */
  lemma FetchPostsForgetsState(s: PostsState, u: PostsState, fetched: Result<seq<Post>>)
    requires fetched.Ok? || s.posts == u.posts
    ensures FetchPosts(s, fetched) == FetchPosts(u, fetched)
  {
  }

  /** The post the store adds: the API's post with the author's name and
      picture. */
  function WithAuthor(p: Post, authorName: string, authorPfpUrl: Option<string>): Post {
    p.(author_name := Some(authorName), author_pfp_url := authorPfpUrl)
  }

  /** `createPost`, given what the API produced: the post, enriched with the
      author, goes on top of the feed and is returned; a failure sets the
      error message and is rethrown. */
  function CreatePost(s: PostsState, authorName: string, authorPfpUrl: Option<string>, created: Result<Post>)
    : (out: (PostsState, Result<Post>))
    ensures !out.0.isLoading
    ensures created.Ok? ==>
      && out.1 == Ok(WithAuthor(created.value, authorName, authorPfpUrl))
      && out.0.posts == [out.1.value] + s.posts
      && out.0.error.None?
    ensures created.Err? ==>
      out.1 == created && out.0.posts == s.posts && out.0.error == Some(CreateFailed)
  {
    var b := Begin(s);
    match created
    case Ok(post) =>
      var enriched := WithAuthor(post, authorName, authorPfpUrl);
      (SetLoading(AddPost(b, enriched), false), Ok(enriched))
    case Err(e) => (b.(error := Some(CreateFailed), isLoading := false), Err(e))
  }

  /** Deleting a freshly created post leaves the feed it was added to, when
      its id was new to that feed. */
  lemma DeleteUndoesCreate(s: PostsState, authorName: string, authorPfpUrl: Option<string>, post: Post)
    requires !HasId(s.posts, post.id)
    ensures var created := CreatePost(s, authorName, authorPfpUrl, Ok(post)).0;
      DeletePost(created, post.id, Pass).0.posts == s.posts
  {
    var created := CreatePost(s, authorName, authorPfpUrl, Ok(post)).0;
    assert created.posts[0].id == post.id && created.posts[1..] == s.posts;
    WithoutUnchanged(s.posts, post.id);
  }

  /** The first post with the id (`posts.find`). */
  function Find(posts: seq<Post>, id: string): (r: Option<Post>)
    ensures r.Some? <==> HasId(posts, id)
    ensures r.Some? ==> r.value.id == id && r.value in posts
    ensures r.Some? ==> r.value == posts[FindIndex(posts, id)]
    decreases |posts|
  {
    if |posts| == 0 then None
    else if posts[0].id == id then Some(posts[0])
    else
      var r := Find(posts[1..], id);
      assert HasId(posts, id) ==> HasId(posts[1..], id) by {
        if HasId(posts, id) {
          var i :| 0 <= i < |posts| && posts[i].id == id;
          assert posts[1..][i - 1] == posts[i];
        }
      }
      r
  }

  /** The index of the first post with the id, or -1 (`posts.findIndex`). */
  function FindIndex(posts: seq<Post>, id: string): (i: int)
    ensures -1 <= i < |posts|
    ensures i == -1 <==> !HasId(posts, id)
    ensures i >= 0 ==> posts[i].id == id && forall j :: 0 <= j < i ==> posts[j].id != id
    decreases |posts|
  {
    if |posts| == 0 then -1
    else if posts[0].id == id then 0
    else
      var k := FindIndex(posts[1..], id);
      if k == -1 then -1 else k + 1
  }

  /** What the `toggleLike` action leaves behind, and the write it asked the
      API for (none when the post is not in the feed). The count moves by one
      at once; if the API call fails, the post's flag and original count are
      put back. The failure is not rethrown. */
  function ToggleLike(s: PostsState, postId: string, userId: string, isCurrentlyLiked: bool,
                      write: PostsApi.LikeWrite -> Outcome): (out: (PostsState, Option<PostsApi.LikeWrite>))
    ensures out.1.None? <==> !HasId(s.posts, postId)
    ensures out.1.None? ==> out.0 == s
    ensures out.1.Some? ==> out.1.value.post_id == postId && out.1.value.user_id == userId
    ensures out.1.Some? ==> (out.1.value.DeleteLike? <==> isCurrentlyLiked)
  {
    match Find(s.posts, postId)
    case None => (s, None)
    case Some(post) =>
      var newCount := if isCurrentlyLiked then post.like_count - 1 else post.like_count + 1;
      var optimistic := UpdatePostLike(s, postId, !isCurrentlyLiked, newCount);
      var request := if isCurrentlyLiked then PostsApi.DeleteLike(postId, userId) else PostsApi.InsertLike(postId, userId);
      match PostsApi.ToggleLike(postId, userId, isCurrentlyLiked, write)
      case Ok(_) => (optimistic, Some(request))
      case Err(_) => (UpdatePostLike(optimistic, postId, isCurrentlyLiked, post.like_count), Some(request))
  }

  /** On success the post shows the opposite flag and a count one step away;
      every other post, the loading flag and the error are as before. */
  lemma ToggleLikeSucceeds(s: PostsState, postId: string, userId: string, liked: bool,
                           write: PostsApi.LikeWrite -> Outcome)
    requires HasId(s.posts, postId)
    requires PostsApi.ToggleLike(postId, userId, liked, write).Ok?
    ensures var t := ToggleLike(s, postId, userId, liked, write).0;
      var i := FindIndex(s.posts, postId);
      && t.posts[i].is_liked_by_user == !liked
      && t.posts[i].like_count == s.posts[i].like_count + (if liked then -1 else 1)
    ensures var t := ToggleLike(s, postId, userId, liked, write).0;
      var n := s.posts[FindIndex(s.posts, postId)].like_count + (if liked then -1 else 1);
      && |t.posts| == |s.posts|
      && t.isLoading == s.isLoading && t.error == s.error
      && forall j :: 0 <= j < |s.posts| ==>
           if s.posts[j].id == postId
           then t.posts[j] == s.posts[j].(is_liked_by_user := !liked, like_count := n)
           else t.posts[j] == s.posts[j]
  {
  }

  /** On failure the feed is as before, provided the post is the only one
      with its id and its flag is the one the caller passed. */
  lemma ToggleLikeRevertRestores(s: PostsState, postId: string, userId: string, liked: bool,
                                 write: PostsApi.LikeWrite -> Outcome)
    requires Occurrences(s.posts, postId) == 1
    requires Find(s.posts, postId).Some? && Find(s.posts, postId).value.is_liked_by_user == liked
    requires PostsApi.ToggleLike(postId, userId, liked, write).Err?
    ensures ToggleLike(s, postId, userId, liked, write).0 == s
  {
    var post := Find(s.posts, postId).value;
    var t := ToggleLike(s, postId, userId, liked, write).0;
    var k := FindIndex(s.posts, postId);
    OnlyOccurrence(s.posts, postId);
    forall i | 0 <= i < |s.posts|
      ensures t.posts[i] == s.posts[i]
    {
    }
  }

  /** What `deletePost` leaves behind, and whether it rethrows. Every post
      with the id disappears at once; if the API call fails, the first such
      post is put back at its old index. */
  function DeletePost(s: PostsState, postId: string, deleted: Outcome): (out: (PostsState, Outcome))
    ensures out.1 == deleted
    ensures deleted.Pass? ==> out.0 == RemovePost(s, postId)
    ensures deleted.Fail? && !HasId(s.posts, postId) ==> out.0 == RemovePost(s, postId)
    ensures out.0.isLoading == s.isLoading && out.0.error == s.error
  {
    var index := FindIndex(s.posts, postId);
    var removed := RemovePost(s, postId);
    if deleted.Pass? || index == -1 then (removed, deleted)
    else
      var post := s.posts[index];
      // `slice` clamps an index past the end to the length.
      var cut := if index <= |removed.posts| then index else |removed.posts|;
      (removed.(posts := removed.posts[..cut] + [post] + removed.posts[cut..]), deleted)
  }

  lemma {:induction false} OccurrencesAppend(a: seq<Post>, b: seq<Post>, id: string)
    ensures Occurrences(a + b, id) == Occurrences(a, id) + Occurrences(b, id)
    decreases |a|
  {
    if |a| == 0 {
      assert a + b == b;
    } else {
      assert (a + b)[1..] == a[1..] + b;
      OccurrencesAppend(a[1..], b, id);
    }
  }

  lemma {:induction false} WithoutAppend(a: seq<Post>, b: seq<Post>, id: string)
    ensures Without(a + b, id) == Without(a, id) + Without(b, id)
    decreases |a|
  {
    if |a| == 0 {
      assert a + b == b;
    } else {
      assert (a + b)[1..] == a[1..] + b;
      WithoutAppend(a[1..], b, id);
    }
  }

  /** An id occurs zero times iff no post carries it. */
  lemma {:induction false} NoOccurrences(posts: seq<Post>, id: string)
    ensures Occurrences(posts, id) == 0 <==> !HasId(posts, id)
    decreases |posts|
  {
    if |posts| > 0 {
      NoOccurrences(posts[1..], id);
      if HasId(posts[1..], id) {
        var i :| 0 <= i < |posts[1..]| && posts[1..][i].id == id;
        assert posts[i + 1].id == id;
      }
      if HasId(posts, id) && posts[0].id != id {
        var i :| 0 <= i < |posts| && posts[i].id == id;
        assert posts[1..][i - 1].id == id;
      }
    }
  }

  /** A post whose id occurs once sits at the first index, with no post of
      that id before or after it. */
  lemma OnlyOccurrence(posts: seq<Post>, id: string)
    requires Occurrences(posts, id) == 1
    ensures 0 <= FindIndex(posts, id)
    ensures !HasId(posts[..FindIndex(posts, id)], id)
    ensures !HasId(posts[FindIndex(posts, id) + 1..], id)
    ensures forall i :: 0 <= i < |posts| && posts[i].id == id ==> i == FindIndex(posts, id)
  {
    NoOccurrences(posts, id);
    var k := FindIndex(posts, id);
    var a, after := posts[..k], posts[k + 1..];
    assert posts == a + [posts[k]] + after;
    OccurrencesAppend(a + [posts[k]], after, id);
    OccurrencesAppend(a, [posts[k]], id);
    NoOccurrences(a, id);
    NoOccurrences(after, id);
  }

  /** Removing the id from a feed that holds it once, between two parts
      that do not, leaves the two parts joined. */
  lemma WithoutAround(a: seq<Post>, x: Post, after: seq<Post>, id: string)
    requires !HasId(a, id) && !HasId(after, id) && x.id == id
    ensures Without(a + [x] + after, id) == a + after
  {
    WithoutAppend(a + [x], after, id);
    WithoutAppend(a, [x], id);
    WithoutUnchanged(a, id);
    WithoutUnchanged(after, id);
    WithoutSelf(x, id);
    calc {
      Without(a + [x] + after, id);
      Without(a + [x], id) + Without(after, id);
      Without(a, id) + Without([x], id) + after;
      a + [] + after;
    }
    assert a + [] == a;
  }

  /** A post whose id is removed leaves nothing. */
  lemma WithoutSelf(x: Post, id: string)
    requires x.id == id
    ensures Without([x], id) == []
  {
    assert [x][1..] == [];
  }

  /** On failure the feed is as before when the id occurred exactly once. */
  lemma DeleteRevertRestores(s: PostsState, postId: string, e: Error)
    requires Occurrences(s.posts, postId) == 1
    ensures DeletePost(s, postId, Fail(e)).0 == s
  {
    OnlyOccurrence(s.posts, postId);
    var k := FindIndex(s.posts, postId);
    var a, after := s.posts[..k], s.posts[k + 1..];
    assert s.posts == a + [s.posts[k]] + after;
    WithoutAround(a, s.posts[k], after, postId);
    var removed := Without(s.posts, postId);
    assert removed == a + after;
    assert |a| == k;
    assert removed[..k] == a && removed[k..] == after;
    var t := DeletePost(s, postId, Fail(e)).0;
    assert t.posts == a + [s.posts[k]] + after;
  }
}
