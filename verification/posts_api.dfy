/** The posts data-access object (`postsAPI`): reading the feed through the
    `get_posts_with_details` database function, filtering it by author,
    inserting a post, deleting one, and liking or unliking.

    Each database call is a parameter; every error it reports is rethrown
    unchanged to the caller.
 */
module PostsApi {
  import opened Wrappers
  import opened Interfaces

  /** `userId || null`: an absent or empty id asks for the anonymous view. */
  function RequestingUserId(userId: Option<string>): (r: Option<string>)
    ensures r.Some? <==> userId.Some? && userId.value != ""
    ensures r.Some? ==> r == userId
  {
    if userId.Some? && userId.value != "" then userId else None
  }

  /** `getPosts`. `rpc` stands for the database function applied to the
      requesting user id; it may succeed with no data (`null`). */
  function GetPosts(userId: Option<string>, rpc: Option<string> -> Result<Option<seq<Post>>>): (r: Result<seq<Post>>)
    ensures rpc(RequestingUserId(userId)).Err? <==> r.Err?
    ensures r.Err? ==> r.error == rpc(RequestingUserId(userId)).error
    ensures r.Ok? ==> r.value == rpc(RequestingUserId(userId)).value.GetOr([])
  {
    var data :- rpc(RequestingUserId(userId));
    Ok(data.GetOr([]))
  }

  /** The posts written by `author`, in feed order. */
  function ByAuthor(posts: seq<Post>, author: string): (r: seq<Post>)
    ensures |r| <= |posts|
    ensures forall p :: p in r <==> p in posts && p.user_id == author
    decreases |posts|
  {
    if |posts| == 0 then []
    else
      var rest := ByAuthor(posts[1..], author);
      assert forall p :: p in posts <==> p == posts[0] || p in posts[1..];
      if posts[0].user_id == author then [posts[0]] + rest else rest
  }

  /** Filtering distributes over concatenation, so the order of the feed is
      kept. */
  lemma {:induction false} ByAuthorAppend(a: seq<Post>, b: seq<Post>, author: string)
    ensures ByAuthor(a + b, author) == ByAuthor(a, author) + ByAuthor(b, author)
    decreases |a|
  {
    if |a| == 0 {
      assert a + b == b;
    } else {
      assert (a + b)[1..] == a[1..] + b;
      ByAuthorAppend(a[1..], b, author);
    }
  }

  /** Filtering twice by the same author is filtering once. */
  lemma {:induction false} ByAuthorIdempotent(posts: seq<Post>, author: string)
    ensures ByAuthor(ByAuthor(posts, author), author) == ByAuthor(posts, author)
    decreases |posts|
  {
    if |posts| > 0 {
      ByAuthorIdempotent(posts[1..], author);
    }
  }

  /** `getPostsByUserId`: the requesting user's view of the feed, restricted
      to one author. */
  function GetPostsByUserId(
    targetUserId: string, requestingUserId: Option<string>,
    rpc: Option<string> -> Result<Option<seq<Post>>>): (r: Result<seq<Post>>)
    ensures r.Err? <==> GetPosts(requestingUserId, rpc).Err?
    ensures r.Ok? ==> forall p :: p in r.value <==> p in GetPosts(requestingUserId, rpc).value && p.user_id == targetUserId
    ensures r.Ok? ==> r.value == ByAuthor(GetPosts(requestingUserId, rpc).value, targetUserId)
  {
    var posts :- GetPosts(requestingUserId, rpc);
    Ok(ByAuthor(posts, targetUserId))
  }

  /** The row inserted into `posts`; both timestamps are clock readings. */
  datatype NewPostRow = NewPostRow(user_id: string, content: string, created_at: string, updated_at: string)

  /** The row the insert returns. */
  datatype PostRow = PostRow(id: string, user_id: string, content: string, created_at: string, updated_at: string)

  /** `createPost`. `insert` stands for the insert-and-select of one row. */
  function CreatePost(
    userId: string, content: string, createdAt: string, updatedAt: string,
    insert: NewPostRow -> Result<PostRow>): (r: Result<Post>)
    ensures r.Err? <==> insert(NewPostRow(userId, content, createdAt, updatedAt)).Err?
    ensures r.Err? ==> r.error == insert(NewPostRow(userId, content, createdAt, updatedAt)).error
    ensures r.Ok? ==>
      var row := insert(NewPostRow(userId, content, createdAt, updatedAt)).value;
      && r.value.id == row.id && r.value.user_id == row.user_id && r.value.content == row.content
      && r.value.created_at == row.created_at && r.value.updated_at == row.updated_at
      && r.value.like_count == 0 && !r.value.is_liked_by_user
      && r.value.author_name == Some("") && r.value.author_pfp_url.None?
  {
    var row :- insert(NewPostRow(userId, content, createdAt, updatedAt));
    Ok(Post(row.id, row.user_id, row.content, row.created_at, row.updated_at, 0, false, Some(""), None))
  }

  /** The write a like toggle performs: insert a `post_likes` row, or delete
      the rows matching the post and the user. */
  datatype LikeWrite = InsertLike(post_id: string, user_id: string) | DeleteLike(post_id: string, user_id: string)

  /** `toggleLike`: unlike a liked post, like an unliked one, and report the
      new liked state. */
  function ToggleLike(postId: string, userId: string, isCurrentlyLiked: bool, write: LikeWrite -> Outcome): (r: Result<bool>)
    ensures isCurrentlyLiked ==> (r.Ok? <==> write(DeleteLike(postId, userId)).Pass?)
    ensures !isCurrentlyLiked ==> (r.Ok? <==> write(InsertLike(postId, userId)).Pass?)
    ensures r.Ok? ==> r.value == !isCurrentlyLiked
  {
    var w := if isCurrentlyLiked then DeleteLike(postId, userId) else InsertLike(postId, userId);
    match write(w)
    case Pass => Ok(!isCurrentlyLiked)
    case Fail(e) => Err(e)
  }
}
