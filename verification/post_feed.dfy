/** The feed (`PostFeed`): which posts it shows, which of its four screens it
    renders, and the like and delete handlers it gives each card.
 */
module PostFeed {
  import opened Wrappers
  import opened Interfaces
  import Strings
  import PostsApi
  import PostsStore

  /** `filterByUserId ? posts.filter(...) : posts`. */
  function DisplayedPosts(posts: seq<Post>, filterByUserId: Option<string>): (shown: seq<Post>)
    ensures filterByUserId.None? || filterByUserId.value == "" ==> shown == posts
    ensures filterByUserId.Some? && filterByUserId.value != "" ==>
      forall p :: p in shown <==> p in posts && p.user_id == filterByUserId.value
    ensures filterByUserId.Some? && filterByUserId.value != "" ==>
      shown == PostsApi.ByAuthor(posts, filterByUserId.value)
  {
    if filterByUserId.Some? && Strings.Truthy(filterByUserId.value)
    then PostsApi.ByAuthor(posts, filterByUserId.value)
    else posts
  }

  const SkeletonCount: nat := 3
  const EmptyTitle := "No posts yet"

  datatype FeedView =
    | Skeletons(count: nat)
    | ErrorView(message: string)
    | EmptyView
    | PostList(posts: seq<Post>)

  /** The screen: skeletons while the first load runs, then the error with a
      retry button, then the empty notice, then the cards. Posts already
      loaded stay visible while a reload runs. */
  function View(s: PostsStore.PostsState, filterByUserId: Option<string>): (v: FeedView)
    ensures v.Skeletons? <==> s.isLoading && |s.posts| == 0
    ensures v.Skeletons? ==> v.count == SkeletonCount
    ensures v.ErrorView? <==> !(s.isLoading && |s.posts| == 0) && s.error.Some? && s.error.value != ""
    ensures v.ErrorView? ==> v.message == s.error.value
    ensures v.PostList? ==> v.posts == DisplayedPosts(s.posts, filterByUserId) && |v.posts| > 0
    ensures v.EmptyView? ==> DisplayedPosts(s.posts, filterByUserId) == []
  {
    var shown := DisplayedPosts(s.posts, filterByUserId);
    if s.isLoading && |s.posts| == 0 then Skeletons(SkeletonCount)
    else if s.error.Some? && Strings.Truthy(s.error.value) then ErrorView(s.error.value)
    else if |shown| == 0 then EmptyView
    else PostList(shown)
  }

  /** A failed fetch shows its message with the retry button. */
  lemma FailedFetchShowsError(s: PostsStore.PostsState, e: Error, filterByUserId: Option<string>)
    ensures View(PostsStore.FetchPosts(s, Err(e)), filterByUserId) == ErrorView(PostsStore.FetchFailed)
  {
  }

  /** `handleLike`: a signed-out viewer's click does nothing; otherwise the
      store toggles the like as the viewer. */
  function HandleLike(s: PostsStore.PostsState, currentUserId: Option<string>, postId: string, isLiked: bool,
                      write: PostsApi.LikeWrite -> Outcome): (t: PostsStore.PostsState)
    ensures currentUserId.None? || currentUserId.value == "" ==> t == s
    ensures currentUserId.Some? && currentUserId.value != "" ==>
      t == PostsStore.ToggleLike(s, postId, currentUserId.value, isLiked, write).0
  {
    if currentUserId.Some? && Strings.Truthy(currentUserId.value)
    then PostsStore.ToggleLike(s, postId, currentUserId.value, isLiked, write).0
    else s
  }

  /** `handleDelete`: a signed-out viewer's click does nothing; otherwise the
      store deletes the post and the failure, if any, is passed on. */
  function HandleDelete(s: PostsStore.PostsState, currentUserId: Option<string>, postId: string, deleted: Outcome)
    : (out: (PostsStore.PostsState, Outcome))
    ensures currentUserId.None? || currentUserId.value == "" ==> out == (s, Pass)
    ensures currentUserId.Some? && currentUserId.value != "" ==> out == PostsStore.DeletePost(s, postId, deleted)
  {
    if currentUserId.Some? && Strings.Truthy(currentUserId.value)
    then PostsStore.DeletePost(s, postId, deleted)
    else (s, Pass)
  }

  /** A signed-in viewer's successful delete removes the post from the
      screen. */
  lemma DeletedPostNotShown(s: PostsStore.PostsState, userId: string, postId: string, filterByUserId: Option<string>)
    requires userId != ""
    ensures var t := HandleDelete(s, Some(userId), postId, Pass).0;
      forall p :: p in DisplayedPosts(t.posts, filterByUserId) ==> p.id != postId
  {
  }
}
