/** One post in the feed (`PostCard`): author avatar and name, a delete
    button for the author, the content, and a like button.
 */
module PostCard {
  import opened Wrappers
  import opened Interfaces
  import Strings
  import Utils
  import PostsApi

  /** `currentUserId === post.user_id`; a signed-out viewer owns nothing. */
  function IsOwner(currentUserId: Option<string>, post: Post): (owner: bool)
    ensures currentUserId.None? ==> !owner
    ensures currentUserId.Some? ==> (owner <==> currentUserId.value == post.user_id)
  {
    currentUserId == Some(post.user_id)
  }

  /** The delete button shows for the author when the feed passed a delete
      handler. */
  function ShowsDelete(currentUserId: Option<string>, post: Post, hasOnDelete: bool): (shows: bool)
    ensures shows ==> currentUserId == Some(post.user_id)
    ensures !hasOnDelete ==> !shows
  {
    IsOwner(currentUserId, post) && hasOnDelete
  }

  /** In a feed, the posts that show a delete button are exactly the
      viewer's own posts, when the feed passes a delete handler. */
  lemma DeleteOnlyOnOwnPosts(currentUserId: string, posts: seq<Post>, hasOnDelete: bool)
    ensures forall p :: p in posts && ShowsDelete(Some(currentUserId), p, hasOnDelete)
                        <==> hasOnDelete && p in PostsApi.ByAuthor(posts, currentUserId)
  {
  }

  /** The avatar fallback: the initials of the first two words of the
      author's name, or "?" when there is no name or it yields none. */
  function AvatarFallback(post: Post): (f: string)
    ensures 1 <= |f| <= 2
    ensures post.author_name.None? ==> f == "?"
    ensures post.author_name.Some? && Utils.LeadingInitials(post.author_name.value) != "" ==>
      f == Utils.LeadingInitials(post.author_name.value)
  {
    var initials := if post.author_name.Some? then Utils.LeadingInitials(post.author_name.value) else "";
    if Strings.Truthy(initials) then initials else "?"
  }

  /** The fallback is "?" exactly when the author has no word in the name. */
  lemma AvatarFallbackUnknown(post: Post)
    ensures AvatarFallback(post) == "?" <==>
      post.author_name.None? || Strings.Runs(post.author_name.value) == [] ||
      (|Strings.Runs(post.author_name.value)| == 1 && Strings.UpperChar(Strings.Runs(post.author_name.value)[0][0]) == '?')
  {
    if post.author_name.Some? {
      var name := post.author_name.value;
      var ws := Strings.Runs(name);
      Utils.LeadingInitialsOfWords(name);
      Utils.ConcatOfInitials(Utils.FirstTwo(ws));
      if |ws| == 1 {
        assert Utils.FirstTwo(ws) == ws;
      }
    }
  }

  /** `post.author_name || "Anonymous"`. */
  function DisplayName(post: Post): (n: string)
    ensures n != ""
    ensures post.author_name.Some? && post.author_name.value != "" ==> n == post.author_name.value
    ensures post.author_name.None? || post.author_name.value == "" ==> n == "Anonymous"
  {
    if post.author_name.Some? && Strings.Truthy(post.author_name.value) then post.author_name.value else "Anonymous"
  }

  /** `post.author_pfp_url || undefined`: an empty URL shows no image. */
  function AvatarSource(post: Post): (src: Option<string>)
    ensures src.Some? <==> post.author_pfp_url.Some? && post.author_pfp_url.value != ""
    ensures src.Some? ==> src == post.author_pfp_url
  {
    if post.author_pfp_url.Some? && Strings.Truthy(post.author_pfp_url.value) then post.author_pfp_url else None
  }

  /** The arguments of `onLike`: the post and its current liked state. */
  function LikeClick(post: Post): (args: (string, bool))
    ensures args.0 == post.id && args.1 == post.is_liked_by_user
  {
    (post.id, post.is_liked_by_user)
  }

  /** The link target of the avatar and the name. */
  function ProfileHref(post: Post): (href: string)
    ensures Strings.StartsWith(href, "/profile/") && href[|"/profile/"|..] == post.user_id
  {
    "/profile/" + post.user_id
  }
}
