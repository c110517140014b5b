# authentiq in Dafny

A model of the core of authentiq. authentiq is a recruiting web application with two halves:

- **The recruiter's side.** A recruiter chats with an agent that finds candidates. The agent extracts search criteria from a job description, embeds the query, runs a vector search over a candidate index, and attaches reasoning and a match score to each hit. The chat page then ranks the hits and shows them in a side panel.
- **The candidate's side.** A candidate signs in, creates a profile (optionally uploading a résumé that a language model parses into a fixed schema), and posts to a social feed. A database webhook embeds each profile into the candidate index.

The model covers:

- the client stores: authentication, chat, profile and posts;
- the posts data-access object;
- the feed components: container, feed, card and composer;
- the OAuth callback retry loop and the redirect hook;
- the onboarding form;
- the chat page's candidate derivation (scan the messages, merge the reasoning, stable sort by score);
- the two agent tools and the candidates panel;
- the résumé-parsing endpoint with its schema;
- the embedding webhook;
- browser detection, the collapsible section, the greeting and the initials helper.

Modelling conventions:

- One Dafny module per source file. Shared vocabulary lives in `Wrappers` (Option, Result, Outcome), `Strings`, `Json` and `Interfaces` (the post, profile, user and résumé records).
- Every asynchronous action is a pure function. It takes the outcome of its external calls (database, auth service, storage, language model, clock) as parameters and returns the state it leaves behind and what it returns or throws.
- A thrown error is an `Err`/`Fail` value. JavaScript truthiness, `||` versus `??`, strict `!==` and zod's optional/default semantics are written out explicitly.

The agent's language model produces each candidate's reasoning and match score. The page merges them into the search rows and sorts the rows by `match_score ?? 0`, descending and stable.

## Model

| member | source | states |
|---|---|---|
| ChatPage.CollectToolOutputs | src/app/chat/page.tsx:74-108 | the nested loops over messages and parts end holding the rows of the last completed search and the reasoning map built from every completed reasoning output, in conversation order |
| ChatPage.ScanParts | src/app/chat/page.tsx:76-106 | scanning one message's parts extends the "latest search" and "reasoning entries" reference definitions to the longer conversation |
| ChatPage.AddEntries | src/app/chat/page.tsx:99-104 | the `forEach` over one reasoning output yields the map of the concatenated rows |
| ChatPage.AppendOne | src/app/chat/page.tsx:77-105 | one more part replaces the latest search only if it is a completed search with array output, and adds reasoning rows only if it is a completed reasoning output |
| ChatPage.LatestFoundIsLast | src/app/chat/page.tsx:77-85 | the candidate set is the output of the last completed search; later non-search parts do not change it |
| ChatPage.LatestFoundIsAnOutput | src/app/chat/page.tsx:68-85 | the candidate set is empty or exactly the rows of one completed search in the conversation |
| ChatPage.NoSearchNoCandidates | src/app/chat/page.tsx:68-126 | without a completed search the page has no candidates |
| ChatPage.EntriesKeys | src/app/chat/page.tsx:99-104 | the reasoning map is keyed by exactly the user ids that appear in reasoning rows |
| ChatPage.EntriesLastWins | src/app/chat/page.tsx:99-104 | for a repeated user id, the entry from the last row with that id is kept |
| ChatPage.Enrich | src/app/chat/page.tsx:111-117 | enrichment keeps every search field; reasoning is replaced only by a truthy entry (`||`), and score only by a present one (`??`) |
| ChatPage.EnrichWithoutEntry | src/app/chat/page.tsx:112-117 | a candidate the agent did not reason about is shown exactly as the search returned it |
| ChatPage.EnrichIdempotent | src/app/chat/page.tsx:111-117 | enriching twice with the same map equals enriching once |
| ChatPage.EnrichAll | src/app/chat/page.tsx:111-118 | the map over candidates enriches each one in place, keeping the count and order |
| ChatPage.InsertByScore | src/app/chat/page.tsx:121-123 | one insertion step adds exactly one element, as a multiset |
| ChatPage.InsertFrom | src/app/chat/page.tsx:121-123 | every element after insertion is the inserted candidate or an old one |
| ChatPage.InsertKeepsSorted | src/app/chat/page.tsx:121-123 | inserting into a list in descending score order keeps it in descending order |
| ChatPage.InsertStable | src/app/chat/page.tsx:121-123 | the inserted candidate goes after every earlier candidate with the same score |
| ChatPage.WithScoreAppend | src/app/chat/page.tsx:121-123 | selecting the candidates of one score distributes over concatenation (used for stability) |
| ChatPage.WithScoreBelow | src/app/chat/page.tsx:121-123 | a list whose scores are all below v has no candidate of score v |
| ChatPage.SortByScore | src/app/chat/page.tsx:121-123 | the sort is a permutation of its input |
| ChatPage.SortByScoreSorted | src/app/chat/page.tsx:121-123 | the result is in descending order of match score, a missing score counting as 0 |
| ChatPage.SortByScoreStable | src/app/chat/page.tsx:121-123 | for each score, candidates keep their relative input order, as the stable `Array.prototype.sort` does |
| ChatPage.SortByScoreCorrect | src/app/chat/page.tsx:121-123 | sorted and stable for every score at once |
| ChatPage.Rank | src/app/chat/page.tsx:110-126 | no search rows give no candidates; otherwise the result is the enriched rows, permuted into descending stable score order |
| ChatPage.RankIsPermutationOfRows | src/app/chat/page.tsx:110-126 | each ranked candidate is some enriched search row, and each enriched search row is ranked |
| ChatPage.CandidatesMemo | src/app/chat/page.tsx:67-127 | the memo equals the reference derivation from the whole conversation, is score-sorted, and has as many entries as the latest search |
| ChatPage.AutoOpen | src/app/chat/page.tsx:129-135 | the panel opens once some candidate has truthy reasoning and never closes by itself |
| ChatPage.ToolStateOf | src/app/chat/page.tsx:256-261 | "output-available" shows as completed, "input-available" as running, and every other state as pending |
| ChatPage.PartStatus | src/app/chat/page.tsx:251-255 | a status line is drawn exactly for parts whose type starts with "tool-" and that carry a state |
| ChatPage.PartStatusMeaning | src/app/chat/page.tsx:251-265 | a tool part pulses until its output is available; a finished search says "Search complete"; the reasoning tool falls back to the default icons |
| ChatPage.HasText | src/app/chat/page.tsx:138 | a message has text iff its text is present and non-empty, as `Boolean` reads a string |
| ChatPage.HasAttachments | src/app/chat/page.tsx:139 | a message has attachments iff its file list is present and non-empty |
| ChatPage.HandleSubmit | src/app/chat/page.tsx:137-150 | nothing is sent without text or attachments; otherwise the text (or "Sent with attachments") and the files are sent and the input box is cleared |
| ChatPage.SentTextNeverEmpty | src/app/chat/page.tsx:145-148 | a sent message always carries non-empty text |
| CandidatesArtifact.Title | src/components/chat/candidates-artifact.tsx:114-116 | the card title is the full name when truthy, else "Candidate " plus the first 8 characters of the id |
| CandidatesArtifact.IdLine | src/components/chat/candidates-artifact.tsx:117-119 | the id line is "ID: ", the first min(12, length) characters of the id, and "..." |
| CandidatesArtifact.IdLineShowsTwelve | src/components/chat/candidates-artifact.tsx:117-119 | the middle of the id line is exactly `user_id.slice(0, 12)` |
| CandidatesArtifact.ShownSkills | src/components/chat/candidates-artifact.tsx:139-143 | at most five skill badges are shown, and they are the first ones in order |
| CandidatesArtifact.MoreBadge | src/components/chat/candidates-artifact.tsx:144-148 | the "+k more" badge appears iff there are more than five skills, with k positive |
| CandidatesArtifact.SkillBadgesAccountForAll | src/components/chat/candidates-artifact.tsx:137-150 | the shown badges plus the "+k" count are exactly all the skills; the hidden ones are the tail |
| CandidatesArtifact.SkillsOf | src/components/chat/candidates-artifact.tsx:137 | the skills row is absent iff the skills are missing or empty |
| CandidatesArtifact.Card | src/components/chat/candidates-artifact.tsx:104-163 | a card carries its rank, its title, its id line, its skill badges and the years of experience; the "Why:" block is present iff the reasoning is truthy, and then holds the reasoning |
| CandidatesArtifact.Cards | src/components/chat/candidates-artifact.tsx:84-90 | the cards follow the input order, ranked consecutively from the offset |
| CandidatesArtifact.Panel | src/components/chat/candidates-artifact.tsx:63-90 | the badge counts every candidate, and card i has rank i + 1 |
| ToolStatus.ConfigFor | src/components/ai-elements/tool-status.tsx:13-43 | only the two known tool names have their own configuration; every other name gets the default |
| ToolStatus.View | src/components/ai-elements/tool-status.tsx:46-71 | pending and running show the tool's pulsing icon and running text; completed shows a check mark and the completed text |
| ExtractQueryTool.ParseInput | src/components/tools/extract-query-tool.ts:6-24 | an accepted input has a string query, a number, an array of strings and an optional string location that is absent iff omitted; anything else is rejected |
| ExtractQueryTool.EncodeInput | src/components/tools/extract-query-tool.ts:6-24 | the encoded arguments carry a location property iff the input has one |
| ExtractQueryTool.ParseEncode | src/components/tools/extract-query-tool.ts:6-24 | every well-typed input survives encoding and validation unchanged |
| ExtractQueryTool.NullLocationRejected | src/components/tools/extract-query-tool.ts:18-23 | a null location is rejected, unlike an omitted one |
| ExtractQueryTool.Execute | src/components/tools/extract-query-tool.ts:31-35 | the result passes the query, minimum experience and skills through unchanged |
| ExtractQueryTool.ExecuteIgnoresLocation | src/components/tools/extract-query-tool.ts:31-35 | two inputs give the same result iff they differ at most in location |
| ExtractQueryTool.QueryLengthUnchecked | src/components/tools/extract-query-tool.ts:7-11 | the 300-character limit is only advice to the model: a longer query is accepted and passed on |
| FindCandidatesTool.Request | src/components/tools/find-candidates-tool.ts:41-49 | the search gets the embedding, the minimum experience, the skills and a match count of 20 |
| FindCandidatesTool.Execute | src/components/tools/find-candidates-tool.ts:30-55 | an embedding error is rethrown; otherwise the result is the search's answer for the request built from the embedding |
| FindCandidatesTool.ExecuteIgnoresLocation | src/components/tools/find-candidates-tool.ts:30 | the location never reaches the search |
| FindCandidatesTool.ExtractThenFind | src/components/tools/extract-query-tool.ts:31-35 | feeding the extraction result to the search tool loses nothing the search uses |
| FindCandidatesTool.ExecuteAtMostMatchCount | src/components/tools/find-candidates-tool.ts:47 | under a search that honours match_count, at most 20 rows come back |
| FindCandidatesTool.PanelAtMostMatchCount | src/app/chat/page.tsx:110-126 | if every completed search returned at most 20 rows, the page ranks at most 20 candidates |
| PostsApi.RequestingUserId | src/lib/supabase/posts.ts:9 | an absent or empty user id asks for the anonymous view |
| PostsApi.GetPosts | src/lib/supabase/posts.ts:6-19 | a database error is rethrown unchanged; a null result is the empty feed |
| PostsApi.ByAuthor | src/lib/supabase/posts.ts:27 | the filter keeps exactly the posts by the author |
| PostsApi.ByAuthorAppend | src/lib/supabase/posts.ts:27 | the filter distributes over concatenation, so feed order is kept |
| PostsApi.ByAuthorIdempotent | src/lib/supabase/posts.ts:27 | filtering twice by one author equals filtering once |
| PostsApi.GetPostsByUserId | src/lib/supabase/posts.ts:21-32 | it fails iff the feed fetch fails; otherwise it holds exactly the requester's view of the target author's posts, in feed order and with repeats kept (`ByAuthor`) |
| PostsApi.CreatePost | src/lib/supabase/posts.ts:34-63 | an insert error is rethrown; a created post carries the row's fields, zero likes, not liked, an empty author name and no picture |
| PostsApi.ToggleLike | src/lib/supabase/posts.ts:108-125 | a liked post is unliked and an unliked one liked; the call succeeds iff that write does, and it reports the new state |
| PostsStore.AddPost | src/lib/stores/postsStore.ts:28-31 | the new post goes on top and the rest of the feed is unchanged |
| PostsStore.Without | src/lib/stores/postsStore.ts:35 | the filter keeps exactly the posts with another id and shrinks by the number of occurrences |
| PostsStore.RemovePost | src/lib/stores/postsStore.ts:33-36 | afterwards no post carries the id and every other post stays |
| PostsStore.WithoutUnchanged | src/lib/stores/postsStore.ts:35 | removing an id that is not present changes nothing |
| PostsStore.RemoveUndoesAdd | src/lib/stores/postsStore.ts:28-36 | removing a freshly added post with a new id gives back the old state |
| PostsStore.RemovePostIdempotent | src/lib/stores/postsStore.ts:33-36 | removing twice equals removing once |
| PostsStore.UpdatePostLike | src/lib/stores/postsStore.ts:38-45 | only the posts with the id get the new flag and count; every other post and field is unchanged |
| PostsStore.UpdatePostLikeLastWins | src/lib/stores/postsStore.ts:38-45 | a later like update overrides an earlier one |
| PostsStore.SetPosts | src/lib/stores/postsStore.ts:26 | only the posts change |
| PostsStore.SetLoading | src/lib/stores/postsStore.ts:47 | only the loading flag changes |
| PostsStore.SetError | src/lib/stores/postsStore.ts:49 | only the error changes |
| PostsStore.Begin | src/lib/stores/postsStore.ts:53-64 | while a fetch or create is in flight, the store is loading with no error |
| PostsStore.FetchPosts | src/lib/stores/postsStore.ts:51-60 | success replaces the feed and clears the error; failure keeps the feed and sets "Failed to fetch posts"; loading ends either way |
| PostsStore.FetchPostsForgetsState | src/lib/stores/postsStore.ts:51-60 | a successful fetch does not depend on the state before it |
| PostsStore.CreatePost | src/lib/stores/postsStore.ts:62-82 | on success the API's post, given the author's name and picture, goes on top and is returned; on failure the error is set and rethrown |
| PostsStore.DeleteUndoesCreate | src/lib/stores/postsStore.ts:62-126 | deleting a post just created, whose id was new, gives back the feed it was added to |
| PostsStore.Find | src/lib/stores/postsStore.ts:85 | `find` returns a post iff one carries the id, and it is the first one |
| PostsStore.FindIndex | src/lib/stores/postsStore.ts:105 | `findIndex` is -1 iff no post carries the id, and otherwise gives the first index that does |
| PostsStore.ToggleLike | src/lib/stores/postsStore.ts:84-101 | a post not in the feed is left alone and no write is made; otherwise the write asked for is an unlike iff the post was liked |
| PostsStore.ToggleLikeSucceeds | src/lib/stores/postsStore.ts:88-95 | on success every post with that id shows the opposite flag and a count one step from the first match's; every other post, `isLoading` and `error` are unchanged |
| PostsStore.ToggleLikeRevertRestores | src/lib/stores/postsStore.ts:96-100 | on failure the feed is restored when the id is unique and the caller's flag matches the post |
| PostsStore.DeletePost | src/lib/stores/postsStore.ts:103-126 | the API's outcome is rethrown; success, or an id not in the feed, leaves the feed without that id |
| PostsStore.DeleteRevertRestores | src/lib/stores/postsStore.ts:111-123 | a failed delete of a uniquely held id restores the feed exactly, at the old index |
| PostsStore.OnlyOccurrence | src/lib/stores/postsStore.ts:105 | a unique id sits at the first index, with no copy before or after it |
| PostsStore.NoOccurrences | src/lib/stores/postsStore.ts:35 | an id occurs zero times iff no post carries it |
| PostsStore.OccurrencesAppend | src/lib/stores/postsStore.ts:35 | occurrences add up over concatenation |
| PostsStore.WithoutAppend | src/lib/stores/postsStore.ts:35 | removal distributes over concatenation |
| PostFeed.DisplayedPosts | src/components/posts/post-feed.tsx:31-33 | with a truthy author filter, exactly that author's posts are shown, in feed order (`ByAuthor`); otherwise every post is, unchanged |
| PostFeed.View | src/components/posts/post-feed.tsx:35-82 | the screens appear in priority order: skeletons during a first load, then the error with retry, then the empty notice, then the cards; loaded posts stay visible during a reload |
| PostFeed.FailedFetchShowsError | src/components/posts/post-feed.tsx:45-57 | a failed fetch shows "Failed to fetch posts" |
| PostFeed.HandleLike | src/components/posts/post-feed.tsx:21-24 | a signed-out click does nothing; otherwise the store toggles as the viewer |
| PostFeed.HandleDelete | src/components/posts/post-feed.tsx:26-29 | a signed-out click does nothing; otherwise the store deletes and its failure is passed on |
| PostFeed.DeletedPostNotShown | src/components/posts/post-feed.tsx:26-33 | after a successful delete the post is not displayed, whatever the filter |
| PostCard.IsOwner | src/components/posts/post-card.tsx:25 | a signed-out viewer owns no post; a signed-in viewer owns exactly the posts whose author id is theirs |
| PostCard.ShowsDelete | src/components/posts/post-card.tsx:65 | the delete button needs both the viewer's own post and a delete handler from the feed |
| PostCard.DeleteOnlyOnOwnPosts | src/components/posts/post-card.tsx:65 | across a feed, the posts with a delete button are exactly the viewer's posts (`ByAuthor`), and only when a handler is passed |
| PostCard.AvatarFallback | src/components/posts/post-card.tsx:26-46 | the fallback is one or two characters: the author's leading initials, or "?" |
| PostCard.AvatarFallbackUnknown | src/components/posts/post-card.tsx:26-46 | "?" shows exactly when there is no name, the name has no word, or its single word starts with "?" |
| PostCard.DisplayName | src/components/posts/post-card.tsx:58 | the name shown is never empty: the author name when non-empty, else "Anonymous" |
| PostCard.AvatarSource | src/components/posts/post-card.tsx:44 | an image is requested iff the picture URL is non-empty |
| PostCard.LikeClick | src/components/posts/post-card.tsx:91 | a like click reports the post and its current liked state |
| PostCard.ProfileHref | src/components/posts/post-card.tsx:42-55 | the avatar and the name link to the author's profile page |
| PostComposer.CharsRemaining | src/components/posts/post-composer.tsx:15-27 | the counter goes negative exactly when the text is longer than 256 characters |
| PostComposer.IsOverLimit | src/components/posts/post-composer.tsx:26-27 | the text is over the limit iff it is longer than 256 characters |
| PostComposer.IsEmpty | src/components/posts/post-composer.tsx:28 | the text counts as empty iff every character is whitespace |
| PostComposer.CanSubmit | src/components/posts/post-composer.tsx:31 | a submission goes ahead iff the text is not all whitespace, is at most 256 characters long and nothing is loading |
| PostComposer.SubmitsOnKey | src/components/posts/post-composer.tsx:43 | a key submits iff it is Enter with Command or Control held |
| PostComposer.CounterTone | src/components/posts/post-composer.tsx:83-87 | red over the limit, amber within 20 characters of it, muted otherwise; exactly one applies |
| PostComposer.HandleSubmit | src/components/posts/post-composer.tsx:30-40 | only a non-blank, in-limit text submits when not loading; it sends the trimmed text; success clears and closes the dialog, failure leaves it |
| PostComposer.SubmittedTextIsValid | src/components/posts/post-composer.tsx:30-34 | the submitted text is non-empty, at most 256 characters, and has no surrounding whitespace |
| PostComposer.HandleKeyDown | src/components/posts/post-composer.tsx:42-47 | Enter with Command or Control submits; every other key does nothing |
| FeedContainer.CheckAuthAndProfile | src/components/feed/feed-container.tsx:34-67 | the page redirects to /login unless there is a session and the profile lookup succeeds; the store then holds the lookup's answer, is checked, and loading ends |
| FeedContainer.HeaderOf | src/components/feed/feed-container.tsx:86-105 | the header shows the leading initials if any (else the user icon) and the picture if its URL is non-empty |
| FeedContainer.Render | src/components/feed/feed-container.tsx:74-84 | a spinner shows until the check completes, onboarding shows when there is no profile, and the feed shows otherwise |
| FeedContainer.RedirectKeepsSpinner | src/components/feed/feed-container.tsx:43-80 | a visitor sent to login never gets past the spinner |
| FeedContainer.SignedInWithProfileSeesFeed | src/components/feed/feed-container.tsx:49-93 | a user with a session and a profile sees the feed as themselves |
| FeedContainer.HandleCreatePost | src/components/feed/feed-container.tsx:69-72 | a post is created iff there is a user id and a profile, with the profile's name and picture (an empty picture becomes null) |
| ProfileStore.SetProfile | src/lib/stores/profileStore.ts:20 | only the profile changes |
| ProfileStore.SetLoading | src/lib/stores/profileStore.ts:21 | only the loading flag changes |
| ProfileStore.SetHasChecked | src/lib/stores/profileStore.ts:22 | only the checked flag changes |
| ProfileStore.ClearProfile | src/lib/stores/profileStore.ts:23 | clearing drops the profile and the checked flag, and keeps loading |
| ProfileStore.ClearProfileVersusSetNone | src/lib/stores/profileStore.ts:20-23 | clearing equals setting no profile and unchecking, and differs from `setProfile(null)` on a checked store |
| ProfileStore.ClearProfileResets | src/lib/stores/profileStore.ts:16-23 | clearing a store that is not loading gives the initial state |
| ChatStore.SetMessages | src/lib/stores/chatStore.ts:40 | only the messages change |
| ChatStore.AddMessage | src/lib/stores/chatStore.ts:42-45 | the message is appended and nothing else changes |
| ChatStore.Merge | src/lib/stores/chatStore.ts:50 | in an object spread, the update's properties win and the rest are kept |
| ChatStore.UpdateMessage | src/lib/stores/chatStore.ts:47-52 | exactly the messages whose id property is that string are merged with the update |
| ChatStore.UpdateMessageIdempotent | src/lib/stores/chatStore.ts:47-52 | applying an update that keeps the id twice equals applying it once |
| ChatStore.UpdateUnknownId | src/lib/stores/chatStore.ts:47-52 | updating an id no message carries changes nothing |
| ChatStore.SetContext | src/lib/stores/chatStore.ts:54-57 | the given keys replace or join the context and the other keys stay |
| ChatStore.SetContextTwice | src/lib/stores/chatStore.ts:54-57 | two context updates equal one update with both, the later winning |
| ChatStore.ClearChat | src/lib/stores/chatStore.ts:59-63 | messages and context are emptied and hydration is kept |
| ChatStore.ClearChatFromInitialFlags | src/lib/stores/chatStore.ts:36-63 | clearing yields the initial state iff the store was not yet hydrated |
| ChatStore.SetHasHydrated | src/lib/stores/chatStore.ts:65 | only the hydration flag changes |
| ChatStore.Rehydrate | src/lib/stores/chatStore.ts:70-72 | a stored copy replaces messages and context, and the store is hydrated either way; a storage error leaves it alone |
| ChatStore.PersistRehydrate | src/lib/stores/chatStore.ts:67-80 | a saved conversation comes back as saved, now hydrated |
| AuthStore.LoggedOut | src/lib/stores/authStore.ts:109-113 | signed out with no user, and hydration kept |
| AuthStore.SignUpRequestOf | src/lib/stores/authStore.ts:35-43 | the request carries the email, the password and the name as metadata |
| AuthStore.SignUp | src/lib/stores/authStore.ts:29-59 | it returns the user iff the service returns one; a service error is rethrown, and a missing user throws "No user returned from signup" |
| AuthStore.SignIn | src/lib/stores/authStore.ts:60-81 | an error is rethrown with the store unchanged; success marks the store signed in with the service's user |
| AuthStore.LogOut | src/lib/stores/authStore.ts:100-118 | success signs out; an error is rethrown with the store unchanged |
| AuthStore.CheckSession | src/lib/stores/authStore.ts:119-160 | it returns true iff the lookup succeeds with a session user; the store is signed in exactly then, with that user |
| AuthStore.CheckSessionConsistent | src/lib/stores/authStore.ts:119-160 | after a session check, "signed in" and "holds a user" agree, whatever the state before |
| AuthStore.ActionsPreserveConsistency | src/lib/stores/authStore.ts:60-118 | sign-in with a user, sign-out and failed calls keep "signed in" and "holds a user" in agreement |
| AuthStore.SignInWithoutUser | src/lib/stores/authStore.ts:72-76 | a sign-in success carrying no user leaves the store signed in with no user |
| AuthStore.SetHasHydrated | src/lib/stores/authStore.ts:161-168 | only the hydration flag changes |
| AuthStore.Rehydrate | src/lib/stores/authStore.ts:173-180 | after a successful read the store is hydrated, consistent, and signed in iff the session check finds a user |
| AuthCallback.FirstSuccess | src/app/auth/callback/page.tsx:23-39 | it gives the first authenticated attempt within the bound, or none |
| AuthCallback.HandleCallback | src/app/auth/callback/page.tsx:14-61 | success iff one of the first three checks authenticates; the page checks until then (or three times), waits 1000 ms before each check, and goes home on success or to login on failure |
| AuthRedirect.GuestTarget | src/lib/hooks/useAuthRedirect.ts:37 | a guest-only page sends a signed-in user to the redirect target when it is non-empty, and otherwise to `/` |
| AuthRedirect.CheckAndRedirect | src/lib/hooks/useAuthRedirect.ts:17-48 | nothing happens before hydration; afterwards checking ends, and the navigation follows requireAuth/requireGuest, with a failed check redirecting only protected pages |
| AuthRedirect.RedirectsMatchIntent | src/lib/hooks/useAuthRedirect.ts:31-44 | a protected page never keeps an unauthenticated visitor, and a redirect from a guest page happens only for a signed-in user |
| AuthRedirect.NoOptionsNoRedirect | src/lib/hooks/useAuthRedirect.ts:17 | without options the hook never navigates |
| ProfileOnboarding.InitialForm | src/components/profile/profile-onboarding.tsx:36-45 | the form has the eight fields, prefilled with the user's name and email |
| ProfileOnboarding.SetField | src/components/profile/profile-onboarding.tsx:53-69 | a change sets one field and leaves the others |
| ProfileOnboarding.DateOfBirth | src/components/profile/profile-onboarding.tsx:353-355 | the stored date is the prefix of the ISO timestamp before its first "T", or empty when no date is picked |
| ProfileOnboarding.SplitHead | src/components/profile/profile-onboarding.tsx:354 | the first piece of a split is a prefix free of the separator, followed by it when shorter |
| ProfileOnboarding.SelectDate | src/components/profile/profile-onboarding.tsx:349-358 | picking a date stores its day and closes the picker |
| ProfileOnboarding.FileUrl | src/components/profile/profile-onboarding.tsx:99 | the picture URL points at the uploaded file in the profile-picture bucket |
| ProfileOnboarding.HandleImageUpload | src/components/profile/profile-onboarding.tsx:71-114 | a non-image or a picture over 5 MiB only sets its message; an accepted upload sets the picture field and the preview; a failed one clears the preview and sets the upload message |
| ProfileOnboarding.RejectedPictureKeepsForm | src/components/profile/profile-onboarding.tsx:75-83 | only an accepted, successfully uploaded picture can change the form |
| ProfileOnboarding.HandleSubmit | src/components/profile/profile-onboarding.tsx:120-147 | a request is sent iff the six required fields are filled; the profile is stored iff the service succeeds; otherwise the matching message is shown |
| ProfileOnboarding.OptionalFieldsDoNotBlock | src/components/profile/profile-onboarding.tsx:126 | bio and picture are optional: clearing them never blocks a complete form |
| ProfileOnboarding.InitialFormIncomplete | src/components/profile/profile-onboarding.tsx:36-126 | a fresh form cannot be submitted |
| ParseResume.OptionalString | src/app/api/parse-resume/route.ts:15 | an optional string property is absent (none), a string (kept), or anything else (rejected) |
| ParseResume.DefaultString | src/app/api/parse-resume/route.ts:11 | a defaulted string property reads as "" when absent and rejects non-strings, null included |
| ParseResume.DefaultStrings | src/app/api/parse-resume/route.ts:16 | a defaulted string array reads as [] when absent and rejects anything but an array of strings |
| ParseResume.ParseList | src/app/api/parse-resume/route.ts:65-70 | an array validates iff every element does, element by element |
| ParseResume.DefaultList | src/app/api/parse-resume/route.ts:65-70 | a defaulted array of records reads as [] when absent |
| ParseResume.ParseWorkExperience | src/app/api/parse-resume/route.ts:10-17 | a non-object is rejected; an accepted entry has every default applied |
| ParseResume.ParseEducation | src/app/api/parse-resume/route.ts:19-26 | a non-object is rejected; an accepted entry has every default applied |
| ParseResume.ParseSkill | src/app/api/parse-resume/route.ts:28-30 | an accepted skill always has a name |
| ParseResume.ParseLanguage | src/app/api/parse-resume/route.ts:32-35 | an accepted language always has a language and a level |
| ParseResume.ParseCertification | src/app/api/parse-resume/route.ts:37-43 | a non-object is rejected; an accepted entry has every default applied |
| ParseResume.ParseProject | src/app/api/parse-resume/route.ts:45-52 | a non-object is rejected; an accepted entry has every default applied |
| ParseResume.ParsePersonalInfo | src/app/api/parse-resume/route.ts:55-63 | the seven optional strings are read, and a non-object is rejected |
| ParseResume.OptionalPersonalInfo | src/app/api/parse-resume/route.ts:55-63 | the personal-info object may be omitted |
| ParseResume.ParseParsedResume | src/app/api/parse-resume/route.ts:54-71 | an accepted résumé has every default applied at every level |
| ParseResume.Each | src/app/api/parse-resume/route.ts:65-70 | a list is defaulted, or encoded, element by element: same length, and each entry the image of the entry in the same position |
| ParseResume.Props | src/app/api/parse-resume/route.ts:54-71 | an encoded object holds exactly the present properties |
| ParseResume.ReadString | src/app/api/parse-resume/route.ts:11-15 | reading an encoded string property returns its value |
| ParseResume.ReadStrings | src/app/api/parse-resume/route.ts:16 | reading an encoded string array returns its value |
| ParseResume.WorkRoundTrip | src/app/api/parse-resume/route.ts:10-17 | validating an encoded work entry gives the entry with its defaults applied |
| ParseResume.EducationRoundTrip | src/app/api/parse-resume/route.ts:19-26 | validating an encoded education entry gives the entry with its defaults applied |
| ParseResume.SkillRoundTrip | src/app/api/parse-resume/route.ts:28-30 | validating an encoded skill gives the skill with its default applied |
| ParseResume.LanguageRoundTrip | src/app/api/parse-resume/route.ts:32-35 | validating an encoded language gives the language with its defaults applied |
| ParseResume.CertificationRoundTrip | src/app/api/parse-resume/route.ts:37-43 | validating an encoded certification gives it with its defaults applied |
| ParseResume.ProjectRoundTrip | src/app/api/parse-resume/route.ts:45-52 | validating an encoded project gives it with its defaults applied |
| ParseResume.PersonalInfoRoundTrip | src/app/api/parse-resume/route.ts:55-63 | validating encoded personal info gives it back unchanged |
| ParseResume.ListRoundTrip | src/app/api/parse-resume/route.ts:65-70 | an encoded list validates to the entries with their defaults applied, whenever each entry does |
| ParseResume.ReadList | src/app/api/parse-resume/route.ts:65-70 | reading an encoded list property gives the defaulted entries, and [] when absent |
| ParseResume.ParseFromParts | src/app/api/parse-resume/route.ts:54-71 | a résumé object validates to the record built from its eight property readings |
| ParseResume.ResumeList | src/app/api/parse-resume/route.ts:65-70 | each list property of an encoded résumé reads back with defaults applied |
| ParseResume.ResumePersonalInfo | src/app/api/parse-resume/route.ts:55-64 | the personal info of an encoded résumé reads back unchanged, absent or present |
| ParseResume.ResumeSummary | src/app/api/parse-resume/route.ts:55-64 | the summary of an encoded résumé reads back unchanged, absent or present |
| ParseResume.ResumeExperiences | src/app/api/parse-resume/route.ts:65 | the experiences read back with defaults applied |
| ParseResume.ResumeEducation | src/app/api/parse-resume/route.ts:66 | the education entries read back with defaults applied |
| ParseResume.ResumeSkills | src/app/api/parse-resume/route.ts:67 | the skills read back with defaults applied |
| ParseResume.ResumeCertifications | src/app/api/parse-resume/route.ts:68 | the certifications read back with defaults applied |
| ParseResume.ResumeProjects | src/app/api/parse-resume/route.ts:69 | the projects read back with defaults applied |
| ParseResume.ResumeLanguages | src/app/api/parse-resume/route.ts:70 | the languages read back with defaults applied |
| ParseResume.ResumeRoundTrip | src/app/api/parse-resume/route.ts:54-71 | validating an encoded résumé gives it with every default applied; defaults are the only change |
| ParseResume.EmptyAnswerDefaults | src/app/api/parse-resume/route.ts:64-71 | an empty answer validates to six empty lists and nothing else |
| ParseResume.NullIsNotMissing | src/app/api/parse-resume/route.ts:11-15 | a null property is rejected, not defaulted |
| ParseResume.ResumeUrl | src/app/api/parse-resume/route.ts:78-80 | destructuring a null body throws; other bodies give the property if present |
| ParseResume.Thrown | src/app/api/parse-resume/route.ts:158-172 | the catch-all answer is 500 "Failed to parse resume" with the error's message |
| ParseResume.Post | src/app/api/parse-resume/route.ts:74-174 | only 200, 400 and 500 occur, with 200 iff the résumé is returned; a body error becomes the catch-all; the checks apply in order: URL present, then API key, then URL format |
| ParseResume.SucceedsIffChecksPass | src/app/api/parse-resume/route.ts:82-156 | the request succeeds iff every check passes and the model's answer validates, and the data is then exactly the validated answer |
| ParseResume.FailedCheckSkipsModel | src/app/api/parse-resume/route.ts:82-108 | when a check fails, the model is never consulted, and the answer is a plain 400 or 500 message |
| ParseResume.ModelErrorIsCaught | src/app/api/parse-resume/route.ts:111-172 | a model error reaches the client as the catch-all 500 with its message |
| EmbeddingsWebhook.Authorized | src/app/api/webhooks/generate-embeddings/route.ts:9-10 | a request is authorized only when a secret is configured, and then iff the header is present and equal to it |
| EmbeddingsWebhook.NoSecretRejectsAll | src/app/api/webhooks/generate-embeddings/route.ts:9-11 | without a configured secret every request is unauthorized, even one without the header |
| EmbeddingsWebhook.SkillNames | src/app/api/webhooks/generate-embeddings/route.ts:49-51 | the skill list holds only non-empty names and is no longer than the skills |
| EmbeddingsWebhook.SkillNamesAppend | src/app/api/webhooks/generate-embeddings/route.ts:49-51 | the names keep the order of the skills they come from |
| EmbeddingsWebhook.SkillNamesMembership | src/app/api/webhooks/generate-embeddings/route.ts:49-51 | a string is listed iff it is non-empty and is some skill's name |
| EmbeddingsWebhook.SkillList | src/app/api/webhooks/generate-embeddings/route.ts:48-51 | `|| []` applies only when the résumé or its skills are missing |
| EmbeddingsWebhook.TotalYoe | src/app/api/webhooks/generate-embeddings/route.ts:47 | the stored experience is the record's value, with 0 for a missing one |
| EmbeddingsWebhook.RowOf | src/app/api/webhooks/generate-embeddings/route.ts:43-53 | the row is keyed by the record's user and carries its experience and skill names |
| EmbeddingsWebhook.Handle | src/app/api/webhooks/generate-embeddings/route.ts:8-60 | a bad secret gives 401 with nothing written; every reply is 401 or 200; the index changes only on success, and then only at the record's user; every row stays keyed by its own user |
| EmbeddingsWebhook.UnauthorizedReadsNothing | src/app/api/webhooks/generate-embeddings/route.ts:9-11 | a rejected request's answer depends on neither the body, the model nor the database |
| EmbeddingsWebhook.SuccessUpsertsOneRow | src/app/api/webhooks/generate-embeddings/route.ts:42-59 | on success the user's row is replaced and every other row is left alone |
| EmbeddingsWebhook.RepeatReplacesRow | src/app/api/webhooks/generate-embeddings/route.ts:42-55 | running twice for one user leaves one row for them: the later one |
| EmbeddingsWebhook.UpsertErrorStillSucceeds | src/app/api/webhooks/generate-embeddings/route.ts:57-59 | a failed upsert is only logged: the reply is still 200 and the index is unchanged |
| Utils.GetInitials | src/lib/utils.ts:10-16 | the initials are at most two characters |
| Utils.GetInitialsOfWords | src/lib/utils.ts:10-16 | the initials are the upper-cased first letters of the last two non-empty words |
| Utils.ConcatOfInitials | src/lib/utils.ts:13-16 | joining the initials of non-empty words gives one upper-cased letter per word |
| Utils.GetInitialsEmpty | src/lib/utils.ts:10-16 | a name has no initials iff it is made only of spaces |
| Utils.SpacesHaveNoInitials | src/lib/utils.ts:10-16 | a name made only of spaces yields no initials |
| Utils.WordHasInitials | src/lib/utils.ts:10-16 | a name with any character other than a space yields at least one initial |
| Utils.LeadingInitials | src/components/posts/post-card.tsx:26-31 | the card and header initials are at most two characters |
| Utils.LeadingInitialsOfWords | src/components/posts/post-card.tsx:26-31 | the card and header initials are the upper-cased first letters of the first two words |
| Utils.FirstCharsSkipEmpty | src/components/posts/post-card.tsx:27-29 | `n[0]` of an empty piece contributes nothing, so empty pieces can be dropped |
| Utils.InitialsAgreeUpToTwoWords | src/lib/utils.ts:10-16 | for names of at most two words, the shared helper and the card agree |
| Utils.ThreeWordNames | src/lib/utils.ts:16 | for "a b c", the helper gives the initials of b and c and the card those of a and b |
| Utils.InitialsOfLongNames | src/lib/utils.ts:16 | from three words on, the helper takes the last two words and the card the first two |
| Utils.LastTwoInitials | src/lib/utils.ts:16 | for three or more words, the helper's initials are those of the last two words |
| Utils.FirstTwoInitials | src/components/posts/post-card.tsx:26-31 | for three or more words, the card's initials are those of the first two words |
| Browser.DetectBrowser | src/lib/hooks/useBrowser.ts:27-52 | Firefox iff the lowered agent says firefox; Safari iff it says safari, not firefox, and no Chrome; Chromium only on a Chromium keyword; Unknown only without any |
| Browser.DetectionIgnoresCase | src/lib/hooks/useBrowser.ts:28 | classification is the same for the upper- and lower-cased agent |
| Browser.ChromeIsChromium | src/lib/hooks/useBrowser.ts:36-48 | an agent naming Chrome and not Firefox is Chromium, even though Chrome's agent says Safari |
| Browser.DetectMobile | src/lib/hooks/useBrowser.ts:54-64 | a window narrower than 768 pixels is mobile; otherwise the device is mobile iff the lower-cased user agent contains one of mobile, android, iphone, ipad, ipod |
| Browser.Detect | src/lib/hooks/useBrowser.ts:66-76 | the flags agree with the detected family, and desktop is the opposite of mobile |
| Browser.FlagsExclusive | src/lib/hooks/useBrowser.ts:17-76 | in every state the hook returns, at most one family flag is set and exactly one of desktop and mobile holds |
| Collapsible.InitiallyOpen | src/components/ui/collapsible.tsx:21-26 | the section starts open iff not asked to start closed and not empty |
| Collapsible.DefaultsStartOpen | src/components/ui/collapsible.tsx:21-26 | with every prop omitted, the section starts open |
| Collapsible.Toggle | src/components/ui/collapsible.tsx:32 | a click flips the state |
| Collapsible.Render | src/components/ui/collapsible.tsx:47-70 | the body is hidden when closed, the placeholder when open and empty, and the children otherwise |
| Collapsible.EmptySectionOpensOntoPlaceholder | src/components/ui/collapsible.tsx:26-68 | an empty section starts closed and opens onto the placeholder |
| AgentGreeting.Greeting | src/components/agent-greeting.tsx:3-13 | morning before 12, afternoon from 12 to before 17, and evening from 17 on |
| AgentGreeting.Heading | src/components/agent-greeting.tsx:21 | the heading is the time-based greeting followed by ", Ready to hire?"; it never starts with the "Greetings, " fallback |

## Left out

- Network, database, auth service, file storage, language model, embedding model and clock. Each is a parameter holding its response. Prompts, model names, provider options and logging are not modelled.
- Concurrency and timers. Each asynchronous action is modelled as if it ran to completion alone. Interleavings such as a stale closure over `formData` in the upload handler, or two fetches racing, are out. The callback's delays appear only as the list of waits.
- Persistence to local storage is the `Persisted` record read back through a `Result`. JSON serialisation of functions, and `undefined`-valued properties in the chat store, are out.
- JavaScript numbers are `real` (scores, years, embeddings) or `int` (like counts, sizes, hours). NaN and Infinity are out, so `TotalYoe`'s `|| 0` is modelled as if NaN never arrives.
- String lengths count characters, not UTF-16 code units. Case mapping is ASCII only. Whitespace for `trim` is a fixed set of characters.
- React rendering, styling, icons, the `cn` helper, the similarity badge (`Math.round` of a float), the backdrop and close button of the panel, and the collapsible's title, icon and badge are out.
- The schema validator's error message text is out: a rejection is one fixed error. So is the `type` property of the résumé endpoint's 500 body, which names the error's constructor.
- `new URL(...)` is the parameter `validUrl` of `ParseResume.Post`.
- The candidate-search tool's schema is the query-extraction schema, defined once as `QueryInput`. The two source schemas differ only in description text. `required_skills || []` never fires after validation, since the array is required.
- The `signInWithGithub` action of the auth store is out: it only starts a browser redirect.
- `likePost` also sends a `created_at` timestamp. The modelled `InsertLike` write omits it, and the `deletePost` API call appears only as its outcome.
- The `candidate-card`, `evervault-card`, profile page, sidebar and tab components, the chat API route and system prompt, and the service wrappers for profiles are not part of this model. Only the records they exchange are.
- ProfileOnboarding.HandleSubmit: the owner id is a parameter rather than `user?.$id`. The auth store holds a user record whose id field the onboarding form reads under another name, so the value is left to the caller.
- FindCandidatesTool.PanelAtMostMatchCount: the bound of 20 holds only if the database function honours `match_count`, which the model states as a precondition. The database function is not part of this model.
- ChatPage.Rank: the score order is proved for `match_score ?? 0` on `real` values. The comparator's float subtraction (rounding, NaN) is not modelled.
- AuthStore.SignIn: a success whose response carries no user still marks the store signed in, as the source does (`AuthStore.SignInWithoutUser`). So `ActionsPreserveConsistency` assumes the service returns a user.
- Utils.GetInitials and Utils.LeadingInitials: the shared helper keeps the last two words' initials, and the card and header keep the first two. Both are modelled as written. `InitialsOfLongNames` states where they differ.
- ToolStatus.ConfigFor: only the table's own keys are looked up. In the source, `toolConfig[toolName]` also finds members inherited from `Object.prototype`, such as "constructor" or "toString", and uses that truthy value instead of the default. Tool names are chosen by the agent's tool set, so such names do not arise.
- ChatStore.UpdateMessage: a `null` entry in the message list is kept unchanged. In the source, reading `m.id` on it throws a TypeError and the update is lost. Messages are always objects created by the chat hook, so the model does not carry the error.
