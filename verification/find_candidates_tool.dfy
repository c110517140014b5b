/** The candidate-search tool (`findCandidatesTool`): embed the semantic
    query, then call the `search_candidates` database function with the
    embedding, the minimum experience, the required skills and a fixed match
    count of 20; a failure of either call is rethrown.

    The embedding model and the database function are parameters: the model
    says what is asked of them, not what they compute.
 */
module FindCandidatesTool {
  import opened Wrappers
  import opened CandidatesArtifact
  import opened ExtractQueryTool
  import ChatPage

  const MatchCount: nat := 20
  const EmbeddingModel := "mistral-embed"
  const SearchFunction := "search_candidates"

  /** The arguments of the `search_candidates` call. */
  datatype SearchRequest = SearchRequest(
    query_embedding: seq<real>,
    min_yoe: real,
    required_skills: seq<string>,
    match_count: nat)

  /** The call arguments for an input and its embedding. The schema makes the
      skills a required array, and an array is always truthy, so the
      `required_skills || []` fallback never applies. */
  function Request(input: QueryInput, embedding: seq<real>): (req: SearchRequest)
    ensures req.query_embedding == embedding
    ensures req.min_yoe == input.min_yoe
    ensures req.required_skills == input.required_skills
    ensures req.match_count == MatchCount
  {
    SearchRequest(embedding, input.min_yoe, input.required_skills, 20)
  }

  /** `execute`. `embed` stands for the embedding call on the query text and
      `search` for the database function. */
  function Execute(
    input: QueryInput,
    embed: string -> Result<seq<real>>,
    search: SearchRequest -> Result<seq<Candidate>>): (r: Result<seq<Candidate>>)
    ensures embed(input.semantic_query).Err? ==> r == Err(embed(input.semantic_query).error)
    ensures embed(input.semantic_query).Ok? ==>
      r == search(Request(input, embed(input.semantic_query).value))
  {
    var embedding :- embed(input.semantic_query);
    search(Request(input, embedding))
  }

  /** The search sees exactly the query text's embedding and the criteria,
      so the location has no effect on the result. */
  lemma ExecuteIgnoresLocation(
    a: QueryInput, b: QueryInput,
    embed: string -> Result<seq<real>>,
    search: SearchRequest -> Result<seq<Candidate>>)
    requires a.(location := None) == b.(location := None)
    ensures Execute(a, embed, search) == Execute(b, embed, search)
  {
  }

  /** Searching runs on the output of the extraction tool without loss. */
  lemma ExtractThenFind(
    input: QueryInput,
    embed: string -> Result<seq<real>>,
    search: SearchRequest -> Result<seq<Candidate>>)
    ensures var q := ExtractQueryTool.Execute(input);
      Execute(QueryInput(q.semantic_query, q.min_yoe, q.required_skills, None), embed, search)
      == Execute(input, embed, search)
  {
  }

  /** A database function that honours `match_count`. */
  ghost predicate HonoursMatchCount(search: SearchRequest -> Result<seq<Candidate>>) {
    forall req :: search(req).Ok? ==> |search(req).value| <= req.match_count
  }

  /** Under such a database function the tool returns at most 20 rows. */
  lemma ExecuteAtMostMatchCount(
    input: QueryInput,
    embed: string -> Result<seq<real>>,
    search: SearchRequest -> Result<seq<Candidate>>)
    requires HonoursMatchCount(search)
    ensures Execute(input, embed, search).Ok? ==> |Execute(input, embed, search).value| <= MatchCount
  {
    if embed(input.semantic_query).Ok? {
      var req := Request(input, embed(input.semantic_query).value);
      assert search(req).Ok? ==> |search(req).value| <= req.match_count;
    }
  }

  /** So the chat page never ranks more than 20 candidates when every
      completed search in the conversation came from this tool. */
  lemma {:induction false} PanelAtMostMatchCount(messages: seq<ChatPage.UIMessage>)
    requires forall p :: p in ChatPage.AssistantParts(messages) && ChatPage.IsRowsOutput(p, ChatPage.FindPartKind) ==>
      |ChatPage.RowsOf(p)| <= MatchCount
    ensures |ChatPage.Candidates(messages)| <= MatchCount
  {
    ChatPage.LatestFoundIsAnOutput(ChatPage.AssistantParts(messages));
  }
}
