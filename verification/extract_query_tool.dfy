/** The query-extraction tool (`extractQueryTool`): its input schema, checked
    on the JSON arguments the language model supplies, and its `execute`
    step, which hands back the search criteria without the location.
 */
module ExtractQueryTool {
  import opened Wrappers
  import opened Json

  /** The validated tool input. The candidate-search tool uses the same
      shape. */
  datatype QueryInput = QueryInput(
    semantic_query: string,
    min_yoe: real,
    required_skills: seq<string>,
    location: Option<string>)

  /** What `execute` returns: the criteria the search needs. */
  datatype Query = Query(semantic_query: string, min_yoe: real, required_skills: seq<string>)

  /** The schema's rejection; the validator's message text is not modelled. */
  const InvalidInput := Error("invalid tool input")

  /** The object schema: a string query, a number, an array of strings and an
      optional string location (absent, not `null`). Extra keys are dropped. */
  function ParseInput(j: Json): (r: Result<QueryInput>)
    ensures r.Err? ==> r.error == InvalidInput
    ensures r.Ok? ==>
      && j.Obj?
      && "semantic_query" in j.fields && j.fields["semantic_query"] == Str(r.value.semantic_query)
      && "min_yoe" in j.fields && j.fields["min_yoe"] == Num(r.value.min_yoe)
      && "required_skills" in j.fields && j.fields["required_skills"] == Arr(StringsToJson(r.value.required_skills))
      && (r.value.location.None? <==> "location" !in j.fields)
      && (r.value.location.Some? ==> j.fields["location"] == Str(r.value.location.value))
  {
    if !j.Obj? then Err(InvalidInput)
    else
      var f := j.fields;
      if "semantic_query" !in f || !f["semantic_query"].Str? then Err(InvalidInput)
      else if "min_yoe" !in f || !f["min_yoe"].Num? then Err(InvalidInput)
      else if "required_skills" !in f || !f["required_skills"].Arr? then Err(InvalidInput)
      else if StringList(f["required_skills"].items).None? then Err(InvalidInput)
      else if "location" in f && !f["location"].Str? then Err(InvalidInput)
      else
        var skills := StringList(f["required_skills"].items).value;
        assert StringsToJson(skills) == f["required_skills"].items;
        Ok(QueryInput(
          f["semantic_query"].s,
          f["min_yoe"].n,
          skills,
          if "location" in f then Some(f["location"].s) else None))
  }

  /** The arguments as the model would send them. */
  function EncodeInput(q: QueryInput): (j: Json)
    ensures j.Obj? && "location" in j.fields <==> q.location.Some?
  {
    var base := map[
      "semantic_query" := Str(q.semantic_query),
      "min_yoe" := Num(q.min_yoe),
      "required_skills" := Arr(StringsToJson(q.required_skills))];
    if q.location.Some? then Obj(base["location" := Str(q.location.value)]) else Obj(base)
  }

  /** Every well-typed input survives encoding and validation unchanged. */
  lemma ParseEncode(q: QueryInput)
    ensures ParseInput(EncodeInput(q)) == Ok(q)
  {
    StringListOfStrings(q.required_skills);
  }

  /** A `null` location is not an omitted one: the schema rejects it. */
  lemma NullLocationRejected(j: Json)
    requires j.Obj? && "location" in j.fields && j.fields["location"] == Null
    ensures ParseInput(j).Err?
  {
  }

  /** `execute`: the query, minimum experience and skills, unchanged; the
      location is accepted by the schema but not passed on. */
  function Execute(input: QueryInput): (q: Query)
    ensures q.semantic_query == input.semantic_query
    ensures q.min_yoe == input.min_yoe
    ensures q.required_skills == input.required_skills
  {
    Query(input.semantic_query, input.min_yoe, input.required_skills)
  }

  /** Two inputs give the same result iff they differ at most in location. */
  lemma ExecuteIgnoresLocation(a: QueryInput, b: QueryInput)
    ensures Execute(a) == Execute(b) <==> a.(location := None) == b.(location := None)
  {
  }

  /** The query text is passed through whatever its length: the 300-character
      limit in the schema's description is advice to the model, not a check. */
  lemma QueryLengthUnchecked(input: QueryInput)
    requires |input.semantic_query| > 300
    ensures ParseInput(EncodeInput(input)).Ok?
    ensures |Execute(input).semantic_query| > 300
  {
    ParseEncode(input);
  }
}
