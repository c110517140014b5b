/** The profile-embedding webhook (`POST /api/webhooks/generate-embeddings`).

    The database calls it with a newly written profile row. After checking
    the shared secret header, the handler asks the language model for a
    short technical summary of the parsed résumé, embeds the summary, and
    upserts one row per user into the candidate search index. A failed
    upsert is only logged.

    The summary, the embedding and the clock are parameters; the search
    index is a map from user id to row, which is what an upsert with
    `onConflict: "user_id"` maintains.
 */
module EmbeddingsWebhook {
  import opened Wrappers
  import opened Interfaces

  /** A row of the candidate search index. */
  datatype IndexRow = IndexRow(
    user_id: string,
    summary_text: string,
    embedding: seq<real>,
    total_yoe: real,
    skill_list: seq<string>,
    updated_at: string)

  type Index = map<string, IndexRow>

  /** The handler's answer: a plain-text reply, or an error it does not
      catch (which the framework turns into a server error). */
  datatype Response = Reply(status: nat, text: string) | Unhandled(error: Error)

  const Unauthorized := Reply(401, "Unauthorized")
  const Success := Reply(200, "Success")

  /** `headerSecret !== process.env.WEBHOOK_SECRET` rejects. A missing header
      is `null` and a missing variable is `undefined`, and strict inequality
      tells them apart, so a request is accepted only when both are present
      and equal. */
  function Authorized(header: Option<string>, secret: Option<string>): (ok: bool)
    ensures ok ==> secret.Some?
    ensures secret.Some? ==> (ok <==> header == secret)
  {
    header.Some? && secret.Some? && header.value == secret.value
  }

  /** With no secret configured, no request gets through, not even one
      without the header. */
  lemma NoSecretRejectsAll(header: Option<string>)
    ensures !Authorized(header, None)
  {
  }

  /** `skills.map(s => s.name).filter(Boolean)`: the names, in order, with
      missing and empty ones dropped. */
  function SkillNames(skills: seq<Skill>): (names: seq<string>)
    ensures |names| <= |skills|
    ensures forall i :: 0 <= i < |names| ==> |names[i]| > 0
    decreases |skills|
  {
    if |skills| == 0 then []
    else
      var rest := SkillNames(skills[1..]);
      if skills[0].name.Some? && |skills[0].name.value| > 0 then [skills[0].name.value] + rest
      else rest
  }

  /** Filtering distributes over concatenation, so the names keep the
      order of the skills they come from. */
  lemma {:induction false} SkillNamesAppend(a: seq<Skill>, b: seq<Skill>)
    ensures SkillNames(a + b) == SkillNames(a) + SkillNames(b)
    decreases |a|
  {
    if |a| > 0 {
      assert (a + b)[1..] == a[1..] + b;
      SkillNamesAppend(a[1..], b);
    } else {
      assert a + b == b;
    }
  }

  /** A string is listed iff it is non-empty and some skill carries it as
      its name. */
  lemma {:induction false} SkillNamesMembership(skills: seq<Skill>, s: string)
    ensures s in SkillNames(skills) <==>
      |s| > 0 && exists i :: 0 <= i < |skills| && skills[i].name == Some(s)
    decreases |skills|
  {
    if |skills| > 0 {
      SkillNamesMembership(skills[1..], s);
      if |s| > 0 && exists i :: 0 <= i < |skills| && skills[i].name == Some(s) {
        var i :| 0 <= i < |skills| && skills[i].name == Some(s);
        if i > 0 {
          assert skills[1..][i - 1] == skills[i];
        }
      }
      if s in SkillNames(skills[1..]) {
        var i :| 0 <= i < |skills[1..]| && skills[1..][i].name == Some(s);
        assert skills[i + 1].name == Some(s);
      }
    }
  }

  /** `record.parsed_resume?.skills?.map(...).filter(Boolean) || []`: the
      `|| []` only fires when the résumé or its skills are missing, since
      an array, even an empty one, is truthy. */
  function SkillList(resume: Option<ParsedResume>): (list: seq<string>)
    ensures resume.None? || resume.value.skills.None? ==> list == []
    ensures resume.Some? && resume.value.skills.Some? ==> list == SkillNames(resume.value.skills.value)
  {
    if resume.Some? && resume.value.skills.Some? then SkillNames(resume.value.skills.value)
    else []
  }

  /** `record.total_yoe || 0`. On numbers, `|| 0` only replaces values that
      are already 0 (NaN aside), so this is the value with 0 for a missing
      one. */
  function TotalYoe(v: Option<real>): (yoe: real)
    ensures yoe == v.GetOr(0.0)
  {
    if v.Some? && v.value != 0.0 then v.value else 0.0
  }

  /** The row written for a profile. */
  function RowOf(record: Profile, summary: string, embedding: seq<real>, now: string): (row: IndexRow)
    ensures row.user_id == record.user_id
    ensures row.total_yoe == record.total_yoe.GetOr(0.0)
    ensures row.skill_list == SkillList(record.parsed_resume)
  {
    IndexRow(record.user_id, summary, embedding, TotalYoe(record.total_yoe),
             SkillList(record.parsed_resume), now)
  }

  /** Every row is stored under its own user id. */
  predicate Keyed(index: Index) {
    forall u :: u in index ==> index[u].user_id == u
  }

  /** `POST`. `record` is the payload's profile row (an error when the body
      is not JSON or has no record), `summarize` and `embed` are the
      language-model calls, `upsert` the database's answer and `now` the
      timestamp. Returns the response and the index afterwards. */
  function Handle(
    header: Option<string>, secret: Option<string>,
    record: Result<Profile>,
    summarize: Option<ParsedResume> -> Result<string>,
    embed: string -> Result<seq<real>>,
    now: string, upsert: Outcome, index: Index): (out: (Response, Index))
    ensures !Authorized(header, secret) ==> out == (Unauthorized, index)
    ensures out.0.Reply? ==> out.0 == Unauthorized || out.0 == Success
    ensures out.0 != Success ==> out.1 == index
    ensures out.1 != index ==> record.Ok? && out.1.Keys == index.Keys + {record.value.user_id}
    ensures Keyed(index) ==> Keyed(out.1)
  {
    if !Authorized(header, secret) then (Unauthorized, index)
    else
      match record
      case Err(e) => (Unhandled(e), index)
      case Ok(profile) =>
        match summarize(profile.parsed_resume)
        case Err(e) => (Unhandled(e), index)
        case Ok(summary) =>
          match embed(summary)
          case Err(e) => (Unhandled(e), index)
          case Ok(embedding) =>
            if upsert.Fail? then (Success, index)
            else (Success, index[profile.user_id := RowOf(profile, summary, embedding, now)])
  }

  /** A request with the wrong secret is turned away before anything is
      read, computed or written: the response does not depend on the body,
      the model or the database. */
  lemma UnauthorizedReadsNothing(
    header: Option<string>, secret: Option<string>,
    record: Result<Profile>, summarize: Option<ParsedResume> -> Result<string>,
    embed: string -> Result<seq<real>>, now: string, upsert: Outcome,
    record': Result<Profile>, summarize': Option<ParsedResume> -> Result<string>,
    embed': string -> Result<seq<real>>, now': string, upsert': Outcome, index: Index)
    requires !Authorized(header, secret)
    ensures Handle(header, secret, record, summarize, embed, now, upsert, index)
         == Handle(header, secret, record', summarize', embed', now', upsert', index)
  {
  }

  /** When everything succeeds, the user's row is replaced by the new one
      and every other row is left alone. */
  lemma SuccessUpsertsOneRow(
    header: Option<string>, secret: Option<string>, profile: Profile,
    summarize: Option<ParsedResume> -> Result<string>,
    embed: string -> Result<seq<real>>, now: string, index: Index)
    requires Authorized(header, secret)
    requires summarize(profile.parsed_resume).Ok?
    requires embed(summarize(profile.parsed_resume).value).Ok?
    ensures var out := Handle(header, secret, Ok(profile), summarize, embed, now, Pass, index);
      var summary := summarize(profile.parsed_resume).value;
      && out.0 == Success
      && out.1 == index[profile.user_id := RowOf(profile, summary, embed(summary).value, now)]
      && profile.user_id in out.1
      && forall u :: u in index && u != profile.user_id ==> u in out.1 && out.1[u] == index[u]
  {
  }

  /** Running the webhook twice for the same user leaves one row for that
      user, the one written last. */
  lemma RepeatReplacesRow(
    header: Option<string>, secret: Option<string>, first: Profile, second: Profile,
    summarize: Option<ParsedResume> -> Result<string>,
    embed: string -> Result<seq<real>>, now1: string, now2: string, index: Index)
    requires Authorized(header, secret)
    requires first.user_id == second.user_id
    requires summarize(first.parsed_resume).Ok? && summarize(second.parsed_resume).Ok?
    requires embed(summarize(first.parsed_resume).value).Ok?
    requires embed(summarize(second.parsed_resume).value).Ok?
    ensures var once := Handle(header, secret, Ok(first), summarize, embed, now1, Pass, index).1;
      var twice := Handle(header, secret, Ok(second), summarize, embed, now2, Pass, once).1;
      var summary := summarize(second.parsed_resume).value;
      && twice.Keys == index.Keys + {first.user_id}
      && twice[second.user_id] == RowOf(second, summary, embed(summary).value, now2)
  {
  }

  /** A failed upsert is only logged: the reply is still 200 "Success", and
      the index is unchanged. */
  lemma UpsertErrorStillSucceeds(
    header: Option<string>, secret: Option<string>, profile: Profile,
    summarize: Option<ParsedResume> -> Result<string>,
    embed: string -> Result<seq<real>>, now: string, e: Error, index: Index)
    requires Authorized(header, secret)
    requires summarize(profile.parsed_resume).Ok?
    requires embed(summarize(profile.parsed_resume).value).Ok?
    ensures Handle(header, secret, Ok(profile), summarize, embed, now, Fail(e), index) == (Success, index)
  {
  }
}
