/** The recruiter chat page (`Page`): how it turns the conversation's tool
    outputs into the ranked candidate list shown in the side panel, how it
    labels tool invocations, and how it guards message submission.

    The candidate list is computed from the assistant messages alone:
    - the output of the LAST completed candidate-search invocation is the
      candidate set;
    - the outputs of every completed reasoning invocation are folded into a
      map from user id to reasoning and score, later entries overwriting
      earlier ones;
    - each candidate takes its reasoning from the map when that reasoning is
      truthy, and its score from the map whenever the map has one;
    - the result is sorted by score, highest first, a missing score counting
      as 0, with ties kept in search order (the sort is stable).
 */
module ChatPage {
  import opened Wrappers
  import Strings
  import opened CandidatesArtifact
  import ToolStatus

  datatype Role = SystemRole | UserRole | AssistantRole

  /** A tool output: an array of rows, or anything else. */
  datatype ToolOutput = Rows(rows: seq<Candidate>) | NotAnArray

  /** One part of a chat message. `kind` is the part's type tag
      ("text", "reasoning", "tool-<name>", ...). */
  datatype Part = Part(kind: string, state: Option<string>, output: Option<ToolOutput>)

  datatype UIMessage = UIMessage(id: string, role: Role, parts: seq<Part>)

  /** What a reasoning entry contributes to a candidate. */
  datatype ReasoningInfo = ReasoningInfo(reasoning: Option<string>, match_score: Option<real>)

  const FindPartKind := "tool-findCandidatesTool"
  const ReasoningPartKind := "tool-addReasoningTool"
  const OutputAvailable := "output-available"
  const InputAvailable := "input-available"

  /** A completed invocation of the tool with part type `kind` whose output
      is an array. */
  predicate IsRowsOutput(p: Part, kind: string) {
    && p.kind == kind
    && p.state == Some(OutputAvailable)
    && p.output.Some?
    && p.output.value.Rows?
  }

  function RowsOf(p: Part): seq<Candidate> {
    if p.output.Some? && p.output.value.Rows? then p.output.value.rows else []
  }

  // ---------------------------------------------------------------------
  // Reference definitions of what the page reads from the conversation
  // ---------------------------------------------------------------------

  /** The parts of the assistant messages, in conversation order. */
  function AssistantParts(ms: seq<UIMessage>): seq<Part>
    decreases |ms|
  {
    if |ms| == 0 then []
    else
      var last := ms[|ms| - 1];
      AssistantParts(ms[..|ms| - 1]) + (if last.role == AssistantRole then last.parts else [])
  }

  /** The rows of the last completed candidate search, or none. */
  function LatestFound(ps: seq<Part>): seq<Candidate>
    decreases |ps|
  {
    if |ps| == 0 then []
    else if IsRowsOutput(ps[|ps| - 1], FindPartKind) then RowsOf(ps[|ps| - 1])
    else LatestFound(ps[..|ps| - 1])
  }

  /** The rows of every completed reasoning invocation, in order. */
  function ReasoningRows(ps: seq<Part>): seq<Candidate>
    decreases |ps|
  {
    if |ps| == 0 then []
    else
      var last := ps[|ps| - 1];
      ReasoningRows(ps[..|ps| - 1]) + (if IsRowsOutput(last, ReasoningPartKind) then RowsOf(last) else [])
  }

  function InfoOf(row: Candidate): ReasoningInfo {
    ReasoningInfo(row.reasoning, row.match_score)
  }

  /** `rows.forEach((r) => map.set(r.user_id, ...))` starting from an empty map. */
  function Entries(rows: seq<Candidate>): map<string, ReasoningInfo>
    decreases |rows|
  {
    if |rows| == 0 then map[]
    else Entries(rows[..|rows| - 1])[rows[|rows| - 1].user_id := InfoOf(rows[|rows| - 1])]
  }

  /** The last completed search wins over every earlier one. */
  lemma {:induction false} LatestFoundIsLast(ps: seq<Part>, i: nat)
    requires i < |ps| && IsRowsOutput(ps[i], FindPartKind)
    requires forall j :: i < j < |ps| ==> !IsRowsOutput(ps[j], FindPartKind)
    ensures LatestFound(ps) == ps[i].output.value.rows
    decreases |ps|
  {
    if i < |ps| - 1 {
      LatestFoundIsLast(ps[..|ps| - 1], i);
    }
  }

  /** The candidate set is empty or the rows of one completed search. */
  lemma {:induction false} LatestFoundIsAnOutput(ps: seq<Part>)
    ensures LatestFound(ps) == [] || exists p :: p in ps && IsRowsOutput(p, FindPartKind) && LatestFound(ps) == RowsOf(p)
    decreases |ps|
  {
    if |ps| > 0 && !IsRowsOutput(ps[|ps| - 1], FindPartKind) {
      LatestFoundIsAnOutput(ps[..|ps| - 1]);
      if LatestFound(ps) != [] {
        var p :| p in ps[..|ps| - 1] && IsRowsOutput(p, FindPartKind) && LatestFound(ps) == RowsOf(p);
        assert p in ps;
      }
    } else if |ps| > 0 {
      assert ps[|ps| - 1] in ps;
    }
  }

  /** Without a completed search there are no candidates. */
  lemma {:induction false} NoSearchNoCandidates(ps: seq<Part>)
    requires forall j :: 0 <= j < |ps| ==> !IsRowsOutput(ps[j], FindPartKind)
    ensures LatestFound(ps) == []
    decreases |ps|
  {
    if |ps| > 0 {
      NoSearchNoCandidates(ps[..|ps| - 1]);
    }
  }

  /** The reasoning map is keyed by exactly the user ids of the rows. */
  lemma {:induction false} EntriesKeys(rows: seq<Candidate>)
    ensures Entries(rows).Keys == set k | 0 <= k < |rows| :: rows[k].user_id
    decreases |rows|
  {
    if |rows| > 0 {
      var init := rows[..|rows| - 1];
      EntriesKeys(init);
      assert forall k :: 0 <= k < |init| ==> init[k] == rows[k];
    }
  }

  /** For each user id, the entry kept is the one from the last row with that
      id: a later entry overwrites an earlier one. */
  lemma {:induction false} EntriesLastWins(rows: seq<Candidate>, i: nat)
    requires i < |rows|
    requires forall j :: i < j < |rows| ==> rows[j].user_id != rows[i].user_id
    ensures rows[i].user_id in Entries(rows)
    ensures Entries(rows)[rows[i].user_id] == InfoOf(rows[i])
    decreases |rows|
  {
    if i < |rows| - 1 {
      EntriesLastWins(rows[..|rows| - 1], i);
    }
  }

  // ---------------------------------------------------------------------
  // The loops of the page, checked against the reference definitions
  // ---------------------------------------------------------------------

  lemma AppendOne(ps: seq<Part>, p: Part)
    ensures LatestFound(ps + [p])
      == if IsRowsOutput(p, FindPartKind) then RowsOf(p) else LatestFound(ps)
    ensures ReasoningRows(ps + [p])
      == ReasoningRows(ps) + (if IsRowsOutput(p, ReasoningPartKind) then RowsOf(p) else [])
  {
    assert (ps + [p])[..|ps|] == ps;
  }

  /** The `forEach` over one reasoning output. */
  method AddEntries(reasoning: map<string, ReasoningInfo>, rows: seq<Candidate>, ghost prior: seq<Candidate>)
    returns (updated: map<string, ReasoningInfo>)
    requires reasoning == Entries(prior)
    ensures updated == Entries(prior + rows)
  {
    updated := reasoning;
    var k := 0;
    assert prior + rows[..k] == prior;
    while k < |rows|
      invariant 0 <= k <= |rows|
      invariant updated == Entries(prior + rows[..k])
    {
      assert (prior + rows[..k + 1])[..|prior| + k] == prior + rows[..k];
      updated := updated[rows[k].user_id := InfoOf(rows[k])];
      k := k + 1;
    }
    assert rows[..k] == rows;
  }

  /** The inner loop over the parts of one assistant message. */
  method ScanParts(parts: seq<Part>, found0: seq<Candidate>, reasoning0: map<string, ReasoningInfo>, ghost seen: seq<Part>)
    returns (found: seq<Candidate>, reasoning: map<string, ReasoningInfo>)
    requires found0 == LatestFound(seen)
    requires reasoning0 == Entries(ReasoningRows(seen))
    ensures found == LatestFound(seen + parts)
    ensures reasoning == Entries(ReasoningRows(seen + parts))
  {
    found, reasoning := found0, reasoning0;
    var j := 0;
    assert seen + parts[..j] == seen;
    while j < |parts|
      invariant 0 <= j <= |parts|
      invariant found == LatestFound(seen + parts[..j])
      invariant reasoning == Entries(ReasoningRows(seen + parts[..j]))
    {
      var part := parts[j];
      ghost var before := seen + parts[..j];
      assert seen + parts[..j + 1] == before + [part];
      AppendOne(before, part);
      if IsRowsOutput(part, FindPartKind) {
        found := part.output.value.rows;
      }
      if IsRowsOutput(part, ReasoningPartKind) {
        reasoning := AddEntries(reasoning, part.output.value.rows, ReasoningRows(before));
      } else {
        assert ReasoningRows(before) + [] == ReasoningRows(before);
      }
      j := j + 1;
    }
    assert parts[..j] == parts;
  }

  /** The two nested loops of the `candidates` memo that scan the messages:
      they yield the last search output and the reasoning map. */
  method CollectToolOutputs(messages: seq<UIMessage>)
    returns (found: seq<Candidate>, reasoning: map<string, ReasoningInfo>)
    ensures found == LatestFound(AssistantParts(messages))
    ensures reasoning == Entries(ReasoningRows(AssistantParts(messages)))
  {
    found := [];
    reasoning := map[];
    var i := 0;
    while i < |messages|
      invariant 0 <= i <= |messages|
      invariant found == LatestFound(AssistantParts(messages[..i]))
      invariant reasoning == Entries(ReasoningRows(AssistantParts(messages[..i])))
    {
      var message := messages[i];
      assert messages[..i + 1][..i] == messages[..i];
      if message.role == AssistantRole {
        found, reasoning := ScanParts(message.parts, found, reasoning, AssistantParts(messages[..i]));
      } else {
        assert AssistantParts(messages[..i]) + [] == AssistantParts(messages[..i]);
      }
      i := i + 1;
    }
    assert messages[..i] == messages;
  }

  // ---------------------------------------------------------------------
  // Enrichment with the reasoning map
  // ---------------------------------------------------------------------

  /** `{...candidate, reasoning: info?.reasoning || candidate.reasoning,
      match_score: info?.match_score ?? candidate.match_score}` */
  function Enrich(c: Candidate, info: map<string, ReasoningInfo>): (e: Candidate)
    ensures e.user_id == c.user_id && e.full_name == c.full_name
    ensures e.years_experience == c.years_experience && e.skills == c.skills
    ensures e.similarity == c.similarity
    ensures e.reasoning ==
      if c.user_id in info && TruthyOption(info[c.user_id].reasoning)
      then info[c.user_id].reasoning else c.reasoning
    ensures e.match_score ==
      if c.user_id in info && info[c.user_id].match_score.Some?
      then info[c.user_id].match_score else c.match_score
  {
    if c.user_id !in info then c
    else
      var r := info[c.user_id];
      c.(reasoning := if TruthyOption(r.reasoning) then r.reasoning else c.reasoning,
         match_score := if r.match_score.Some? then r.match_score else c.match_score)
  }

  /** A candidate without an entry is left exactly as the search returned it. */
  lemma EnrichWithoutEntry(c: Candidate, info: map<string, ReasoningInfo>)
    requires c.user_id !in info
    ensures Enrich(c, info) == c
  {
  }

  /** Enriching twice with the same map is enriching once. */
  lemma EnrichIdempotent(c: Candidate, info: map<string, ReasoningInfo>)
    ensures Enrich(Enrich(c, info), info) == Enrich(c, info)
  {
  }

  function EnrichAll(cs: seq<Candidate>, info: map<string, ReasoningInfo>): (es: seq<Candidate>)
    ensures |es| == |cs|
    ensures forall i :: 0 <= i < |cs| ==> es[i] == Enrich(cs[i], info)
  {
    seq(|cs|, i requires 0 <= i < |cs| => Enrich(cs[i], info))
  }

  // ---------------------------------------------------------------------
  // The stable sort by descending match score
  // ---------------------------------------------------------------------

  /** The sort key: the match score, a missing one counting as 0. */
  function Score(c: Candidate): real {
    c.match_score.GetOr(0.0)
  }

  predicate SortedDesc(cs: seq<Candidate>) {
    forall i, j :: 0 <= i < j < |cs| ==> Score(cs[i]) >= Score(cs[j])
  }

  /** The candidates with score `v`, in their order in `cs`. A sort is stable
      iff it keeps every one of these subsequences. */
  function WithScore(cs: seq<Candidate>, v: real): seq<Candidate>
    decreases |cs|
  {
    if |cs| == 0 then []
    else (if Score(cs[0]) == v then [cs[0]] else []) + WithScore(cs[1..], v)
  }

  lemma {:induction false} WithScoreAppend(s: seq<Candidate>, t: seq<Candidate>, v: real)
    ensures WithScore(s + t, v) == WithScore(s, v) + WithScore(t, v)
    decreases |s|
  {
    if |s| == 0 {
      assert s + t == t;
    } else {
      var head := if Score(s[0]) == v then [s[0]] else [];
      assert (s + t)[0] == s[0];
      assert (s + t)[1..] == s[1..] + t;
      WithScoreAppend(s[1..], t, v);
      calc {
        WithScore(s + t, v);
        head + WithScore(s[1..] + t, v);
        head + (WithScore(s[1..], v) + WithScore(t, v));
        (head + WithScore(s[1..], v)) + WithScore(t, v);
      }
    }
  }

  /** Appending one candidate appends it to the subsequence of its score. */
  lemma WithScoreSnoc(init: seq<Candidate>, x: Candidate, v: real)
    ensures WithScore(init + [x], v) == WithScore(init, v) + (if Score(x) == v then [x] else [])
  {
    WithScoreAppend(init, [x], v);
    assert WithScore([x], v) == (if Score(x) == v then [x] else []) + WithScore([], v);
  }

  /** Nothing in a sequence whose scores are all below `v` has score `v`. */
  lemma {:induction false} WithScoreBelow(s: seq<Candidate>, v: real)
    requires forall i :: 0 <= i < |s| ==> Score(s[i]) < v
    ensures WithScore(s, v) == []
    decreases |s|
  {
    if |s| > 0 {
      WithScoreBelow(s[1..], v);
    }
  }

  /** Insertion of `x` after every element scoring at least as high. */
  function InsertByScore(x: Candidate, s: seq<Candidate>): (r: seq<Candidate>)
    ensures |r| == |s| + 1
    ensures multiset(r) == multiset(s) + multiset{x}
    decreases |s|
  {
    if |s| == 0 then [x]
    else
      assert s == [s[0]] + s[1..];
      if Score(s[0]) >= Score(x) then [s[0]] + InsertByScore(x, s[1..])
      else [x] + s
  }

  /** Every element of an insertion is `x` or an element of `s`. */
  lemma InsertFrom(x: Candidate, s: seq<Candidate>, i: nat)
    requires i < |InsertByScore(x, s)|
    ensures InsertByScore(x, s)[i] == x || InsertByScore(x, s)[i] in s
  {
    var r := InsertByScore(x, s);
    assert r[i] in multiset(r);
  }

  lemma {:induction false} InsertKeepsSorted(x: Candidate, s: seq<Candidate>)
    requires SortedDesc(s)
    ensures SortedDesc(InsertByScore(x, s))
    decreases |s|
  {
    if |s| > 0 && Score(s[0]) >= Score(x) {
      InsertKeepsSorted(x, s[1..]);
      var t := InsertByScore(x, s[1..]);
      forall k | 0 <= k < |t|
        ensures Score(s[0]) >= Score(t[k])
      {
        InsertFrom(x, s[1..], k);
      }
      assert InsertByScore(x, s) == [s[0]] + t;
    }
  }

  /** Inserting `x` appends it to the candidates of its own score and leaves
      the other scores' subsequences alone. */
  lemma {:induction false} InsertStable(x: Candidate, s: seq<Candidate>, v: real)
    requires SortedDesc(s)
    ensures WithScore(InsertByScore(x, s), v) == WithScore(s, v) + (if Score(x) == v then [x] else [])
    decreases |s|
  {
    if |s| == 0 {
      assert WithScore([x], v) == (if Score(x) == v then [x] else []) + WithScore([], v);
    } else if Score(s[0]) >= Score(x) {
      InsertStable(x, s[1..], v);
      InsertAfterHead(x, s, v);
    } else {
      InsertAtFront(x, s, v);
    }
  }

  /** When `x` goes after the head, the head stays first in its score's
      subsequence and `x` lands where it does in the tail's. */
  lemma InsertAfterHead(x: Candidate, s: seq<Candidate>, v: real)
    requires |s| > 0 && Score(s[0]) >= Score(x)
    requires WithScore(InsertByScore(x, s[1..]), v)
          == WithScore(s[1..], v) + (if Score(x) == v then [x] else [])
    ensures WithScore(InsertByScore(x, s), v) == WithScore(s, v) + (if Score(x) == v then [x] else [])
  {
    var own := if Score(x) == v then [x] else [];
    var head := if Score(s[0]) == v then [s[0]] else [];
    var t := InsertByScore(x, s[1..]);
    InsertBehindHead(x, s);
    WithScoreCons(s[0], t, v);
    WithScoreCons(s[0], s[1..], v);
    Strings.AppendAssoc(head, WithScore(s[1..], v), own);
    calc {
      WithScore([s[0]] + t, v);
      head + WithScore(t, v);
      head + (WithScore(s[1..], v) + own);
      (head + WithScore(s[1..], v)) + own;
      WithScore([s[0]] + s[1..], v) + own;
    }
    assert [s[0]] + s[1..] == s;
  }

  lemma InsertBehindHead(x: Candidate, s: seq<Candidate>)
    requires |s| > 0 && Score(s[0]) >= Score(x)
    ensures InsertByScore(x, s) == [s[0]] + InsertByScore(x, s[1..])
  {
  }

  lemma WithScoreCons(c: Candidate, t: seq<Candidate>, v: real)
    ensures WithScore([c] + t, v) == (if Score(c) == v then [c] else []) + WithScore(t, v)
  {
    assert ([c] + t)[0] == c;
    assert ([c] + t)[1..] == t;
  }

  /** When `x` outscores the whole sorted sequence it goes first, and no
      element of the sequence shares its score. */
  lemma InsertAtFront(x: Candidate, s: seq<Candidate>, v: real)
    requires |s| > 0 && SortedDesc(s) && Score(s[0]) < Score(x)
    ensures WithScore(InsertByScore(x, s), v) == WithScore(s, v) + (if Score(x) == v then [x] else [])
  {
    var own := if Score(x) == v then [x] else [];
    var r := [x] + s;
    assert InsertByScore(x, s) == r;
    assert r[1..] == s;
    assert WithScore(r, v) == own + WithScore(s, v);
    if Score(x) == v {
      WithScoreBelow(s, v);
      assert own + [] == [] + own;
    }
  }

  /** `enriched.sort((a, b) => (b.match_score ?? 0) - (a.match_score ?? 0))`:
      the stable sort puts each element after the earlier ones that score at
      least as high. */
  function SortByScore(cs: seq<Candidate>): (r: seq<Candidate>)
    ensures |r| == |cs|
    ensures multiset(r) == multiset(cs)
    decreases |cs|
  {
    if |cs| == 0 then []
    else
      assert cs == cs[..|cs| - 1] + [cs[|cs| - 1]];
      InsertByScore(cs[|cs| - 1], SortByScore(cs[..|cs| - 1]))
  }

  lemma {:induction false} SortByScoreSorted(cs: seq<Candidate>)
    ensures SortedDesc(SortByScore(cs))
    decreases |cs|
  {
    if |cs| > 0 {
      SortByScoreSorted(cs[..|cs| - 1]);
      InsertKeepsSorted(cs[|cs| - 1], SortByScore(cs[..|cs| - 1]));
    }
  }

  lemma {:induction false} SortByScoreStable(cs: seq<Candidate>, v: real)
    ensures WithScore(SortByScore(cs), v) == WithScore(cs, v)
    decreases |cs|
  {
    if |cs| > 0 {
      var init := cs[..|cs| - 1];
      var x := cs[|cs| - 1];
      var sorted := SortByScore(init);
      LastSplit(cs);
      assert SortByScore(cs) == InsertByScore(x, sorted);
      SortByScoreSorted(init);
      InsertStable(x, sorted, v);
      SortByScoreStable(init, v);
      WithScoreSnoc(init, x, v);
    }
  }

  /** A non-empty sequence is its prefix followed by its last element. */
  lemma LastSplit<T>(cs: seq<T>)
    requires |cs| > 0
    ensures cs[..|cs| - 1] + [cs[|cs| - 1]] == cs
  {
  }

  /** The sort is sorted, and stable: for every score it keeps the candidates
      with that score in their original order. */
  lemma SortByScoreCorrect(cs: seq<Candidate>)
    ensures SortedDesc(SortByScore(cs))
    ensures forall v :: WithScore(SortByScore(cs), v) == WithScore(cs, v)
  {
    SortByScoreSorted(cs);
    forall v
      ensures WithScore(SortByScore(cs), v) == WithScore(cs, v)
    {
      SortByScoreStable(cs, v);
    }
  }

  // ---------------------------------------------------------------------
  // The memo as a whole
  // ---------------------------------------------------------------------

  /** What the memo returns for a search output and a reasoning map: nothing
      when the search found nothing, otherwise the enriched candidates sorted
      by score, highest first, ties in search order. */
  function Rank(found: seq<Candidate>, info: map<string, ReasoningInfo>): (r: seq<Candidate>)
    ensures |found| == 0 ==> r == []
    ensures |r| == |found|
    ensures multiset(r) == multiset(EnrichAll(found, info))
    ensures SortedDesc(r)
    ensures forall v :: WithScore(r, v) == WithScore(EnrichAll(found, info), v)
  {
    SortByScoreCorrect(EnrichAll(found, info));
    if |found| > 0 then SortByScore(EnrichAll(found, info)) else found
  }

  /** Every ranked candidate is an enriched search row, and every search row
      appears in the ranking. */
  lemma RankIsPermutationOfRows(found: seq<Candidate>, info: map<string, ReasoningInfo>)
    ensures forall c :: c in Rank(found, info) ==> exists i :: 0 <= i < |found| && c == Enrich(found[i], info)
    ensures forall i :: 0 <= i < |found| ==> Enrich(found[i], info) in Rank(found, info)
  {
    var r := Rank(found, info);
    var es := EnrichAll(found, info);
    forall c | c in r
      ensures exists i :: 0 <= i < |found| && c == Enrich(found[i], info)
    {
      assert c in multiset(r);
      assert c in multiset(es);
      var i :| 0 <= i < |es| && es[i] == c;
    }
    forall i | 0 <= i < |found|
      ensures Enrich(found[i], info) in r
    {
      assert es[i] in multiset(es);
    }
  }

  /** The candidate list the page derives from the whole conversation. */
  function Candidates(messages: seq<UIMessage>): seq<Candidate> {
    var ps := AssistantParts(messages);
    Rank(LatestFound(ps), Entries(ReasoningRows(ps)))
  }

  /** The memo: scan the messages, then enrich and sort. */
  method CandidatesMemo(messages: seq<UIMessage>) returns (cs: seq<Candidate>)
    ensures cs == Candidates(messages)
    ensures SortedDesc(cs)
    ensures |cs| == |LatestFound(AssistantParts(messages))|
  {
    var found, reasoning := CollectToolOutputs(messages);
    if |found| > 0 {
      var enriched := EnrichAll(found, reasoning);
      cs := SortByScore(enriched);
    } else {
      cs := found;
    }
  }

  // ---------------------------------------------------------------------
  // The artifact panel opening on its own
  // ---------------------------------------------------------------------

  /** The effect on `artifactOpen` when the candidate list changes: it opens
      once some candidate has truthy reasoning, and it never closes here. */
  function AutoOpen(cs: seq<Candidate>, open: bool): (open': bool)
    ensures open ==> open'
    ensures open' <==> open || exists i :: 0 <= i < |cs| && TruthyOption(cs[i].reasoning)
  {
    var hasReasoning := exists i :: 0 <= i < |cs| && TruthyOption(cs[i].reasoning);
    if |cs| > 0 && hasReasoning && !open then true else open
  }

  // ---------------------------------------------------------------------
  // Tool status lines
  // ---------------------------------------------------------------------

  /** The status a tool part is shown with. */
  function ToolStateOf(state: string): (t: ToolStatus.ToolState)
    ensures t == ToolStatus.Completed <==> state == OutputAvailable
    ensures t == ToolStatus.Running <==> state == InputAvailable
  {
    if state == OutputAvailable then ToolStatus.Completed
    else if state == InputAvailable then ToolStatus.Running
    else ToolStatus.Pending
  }

  const ToolPrefix := "tool-"

  /** The status line rendered for a part, if any: only tool parts that carry
      a state get one, named by the part type after the "tool-" prefix. */
  function PartStatus(p: Part): (v: Option<ToolStatus.StatusView>)
    ensures v.Some? <==> Strings.StartsWith(p.kind, ToolPrefix) && p.state.Some?
  {
    if Strings.StartsWith(p.kind, ToolPrefix) && p.state.Some? then
      Some(ToolStatus.View(p.kind[|ToolPrefix|..], ToolStateOf(p.state.value)))
    else None
  }

  /** A tool part pulses until its output is available, and a completed
      candidate search reads "Search complete". */
  lemma PartStatusMeaning(p: Part)
    requires Strings.StartsWith(p.kind, ToolPrefix) && p.state.Some?
    ensures PartStatus(p).value.pulsing <==> p.state.value != OutputAvailable
    ensures p.kind == FindPartKind && p.state == Some(OutputAvailable) ==>
      PartStatus(p).value.text == "Search complete"
    ensures p.kind == ReasoningPartKind ==>
      PartStatus(p).value.icon in {ToolStatus.Loader, ToolStatus.CheckCircle}
  {
    if p.kind == FindPartKind {
      assert p.kind[|ToolPrefix|..] == "findCandidatesTool";
    }
    if p.kind == ReasoningPartKind {
      assert p.kind[|ToolPrefix|..] == "addReasoningTool";
    }
  }

  // ---------------------------------------------------------------------
  // Submitting a prompt
  // ---------------------------------------------------------------------

  /** An attached file; its contents are not modelled. */
  datatype FileRef = FileRef(name: string)

  datatype PromptMessage = PromptMessage(text: Option<string>, files: Option<seq<FileRef>>)

  datatype Outgoing = Outgoing(text: string, files: Option<seq<FileRef>>)

  /** The message handed to `sendMessage` (if any) and the new input box text. */
  datatype SubmitEffect = SubmitEffect(sent: Option<Outgoing>, input: string)

  const AttachmentsOnlyText := "Sent with attachments"

  /** `Boolean(message.text)`: a missing or empty text is falsy. */
  function HasText(m: PromptMessage): (has: bool)
    ensures has <==> m.text.Some? && Strings.Truthy(m.text.value)
  {
    m.text.Some? && m.text.value != ""
  }

  /** `Boolean(message.files?.length)`: a missing list and an empty one are
      both falsy. */
  function HasAttachments(m: PromptMessage): (has: bool)
    ensures has ==> m.files.Some?
    ensures m.files.Some? ==> (has <==> m.files.value != [])
  {
    m.files.Some? && |m.files.value| > 0
  }

  function HandleSubmit(input: string, m: PromptMessage): (e: SubmitEffect)
    ensures e.sent.None? <==> !HasText(m) && !HasAttachments(m)
    ensures e.sent.None? ==> e.input == input
    ensures e.sent.Some? ==> e.input == "" && e.sent.value.files == m.files
    ensures e.sent.Some? && HasText(m) ==> e.sent.value.text == m.text.value
    ensures e.sent.Some? && !HasText(m) ==> e.sent.value.text == AttachmentsOnlyText
  {
    if !(HasText(m) || HasAttachments(m)) then SubmitEffect(None, input)
    else
      SubmitEffect(Some(Outgoing(if HasText(m) then m.text.value else AttachmentsOnlyText, m.files)), "")
  }

  /** A message that is sent always carries non-empty text. */
  lemma SentTextNeverEmpty(input: string, m: PromptMessage)
    requires HandleSubmit(input, m).sent.Some?
    ensures HandleSubmit(input, m).sent.value.text != ""
  {
  }
}
