/** The candidate record shown by the chat page, and the side panel that lists
    the ranked candidates as cards (`CandidatesArtifact`).

    The panel shows a count badge and one card per candidate, in the order it
    is given, numbered from 1. A card shows the candidate's name (or a
    placeholder built from the id), a shortened id, the years of experience
    when known, at most five skill badges plus a "+k more" badge, and the
    agent's reasoning when there is some.
 */
module CandidatesArtifact {
  import opened Wrappers
  import Strings

  /** A candidate as the chat page handles it: a row of the candidate search
      index, possibly extended with the agent's reasoning and match score. */
  datatype Candidate = Candidate(
    user_id: string,
    full_name: Option<string>,
    years_experience: Option<real>,
    skills: Option<seq<string>>,
    similarity: Option<real>,
    reasoning: Option<string>,
    match_score: Option<real>)

  /** The number of skill badges a card shows before collapsing the rest. */
  const MaxSkillBadges: nat := 5

  datatype SkillsView =
    | NoSkills
    | SkillBadges(shown: seq<string>, more: Option<nat>)

  datatype CardView = CardView(
    rank: nat,
    title: string,
    idLine: string,
    experience: Option<real>,
    skills: SkillsView,
    why: Option<string>)

  datatype PanelView = PanelView(countBadge: nat, cards: seq<CardView>)

  predicate TruthyOption(s: Option<string>) {
    s.Some? && Strings.Truthy(s.value)
  }

  /** The card title: the full name, or "Candidate " and the first eight
      characters of the id when there is no usable name. */
  function Title(c: Candidate): (t: string)
    ensures TruthyOption(c.full_name) ==> t == c.full_name.value
    ensures !TruthyOption(c.full_name) ==>
      t == "Candidate " + Strings.Take(c.user_id, 8)
      && |t| == 10 + (if |c.user_id| < 8 then |c.user_id| else 8)
  {
    if TruthyOption(c.full_name) then c.full_name.value
    else "Candidate " + Strings.Take(c.user_id, 8)
  }

  /** The id line: "ID: ", at most twelve characters of the id, then "...". */
  function IdLine(c: Candidate): (line: string)
    ensures 7 <= |line| <= 19
    ensures "ID: " <= line && line[|line| - 3..] == "..."
    ensures line[4..|line| - 3] <= c.user_id
    ensures |line[4..|line| - 3]| == if |c.user_id| < 12 then |c.user_id| else 12
  {
    "ID: " + Strings.Take(c.user_id, 12) + "..."
  }

  /** The middle of the id line is exactly `user_id.slice(0, 12)`: a prefix
      of the id of that length can be nothing else. */
  lemma IdLineShowsTwelve(c: Candidate)
    ensures var line := IdLine(c); line[4..|line| - 3] == Strings.Take(c.user_id, 12)
  {
    var line := IdLine(c);
    var mid := line[4..|line| - 3];
    var t := Strings.Take(c.user_id, 12);
    assert |mid| == |t|;
    assert forall i :: 0 <= i < |mid| ==> mid[i] == c.user_id[i] == t[i];
  }

  /** The skill badges a card shows: the first five skills, in order. */
  function ShownSkills(skills: seq<string>): (shown: seq<string>)
    ensures shown <= skills
    ensures |shown| == if |skills| <= MaxSkillBadges then |skills| else MaxSkillBadges
  {
    if |skills| <= MaxSkillBadges then skills else skills[..MaxSkillBadges]
  }

  /** The "+k more" badge: present iff there are more than five skills, and
      then counting exactly the ones not shown. */
  function MoreBadge(skills: seq<string>): (more: Option<nat>)
    ensures more.Some? <==> |skills| > MaxSkillBadges
    ensures more.Some? ==> more.value > 0
  {
    if |skills| > MaxSkillBadges then Some(|skills| - MaxSkillBadges) else None
  }

  /** The shown badges and the "+k more" count together account for every
      skill, and the hidden ones are exactly the tail after the shown ones. */
  lemma SkillBadgesAccountForAll(skills: seq<string>)
    ensures ShownSkills(skills) + skills[|ShownSkills(skills)|..] == skills
    ensures |ShownSkills(skills)| + MoreBadge(skills).GetOr(0) == |skills|
  {
  }

  function SkillsOf(c: Candidate): (v: SkillsView)
    ensures v.NoSkills? <==> c.skills.None? || |c.skills.value| == 0
    ensures v.SkillBadges? ==>
      v.shown == ShownSkills(c.skills.value) && v.more == MoreBadge(c.skills.value)
  {
    if c.skills.Some? && |c.skills.value| > 0 then
      SkillBadges(ShownSkills(c.skills.value), MoreBadge(c.skills.value))
    else NoSkills
  }

  /** One card; the "Why:" block is present iff the reasoning is truthy. */
  function Card(c: Candidate, rank: nat): (card: CardView)
    ensures card.rank == rank
    ensures card.why.Some? <==> TruthyOption(c.reasoning)
    ensures card.why.Some? ==> card.why.value == c.reasoning.value
    ensures card.experience == c.years_experience
    ensures card.title == Title(c) && card.idLine == IdLine(c) && card.skills == SkillsOf(c)
  {
    CardView(
      rank,
      Title(c),
      IdLine(c),
      c.years_experience,
      SkillsOf(c),
      if TruthyOption(c.reasoning) then c.reasoning else None)
  }

  /** Cards for `cs`, ranked from `offset + 1` upwards in input order. */
  function Cards(cs: seq<Candidate>, offset: nat): (cards: seq<CardView>)
    ensures |cards| == |cs|
    ensures forall i :: 0 <= i < |cs| ==> cards[i] == Card(cs[i], offset + i + 1)
    decreases |cs|
  {
    if |cs| == 0 then []
    else [Card(cs[0], offset + 1)] + Cards(cs[1..], offset + 1)
  }

  /** The panel: the badge counts every candidate, and the cards keep the
      input order with ranks 1..n. */
  function Panel(cs: seq<Candidate>): (p: PanelView)
    ensures p.countBadge == |cs| == |p.cards|
    ensures forall i :: 0 <= i < |cs| ==> p.cards[i] == Card(cs[i], i + 1)
    ensures forall i :: 0 <= i < |cs| ==> p.cards[i].rank == i + 1
  {
    PanelView(|cs|, Cards(cs, 0))
  }
}
