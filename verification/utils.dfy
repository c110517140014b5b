/** Avatar initials. `getInitials` (the shared helper) keeps the initials of
    the LAST two words of a name; the post card and the feed header compute
    theirs inline from the FIRST two words. Both are defined here and
    related to the words of the name (`Strings.Runs`).
 */
module Utils {
  import opened Strings

  /** `part.charAt(0).toUpperCase()`, or "" for an empty part. */
  function Initial(w: string): (r: string)
    ensures |r| == if |w| > 0 then 1 else 0
    ensures |w| > 0 ==> r == [UpperChar(w[0])]
  {
    if |w| > 0 then [UpperChar(w[0])] else ""
  }

  function Initials(ws: seq<string>): (r: seq<string>)
    ensures |r| == |ws|
    ensures forall i :: 0 <= i < |ws| ==> r[i] == Initial(ws[i])
  {
    seq(|ws|, i requires 0 <= i < |ws| => Initial(ws[i]))
  }

  /** `xs.slice(-2)`: the last two elements, or all of them if fewer. */
  function LastTwo<T>(xs: seq<T>): (r: seq<T>)
    ensures |r| == if |xs| < 2 then |xs| else 2
    ensures r == xs[|xs| - |r|..]
  {
    if |xs| <= 2 then xs else xs[|xs| - 2..]
  }

  /** The first two elements, or all of them if fewer. */
  function FirstTwo<T>(xs: seq<T>): (r: seq<T>)
    ensures |r| == if |xs| < 2 then |xs| else 2
    ensures r <= xs
  {
    if |xs| <= 2 then xs else xs[..2]
  }

  /** `getInitials(fullName)`. */
  function GetInitials(fullName: string): (r: string)
    ensures |r| <= 2
  {
    GetInitialsOfWords(fullName);
    Concat(LastTwo(Initials(NonEmpty(Split(fullName, ' ')))))
  }

  /** `getInitials` keeps the initials of the last two words. */
  lemma GetInitialsOfWords(fullName: string)
    ensures var r := Concat(LastTwo(Initials(NonEmpty(Split(fullName, ' ')))));
      && r == Concat(Initials(LastTwo(Runs(fullName))))
      && |r| == |LastTwo(Runs(fullName))|
      && forall k :: 0 <= k < |r| ==> r[k] == UpperChar(LastTwo(Runs(fullName))[k][0])
  {
    var words := Runs(fullName);
    NonEmptySplitIsRuns(fullName);
    InitialsOfLastTwo(words);
    ConcatOfInitials(LastTwo(words));
  }

  /** Taking the last two words commutes with taking initials. */
  lemma InitialsOfLastTwo(words: seq<string>)
    ensures Initials(LastTwo(words)) == LastTwo(Initials(words))
  {
    var a := Initials(LastTwo(words));
    var b := LastTwo(Initials(words));
    forall i | 0 <= i < |a|
      ensures a[i] == b[i]
    {
      assert LastTwo(words)[i] == words[|words| - |a| + i];
    }
  }

  /** The initials of non-empty words: one upper-cased character per word. */
  lemma {:induction false} ConcatOfInitials(ws: seq<string>)
    requires forall i :: 0 <= i < |ws| ==> |ws[i]| > 0
    ensures |Concat(Initials(ws))| == |ws|
    ensures forall k :: 0 <= k < |ws| ==> Concat(Initials(ws))[k] == UpperChar(ws[k][0])
    decreases |ws|
  {
    if |ws| > 0 {
      ConcatOfInitials(ws[1..]);
      assert Initials(ws)[1..] == Initials(ws[1..]);
    }
  }

  /** A name has no initials iff it is made only of spaces. */
  lemma GetInitialsEmpty(fullName: string)
    ensures GetInitials(fullName) == "" <==> forall i :: 0 <= i < |fullName| ==> fullName[i] == ' '
  {
    if forall i :: 0 <= i < |fullName| ==> fullName[i] == ' ' {
      SpacesHaveNoInitials(fullName);
    } else {
      var i :| 0 <= i < |fullName| && fullName[i] != ' ';
      WordHasInitials(fullName, i);
    }
  }

  /** A name made only of spaces has no words, so no initials. */
  lemma SpacesHaveNoInitials(fullName: string)
    requires forall i :: 0 <= i < |fullName| ==> fullName[i] == ' '
    ensures GetInitials(fullName) == ""
  {
    RunsOfSpaces(fullName);
    GetInitialsOfWords(fullName);
    assert LastTwo(Runs(fullName)) == [];
    assert |GetInitials(fullName)| == 0;
  }

  /** A name with a character other than a space has a word, so at least
      one initial. */
  lemma WordHasInitials(fullName: string, i: nat)
    requires i < |fullName| && fullName[i] != ' '
    ensures GetInitials(fullName) != ""
  {
    RunsNonEmpty(fullName, i);
    GetInitialsOfWords(fullName);
    assert |LastTwo(Runs(fullName))| > 0;
    assert |GetInitials(fullName)| > 0;
  }

  /** A name with a character other than a space has a word. */
  lemma {:induction false} RunsNonEmpty(s: string, i: nat)
    requires i < |s| && s[i] != ' '
    ensures |Runs(s)| > 0
    decreases |s|
  {
    if s[0] == ' ' {
      RunsNonEmpty(s[1..], i - 1);
    }
  }

  // ---------------------------------------------------------------------
  // The inline initials of the post card and the feed header
  // ---------------------------------------------------------------------

  /** `n[0]` for each piece of `split(" ")`: the first character, or nothing
      (`undefined`, which `join` writes as "") for an empty piece. */
  function FirstChars(parts: seq<string>): (r: seq<string>)
    ensures |r| == |parts|
    ensures forall i :: 0 <= i < |parts| ==> r[i] == if |parts[i]| > 0 then [parts[i][0]] else ""
  {
    seq(|parts|, i requires 0 <= i < |parts| => if |parts[i]| > 0 then [parts[i][0]] else "")
  }

  /** `name.split(" ").map((n) => n[0]).join("").toUpperCase().slice(0, 2)` */
  function LeadingInitials(name: string): (r: string)
    ensures |r| <= 2
  {
    Take(Upper(Concat(FirstChars(Split(name, ' ')))), 2)
  }

  lemma {:induction false} FirstCharsSkipEmpty(parts: seq<string>)
    ensures Concat(FirstChars(parts)) == Concat(FirstChars(NonEmpty(parts)))
    decreases |parts|
  {
    if |parts| > 0 {
      FirstCharsSkipEmpty(parts[1..]);
      assert FirstChars(parts)[1..] == FirstChars(parts[1..]);
      if |parts[0]| > 0 {
        var ne := NonEmpty(parts);
        assert ne == [parts[0]] + NonEmpty(parts[1..]);
        assert FirstChars(ne)[1..] == FirstChars(NonEmpty(parts[1..]));
      }
    }
  }

  /** The upper-cased first characters of non-empty words are their initials. */
  lemma {:induction false} UpperFirstChars(ws: seq<string>)
    requires forall i :: 0 <= i < |ws| ==> |ws[i]| > 0
    ensures Upper(Concat(FirstChars(ws))) == Concat(Initials(ws))
    decreases |ws|
  {
    if |ws| > 0 {
      UpperFirstChars(ws[1..]);
      assert FirstChars(ws)[1..] == FirstChars(ws[1..]);
      assert Initials(ws)[1..] == Initials(ws[1..]);
      var rest := Concat(FirstChars(ws[1..]));
      assert Upper([ws[0][0]] + rest) == [UpperChar(ws[0][0])] + Upper(rest);
    }
  }

  /** The header and card initials are those of the first two words. */
  lemma LeadingInitialsOfWords(name: string)
    ensures LeadingInitials(name) == Concat(Initials(FirstTwo(Runs(name))))
  {
    var ws := Runs(name);
    FirstCharsSkipEmpty(Split(name, ' '));
    NonEmptySplitIsRuns(name);
    UpperFirstChars(ws);
    ConcatOfInitials(ws);
    ConcatOfInitials(FirstTwo(ws));
    var all := Concat(Initials(ws));
    var two := Concat(Initials(FirstTwo(ws)));
    assert Take(all, 2) == two;
  }

  /** For names of at most two words both helpers agree; from three words on
      one keeps the first two initials and the other the last two. */
  lemma InitialsAgreeUpToTwoWords(name: string)
    requires |Runs(name)| <= 2
    ensures GetInitials(name) == LeadingInitials(name)
  {
    GetInitialsOfWords(name);
    LeadingInitialsOfWords(name);
  }

  /** The first word of a word followed by a space and more text. */
  lemma {:induction false} FirstWordOf(w: string, rest: string)
    requires ' ' !in w
    ensures FirstWord(w + rest) == w || (|rest| > 0 && rest[0] != ' ')
    ensures |rest| == 0 || rest[0] == ' ' ==> FirstWord(w + rest) == w
    decreases |w|
  {
    if |w| > 0 {
      assert (w + rest)[1..] == w[1..] + rest;
      FirstWordOf(w[1..], rest);
    }
  }

  /** A word followed by spaces-separated text contributes itself as the
      first of the words. */
  lemma RunsCons(w: string, rest: string)
    requires |w| > 0 && ' ' !in w
    ensures Runs(w + " " + rest) == [w] + Runs(rest)
  {
    var s := w + " " + rest;
    FirstWordOf(w, " " + rest);
    assert s == w + (" " + rest);
    assert s[|w|..] == " " + rest;
    assert (" " + rest)[1..] == rest;
  }

  lemma RunsOfOneWord(c: string)
    requires |c| > 0 && ' ' !in c
    ensures Runs(c) == [c]
  {
    FirstWordOf(c, "");
    assert c + "" == c;
    assert c[|c|..] == [];
  }

  /** A name of three words: the helper takes the initials of the second
      and third, the card and the header those of the first and second. */
  lemma ThreeWordNames(a: string, b: string, c: string)
    requires |a| > 0 && |b| > 0 && |c| > 0
    requires ' ' !in a && ' ' !in b && ' ' !in c
    ensures GetInitials(a + " " + b + " " + c) == [UpperChar(b[0]), UpperChar(c[0])]
    ensures LeadingInitials(a + " " + b + " " + c) == [UpperChar(a[0]), UpperChar(b[0])]
  {
    RunsOfThreeWords(a, b, c);
    InitialsOfLongNames(a + " " + b + " " + c);
  }

  lemma RunsOfThreeWords(a: string, b: string, c: string)
    requires |a| > 0 && |b| > 0 && |c| > 0
    requires ' ' !in a && ' ' !in b && ' ' !in c
    ensures Runs(a + " " + b + " " + c) == [a, b, c]
  {
    var bc := b + " " + c;
    RunsOfOneWord(c);
    RunsCons(b, c);
    RunsCons(a, bc);
    AppendAssoc(a + " ", b, " ");
    AppendAssoc(a + " ", b + " ", c);
    assert a + " " + b + " " + c == a + " " + bc;
    assert Runs(a + " " + bc) == [a] + ([b] + [c]) == [a, b, c];
  }


  /** For a name of three or more words the helper gives the initials of
      the last two, the card and the header those of the first two. */
  lemma InitialsOfLongNames(name: string)
    requires |Runs(name)| >= 3
    ensures var ws := Runs(name);
      GetInitials(name) == [UpperChar(ws[|ws| - 2][0]), UpperChar(ws[|ws| - 1][0])]
    ensures var ws := Runs(name);
      LeadingInitials(name) == [UpperChar(ws[0][0]), UpperChar(ws[1][0])]
  {
    LastTwoInitials(name);
    FirstTwoInitials(name);
  }

  lemma LastTwoInitials(name: string)
    requires |Runs(name)| >= 3
    ensures var ws := Runs(name);
      GetInitials(name) == [UpperChar(ws[|ws| - 2][0]), UpperChar(ws[|ws| - 1][0])]
  {
    var ws := Runs(name);
    GetInitialsOfWords(name);
    var last := LastTwo(ws);
    assert last[0] == ws[|ws| - 2] && last[1] == ws[|ws| - 1];
    var g := GetInitials(name);
    assert |g| == 2;
    assert g == [g[0], g[1]];
  }

  lemma FirstTwoInitials(name: string)
    requires |Runs(name)| >= 3
    ensures var ws := Runs(name);
      LeadingInitials(name) == [UpperChar(ws[0][0]), UpperChar(ws[1][0])]
  {
    var ws := Runs(name);
    LeadingInitialsOfWords(name);
    var first := FirstTwo(ws);
    assert first[0] == ws[0] && first[1] == ws[1];
    ConcatOfInitials(first);
    var l := LeadingInitials(name);
    assert |l| == 2;
    assert l == [l[0], l[1]];
  }
}
