/** The JavaScript string operations the application relies on, over `string`
    (`seq<char>`): `split` on one separator character, `join`, `includes`,
    `startsWith`, `slice`, `trim`, and ASCII case mapping.
 */
module Strings {

  /** A string is truthy in JavaScript iff it is not empty. */
  predicate Truthy(s: string) {
    |s| > 0
  }

  /** `s.slice(0, n)` for a non-negative `n`: at most the first `n` characters. */
  function Take(s: string, n: nat): (r: string)
    ensures |r| == if |s| < n then |s| else n
    ensures r <= s
  {
    if |s| < n then s else s[..n]
  }

  /** `s.includes(sub)`. */
  predicate Contains(s: string, sub: string) {
    exists i :: 0 <= i <= |s| - |sub| && sub <= s[i..]
  }

  /** `s.startsWith(prefix)`. */
  predicate StartsWith(s: string, prefix: string) {
    prefix <= s
  }

  // ---------------------------------------------------------------------
  // Case mapping (ASCII letters only)
  // ---------------------------------------------------------------------

  function LowerChar(c: char): (d: char)
    ensures 'A' <= c <= 'Z' ==> d == c - 'A' + 'a'
    ensures !('A' <= c <= 'Z') ==> d == c
  {
    if 'A' <= c <= 'Z' then c - 'A' + 'a' else c
  }

  function UpperChar(c: char): (d: char)
    ensures 'a' <= c <= 'z' ==> d == c - 'a' + 'A'
    ensures !('a' <= c <= 'z') ==> d == c
  {
    if 'a' <= c <= 'z' then c - 'a' + 'A' else c
  }

  /** `s.toLowerCase()`: same length, every character lowered. */
  function Lower(s: string): (r: string)
    ensures |r| == |s|
    ensures forall i :: 0 <= i < |s| ==> r[i] == LowerChar(s[i])
  {
    seq(|s|, i requires 0 <= i < |s| => LowerChar(s[i]))
  }

  /** `s.toUpperCase()`: same length, every character raised. */
  function Upper(s: string): (r: string)
    ensures |r| == |s|
    ensures forall i :: 0 <= i < |s| ==> r[i] == UpperChar(s[i])
  {
    seq(|s|, i requires 0 <= i < |s| => UpperChar(s[i]))
  }

  /** Lowering twice is lowering once. */
  lemma LowerIdempotent(s: string)
    ensures Lower(Lower(s)) == Lower(s)
  {
    assert forall i :: 0 <= i < |s| ==> Lower(Lower(s))[i] == Lower(s)[i];
  }

  /** Raising first does not change what lowering gives. */
  lemma LowerOfUpper(s: string)
    ensures Lower(Upper(s)) == Lower(s)
  {
    assert forall i :: 0 <= i < |s| ==> Lower(Upper(s))[i] == Lower(s)[i];
  }

  /** Concatenation is associative; stated once so that proofs can name the
      regrouping instead of rediscovering it element by element. */
  lemma AppendAssoc<T>(a: seq<T>, b: seq<T>, c: seq<T>)
    ensures a + b + c == a + (b + c)
  {
  }

  // ---------------------------------------------------------------------
  // split / join
  // ---------------------------------------------------------------------

  /** `s.split(sep)` for a one-character separator: the pieces between
      separators, empty pieces included, never an empty list. */
  function Split(s: string, sep: char): (parts: seq<string>)
    ensures |parts| >= 1
    ensures forall i :: 0 <= i < |parts| ==> sep !in parts[i]
    decreases |s|
  {
    if |s| == 0 then [""]
    else
      var rest := Split(s[1..], sep);
      if s[0] == sep then [""] + rest
      else [[s[0]] + rest[0]] + rest[1..]
  }

  /** `parts.join(sep)` with a one-character separator. */
  function Join(parts: seq<string>, sep: char): string
  {
    if |parts| == 0 then ""
    else if |parts| == 1 then parts[0]
    else parts[0] + [sep] + Join(parts[1..], sep)
  }

  /** `split` and `join` with the same separator are inverse: splitting never
      loses or invents a character. */
  lemma {:induction false} JoinSplit(s: string, sep: char)
    ensures Join(Split(s, sep), sep) == s
    decreases |s|
  {
    if |s| > 0 {
      var rest := Split(s[1..], sep);
      JoinSplit(s[1..], sep);
      if s[0] == sep {
        JoinAfterEmpty(rest, sep);
      } else {
        JoinExtendHead(s[0], rest, sep);
      }
      assert s == [s[0]] + s[1..];
    }
  }

  /** A leading empty piece contributes only its separator. */
  lemma JoinAfterEmpty(rest: seq<string>, sep: char)
    requires |rest| >= 1
    ensures Join([""] + rest, sep) == [sep] + Join(rest, sep)
  {
    assert ([""] + rest)[1..] == rest;
  }

  /** Extending the first piece by a character extends the joined string
      by that character. */
  lemma JoinExtendHead(c: char, rest: seq<string>, sep: char)
    requires |rest| >= 1
    ensures Join([[c] + rest[0]] + rest[1..], sep) == [c] + Join(rest, sep)
  {
    var parts := [[c] + rest[0]] + rest[1..];
    if |rest| > 1 {
      assert parts[1..] == rest[1..];
      assert ([c] + rest[0]) + [sep] + Join(rest[1..], sep) == [c] + (rest[0] + [sep] + Join(rest[1..], sep));
    }
  }

  /** `parts.join("")`. */
  function Concat(parts: seq<string>): (r: string)
    decreases |parts|
  {
    if |parts| == 0 then "" else parts[0] + Concat(parts[1..])
  }

  lemma {:induction false} ConcatAppend(a: seq<string>, b: seq<string>)
    ensures Concat(a + b) == Concat(a) + Concat(b)
    decreases |a|
  {
    if |a| == 0 {
      assert a + b == b;
    } else {
      assert (a + b)[0] == a[0];
      assert (a + b)[1..] == a[1..] + b;
      ConcatAppend(a[1..], b);
    }
  }

  // ---------------------------------------------------------------------
  // Words separated by spaces
  // ---------------------------------------------------------------------

  /** `parts.filter((p) => p.length > 0)`. */
  function NonEmpty(parts: seq<string>): (r: seq<string>)
    ensures forall i :: 0 <= i < |r| ==> |r[i]| > 0
    ensures |r| <= |parts|
    decreases |parts|
  {
    if |parts| == 0 then []
    else if |parts[0]| > 0 then [parts[0]] + NonEmpty(parts[1..])
    else NonEmpty(parts[1..])
  }

  lemma {:induction false} NonEmptyAppend(a: seq<string>, b: seq<string>)
    ensures NonEmpty(a + b) == NonEmpty(a) + NonEmpty(b)
    decreases |a|
  {
    if |a| == 0 {
      assert a + b == b;
    } else {
      assert (a + b)[0] == a[0];
      assert (a + b)[1..] == a[1..] + b;
      NonEmptyAppend(a[1..], b);
    }
  }

  /** The longest prefix of `s` that holds no space. */
  function FirstWord(s: string): (w: string)
    ensures w <= s
    ensures ' ' !in w
    ensures |w| < |s| ==> s[|w|] == ' '
    ensures |s| > 0 && s[0] != ' ' ==> |w| > 0
    decreases |s|
  {
    if |s| == 0 || s[0] == ' ' then "" else [s[0]] + FirstWord(s[1..])
  }

  /** The words of `s`: its maximal runs of characters other than the space
      (U+0020), left to right. Any number of spaces separates two words. */
  function Runs(s: string): (ws: seq<string>)
    ensures forall i :: 0 <= i < |ws| ==> |ws[i]| > 0 && ' ' !in ws[i]
    decreases |s|
  {
    if |s| == 0 then []
    else if s[0] == ' ' then Runs(s[1..])
    else
      var w := FirstWord(s);
      [w] + Runs(s[|w|..])
  }

  /** A string made only of spaces has no words. */
  lemma {:induction false} RunsOfSpaces(s: string)
    requires forall i :: 0 <= i < |s| ==> s[i] == ' '
    ensures Runs(s) == []
    decreases |s|
  {
    if |s| > 0 {
      RunsOfSpaces(s[1..]);
    }
  }

  /** `split(" ")` cuts `s` at the end of its first word. */
  lemma {:induction false} SplitAtFirstWord(s: string)
    ensures var w := FirstWord(s);
      Split(s, ' ') == [w] + (if |w| == |s| then [] else Split(s[|w| + 1..], ' '))
    decreases |s|
  {
    if |s| == 0 || s[0] == ' ' {
    } else {
      var t := s[1..];
      SplitAtFirstWord(t);
      var w := FirstWord(t);
      assert FirstWord(s) == [s[0]] + w;
      var rest := Split(t, ' ');
      assert rest[0] == w;
      if |w| < |t| {
        assert s[|w| + 2..] == t[|w| + 1..];
      }
    }
  }

  /** Dropping the empty pieces of `split(" ")` yields exactly the words:
      repeated, leading and trailing spaces are ignored. */
  lemma {:induction false} NonEmptySplitIsRuns(s: string)
    ensures NonEmpty(Split(s, ' ')) == Runs(s)
    decreases |s|
  {
    if |s| == 0 {
    } else if s[0] == ' ' {
      assert Split(s, ' ') == [""] + Split(s[1..], ' ');
      NonEmptyAppend([""], Split(s[1..], ' '));
      NonEmptySplitIsRuns(s[1..]);
    } else {
      var w := FirstWord(s);
      SplitAtFirstWord(s);
      if |w| == |s| {
        assert s[|w|..] == [];
        assert NonEmpty([w]) == [w];
      } else {
        var after := s[|w| + 1..];
        NonEmptyAppend([w], Split(after, ' '));
        assert NonEmpty([w]) == [w];
        NonEmptySplitIsRuns(after);
        var gap := s[|w|..];
        assert gap[0] == ' ';
        assert gap[1..] == after;
        assert Runs(gap) == Runs(after);
      }
    }
  }

  // ---------------------------------------------------------------------
  // trim
  // ---------------------------------------------------------------------

  /** The characters `String.prototype.trim` removes: the ECMAScript
      WhiteSpace and LineTerminator code points (section 12.2 and 12.3 of
      ECMA-262), where Zs is the Unicode space-separator category. */
  predicate IsWhitespace(c: char) {
    || '\t' <= c <= '\r'                  // tab, line feed, vertical tab, form feed, carriage return
    || c == ' ' || c == '\U{00A0}' || c == '\U{1680}'
    || '\U{2000}' <= c <= '\U{200A}'      // en quad .. hair space
    || c == '\U{2028}' || c == '\U{2029}' // line and paragraph separators
    || c == '\U{202F}' || c == '\U{205F}' || c == '\U{3000}'
    || c == '\U{FEFF}'
  }

  predicate AllWhitespace(s: string) {
    forall i :: 0 <= i < |s| ==> IsWhitespace(s[i])
  }

  function TrimStart(s: string): (r: string)
    ensures |r| <= |s| && r == s[|s| - |r|..]
    ensures AllWhitespace(s[..|s| - |r|])
    ensures |r| > 0 ==> !IsWhitespace(r[0])
    decreases |s|
  {
    if |s| > 0 && IsWhitespace(s[0]) then TrimStart(s[1..]) else s
  }

  function TrimEnd(s: string): (r: string)
    ensures r <= s
    ensures AllWhitespace(s[|r|..])
    ensures |r| > 0 ==> !IsWhitespace(r[|r| - 1])
    decreases |s|
  {
    if |s| > 0 && IsWhitespace(s[|s| - 1]) then TrimEnd(s[..|s| - 1]) else s
  }

  /** `s.trim()`: the slice of `s` left once the whitespace at both ends is
      cut off. */
  function Trim(s: string): (r: string)
    ensures |r| <= |s|
    ensures exists i :: TrimmedAt(s, r, i)
    ensures |r| > 0 ==> !IsWhitespace(r[0]) && !IsWhitespace(r[|r| - 1])
  {
    var t := TrimStart(s);
    TrimEndsFacts(s);
    TrimmedBetween(s, t, TrimEnd(t));
    TrimEnd(t)
  }

  /** `t` is `s` with only whitespace cut from its start, and `r` is `t`
      with only whitespace cut from its end. */
  predicate TrimmedPieces(s: string, t: string, r: string) {
    && |t| <= |s| && t == s[|s| - |t|..] && AllWhitespace(s[..|s| - |t|])
    && r <= t && AllWhitespace(t[|r|..])
  }

  lemma TrimEndsFacts(s: string)
    ensures TrimmedPieces(s, TrimStart(s), TrimEnd(TrimStart(s)))
  {
  }

  /** Whitespace cut off before a suffix `t` of `s`, and again after a
      prefix `r` of `t`, leaves `r` as a trimmed slice of `s`. */
  lemma TrimmedBetween(s: string, t: string, r: string)
    requires TrimmedPieces(s, t, r)
    ensures TrimmedAt(s, r, |s| - |t|)
  {
    var i := |s| - |t|;
    assert r == t[..|r|];
    assert s[i + |r|..] == t[|r|..];
  }

  /** `r` is the slice of `s` starting at `i` with only whitespace around it. */
  predicate TrimmedAt(s: string, r: string, i: int) {
    && 0 <= i <= |s| - |r|
    && r == s[i..i + |r|]
    && AllWhitespace(s[..i])
    && AllWhitespace(s[i + |r|..])
  }

  lemma {:induction false} TrimStartBlank(s: string)
    requires AllWhitespace(s)
    ensures TrimStart(s) == ""
    decreases |s|
  {
    if |s| > 0 {
      TrimStartBlank(s[1..]);
    }
  }

  /** `s.trim()` is empty iff `s` is blank. */
  lemma TrimEmptyIffBlank(s: string)
    ensures Trim(s) == "" <==> AllWhitespace(s)
  {
    var r := Trim(s);
    if AllWhitespace(s) {
      TrimStartBlank(s);
    }
    if r == "" {
      var i :| TrimmedAt(s, r, i);
      forall k | 0 <= k < |s|
        ensures IsWhitespace(s[k])
      {
        if k < i {
          assert s[k] == s[..i][k];
        } else {
          assert s[k] == s[i..][k - i];
        }
      }
    }
  }
}
