/** The fuzzy matcher used to filter and rank field names by a search query.
    The matcher keeps a running score; the very first hit contributes its offset
    divided by 100, every later hit an integer. Here every score is the source's
    score multiplied by 100, so that it stays an integer. */
module FuzzyMatch {
  import opened Wrappers

  /** Lower-casing of one character: the letters A-Z become a-z. */
  function LowerChar(c: char): char {
    if 'A' <= c <= 'Z' then (c as int + 32) as char else c
  }

  /** `toLowerCase` on a string, character by character. */
  function Lower(s: string): (r: string)
    ensures |r| == |s|
    ensures forall i :: 0 <= i < |s| ==> r[i] == LowerChar(s[i])
  {
    seq(|s|, i requires 0 <= i < |s| => LowerChar(s[i]))
  }

  lemma LowerIdempotent(s: string)
    ensures Lower(Lower(s)) == Lower(s)
  {
  }

  /** `indexOf` for one character: the leftmost position of `c` in `s`, or -1. */
  function IndexOf(s: string, c: char): (k: int)
    ensures -1 <= k < |s|
    ensures k == -1 <==> c !in s
    ensures 0 <= k ==> s[k] == c && c !in s[..k]
  {
    if |s| == 0 then -1
    else if s[0] == c then 0
    else
      var k := IndexOf(s[1..], c);
      if k == -1 then -1
      else
        assert s[..k + 1] == [s[0]] + s[1..][..k];
        k + 1
  }

  /** The outcome of a match: no match, or a match with its score (times 100). */
  datatype MatchResult = NoMatch | Matched(score: int)

  /** The characters put in front of the rest of the body after the hit at `i`:
      the character just before the hit, unless there is none or the previous
      step was itself transposed and the hit is at position 1. */
  function TransposedPrefix(body: string, i: int, transposed: bool): string
    requires 0 <= i < |body|
  {
    if i > 0 && !(transposed && i == 1) then [body[i - 1]] else []
  }

  /** The score after a hit at offset `i`: the first hit adds i/100 (i here, since
      scores are scaled by 100); a later hit adds its offset, except that right after
      a transposition a hit at offset 0 adds the fixed 4 and any other hit one less. */
  function NextScore(score: Option<int>, transposed: bool, i: int): int
    requires score.Some? ==> score.value >= 0
    requires i >= 0
  {
    if score.None? then i
    else score.value + 100 * (if transposed then (if i == 0 then 4 else i - 1) else i)
  }

  /** What is left of the body after the hit at `i`. */
  function Rest(body: string, i: int, transposed: bool): string
    requires 0 <= i < |body|
  {
    TransposedPrefix(body, i, transposed) + body[i + 1..]
  }

  /** One level of the recursive matcher. `score` is None before the first hit,
      and `transposed` says whether the previous level put a character back. */
  function Step(body: string, term: string, score: Option<int>, transposed: bool): (r: MatchResult)
    requires score.Some? ==> score.value >= 0
    ensures r.Matched? ==> r.score >= 0
    decreases |term|
  {
    if |term| == 0 then Matched(if score.Some? then score.value else 0)
    else
      var i := IndexOf(body, term[0]);
      if i == -1 then NoMatch
      else Step(Rest(body, i, transposed), term[1..], Some(NextScore(score, transposed, i)), TransposedPrefix(body, i, transposed) != [])
  }

  /** `fuzzyMatch(body, term, {})`: whether `term` fuzzily matches `body`, and with which score. */
  function Match(body: string, term: string): (r: MatchResult)
    ensures term == [] ==> r.Matched?
    ensures term != [] && term[0] !in body ==> r == NoMatch
  {
    Step(body, term, None, false)
  }

  /** A greedy subsequence test: the characters of `t` occur in `b` in order. */
  predicate IsSubsequence(t: string, b: string)
    decreases |b|
  {
    if t == [] then true
    else if b == [] then false
    else if t[0] == b[0] then IsSubsequence(t[1..], b[1..])
    else IsSubsequence(t, b[1..])
  }

  lemma {:induction false} SubsequenceAfterLeftmost(t: string, b: string)
    requires t != [] && IsSubsequence(t, b)
    ensures 0 <= IndexOf(b, t[0]) && IsSubsequence(t[1..], b[IndexOf(b, t[0]) + 1..])
    decreases |b|
  {
    if b[0] != t[0] {
      SubsequenceAfterLeftmost(t, b[1..]);
      assert b[1..][IndexOf(b[1..], t[0]) + 1..] == b[IndexOf(b, t[0]) + 1..];
    }
  }

  lemma {:induction false} SubsequenceDropFirst(t: string, b: string)
    requires t != [] && IsSubsequence(t, b)
    ensures IsSubsequence(t[1..], b)
    decreases |b|, 0
  {
    if t[0] != b[0] {
      SubsequenceDropFirst(t, b[1..]);
    }
    SubsequenceConsOne(t[1..], b[0], b[1..]);
    assert [b[0]] + b[1..] == b;
  }

  lemma {:induction false} SubsequenceConsOne(t: string, c: char, b: string)
    requires IsSubsequence(t, b)
    ensures IsSubsequence(t, [c] + b)
    decreases |b|, 1
  {
    assert ([c] + b)[1..] == b;
    if t != [] && t[0] == c {
      SubsequenceDropFirst(t, b);
    }
  }

  lemma {:induction false} SubsequenceOfLonger(t: string, p: string, b: string)
    requires IsSubsequence(t, b)
    ensures IsSubsequence(t, p + b)
    decreases |p|
  {
    if p == [] {
      assert p + b == b;
    } else {
      SubsequenceOfLonger(t, p[1..], b);
      SubsequenceConsOne(t, p[0], p[1..] + b);
      assert [p[0]] + (p[1..] + b) == p + b;
    }
  }

  /** Every query whose characters occur in the body in order matches it,
      whatever state the matcher is in. */
  lemma {:induction false} SubsequenceMatches(body: string, term: string, score: Option<int>, transposed: bool)
    requires score.Some? ==> score.value >= 0
    requires IsSubsequence(term, body)
    ensures Step(body, term, score, transposed).Matched?
    decreases |term|
  {
    if term != [] {
      SubsequenceAfterLeftmost(term, body);
      var i := IndexOf(body, term[0]);
      SubsequenceOfLonger(term[1..], TransposedPrefix(body, i, transposed), body[i + 1..]);
      SubsequenceMatches(Rest(body, i, transposed), term[1..], Some(NextScore(score, transposed, i)),
                         TransposedPrefix(body, i, transposed) != []);
    }
  }

  lemma {:induction false} SubsequenceOfSelf(s: string)
    ensures IsSubsequence(s, s)
    decreases |s|
  {
    if s != [] {
      SubsequenceOfSelf(s[1..]);
    }
  }

  /** `match(s, s)` succeeds, and so does every subsequence of the body. */
  lemma MatchesSubsequence(body: string, term: string)
    requires IsSubsequence(term, body)
    ensures Match(body, term).Matched?
  {
    SubsequenceMatches(body, term, None, false);
  }

  lemma MatchesItself(s: string)
    ensures Match(s, s).Matched?
  {
    SubsequenceOfSelf(s);
    MatchesSubsequence(s, s);
  }

  lemma RestWithinBody(body: string, i: int, transposed: bool)
    requires 0 <= i < |body|
    ensures forall x :: x in Rest(body, i, transposed) ==> x in body
  {
    forall x | x in Rest(body, i, transposed) ensures x in body {
      if x !in TransposedPrefix(body, i, transposed) {
        assert x in body[i + 1..];
      }
    }
  }

  /** A match never uses a character the body does not contain. */
  lemma {:induction false} MatchedCharactersOccur(body: string, term: string, score: Option<int>, transposed: bool)
    requires score.Some? ==> score.value >= 0
    requires Step(body, term, score, transposed).Matched?
    ensures forall k :: 0 <= k < |term| ==> term[k] in body
    decreases |term|
  {
    if term != [] {
      var i := IndexOf(body, term[0]);
      var rest := Rest(body, i, transposed);
      MatchedCharactersOccur(rest, term[1..], Some(NextScore(score, transposed, i)), TransposedPrefix(body, i, transposed) != []);
      RestWithinBody(body, i, transposed);
      forall k | 0 < k < |term| ensures term[k] in body {
        assert term[1..][k - 1] == term[k];
      }
    }
  }

  /** One level of the matcher, given where `indexOf` finds the term's first character. */
  lemma StepAt(body: string, term: string, score: Option<int>, transposed: bool, i: int, rest: string, score2: int, transposed2: bool)
    requires score.Some? ==> score.value >= 0
    requires term != [] && 0 <= i && IndexOf(body, term[0]) == i
    requires Rest(body, i, transposed) == rest && NextScore(score, transposed, i) == score2
    requires (TransposedPrefix(body, i, transposed) != []) == transposed2
    ensures Step(body, term, score, transposed) == Step(rest, term[1..], Some(score2), transposed2)
  {
  }

  /** A term whose first character is not in what is left of the body fails. */
  lemma StepMisses(body: string, term: string, score: Option<int>, transposed: bool)
    requires score.Some? ==> score.value >= 0
    requires term != [] && term[0] !in body
    ensures Step(body, term, score, transposed) == NoMatch
  {
  }

  /** The first levels the test suite's terms on "abcde" go through. */
  lemma LeadingA(term: string)
    requires term != [] && term[0] == 'a'
    ensures Match("abcde", term) == Step("bcde", term[1..], Some(0), false)
  {
    StepAt("abcde", term, None, false, 0, "bcde", 0, false);
  }

  lemma ThenC(term: string)
    requires term != [] && term[0] == 'c'
    ensures Step("bcde", term, Some(0), false) == Step("bde", term[1..], Some(100), true)
  {
    StepAt("bcde", term, Some(0), false, 1, "bde", 100, true);
  }

  lemma ThenTransposedB(term: string)
    requires term != [] && term[0] == 'b'
    ensures Step("bde", term, Some(100), true) == Step("de", term[1..], Some(500), false)
  {
    StepAt("bde", term, Some(100), true, 0, "de", 500, false);
  }

  /** A term of one character matches exactly when the body contains it. */
  lemma SingleCharacter(body: string, c: char)
    ensures Match(body, [c]).Matched? <==> c in body
  {
    if c in body {
      StepAt(body, [c], None, false, IndexOf(body, c), Rest(body, IndexOf(body, c), false), IndexOf(body, c), TransposedPrefix(body, IndexOf(body, c), false) != []);
    }
  }

  lemma BasicSubsequences()
    ensures IsSubsequence("ab", "abc") && IsSubsequence("bc", "abc")
  {
  }

  /** The "Basic Matching" cases of the matcher's test suite: the empty term, every single
      character, the two-character prefix and suffix and the whole body are accepted, and a
      character the body lacks is rejected. */
  lemma TestSuiteCases()
    ensures Match("abc", "").Matched? && Match("abc", "a").Matched? && Match("abc", "b").Matched?
    ensures Match("abc", "c").Matched? && Match("abc", "ab").Matched? && Match("abc", "bc").Matched?
    ensures Match("abc", "abc").Matched? && Match("abc", "d") == NoMatch
  {
    MatchesItself("abc");
    BasicSubsequences();
    MatchesSubsequence("abc", "ab");
    MatchesSubsequence("abc", "bc");
    SingleCharacter("abc", 'a');
    SingleCharacter("abc", 'b');
    SingleCharacter("abc", 'c');
    SingleCharacter("abc", 'd');
  }

  lemma FuzzySubsequences()
    ensures IsSubsequence("ac", "abc") && IsSubsequence("ace", "abcde")
  {
  }

  lemma RejectedForeignCharacter()
    ensures Match("abcde", "afce") == NoMatch
  {
    LeadingA("afce");
    assert "afce"[1..] == "fce";
    StepMisses("bcde", "fce", Some(0), false);
  }

  lemma RejectedForeignLast()
    ensures Match("abcde", "acef") == NoMatch
  {
    LeadingA("acef");
    assert "acef"[1..] == "cef";
    ThenC("cef");
    assert "cef"[1..] == "ef";
    StepAt("bde", "ef", Some(100), true, 2, "d", 200, true);
    assert "ef"[1..] == "f";
    StepMisses("d", "f", Some(200), true);
  }

  /** The "Fuzzy Matching" cases: characters that skip positions are accepted; a character
      the body lacks, or one past the end, is rejected. */
  lemma FuzzySuiteCases()
    ensures Match("abc", "ac").Matched? && Match("abcde", "ace").Matched?
    ensures Match("abcde", "afce") == NoMatch && Match("abcde", "acef") == NoMatch
  {
    FuzzySubsequences();
    MatchesSubsequence("abc", "ac");
    MatchesSubsequence("abcde", "ace");
    RejectedForeignCharacter();
    RejectedForeignLast();
  }

  /** A transposition is used once: after "acb" has borrowed the 'b', the
      next 'c' is no longer available. */
  lemma RejectedTransposedRepeat()
    ensures Match("abcde", "acbce") == NoMatch
  {
    LeadingA("acbce");
    assert "acbce"[1..] == "cbce";
    ThenC("cbce");
    assert "cbce"[1..] == "bce";
    ThenTransposedB("bce");
    assert "bce"[1..] == "ce";
    StepMisses("de", "ce", Some(500), false);
  }

  lemma RejectedRepeatedCharacter()
    ensures Match("abcde", "abb") == NoMatch
  {
    LeadingA("abb");
    assert "abb"[1..] == "bb";
    StepAt("bcde", "bb", Some(0), false, 0, "cde", 0, false);
    assert "bb"[1..] == "b";
    StepMisses("cde", "b", Some(0), false);
  }

  /** Only the character just before a hit is put back, not one further away. */
  lemma RejectedDistantSwap()
    ensures Match("abcde", "aeb") == NoMatch
  {
    LeadingA("aeb");
    assert "aeb"[1..] == "eb";
    StepAt("bcde", "eb", Some(0), false, 3, "d", 300, true);
    assert "eb"[1..] == "b";
    StepMisses("d", "b", Some(300), true);
  }

  /** After a transposition, a hit at offset 1 does not put a character back. */
  lemma RejectedRotation()
    ensures Match("abcde", "bca") == NoMatch
  {
    StepAt("abcde", "bca", None, false, 1, "acde", 1, true);
    assert "bca"[1..] == "ca";
    StepAt("acde", "ca", Some(1), true, 1, "de", 1, false);
    assert "ca"[1..] == "a";
    StepMisses("de", "a", Some(1), false);
  }

  lemma AcceptedShortTransposition()
    ensures Match("abc", "acb") == Matched(500)
  {
    StepAt("abc", "acb", None, false, 0, "bc", 0, false);
    assert "acb"[1..] == "cb";
    StepAt("bc", "cb", Some(0), false, 1, "b", 100, true);
    assert "cb"[1..] == "b";
    StepAt("b", "b", Some(100), true, 0, "", 500, false);
  }

  /** "acbe": the hit on 'c' puts 'b' back in front, so 'b' is then found at offset 0
      (the transposition bonus of 4) and 'e' one place further on. */
  lemma AcceptedLongTransposition()
    ensures Match("abcde", "acbe") == Matched(600)
  {
    LeadingA("acbe");
    assert "acbe"[1..] == "cbe";
    ThenC("cbe");
    assert "cbe"[1..] == "be";
    ThenTransposedB("be");
    assert "be"[1..] == "e";
    StepAt("de", "e", Some(500), false, 1, "d", 600, true);
  }

  lemma AcceptedTranspositions()
    ensures Match("abc", "acb").Matched? && Match("abcde", "acbe") == Matched(600)
  {
    AcceptedShortTransposition();
    AcceptedLongTransposition();
  }
}
