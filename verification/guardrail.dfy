/**
 * The profanity guardrail of `llm_dev1/guardrail.py`: substring detection of bad words and
 * masking of every occurrence with asterisks. The bad-word list is a parameter (the source loads
 * it from a CSV file at import time).
 */
module Guardrail {

  /** `w` occurs in `s` starting at index `i`. */
  predicate OccursAt(w: string, s: string, i: int) {
    0 <= i && i + |w| <= |s| && s[i..i + |w|] == w
  }

  /** Python's `w in s` for strings: `w` is a contiguous substring of `s` (the empty string always is). */
  predicate Occurs(w: string, s: string)
    ensures Occurs(w, s) <==> exists i :: 0 <= i <= |s| - |w| && OccursAt(w, s, i)
    decreases |s|
  {
    if w <= s then
      assert OccursAt(w, s, 0);
      true
    else if |s| == 0 then
      false
    else
      var rest := Occurs(w, s[1..]);
      assert rest ==> exists i :: 0 <= i <= |s| - |w| && OccursAt(w, s, i) by {
        if rest {
          var i :| 0 <= i <= |s| - 1 - |w| && OccursAt(w, s[1..], i);
          assert s[1..][i..i + |w|] == s[i + 1..i + 1 + |w|];
          assert OccursAt(w, s, i + 1);
        }
      }
      assert (exists i :: 0 <= i <= |s| - |w| && OccursAt(w, s, i)) ==> rest by {
        if exists i :: 0 <= i <= |s| - |w| && OccursAt(w, s, i) {
          var i :| 0 <= i <= |s| - |w| && OccursAt(w, s, i);
          assert OccursAt(w, s, 0) ==> w <= s;
          assert i > 0;
          assert s[1..][i - 1..i - 1 + |w|] == s[i..i + |w|];
          assert OccursAt(w, s[1..], i - 1);
        }
      }
      rest
  }

  /** `contains_profanity`: some word of the list occurs in the text. */
  predicate ContainsProfanity(text: string, badwords: seq<string>)
    ensures ContainsProfanity(text, badwords) <==> exists k :: 0 <= k < |badwords| && Occurs(badwords[k], text)
  {
    if |badwords| == 0 then false
    else
      assert forall k :: 1 <= k < |badwords| ==> badwords[1..][k - 1] == badwords[k];
      Occurs(badwords[0], text) || ContainsProfanity(text, badwords[1..])
  }

  /** The empty string occurs in every text. */
  lemma EmptyWordOccurs(s: string)
    ensures Occurs("", s)
  {
    assert OccursAt("", s, 0);
  }

  /** With no bad words nothing is profane, and an empty word in the list makes every text profane. */
  lemma ProfanityEdgeCases(text: string, badwords: seq<string>)
    ensures badwords == [] ==> !ContainsProfanity(text, badwords)
    ensures "" in badwords ==> ContainsProfanity(text, badwords)
  {
    EmptyWordOccurs(text);
  }

  /** `n` asterisks (`"*" * n`). */
  function Stars(n: nat): (r: string)
    ensures |r| == n && forall i :: 0 <= i < n ==> r[i] == '*'
  {
    seq(n, _ => '*')
  }

  /**
   * Python's `s.replace(pattern, replacement)`: every occurrence of `pattern`, found left to right without
   * overlap, is replaced by `replacement`. An empty `pattern` matches before every character and at the end.
   */
  function Replace(s: string, pattern: string, replacement: string): (r: string)
    ensures |pattern| == |replacement| ==> |r| == |s|
    decreases |s|
  {
    if |pattern| == 0 then
      replacement + (if |s| == 0 then [] else [s[0]] + Replace(s[1..], pattern, replacement))
    else if pattern <= s then
      replacement + Replace(s[|pattern|..], pattern, replacement)
    else if |s| == 0 then
      []
    else
      [s[0]] + Replace(s[1..], pattern, replacement)
  }

  /** One step of `clean_text`: every occurrence of `w` becomes as many asterisks. */
  function Mask(s: string, w: string): (r: string)
    ensures |r| == |s|
  {
    Replace(s, w, Stars(|w|))
  }

  /** `clean_text`: mask each bad word in turn, in list order. */
  function CleanText(text: string, badwords: seq<string>): (r: string)
    ensures |r| == |text|
    decreases |badwords|
  {
    if |badwords| == 0 then text else CleanText(Mask(text, badwords[0]), badwords[1..])
  }

  /** How much of the text one step of masking consumes: the whole word at a match, else one character. */
  function MaskSkip(s: string, w: string): (k: nat)
    requires |s| > 0
    ensures 0 < k <= |s|
  {
    if |w| > 0 && w <= s then |w| else 1
  }

  /** One step of masking: asterisks for a match at the front, else the first character, then the rest masked. */
  lemma MaskStep(s: string, w: string)
    requires |s| > 0
    ensures Mask(s, w)[..MaskSkip(s, w)] == if |w| > 0 && w <= s then Stars(|w|) else s[..1]
    ensures Mask(s, w)[MaskSkip(s, w)..] == Mask(s[MaskSkip(s, w)..], w)
  {
    if |w| == 0 {
      assert Mask(s, w) == [s[0]] + Mask(s[1..], w);
    } else if w <= s {
      assert Mask(s, w) == Stars(|w|) + Mask(s[|w|..], w);
    } else {
      assert Mask(s, w) == [s[0]] + Mask(s[1..], w);
    }
  }

  /** An occurrence in a suffix is an occurrence in the whole text, shifted by the suffix's offset. */
  lemma OccursShift(w: string, s: string, k: int, j: int)
    requires 0 <= k <= |s| && OccursAt(w, s[k..], j)
    ensures OccursAt(w, s, j + k)
  {
    assert s[k..][j..j + |w|] == s[j + k..j + k + |w|];
  }

  /** Masking never invents text: each character is the original one or an asterisk. */
  lemma {:induction false} MaskOnlyStars(s: string, w: string)
    ensures forall i :: 0 <= i < |s| ==> Mask(s, w)[i] == s[i] || Mask(s, w)[i] == '*'
    decreases |s|
  {
    if |s| > 0 {
      var k := MaskSkip(s, w);
      var r := Mask(s, w);
      MaskStep(s, w);
      MaskOnlyStars(s[k..], w);
      forall i | 0 <= i < |s| ensures r[i] == s[i] || r[i] == '*' {
        if i < k {
          assert r[i] == r[..k][i];
        } else {
          assert r[i] == r[k..][i - k] && s[i] == s[k..][i - k];
        }
      }
    }
  }

  /** A character changed by masking lies inside an occurrence of the word in the original text. */
  lemma {:induction false} MaskChangesOnlyOccurrences(s: string, w: string, i: int)
    requires 0 <= i < |s| && Mask(s, w)[i] != s[i]
    ensures Mask(s, w)[i] == '*'
    ensures exists j :: j <= i < j + |w| && OccursAt(w, s, j)
    decreases |s|
  {
    MaskOnlyStars(s, w);
    var k := MaskSkip(s, w);
    var r := Mask(s, w);
    MaskStep(s, w);
    if i < k {
      assert r[i] == r[..k][i];
      assert OccursAt(w, s, 0);
    } else {
      assert r[i] == r[k..][i - k] && s[i] == s[k..][i - k];
      MaskChangesOnlyOccurrences(s[k..], w, i - k);
      var j :| j <= i - k < j + |w| && OccursAt(w, s[k..], j);
      OccursShift(w, s, k, j);
    }
  }

  /** A text free of the word is left exactly as it was. */
  lemma {:induction false} MaskAbsentIsIdentity(s: string, w: string)
    requires |w| > 0 && !Occurs(w, s)
    ensures Mask(s, w) == s
    decreases |s|
  {
    if |s| > 0 {
      assert !Occurs(w, s[1..]);
      MaskAbsentIsIdentity(s[1..], w);
      assert Mask(s, w) == [s[0]] + Mask(s[1..], w);
    }
  }

  /** A masked text that begins with a star-free word began with it before masking. */
  lemma MaskedPrefixWasThere(s: string, w: string)
    requires forall k :: 0 <= k < |w| ==> w[k] != '*'
    requires w <= Mask(s, w)
    ensures w <= s
  {
    MaskOnlyStars(s, w);
    var r := Mask(s, w);
    forall k | 0 <= k < |w| ensures s[k] == w[k] {
      assert r[k] == w[k];
    }
  }

  /** A star-free word does not occur in asterisks followed by a text that lacks it. */
  lemma {:induction false} NoOccurrenceAfterStars(n: nat, x: string, w: string)
    requires |w| > 0 && w[0] != '*'
    requires !Occurs(w, x)
    ensures !Occurs(w, Stars(n) + x)
    decreases n
  {
    if n > 0 {
      assert (Stars(n) + x)[0] == '*';
      assert (Stars(n) + x)[1..] == Stars(n - 1) + x;
      NoOccurrenceAfterStars(n - 1, x, w);
    } else {
      assert Stars(n) + x == x;
    }
  }

  /** After masking a non-empty word that contains no asterisk, that word no longer occurs. */
  lemma {:induction false} MaskRemovesWord(s: string, w: string)
    requires |w| > 0 && forall k :: 0 <= k < |w| ==> w[k] != '*'
    ensures !Occurs(w, Mask(s, w))
    decreases |s|
  {
    var r := Mask(s, w);
    if w <= s {
      MaskRemovesWord(s[|w|..], w);
      assert r == Stars(|w|) + Mask(s[|w|..], w);
      NoOccurrenceAfterStars(|w|, Mask(s[|w|..], w), w);
    } else if |s| > 0 {
      MaskRemovesWord(s[1..], w);
      assert r[1..] == Mask(s[1..], w);
      if w <= r {
        MaskedPrefixWasThere(s, w);
      }
    }
  }

  /** `clean_text` only ever turns characters into asterisks. */
  lemma {:induction false} CleanTextOnlyStars(text: string, badwords: seq<string>)
    ensures forall i :: 0 <= i < |text| ==> CleanText(text, badwords)[i] == text[i] || CleanText(text, badwords)[i] == '*'
    decreases |badwords|
  {
    if |badwords| > 0 {
      var m := Mask(text, badwords[0]);
      MaskOnlyStars(text, badwords[0]);
      CleanTextOnlyStars(m, badwords[1..]);
    }
  }

  /** With no bad words, or none occurring, `clean_text` returns the text unchanged. */
  lemma {:induction false} CleanTextOfCleanInput(text: string, badwords: seq<string>)
    requires !ContainsProfanity(text, badwords)
    ensures CleanText(text, badwords) == text
    decreases |badwords|
  {
    if |badwords| > 0 {
      assert !Occurs(badwords[0], text);
      EmptyWordOccurs(text);
      assert |badwords[0]| > 0;
      MaskAbsentIsIdentity(text, badwords[0]);
      assert !ContainsProfanity(text, badwords[1..]) by {
        assert forall k :: 0 <= k < |badwords| - 1 ==> badwords[1..][k] == badwords[k + 1];
      }
      CleanTextOfCleanInput(text, badwords[1..]);
    }
  }

  /** The list is applied in order: cleaning with `a + b` is cleaning with `a`, then with `b`. */
  lemma {:induction false} CleanTextInOrder(text: string, a: seq<string>, b: seq<string>)
    ensures CleanText(text, a + b) == CleanText(CleanText(text, a), b)
    decreases |a|
  {
    if |a| == 0 {
      assert a + b == b;
    } else {
      assert (a + b)[1..] == a[1..] + b;
      CleanTextInOrder(Mask(text, a[0]), a[1..], b);
    }
  }
}
