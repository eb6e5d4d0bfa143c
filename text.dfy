/**
 * The string operations the constraint parsers use: substring search
 * (`String.prototype.includes` / `indexOf(w) >= 0`), ASCII lower-casing
 * (`toLowerCase`) and the first run of decimal digits (`/[0-9]+/`).
 */
module Text {
  import opened Common

  /** The characters of `w` from the `k`-th on appear in `t` from position `i + k` on. */
  predicate MatchAt(t: string, w: string, i: nat, k: nat)
    requires i + |w| <= |t| && k <= |w|
    decreases |w| - k
  {
    k == |w| || (t[i + k] == w[k] && MatchAt(t, w, i, k + 1))
  }

  /** `w` starts at some position of `t` from `i` on. */
  predicate ContainsFrom(t: string, w: string, i: nat)
    decreases |t| - i
  {
    i + |w| <= |t| && (MatchAt(t, w, i, 0) || ContainsFrom(t, w, i + 1))
  }

  /** `t.includes(w)`, which is also `t.indexOf(w) >= 0`: `w` occurs somewhere in `t`. */
  predicate Contains(t: string, w: string)
  {
    ContainsFrom(t, w, 0)
  }

  /** `w` starts at position `i` of `t`. */
  predicate OccursAt(t: string, w: string, i: int)
  {
    0 <= i && i + |w| <= |t| && t[i..i + |w|] == w
  }

  lemma {:induction false} MatchAtSlice(t: string, w: string, i: nat, k: nat)
    requires i + |w| <= |t| && k <= |w|
    ensures MatchAt(t, w, i, k) <==> t[i + k..i + |w|] == w[k..]
    decreases |w| - k
  {
    if k < |w| {
      MatchAtSlice(t, w, i, k + 1);
      assert t[i + k..i + |w|] == [t[i + k]] + t[i + k + 1..i + |w|];
      assert w[k..] == [w[k]] + w[k + 1..];
    }
  }

  lemma {:induction false} ContainsFromAt(t: string, w: string, i: nat)
    ensures ContainsFrom(t, w, i) <==> exists j :: i <= j && OccursAt(t, w, j)
    decreases |t| - i
  {
    if i + |w| <= |t| {
      MatchAtSlice(t, w, i, 0);
      assert w[0..] == w;
      ContainsFromAt(t, w, i + 1);
      if MatchAt(t, w, i, 0) {
        assert OccursAt(t, w, i);
      }
      if exists j :: i <= j && OccursAt(t, w, j) {
        var j :| i <= j && OccursAt(t, w, j);
        if j == i {
          assert MatchAt(t, w, i, 0);
        } else {
          assert i + 1 <= j && OccursAt(t, w, j);
        }
      }
    }
  }

  /** `Contains` is the existence of a position where `w` starts inside `t`. */
  lemma ContainsAt(t: string, w: string)
    ensures Contains(t, w) <==> exists i :: OccursAt(t, w, i)
  {
    ContainsFromAt(t, w, 0);
  }

  /** Every substring of a word found in `t` is found in `t` as well. */
  lemma ContainsTransitive(t: string, w: string, v: string)
    requires Contains(t, w) && Contains(w, v)
    ensures Contains(t, v)
  {
    ContainsAt(t, w);
    ContainsAt(w, v);
    var i :| OccursAt(t, w, i);
    var j :| OccursAt(w, v, j);
    forall m | 0 <= m < |v|
      ensures t[i + j + m] == v[m]
    {
      assert v[m] == w[j + m] == t[i + j + m];
    }
    assert t[i + j..i + j + |v|] == v;
    assert OccursAt(t, v, i + j);
    ContainsAt(t, v);
  }

  /** A word with a character that the text lacks does not occur in it. */
  lemma MissingChar(t: string, w: string, k: nat)
    requires k < |w| && w[k] !in t
    ensures !Contains(t, w)
  {
    ContainsAt(t, w);
  }

  /** A word found in either half is found in their concatenation. */
  lemma ContainsInConcat(a: string, b: string, w: string)
    requires Contains(a, w) || Contains(b, w)
    ensures Contains(a + b, w)
  {
    ContainsAt(a, w);
    ContainsAt(b, w);
    ContainsAt(a + b, w);
    var t := a + b;
    if Contains(a, w) {
      var i :| OccursAt(a, w, i);
      assert t[i..i + |w|] == a[i..i + |w|];
      assert OccursAt(t, w, i);
    } else {
      var i :| OccursAt(b, w, i);
      assert t[|a| + i..|a| + i + |w|] == b[i..i + |w|];
      assert OccursAt(t, w, |a| + i);
    }
  }

  /** An occurrence in two words joined by a space lies in one of them or spans the space. */
  lemma AcrossSpace(a: string, b: string, w: string)
    requires Contains(a + " " + b, w)
    ensures Contains(a, w) || Contains(b, w) || ' ' in w
  {
    var t := a + " " + b;
    ContainsAt(t, w);
    ContainsAt(a, w);
    ContainsAt(b, w);
    var i :| OccursAt(t, w, i);
    if i + |w| <= |a| {
      assert t[i..i + |w|] == a[i..i + |w|];
      assert OccursAt(a, w, i);
    } else if i > |a| {
      assert t[i..i + |w|] == b[i - |a| - 1..i - |a| - 1 + |w|];
      assert OccursAt(b, w, i - |a| - 1);
    } else {
      assert w[|a| - i] == t[|a|] == ' ';
    }
  }

  /** A word without a space is missing from a sentence when it is missing from each word. */
  lemma NotAcrossSpace(a: string, b: string, w: string)
    requires ' ' !in w && !Contains(a, w) && !Contains(b, w)
    ensures !Contains(a + " " + b, w)
  {
    if Contains(a + " " + b, w) {
      AcrossSpace(a, b, w);
    }
  }

  /** A text lacking a prefix of `w` lacks `w`. */
  lemma NotContainsPrefix(t: string, w: string, k: nat)
    requires k <= |w| && !Contains(t, w[..k])
    ensures !Contains(t, w)
  {
    if Contains(t, w) {
      ContainsAt(w, w[..k]);
      assert OccursAt(w, w[..k], 0);
      ContainsTransitive(t, w, w[..k]);
    }
  }

  /** `textHas`: some word of the list occurs in the text. */
  predicate HasAny(t: string, words: seq<string>)
  {
    exists k :: 0 <= k < |words| && Contains(t, words[k])
  }

  /** Extending the word list by one word adds exactly that word's test. */
  lemma HasAnySnoc(t: string, words: seq<string>, k: nat)
    requires k < |words|
    ensures HasAny(t, words[..k + 1]) <==> HasAny(t, words[..k]) || Contains(t, words[k])
  {
    if HasAny(t, words[..k + 1]) && !Contains(t, words[k]) {
      var j :| 0 <= j < k + 1 && Contains(t, words[..k + 1][j]);
      assert words[..k][j] == words[..k + 1][j];
    }
    if HasAny(t, words[..k]) {
      var j :| 0 <= j < k && Contains(t, words[..k][j]);
      assert words[..k + 1][j] == words[..k][j];
    }
    assert words[..k + 1][k] == words[k];
  }

  predicate IsUpper(c: char)
  {
    'A' <= c <= 'Z'
  }

  function LowerChar(c: char): (r: char)
    ensures !IsUpper(r)
    ensures IsUpper(c) ==> r as int == c as int + 32
    ensures !IsUpper(c) ==> r == c
  {
    if IsUpper(c) then (c as int + 32) as char else c
  }

  /** `toLowerCase` on ASCII letters. */
  function ToLower(s: string): (r: string)
    ensures |r| == |s|
    ensures forall i :: 0 <= i < |s| ==> r[i] == LowerChar(s[i])
  {
    if |s| == 0 then [] else [LowerChar(s[0])] + ToLower(s[1..])
  }

  /** Lower-casing twice is lower-casing once, and a text without capitals is its own lower case. */
  lemma ToLowerIdempotent(s: string)
    ensures ToLower(ToLower(s)) == ToLower(s)
    ensures (forall i :: 0 <= i < |s| ==> !IsUpper(s[i])) ==> ToLower(s) == s
  {
  }

  /** The longest run of digits starting at position `i` of `t`. */
  function DigitRunFrom(t: string, i: nat): (d: string)
    ensures AllDigits(d) && i + |d| <= |t| + (if i > |t| then i - |t| else 0)
    ensures i <= |t| ==> i + |d| <= |t| && d == t[i..i + |d|]
    ensures i + |d| < |t| ==> !IsDigit(t[i + |d|])
    decreases |t| - i
  {
    if i < |t| && IsDigit(t[i]) then [t[i]] + DigitRunFrom(t, i + 1) else []
  }

  /** The first maximal run of digits at or after position `i`. */
  function FirstDigitFrom(t: string, i: nat): (r: Option<string>)
    ensures r.Some? ==> |r.value| > 0 && AllDigits(r.value)
    decreases |t| - i
  {
    if i >= |t| then None
    else if IsDigit(t[i]) then Some(DigitRunFrom(t, i))
    else FirstDigitFrom(t, i + 1)
  }

  /** `t.match(/[0-9]+/g)[0]`: the first maximal run of digits, if there is a digit at all. */
  function FirstDigitRun(t: string): Option<string>
  {
    FirstDigitFrom(t, 0)
  }

  /** Digit runs inside the second half of a concatenation do not see the first half. */
  lemma {:induction false} DigitRunShift(a: string, b: string, i: nat)
    ensures DigitRunFrom(a + b, |a| + i) == DigitRunFrom(b, i)
    decreases |b| - i
  {
    if i < |b| {
      DigitRunShift(a, b, i + 1);
    }
  }

  lemma {:induction false} FirstDigitShift(a: string, b: string, i: nat)
    ensures FirstDigitFrom(a + b, |a| + i) == FirstDigitFrom(b, i)
    decreases |b| - i
  {
    if i < |b| {
      FirstDigitShift(a, b, i + 1);
      DigitRunShift(a, b, i);
    }
  }

  lemma {:induction false} FirstDigitSkip(a: string, b: string, i: nat)
    requires i <= |a| && forall j :: i <= j < |a| ==> !IsDigit(a[j])
    ensures FirstDigitFrom(a + b, i) == FirstDigitRun(b)
    decreases |a| - i
  {
    if i < |a| {
      FirstDigitSkip(a, b, i + 1);
    } else {
      FirstDigitShift(a, b, 0);
    }
  }

  /** The first number of a sentence lies after any leading word without digits. */
  lemma FirstDigitAfterWord(a: string, b: string)
    requires forall j :: 0 <= j < |a| ==> !IsDigit(a[j])
    ensures FirstDigitRun(a + " " + b) == FirstDigitRun(b)
  {
    assert a + " " + b == (a + " ") + b;
    FirstDigitSkip(a + " ", b, 0);
  }

  lemma {:induction false} FirstDigitFromIsFirstMatch(t: string, i: nat)
    ensures FirstDigitFrom(t, i).None? <==> forall j :: i <= j < |t| ==> !IsDigit(t[j])
    ensures FirstDigitFrom(t, i).Some? ==>
      exists j :: i <= j < |t| && IsDigit(t[j]) && (forall m :: i <= m < j ==> !IsDigit(t[m]))
        && FirstDigitFrom(t, i).value == DigitRunFrom(t, j)
    decreases |t| - i
  {
    if i < |t| && !IsDigit(t[i]) {
      FirstDigitFromIsFirstMatch(t, i + 1);
      if FirstDigitFrom(t, i + 1).Some? {
        var j :| i + 1 <= j < |t| && IsDigit(t[j]) && (forall m :: i + 1 <= m < j ==> !IsDigit(t[m]))
          && FirstDigitFrom(t, i + 1).value == DigitRunFrom(t, j);
        assert forall m :: i <= m < j ==> !IsDigit(t[m]);
      }
    }
  }

  /**
   * The run is found exactly when the text has a digit; it starts at the
   * first digit and stops before the next non-digit.
   */
  lemma FirstDigitRunIsFirstMatch(t: string)
    ensures FirstDigitRun(t).None? <==> forall i :: 0 <= i < |t| ==> !IsDigit(t[i])
    ensures FirstDigitRun(t).Some? ==>
      exists i :: 0 <= i < |t| && IsDigit(t[i]) && (forall j :: 0 <= j < i ==> !IsDigit(t[j]))
        && FirstDigitRun(t).value == DigitRunFrom(t, i)
  {
    FirstDigitFromIsFirstMatch(t, 0);
  }
}
