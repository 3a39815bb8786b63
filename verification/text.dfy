/** The Some/None datatype used for every optional field and every
    "the pattern did not match" outcome. */
module Wrappers {

  datatype Option<+T> = None | Some(value: T)
}

/** Character classes of the regular expressions the line parser uses,
    and the scanning primitives (maximal runs, literal prefixes) from
    which the hand-written matchers are built. */
module Text {

  /** The class `\s` of the regex crate: the Unicode White_Space property. */
  predicate IsSpace(c: char)
  {
    || c == ' ' || c == '\t' || c == '\n' || c == '\U{000B}' || c == '\U{000C}' || c == '\r'
    || c == '\U{0085}' || c == '\U{00A0}' || c == '\U{1680}'
    || ('\U{2000}' <= c <= '\U{200A}')
    || c == '\U{2028}' || c == '\U{2029}' || c == '\U{202F}' || c == '\U{205F}' || c == '\U{3000}'
  }

  /** The class `\S`. */
  predicate NonSpace(c: char)
  {
    !IsSpace(c)
  }

  /** The class `\w`, restricted to its ASCII members. */
  predicate IsWordChar(c: char)
  {
    ('a' <= c <= 'z') || ('A' <= c <= 'Z') || ('0' <= c <= '9') || c == '_'
  }

  /** The class `.` (every character except a line feed). */
  predicate NotNewline(c: char)
  {
    c != '\n'
  }

  /** The class `[^']`. */
  predicate NotQuote(c: char)
  {
    c != '\''
  }

  /** The class `[^,']`. */
  predicate NotCommaOrQuote(c: char)
  {
    c != ',' && c != '\''
  }

  /** Every character of `s[lo..hi]` is in the class `p`. */
  predicate AllIn(s: string, lo: nat, hi: nat, p: char -> bool)
    requires lo <= hi <= |s|
  {
    forall k :: lo <= k < hi ==> p(s[k])
  }

  /** The literal `lit` occurs in `s` starting at index `i`. */
  predicate HasAt(s: string, i: nat, lit: string)
  {
    i + |lit| <= |s| && s[i..i + |lit|] == lit
  }

  /** `lit` occurs nowhere in `s`. */
  predicate Avoids(s: string, lit: string)
  {
    forall i :: 0 <= i <= |s| ==> !HasAt(s, i, lit)
  }

  /** End of the longest run of `p`-characters starting at `i`: where a
      greedy `p*` starting at `i` stops. */
  function RunEnd(s: string, i: nat, p: char -> bool): (j: nat)
    requires i <= |s|
    ensures i <= j <= |s|
    ensures AllIn(s, i, j, p)
    ensures j == |s| || !p(s[j])
    decreases |s| - i
  {
    if i == |s| || !p(s[i]) then i else RunEnd(s, i + 1, p)
  }

  /** Every run of `p`-characters from `i` ends no later than `RunEnd`. */
  lemma RunWithinRunEnd(s: string, i: nat, j: nat, p: char -> bool)
    requires i <= j <= |s| && AllIn(s, i, j, p)
    ensures j <= RunEnd(s, i, p)
  {
  }

  /** A run of `p`-characters followed by a character outside `p` (or by
      the end of `s`) is the maximal run: its end is `RunEnd`. */
  lemma RunEndUnique(s: string, i: nat, j: nat, p: char -> bool)
    requires i <= j <= |s| && AllIn(s, i, j, p)
    requires j == |s| || !p(s[j])
    ensures j == RunEnd(s, i, p)
  {
    RunWithinRunEnd(s, i, j, p);
  }

  /** Quantified form of `RunWithinRunEnd`, for use inside function bodies. */
  lemma RunsWithinRunEnd(s: string, i: nat, p: char -> bool)
    requires i <= |s|
    ensures forall j :: i <= j <= |s| && AllIn(s, i, j, p) ==> j <= RunEnd(s, i, p)
  {
    forall j | i <= j <= |s| && AllIn(s, i, j, p)
      ensures j <= RunEnd(s, i, p)
    {
      RunWithinRunEnd(s, i, j, p);
    }
  }

  /** A literal occurring at `i` starts with the character at `i`. */
  lemma HasAtFirst(s: string, i: nat, lit: string)
    requires HasAt(s, i, lit) && |lit| > 0
    ensures s[i] == lit[0]
  {
    assert s[i..i + |lit|][0] == s[i];
  }

  /** A literal occurring at `i` fixes each character it covers. */
  lemma HasAtIndex(s: string, i: nat, lit: string, k: nat)
    requires HasAt(s, i, lit) && k < |lit|
    ensures s[i + k] == lit[k]
  {
    assert s[i..i + |lit|][k] == s[i + k];
  }

  /** A literal `x + y` occurring at `i` is `x` at `i` followed by `y`. */
  lemma HasAtSplit(s: string, i: nat, x: string, y: string)
    requires HasAt(s, i, x + y)
    ensures HasAt(s, i, x) && HasAt(s, i + |x|, y)
  {
    assert s[i..i + |x|] == s[i..i + |x + y|][..|x|];
    assert s[i + |x|..i + |x| + |y|] == s[i..i + |x + y|][|x|..];
  }

  /** A literal made of `p`-characters occurring at `i` is a run of `p`. */
  lemma HasAtAllIn(s: string, i: nat, lit: string, p: char -> bool)
    requires HasAt(s, i, lit) && forall c :: c in lit ==> p(c)
    ensures AllIn(s, i, i + |lit|, p)
  {
    forall k | i <= k < i + |lit|
      ensures p(s[k])
    {
      HasAtIndex(s, i, lit, k - i);
    }
  }

  /** Two literals occurring one after the other form their concatenation. */
  lemma HasAtJoin(s: string, i: nat, x: string, y: string)
    requires HasAt(s, i, x) && HasAt(s, i + |x|, y)
    ensures HasAt(s, i, x + y)
  {
    assert s[i..i + |x| + |y|] == s[i..i + |x|] + s[i + |x|..i + |x| + |y|];
  }

  /** Adjacent runs of `p` form one run. */
  lemma AllInJoin(s: string, lo: nat, mid: nat, hi: nat, p: char -> bool)
    requires lo <= mid <= hi <= |s| && AllIn(s, lo, mid, p) && AllIn(s, mid, hi, p)
    ensures AllIn(s, lo, hi, p)
  {
  }

  /** A literal occurring at the start of `s` is the prefix of `s` of its length. */
  lemma HasAtStart(s: string, lit: string)
    requires HasAt(s, 0, lit)
    ensures s[..|lit|] == lit
  {
  }

  /** Two strings that avoid `lit` still avoid it when joined, provided no
      occurrence can straddle the junction: the character on one side of
      it is not in `lit`. */
  lemma AvoidsJoin(a: string, b: string, lit: string)
    requires Avoids(a, lit) && Avoids(b, lit)
    requires |a| == 0 || |b| == 0 || a[|a| - 1] !in lit || b[0] !in lit
    ensures Avoids(a + b, lit)
  {
    forall i | 0 <= i <= |a + b| && HasAt(a + b, i, lit)
      ensures false
    {
      if i + |lit| <= |a| {
        assert (a + b)[i..i + |lit|] == a[i..i + |lit|];
        assert HasAt(a, i, lit);
      } else if i >= |a| {
        assert (a + b)[i..i + |lit|] == b[i - |a|..i - |a| + |lit|];
        assert HasAt(b, i - |a|, lit);
      } else {
        HasAtIndex(a + b, i, lit, |a| - 1 - i);
        HasAtIndex(a + b, i, lit, |a| - i);
      }
    }
  }

  /** A string without the first character of `lit` avoids it. */
  lemma AvoidsWithoutFirst(s: string, lit: string)
    requires |lit| > 0 && lit[0] !in s
    ensures Avoids(s, lit)
  {
    forall i | 0 <= i <= |s| && HasAt(s, i, lit)
      ensures false
    {
      HasAtFirst(s, i, lit);
    }
  }

  /** A string no longer than `lit` and different from it avoids it. */
  lemma AvoidsOther(s: string, lit: string)
    requires |s| <= |lit| && s != lit
    ensures Avoids(s, lit)
  {
  }

  /** Avoiding a prefix of `lit` means avoiding `lit`. */
  lemma AvoidsLonger(s: string, pre: string, lit: string)
    requires Avoids(s, pre) && |pre| <= |lit| && lit[..|pre|] == pre
    ensures Avoids(s, lit)
  {
    forall i | 0 <= i <= |s| && HasAt(s, i, lit)
      ensures false
    {
      assert s[i..i + |pre|] == s[i..i + |lit|][..|pre|];
      assert HasAt(s, i, pre);
    }
  }

  /** When the text before `k` avoids `lit` and the character just before
      `k` is not in `lit`, no occurrence of `lit` starts before `k`. */
  lemma NoOccurrenceBefore(s: string, k: nat, lit: string)
    requires k <= |s| && Avoids(s[..k], lit)
    requires k == 0 || s[k - 1] !in lit
    ensures forall i :: 0 <= i < k ==> !HasAt(s, i, lit)
  {
    forall i | 0 <= i < k
      ensures !HasAt(s, i, lit)
    {
      if i + |lit| <= k {
        assert s[..k][i..i + |lit|] == s[i..i + |lit|];
        assert !HasAt(s[..k], i, lit);
      }
    }
  }
}
