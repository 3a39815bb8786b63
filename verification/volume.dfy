/** The three volume extractors of src/event.rs. Each searches a line for
    the leftmost match of `KEY\s*=\s*'([^']+)'` and returns the text
    between the quotes. */
module VolumeField {
  import opened Wrappers
  import opened Text

  const PathKey: string := "DAVolumePath"
  const KindKey: string := "DAVolumeKind"
  const NameKey: string := "DAVolumeName"

  /** The text the three keys start with. */
  const VolumePrefix: string := "DAVolume"

  /** One match of `KEY\s*=\s*'([^']+)'`, by the positions of the key, the
      `=` and the two quotes. */
  datatype Match = Match(start: nat, equals: nat, open: nat, close: nat)

  predicate IsMatch(line: string, key: string, m: Match)
  {
    && HasAt(line, m.start, key)
    && m.start + |key| <= m.equals < |line|
    && AllIn(line, m.start + |key|, m.equals, IsSpace)
    && line[m.equals] == '='
    && m.equals + 1 <= m.open < |line|
    && AllIn(line, m.equals + 1, m.open, IsSpace)
    && line[m.open] == '\''
    && m.open + 1 < m.close < |line|
    && AllIn(line, m.open + 1, m.close, NotQuote)
    && line[m.close] == '\''
  }

  /** The capture group: the text between the quotes. */
  function Captured(line: string, m: Match): string
    requires m.open < m.close <= |line|
  {
    line[m.open + 1..m.close]
  }

  /** `m` is the match the regex crate reports: no match starts earlier. */
  ghost predicate IsLeftmost(line: string, key: string, m: Match)
  {
    IsMatch(line, key, m) && forall m' :: IsMatch(line, key, m') ==> m.start <= m'.start
  }

  /** The pattern matches nowhere in `line`. */
  ghost predicate NoMatch(line: string, key: string)
  {
    forall m :: !IsMatch(line, key, m)
  }

  /** `v` is the capture of the leftmost match. */
  ghost predicate IsLeftmostCapture(line: string, key: string, v: string)
  {
    exists m :: IsLeftmost(line, key, m) && Captured(line, m) == v
  }

  /** Every quantifier of the pattern is forced (each is followed by a
      character its class excludes), so at most one match starts at a
      given index. */
  lemma MatchUniqueAtStart(line: string, key: string, a: Match, b: Match)
    requires IsMatch(line, key, a) && IsMatch(line, key, b)
    requires a.start == b.start
    ensures a == b
  {
    RunEndUnique(line, a.start + |key|, a.equals, IsSpace);
    RunEndUnique(line, b.start + |key|, b.equals, IsSpace);
    RunEndUnique(line, a.equals + 1, a.open, IsSpace);
    RunEndUnique(line, b.equals + 1, b.open, IsSpace);
    RunEndUnique(line, a.open + 1, a.close, NotQuote);
    RunEndUnique(line, b.open + 1, b.close, NotQuote);
  }

  /** In a match, each of the three quantified runs is the maximal one. */
  lemma MatchRunsAreMaximal(line: string, key: string)
    ensures forall m :: IsMatch(line, key, m) ==>
      && m.equals == RunEnd(line, m.start + |key|, IsSpace)
      && m.open == RunEnd(line, m.equals + 1, IsSpace)
      && m.close == RunEnd(line, m.open + 1, NotQuote)
  {
    forall m | IsMatch(line, key, m)
      ensures m.equals == RunEnd(line, m.start + |key|, IsSpace)
      ensures m.open == RunEnd(line, m.equals + 1, IsSpace)
      ensures m.close == RunEnd(line, m.open + 1, NotQuote)
    {
      RunEndUnique(line, m.start + |key|, m.equals, IsSpace);
      RunEndUnique(line, m.equals + 1, m.open, IsSpace);
      RunEndUnique(line, m.open + 1, m.close, NotQuote);
    }
  }

  /** The pattern anchored at index `p`. */
  function MatchAt(line: string, key: string, p: nat): (r: Option<Match>)
    requires p <= |line|
    ensures r.Some? ==> r.value.start == p && IsMatch(line, key, r.value)
    ensures r.None? ==> forall m :: IsMatch(line, key, m) ==> m.start != p
  {
    MatchRunsAreMaximal(line, key);
    if !HasAt(line, p, key) then None
    else
      var equals := RunEnd(line, p + |key|, IsSpace);
      if equals == |line| || line[equals] != '=' then None
      else
        var open := RunEnd(line, equals + 1, IsSpace);
        if open == |line| || line[open] != '\'' then None
        else
          var close := RunEnd(line, open + 1, NotQuote);
          if close == |line| || close == open + 1 then None
          else Some(Match(p, equals, open, close))
  }

  /** The unanchored search: the first index at or after `p` where the
      anchored pattern matches. */
  function FindFrom(line: string, key: string, p: nat): (r: Option<Match>)
    requires p <= |line|
    ensures r.Some? ==> IsMatch(line, key, r.value) && p <= r.value.start
    ensures r.Some? ==> forall m :: IsMatch(line, key, m) && p <= m.start ==> r.value.start <= m.start
    ensures r.None? ==> forall m :: IsMatch(line, key, m) ==> m.start < p
    decreases |line| - p
  {
    match MatchAt(line, key, p)
    case Some(m) => Some(m)
    case None => if p == |line| then None else FindFrom(line, key, p + 1)
  }

  /** `extract_volume_path`, `extract_volume_kind` and `extract_volume_name`
      with the key as a parameter: the capture of the leftmost match, or
      nothing when the pattern matches nowhere. */
  function Extract(line: string, key: string): (r: Option<string>)
    ensures r.None? <==> NoMatch(line, key)
    ensures r.Some? ==> IsLeftmostCapture(line, key, r.value)
    ensures r.Some? ==> |r.value| > 0 && '\'' !in r.value
  {
    match FindFrom(line, key, 0)
    case Some(m) => Some(Captured(line, m))
    case None => None
  }

  function ExtractVolumePath(line: string): (r: Option<string>)
    ensures r.None? <==> NoMatch(line, PathKey)
    ensures r.Some? ==> IsLeftmostCapture(line, PathKey, r.value)
  {
    Extract(line, PathKey)
  }

  function ExtractVolumeKind(line: string): (r: Option<string>)
    ensures r.None? <==> NoMatch(line, KindKey)
    ensures r.Some? ==> IsLeftmostCapture(line, KindKey, r.value)
  {
    Extract(line, KindKey)
  }

  function ExtractVolumeName(line: string): (r: Option<string>)
    ensures r.None? <==> NoMatch(line, NameKey)
    ensures r.Some? ==> IsLeftmostCapture(line, NameKey, r.value)
  {
    Extract(line, NameKey)
  }

  /** The leftmost capture is well defined: two leftmost matches are the
      same match, so the extractor's answer is the only possible one. */
  lemma LeftmostCaptureUnique(line: string, key: string, v: string, w: string)
    requires IsLeftmostCapture(line, key, v) && IsLeftmostCapture(line, key, w)
    ensures v == w
  {
    var a :| IsLeftmost(line, key, a) && Captured(line, a) == v;
    var b :| IsLeftmost(line, key, b) && Captured(line, b) == w;
    MatchUniqueAtStart(line, key, a, b);
  }

  /** None of the three patterns can match a line without the text `DAVolume`. */
  lemma NoMatchWithoutPrefix(line: string, key: string)
    requires key == PathKey || key == KindKey || key == NameKey
    requires Avoids(line, VolumePrefix)
    ensures NoMatch(line, key)
  {
    forall m | IsMatch(line, key, m)
      ensures false
    {
      assert key[..8] == VolumePrefix;
      assert line[m.start..m.start + 8] == line[m.start..m.start + |key|][..8];
      assert HasAt(line, m.start, VolumePrefix);
    }
  }

  /** The text the monitoring tool prints for one volume field. */
  function Assignment(key: string, v: string): string
  {
    key + " = '" + v + "'"
  }

  /** The match formed by the printed field `Assignment(key, v)` at `k`. */
  function AssignmentMatch(k: nat, key: string, v: string): Match
  {
    Match(k, k + |key| + 1, k + |key| + 3, k + |key| + 4 + |v|)
  }

  /** A printed field with a non-empty quote-free value is a match of its
      key's pattern, and the match captures the value. */
  lemma AssignmentMatches(line: string, k: nat, key: string, v: string)
    requires HasAt(line, k, Assignment(key, v)) && |v| > 0 && '\'' !in v
    ensures IsMatch(line, key, AssignmentMatch(k, key, v))
    ensures Captured(line, AssignmentMatch(k, key, v)) == v
  {
    HasAtSplit(line, k, key + " = '" + v, "'");
    HasAtSplit(line, k, key + " = '", v);
    HasAtSplit(line, k, key, " = '");
    PiecesMatch(line, k, key, v);
  }

  /** The pieces of a printed field, each in place, form its match. */
  lemma PiecesMatch(line: string, k: nat, key: string, v: string)
    requires HasAt(line, k, key) && HasAt(line, k + |key|, " = '")
    requires HasAt(line, k + |key| + 4, v) && HasAt(line, k + |key| + 4 + |v|, "'")
    requires |v| > 0 && '\'' !in v
    ensures IsMatch(line, key, AssignmentMatch(k, key, v))
    ensures Captured(line, AssignmentMatch(k, key, v)) == v
  {
    var m := AssignmentMatch(k, key, v);
    EqualsAt(line, k + |key|);
    HasAtIndex(line, m.close, "'", 0);
    HasAtAllIn(line, m.open + 1, v, NotQuote);
    assert line[m.open + 1..m.close] == v;
  }

  /** `" = '"` at `i`: one space on each side of the `=`, then the quote. */
  lemma EqualsAt(line: string, i: nat)
    requires HasAt(line, i, " = '")
    ensures line[i] == ' ' && line[i + 1] == '=' && line[i + 2] == ' ' && line[i + 3] == '\''
    ensures AllIn(line, i, i + 1, IsSpace) && AllIn(line, i + 2, i + 3, IsSpace)
  {
    HasAtIndex(line, i, " = '", 0);
    HasAtIndex(line, i, " = '", 1);
    HasAtIndex(line, i, " = '", 2);
    HasAtIndex(line, i, " = '", 3);
  }

  /** A printed field with no occurrence of its key before it holds the
      leftmost capture. */
  lemma LeftmostAssignment(line: string, k: nat, key: string, v: string)
    requires HasAt(line, k, Assignment(key, v)) && |v| > 0 && '\'' !in v
    requires forall i :: 0 <= i < k ==> !HasAt(line, i, key)
    ensures IsLeftmostCapture(line, key, v)
  {
    AssignmentMatches(line, k, key, v);
    assert IsLeftmost(line, key, AssignmentMatch(k, key, v));
  }

  /** A printed field for another key keeps `key` avoided. */
  lemma AssignmentAvoids(other: string, v: string, key: string)
    requires key == PathKey || key == KindKey || key == NameKey
    requires Avoids(other, key) && Avoids(v, key)
    ensures Avoids(Assignment(other, v), key)
  {
    AvoidsWithoutFirst(" = '", key);
    AvoidsJoin(other, " = '", key);
    AvoidsJoin(other + " = '", v, key);
    AvoidsWithoutFirst("'", key);
    AvoidsJoin(other + " = '" + v, "'", key);
  }

  /** The printed field that follows a text free of its key, and a
      character outside the key, holds the leftmost capture. */
  lemma FirstAssignmentIsLeftmost(line: string, pre: string, key: string, v: string)
    requires HasAt(line, 0, pre + Assignment(key, v))
    requires Avoids(pre, key) && (|pre| == 0 || pre[|pre| - 1] !in key)
    requires |v| > 0 && '\'' !in v
    ensures IsLeftmostCapture(line, key, v)
  {
    HasAtSplit(line, 0, pre, Assignment(key, v));
    HasAtStart(line, pre);
    NoOccurrenceBefore(line, |pre|, key);
    LeftmostAssignment(line, |pre|, key, v);
  }
}
