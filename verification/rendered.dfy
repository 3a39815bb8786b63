/** Lines of the shape the monitoring tool prints, and what `from_line`
    makes of them. A `Line` holds the parts of such a line; `Render` lays
    them out as

      ***<name> (['<subject>'|<subject>][, DAVolumePath = '<p>', DAVolumeKind = '<k>', DAVolumeName = '<n>']) [Comment=<c> ]Time=<t>

    and the theorems below say that parsing the rendered line gives the
    parts back. The first part gives, for each stage of the header
    pattern, conditions on the characters of a line under which a given
    witness is that stage's first match. */
module Rendered {
  import opened Wrappers
  import opened Text
  import opened Header
  import opened VolumeField
  import opened Events

  /** Every character except `)` and the line feed. */
  predicate Plain(c: char)
  {
    c != ')' && c != '\n'
  }

  predicate NotParen(c: char)
  {
    c != ')'
  }

  /** `Time=<t>` running to the end of the line, with no comment. */
  lemma FirstSuffixWithoutComment(line: string, g: nat)
    requires HasAt(line, g, TimeTag) && g + 5 < |line| && AllIn(line, g + 5, |line|, NonSpace)
    ensures FirstSuffix(line, g, Suffix(false, g, g, |line|))
  {
    HasAtIndex(line, g, TimeTag, 0);
    HasAtIndex(line, g, TimeTag, 1);
    forall w | ValidSuffix(line, g, w)
      ensures !BetterSuffix(w, Suffix(false, g, g, |line|))
    {
      if w.comment {
        HasAtIndex(line, g, CommentTag, 1);
      }
    }
  }

  /** `Comment=<c> Time=<t>` running to the end of the line, with the
      comment ending at `ce` and `Time=` at `t`. */
  lemma FirstSuffixWithComment(line: string, g: nat, ce: nat, t: nat)
    requires HasAt(line, g, CommentTag) && g + 8 < ce < |line| && AllIn(line, g + 8, ce, NonSpace)
    requires line[ce] == ' ' && t == ce + 1
    requires HasAt(line, t, TimeTag) && t + 5 < |line| && AllIn(line, t + 5, |line|, NonSpace)
    ensures FirstSuffix(line, g, Suffix(true, ce, t, |line|))
  {
    HasAtIndex(line, t, TimeTag, 0);
  }

  /** One space after `)`, then a suffix that does not start with a space. */
  lemma FirstTailAfterSpace(line: string, f: nat, s: Suffix)
    requires f + 1 < |line| && line[f] == ' ' && !IsSpace(line[f + 1])
    requires FirstSuffix(line, f + 1, s)
    ensures FirstTail(line, f, Tail(f + 1, s))
  {
  }

  /** The first `)` after `d`, when a tail follows it. */
  lemma FirstCloseAtParen(line: string, d: nat, p: nat, t: Tail)
    requires d <= p < |line| && AllIn(line, d, p, Plain) && line[p] == ')'
    requires FirstTail(line, p + 1, t)
    ensures FirstClose(line, d, Close(p, t))
  {
  }

  /** No close at all when no `)` follows. */
  lemma NoCloseWithoutParen(line: string, lo: nat, x: nat)
    requires lo <= x <= |line| && AllIn(line, lo, |line|, NotParen)
    ensures forall c :: !ValidClose(line, x, c)
  {
  }

  /** The header pattern needs a `)`: a line with none yields nothing. */
  lemma NoParenNoMetadata(line: string)
    requires AllIn(line, 0, |line|, NotParen)
    ensures Header.NoMatch(line)
    ensures ExtractBaseMetadata(line).None?
  {
    forall w | ValidMatch(line, w)
      ensures false
    {
      var s := w.inner.subject;
      NoCloseWithoutParen(line, 0, s.subjectEnd + (if s.rest.quote then 1 else 0));
    }
  }

  /** `'?` takes the quote at `d` when a close follows it. */
  lemma FirstQuotedTaken(line: string, d: nat, c: Close)
    requires d < |line| && line[d] == '\''
    requires FirstClose(line, d + 1, c)
    ensures FirstQuoted(line, d, Quoted(true, c))
  {
  }

  /** `'?` takes nothing when `d` holds no quote. */
  lemma FirstQuotedSkipped(line: string, d: nat, c: Close)
    requires d < |line| ==> line[d] != '\''
    requires FirstClose(line, d, c)
    ensures FirstQuoted(line, d, Quoted(false, c))
  {
  }

  /** The subject `[^,']+` from `cs` ends at `se` when `se` holds a comma or
      a quote, or when no `)` follows `se`, so that no longer subject can be
      followed by a close. */
  lemma FirstSubjectAt(line: string, cs: nat, se: nat, q: Quoted)
    requires cs < se < |line| && AllIn(line, cs, se, NotCommaOrQuote)
    requires !NotCommaOrQuote(line[se]) || AllIn(line, se + 1, |line|, NotParen)
    requires FirstQuoted(line, se, q)
    ensures FirstSubject(line, cs, Subject(se, q))
  {
  }

  /** `'?` after `(` takes the quote at `o` when a subject follows it. */
  lemma FirstOpenedTaken(line: string, o: nat, s: Subject)
    requires o < |line| && line[o] == '\''
    requires FirstSubject(line, o + 1, s)
    ensures FirstOpened(line, o, Opened(true, s))
  {
  }

  /** `'?` after `(` takes nothing when the subject starts right there. */
  lemma FirstOpenedSkipped(line: string, o: nat, s: Subject)
    requires FirstSubject(line, o, s)
    ensures FirstOpened(line, o, Opened(false, s))
  {
    assert NotCommaOrQuote(line[o]);
  }

  // ---------------------------------------------------------------------
  // The parts of a line and the way the monitoring tool lays them out.

  datatype Volumes = Volumes(path: string, kind: string, name: string)

  /** The parts of one printed line. `quoted` says whether the subject
      stands between quotes; `volumes` and `comment` are optional. */
  datatype Line = Line(
    name: string,
    subject: string,
    quoted: bool,
    volumes: Option<Volumes>,
    comment: Option<string>,
    time: string)

  function QuoteText(quoted: bool): string
  {
    if quoted then "'" else ""
  }

  function VolumeText(vs: Option<Volumes>): string
  {
    match vs
    case None => ""
    case Some(v) =>
      ", " + Assignment(PathKey, v.path) + ", " + Assignment(KindKey, v.kind) + ", " + Assignment(NameKey, v.name)
  }

  function CommentText(c: Option<string>): string
  {
    match c
    case None => ""
    case Some(text) => CommentTag + text + " "
  }

  /** `***<name> (` and the subject with its quotes. */
  function Opening(l: Line): string
  {
    Stars + l.name + " (" + QuoteText(l.quoted) + l.subject + QuoteText(l.quoted)
  }

  function Render(l: Line): string
  {
    Opening(l) + VolumeText(l.volumes) + ") " + CommentText(l.comment) + TimeTag + l.time
  }

  /** A volume value: no quote, no `)` and no line feed. */
  predicate VolumeChar(c: char)
  {
    c != '\'' && Plain(c)
  }

  /** A non-empty part made of `p`-characters that never spells `DAVolume`. */
  predicate Token(s: string, p: char -> bool)
  {
    |s| > 0 && (forall c :: c in s ==> p(c)) && Avoids(s, VolumePrefix)
  }

  predicate VolumesWellFormed(vs: Option<Volumes>)
  {
    vs.Some? ==> Token(vs.value.path, VolumeChar) && Token(vs.value.kind, VolumeChar) && Token(vs.value.name, VolumeChar)
  }

  /** The parts have the shapes the header pattern's groups capture whole.
      A bare subject with no volume list is ended by the last `)`, so then
      neither the comment nor the time may hold one. */
  predicate WellFormed(l: Line)
  {
    && Token(l.name, IsWordChar)
    && Token(l.subject, NotCommaOrQuote)
    && VolumesWellFormed(l.volumes)
    && (l.comment.Some? ==> Token(l.comment.value, NonSpace))
    && Token(l.time, NonSpace)
    && (!l.quoted && l.volumes.None? ==> (l.comment.Some? ==> ')' !in l.comment.value) && ')' !in l.time)
  }

  // Where each part starts in the rendered line.

  function NameEnd(l: Line): nat { 3 + |l.name| }
  function OpenParen(l: Line): nat { NameEnd(l) + 1 }
  function SubjectBegin(l: Line): nat { OpenParen(l) + 1 + |QuoteText(l.quoted)| }
  function SubjectEnd(l: Line): nat { SubjectBegin(l) + |l.subject| }
  function VolumesBegin(l: Line): nat { SubjectEnd(l) + |QuoteText(l.quoted)| }
  function CloseParen(l: Line): nat { VolumesBegin(l) + |VolumeText(l.volumes)| }
  function SuffixBegin(l: Line): nat { CloseParen(l) + 2 }
  function TimeBegin(l: Line): nat { SuffixBegin(l) + |CommentText(l.comment)| }
  function CommentEnd(l: Line): nat { SuffixBegin(l) + 8 + (if l.comment.Some? then |l.comment.value| else 0) }
  function LineEnd(l: Line): nat { TimeBegin(l) + 5 + |l.time| }

  /** Every part of `l` sits at its place in `line`. */
  predicate Layout(line: string, l: Line)
  {
    OpeningLayout(line, l) && RestLayout(line, l) && HasAt(line, 0, Opening(l))
  }

  /** The parts up to the subject's closing quote. */
  predicate OpeningLayout(line: string, l: Line)
  {
    var q := QuoteText(l.quoted);
    && HasAt(line, 0, Stars) && HasAt(line, 3, l.name) && HasAt(line, NameEnd(l), " (")
    && HasAt(line, OpenParen(l) + 1, q) && HasAt(line, SubjectBegin(l), l.subject) && HasAt(line, SubjectEnd(l), q)
  }

  /** The parts from the volume list to the end of the line. */
  predicate RestLayout(line: string, l: Line)
  {
    && |line| == LineEnd(l)
    && HasAt(line, VolumesBegin(l), VolumeText(l.volumes)) && HasAt(line, CloseParen(l), ") ")
    && HasAt(line, SuffixBegin(l), CommentText(l.comment)) && HasAt(line, TimeBegin(l), TimeTag)
    && HasAt(line, TimeBegin(l) + 5, l.time)
  }

  /** The six pieces of a concatenation at `i`, each at its offset. */
  lemma SplitSix(line: string, i: nat, a: string, b: string, c: string, d: string, e: string, f: string)
    requires HasAt(line, i, a + b + c + d + e + f)
    ensures HasAt(line, i, a) && HasAt(line, i + |a|, b) && HasAt(line, i + |a| + |b|, c)
    ensures HasAt(line, i + |a| + |b| + |c|, d) && HasAt(line, i + |a| + |b| + |c| + |d|, e)
    ensures HasAt(line, i + |a| + |b| + |c| + |d| + |e|, f)
  {
    HasAtSplit(line, i, a + b + c + d + e, f);
    HasAtSplit(line, i, a + b + c + d, e);
    HasAtSplit(line, i, a + b + c, d);
    HasAtSplit(line, i, a + b, c);
    HasAtSplit(line, i, a, b);
  }

  lemma RenderLayout(l: Line)
    ensures Layout(Render(l), l)
  {
    var line := Render(l);
    assert HasAt(line, 0, line);
    RestOfPieces(line, l);
    OpeningOfPieces(line, l);
  }

  lemma RestOfPieces(line: string, l: Line)
    requires HasAt(line, 0, Opening(l) + VolumeText(l.volumes) + ") " + CommentText(l.comment) + TimeTag + l.time)
    requires |line| == LineEnd(l)
    ensures RestLayout(line, l) && HasAt(line, 0, Opening(l))
  {
    OpeningLength(l);
    RestAt(line, Opening(l), VolumeText(l.volumes), CommentText(l.comment), l.time,
      VolumesBegin(l), CloseParen(l), SuffixBegin(l), TimeBegin(l));
  }

  lemma OpeningLength(l: Line)
    ensures |Opening(l)| == VolumesBegin(l)
  {
  }

  /** The pieces of a rendered line after the opening, at the positions
      named by `vb`, `cp`, `sb` and `tb`. */
  lemma RestAt(line: string, o: string, vt: string, ct: string, time: string, vb: nat, cp: nat, sb: nat, tb: nat)
    requires HasAt(line, 0, o + vt + ") " + ct + TimeTag + time)
    requires vb == |o| && cp == vb + |vt| && sb == cp + 2 && tb == sb + |ct|
    ensures HasAt(line, 0, o) && HasAt(line, vb, vt) && HasAt(line, cp, ") ")
    ensures HasAt(line, sb, ct) && HasAt(line, tb, TimeTag) && HasAt(line, tb + 5, time)
  {
    SplitSix(line, 0, o, vt, ") ", ct, TimeTag, time);
  }

  lemma OpeningOfPieces(line: string, l: Line)
    requires HasAt(line, 0, Opening(l))
    ensures OpeningLayout(line, l)
  {
    var q := QuoteText(l.quoted);
    SplitSix(line, 0, Stars, l.name, " (", q, l.subject, q);
  }

  // ---------------------------------------------------------------------
  // The first header match of a laid-out line, stage by stage.

  function SuffixOf(l: Line): Suffix
  {
    SuffixAt(SuffixBegin(l), CommentEnd(l), TimeBegin(l), l.comment, LineEnd(l))
  }

  function CloseOf(l: Line): Close
  {
    Close(CloseParen(l), Tail(SuffixBegin(l), SuffixOf(l)))
  }

  function SubjectOfLine(l: Line): Subject
  {
    Subject(SubjectEnd(l), Quoted(l.quoted, CloseOf(l)))
  }

  /** The match the regex crate reports for a rendered line. */
  function Witness(l: Line): Header.Match
  {
    Header.Match(NameEnd(l), OpenParen(l), Opened(l.quoted, SubjectOfLine(l)))
  }

  /** The suffix `[Comment=<c> ]Time=<t>` from `g`, with the comment
      ending at `ce`, `Time=` at `t`, and the time running to `end`. */
  function SuffixAt(g: nat, ce: nat, t: nat, c: Option<string>, end: nat): Suffix
  {
    if c.None? then Suffix(false, g, g, end) else Suffix(true, ce, t, end)
  }

  /** The suffix `[Comment=<c> ]Time=<time>` from `g`, with `Time=` at `t`,
      running to the end of the line. */
  lemma SuffixPieces(line: string, g: nat, ce: nat, t: nat, c: Option<string>, time: string)
    requires c.Some? ==> ce == g + 8 + |c.value|
    requires t == g + |CommentText(c)| && |line| == t + 5 + |time|
    requires HasAt(line, g, CommentText(c)) && HasAt(line, t, TimeTag) && HasAt(line, t + 5, time)
    requires |time| > 0 && forall ch :: ch in time ==> NonSpace(ch)
    requires c.Some? ==> |c.value| > 0 && forall ch :: ch in c.value ==> NonSpace(ch)
    ensures FirstSuffix(line, g, SuffixAt(g, ce, t, c, |line|))
    ensures !IsSpace(line[g])
  {
    HasAtAllIn(line, t + 5, time, NonSpace);
    match c
    case None =>
      HasAtIndex(line, g, TimeTag, 0);
      FirstSuffixWithoutComment(line, g);
    case Some(text) =>
      HasAtSplit(line, g, CommentTag + text, " ");
      HasAtSplit(line, g, CommentTag, text);
      HasAtIndex(line, g, CommentTag, 0);
      HasAtAllIn(line, g + 8, text, NonSpace);
      HasAtIndex(line, g + 8 + |text|, " ", 0);
      FirstSuffixWithComment(line, g, ce, t);
  }

  /** `) ` at `p` followed by the suffix at `g`: the first close from `d`
      when the text from `d` to `p` is plain. */
  lemma ClosePieces(line: string, d: nat, p: nat, g: nat, s: Suffix)
    requires g == p + 2 && HasAt(line, p, ") ") && g < |line| && !IsSpace(line[g])
    requires d <= p && AllIn(line, d, p, Plain)
    requires FirstSuffix(line, g, s)
    ensures FirstClose(line, d, Close(p, Tail(g, s)))
  {
    HasAtIndex(line, p, ") ", 0);
    HasAtIndex(line, p, ") ", 1);
    FirstTailAfterSpace(line, p + 1, s);
    FirstCloseAtParen(line, d, p, Tail(g, s));
  }

  /** A printed field with a plain value is plain. */
  lemma AssignmentPlain(key: string, v: string)
    requires key == PathKey || key == KindKey || key == NameKey
    requires forall c :: c in v ==> Plain(c)
    ensures forall c :: c in Assignment(key, v) ==> Plain(c)
  {
  }

  /** The volume list holds neither `)` nor a line feed. */
  lemma VolumeTextPlain(vs: Option<Volumes>)
    requires VolumesWellFormed(vs)
    ensures forall c :: c in VolumeText(vs) ==> Plain(c)
  {
    if vs.Some? {
      var v := vs.value;
      AssignmentPlain(PathKey, v.path);
      AssignmentPlain(KindKey, v.kind);
      AssignmentPlain(NameKey, v.name);
      var a := ", " + Assignment(PathKey, v.path);
      var b := a + ", " + Assignment(KindKey, v.kind);
      assert forall c :: c in a ==> Plain(c);
      assert forall c :: c in b ==> Plain(c);
    }
  }

  /** After `) ` nothing holds a `)` when neither the comment nor the time does. */
  lemma NoParenAfterClose(line: string, p: nat, g: nat, t: nat, c: Option<string>, time: string)
    requires g == p + 2 && t == g + |CommentText(c)| && |line| == t + 5 + |time|
    requires HasAt(line, p, ") ") && HasAt(line, g, CommentText(c)) && HasAt(line, t, TimeTag) && HasAt(line, t + 5, time)
    requires (c.Some? ==> ')' !in c.value) && ')' !in time
    ensures AllIn(line, p + 1, |line|, NotParen)
  {
    HasAtIndex(line, p, ") ", 1);
    HasAtAllIn(line, g, CommentText(c), NotParen);
    HasAtAllIn(line, t, TimeTag, NotParen);
    HasAtAllIn(line, t + 5, time, NotParen);
    AllInJoin(line, p + 1, g, t, NotParen);
    AllInJoin(line, p + 1, t, t + 5, NotParen);
    AllInJoin(line, p + 1, t + 5, |line|, NotParen);
  }

  /** A bare subject ending at `se` is followed by the comma of the volume
      list, or by the last `)` of the line. */
  predicate BareSubjectEnded(line: string, se: nat)
  {
    se < |line| && (line[se] == ',' || (line[se] == ')' && AllIn(line, se + 1, |line|, NotParen)))
  }

  /** `'?([^,']+)'?` from `o`: the subject from `cs` to `se`, written with
      quotes or without, followed by the first close from `d`. */
  lemma OpenedPieces(line: string, o: nat, cs: nat, se: nat, d: nat, quoted: bool, subject: string, c: Close)
    requires cs == o + |QuoteText(quoted)| && se == cs + |subject| && d == se + |QuoteText(quoted)|
    requires HasAt(line, o, QuoteText(quoted)) && HasAt(line, cs, subject) && HasAt(line, se, QuoteText(quoted))
    requires |subject| > 0 && forall ch :: ch in subject ==> NotCommaOrQuote(ch)
    requires FirstClose(line, d, c)
    requires !quoted ==> BareSubjectEnded(line, se)
    ensures FirstOpened(line, o, Opened(quoted, Subject(se, Quoted(quoted, c))))
  {
    HasAtAllIn(line, cs, subject, NotCommaOrQuote);
    if quoted {
      HasAtIndex(line, o, "'", 0);
      HasAtIndex(line, se, "'", 0);
      FirstQuotedTaken(line, se, c);
      FirstSubjectAt(line, cs, se, Quoted(true, c));
      FirstOpenedTaken(line, o, Subject(se, Quoted(true, c)));
    } else {
      FirstQuotedSkipped(line, se, c);
      FirstSubjectAt(line, cs, se, Quoted(false, c));
      FirstOpenedSkipped(line, o, Subject(se, Quoted(false, c)));
    }
  }

  /** `***<name> (` followed by the first opened stage: the first match. */
  lemma MatchPieces(line: string, n: nat, m: nat, name: string, op: Opened)
    requires n == 3 + |name| && m == n + 1
    requires HasAt(line, 0, Stars) && HasAt(line, 3, name) && HasAt(line, n, " (")
    requires |name| > 0 && forall ch :: ch in name ==> IsWordChar(ch)
    requires FirstOpened(line, m + 1, op)
    ensures FirstMatch(line, Header.Match(n, m, op))
  {
    HasAtAllIn(line, 3, name, IsWordChar);
    HasAtIndex(line, n, " (", 0);
    HasAtIndex(line, n, " (", 1);
    RunEndUnique(line, 3, n, IsWordChar);
    RunEndUnique(line, n, m, IsSpace);
    MatchFromOpened(line, n, m, op);
  }

  /** The close stage of a laid-out line: its `)` after the volume list. */
  lemma LayoutClose(line: string, l: Line)
    requires WellFormed(l) && RestLayout(line, l)
    ensures FirstClose(line, VolumesBegin(l), CloseOf(l))
  {
    SuffixPieces(line, SuffixBegin(l), CommentEnd(l), TimeBegin(l), l.comment, l.time);
    VolumeTextPlain(l.volumes);
    HasAtAllIn(line, VolumesBegin(l), VolumeText(l.volumes), Plain);
    ClosePieces(line, VolumesBegin(l), CloseParen(l), SuffixBegin(l), SuffixOf(l));
  }

  /** What follows a bare subject: the comma of the volume list, or the
      last `)` of the line. */
  lemma AfterBareSubject(line: string, l: Line)
    requires WellFormed(l) && RestLayout(line, l) && !l.quoted
    ensures BareSubjectEnded(line, VolumesBegin(l))
  {
    if l.volumes.Some? {
      HasAtIndex(line, VolumesBegin(l), VolumeText(l.volumes), 0);
    } else {
      HasAtIndex(line, CloseParen(l), ") ", 0);
      NoParenAfterClose(line, CloseParen(l), SuffixBegin(l), TimeBegin(l), l.comment, l.time);
    }
  }

  /** The stage after `(` of a laid-out line. */
  lemma LayoutOpened(line: string, l: Line)
    requires WellFormed(l) && OpeningLayout(line, l)
    requires FirstClose(line, VolumesBegin(l), CloseOf(l))
    requires !l.quoted ==> BareSubjectEnded(line, VolumesBegin(l))
    ensures FirstOpened(line, OpenParen(l) + 1, Opened(l.quoted, SubjectOfLine(l)))
  {
    OpenedPieces(line, OpenParen(l) + 1, SubjectBegin(l), SubjectEnd(l), VolumesBegin(l), l.quoted, l.subject, CloseOf(l));
  }

  /** A well-formed laid-out line has `Witness(l)` as its first header match. */
  lemma LayoutFirstMatch(line: string, l: Line)
    requires WellFormed(l) && OpeningLayout(line, l) && RestLayout(line, l)
    ensures FirstMatch(line, Witness(l))
  {
    LayoutClose(line, l);
    if !l.quoted {
      AfterBareSubject(line, l);
    }
    LayoutOpened(line, l);
    MatchPieces(line, NameEnd(l), OpenParen(l), l.name, Opened(l.quoted, SubjectOfLine(l)));
  }

  // ---------------------------------------------------------------------
  // The captures of the first header match and of the volume patterns.

  /** The device name `from_line` keeps for a subject. */
  function BsdNameOf(subject: string): Option<string>
  {
    if subject == NoBsdName then None else Some(subject)
  }

  /** Where the parts of a laid-out line are captured. */
  lemma LayoutCaptures(line: string, l: Line)
    requires |line| == LineEnd(l)
    requires HasAt(line, 3, l.name) && HasAt(line, SubjectBegin(l), l.subject)
    requires HasAt(line, SuffixBegin(l), CommentText(l.comment)) && HasAt(line, TimeBegin(l) + 5, l.time)
    ensures line[3..NameEnd(l)] == l.name
    ensures line[SubjectBegin(l)..SubjectEnd(l)] == l.subject
    ensures l.comment.Some? ==> line[SuffixBegin(l) + 8..CommentEnd(l)] == l.comment.value
    ensures line[TimeBegin(l) + 5..LineEnd(l)] == l.time
  {
    if l.comment.Some? {
      HasAtSplit(line, SuffixBegin(l), CommentTag + l.comment.value, " ");
      HasAtSplit(line, SuffixBegin(l), CommentTag, l.comment.value);
    }
  }

  /** The header captures of a laid-out line are its parts. */
  lemma LayoutReports(line: string, l: Line)
    requires ValidMatch(line, Witness(l)) && |line| == LineEnd(l)
    requires line[3..NameEnd(l)] == l.name
    requires line[SubjectBegin(l)..SubjectEnd(l)] == l.subject
    requires l.comment.Some? ==> line[SuffixBegin(l) + 8..CommentEnd(l)] == l.comment.value
    requires line[TimeBegin(l) + 5..LineEnd(l)] == l.time
    ensures Reports(line, Witness(l), Metadata(l.name, BsdNameOf(l.subject), l.comment, l.time))
  {
    var w := Witness(l);
    assert TailOf(w) == Tail(SuffixBegin(l), SuffixOf(l));
    CapturesAt(line, w, NameEnd(l), SubjectBegin(l), SubjectEnd(l), SuffixBegin(l), CommentEnd(l), TimeBegin(l),
      l.name, l.subject, l.comment, l.time);
  }

  /** A valid match whose group boundaries are the given positions, over
      a line holding the given parts there, reports those parts. */
  lemma CapturesAt(line: string, w: Header.Match, ne: nat, ss: nat, se: nat, g: nat, ce: nat, t: nat,
                   name: string, subject: string, comment: Option<string>, time: string)
    requires ValidMatch(line, w)
    requires w.nameEnd == ne && SubjectStart(w) == ss && w.inner.subject.subjectEnd == se
    requires TailOf(w).spacesEnd == g && TailOf(w).suffix.comment == comment.Some?
    requires comment.Some? ==> TailOf(w).suffix.commentEnd == ce
    requires TailOf(w).suffix.timeAt == t && TailOf(w).suffix.timeEnd == |line|
    requires line[3..ne] == name && line[ss..se] == subject
    requires comment.Some? ==> g + 8 <= ce <= |line| && line[g + 8..ce] == comment.value
    requires t + 5 <= |line| && line[t + 5..|line|] == time
    ensures Reports(line, w, Metadata(name, BsdNameOf(subject), comment, time))
  {
  }

  /** `***<name> (` and the subject never spell `DAVolume`. */
  lemma OpeningAvoids(l: Line)
    requires Avoids(l.name, VolumePrefix) && Avoids(l.subject, VolumePrefix)
    ensures Avoids(Opening(l), VolumePrefix)
  {
    var q := QuoteText(l.quoted);
    AvoidsWithoutFirst(Stars, VolumePrefix);
    AvoidsJoin(Stars, l.name, VolumePrefix);
    AvoidsWithoutFirst(" (", VolumePrefix);
    AvoidsJoin(Stars + l.name, " (", VolumePrefix);
    AvoidsWithoutFirst(q, VolumePrefix);
    AvoidsJoin(Stars + l.name + " (", q, VolumePrefix);
    AvoidsJoin(Stars + l.name + " (" + q, l.subject, VolumePrefix);
    AvoidsJoin(Stars + l.name + " (" + q + l.subject, q, VolumePrefix);
  }

  /** A key stays avoided past a printed field for another key and the
      separator after it. */
  lemma AvoidsAfterField(pre: string, other: string, v: string, key: string)
    requires key == PathKey || key == KindKey || key == NameKey
    requires Avoids(pre, key) && |pre| > 0 && pre[|pre| - 1] == ' '
    requires Avoids(other, key) && Avoids(v, VolumePrefix)
    ensures Avoids(pre + Assignment(other, v) + ", ", key)
  {
    AvoidsLonger(v, VolumePrefix, key);
    AssignmentAvoids(other, v, key);
    AvoidsJoin(pre, Assignment(other, v), key);
    AvoidsWithoutFirst(", ", key);
    AvoidsJoin(pre + Assignment(other, v), ", ", key);
  }

  /** The text before each printed field of a volume list that follows `pre`. */
  function PathPrefix(pre: string): string
  {
    pre + ", "
  }

  function KindPrefix(pre: string, v: Volumes): string
  {
    PathPrefix(pre) + Assignment(PathKey, v.path) + ", "
  }

  function NamePrefix(pre: string, v: Volumes): string
  {
    KindPrefix(pre, v) + Assignment(KindKey, v.kind) + ", "
  }

  /** Each printed field of a volume list, with the text before it. */
  lemma FieldsAt(line: string, pre: string, v: Volumes)
    requires HasAt(line, 0, pre) && HasAt(line, |pre|, VolumeText(Some(v)))
    ensures HasAt(line, 0, PathPrefix(pre) + Assignment(PathKey, v.path))
    ensures HasAt(line, 0, KindPrefix(pre, v) + Assignment(KindKey, v.kind))
    ensures HasAt(line, 0, NamePrefix(pre, v) + Assignment(NameKey, v.name))
  {
    PrefixesAt(line, pre, ", ", Assignment(PathKey, v.path), ", ", Assignment(KindKey, v.kind), ", ", Assignment(NameKey, v.name));
  }

  /** The growing prefixes of `pre + a + b + c + d + e + f`, given `pre`
      and the rest each in place. */
  lemma PrefixesAt(line: string, pre: string, a: string, b: string, c: string, d: string, e: string, f: string)
    requires HasAt(line, 0, pre) && HasAt(line, |pre|, a + b + c + d + e + f)
    ensures HasAt(line, 0, pre + a + b)
    ensures HasAt(line, 0, pre + a + b + c + d)
    ensures HasAt(line, 0, pre + a + b + c + d + e + f)
  {
    SplitSix(line, |pre|, a, b, c, d, e, f);
    JoinTwo(line, pre, a, b);
    JoinTwo(line, pre + a + b, c, d);
    JoinTwo(line, pre + a + b + c + d, e, f);
  }

  /** `pre`, then `a`, then `b` in place form `pre + a + b`. */
  lemma JoinTwo(line: string, pre: string, a: string, b: string)
    requires HasAt(line, 0, pre) && HasAt(line, |pre|, a) && HasAt(line, |pre| + |a|, b)
    ensures HasAt(line, 0, pre + a + b)
  {
    HasAtJoin(line, 0, pre, a);
    HasAtJoin(line, 0, pre + a, b);
  }

  /** The text before each printed field is free of that field's key. */
  lemma PrefixesAvoid(pre: string, v: Volumes)
    requires Avoids(pre, VolumePrefix)
    requires Avoids(v.path, VolumePrefix) && Avoids(v.kind, VolumePrefix)
    ensures Avoids(PathPrefix(pre), PathKey)
    ensures Avoids(KindPrefix(pre, v), KindKey)
    ensures Avoids(NamePrefix(pre, v), NameKey)
  {
    var o1 := PathPrefix(pre);
    AvoidsWithoutFirst(", ", VolumePrefix);
    AvoidsJoin(pre, ", ", VolumePrefix);
    AvoidsLonger(o1, VolumePrefix, PathKey);
    AvoidsLonger(o1, VolumePrefix, KindKey);
    AvoidsLonger(o1, VolumePrefix, NameKey);
    AvoidsOther(PathKey, KindKey);
    AvoidsOther(PathKey, NameKey);
    AvoidsOther(KindKey, NameKey);
    AvoidsAfterField(o1, PathKey, v.path, KindKey);
    AvoidsAfterField(o1, PathKey, v.path, NameKey);
    AvoidsAfterField(KindPrefix(pre, v), KindKey, v.kind, NameKey);
  }

  /** In a laid-out line with a volume list, each volume pattern's leftmost
      capture is the value printed for its key. */
  lemma LayoutVolumeCaptures(line: string, l: Line)
    requires WellFormed(l) && l.volumes.Some?
    requires HasAt(line, 0, Opening(l)) && HasAt(line, |Opening(l)|, VolumeText(l.volumes))
    ensures IsLeftmostCapture(line, PathKey, l.volumes.value.path)
    ensures IsLeftmostCapture(line, KindKey, l.volumes.value.kind)
    ensures IsLeftmostCapture(line, NameKey, l.volumes.value.name)
  {
    var v := l.volumes.value;
    var pre := Opening(l);
    FieldsAt(line, pre, v);
    OpeningAvoids(l);
    PrefixesAvoid(pre, v);
    FirstAssignmentIsLeftmost(line, PathPrefix(pre), PathKey, v.path);
    FirstAssignmentIsLeftmost(line, KindPrefix(pre, v), KindKey, v.kind);
    FirstAssignmentIsLeftmost(line, NamePrefix(pre, v), NameKey, v.name);
  }

  /** The comment part never spells `DAVolume` when its text does not. */
  lemma CommentAvoids(c: Option<string>)
    requires c.Some? ==> Avoids(c.value, VolumePrefix)
    ensures Avoids(CommentText(c), VolumePrefix)
  {
    if c.Some? {
      AvoidsWithoutFirst(CommentTag, VolumePrefix);
      AvoidsJoin(CommentTag, c.value, VolumePrefix);
      AvoidsWithoutFirst(" ", VolumePrefix);
      AvoidsJoin(CommentTag + c.value, " ", VolumePrefix);
    }
  }

  /** A rendered line without a volume list never spells `DAVolume`. */
  lemma VolumeFreeLineAvoids(l: Line)
    requires WellFormed(l) && l.volumes.None?
    ensures Avoids(Render(l), VolumePrefix)
  {
    var o := Opening(l);
    var ct := CommentText(l.comment);
    OpeningAvoids(l);
    AvoidsWithoutFirst("", VolumePrefix);
    AvoidsJoin(o, "", VolumePrefix);
    AvoidsWithoutFirst(") ", VolumePrefix);
    AvoidsJoin(o + "", ") ", VolumePrefix);
    CommentAvoids(l.comment);
    AvoidsJoin(o + "" + ") ", ct, VolumePrefix);
    AvoidsWithoutFirst(TimeTag, VolumePrefix);
    AvoidsJoin(o + "" + ") " + ct, TimeTag, VolumePrefix);
    AvoidsJoin(o + "" + ") " + ct + TimeTag, l.time, VolumePrefix);
  }

  // ---------------------------------------------------------------------
  // Parsing a rendered line.

  /** The event the parts of `l` describe: the subject `(no BSD name)`
      gives no device name, and a volume value `<null>` gives an absent
      field. */
  function Expected(l: Line): Event
  {
    var path := if l.volumes.Some? then StoredVolumeValue(l.volumes.value.path) else None;
    var kind := if l.volumes.Some? then StoredVolumeValue(l.volumes.value.kind) else None;
    var volumeName := if l.volumes.Some? then StoredVolumeValue(l.volumes.value.name) else None;
    Event(l.name, l.time, BsdNameOf(l.subject), path, kind, volumeName, l.comment)
  }

  /** The header fields of a parsed rendered line are its parts. */
  lemma RenderedHeader(l: Line)
    requires WellFormed(l)
    ensures FromLine(Render(l)).name == l.name && FromLine(Render(l)).time == l.time
    ensures FromLine(Render(l)).bsdName == BsdNameOf(l.subject)
    ensures FromLine(Render(l)).comment == l.comment
  {
    var line := Render(l);
    RenderLayout(l);
    LayoutMetadata(line, l);
    HeaderFieldsRead(line, Witness(l), Metadata(l.name, BsdNameOf(l.subject), l.comment, l.time), FromLine(line));
  }

  /** A laid-out line's first header match reports its parts. */
  lemma LayoutMetadata(line: string, l: Line)
    requires WellFormed(l) && OpeningLayout(line, l) && RestLayout(line, l)
    ensures FirstMatch(line, Witness(l))
    ensures Reports(line, Witness(l), Metadata(l.name, BsdNameOf(l.subject), l.comment, l.time))
  {
    LayoutFirstMatch(line, l);
    LayoutCaptures(line, l);
    LayoutReports(line, l);
  }

  /** Header fields read from a line are what its first match reports. */
  lemma HeaderFieldsRead(line: string, w: Header.Match, md: Metadata, e: Event)
    requires FirstMatch(line, w) && Reports(line, w, md)
    requires HeaderFieldsFrom(line, e)
    ensures e.name == md.name && e.time == md.time && e.bsdName == md.bsdName && e.comment == md.comment
  {
    ReportsUnique(line, w, Metadata(e.name, e.bsdName, e.comment, e.time), md);
  }

  /** The volume fields of a parsed rendered line with a volume list are
      its printed values, `<null>` read as absent. */
  lemma RenderedVolumes(l: Line)
    requires WellFormed(l) && l.volumes.Some?
    ensures FromLine(Render(l)).volumePath == StoredVolumeValue(l.volumes.value.path)
    ensures FromLine(Render(l)).volumeKind == StoredVolumeValue(l.volumes.value.kind)
    ensures FromLine(Render(l)).volumeName == StoredVolumeValue(l.volumes.value.name)
  {
    var line := Render(l);
    var v := l.volumes.value;
    RenderLayout(l);
    OpeningLength(l);
    LayoutVolumeCaptures(line, l);
    var e := FromLine(line);
    CapturedVolumeField(line, PathKey, v.path, e.volumePath);
    CapturedVolumeField(line, KindKey, v.kind, e.volumeKind);
    CapturedVolumeField(line, NameKey, v.name, e.volumeName);
  }

  /** Round trip: `from_line` reads every part of a well-formed printed
      line back. */
  lemma ParseRendered(l: Line)
    requires WellFormed(l)
    ensures FromLine(Render(l)) == Expected(l)
  {
    RenderedHeader(l);
    if l.volumes.Some? {
      RenderedVolumes(l);
    } else {
      VolumeFreeLineAvoids(l);
      NoVolumeTextNoVolumeFields(Render(l));
    }
  }
}
