/** `extract_base_metadata` of src/event.rs: the anchored header pattern

      ^[*]{3}(\w+)\s*\('?([^,']+)'?.*?\)\s*(Comment=(\S+))?\s*Time=(\S+)

    A match is described by a witness: one datatype per stage of the
    pattern, holding the positions where that stage's quantifiers stop.
    `ValidX` says a witness matches, and `BetterX` is the order in which
    the regex crate's leftmost-first semantics prefers matches: a greedy
    quantifier prefers the longer run, the lazy `.*?` the shorter one, and
    `?` prefers taking its operand. The match the crate reports is the
    `FirstX` one, a valid witness that no valid witness beats. Each
    scanner below returns exactly that witness, or nothing when the
    pattern cannot match. */
module Header {
  import opened Wrappers
  import opened Text

  const Stars: string := "***"
  const CommentTag: string := "Comment="
  const TimeTag: string := "Time="

  /** The subject the monitoring tool prints for a disk without a device name. */
  const NoBsdName: string := "(no BSD name)"

  // ---------------------------------------------------------------------
  // Stage `Time=(\S+)` at index `k`; the witness is the end of the token.

  predicate ValidTime(line: string, k: nat, timeEnd: nat)
  {
    HasAt(line, k, TimeTag) && k + 5 < timeEnd <= |line| && AllIn(line, k + 5, timeEnd, NonSpace)
  }

  function ScanTime(line: string, k: nat): (r: Option<nat>)
    ensures r.Some? ==> ValidTime(line, k, r.value)
    ensures r.Some? ==> forall t: nat :: ValidTime(line, k, t) ==> t <= r.value
    ensures r.None? ==> forall t: nat :: !ValidTime(line, k, t)
  {
    if HasAt(line, k, TimeTag) && k + 5 < |line| && NonSpace(line[k + 5]) then
      RunsWithinRunEnd(line, k + 5, NonSpace);
      Some(RunEnd(line, k + 5, NonSpace))
    else
      None
  }

  /** `Time=` starts with a character outside `\s`, so only the maximal run
      of spaces before it can be followed by it. */
  lemma TimeFollowsMaximalSpaces(line: string, h: nat)
    requires h <= |line|
    ensures forall k: nat, t: nat :: h <= k <= |line| && AllIn(line, h, k, IsSpace) && ValidTime(line, k, t) ==>
      k == RunEnd(line, h, IsSpace)
  {
    forall k: nat, t: nat | h <= k <= |line| && AllIn(line, h, k, IsSpace) && ValidTime(line, k, t)
      ensures k == RunEnd(line, h, IsSpace)
    {
      HasAtFirst(line, k, TimeTag);
      RunEndUnique(line, h, k, IsSpace);
    }
  }

  /** `\s*Time=(\S+)` from index `h`: the index of `Time=` and the end of the token. */
  function ScanSpacedTime(line: string, h: nat): (r: Option<(nat, nat)>)
    requires h <= |line|
    ensures r.Some? ==> h <= r.value.0 <= |line| && AllIn(line, h, r.value.0, IsSpace)
    ensures r.Some? ==> ValidTime(line, r.value.0, r.value.1)
    ensures r.Some? ==> forall k: nat, t: nat :: h <= k <= |line| && AllIn(line, h, k, IsSpace) && ValidTime(line, k, t) ==>
      k == r.value.0 && t <= r.value.1
    ensures r.None? ==> forall k: nat, t: nat :: h <= k <= |line| && AllIn(line, h, k, IsSpace) ==> !ValidTime(line, k, t)
  {
    TimeFollowsMaximalSpaces(line, h);
    var k := RunEnd(line, h, IsSpace);
    match ScanTime(line, k)
    case Some(t) => Some((k, t))
    case None => None
  }

  // ---------------------------------------------------------------------
  // Stage `(Comment=(\S+))?\s*Time=(\S+)` at index `g`.

  /** Without the comment group, `commentEnd` is `g` itself. */
  datatype Suffix = Suffix(comment: bool, commentEnd: nat, timeAt: nat, timeEnd: nat)

  predicate ValidSuffix(line: string, g: nat, w: Suffix)
  {
    && (if w.comment then
          HasAt(line, g, CommentTag) && g + 8 < w.commentEnd <= |line| && AllIn(line, g + 8, w.commentEnd, NonSpace)
        else
          w.commentEnd == g)
    && w.commentEnd <= w.timeAt <= |line|
    && AllIn(line, w.commentEnd, w.timeAt, IsSpace)
    && ValidTime(line, w.timeAt, w.timeEnd)
  }

  predicate BetterSuffix(a: Suffix, b: Suffix)
  {
    || (a.comment && !b.comment)
    || (a.comment == b.comment && a.commentEnd > b.commentEnd)
    || (a.comment == b.comment && a.commentEnd == b.commentEnd && a.timeAt > b.timeAt)
    || (a.comment == b.comment && a.commentEnd == b.commentEnd && a.timeAt == b.timeAt && a.timeEnd > b.timeEnd)
  }

  ghost predicate FirstSuffix(line: string, g: nat, w: Suffix)
  {
    ValidSuffix(line, g, w) && forall w' :: ValidSuffix(line, g, w') ==> !BetterSuffix(w', w)
  }

  /** The greedy `(\S+)` of the comment, backtracking from end `h` downwards. */
  function ScanCommentFrom(line: string, g: nat, h: nat): (r: Option<Suffix>)
    requires HasAt(line, g, CommentTag) && g + 8 <= h <= |line| && AllIn(line, g + 8, h, NonSpace)
    ensures r.Some? ==> ValidSuffix(line, g, r.value) && r.value.comment && r.value.commentEnd <= h
    ensures r.Some? ==> forall w :: ValidSuffix(line, g, w) && w.comment && w.commentEnd <= h ==> !BetterSuffix(w, r.value)
    ensures r.None? ==> forall w :: ValidSuffix(line, g, w) && w.comment ==> w.commentEnd > h
    decreases h
  {
    if h == g + 8 then None
    else
      match ScanSpacedTime(line, h)
      case Some((k, t)) => Some(Suffix(true, h, k, t))
      case None =>
        NoCommentEndingAt(line, g, h);
        ScanCommentFrom(line, g, h - 1)
  }

  /** The comment token cannot end where `\s*Time=(\S+)` cannot follow. */
  lemma NoCommentEndingAt(line: string, g: nat, h: nat)
    requires h <= |line|
    requires forall k: nat, t: nat :: h <= k <= |line| && AllIn(line, h, k, IsSpace) ==> !ValidTime(line, k, t)
    ensures forall w :: ValidSuffix(line, g, w) && w.comment ==> w.commentEnd != h
  {
  }

  function ScanSuffix(line: string, g: nat): (r: Option<Suffix>)
    requires g <= |line|
    ensures r.Some? ==> FirstSuffix(line, g, r.value)
    ensures r.None? ==> forall w :: !ValidSuffix(line, g, w)
  {
    var withComment :=
      if HasAt(line, g, CommentTag) then
        RunsWithinRunEnd(line, g + 8, NonSpace);
        ScanCommentFrom(line, g, RunEnd(line, g + 8, NonSpace))
      else None;
    if withComment.Some? then withComment
    else
      match ScanSpacedTime(line, g)
      case Some((k, t)) => Some(Suffix(false, g, k, t))
      case None => None
  }

  // ---------------------------------------------------------------------
  // Stage `\s*` followed by the suffix, at index `f`.

  datatype Tail = Tail(spacesEnd: nat, suffix: Suffix)

  predicate ValidTail(line: string, f: nat, w: Tail)
  {
    f <= w.spacesEnd <= |line| && AllIn(line, f, w.spacesEnd, IsSpace) && ValidSuffix(line, w.spacesEnd, w.suffix)
  }

  predicate BetterTail(a: Tail, b: Tail)
  {
    a.spacesEnd > b.spacesEnd || (a.spacesEnd == b.spacesEnd && BetterSuffix(a.suffix, b.suffix))
  }

  ghost predicate FirstTail(line: string, f: nat, w: Tail)
  {
    ValidTail(line, f, w) && forall w' :: ValidTail(line, f, w') ==> !BetterTail(w', w)
  }

  /** The greedy `\s*`, backtracking from end `g` downwards. */
  function ScanTailFrom(line: string, f: nat, g: nat): (r: Option<Tail>)
    requires f <= g <= |line| && AllIn(line, f, g, IsSpace)
    ensures r.Some? ==> ValidTail(line, f, r.value) && r.value.spacesEnd <= g
    ensures r.Some? ==> forall w :: ValidTail(line, f, w) && w.spacesEnd <= g ==> !BetterTail(w, r.value)
    ensures r.None? ==> forall w :: ValidTail(line, f, w) ==> w.spacesEnd > g
    decreases g
  {
    match ScanSuffix(line, g)
    case Some(s) => Some(Tail(g, s))
    case None =>
      NoTailSpacesEndingAt(line, f, g);
      if g == f then None else ScanTailFrom(line, f, g - 1)
  }

  /** The spaces cannot end where the suffix cannot start. */
  lemma NoTailSpacesEndingAt(line: string, f: nat, g: nat)
    requires forall s :: !ValidSuffix(line, g, s)
    ensures forall w :: ValidTail(line, f, w) ==> w.spacesEnd != g
  {
  }

  function ScanTail(line: string, f: nat): (r: Option<Tail>)
    requires f <= |line|
    ensures r.Some? ==> FirstTail(line, f, r.value)
    ensures r.None? ==> forall w :: !ValidTail(line, f, w)
  {
    RunsWithinRunEnd(line, f, IsSpace);
    ScanTailFrom(line, f, RunEnd(line, f, IsSpace))
  }

  // ---------------------------------------------------------------------
  // Stage `.*?\)` followed by the tail, at index `x`.

  datatype Close = Close(paren: nat, tail: Tail)

  predicate ValidClose(line: string, x: nat, w: Close)
  {
    && x <= w.paren < |line|
    && AllIn(line, x, w.paren, NotNewline)
    && line[w.paren] == ')'
    && ValidTail(line, w.paren + 1, w.tail)
  }

  /** The lazy `.*?` prefers the earlier closing parenthesis. */
  predicate BetterClose(a: Close, b: Close)
  {
    a.paren < b.paren || (a.paren == b.paren && BetterTail(a.tail, b.tail))
  }

  ghost predicate FirstClose(line: string, x: nat, w: Close)
  {
    ValidClose(line, x, w) && forall w' :: ValidClose(line, x, w') ==> !BetterClose(w', w)
  }

  /** The lazy `.*?`, extending from index `e` upwards; `.` stops at a line feed. */
  function ScanCloseFrom(line: string, x: nat, e: nat): (r: Option<Close>)
    requires x <= e <= |line| && AllIn(line, x, e, NotNewline)
    ensures r.Some? ==> ValidClose(line, x, r.value) && r.value.paren >= e
    ensures r.Some? ==> forall w :: ValidClose(line, x, w) && w.paren >= e ==> !BetterClose(w, r.value)
    ensures r.None? ==> forall w :: ValidClose(line, x, w) ==> w.paren < e
    decreases |line| - e
  {
    if e == |line| then None
    else
      var t := if line[e] == ')' then ScanTail(line, e + 1) else None;
      if t.Some? then
        CloseAt(line, x, e, t.value);
        Some(Close(e, t.value))
      else
        NoCloseAt(line, x, e, e + 1);
        if line[e] == '\n' then
          NoCloseBeyondNewline(line, x, e);
          None
        else
          ScanCloseFrom(line, x, e + 1)
  }

  /** A `)` at `e` followed by the first tail is the first close among
      those at or after `e`. */
  lemma CloseAt(line: string, x: nat, e: nat, t: Tail)
    requires x <= e < |line| && AllIn(line, x, e, NotNewline) && line[e] == ')'
    requires FirstTail(line, e + 1, t)
    ensures ValidClose(line, x, Close(e, t))
    ensures forall w :: ValidClose(line, x, w) && w.paren >= e ==> !BetterClose(w, Close(e, t))
  {
  }

  /** No close ends at `e` when `e` holds no `)` or no tail follows it. */
  lemma NoCloseAt(line: string, x: nat, e: nat, after: nat)
    requires e < |line| && after == e + 1
    requires line[e] != ')' || forall t :: !ValidTail(line, after, t)
    ensures forall w :: ValidClose(line, x, w) ==> w.paren != e
  {
  }

  /** `.` does not cross a line feed, so every close ends before one. */
  lemma NoCloseBeyondNewline(line: string, x: nat, e: nat)
    requires x <= e < |line| && line[e] == '\n'
    ensures forall w :: ValidClose(line, x, w) ==> w.paren <= e
  {
  }

  function ScanClose(line: string, x: nat): (r: Option<Close>)
    requires x <= |line|
    ensures r.Some? ==> FirstClose(line, x, r.value)
    ensures r.None? ==> forall w :: !ValidClose(line, x, w)
  {
    ScanCloseFrom(line, x, x)
  }

  // ---------------------------------------------------------------------
  // Stage `'?` followed by the close, at index `d`.

  datatype Quoted = Quoted(quote: bool, close: Close)

  predicate ValidQuoted(line: string, d: nat, w: Quoted)
  {
    if w.quote then d < |line| && line[d] == '\'' && ValidClose(line, d + 1, w.close)
    else ValidClose(line, d, w.close)
  }

  predicate BetterQuoted(a: Quoted, b: Quoted)
  {
    (a.quote && !b.quote) || (a.quote == b.quote && BetterClose(a.close, b.close))
  }

  ghost predicate FirstQuoted(line: string, d: nat, w: Quoted)
  {
    ValidQuoted(line, d, w) && forall w' :: ValidQuoted(line, d, w') ==> !BetterQuoted(w', w)
  }

  function ScanQuoted(line: string, d: nat): (r: Option<Quoted>)
    requires d <= |line|
    ensures r.Some? ==> FirstQuoted(line, d, r.value)
    ensures r.None? ==> forall w :: !ValidQuoted(line, d, w)
  {
    var taken := if d < |line| && line[d] == '\'' then ScanClose(line, d + 1) else None;
    if taken.Some? then Some(Quoted(true, taken.value))
    else
      match ScanClose(line, d)
      case Some(c) => Some(Quoted(false, c))
      case None => None
  }

  // ---------------------------------------------------------------------
  // Stage `([^,']+)` followed by the optional quote, at index `c`.

  datatype Subject = Subject(subjectEnd: nat, rest: Quoted)

  predicate ValidSubject(line: string, c: nat, w: Subject)
  {
    && c < w.subjectEnd <= |line|
    && AllIn(line, c, w.subjectEnd, NotCommaOrQuote)
    && ValidQuoted(line, w.subjectEnd, w.rest)
  }

  predicate BetterSubject(a: Subject, b: Subject)
  {
    a.subjectEnd > b.subjectEnd || (a.subjectEnd == b.subjectEnd && BetterQuoted(a.rest, b.rest))
  }

  ghost predicate FirstSubject(line: string, c: nat, w: Subject)
  {
    ValidSubject(line, c, w) && forall w' :: ValidSubject(line, c, w') ==> !BetterSubject(w', w)
  }

  /** The greedy `[^,']+`, backtracking from end `d` downwards. */
  function ScanSubjectFrom(line: string, c: nat, d: nat): (r: Option<Subject>)
    requires c <= d <= |line| && AllIn(line, c, d, NotCommaOrQuote)
    ensures r.Some? ==> ValidSubject(line, c, r.value) && r.value.subjectEnd <= d
    ensures r.Some? ==> forall w :: ValidSubject(line, c, w) && w.subjectEnd <= d ==> !BetterSubject(w, r.value)
    ensures r.None? ==> forall w :: ValidSubject(line, c, w) ==> w.subjectEnd > d
    decreases d
  {
    if d == c then None
    else
      match ScanQuoted(line, d)
      case Some(q) => Some(Subject(d, q))
      case None =>
        NoSubjectEndingAt(line, c, d);
        ScanSubjectFrom(line, c, d - 1)
  }

  /** A subject cannot end where the rest of the pattern cannot start. */
  lemma NoSubjectEndingAt(line: string, c: nat, d: nat)
    requires forall q :: !ValidQuoted(line, d, q)
    ensures forall w :: ValidSubject(line, c, w) ==> w.subjectEnd != d
  {
  }

  function ScanSubject(line: string, c: nat): (r: Option<Subject>)
    requires c <= |line|
    ensures r.Some? ==> FirstSubject(line, c, r.value)
    ensures r.None? ==> forall w :: !ValidSubject(line, c, w)
  {
    RunsWithinRunEnd(line, c, NotCommaOrQuote);
    ScanSubjectFrom(line, c, RunEnd(line, c, NotCommaOrQuote))
  }

  // ---------------------------------------------------------------------
  // Stage `'?` followed by the subject, just after the opening `(`.

  datatype Opened = Opened(quote: bool, subject: Subject)

  predicate ValidOpened(line: string, o: nat, w: Opened)
  {
    if w.quote then o < |line| && line[o] == '\'' && ValidSubject(line, o + 1, w.subject)
    else ValidSubject(line, o, w.subject)
  }

  predicate BetterOpened(a: Opened, b: Opened)
  {
    (a.quote && !b.quote) || (a.quote == b.quote && BetterSubject(a.subject, b.subject))
  }

  ghost predicate FirstOpened(line: string, o: nat, w: Opened)
  {
    ValidOpened(line, o, w) && forall w' :: ValidOpened(line, o, w') ==> !BetterOpened(w', w)
  }

  function ScanOpened(line: string, o: nat): (r: Option<Opened>)
    requires o <= |line|
    ensures r.Some? ==> FirstOpened(line, o, r.value)
    ensures r.None? ==> forall w :: !ValidOpened(line, o, w)
  {
    var taken := if o < |line| && line[o] == '\'' then ScanSubject(line, o + 1) else None;
    if taken.Some? then Some(Opened(true, taken.value))
    else
      match ScanSubject(line, o)
      case Some(s) => Some(Opened(false, s))
      case None => None
  }

  // ---------------------------------------------------------------------
  // The whole pattern, anchored at the start of the line.

  datatype Match = Match(nameEnd: nat, openParen: nat, inner: Opened)

  predicate ValidMatch(line: string, w: Match)
  {
    && HasAt(line, 0, Stars)
    && 3 < w.nameEnd <= |line|
    && AllIn(line, 3, w.nameEnd, IsWordChar)
    && w.nameEnd <= w.openParen < |line|
    && AllIn(line, w.nameEnd, w.openParen, IsSpace)
    && line[w.openParen] == '('
    && ValidOpened(line, w.openParen + 1, w.inner)
  }

  predicate BetterMatch(a: Match, b: Match)
  {
    || a.nameEnd > b.nameEnd
    || (a.nameEnd == b.nameEnd && a.openParen > b.openParen)
    || (a.nameEnd == b.nameEnd && a.openParen == b.openParen && BetterOpened(a.inner, b.inner))
  }

  /** The match the regex crate reports for the line. */
  ghost predicate FirstMatch(line: string, w: Match)
  {
    ValidMatch(line, w) && forall w' :: ValidMatch(line, w') ==> !BetterMatch(w', w)
  }

  /** The header pattern matches the line nowhere. */
  ghost predicate NoMatch(line: string)
  {
    forall w :: !ValidMatch(line, w)
  }

  /** `(\w+)` and `\s*` before `(` are forced: a shorter run would be
      followed by a character the next element cannot match. */
  lemma MatchPrefixForced(line: string, w: Match)
    requires ValidMatch(line, w)
    ensures w.nameEnd == RunEnd(line, 3, IsWordChar)
    ensures w.openParen == RunEnd(line, w.nameEnd, IsSpace)
  {
    if w.nameEnd < w.openParen {
      assert IsSpace(line[w.nameEnd]);
    }
    RunEndUnique(line, 3, w.nameEnd, IsWordChar);
    RunEndUnique(line, w.nameEnd, w.openParen, IsSpace);
  }

  /** Once the forced prefix is fixed, the first match is decided by the
      stage after the opening parenthesis. */
  lemma MatchFromOpened(line: string, n: nat, m: nat, o: Opened)
    requires HasAt(line, 0, Stars)
    requires n == RunEnd(line, 3, IsWordChar) && n > 3
    requires m == RunEnd(line, n, IsSpace) && m < |line| && line[m] == '('
    requires FirstOpened(line, m + 1, o)
    ensures FirstMatch(line, Match(n, m, o))
  {
    forall w | ValidMatch(line, w)
      ensures !BetterMatch(w, Match(n, m, o))
    {
      NotBetterThanForced(line, n, m, o, w);
    }
  }

  /** No match beats the one built on the forced prefix and the first opened stage. */
  lemma NotBetterThanForced(line: string, n: nat, m: nat, o: Opened, w: Match)
    requires 3 <= |line|
    requires n == RunEnd(line, 3, IsWordChar)
    requires m == RunEnd(line, n, IsSpace)
    requires FirstOpened(line, m + 1, o)
    requires ValidMatch(line, w)
    ensures !BetterMatch(w, Match(n, m, o))
  {
    MatchPrefixForced(line, w);
    NotBetterWithSamePrefix(line, n, m, o, w);
  }

  /** Among matches with the same prefix, the first opened stage wins. */
  lemma NotBetterWithSamePrefix(line: string, n: nat, m: nat, o: Opened, w: Match)
    requires ValidMatch(line, w) && w.nameEnd == n && w.openParen == m
    requires FirstOpened(line, m + 1, o)
    ensures !BetterMatch(w, Match(n, m, o))
  {
    assert ValidOpened(line, w.openParen + 1, w.inner);
  }

  /** Without a match after the opening parenthesis there is no match at all. */
  lemma NoMatchWithoutOpened(line: string, n: nat, m: nat, after: nat)
    requires 3 <= |line|
    requires n == RunEnd(line, 3, IsWordChar)
    requires m == RunEnd(line, n, IsSpace)
    requires after == m + 1
    requires forall o :: !ValidOpened(line, after, o)
    ensures NoMatch(line)
  {
    forall w | ValidMatch(line, w)
      ensures false
    {
      MatchPrefixForced(line, w);
    }
  }

  /** Without the forced prefix there is no match at all. */
  lemma NoMatchWithoutPrefix(line: string, n: nat, m: nat)
    requires 3 <= |line|
    requires n == RunEnd(line, 3, IsWordChar)
    requires m == RunEnd(line, n, IsSpace)
    requires n == 3 || m == |line| || line[m] != '('
    ensures NoMatch(line)
  {
    forall w | ValidMatch(line, w)
      ensures false
    {
      MatchPrefixForced(line, w);
    }
  }

  function ScanMatch(line: string): (r: Option<Match>)
    ensures r.Some? ==> FirstMatch(line, r.value)
    ensures r.None? ==> NoMatch(line)
  {
    if !HasAt(line, 0, Stars) then None
    else
      var n := RunEnd(line, 3, IsWordChar);
      var m := RunEnd(line, n, IsSpace);
      if n == 3 || m == |line| || line[m] != '(' then
        NoMatchWithoutPrefix(line, n, m);
        None
      else
        match ScanOpened(line, m + 1)
        case Some(o) =>
          MatchFromOpened(line, n, m, o);
          Some(Match(n, m, o))
        case None =>
          NoMatchWithoutOpened(line, n, m, m + 1);
          None
  }

  // ---------------------------------------------------------------------
  // The preference order is total, so the first match is unique.

  lemma SuffixOrderTotal(a: Suffix, b: Suffix)
    ensures a == b || BetterSuffix(a, b) || BetterSuffix(b, a)
  {
  }

  lemma TailOrderTotal(a: Tail, b: Tail)
    ensures a == b || BetterTail(a, b) || BetterTail(b, a)
  {
    SuffixOrderTotal(a.suffix, b.suffix);
  }

  lemma CloseOrderTotal(a: Close, b: Close)
    ensures a == b || BetterClose(a, b) || BetterClose(b, a)
  {
    TailOrderTotal(a.tail, b.tail);
  }

  lemma QuotedOrderTotal(a: Quoted, b: Quoted)
    ensures a == b || BetterQuoted(a, b) || BetterQuoted(b, a)
  {
    CloseOrderTotal(a.close, b.close);
  }

  lemma SubjectOrderTotal(a: Subject, b: Subject)
    ensures a == b || BetterSubject(a, b) || BetterSubject(b, a)
  {
    QuotedOrderTotal(a.rest, b.rest);
  }

  lemma OpenedOrderTotal(a: Opened, b: Opened)
    ensures a == b || BetterOpened(a, b) || BetterOpened(b, a)
  {
    SubjectOrderTotal(a.subject, b.subject);
  }

  lemma MatchOrderTotal(a: Match, b: Match)
    ensures a == b || BetterMatch(a, b) || BetterMatch(b, a)
  {
    OpenedOrderTotal(a.inner, b.inner);
  }

  /** The regex crate's answer is well defined: a line has at most one first match. */
  lemma FirstMatchUnique(line: string, a: Match, b: Match)
    requires FirstMatch(line, a) && FirstMatch(line, b)
    ensures a == b
  {
    MatchOrderTotal(a, b);
  }

  // ---------------------------------------------------------------------
  // Capture groups of a match.

  /** Where capture group 2 (the subject) begins: after `(` and the optional quote. */
  function SubjectStart(w: Match): nat
  {
    w.openParen + 1 + (if w.inner.quote then 1 else 0)
  }

  function TailOf(w: Match): Tail
  {
    w.inner.subject.rest.close.tail
  }

  /** Group 1, the event name. */
  function NameOf(line: string, w: Match): string
    requires ValidMatch(line, w)
  {
    line[3..w.nameEnd]
  }

  /** Group 2, the subject. */
  function SubjectOf(line: string, w: Match): string
    requires ValidMatch(line, w)
  {
    line[SubjectStart(w)..w.inner.subject.subjectEnd]
  }

  /** Group 4, the comment token, when group 3 took part in the match. */
  function CommentOf(line: string, w: Match): Option<string>
    requires ValidMatch(line, w)
  {
    var t := TailOf(w);
    if t.suffix.comment then Some(line[t.spacesEnd + 8..t.suffix.commentEnd]) else None
  }

  /** Group 5, the time token. */
  function TimeOf(line: string, w: Match): string
    requires ValidMatch(line, w)
  {
    var s := TailOf(w).suffix;
    line[s.timeAt + 5..s.timeEnd]
  }

  /** The tuple `extract_base_metadata` returns. */
  datatype Metadata = Metadata(name: string, bsdName: Option<string>, comment: Option<string>, time: string)

  /** `md` holds the captures of `w`, the subject mapped to no device name
      exactly when it is the literal `(no BSD name)`. */
  predicate Reports(line: string, w: Match, md: Metadata)
    requires ValidMatch(line, w)
  {
    && md.name == NameOf(line, w)
    && (md.bsdName.None? <==> SubjectOf(line, w) == NoBsdName)
    && (md.bsdName.Some? ==> md.bsdName.value == SubjectOf(line, w))
    && md.comment == CommentOf(line, w)
    && md.time == TimeOf(line, w)
  }

  /** `extract_base_metadata`: nothing when the header pattern does not
      match, otherwise the captures of the match the regex crate reports. */
  function ExtractBaseMetadata(line: string): (r: Option<Metadata>)
    ensures r.None? <==> NoMatch(line)
    ensures r.Some? ==> exists w :: FirstMatch(line, w) && Reports(line, w, r.value)
  {
    match ScanMatch(line)
    case None => None
    case Some(w) =>
      var subject := SubjectOf(line, w);
      Some(Metadata(NameOf(line, w), if subject == NoBsdName then None else Some(subject), CommentOf(line, w), TimeOf(line, w)))
  }

  /** Whatever the line, the reported metadata is the first match's. */
  lemma ExtractReportsFirstMatch(line: string, w: Match)
    requires FirstMatch(line, w)
    ensures ExtractBaseMetadata(line).Some?
    ensures Reports(line, w, ExtractBaseMetadata(line).value)
  {
    var w' :| FirstMatch(line, w') && Reports(line, w', ExtractBaseMetadata(line).value);
    FirstMatchUnique(line, w, w');
  }

  /** Quantified form of `ExtractReportsFirstMatch`. */
  lemma ExtractReportsEveryFirstMatch(line: string)
    ensures forall w :: FirstMatch(line, w) ==>
      ExtractBaseMetadata(line).Some? && Reports(line, w, ExtractBaseMetadata(line).value)
  {
    forall w | FirstMatch(line, w)
      ensures ExtractBaseMetadata(line).Some? && Reports(line, w, ExtractBaseMetadata(line).value)
    {
      ExtractReportsFirstMatch(line, w);
    }
  }

  /** Every valid match carries a valid tail after its closing parenthesis. */
  lemma TailOfValid(line: string, w: Match)
    requires ValidMatch(line, w)
    ensures ValidTail(line, w.inner.subject.rest.close.paren + 1, TailOf(w))
  {
  }

  /** The shape of each capture, as the pattern's classes promise it: a
      non-empty word-character name, a non-empty subject free of `,` and
      `'`, and comment and time tokens that are non-empty and free of
      white space. */
  lemma CaptureShapes(line: string, w: Match)
    requires ValidMatch(line, w)
    ensures |NameOf(line, w)| > 0 && forall c :: c in NameOf(line, w) ==> IsWordChar(c)
    ensures |SubjectOf(line, w)| > 0 && forall c :: c in SubjectOf(line, w) ==> NotCommaOrQuote(c)
    ensures CommentOf(line, w).Some? ==>
      |CommentOf(line, w).value| > 0 && forall c :: c in CommentOf(line, w).value ==> NonSpace(c)
    ensures |TimeOf(line, w)| > 0 && forall c :: c in TimeOf(line, w) ==> NonSpace(c)
  {
    TailOfValid(line, w);
    var t := TailOf(w);
    assert ValidSuffix(line, t.spacesEnd, t.suffix);
    assert ValidTime(line, t.suffix.timeAt, t.suffix.timeEnd);
    assert ValidSubject(line, SubjectStart(w), w.inner.subject);
  }

  /** The reported metadata never stores the `(no BSD name)` sentinel, and
      each field has the shape its capture group allows. */
  lemma MetadataShape(line: string)
    requires ExtractBaseMetadata(line).Some?
    ensures var md := ExtractBaseMetadata(line).value;
      && |md.name| > 0 && (forall c :: c in md.name ==> IsWordChar(c))
      && md.bsdName != Some(NoBsdName)
      && (md.bsdName.Some? ==> |md.bsdName.value| > 0 && ',' !in md.bsdName.value && '\'' !in md.bsdName.value)
      && (md.comment.Some? ==> |md.comment.value| > 0 && forall c :: c in md.comment.value ==> NonSpace(c))
      && |md.time| > 0 && (forall c :: c in md.time ==> NonSpace(c))
  {
    var md := ExtractBaseMetadata(line).value;
    var w :| FirstMatch(line, w) && Reports(line, w, md);
    ReportedShape(line, w, md);
  }

  /** The shape of a tuple that reports a match. */
  lemma ReportedShape(line: string, w: Match, md: Metadata)
    requires ValidMatch(line, w) && Reports(line, w, md)
    ensures |md.name| > 0 && (forall c :: c in md.name ==> IsWordChar(c))
    ensures md.bsdName != Some(NoBsdName)
    ensures md.bsdName.Some? ==> |md.bsdName.value| > 0 && ',' !in md.bsdName.value && '\'' !in md.bsdName.value
    ensures md.comment.Some? ==> |md.comment.value| > 0 && forall c :: c in md.comment.value ==> NonSpace(c)
    ensures |md.time| > 0 && (forall c :: c in md.time ==> NonSpace(c))
  {
    CaptureShapes(line, w);
  }

  /** A match's captures determine the reported tuple: at most one tuple
      reports a given match. */
  lemma ReportsUnique(line: string, w: Match, a: Metadata, b: Metadata)
    requires ValidMatch(line, w)
    requires Reports(line, w, a) && Reports(line, w, b)
    ensures a == b
  {
  }

  /** A line that does not begin with `***` has no header match, so
      `extract_base_metadata` returns nothing for it. */
  lemma NoStarsNoMetadata(line: string)
    requires !HasAt(line, 0, Stars)
    ensures NoMatch(line)
    ensures ExtractBaseMetadata(line).None?
  {
  }
}
