/** Lines of the parser's own unit tests, read through the round-trip
    theorem: each is the rendering of a well-formed `Line`, so `from_line`
    gives back that line's parts. For the two short lines the rendering
    is also shown to be the test's literal text. */
module ParseCases {
  import opened Wrappers
  import opened Text
  import opened VolumeField
  import opened Events
  import opened Rendered

  /** A text shorter than `DAVolume` followed by one without `D` never
      spells `DAVolume`, when the join cannot start it. */
  lemma ShortThenNoD(a: string, b: string)
    requires |a| < |VolumePrefix| && 'D' !in b && |b| > 0 && b[0] !in VolumePrefix
    ensures Avoids(a + b, VolumePrefix)
  {
    AvoidsOther(a, VolumePrefix);
    AvoidsWithoutFirst(b, VolumePrefix);
    AvoidsJoin(a, b, VolumePrefix);
  }

  /** A time stamp of digits, `-`, `.` and `:` is a time token that holds
      no `)`. */
  lemma StampToken(s: string)
    requires |s| > 0 && forall c :: c in s ==> '-' <= c <= ':'
    ensures Token(s, NonSpace) && ')' !in s
  {
    AvoidsWithoutFirst(s, VolumePrefix);
  }

  // The idle line: a bare subject, no volume list, no comment.

  const Idle: Line := Line("DAIdle", "no DADiskRef", false, None, None, "20220108-20:22:29.6774")

  lemma IdleWellFormed()
    ensures WellFormed(Idle)
  {
    IdleName();
    IdleSubject();
    IdleTime();
  }

  lemma IdleTime()
    ensures Token("20220108-20:22:29.6774", NonSpace) && ')' !in "20220108-20:22:29.6774"
  {
    StampToken("20220108-20:22:29.6774");
  }

  lemma IdleName()
    ensures Token("DAIdle", IsWordChar)
  {
    AvoidsOther("DAIdle", VolumePrefix);
  }

  lemma IdleSubject()
    ensures Token("no DADiskRef", NotCommaOrQuote)
  {
    ShortThenNoD("no DAD", "iskRef");
    assert "no DAD" + "iskRef" == "no DADiskRef";
  }

  lemma IdleRenders()
    ensures Render(Idle) == "***DAIdle (no DADiskRef) Time=20220108-20:22:29.6774"
  {
    IdlePieces();
    assert "***DAIdle (no DADiskRef" + ") " + "Time=" == "***DAIdle (no DADiskRef) Time=";
  }

  lemma IdlePieces()
    ensures Render(Idle) == "***DAIdle (no DADiskRef" + ") " + "Time=" + "20220108-20:22:29.6774"
  {
    assert Opening(Idle) == "***DAIdle (no DADiskRef";
  }

  /** The idle line keeps `no DADiskRef` as the device name. */
  lemma ParseIdleLine()
    ensures FromLine("***DAIdle (no DADiskRef) Time=20220108-20:22:29.6774")
         == Event("DAIdle", "20220108-20:22:29.6774", Some("no DADiskRef"), None, None, None, None)
  {
    IdleWellFormed();
    IdleRenders();
    ParseRendered(Idle);
  }

  // The peek line: a quoted subject, no volume list, no comment.

  const Peek: Line := Line("DiskPeek", "disk3s1", true, None, None, "20220108-20:22:35.8607")

  lemma PeekWellFormed()
    ensures WellFormed(Peek)
  {
    PeekName();
    PeekSubject();
    PeekTime();
  }

  lemma PeekSubject()
    ensures Token("disk3s1", NotCommaOrQuote)
  {
    AvoidsWithoutFirst("disk3s1", VolumePrefix);
  }

  lemma PeekTime()
    ensures Token("20220108-20:22:35.8607", NonSpace)
  {
    StampToken("20220108-20:22:35.8607");
  }

  lemma PeekName()
    ensures Token("DiskPeek", IsWordChar)
  {
    ShortThenNoD("D", "iskPeek");
    assert "D" + "iskPeek" == "DiskPeek";
  }

  lemma PeekRenders()
    ensures Render(Peek) == "***DiskPeek ('disk3s1') Time=20220108-20:22:35.8607"
  {
    PeekPieces();
    assert "***DiskPeek ('disk3s1'" + ") " + "Time=" == "***DiskPeek ('disk3s1') Time=";
  }

  lemma PeekPieces()
    ensures Render(Peek) == "***DiskPeek ('disk3s1'" + ") " + "Time=" + "20220108-20:22:35.8607"
  {
    assert Opening(Peek) == "***DiskPeek ('disk3s1'";
  }

  /** The peek line gives its device name without the quotes. */
  lemma ParsePeekLine()
    ensures FromLine("***DiskPeek ('disk3s1') Time=20220108-20:22:35.8607")
         == Event("DiskPeek", "20220108-20:22:35.8607", Some("disk3s1"), None, None, None, None)
  {
    PeekWellFormed();
    PeekRenders();
    ParseRendered(Peek);
  }

  /** A volume value without `D`, quote, `)` or line feed. */
  lemma ValueToken(s: string)
    requires |s| > 0 && forall c :: c in s ==> c != 'D' && VolumeChar(c)
    ensures Token(s, VolumeChar)
  {
    AvoidsWithoutFirst(s, VolumePrefix);
  }

  /** Two volume values without `D` join into one. */
  lemma ValueJoin(a: string, b: string)
    requires |a| > 0 && forall c :: c in a ==> c != 'D' && VolumeChar(c)
    requires forall c :: c in b ==> c != 'D' && VolumeChar(c)
    ensures Token(a + b, VolumeChar)
  {
    ValueToken(a + b);
  }

  // The first appearance line: a quoted subject and a full volume list.

  const Appeared: Line := Line("DiskAppeared", "disk4", true,
    Some(Volumes("file:///Volumes/my%20backups/", "hfs", "Time Machine Backups")), None, "20220108-20:22:05.1438")

  lemma AppearedWellFormed()
    ensures WellFormed(Appeared)
  {
    AppearedName();
    AppearedSubject();
    AppearedPath();
    AppearedKind();
    AppearedVolumeName();
    AppearedTime();
  }

  lemma AppearedName()
    ensures Token("DiskAppeared", IsWordChar)
  {
    ShortThenNoD("D", "iskAppeared");
    assert "D" + "iskAppeared" == "DiskAppeared";
  }

  lemma AppearedSubject()
    ensures Token("disk4", NotCommaOrQuote)
  {
    AvoidsWithoutFirst("disk4", VolumePrefix);
  }

  lemma AppearedPath()
    ensures Token("file:///Volumes/my%20backups/", VolumeChar)
  {
    ValueJoin("file:///Volumes/", "my%20backups/");
    assert "file:///Volumes/" + "my%20backups/" == "file:///Volumes/my%20backups/";
  }

  lemma AppearedKind()
    ensures Token("hfs", VolumeChar)
  {
    ValueToken("hfs");
  }

  lemma AppearedVolumeName()
    ensures Token("Time Machine Backups", VolumeChar)
  {
    ValueToken("Time Machine Backups");
  }

  lemma AppearedTime()
    ensures Token("20220108-20:22:05.1438", NonSpace)
  {
    StampToken("20220108-20:22:05.1438");
  }

  /** The appearance line gives the device name and all three volume
      values. */
  lemma ParseAppearedLine()
    ensures FromLine(Render(Appeared))
         == Event("DiskAppeared", "20220108-20:22:05.1438", Some("disk4"),
                  Some("file:///Volumes/my%20backups/"), Some("hfs"), Some("Time Machine Backups"), None)
  {
    AppearedWellFormed();
    ParseRendered(Appeared);
  }

  // The mount approval line: a volume list with a `<null>` path and a comment.

  const Approval: Line := Line("DiskMountApproval", "disk3s1", true,
    Some(Volumes(Null, "msdos", "EFI")), Some("Approving"), "20220108-20:22:35.8686")

  lemma ApprovalWellFormed()
    ensures WellFormed(Approval)
  {
    ApprovalName();
    ApprovalSubject();
    ApprovalVolumes();
    ApprovalComment();
    ApprovalTime();
  }

  lemma ApprovalName()
    ensures Token("DiskMountApproval", IsWordChar)
  {
    ShortThenNoD("D", "iskMountApproval");
    assert "D" + "iskMountApproval" == "DiskMountApproval";
  }

  lemma ApprovalSubject()
    ensures Token("disk3s1", NotCommaOrQuote)
  {
    AvoidsWithoutFirst("disk3s1", VolumePrefix);
  }

  lemma ApprovalVolumes()
    ensures Token(Null, VolumeChar) && Token("msdos", VolumeChar) && Token("EFI", VolumeChar)
  {
    ValueToken(Null);
    ValueToken("msdos");
    ValueToken("EFI");
  }

  lemma ApprovalComment()
    ensures Token("Approving", NonSpace)
  {
    AvoidsWithoutFirst("Approving", VolumePrefix);
  }

  lemma ApprovalTime()
    ensures Token("20220108-20:22:35.8686", NonSpace)
  {
    StampToken("20220108-20:22:35.8686");
  }

  /** The mount approval line gives the comment, and no path for the
      printed `<null>`. */
  lemma ParseApprovalLine()
    ensures FromLine(Render(Approval))
         == Event("DiskMountApproval", "20220108-20:22:35.8686", Some("disk3s1"),
                  None, Some("msdos"), Some("EFI"), Some("Approving"))
  {
    ApprovalWellFormed();
    ParseRendered(Approval);
  }
}
