/** The `Event` record of src/event.rs, its setters, and `Event::from_line`,
    which composes the four independent extractors into one record. */
module Events {
  import opened Wrappers
  import opened Text
  import VolumeField
  import Header

  /** The literal the monitoring tool prints for an absent volume field. */
  const Null: string := "<null>"

  /** One parsed line. The getters of the source (`name()`, `bsd_name()`,
      `path()`, `kind()`, `volume_name()`, `comment()`, `time_string()`)
      return copies of these fields. */
  datatype Event = Event(
    name: string,
    time: string,
    bsdName: Option<string>,
    volumePath: Option<string>,
    volumeKind: Option<string>,
    volumeName: Option<string>,
    comment: Option<string>)

  /** No optional volume field holds the `<null>` sentinel. */
  predicate NoNullSentinel(e: Event)
  {
    e.volumePath != Some(Null) && e.volumeKind != Some(Null) && e.volumeName != Some(Null)
  }

  /** `Event::empty`: empty strings and absent optional fields. */
  function Empty(): (e: Event)
    ensures e.name == [] && e.time == []
    ensures e.bsdName.None? && e.comment.None?
    ensures e.volumePath.None? && e.volumeKind.None? && e.volumeName.None?
  {
    Event([], [], None, None, None, None, None)
  }

  function SetName(e: Event, name: string): (r: Event)
    ensures r.name == name
    ensures r.(name := e.name) == e
  {
    e.(name := name)
  }

  /** `set_bsd_name` stores its argument as given, with no sentinel check. */
  function SetBsdName(e: Event, bsdName: string): (r: Event)
    ensures r.bsdName == Some(bsdName)
    ensures r.(bsdName := e.bsdName) == e
  {
    e.(bsdName := Some(bsdName))
  }

  /** `set_comment` stores its argument as given, with no sentinel check. */
  function SetComment(e: Event, comment: string): (r: Event)
    ensures r.comment == Some(comment)
    ensures r.(comment := e.comment) == e
  {
    e.(comment := Some(comment))
  }

  /** `set_time_string`: the raw token, with no format check. */
  function SetTimeString(e: Event, time: string): (r: Event)
    ensures r.time == time
    ensures r.(time := e.time) == e
  {
    e.(time := time)
  }

  /** The rule the three volume setters share: `<null>` means absent,
      any other text is stored verbatim. */
  function StoredVolumeValue(v: string): (r: Option<string>)
    ensures r.None? <==> v == Null
    ensures r.Some? ==> r.value == v
  {
    if v == Null then None else Some(v)
  }

  function SetPath(e: Event, path: string): (r: Event)
    ensures r.volumePath.None? <==> path == Null
    ensures r.volumePath.Some? ==> r.volumePath.value == path
    ensures r.(volumePath := e.volumePath) == e
  {
    e.(volumePath := StoredVolumeValue(path))
  }

  function SetKind(e: Event, kind: string): (r: Event)
    ensures r.volumeKind.None? <==> kind == Null
    ensures r.volumeKind.Some? ==> r.volumeKind.value == kind
    ensures r.(volumeKind := e.volumeKind) == e
  {
    e.(volumeKind := StoredVolumeValue(kind))
  }

  function SetVolumeName(e: Event, name: string): (r: Event)
    ensures r.volumeName.None? <==> name == Null
    ensures r.volumeName.Some? ==> r.volumeName.value == name
    ensures r.(volumeName := e.volumeName) == e
  {
    e.(volumeName := StoredVolumeValue(name))
  }

  /** The setters keep the no-sentinel invariant, whatever their argument. */
  lemma SettersKeepNoNullSentinel(e: Event, s: string)
    requires NoNullSentinel(e)
    ensures NoNullSentinel(SetPath(e, s)) && NoNullSentinel(SetKind(e, s)) && NoNullSentinel(SetVolumeName(e, s))
    ensures NoNullSentinel(SetName(e, s)) && NoNullSentinel(SetBsdName(e, s))
    ensures NoNullSentinel(SetComment(e, s)) && NoNullSentinel(SetTimeString(e, s))
  {
  }

  /** Header fields: those of the first header match when there is one,
      otherwise the empty record's. */
  ghost predicate HeaderFieldsFrom(line: string, e: Event)
  {
    && (Header.NoMatch(line) ==> e.name == [] && e.time == [] && e.bsdName.None? && e.comment.None?)
    && (forall w :: Header.FirstMatch(line, w) ==>
          Header.Reports(line, w, Header.Metadata(e.name, e.bsdName, e.comment, e.time)))
  }

  /** A volume field: absent when its pattern matches nowhere or its
      leftmost capture is `<null>`, otherwise that capture. */
  ghost predicate VolumeFieldFrom(line: string, key: string, field: Option<string>)
  {
    && (field.None? <==> VolumeField.NoMatch(line, key) || VolumeField.IsLeftmostCapture(line, key, Null))
    && (field.Some? ==> VolumeField.IsLeftmostCapture(line, key, field.value))
  }

  /** The value a volume setter stores for an extractor's answer. */
  lemma StoredVolumeFieldFrom(line: string, key: string, extracted: Option<string>)
    requires extracted.None? <==> VolumeField.NoMatch(line, key)
    requires extracted.Some? ==> VolumeField.IsLeftmostCapture(line, key, extracted.value)
    ensures VolumeFieldFrom(line, key, if extracted.Some? then StoredVolumeValue(extracted.value) else None)
  {
    if extracted.Some? && VolumeField.IsLeftmostCapture(line, key, Null) {
      VolumeField.LeftmostCaptureUnique(line, key, extracted.value, Null);
    }
  }

  /** What a volume setter stores for the extractor's answer on `line`. */
  lemma ExtractedVolumeField(line: string, key: string)
    ensures var x := VolumeField.Extract(line, key);
      VolumeFieldFrom(line, key, if x.Some? then StoredVolumeValue(x.value) else None)
  {
    StoredVolumeFieldFrom(line, key, VolumeField.Extract(line, key));
  }

  /** The header part of `from_line`: the empty record, updated with the
      extracted name, device name, comment and time when the header matches. */
  function WithHeader(line: string): (e: Event)
    ensures HeaderFieldsFrom(line, e)
    ensures e.volumePath.None? && e.volumeKind.None? && e.volumeName.None?
  {
    Header.ExtractReportsEveryFirstMatch(line);
    match Header.ExtractBaseMetadata(line)
    case None => Empty()
    case Some(md) =>
      var e1 := SetName(Empty(), md.name);
      var e2 := if md.bsdName.Some? then SetBsdName(e1, md.bsdName.value) else e1;
      var e3 := if md.comment.Some? then SetComment(e2, md.comment.value) else e2;
      SetTimeString(e3, md.time)
  }

  /** `Event::from_line`. Total: every line yields an event. The header
      fields come from the header pattern alone and each volume field from
      its own pattern alone; no optional volume field holds `<null>`. */
  function FromLine(line: string): (e: Event)
    ensures HeaderFieldsFrom(line, e)
    ensures VolumeFieldFrom(line, VolumeField.PathKey, e.volumePath)
    ensures VolumeFieldFrom(line, VolumeField.KindKey, e.volumeKind)
    ensures VolumeFieldFrom(line, VolumeField.NameKey, e.volumeName)
    ensures NoNullSentinel(e)
  {
    var path := VolumeField.ExtractVolumePath(line);
    var kind := VolumeField.ExtractVolumeKind(line);
    var name := VolumeField.ExtractVolumeName(line);
    ExtractedVolumeField(line, VolumeField.PathKey);
    ExtractedVolumeField(line, VolumeField.KindKey);
    ExtractedVolumeField(line, VolumeField.NameKey);
    var e0 := WithHeader(line);
    var e1 := if path.Some? then SetPath(e0, path.value) else e0;
    var e2 := if kind.Some? then SetKind(e1, kind.value) else e1;
    var e3 := if name.Some? then SetVolumeName(e2, name.value) else e2;
    HeaderFieldsKept(line, e0, e3);
    e3
  }

  /** `HeaderFieldsFrom` depends on the four header fields only. */
  lemma HeaderFieldsKept(line: string, a: Event, b: Event)
    requires HeaderFieldsFrom(line, a)
    requires a.name == b.name && a.bsdName == b.bsdName && a.comment == b.comment && a.time == b.time
    ensures HeaderFieldsFrom(line, b)
  {
  }

  /** The contract of `FromLine` pins the event down: any event whose header
      fields come from the header pattern and whose volume fields come from
      their own patterns is the one `from_line` builds. */
  lemma FromLineDeterminedByPatterns(line: string, e: Event)
    requires HeaderFieldsFrom(line, e)
    requires VolumeFieldFrom(line, VolumeField.PathKey, e.volumePath)
    requires VolumeFieldFrom(line, VolumeField.KindKey, e.volumeKind)
    requires VolumeFieldFrom(line, VolumeField.NameKey, e.volumeName)
    ensures e == FromLine(line)
  {
    var f := FromLine(line);
    SameHeaderFields(line, e, f);
    SameVolumeField(line, VolumeField.PathKey, e.volumePath, f.volumePath);
    SameVolumeField(line, VolumeField.KindKey, e.volumeKind, f.volumeKind);
    SameVolumeField(line, VolumeField.NameKey, e.volumeName, f.volumeName);
  }

  /** At most one choice of the four header fields satisfies `HeaderFieldsFrom`. */
  lemma SameHeaderFields(line: string, a: Event, b: Event)
    requires HeaderFieldsFrom(line, a) && HeaderFieldsFrom(line, b)
    ensures a.name == b.name && a.bsdName == b.bsdName && a.comment == b.comment && a.time == b.time
  {
    var md := Header.ExtractBaseMetadata(line);
    if md.Some? {
      var w :| Header.FirstMatch(line, w) && Header.Reports(line, w, md.value);
      Header.ReportsUnique(line, w, Header.Metadata(a.name, a.bsdName, a.comment, a.time),
        Header.Metadata(b.name, b.bsdName, b.comment, b.time));
    }
  }

  /** At most one field value satisfies `VolumeFieldFrom`. */
  lemma SameVolumeField(line: string, key: string, a: Option<string>, b: Option<string>)
    requires VolumeFieldFrom(line, key, a) && VolumeFieldFrom(line, key, b)
    ensures a == b
  {
    if a.Some? && b.Some? {
      VolumeField.LeftmostCaptureUnique(line, key, a.value, b.value);
    }
  }

  /** When a pattern's leftmost capture is `v`, the field it fills is what
      a volume setter stores for `v`. */
  lemma CapturedVolumeField(line: string, key: string, v: string, field: Option<string>)
    requires VolumeField.IsLeftmostCapture(line, key, v)
    requires VolumeFieldFrom(line, key, field)
    ensures field == StoredVolumeValue(v)
  {
    if field.Some? {
      VolumeField.LeftmostCaptureUnique(line, key, field.value, v);
    } else if VolumeField.IsLeftmostCapture(line, key, Null) {
      VolumeField.LeftmostCaptureUnique(line, key, v, Null);
    }
  }

  /** At end of stream the worker reads an empty line, which parses to the
      empty event. */
  lemma EmptyLineGivesEmptyEvent()
    ensures FromLine([]) == Empty()
  {
    var e := FromLine([]);
    Header.NoStarsNoMetadata([]);
    assert VolumeField.NoMatch([], VolumeField.PathKey);
    assert VolumeField.NoMatch([], VolumeField.KindKey);
    assert VolumeField.NoMatch([], VolumeField.NameKey);
  }

  /** A line without the text `DAVolume` (a disk-peek line, say) yields an
      event with no volume fields. */
  lemma NoVolumeTextNoVolumeFields(line: string)
    requires Avoids(line, VolumeField.VolumePrefix)
    ensures FromLine(line).volumePath.None?
    ensures FromLine(line).volumeKind.None?
    ensures FromLine(line).volumeName.None?
  {
    VolumeField.NoMatchWithoutPrefix(line, VolumeField.PathKey);
    VolumeField.NoMatchWithoutPrefix(line, VolumeField.KindKey);
    VolumeField.NoMatchWithoutPrefix(line, VolumeField.NameKey);
  }
}
