# mac-disk-monitor in Dafny

A model of the line parser and the worker loop of `mac-disk-monitor`, a
Rust library that runs `diskutil activity` and turns each line it prints
into an `Event` record.

- `text.dfy` holds `Option` (module `Wrappers`) and the character classes
  and scanning primitives of the regular expressions (module `Text`).
- `volume.dfy` (module `VolumeField`) models the three volume extractors.
  Each returns the capture of the leftmost match of `KEY\s*=\s*'([^']+)'`.
  The match is a witness record of positions. `Extract` is a scanner
  proved to return exactly the leftmost match's capture, or nothing when
  the pattern matches nowhere.
- `header.dfy` (module `Header`) models `extract_base_metadata` and its
  pattern `^[*]{3}(\w+)\s*\('?([^,']+)'?.*?\)\s*(Comment=(\S+))?\s*Time=(\S+)`.
  - A match is a witness with one nested datatype per stage of the pattern.
  - `ValidMatch` says that a witness matches.
  - The `Better*` predicates give the regex crate's leftmost-first
    preference order: greedy quantifiers prefer more, the lazy `.*?`
    prefers less, and `?` prefers to take its operand.
  - `FirstMatch` is a valid witness that no valid witness beats.
  - One scanner per stage is proved to return exactly that first match,
    or nothing when no witness exists.
- `event.dfy` (module `Events`) models the `Event` record, `Event::empty`,
  the setters with their `<null>` rule, and `Event::from_line`.
- `rendered.dfy` (module `Rendered`) describes the lines the monitoring
  tool prints: a `Line` holds the parts (name, subject, optional volume
  list, optional comment, time) and `Render` lays them out as
  `***<name> ('<subject>', DAVolumePath = '<p>', DAVolumeKind = '<k>', DAVolumeName = '<n>') Comment=<c> Time=<t>`,
  with the quotes, the volume list and the comment optional.
  - For each stage of the header pattern, a lemma gives conditions on the
    characters of a line under which a given witness is that stage's
    first match.
  - `ParseRendered` is the round trip: `from_line` applied to the
    rendering of a well-formed `Line` gives back its parts.
- `cases.dfy` (module `ParseCases`) replays four of the parser's unit tests
  through that theorem. For the two short test lines it also shows that
  the rendering is the test's literal text.
- `worker.dfy` (module `Worker`) models the loop body of
  `stream_events_with_command` as a pure step function. It takes one
  `Observation` per pass of the loop: the read outcome, whether the send
  succeeded, the exit probe, the action poll and the kill result. The
  step function is folded over a trace of such observations.

Behaviour of the code that the model keeps:

- The time is kept as the raw `Time=` token. It is not parsed into a
  date-time, and its fraction digits are not checked.
- A line whose header does not match keeps the empty name and the empty
  time of `Event::empty`. No current or placeholder time is used.
- The worker never sends a terminal `None`.
- A line that is not valid UTF-8, or a failed send, ends the worker thread
  with a panic (`unwrap`). It is not a returned error.
- An error from `try_wait` ends the loop with `Ok(())`.

## Model

| member | source | states |
|---|---|---|
| Events.Empty | src/event.rs:18-28 | the empty event has empty name and time and every optional field absent |
| Events.SetName | src/event.rs:95-97 | stores the name verbatim and changes no other field |
| Events.SetBsdName | src/event.rs:98-100 | always stores `Some(argument)`, with no sentinel check, and changes no other field |
| Events.SetComment | src/event.rs:104-106 | always stores `Some(argument)`, with no sentinel check, and changes no other field |
| Events.StoredVolumeValue | src/event.rs:111-115 | absent exactly when the argument is `<null>`, otherwise the argument verbatim |
| Events.SetPath | src/event.rs:110-116 | the volume path is absent exactly when given `<null>`, otherwise it is the argument; no other field changes |
| Events.SetKind | src/event.rs:120-126 | the volume kind is absent exactly when given `<null>`, otherwise it is the argument; no other field changes |
| Events.SetVolumeName | src/event.rs:130-136 | the volume name is absent exactly when given `<null>`, otherwise it is the argument; no other field changes |
| Events.SetTimeString | src/event.rs:140-142 | stores the raw time token unchanged and changes no other field |
| Events.SettersKeepNoNullSentinel | src/event.rs:110-136 | no setter, given any argument, can make a volume field hold `<null>` |
| Events.FromLine | src/event.rs:29-71 | total. The header fields are the first header match's captures, or the empty event's when the header matches nowhere. Each volume field is its own pattern's leftmost capture, absent when that pattern does not match or captures `<null>`. No volume field holds `<null>` |
| Events.FromLineDeterminedByPatterns | src/event.rs:29-71 | any event meeting that description is the one `from_line` builds, so the description fixes every field |
| Events.SameVolumeField | src/event.rs:51-68 | the rule for a volume field admits one value only |
| Events.EmptyLineGivesEmptyEvent | src/event.rs:18-50 | the empty line parses to `Event::empty()` |
| Events.NoVolumeTextNoVolumeFields | src/event.rs:51-68 | a line with no `DAVolume` text, such as a peek line, has all three volume fields absent |
| VolumeField.NoMatchWithoutPrefix | src/event.rs:173-175 | a volume pattern cannot match a line that never contains `DAVolume` |
| VolumeField.MatchAt | src/event.rs:173 | the pattern anchored at one index: a match starting there, or proof that none does |
| VolumeField.FindFrom | src/event.rs:175 | the first index at or after the start where the pattern matches, or proof that there is none |
| VolumeField.Extract | src/event.rs:172-204 | nothing exactly when the pattern matches nowhere, otherwise the leftmost match's capture, which is non-empty and has no quote |
| VolumeField.ExtractVolumePath | src/event.rs:172-182 | nothing exactly when `DAVolumePath = '…'` matches nowhere, otherwise the leftmost capture |
| VolumeField.ExtractVolumeKind | src/event.rs:183-193 | nothing exactly when `DAVolumeKind = '…'` matches nowhere, otherwise the leftmost capture |
| VolumeField.ExtractVolumeName | src/event.rs:194-204 | nothing exactly when `DAVolumeName = '…'` matches nowhere, otherwise the leftmost capture |
| VolumeField.MatchUniqueAtStart | src/event.rs:173 | each quantifier of the volume pattern is forced, so at most one match starts at an index |
| VolumeField.MatchRunsAreMaximal | src/event.rs:173 | in every match the two space runs and the quoted run are maximal |
| VolumeField.LeftmostCaptureUnique | src/event.rs:175-178 | the leftmost capture is unique, so the extractor's answer is the only possible one |
| VolumeField.AssignmentMatches | src/event.rs:173 | a printed field `KEY = '<v>'` with a non-empty value free of quotes is a match of the key's pattern, and it captures exactly the value |
| VolumeField.LeftmostAssignment | src/event.rs:173-178 | a printed field with no occurrence of its key before it holds the capture the extractor returns |
| VolumeField.FirstAssignmentIsLeftmost | src/event.rs:173-178 | a printed field after text that never contains its key holds the capture the extractor returns |
| Events.CapturedVolumeField | src/event.rs:51-68 | once the leftmost capture is known, the volume field is that capture, or absent when it is `<null>` |
| Rendered.FirstSuffixWithoutComment | src/event.rs:152 | `Time=` followed by a token to the end of the line is the preferred suffix; the optional comment group is left out |
| Rendered.FirstSuffixWithComment | src/event.rs:152 | `Comment=<c> Time=<t>` to the end of the line is the preferred suffix, with the comment group taken |
| Rendered.FirstTailAfterSpace | src/event.rs:152 | one space after `)` followed by a suffix is the preferred tail |
| Rendered.FirstCloseAtParen | src/event.rs:152 | the lazy `.*?` stops at the first `)` after it when a tail follows that `)` |
| Rendered.NoCloseWithoutParen | src/event.rs:152 | `.*?\)` cannot match where no `)` follows |
| Rendered.NoParenNoMetadata | src/event.rs:152-153 | the `\)` of the header pattern is mandatory, so a line without `)` has no header match and yields nothing |
| Rendered.FirstQuotedTaken | src/event.rs:152 | the closing `'?` takes a quote that is there when a close follows it |
| Rendered.FirstQuotedSkipped | src/event.rs:152 | the closing `'?` takes nothing where there is no quote |
| Rendered.FirstSubjectAt | src/event.rs:152 | the greedy subject ends at a comma or quote, or at a `)` with no `)` after it |
| Rendered.FirstOpenedTaken | src/event.rs:152 | the opening `'?` takes a quote that is there when a subject follows it |
| Rendered.FirstOpenedSkipped | src/event.rs:152 | the opening `'?` takes nothing when the subject starts right after `(` |
| Rendered.LayoutFirstMatch | src/event.rs:152-153 | in a line laid out from well-formed parts, the first header match ends the name, the subject and the close exactly where the parts do |
| Rendered.LayoutMetadata | src/event.rs:152-167 | that first match reports the parts: the name, the subject with `(no BSD name)` mapped to no device name, the comment and the time |
| Rendered.LayoutVolumeCaptures | src/event.rs:172-204 | in a laid-out line with a volume list, each volume pattern's leftmost capture is the value printed for its key |
| Rendered.RenderedHeader | src/event.rs:32-50 | parsing a well-formed printed line sets the name, device name, comment and time from its parts |
| Rendered.RenderedVolumes | src/event.rs:51-68 | parsing a well-formed printed line with a volume list sets each volume field to the printed value, or leaves it absent for `<null>` |
| Rendered.ParseRendered | src/event.rs:29-71 | round trip: `from_line` of the rendering of a well-formed `Line` is the event its parts describe, every field included |
| ParseCases.ParseIdleLine | src/event.rs:299-306 | the idle test line parses to name `DAIdle`, device name `no DADiskRef`, its time, and no other field |
| ParseCases.ParsePeekLine | src/event.rs:290-297 | the peek test line parses to name `DiskPeek`, device name `disk3s1` without quotes, its time, and no other field |
| ParseCases.ParseAppearedLine | src/event.rs:211-230 | the parts of the first appearance test line parse back to name `DiskAppeared`, device name `disk4` and the three volume values, with no comment |
| ParseCases.ParseApprovalLine | src/event.rs:277-288 | the parts of the mount approval test line parse back to its comment `Approving`, device name `disk3s1`, kind `msdos`, name `EFI`, and no path for the printed `<null>` |
| Header.ScanTime | src/event.rs:152 | `Time=(\S+)` at an index: the greedy token, or proof that none exists |
| Header.ScanSpacedTime | src/event.rs:152 | `\s*Time=(\S+)` at an index: the preferred match, or proof that none exists |
| Header.ScanSuffix | src/event.rs:152 | `(Comment=(\S+))?\s*Time=(\S+)`: the preferred match (the comment is tried first), or proof that none exists |
| Header.ScanTail | src/event.rs:152 | `\s*` followed by the suffix: the preferred match, or proof that none exists |
| Header.ScanClose | src/event.rs:152 | `.*?\)` followed by the tail: the nearest `)` that allows a tail, or proof that none exists |
| Header.ScanQuoted | src/event.rs:152 | `'?` before `.*?`: the quote is taken when that allows a match |
| Header.ScanSubject | src/event.rs:152 | `([^,']+)`: the longest subject that allows the rest to match, or proof that none exists |
| Header.ScanOpened | src/event.rs:152 | `'?` after `(`: the quote is taken when that allows a match |
| Header.ScanMatch | src/event.rs:152-153 | the whole anchored pattern: the first match, or proof that the line has none |
| Header.MatchPrefixForced | src/event.rs:152 | in every match `(\w+)` and the spaces before `(` are maximal runs |
| Header.FirstMatchUnique | src/event.rs:152-153 | a line has at most one first match |
| Header.ExtractBaseMetadata | src/event.rs:148-171 | nothing exactly when the pattern matches nowhere; otherwise the first match's captures, with the subject `(no BSD name)` mapped to no device name and any other subject kept |
| Header.ExtractReportsFirstMatch | src/event.rs:153-167 | whatever the line, the returned tuple holds the captures of the first match |
| Header.ReportsUnique | src/event.rs:155-167 | a match's captures fix the returned tuple |
| Header.CaptureShapes | src/event.rs:152 | the name is non-empty word characters; the subject is non-empty with no comma or quote; the comment and the time are non-empty with no white space |
| Header.MetadataShape | src/event.rs:152-167 | the returned tuple never holds the `(no BSD name)` device name, and each field has the shape of its capture group |
| Header.NoStarsNoMetadata | src/event.rs:152 | a line that does not begin with `***` yields nothing |
| Worker.AfterRead | src/std.rs:98-112 | an exited child or a failed probe ends the loop with `Ok(())`; `Stop` ends it with the kill result; `Noop` and an empty poll continue |
| Worker.Step | src/std.rs:88-113 | the banner line is skipped with no probe and no poll; another line sends exactly `Some(from_line(line))`; a failed read sends nothing and goes on to the probe; invalid UTF-8 and a failed send panic |
| Worker.RunTrace | src/std.rs:88-114 | the passes used never exceed the trace; a worker still running has used every observation, and an ended one has used at least one pass |
| Worker.RunSendsOnlySome | src/std.rs:96 | every message on the event channel is `Some(event)`; no terminal `None` is sent |
| Worker.RunDeliversInReadOrder | src/std.rs:89-97 | the events sent are, in read order, one per non-banner line that was read and sent |
| Worker.RunStopsAtFirstHalt | src/std.rs:88-114 | every pass before the last continues, and the last pass decides how the worker ends |
| Worker.FirstHaltDecides | src/std.rs:88-114 | the first pass that ends the loop fixes the worker's result and how far it read |
| Worker.StopWhileIdleEndsWorker | src/std.rs:100-104 | `Stop` while no output arrives ends the worker in that pass, with `Ok(())` or an I/O error as the kill went |
| Worker.ExitEndsWorkerOk | src/std.rs:98-111 | a pass that sees the child exited, or cannot probe it, ends the worker with `Ok(())` |
| Worker.IoErrorOnlyFromFailedKill | src/std.rs:102-103 | an I/O error result comes only from a failed kill after `Stop` |
| Worker.EndOfStreamSendsEmptyEvent | src/std.rs:89-96 | at end of stream the empty read is parsed and sent as the empty event |

## Left out

- `\w` is modelled by its ASCII members only (letters, digits, `_`). The regex crate's Unicode word class also admits non-ASCII letters, digits and joiners. An event name with such characters is out of the model.
- The regex crate is not modelled. Each pattern is a witness relation with a preference order, and a scanner is proved against it.
- `to_yaml` and `to_json` are serde wrappers and are not modelled. The getters return copies of fields; they are the datatype's field selectors.
- Process spawning, `TimeoutReader`, `BufReader`, the channels, the thread and all timeouts are I/O and concurrency. They appear only as the outcomes one pass observes.
- A read that times out after consuming part of a line is observed as a failed read. The bytes it dropped are not modelled.
- The channel's `Noop` is modelled as the poll result it is; the action channel's disconnection and its timeout both appear as an empty poll.
- `src/main.rs`, `src/cli.rs`, `src/lib.rs`, `examples/basic.rs` and `tests/std-stream-events.rs` are not part of this model. They are an older copy of the parser, the command-line consumer, glue, and a test that needs an external script.
- Parsing the time into a date-time is left out because the code does not do it.
- Rendered.ParseRendered: the round trip covers well-formed lines only:
  - each part is non-empty and never contains `DAVolume`;
  - volume values have no quote, `)` or line feed;
  - a bare subject without a volume list has no `)` in the comment or the time;
  - single spaces are used where the patterns allow runs of white space.
  Lines outside that shape are still covered by `Events.FromLine`'s contract, not by this theorem.
- ParseCases.ParseAppearedLine, ParseCases.ParseApprovalLine: for the five unit tests of `src/event.rs` whose lines hold a volume list, the step "the rendering equals the test's literal text" is not proved, because comparing literals that long costs the solver too much. Two of them are replayed from their parts; the other three (lines 232, 247 and 265) are covered only by `Rendered.ParseRendered`.
