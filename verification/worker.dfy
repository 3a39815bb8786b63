/** The loop body of `stream_events_with_command` in src/std.rs, as a pure
    step function over what one pass of the loop observes, folded over a
    trace of such observations. The child process, the timeout reader,
    the channels and the thread are replaced by the outcomes the loop
    sees from them. */
module Worker {
  import opened Wrappers
  import opened Text
  import Events

  /** The control message a consumer sends to the worker. */
  datatype Action = Stop | Noop

  /** The outcome of one `read_until(b'\n', ..)` on the child's output. */
  datatype ReadOutcome =
    | Line(text: string)   // bytes read (possibly none, at end of stream), valid UTF-8, line feed kept
    | InvalidUtf8          // bytes read that `String::from_utf8` rejects
    | ReadFailed           // the read timed out or failed

  /** The outcome of `child.try_wait()`. */
  datatype ExitProbe = Exited | StillRunning | ProbeFailed

  /** The outcome of `action.recv_timeout(..)`; `NoAction` covers both the
      timeout and a disconnected action channel. */
  datatype ActionPoll = Received(action: Action) | NoAction

  /** Everything one pass of the loop can observe. A pass reads only the
      parts it reaches: `sendSucceeds` only after a line was parsed, the
      probe only when the pass did not `continue` early, the poll only
      when the child is still running, `killSucceeds` only on `Stop`. */
  datatype Observation = Observation(
    read: ReadOutcome,
    sendSucceeds: bool,
    probe: ExitProbe,
    poll: ActionPoll,
    killSucceeds: bool)

  /** The `unwrap` calls that abort the worker thread. */
  datatype Panic = Utf8Unwrap | SendUnwrap

  /** How the worker thread ends: `Ok(())`, `Err(Error::Io(..))` from a
      failed kill, or a panic. */
  datatype Termination = Finished | IoError | Panicked(cause: Panic)

  datatype Control = Continue | Halt(termination: Termination)

  /** The messages one pass puts on the event channel, and whether the loop goes on. */
  datatype StepResult = StepResult(sent: seq<Option<Events.Event>>, control: Control)

  const Banner: string := "***Begin monitoring"

  /** A line the worker parses: anything but the start-up banner. */
  predicate IsEventLine(text: string)
  {
    !HasAt(text, 0, Banner)
  }

  /** The part of a pass after the read: the exit probe, then the action poll. */
  function AfterRead(o: Observation): (c: Control)
    ensures c == Halt(Finished) <==>
      o.probe == Exited || o.probe == ProbeFailed || (o.probe == StillRunning && o.poll == Received(Stop) && o.killSucceeds)
    ensures c == Halt(IoError) <==> o.probe == StillRunning && o.poll == Received(Stop) && !o.killSucceeds
    ensures c == Continue <==> o.probe == StillRunning && o.poll != Received(Stop)
    ensures !c.Halt? || !c.termination.Panicked?
  {
    match o.probe
    case Exited => Halt(Finished)
    case ProbeFailed => Halt(Finished)
    case StillRunning =>
      match o.poll
      case Received(Stop) => Halt(if o.killSucceeds then Finished else IoError)
      case Received(Noop) => Continue
      case NoAction => Continue
  }

  /** One pass of the loop. */
  function Step(o: Observation): (r: StepResult)
    ensures |r.sent| <= 1
    ensures r.sent != [] <==> o.read.Line? && IsEventLine(o.read.text) && o.sendSucceeds
    ensures r.sent != [] ==> r.sent[0] == Some(Events.FromLine(o.read.text))
    ensures o.read.Line? && !IsEventLine(o.read.text) ==> r.control == Continue
    ensures r.control == Halt(Panicked(Utf8Unwrap)) <==> o.read.InvalidUtf8?
    ensures r.control == Halt(Panicked(SendUnwrap)) <==> o.read.Line? && IsEventLine(o.read.text) && !o.sendSucceeds
    ensures o.read.ReadFailed? || (o.read.Line? && IsEventLine(o.read.text) && o.sendSucceeds) ==>
      r.control == AfterRead(o)
  {
    match o.read
    case InvalidUtf8 => StepResult([], Halt(Panicked(Utf8Unwrap)))
    case Line(text) =>
      if !IsEventLine(text) then StepResult([], Continue)
      else if !o.sendSucceeds then StepResult([], Halt(Panicked(SendUnwrap)))
      else StepResult([Some(Events.FromLine(text))], AfterRead(o))
    case ReadFailed => StepResult([], AfterRead(o))
  }

  datatype Status = Running | Terminated(termination: Termination)

  /** The messages sent over a trace, the worker's status at its end, and
      how many observations the worker used. */
  datatype Run = Run(sent: seq<Option<Events.Event>>, status: Status, consumed: nat)

  /** The loop, folded over a trace: passes run until one halts. */
  function RunTrace(trace: seq<Observation>): (r: Run)
    ensures r.consumed <= |trace|
    ensures r.status.Running? ==> r.consumed == |trace|
    ensures r.status.Terminated? ==> r.consumed > 0
    decreases |trace|
  {
    if |trace| == 0 then Run([], Running, 0)
    else
      var s := Step(trace[0]);
      match s.control
      case Halt(t) => Run(s.sent, Terminated(t), 1)
      case Continue =>
        var rest := RunTrace(trace[1..]);
        Run(s.sent + rest.sent, rest.status, rest.consumed + 1)
  }

  /** Reference definition of what reaches the consumer: one event per
      parsed non-banner line whose send succeeded, in read order. */
  function Delivered(trace: seq<Observation>): seq<Events.Event>
    decreases |trace|
  {
    if |trace| == 0 then [] else Emitted(trace[0]) + Delivered(trace[1..])
  }

  /** The event a pass hands to the consumer, if any. */
  function Emitted(o: Observation): seq<Events.Event>
  {
    if o.read.Line? && IsEventLine(o.read.text) && o.sendSucceeds then [Events.FromLine(o.read.text)] else []
  }

  /** The channel carries `Some(..)` only. */
  predicate OnlySome(sent: seq<Option<Events.Event>>)
  {
    forall i :: 0 <= i < |sent| ==> sent[i].Some?
  }

  /** The events in the channel's messages, in order. */
  function Payloads(sent: seq<Option<Events.Event>>): (r: seq<Events.Event>)
    requires OnlySome(sent)
    ensures |r| == |sent|
    ensures forall i :: 0 <= i < |sent| ==> sent[i] == Some(r[i])
    decreases |sent|
  {
    if |sent| == 0 then [] else [sent[0].value] + Payloads(sent[1..])
  }

  lemma {:induction false} PayloadsAppend(a: seq<Option<Events.Event>>, b: seq<Option<Events.Event>>)
    requires OnlySome(a) && OnlySome(b)
    ensures OnlySome(a + b)
    ensures Payloads(a + b) == Payloads(a) + Payloads(b)
  {
    var l, r := Payloads(a + b), Payloads(a) + Payloads(b);
    assert |l| == |r|;
    forall i | 0 <= i < |l|
      ensures l[i] == r[i]
    {
      if i < |a| {
        assert (a + b)[i] == a[i];
      } else {
        assert (a + b)[i] == b[i - |a|];
      }
    }
  }

  /** One pass sends `Some` of exactly the event it emits. */
  lemma StepEmits(o: Observation)
    ensures OnlySome(Step(o).sent)
    ensures Payloads(Step(o).sent) == Emitted(o)
  {
  }

  /** The worker never sends `None`: every message on the event channel is
      `Some(event)`, and no end-of-stream message is ever sent. */
  lemma {:induction false} RunSendsOnlySome(trace: seq<Observation>)
    ensures OnlySome(RunTrace(trace).sent)
    decreases |trace|
  {
    if |trace| > 0 && Step(trace[0]).control == Continue {
      RunSendsOnlySome(trace[1..]);
      var s := Step(trace[0]);
      assert OnlySome(s.sent);
      PayloadsAppend(s.sent, RunTrace(trace[1..]).sent);
    }
  }

  /** The events that reach the consumer are exactly one per parsed
      non-banner line whose send succeeded, in the order the lines were
      read, among the observations the worker used. */
  lemma {:induction false} RunDeliversInReadOrder(trace: seq<Observation>)
    ensures OnlySome(RunTrace(trace).sent)
    ensures Payloads(RunTrace(trace).sent) == Delivered(trace[..RunTrace(trace).consumed])
    decreases |trace|
  {
    RunSendsOnlySome(trace);
    if |trace| > 0 {
      var s := Step(trace[0]);
      var r := RunTrace(trace);
      var o := trace[0];
      StepEmits(o);
      match s.control
      case Halt(t) =>
        assert trace[..1][1..] == [];
        assert Delivered(trace[..1]) == Emitted(o) + Delivered([]);
      case Continue =>
        var rest := RunTrace(trace[1..]);
        RunDeliversInReadOrder(trace[1..]);
        RunSendsOnlySome(trace[1..]);
        PayloadsAppend(s.sent, rest.sent);
        assert trace[..r.consumed][1..] == trace[1..][..rest.consumed];
        assert trace[..r.consumed][0] == o;
    }
  }

  /** The worker stops at the first pass that halts, and ends as that pass says. */
  lemma {:induction false} RunStopsAtFirstHalt(trace: seq<Observation>)
    ensures var r := RunTrace(trace);
      forall i :: 0 <= i < r.consumed - 1 ==> Step(trace[i]).control == Continue
    ensures var r := RunTrace(trace);
      r.status.Terminated? ==> Step(trace[r.consumed - 1]).control == Halt(r.status.termination)
    ensures var r := RunTrace(trace);
      r.status.Running? ==> forall i :: 0 <= i < |trace| ==> Step(trace[i]).control == Continue
    decreases |trace|
  {
    if |trace| > 0 && Step(trace[0]).control == Continue {
      RunStopsAtFirstHalt(trace[1..]);
      assert forall i :: 1 <= i < |trace| ==> trace[i] == trace[1..][i - 1];
    }
  }

  /** Conversely, a pass that halts after passes that all continued decides
      how the worker ends. */
  lemma {:induction false} FirstHaltDecides(trace: seq<Observation>, j: nat)
    requires j < |trace|
    requires forall i :: 0 <= i < j ==> Step(trace[i]).control == Continue
    requires Step(trace[j]).control.Halt?
    ensures RunTrace(trace).status == Terminated(Step(trace[j]).control.termination)
    ensures RunTrace(trace).consumed == j + 1
    decreases j
  {
    if j > 0 {
      assert forall i :: 0 <= i < j - 1 ==> trace[1..][i] == trace[i + 1];
      FirstHaltDecides(trace[1..], j - 1);
    }
  }

  /** A `Stop` received while the child produces no output ends the worker
      in that very pass, with the result of the kill. */
  lemma StopWhileIdleEndsWorker(trace: seq<Observation>, j: nat)
    requires j < |trace|
    requires forall i :: 0 <= i < j ==> Step(trace[i]).control == Continue
    requires trace[j].read.ReadFailed? && trace[j].probe == StillRunning && trace[j].poll == Received(Stop)
    ensures RunTrace(trace).consumed == j + 1
    ensures RunTrace(trace).status == Terminated(if trace[j].killSucceeds then Finished else IoError)
  {
    FirstHaltDecides(trace, j);
  }

  /** A pass that finds the child exited (or cannot tell) ends the worker
      with `Ok(())`, after sending that pass's event if it read one. */
  lemma ExitEndsWorkerOk(trace: seq<Observation>, j: nat)
    requires j < |trace|
    requires forall i :: 0 <= i < j ==> Step(trace[i]).control == Continue
    requires trace[j].read.ReadFailed? || (trace[j].read.Line? && IsEventLine(trace[j].read.text) && trace[j].sendSucceeds)
    requires trace[j].probe == Exited || trace[j].probe == ProbeFailed
    ensures RunTrace(trace).consumed == j + 1
    ensures RunTrace(trace).status == Terminated(Finished)
  {
    FirstHaltDecides(trace, j);
  }

  /** The worker's `Err(Error::Io(..))` comes only from a failed kill after `Stop`. */
  lemma IoErrorOnlyFromFailedKill(trace: seq<Observation>)
    requires RunTrace(trace).status == Terminated(IoError)
    ensures var o := trace[RunTrace(trace).consumed - 1];
      o.probe == StillRunning && o.poll == Received(Stop) && !o.killSucceeds
  {
    RunStopsAtFirstHalt(trace);
  }

  /** At end of stream `read_until` reads nothing; the empty line is not the
      banner, so the worker sends the empty event for it. */
  lemma EndOfStreamSendsEmptyEvent(o: Observation)
    requires o.read == Line([]) && o.sendSucceeds
    ensures Step(o).sent == [Some(Events.Empty())]
  {
    Events.EmptyLineGivesEmptyEvent();
  }
}
