/**
 * Why a send is reported failed. The reason reported is the last one recorded, so over a run it
 * names the wait that ran out except after a phase B retry.
 */
module SendReasons {
  import opened Base
  import opened SendWatchdog
  import opened SendRuns

  /** The publishes, resets and echoes of a trace. */
  function Marked(trace: seq<Event>): seq<Event> {
    if trace == [] then []
    else
      var last := trace[|trace| - 1];
      Marked(trace[..|trace| - 1]) + if Marks(last) then [last] else []
  }

  lemma {:induction false} MarkedAdds(a: seq<Event>, b: seq<Event>)
    ensures Marked(a + b) == Marked(a) + Marked(b)
  {
    if b == [] {
      assert a + b == a;
    } else {
      MarkedAdds(a, b[..|b| - 1]);
      assert (a + b)[..|a + b| - 1] == a + b[..|b| - 1];
    }
  }

  lemma {:induction false} QuietIsUnmarked(events: seq<Event>)
    requires Quiet(events)
    ensures Marked(events) == []
  {
    if events != [] {
      QuietIsUnmarked(events[..|events| - 1]);
      assert events[|events| - 1] in events;
    }
  }

  lemma MarkedOne(e: Event)
    ensures Marked([e]) == if Marks(e) then [e] else []
  {
    assert [e][..0] == [];
  }

  /** The last start followed an echo: it was a phase B retry. */
  predicate LastStartWasRetry(marks: seq<Event>) {
    |marks| >= 2 && marks[|marks| - 1].Published? && marks[|marks| - 2].EnteredB?
  }

  /** What the recorded failure says about the marks so far. */
  predicate Recorded(r: Attempt, marks: seq<Event>) {
    marks != [] &&
    var last := marks[|marks| - 1];
    if r.pending then last.Reset? && r.lastFailure == Some(NoEcho)
    else if r.phase == B then last.EnteredB? && r.lastFailure in {None, Some(NoActive)}
    else last.Published? && (r.lastFailure == Some(NoActive) <==> LastStartWasRetry(marks))
  }

  // What a pass may do to the recorded failure.
  predicate FailureMoves(r: Attempt, s: Attempt, events: seq<Event>) {
    if events != [] && Marks(events[0]) then
      match events[0]
      case EnteredB(_) => s.lastFailure.None?
      case Reset(_) => s.lastFailure == Some(NoEcho)
      case _ => s.lastFailure == if r.phase == B then Some(NoActive) else r.lastFailure
    else s.lastFailure == r.lastFailure || (r.phase == B && s.lastFailure == Some(NoActive)) ||
         (r.pending && s.lastFailure == Some(NoEcho))
  }

  lemma CheckMovesFailure(send: Send, local: Attempt, pass: Pass, absent: Option<int>)
    ensures CheckSlot(send, local, pass, absent).0.record.lastFailure in {send.record.lastFailure, local.lastFailure}
  {
  }

  lemma RepublishMovesFailure(send: Send, pass: Pass)
    requires Sane(send) && send.status == Live && send.record.pending
    ensures FailureMoves(send.record, RepublishStep(send, pass).0.record, RepublishStep(send, pass).1)
  {
    match StartOutcome(pass)
    case Absent(slot) => CheckMovesFailure(send, send.record, pass, Some(slot));
    case NotSent => CheckMovesFailure(send, send.record, pass, None);
    case Sent => CheckMovesFailure(send, send.record, pass, None);
  }

  lemma RetryMovesFailure(send: Send, pass: Pass)
    requires Sane(send) && send.status == Live && send.record.phase == B
    ensures FailureMoves(send.record, RetryStep(send, pass).0.record, RetryStep(send, pass).1)
  {
    var local := send.record.(lastFailure := Some(NoActive));
    match StartOutcome(pass)
    case Absent(slot) => CheckMovesFailure(send, local, pass, Some(slot));
    case NotSent => CheckMovesFailure(send, local, pass, None);
    case Sent => CheckMovesFailure(send, local, pass, None);
  }

  lemma ResetMovesFailure(send: Send, pass: Pass)
    ensures FailureMoves(send.record, ResetStep(send, pass).0.record, ResetStep(send, pass).1)
  {
  }

  lemma AdvanceMovesFailure(send: Send, pass: Pass)
    requires Sane(send)
    ensures FailureMoves(send.record, Advance(send, pass).0.record, Advance(send, pass).1)
  {
    if send.status == Live && !pass.observedActive {
      var adopted := Adopt(send);
      var action := Decide(adopted.record, pass.snapshot, pass.now);
      if action == Republish || (action == ResetRetry && adopted.record.pending && adopted.held.Some?) {
        RepublishMovesFailure(adopted, pass);
      } else if action == ResetRetry {
        ResetMovesFailure(adopted, pass);
      } else if action == Retry {
        RetryMovesFailure(adopted, pass);
      }
    }
  }

  predicate Headed(events: seq<Event>) {
    events != [] && Marks(events[0]) && (|events| == 1 || (|events| == 2 && !Marks(events[1])))
  }

  lemma HeadedMarksOnce(events: seq<Event>)
    requires Headed(events)
    ensures Marked(events) == [events[0]]
  {
    MarkedOne(events[0]);
    if |events| == 2 {
      MarkedOne(events[1]);
      MarkedAdds([events[0]], [events[1]]);
      assert events == [events[0]] + [events[1]];
    } else {
      assert events == [events[0]];
    }
  }

  lemma MovesAreHeaded(before: Send, after: Send, events: seq<Event>, pass: Pass)
    requires Moves(before, after, events, pass)
    ensures Quiet(events) || Headed(events)
  {
  }

  lemma RecordedMark(before: Send, after: Send, marks: seq<Event>, events: seq<Event>, pass: Pass)
    requires Moves(before, after, events, pass) && FailureMoves(before.record, after.record, events)
    requires Recorded(before.record, marks) && Sane(before) && events != [] && Marks(events[0])
    ensures Recorded(after.record, marks + [events[0]])
  {
    assert events[0] in events;
  }

  lemma RecordedQuiet(before: Send, after: Send, marks: seq<Event>, events: seq<Event>, pass: Pass)
    requires Moves(before, after, events, pass) && FailureMoves(before.record, after.record, events)
    requires Recorded(before.record, marks) && Sane(before) && Quiet(events)
    ensures Recorded(after.record, marks)
  {
    assert events != [] ==> events[0] in events;
  }

  lemma RecordedStep(before: Send, after: Send, marks: seq<Event>, events: seq<Event>, pass: Pass)
    requires Moves(before, after, events, pass) && FailureMoves(before.record, after.record, events)
    requires Recorded(before.record, marks) && Sane(before)
    ensures Recorded(after.record, marks + Marked(events))
  {
    if Quiet(events) {
      QuietIsUnmarked(events);
      RecordedQuiet(before, after, marks, events, pass);
      assert marks + [] == marks;
    } else {
      MovesAreHeaded(before, after, events, pass);
      HeadedMarksOnce(events);
      RecordedMark(before, after, marks, events, pass);
    }
  }

  /** Over any run the record and the trace agree on the last failure. */
  lemma {:induction false} RunRecords(start: Send, first: Time, inputs: seq<Input>)
    requires Begun(start, first)
    ensures Recorded(After(start, inputs).record, Marked(Trace(start, first, inputs)))
  {
    if inputs == [] {
      MarkedOne(Published(first));
    } else {
      var last := |inputs| - 1;
      var earlier := inputs[..last];
      var before := After(start, earlier);
      var trace := Trace(start, first, earlier);
      RunRecords(start, first, earlier);
      RunIsSane(start, first, earlier);
      if inputs[last].Passed? {
        var pass := inputs[last].pass;
        AdvanceMoves(before, pass);
        AdvanceMovesFailure(before, pass);
        RecordedStep(before, After(start, inputs), Marked(trace), Advance(before, pass).1, pass);
        MarkedAdds(trace, Advance(before, pass).1);
      } else {
        assert Trace(start, first, inputs) == trace;
      }
    }
  }

  /** The wait a send is in: for the echo of a start, or for the print to become active. */
  function WaitingFor(r: Attempt): Reason { if r.phase == B then NoActive else NoEcho }

  /** Plain phase A after a start that answered a phase B timeout: the old failure is still recorded. */
  predicate Lagging(r: Attempt) { r.phase == A && !r.pending && r.lastFailure == Some(NoActive) }

  predicate Consistent(r: Attempt) {
    (r.pending ==> r.lastFailure == Some(NoEcho)) && (r.phase == B ==> r.lastFailure in {None, Some(NoActive)})
  }

  /** A failure reported while the printer accepts commands, and what its reason says. */
  predicate Named(r: Attempt, pass: Pass, e: Event) {
    e.Reported? ==>
      !e.reason.CommandsRejected? &&
      (e.reason.SlotEmpty? ==> StartOutcome(pass) == Absent(e.reason.slot)) &&
      (e.reason in {NoEcho, NoActive} ==> (e.reason == WaitingFor(r) <==> !Lagging(r)))
  }

  lemma RepublishNames(send: Send, pass: Pass)
    requires send.status == Live
    ensures forall e <- RepublishStep(send, pass).1 :: Named(send.record, pass, e)
  {
    match StartOutcome(pass)
    case Absent(slot) => CheckReports(send, send.record, pass, Some(slot));
    case NotSent => CheckReports(send, send.record, pass, None);
    case Sent => CheckReports(send, send.record, pass, None);
  }

  lemma RetryNames(send: Send, pass: Pass)
    requires send.status == Live && send.record.phase == B && !CommandsAreRejected(pass.snapshot)
    ensures forall e <- RetryStep(send, pass).1 :: Named(send.record, pass, e)
  {
    var local := send.record.(lastFailure := Some(NoActive));
    match StartOutcome(pass)
    case Absent(slot) => CheckReports(send, local, pass, Some(slot));
    case NotSent => CheckReports(send, local, pass, None);
    case Sent => CheckReports(send, local, pass, None);
  }

  lemma ResetNames(send: Send, pass: Pass)
    requires Sane(send) && send.record.phase == A && !CommandsAreRejected(pass.snapshot)
    ensures forall e <- ResetStep(send, pass).1 :: Named(send.record, pass, e)
  {
  }

  /** One pass: the reason names the wait that ran out exactly when the record does not lag. */
  lemma ReasonNamesTheWait(send: Send, pass: Pass, e: Event)
    requires Sane(send) && Consistent(send.record) && e in Advance(send, pass).1 && e.Reported?
    ensures if CommandsAreRejected(pass.snapshot) then e.reason == CommandsRejected else Named(send.record, pass, e)
  {
    var adopted := Adopt(send);
    var action := Decide(adopted.record, pass.snapshot, pass.now);
    if action == Republish || (action == ResetRetry && adopted.record.pending && adopted.held.Some?) {
      RepublishNames(adopted, pass);
    } else if action == ResetRetry {
      ResetNames(adopted, pass);
    } else if action == Retry {
      RetryNames(adopted, pass);
    }
  }

  lemma RecordedMeans(r: Attempt, marks: seq<Event>)
    requires Recorded(r, marks) && (r.pending ==> r.phase == A)
    ensures Consistent(r) && (Lagging(r) <==> LastStartWasRetry(marks))
  {
  }

  lemma RunIsConsistent(start: Send, first: Time, inputs: seq<Input>)
    requires Begun(start, first)
    ensures Sane(After(start, inputs)) && Consistent(After(start, inputs).record)
    ensures Lagging(After(start, inputs).record) <==> LastStartWasRetry(Marked(Trace(start, first, inputs)))
  {
    RunIsSane(start, first, inputs);
    RunRecords(start, first, inputs);
    RecordedMeans(After(start, inputs).record, Marked(Trace(start, first, inputs)));
  }

  /**
   * Over any run, a failure report blames refused commands iff the printer refuses them now, an
   * empty slot only where the start was just refused on it, and otherwise the wait that ran out,
   * except exactly when the last start was a phase B retry not yet echoed: then it still says
   * the print did not become active, though it is the echo that did not come.
   */
  lemma FailureNamesItsReason(start: Send, first: Time, inputs: seq<Input>, send: Send, pass: Pass, e: Event)
    requires Begun(start, first) && RunsTo(start, inputs, send) && ReportsIn(send, pass, e)
    ensures e.reason == CommandsRejected <==> CommandsAreRejected(pass.snapshot)
    ensures e.reason.SlotEmpty? ==> StartOutcome(pass) == Absent(e.reason.slot)
    ensures e.reason in {NoEcho, NoActive} ==>
              (e.reason == WaitingFor(send.record) <==> !LastStartWasRetry(Marked(Trace(start, first, inputs))))
  {
    RunIsConsistent(start, first, inputs);
    ReasonNamesTheWait(send, pass, e);
  }

  ghost predicate ReportsIn(send: Send, pass: Pass, e: Event) { e in Advance(send, pass).1 && e.Reported? }

  // ---------------------------------------------------------------------------
  // A run whose reason lags
  // ---------------------------------------------------------------------------

  const SILENT := Snapshot(false, false, false, {}, None, None, None)
  const ECHO := SILENT.(ids := {"7"})

  function PassAt(now: Time, snapshot: Snapshot): Pass {
    Pass(now, now, Some(snapshot), false, false, true, Some([]), true, None, true)
  }

  const BEGUN := Send(Attempt(Some("7"), 1, A, 0.0, None, false, None, None), None, Live)
  const ECHOED_TWICE: seq<Input> :=
    [Passed(PassAt(10.0, ECHO)), Passed(PassAt(190.0, SILENT)), Passed(PassAt(200.0, ECHO)),
      Passed(PassAt(380.0, SILENT))]

  function Stage(attempts: int, phase: Phase, at: Time, failure: Option<Reason>): Send {
    Send(Attempt(Some("7"), attempts, phase, at, failure, false, None, None), None, Live)
  }

  lemma AfterOne(start: Send, inputs: seq<Input>, k: nat)
    requires k < |inputs|
    ensures After(start, inputs[..k + 1]) == Next(After(start, inputs[..k]), inputs[k]).0
  {
    assert inputs[..k + 1][..k] == inputs[..k];
  }

  /** Two starts are echoed and never print; the third is never echoed, and is reported as never active. */
  lemma ReasonCanLag()
    ensures Begun(BEGUN, 0.0)
    ensures After(BEGUN, ECHOED_TWICE) == Stage(3, A, 380.0, Some(NoActive))
    ensures Advance(After(BEGUN, ECHOED_TWICE), PassAt(470.0, SILENT)).1 == [Reported(470.0, NoActive, true)]
    ensures WaitingFor(After(BEGUN, ECHOED_TWICE).record) == NoEcho
  {
    var inputs := ECHOED_TWICE;
    assert inputs[..0] == [] && inputs[..4] == inputs;
    AfterOne(BEGUN, inputs, 0);
    assert After(BEGUN, inputs[..1]) == Stage(1, B, 10.0, None);
    AfterOne(BEGUN, inputs, 1);
    assert After(BEGUN, inputs[..2]) == Stage(2, A, 190.0, Some(NoActive));
    AfterOne(BEGUN, inputs, 2);
    assert After(BEGUN, inputs[..3]) == Stage(2, B, 200.0, None);
    AfterOne(BEGUN, inputs, 3);
  }
}
