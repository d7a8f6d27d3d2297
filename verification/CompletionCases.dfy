/**
 * What one pass decides, latches, marks and drops, told from the assignment it copied and what the
 * printer shows; and what an assignment and the reconciler's memory hold, told from the run before.
 */
module CompletionCases {
  import opened Base
  import Lifecycle
  import opened Completion
  import opened CompletionRuns
  import opened CompletionReports

  // ---------------------------------------------------------------------------
  // The reconciler's decision
  // ---------------------------------------------------------------------------

  /** A live report of a session not yet decided, with a state of its own, and no stop in flight. */
  predicate Fresh(m: Memory, look: Look) {
    !look.stopping && look.snap.Some? &&
    var snap := look.snap.value;
    snap.live && snap.gcodeSeen && snap.state.Some? && snap.session.Some? && snap.session != m.decided
  }

  predicate OnIt(a: Assignment, snap: Snap) { a.submission.Some? && snap.matched == a.submission }

  predicate UnderWay(snap: Snap) {
    snap.state.Some? && snap.state.value in
      {Lifecycle.Prepare, Lifecycle.Slicing, Lifecycle.Running, Lifecycle.Pause}
  }

  predicate AtRest(snap: Snap) { snap.state in {Some(Lifecycle.Idle), Some(Lifecycle.GcodeState.Failed)} }

  predicate Known(snap: Snap) { UnderWay(snap) || AtRest(snap) || snap.state == Some(Lifecycle.Finish) }

  /** Someone saw the assigned print on the machine. */
  predicate Seen(a: Assignment) { a.observedActive || a.observedRunning || a.recovered }

  /** The report says that the assignment is over: nothing runs, or another print does. */
  predicate Contradicts(a: Assignment, snap: Snap) {
    AtRest(snap) || (a.submission.Some? && Known(snap) && !OnIt(a, snap))
  }

  /** The same session, state and match as half a minute before, on an assignment a minute old. */
  predicate Settled(m: Memory, a: Assignment, look: Look) {
    look.snap.Some? && m.steady.Some? &&
    var snap, mark := look.snap.value, m.steady.value;
    snap.session == Some(mark.key.session) && snap.state == Some(mark.key.state) && snap.matched == mark.key.matched &&
    look.monotonic >= mark.since + 30.0 && look.wall >= a.startedAt + 60.0
  }

  /** Each decision on an unlatched assignment, with exactly the reports it is made on. */
  lemma DecidesExactly(m: Memory, a: Assignment, look: Look)
    requires a.terminal.None?
    ensures var d := Decide(m, a, look).1;
            (d == Keep <==> Fresh(m, look) && OnIt(a, look.snap.value) && UnderWay(look.snap.value)) &&
            (d == EmitFinish <==>
               Fresh(m, look) && OnIt(a, look.snap.value) && look.snap.value.state == Some(Lifecycle.Finish) &&
               Settled(m, a, look) && look.canEmit) &&
            (d == Unobserved <==>
               Fresh(m, look) && Contradicts(a, look.snap.value) && Seen(a) && Settled(m, a, look)) &&
            (d == Leave <==>
               Fresh(m, look) &&
               ((Contradicts(a, look.snap.value) && !Seen(a)) ||
                (a.submission.None? && Known(look.snap.value) && !AtRest(look.snap.value)))) &&
            d != AlreadyLatched
  {
  }

  /** An assignment that is latched is the dispatcher's: the session counts as decided at once. */
  lemma LatchedIsLeft(m: Memory, a: Assignment, look: Look)
    requires a.terminal.Some?
    ensures Decide(m, a, look).1 == if Fresh(m, look) then AlreadyLatched else Nothing
  {
  }

  /** The report would end the assignment if it held for half a minute. */
  predicate Ending(m: Memory, a: Assignment, look: Look) {
    a.terminal.None? && Fresh(m, look) &&
    var snap := look.snap.value;
    (OnIt(a, snap) && snap.state == Some(Lifecycle.Finish)) || (Contradicts(a, snap) && Seen(a))
  }

  predicate SameMark(mark: Option<Steady>, snap: Snap) {
    mark.Some? && snap.session == Some(mark.value.key.session) && snap.state == Some(mark.value.key.state) &&
    snap.matched == mark.value.key.matched
  }

  predicate Marks(after: Option<Steady>, snap: Snap, at: Time) { SameMark(after, snap) && after.value.since == at }

  /** A decision remembers its session; a report that would end the assignment is stamped when it first comes. */
  lemma RemembersExactly(m: Memory, a: Assignment, look: Look)
    ensures var (after, d) := Decide(m, a, look);
            after.decided == (if d != Nothing then look.snap.value.session else m.decided) &&
            (if d != Nothing then after.steady.None?
             else if !Ending(m, a, look) || SameMark(m.steady, look.snap.value) then after.steady == m.steady
             else Marks(after.steady, look.snap.value, look.monotonic))
  {
  }

  // ---------------------------------------------------------------------------
  // What a detection does
  // ---------------------------------------------------------------------------

  predicate PrintsOrPauses(look: Look) { look.snap.Some? && look.snap.value.status in {Printing, PausedStatus} }

  ghost predicate AnyReason(a: Assignment, look: Look) { exists outcome :: DetectReason(a, look, outcome) }

  /** The printer shows that the assigned print was cancelled. */
  ghost predicate CancelShown(a: Assignment, look: Look) {
    look.snap.Some? &&
    var snap := look.snap.value;
    if a.submission.Some? then Holds(snap.events, a.submission.value, Lifecycle.Cancelled)
    else snap.cancelCodes && snap.status in {IdleStatus, ErrorStatus} && a.observedActive
  }

  /** Nothing is reported of an assignment a stop in flight is about: it is dropped, unless it prints untracked. */
  lemma StopDrops(a: Assignment, look: Look, acked: bool)
    requires a.terminal.None? && look.stopping && (a.submission.Some? || !PrintsOrPauses(look))
    ensures DetectSections(a, look, acked) == [Drops]
  {
  }

  /**
   * A detection drops the assignment exactly when a stop is in flight, the printer shows it
   * cancelled, or there is an outcome and 3DPF acks it (or there is no batch to tell it of).
   */
  lemma DropsIff(a: Assignment, look: Look, acked: bool)
    ensures Drops in DetectSections(a, look, acked) <==>
            if a.terminal.Some? then a.batch == "" || acked
            else if a.submission.None? && PrintsOrPauses(look) then false
            else look.stopping || CancelShown(a, look) || (AnyReason(a, look) && (a.batch == "" || acked))
  {
    if a.terminal.Some? {
      AckContents(a.batch, a.terminal.value, acked);
    } else if a.submission.Some? {
      SubmissionDropsIff(a, a.submission.value, look, acked);
    } else {
      StatusDropsIff(a, look, acked);
    }
  }

  lemma SubmissionDropsIff(a: Assignment, id: string, look: Look, acked: bool)
    requires a.terminal.None? && a.submission == Some(id)
    ensures Drops in SubmissionSections(a, id, look, acked) <==>
            look.stopping || CancelShown(a, look) || (AnyReason(a, look) && (a.batch == "" || acked))
  {
    if !look.stopping {
      var events := EventsOf(look.snap);
      EventContents(events, id);
      LatchContents(a.batch, Judge(events, id).outcome, acked);
      JudgeMeaning(events, id);
      SubmissionReason(a, id, look);
    }
  }

  lemma SubmissionReason(a: Assignment, id: string, look: Look)
    requires a.terminal.None? && a.submission == Some(id) && !look.stopping
    ensures AnyReason(a, look) <==> Judge(EventsOf(look.snap), id).outcome.Some?
  {
    var outcome := Judge(EventsOf(look.snap), id).outcome;
    forall o
      ensures DetectReason(a, look, o) <==> outcome == Some(o)
    {
      JudgedOutcome(EventsOf(look.snap), id, o);
      NoEventsNoVerdict(id, Lifecycle.Finished);
      NoEventsNoVerdict(id, Lifecycle.Failure);
    }
    if outcome.Some? {
      assert DetectReason(a, look, outcome.value);
    }
  }

  lemma StatusDropsIff(a: Assignment, look: Look, acked: bool)
    requires a.terminal.None? && a.submission.None?
    ensures Drops in StatusSections(a, look, acked) <==>
            !PrintsOrPauses(look) &&
            (look.stopping || CancelShown(a, look) || (AnyReason(a, look) && (a.batch == "" || acked)))
  {
    var status := if look.snap.Some? then look.snap.value.status else OtherStatus;
    var cancelCodes := look.snap.Some? && look.snap.value.cancelCodes;
    LatchContents(a.batch, StatusOutcome(a, status, cancelCodes, look.wall), acked);
    if !look.stopping && !PrintsOrPauses(look) && !CancelShown(a, look) {
      StatusReason(a, look);
    }
  }

  lemma StatusReason(a: Assignment, look: Look)
    requires a.terminal.None? && a.submission.None? && !look.stopping && !PrintsOrPauses(look) && !CancelShown(a, look)
    ensures var status := if look.snap.Some? then look.snap.value.status else OtherStatus;
            var cancelCodes := look.snap.Some? && look.snap.value.cancelCodes;
            AnyReason(a, look) <==> StatusOutcome(a, status, cancelCodes, look.wall).Some?
  {
    var status := if look.snap.Some? then look.snap.value.status else OtherStatus;
    var cancelCodes := look.snap.Some? && look.snap.value.cancelCodes;
    var outcome := StatusOutcome(a, status, cancelCodes, look.wall);
    if outcome.Some? {
      assert DetectReason(a, look, outcome.value);
    }
  }

  /** A start of ours that no cancel of ours comes before. */
  ghost predicate StartShown(events: seq<Lifecycle.Event>, id: string) {
    exists i :: OursAt(events, i, id, Lifecycle.Started) && !Holds(events[..i], id, Lifecycle.Cancelled)
  }

  /** A detection marks the print running or active exactly when it sees it so. */
  lemma MarksIff(a: Assignment, look: Look, acked: bool)
    ensures MarksRunning in DetectSections(a, look, acked) <==>
            a.submission.Some? && a.terminal.None? && !look.stopping &&
            StartShown(EventsOf(look.snap), a.submission.value)
    ensures MarksActive in DetectSections(a, look, acked) <==>
            a.submission.None? && a.terminal.None? && PrintsOrPauses(look) && !a.observedActive
    ensures MarksRecovered !in DetectSections(a, look, acked)
  {
    if a.submission.Some? && a.terminal.None? {
      RunningMarked(EventsOf(look.snap), a.submission.value);
      EventContents(EventsOf(look.snap), a.submission.value);
    }
  }

  lemma {:induction false} RunningMarked(events: seq<Lifecycle.Event>, id: string)
    ensures MarksRunning in EventSections(events, id) <==> StartShown(events, id)
  {
    if events != [] {
      var last := |events| - 1;
      var init := events[..last];
      RunningMarked(init, id);
      JudgeMeaning(init, id);
      if i :| OursAt(events, i, id, Lifecycle.Started) && !Holds(events[..i], id, Lifecycle.Cancelled) {
        assert events[..i] == init[..i] && (i < last ==> OursAt(init, i, id, Lifecycle.Started));
      }
      if i :| OursAt(init, i, id, Lifecycle.Started) && !Holds(init[..i], id, Lifecycle.Cancelled) {
        assert events[..i] == init[..i] && OursAt(events, i, id, Lifecycle.Started);
      }
    }
  }

  // ---------------------------------------------------------------------------
  // What an assignment holds
  // ---------------------------------------------------------------------------

  predicate RunsSectionAt(inputs: seq<Input>, k: nat, sections: set<Section>)
    requires k < |inputs|
  {
    SectionAt(inputs, k).Some? && SectionAt(inputs, k).value in sections
  }

  /** Since the last assignment was recorded, a pass ran one of these sections, or the worker saw it active. */
  ghost predicate MarkedBy(inputs: seq<Input>, n: nat, sections: set<Section>, sighted: bool) {
    exists k: nat ::
      k < n <= |inputs| && NoneRecorded(inputs, k, n) &&
      (RunsSectionAt(inputs, k, sections) || (sighted && inputs[k].SeenActive?))
  }

  lemma MarkedGrows(inputs: seq<Input>, n: nat, sections: set<Section>, sighted: bool)
    requires n < |inputs|
    ensures MarkedBy(inputs, n + 1, sections, sighted) <==>
            !inputs[n].Recorded? &&
            (MarkedBy(inputs, n, sections, sighted) ||
             RunsSectionAt(inputs, n, sections) || (sighted && inputs[n].SeenActive?))
  {
    if MarkedBy(inputs, n, sections, sighted) && !inputs[n].Recorded? {
      var k: nat :| k < n && NoneRecorded(inputs, k, n) &&
                    (RunsSectionAt(inputs, k, sections) || (sighted && inputs[k].SeenActive?));
      assert NoneRecorded(inputs, k, n + 1);
    }
    if RunsSectionAt(inputs, n, sections) || (sighted && inputs[n].SeenActive?) {
      assert !inputs[n].Recorded? && NoneRecorded(inputs, n, n + 1);
    }
    if MarkedBy(inputs, n + 1, sections, sighted) {
      var k: nat :| k < n + 1 && NoneRecorded(inputs, k, n + 1) &&
                    (RunsSectionAt(inputs, k, sections) || (sighted && inputs[k].SeenActive?));
      assert NoneRecorded(inputs, k, n);
    }
  }

  /** The section this step runs on a printer. */
  function SectionOf(p: Printer, input: Input): Option<Section> {
    if RunsNext(p, input) then Some(p.pass.value.left[0]) else None
  }

  predicate SameSend(a: Assignment, b: Assignment) {
    a.batch == b.batch && a.plate == b.plate && a.startedAt == b.startedAt && a.submission == b.submission
  }

  /** What one step does to the marks of the assignment it leaves. */
  lemma MarksMove(p: Printer, input: Input)
    requires Next(p, input).0.assignment.Some?
    ensures var a, section := Next(p, input).0.assignment.value, SectionOf(p, input);
            if input.Recorded? then
              a == Assignment(input.batch, input.plate, None, input.startedAt, false, input.submission, false, false)
            else
              p.assignment.Some? &&
              var b := p.assignment.value;
              (a.observedActive <==> b.observedActive || section == Some(MarksActive) || input.SeenActive?) &&
              (a.observedRunning <==> b.observedRunning || section in {Some(MarksRunning), Some(MarksRecovered)}) &&
              (a.recovered <==> b.recovered || section == Some(MarksRecovered)) &&
              SameSend(a, if input.SendUpdated? then b.(submission := input.submission) else b)
  {
  }

  /** An assignment carries exactly the marks made since it was recorded. */
  lemma {:induction false} MarksFollow(inputs: seq<Input>, n: nat)
    requires n <= |inputs| && After(inputs[..n]).assignment.Some?
    ensures var a := After(inputs[..n]).assignment.value;
            (a.observedActive <==> MarkedBy(inputs, n, {MarksActive}, true)) &&
            (a.observedRunning <==> MarkedBy(inputs, n, {MarksRunning, MarksRecovered}, false)) &&
            (a.recovered <==> MarkedBy(inputs, n, {MarksRecovered}, false))
    decreases n
  {
    assert n > 0;
    var k := n - 1;
    AfterStep(inputs, k);
    MarksMove(After(inputs[..k]), inputs[k]);
    MarkedGrows(inputs, k, {MarksActive}, true);
    MarkedGrows(inputs, k, {MarksRunning, MarksRecovered}, false);
    MarkedGrows(inputs, k, {MarksRecovered}, false);
    if !inputs[k].Recorded? {
      MarksFollow(inputs, k);
    }
  }

  /** The send last recorded, with the submission id last written on it. */
  function SendOf(inputs: seq<Input>): Option<Assignment> {
    if inputs == [] then None
    else
      var last, before := inputs[|inputs| - 1], SendOf(inputs[..|inputs| - 1]);
      match last
      case Recorded(batch, plate, startedAt, submission) =>
        Some(Assignment(batch, plate, None, startedAt, false, submission, false, false))
      case SendUpdated(submission) => if before.Some? then Some(before.value.(submission := submission)) else None
      case _ => before
  }

  /** An assignment is always about the send last recorded. */
  lemma {:induction false} SendFollows(inputs: seq<Input>)
    requires After(inputs).assignment.Some?
    ensures SendOf(inputs).Some? && SameSend(After(inputs).assignment.value, SendOf(inputs).value)
  {
    assert inputs != [];
    var init, last := inputs[..|inputs| - 1], inputs[|inputs| - 1];
    MarksMove(After(init), last);
    if !last.Recorded? {
      SendFollows(init);
    }
  }

  /** Since the last assignment was recorded, it was neither dropped by a pass nor cleared. */
  predicate StillAssigned(inputs: seq<Input>, n: nat)
    requires n <= |inputs|
  {
    n > 0 &&
    (inputs[n - 1].Recorded? ||
     (StillAssigned(inputs, n - 1) && !inputs[n - 1].Cleared? && !RunsSectionAt(inputs, n - 1, {Drops})))
  }

  lemma AssignedMoves(p: Printer, input: Input)
    ensures Next(p, input).0.assignment.Some? <==>
            input.Recorded? || (p.assignment.Some? && !input.Cleared? && SectionOf(p, input) != Some(Drops))
  {
  }

  lemma {:induction false} AssignedFollows(inputs: seq<Input>, n: nat)
    requires n <= |inputs|
    ensures After(inputs[..n]).assignment.Some? <==> StillAssigned(inputs, n)
    decreases n
  {
    if n > 0 {
      AssignedFollows(inputs, n - 1);
      AfterStep(inputs, n - 1);
      AssignedMoves(After(inputs[..n - 1]), inputs[n - 1]);
    }
  }

  /** The outcome first latched since the last assignment was recorded. */
  function FirstLatch(inputs: seq<Input>, n: nat): Option<Outcome>
    requires n <= |inputs|
  {
    if n == 0 || inputs[n - 1].Recorded? then None
    else if FirstLatch(inputs, n - 1).Some? then FirstLatch(inputs, n - 1)
    else
      var section := SectionAt(inputs, n - 1);
      if section.Some? && section.value.Latches? then Some(section.value.outcome) else None
  }

  lemma LatchMoves(p: Printer, input: Input)
    requires Next(p, input).0.assignment.Some? && !input.Recorded?
    ensures var section := SectionOf(p, input);
            p.assignment.Some? &&
            Next(p, input).0.assignment.value.terminal ==
            if p.assignment.value.terminal.Some? then p.assignment.value.terminal
            else if section.Some? && section.value.Latches? then Some(section.value.outcome) else None
  {
  }

  /** The first latch stands: no later pass replaces the outcome of an assignment. */
  lemma {:induction false} FirstLatchStands(inputs: seq<Input>, n: nat)
    requires n <= |inputs| && After(inputs[..n]).assignment.Some?
    ensures After(inputs[..n]).assignment.value.terminal == FirstLatch(inputs, n)
    decreases n
  {
    assert n > 0;
    AfterStep(inputs, n - 1);
    if !inputs[n - 1].Recorded? {
      LatchMoves(After(inputs[..n - 1]), inputs[n - 1]);
      FirstLatchStands(inputs, n - 1);
    }
  }

  // ---------------------------------------------------------------------------
  // What the reconciler remembers
  // ---------------------------------------------------------------------------

  /** The first of the alike reports that would end the assignment, none of another kind or decision since. */
  function FirstAlike(inputs: seq<Input>, n: nat): Option<Steady>
    requires n <= |inputs|
  {
    if n == 0 || inputs[n - 1].Relaunched? then None
    else
      var before, p, input := FirstAlike(inputs, n - 1), After(inputs[..n - 1]), inputs[n - 1];
      if !input.Reconciles? || p.pass.Some? || p.assignment.None? then before
      else if EffectAt(inputs, n - 1).decision != Nothing then None
      else if !Ending(p.memory, p.assignment.value, input.look) || SameMark(before, input.look.snap.value) then before
      else
        var snap := input.look.snap.value;
        Some(Steady(SteadyKey(snap.session.value, snap.state.value, snap.matched), input.look.monotonic))
  }

  lemma MarkMoves(p: Printer, input: Input)
    ensures var t, d := Next(p, input).0.memory, Next(p, input).1.decision;
            if input.Relaunched? then t.steady.None?
            else if !input.Reconciles? || p.pass.Some? || p.assignment.None? then t.steady == p.memory.steady
            else if d != Nothing then t.steady.None?
            else if Ending(p.memory, p.assignment.value, input.look) &&
                    !SameMark(p.memory.steady, input.look.snap.value)
            then Marks(t.steady, input.look.snap.value, input.look.monotonic)
            else t.steady == p.memory.steady
  {
    if input.Reconciles? && Begins(p, input) {
      RemembersExactly(p.memory, p.assignment.value, input.look);
    }
  }

  /** The half minute always counts from the first of the alike reports. */
  lemma {:induction false} MarkIsFirstAlike(inputs: seq<Input>, n: nat)
    requires n <= |inputs|
    ensures After(inputs[..n]).memory.steady == FirstAlike(inputs, n)
    decreases n
  {
    if n > 0 {
      MarkIsFirstAlike(inputs, n - 1);
      AfterStep(inputs, n - 1);
      MarkMoves(After(inputs[..n - 1]), inputs[n - 1]);
    }
  }
}
