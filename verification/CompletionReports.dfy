/**
 * What passes latch, report and drop, over whole runs. A pass judges the assignment it copied, but
 * its sections act on whatever assignment the printer has by then.
 */
module CompletionReports {
  import opened Base
  import Lifecycle
  import opened Completion
  import opened CompletionRuns

  // ---------------------------------------------------------------------------
  // What one pass may latch and report
  // ---------------------------------------------------------------------------

  /** Our last verdict is of this kind, and we were not cancelled. */
  ghost predicate EventsSay(events: seq<Lifecycle.Event>, id: string, kind: Lifecycle.Kind) {
    HasVerdict(events, id, kind) && !Holds(events, id, Lifecycle.Cancelled)
  }

  /** Link's own finish, or, with no submission id, an active print that reached its plate. */
  ghost predicate CompleteReason(a: Assignment, snap: Snap) {
    if a.submission.Some? then EventsSay(snap.events, a.submission.value, Lifecycle.Finished)
    else a.observedActive && snap.status == NeedsClearing
  }

  /** Link's own failure, or, with no submission id, an error or a print that was never seen active. */
  ghost predicate FailReason(a: Assignment, snap: Snap, wall: Time) {
    if a.submission.Some? then EventsSay(snap.events, a.submission.value, Lifecycle.Failure)
    else
      var grace := Age(a, wall) >= STARTUP_GRACE_SECONDS;
      match snap.status
      case ErrorStatus => if snap.cancelCodes then grace && !a.observedActive else grace || a.observedActive
      case NeedsClearing => grace && !a.observedActive
      case IdleStatus => snap.cancelCodes && grace && !a.observedActive
      case _ => false
  }

  ghost predicate DetectReason(a: Assignment, look: Look, outcome: Outcome) {
    !look.stopping && look.snap.Some? &&
    match outcome
    case Complete => CompleteReason(a, look.snap.value)
    case Failed => FailReason(a, look.snap.value, look.wall)
    case EndedUnobserved => false
  }

  lemma AckContents(batch: string, outcome: Outcome, acked: bool)
    ensures var sections := AckSections(batch, outcome, acked);
            (forall o :: Latches(o) !in sections) &&
            (forall o :: Posts(o) in sections <==> batch != "" && o == outcome) &&
            (Drops in sections <==> batch == "" || acked)
  {
  }

  lemma LatchContents(batch: string, outcome: Option<Outcome>, acked: bool)
    ensures var sections := LatchSections(batch, outcome, acked);
            (forall o :: Latches(o) in sections <==> outcome == Some(o)) &&
            (forall o :: Posts(o) in sections <==> batch != "" && outcome == Some(o)) &&
            (Drops in sections <==> outcome.Some? && (batch == "" || acked))
  {
    if outcome.Some? {
      AckContents(batch, outcome.value, acked);
    }
  }

  lemma {:induction false} EventContents(events: seq<Lifecycle.Event>, id: string)
    ensures var sections := EventSections(events, id);
            (forall s <- sections :: s == MarksRunning || s == Drops) &&
            (Drops in sections <==> Judge(events, id).dropped)
  {
    if events != [] {
      EventContents(events[..|events| - 1], id);
    }
  }

  lemma SubmissionContents(a: Assignment, id: string, look: Look, acked: bool)
    requires a.terminal.None? && !look.stopping
    ensures var sections := SubmissionSections(a, id, look, acked);
            var verdict := Judge(EventsOf(look.snap), id);
            (forall o :: Latches(o) in sections <==> verdict.outcome == Some(o)) &&
            (forall o :: Posts(o) in sections <==> a.batch != "" && verdict.outcome == Some(o)) &&
            (Drops in sections ==> verdict.dropped || a.batch == "" || acked)
  {
    var events := EventsOf(look.snap);
    EventContents(events, id);
    LatchContents(a.batch, Judge(events, id).outcome, acked);
  }

  lemma JudgedOutcome(events: seq<Lifecycle.Event>, id: string, outcome: Outcome)
    ensures Judge(events, id).outcome == Some(outcome) <==>
            match outcome
            case Complete => EventsSay(events, id, Lifecycle.Finished)
            case Failed => EventsSay(events, id, Lifecycle.Failure)
            case EndedUnobserved => false
  {
    JudgeMeaning(events, id);
    VerdictKept(events, id);
  }

  lemma NoEventsNoVerdict(id: string, kind: Lifecycle.Kind)
    ensures !HasVerdict([], id, kind)
  {
  }

  lemma SubmissionLatchesIff(a: Assignment, id: string, look: Look, acked: bool, outcome: Outcome)
    requires a.terminal.None? && a.submission == Some(id)
    ensures Latches(outcome) in SubmissionSections(a, id, look, acked) <==> DetectReason(a, look, outcome)
    ensures Posts(outcome) in SubmissionSections(a, id, look, acked) <==>
            a.batch != "" && DetectReason(a, look, outcome)
  {
    if !look.stopping {
      SubmissionContents(a, id, look, acked);
      JudgedOutcome(EventsOf(look.snap), id, outcome);
      NoEventsNoVerdict(id, Lifecycle.Finished);
      NoEventsNoVerdict(id, Lifecycle.Failure);
    }
  }

  lemma StatusLatchesIff(a: Assignment, look: Look, acked: bool, outcome: Outcome)
    requires a.terminal.None? && a.submission.None?
    ensures Latches(outcome) in StatusSections(a, look, acked) <==> DetectReason(a, look, outcome)
    ensures Posts(outcome) in StatusSections(a, look, acked) <==> a.batch != "" && DetectReason(a, look, outcome)
  {
    var status := if look.snap.Some? then look.snap.value.status else OtherStatus;
    var cancelCodes := look.snap.Some? && look.snap.value.cancelCodes;
    LatchContents(a.batch, StatusOutcome(a, status, cancelCodes, look.wall), acked);
  }

  /**
   * A detection latches an outcome exactly when the assignment it copied was unlatched and the
   * outcome has its reason, and posts exactly that outcome or the one latched before.
   */
  lemma DetectsIff(a: Assignment, look: Look, acked: bool, outcome: Outcome)
    ensures Latches(outcome) in DetectSections(a, look, acked) <==> a.terminal.None? && DetectReason(a, look, outcome)
    ensures Posts(outcome) in DetectSections(a, look, acked) <==>
            a.batch != "" && (a.terminal == Some(outcome) || (a.terminal.None? && DetectReason(a, look, outcome)))
  {
    if a.terminal.Some? {
      AckContents(a.batch, a.terminal.value, acked);
    } else if a.submission.Some? {
      SubmissionLatchesIff(a, a.submission.value, look, acked, outcome);
    } else {
      StatusLatchesIff(a, look, acked, outcome);
    }
  }

  /** A pass that latches, or that copied a latch, drops only on an ack (or with no batch to report). */
  lemma DropNeedsAck(a: Assignment, look: Look, acked: bool, outcome: Outcome)
    requires Drops in DetectSections(a, look, acked) && a.batch != ""
    requires a.terminal.Some? || Latches(outcome) in DetectSections(a, look, acked)
    ensures acked && Posts(a.terminal.GetOr(outcome)) in DetectSections(a, look, acked)
  {
    DetectsIff(a, look, acked, a.terminal.GetOr(outcome));
    if a.terminal.Some? {
      AckContents(a.batch, a.terminal.value, acked);
    } else if a.submission.Some? {
      SubmissionContents(a, a.submission.value, look, acked);
      VerdictKept(EventsOf(look.snap), a.submission.value);
    } else {
      var status := if look.snap.Some? then look.snap.value.status else OtherStatus;
      var cancelCodes := look.snap.Some? && look.snap.value.cancelCodes;
      LatchContents(a.batch, StatusOutcome(a, status, cancelCodes, look.wall), acked);
    }
  }

  /** The pass begun here found the outcome true of the assignment it copied. */
  ghost predicate Judges(p: Printer, input: Input, outcome: Outcome) {
    Begins(p, input) && p.assignment.value.terminal.None? &&
    if input.Reconciles? then
      Decide(p.memory, p.assignment.value, input.look).1 == Unobserved && outcome == EndedUnobserved
    else DetectReason(p.assignment.value, input.look, outcome)
  }

  lemma LatchSectionIsJudged(p: Printer, input: Input, outcome: Outcome)
    requires Begins(p, input) && Latches(outcome) in SectionsOf(p, input)
    ensures Judges(p, input, outcome)
  {
    if input.Detects? {
      DetectsIff(p.assignment.value, input.look, input.acked, outcome);
    }
  }

  lemma PostSectionIsJudged(p: Printer, input: Input, outcome: Outcome)
    requires Begins(p, input) && Posts(outcome) in SectionsOf(p, input)
    ensures p.assignment.value.batch != ""
    ensures p.assignment.value.terminal == Some(outcome) || Judges(p, input, outcome)
  {
    if input.Detects? {
      DetectsIff(p.assignment.value, input.look, input.acked, outcome);
    }
  }

  // ---------------------------------------------------------------------------
  // Where a pass stands
  // ---------------------------------------------------------------------------

  ghost predicate Ends(left: seq<Section>, all: seq<Section>) { |left| <= |all| && left == all[|all| - |left|..] }

  /** The pass was begun by step `begun`, copied the assignment there, and has these sections left of its own. */
  ghost predicate PassOk(inputs: seq<Input>, n: nat, pass: Pass) {
    pass.begun < n <= |inputs| && pass.left != [] &&
    var p := After(inputs[..pass.begun]);
    Begins(p, inputs[pass.begun]) && pass.number == p.recorded && Some(pass.copy) == p.assignment &&
    Ends(pass.left, SectionsOf(p, inputs[pass.begun]))
  }

  lemma {:induction false} StepsCount(inputs: seq<Input>)
    ensures After(inputs).steps == |inputs|
  {
    if inputs != [] {
      StepsCount(inputs[..|inputs| - 1]);
    }
  }

  /** After a step there is the pass it began, or the one before, at most one section further. */
  lemma PassStep(p: Printer, input: Input)
    requires Next(p, input).0.pass.Some?
    ensures var pass := Next(p, input).0.pass.value;
            (Begins(p, input) && Begin(p, input) == Some(pass)) ||
            (p.pass.Some? && (p.pass.value == pass ||
             (p.pass.value.left != [] && pass == p.pass.value.(left := p.pass.value.left[1..]) && pass.left != [])))
  {
  }

  lemma EndsShorter(left: seq<Section>, all: seq<Section>)
    requires Ends(left, all) && left != []
    ensures Ends(left[1..], all) && left[0] in all
  {
    assert left[1..] == all[|all| - |left|..][1..];
  }

  lemma {:induction false} PassTracked(inputs: seq<Input>, n: nat)
    requires n <= |inputs| && After(inputs[..n]).pass.Some?
    ensures PassOk(inputs, n, After(inputs[..n]).pass.value)
    decreases n
  {
    assert n > 0;
    var before := After(inputs[..n - 1]);
    AfterStep(inputs, n - 1);
    PassStep(before, inputs[n - 1]);
    StepsCount(inputs[..n - 1]);
    if Begins(before, inputs[n - 1]) {
      BegunIsOk(inputs, n - 1);
    } else {
      PassTracked(inputs, n - 1);
      var pass := before.pass.value;
      EndsShorter(pass.left, SectionsOf(After(inputs[..pass.begun]), inputs[pass.begun]));
    }
  }

  lemma BegunIsOk(inputs: seq<Input>, b: nat)
    requires b < |inputs| && Begins(After(inputs[..b]), inputs[b]) && Begin(After(inputs[..b]), inputs[b]).Some?
    ensures PassOk(inputs, b + 1, Begin(After(inputs[..b]), inputs[b]).value)
  {
    StepsCount(inputs[..b]);
  }

  ghost predicate NoneRecorded(inputs: seq<Input>, i: nat, j: nat) {
    j <= |inputs| && forall k :: i <= k < j ==> !inputs[k].Recorded?
  }

  lemma {:induction false} NumbersCount(inputs: seq<Input>, i: nat, j: nat)
    requires i <= j <= |inputs|
    ensures After(inputs[..i]).recorded <= After(inputs[..j]).recorded
    ensures After(inputs[..j]).recorded == After(inputs[..i]).recorded <==> NoneRecorded(inputs, i, j)
    decreases j
  {
    if i < j {
      NumbersCount(inputs, i, j - 1);
      NumberAfter(inputs, j - 1);
    }
  }

  lemma NumberAfter(inputs: seq<Input>, k: nat)
    requires k < |inputs|
    ensures After(inputs[..k + 1]).recorded == After(inputs[..k]).recorded + (if inputs[k].Recorded? then 1 else 0)
  {
    AfterStep(inputs, k);
  }

  /** The section this step runs, if it runs one. */
  function SectionAt(inputs: seq<Input>, k: nat): Option<Section>
    requires k < |inputs|
  {
    var p := After(inputs[..k]);
    if RunsNext(p, inputs[k]) then Some(p.pass.value.left[0]) else None
  }

  /**
   * A section that finds an assignment (a mark, a latch, a drop, of either kind of pass) lands on
   * the one its pass copied if and only if none was recorded in between.
   */
  lemma SectionLandsOnItsOwn(inputs: seq<Input>, k: nat)
    requires k < |inputs| && SectionAt(inputs, k).Some? && After(inputs[..k]).assignment.Some?
    ensures var p := After(inputs[..k]);
            p.pass.value.begun < k &&
            (p.pass.value.number == p.recorded <==> NoneRecorded(inputs, p.pass.value.begun, k))
  {
    PassTracked(inputs, k);
    NumbersCount(inputs, After(inputs[..k]).pass.value.begun, k);
  }

  // ---------------------------------------------------------------------------
  // Where a latch comes from
  // ---------------------------------------------------------------------------

  /** An outcome latched on a batch. */
  datatype Latch = Latch(outcome: Outcome, batch: string)

  function LatchOf(p: Printer): Option<Latch> {
    if p.assignment.Some? && p.assignment.value.terminal.Some?
    then Some(Latch(p.assignment.value.terminal.value, p.assignment.value.batch))
    else None
  }

  /** The printer holds this latch, set by that pass and step, on its assignment of that number. */
  predicate HoldsLatch(p: Printer, latch: Latch, origin: LatchedBy, number: nat) {
    LatchOf(p) == Some(latch) && p.latchedBy == Some(origin) && p.recorded == number
  }

  /** This step runs a section that sets the latch. */
  predicate SetsLatch(p: Printer, input: Input, latch: Latch) {
    RunsNext(p, input) && p.pass.value.left[0] == Latches(latch.outcome) &&
    p.assignment.Some? && p.assignment.value.terminal.None? && p.assignment.value.batch == latch.batch
  }

  /** A latch that is there after a step was set by it or was there before it. */
  lemma LatchStep(p: Printer, input: Input, latch: Latch, origin: LatchedBy, number: nat)
    requires HoldsLatch(Next(p, input).0, latch, origin, number)
    ensures (SetsLatch(p, input, latch) && origin == LatchedBy(p.pass.value.begun, p.steps) && p.recorded == number) ||
            HoldsLatch(p, latch, origin, number)
  {
  }

  /** Step `origin.at`, of the pass begun by step `origin.begun`, set the latch, and it was there ever since. */
  ghost predicate LatchStands(inputs: seq<Input>, origin: LatchedBy, n: nat, latch: Latch) {
    origin.begun < origin.at < n <= |inputs| &&
    SetsLatch(After(inputs[..origin.at]), inputs[origin.at], latch) &&
    After(inputs[..origin.at]).pass.value.begun == origin.begun &&
    forall m: nat :: origin.at < m <= n ==>
      HoldsLatch(After(inputs[..m]), latch, origin, After(inputs[..origin.at]).recorded)
  }

  lemma LatchJustSet(inputs: seq<Input>, n: nat, latch: Latch, origin: LatchedBy, number: nat)
    requires n < |inputs| && HoldsLatch(After(inputs[..n + 1]), latch, origin, number)
    requires SetsLatch(After(inputs[..n]), inputs[n], latch) && After(inputs[..n]).recorded == number
    requires origin == LatchedBy(After(inputs[..n]).pass.value.begun, n)
    ensures LatchStands(inputs, origin, n + 1, latch)
  {
    PassTracked(inputs, n);
  }

  lemma LatchStillStands(inputs: seq<Input>, n: nat, latch: Latch, origin: LatchedBy, number: nat)
    requires n < |inputs| && LatchStands(inputs, origin, n, latch)
    requires HoldsLatch(After(inputs[..n]), latch, origin, number)
    requires HoldsLatch(After(inputs[..n + 1]), latch, origin, number)
    ensures LatchStands(inputs, origin, n + 1, latch)
  {
  }

  lemma LatchAfter(inputs: seq<Input>, k: nat, latch: Latch, origin: LatchedBy, number: nat)
    requires k < |inputs| && HoldsLatch(After(inputs[..k + 1]), latch, origin, number)
    requires !HoldsLatch(After(inputs[..k]), latch, origin, number)
    ensures LatchStands(inputs, origin, k + 1, latch)
  {
    AfterStep(inputs, k);
    StepsCount(inputs[..k]);
    LatchStep(After(inputs[..k]), inputs[k], latch, origin, number);
    LatchJustSet(inputs, k, latch, origin, number);
  }

  lemma {:induction false} LatchTracked(inputs: seq<Input>, n: nat, latch: Latch, origin: LatchedBy, number: nat)
    requires n <= |inputs| && HoldsLatch(After(inputs[..n]), latch, origin, number)
    ensures LatchStands(inputs, origin, n, latch)
    decreases n
  {
    assert inputs[..0] == [] && LatchOf(IDLE).None?;
    if HoldsLatch(After(inputs[..n - 1]), latch, origin, number) {
      LatchTracked(inputs, n - 1, latch, origin, number);
      LatchStillStands(inputs, n - 1, latch, origin, number);
    } else {
      LatchAfter(inputs, n - 1, latch, origin, number);
    }
  }

  lemma LatchIsJudged(inputs: seq<Input>, origin: LatchedBy, n: nat, latch: Latch)
    requires LatchStands(inputs, origin, n, latch)
    ensures Judges(After(inputs[..origin.begun]), inputs[origin.begun], latch.outcome)
  {
    var p := After(inputs[..origin.at]);
    var first := After(inputs[..origin.begun]);
    PassTracked(inputs, origin.at);
    EndsShorter(p.pass.value.left, SectionsOf(first, inputs[origin.begun]));
    LatchSectionIsJudged(first, inputs[origin.begun], latch.outcome);
  }

  /** A latch always knows what set it, and a pass never copied an assignment not yet recorded. */
  predicate HistoryOk(p: Printer) {
    (p.latchedBy.Some? <==> LatchOf(p).Some?) && (p.pass.Some? ==> p.pass.value.number <= p.recorded)
  }

  lemma {:induction false} HistoryKept(inputs: seq<Input>)
    ensures HistoryOk(After(inputs))
  {
    if inputs != [] {
      HistoryKept(inputs[..|inputs| - 1]);
      HistoryStep(After(inputs[..|inputs| - 1]), inputs[|inputs| - 1]);
    }
  }

  lemma HistoryStep(p: Printer, input: Input)
    requires HistoryOk(p)
    ensures HistoryOk(Next(p, input).0)
  {
  }

  // ---------------------------------------------------------------------------
  // Every report is earned
  // ---------------------------------------------------------------------------

  /** The report a step posts. */
  function PostedAt(inputs: seq<Input>, k: nat): Option<Posted>
    requires k < |inputs|
  {
    EffectAt(inputs, k).report
  }

  lemma PostIsSection(p: Printer, input: Input)
    requires Next(p, input).1.report.Some?
    ensures var posted := Next(p, input).1.report.value;
            RunsNext(p, input) && p.pass.value.left[0] == Posts(posted.outcome) &&
            posted.number == p.pass.value.number && posted.batch == p.pass.value.copy.batch
  {
  }

  lemma PostNeeds(inputs: seq<Input>, k: nat)
    requires k < |inputs| && PostedAt(inputs, k).Some?
    ensures var pass, posted := After(inputs[..k]).pass, PostedAt(inputs, k).value;
            pass.Some? && PassOk(inputs, k, pass.value) && SectionAt(inputs, k) == Some(Posts(posted.outcome)) &&
            posted.number == pass.value.number && posted.batch == pass.value.copy.batch &&
            Posts(posted.outcome) in SectionsOf(After(inputs[..pass.value.begun]), inputs[pass.value.begun])
  {
    PostIsSection(After(inputs[..k]), inputs[k]);
    var pass := After(inputs[..k]).pass.value;
    PassTracked(inputs, k);
    EndsShorter(pass.left, SectionsOf(After(inputs[..pass.begun]), inputs[pass.begun]));
  }

  /** The pass that found the outcome of a report true: its own, or the one that latched what it copied. */
  function JudgedAt(inputs: seq<Input>, k: nat): (j: nat)
    requires k < |inputs|
    ensures j <= k
  {
    var p := After(inputs[..k]);
    if p.pass.None? || p.pass.value.begun >= k then 0
    else
      var first := After(inputs[..p.pass.value.begun]);
      if p.pass.value.copy.terminal.Some? && first.latchedBy.Some? && first.latchedBy.value.begun < k
      then first.latchedBy.value.begun
      else p.pass.value.begun
  }

  /**
   * Whatever is reported was found true by the pass at `JudgedAt` of the assignment that pass
   * copied: the reporting pass itself, or the one whose section set the latch it copied, which
   * stood from then to the copy.
   */
  lemma ReportIsJudged(inputs: seq<Input>, k: nat)
    requires k < |inputs| && PostedAt(inputs, k).Some?
    ensures var pass, posted := After(inputs[..k]).pass.value, PostedAt(inputs, k).value;
            After(inputs[..k]).pass.Some? && PassOk(inputs, k, pass) && posted.batch != "" &&
            JudgedAt(inputs, k) <= pass.begun &&
            Judges(After(inputs[..JudgedAt(inputs, k)]), inputs[JudgedAt(inputs, k)], posted.outcome) &&
            (pass.copy.terminal.Some? ==>
               var origin := After(inputs[..pass.begun]).latchedBy;
               origin.Some? && origin.value.begun == JudgedAt(inputs, k) &&
               LatchStands(inputs, origin.value, pass.begun, Latch(posted.outcome, posted.batch)))
  {
    PostNeeds(inputs, k);
    var pass, posted := After(inputs[..k]).pass.value, PostedAt(inputs, k).value;
    var first := After(inputs[..pass.begun]);
    PostSectionIsJudged(first, inputs[pass.begun], posted.outcome);
    if pass.copy.terminal.Some? {
      HistoryKept(inputs[..pass.begun]);
      var latch := Latch(posted.outcome, posted.batch);
      var origin := first.latchedBy.value;
      LatchTracked(inputs, pass.begun, latch, origin, first.recorded);
      LatchIsJudged(inputs, origin, pass.begun, latch);
    }
  }

  /**
   * The assignment a report names is the one its outcome was found true of, if and only if the
   * reporting pass judged it itself, or no assignment was recorded between the copy and the latch
   * of the pass that did.
   */
  lemma ReportIsEarnedIff(inputs: seq<Input>, k: nat)
    requires k < |inputs| && PostedAt(inputs, k).Some?
    ensures After(inputs[..k]).pass.Some? && After(inputs[..k]).pass.value.begun < k
    ensures var pass := After(inputs[..k]).pass.value;
            var origin := After(inputs[..pass.begun]).latchedBy;
            (After(inputs[..JudgedAt(inputs, k)]).recorded == PostedAt(inputs, k).value.number <==>
             pass.copy.terminal.None? || (origin.Some? && NoneRecorded(inputs, origin.value.begun, origin.value.at)))
  {
    PostNeeds(inputs, k);
    ReportIsJudged(inputs, k);
    var pass := After(inputs[..k]).pass.value;
    if pass.copy.terminal.Some? {
      var origin := After(inputs[..pass.begun]).latchedBy.value;
      NumbersCount(inputs, origin.begun, origin.at);
    }
  }

  // ---------------------------------------------------------------------------
  // A latch is reported until it ends
  // ---------------------------------------------------------------------------

  /** A step that records, clears or drops an assignment. */
  predicate Takes(inputs: seq<Input>, k: nat)
    requires k < |inputs|
  {
    inputs[k].Recorded? || inputs[k].Cleared? || SectionAt(inputs, k) == Some(Drops)
  }

  lemma LatchKept(p: Printer, input: Input)
    requires LatchOf(p).Some? && !input.Recorded? && !input.Cleared?
    requires RunsNext(p, input) ==> !p.pass.value.left[0].Drops?
    ensures LatchOf(Next(p, input).0) == LatchOf(p) && Next(p, input).0.recorded == p.recorded
  {
  }

  lemma {:induction false} LatchHolds(inputs: seq<Input>, i: nat, j: nat)
    requires i <= j <= |inputs| && LatchOf(After(inputs[..i])).Some? && forall k :: i <= k < j ==> !Takes(inputs, k)
    ensures LatchOf(After(inputs[..j])) == LatchOf(After(inputs[..i]))
    ensures After(inputs[..j]).recorded == After(inputs[..i]).recorded
    decreases j
  {
    if i < j {
      LatchHolds(inputs, i, j - 1);
      AfterStep(inputs, j - 1);
      assert !Takes(inputs, j - 1);
      LatchKept(After(inputs[..j - 1]), inputs[j - 1]);
    }
  }

  /**
   * Once latched, every detection begun before the assignment is taken posts that outcome for it,
   * and nothing else, and drops next exactly when that post is acked.
   */
  lemma RetriesReportSame(inputs: seq<Input>, i: nat, b: nat)
    requires i <= b < |inputs| && LatchOf(After(inputs[..i])).Some? && LatchOf(After(inputs[..i])).value.batch != ""
    requires forall k :: i <= k < b ==> !Takes(inputs, k)
    requires inputs[b].Detects? && Begins(After(inputs[..b]), inputs[b])
    ensures var latch, begun := LatchOf(After(inputs[..i])).value, After(inputs[..b + 1]).pass;
            begun.Some? && begun.value.number == After(inputs[..i]).recorded && begun.value.copy.batch == latch.batch &&
            begun.value.left == [Posts(latch.outcome)] + if inputs[b].acked then [Drops] else []
  {
    LatchHolds(inputs, i, b);
    AfterStep(inputs, b);
  }

  lemma ReportOfLatch(inputs: seq<Input>, i: nat, k: nat)
    requires k < |inputs| && PostedAt(inputs, k).Some? && After(inputs[..k]).pass.Some?
    requires var b := After(inputs[..k]).pass.value.begun;
             i <= b < k && LatchOf(After(inputs[..i])).Some? && forall m :: i <= m < b ==> !Takes(inputs, m)
    ensures var latch := LatchOf(After(inputs[..i])).value;
            PostedAt(inputs, k) == Some(Posted(After(inputs[..i]).recorded, latch.batch, latch.outcome))
  {
    PostNeeds(inputs, k);
    var pass := After(inputs[..k]).pass.value;
    LatchHolds(inputs, i, pass.begun);
    var first := After(inputs[..pass.begun]);
    if inputs[pass.begun].Detects? {
      var input := inputs[pass.begun];
      DetectsIff(first.assignment.value, input.look, input.acked, PostedAt(inputs, k).value.outcome);
    }
  }

  /** What a pass that still has the assignment it copied knows of it. */
  predicate OwnOk(p: Printer) {
    p.pass.Some? && p.assignment.Some? && p.pass.value.number == p.recorded ==>
      var pass := p.pass.value;
      p.assignment.value.batch == pass.copy.batch &&
      (pass.copy.terminal.Some? ==> p.assignment.value.terminal == pass.copy.terminal) &&
      (pass.copy.terminal.None? && p.latchedBy.Some? ==> p.latchedBy.value.begun == pass.begun)
  }

  lemma OwnStep(p: Printer, input: Input)
    requires HistoryOk(p) && OwnOk(p)
    ensures OwnOk(Next(p, input).0)
  {
  }

  lemma {:induction false} OwnKept(inputs: seq<Input>)
    ensures OwnOk(After(inputs))
  {
    if inputs != [] {
      OwnKept(inputs[..|inputs| - 1]);
      HistoryKept(inputs[..|inputs| - 1]);
      OwnStep(After(inputs[..|inputs| - 1]), inputs[|inputs| - 1]);
    }
  }

  /** The drop of step `k` answers an ack of this very assignment's latched outcome. */
  ghost predicate OwnAck(inputs: seq<Input>, k: nat, outcome: Outcome)
    requires k < |inputs|
  {
    After(inputs[..k]).pass.Some? &&
    var pass := After(inputs[..k]).pass.value;
    pass.begun < k && pass.number == After(inputs[..k]).recorded &&
    inputs[pass.begun].Detects? && inputs[pass.begun].acked &&
    Begins(After(inputs[..pass.begun]), inputs[pass.begun]) &&
    Posts(outcome) in SectionsOf(After(inputs[..pass.begun]), inputs[pass.begun])
  }

  lemma LatchEndIsTaken(p: Printer, input: Input)
    requires LatchOf(p).Some? && LatchOf(Next(p, input).0) != LatchOf(p)
    ensures input.Recorded? || input.Cleared? || (RunsNext(p, input) && p.pass.value.left[0] == Drops)
  {
  }

  lemma OwnDropIsAcked(inputs: seq<Input>, k: nat, latch: Latch)
    requires k < |inputs| && LatchOf(After(inputs[..k])) == Some(latch) && latch.batch != ""
    requires SectionAt(inputs, k) == Some(Drops)
    requires After(inputs[..k]).pass.value.number == After(inputs[..k]).recorded
    ensures OwnAck(inputs, k, latch.outcome)
  {
    var p := After(inputs[..k]);
    var pass := p.pass.value;
    PassTracked(inputs, k);
    OwnKept(inputs[..k]);
    HistoryKept(inputs[..k]);
    var first, input := After(inputs[..pass.begun]), inputs[pass.begun];
    EndsShorter(pass.left, SectionsOf(first, input));
    if pass.copy.terminal.None? {
      var origin := p.latchedBy.value;
      LatchTracked(inputs, k, latch, origin, p.recorded);
      PassTracked(inputs, origin.at);
      EndsShorter(After(inputs[..origin.at]).pass.value.left, SectionsOf(first, input));
    }
    DropNeedsAck(pass.copy, input.look, input.acked, latch.outcome);
  }

  /** A latch ends only when its assignment is recorded over, cleared or dropped by a pass. */
  lemma LatchEndsWhenTaken(inputs: seq<Input>, k: nat, latch: Latch)
    requires k < |inputs| && LatchOf(After(inputs[..k])) == Some(latch)
    requires LatchOf(After(inputs[..k + 1])) != Some(latch)
    ensures Takes(inputs, k)
  {
    AfterStep(inputs, k);
    LatchEndIsTaken(After(inputs[..k]), inputs[k]);
  }

  /**
   * A pass's drop of a latched assignment answers the ack of this very latch if and only if no
   * assignment was recorded since its pass copied one.
   */
  lemma DropAnswersIff(inputs: seq<Input>, k: nat, latch: Latch)
    requires DropsLatched(inputs, k, latch)
    ensures OwnAck(inputs, k, latch.outcome) <==> NoneRecorded(inputs, BegunAt(inputs, k), k)
  {
    SectionLandsOnItsOwn(inputs, k);
    if After(inputs[..k]).pass.value.number == After(inputs[..k]).recorded {
      OwnDropIsAcked(inputs, k, latch);
    }
  }

  /** Step `k` runs a pass's drop, and finds this latch. */
  ghost predicate DropsLatched(inputs: seq<Input>, k: nat, latch: Latch) {
    k < |inputs| && SectionAt(inputs, k) == Some(Drops) &&
    LatchOf(After(inputs[..k])) == Some(latch) && latch.batch != ""
  }

  /** When the pass under way copied its assignment. */
  function BegunAt(inputs: seq<Input>, k: nat): nat
    requires k <= |inputs|
  {
    var pass := After(inputs[..k]).pass; if pass.Some? then pass.value.begun else k
  }

  // ---------------------------------------------------------------------------
  // Which id a report is about
  // ---------------------------------------------------------------------------

  function SubmissionOf(p: Printer): Option<string> {
    if p.assignment.Some? then p.assignment.value.submission else None
  }

  /** The submission id after a step: the one the watchdog wrote, else the one before. */
  function IdAfter(input: Input, before: Option<string>): Option<string> {
    if input.SendUpdated? then input.submission else before
  }

  lemma SubmissionStays(p: Printer, input: Input)
    requires p.assignment.Some? && !input.Recorded? && Next(p, input).0.assignment.Some?
    ensures SubmissionOf(Next(p, input).0) == IdAfter(input, SubmissionOf(p))
  {
  }

  lemma NothingStays(p: Printer, input: Input)
    requires p.assignment.None? && !input.Recorded?
    ensures Next(p, input).0.assignment.None?
  {
  }

  function Ids(inputs: seq<Input>, n: nat): (ids: seq<Option<string>>)
    requires n <= |inputs|
    ensures |ids| == n + 1 && forall k :: 0 <= k <= n ==> ids[k] == SubmissionOf(After(inputs[..k]))
  {
    (if n == 0 then [] else Ids(inputs, n - 1)) + [SubmissionOf(After(inputs[..n]))]
  }

  /** Step `k` is the last write of a submission id from `i` to before `j`. */
  ghost predicate LastWrite(inputs: seq<Input>, i: nat, j: nat, k: nat) {
    i <= k < j <= |inputs| && inputs[k].SendUpdated? && forall m :: k < m < j ==> !inputs[m].SendUpdated?
  }

  ghost predicate Unwritten(inputs: seq<Input>, i: nat, j: nat) {
    j <= |inputs| && forall k :: i <= k < j ==> !inputs[k].SendUpdated?
  }

  lemma {:induction false} LastWriteExists(inputs: seq<Input>, i: nat, j: nat) returns (k: nat)
    requires i <= j <= |inputs| && !Unwritten(inputs, i, j)
    ensures LastWrite(inputs, i, j, k)
  {
    if inputs[j - 1].SendUpdated? {
      k := j - 1;
    } else {
      k := LastWriteExists(inputs, i, j - 1);
    }
  }

  /** The id after step `k` is the one that step wrote, else the one before. */
  predicate Follows(inputs: seq<Input>, ids: seq<Option<string>>, k: nat) {
    k < |inputs| && k + 1 < |ids| && ids[k + 1] == IdAfter(inputs[k], ids[k])
  }

  lemma {:induction false} UnwrittenKeeps(inputs: seq<Input>, ids: seq<Option<string>>, i: nat, j: nat)
    requires i <= j <= |inputs| && |ids| > j && Unwritten(inputs, i, j)
    requires forall k: nat :: i <= k < j ==> Follows(inputs, ids, k)
    ensures ids[j] == ids[i]
  {
    if i < j {
      UnwrittenKeeps(inputs, ids, i, j - 1);
      assert Follows(inputs, ids, j - 1);
    }
  }

  lemma LastWriteIsUnique(inputs: seq<Input>, i: nat, j: nat, k: nat, m: nat)
    requires LastWrite(inputs, i, j, k) && LastWrite(inputs, i, j, m)
    ensures k == m
  {
  }

  lemma LastIdExactly(inputs: seq<Input>, ids: seq<Option<string>>, i: nat, j: nat)
    requires i <= j <= |inputs| && |ids| > j
    requires forall k: nat :: i <= k < j ==> Follows(inputs, ids, k)
    ensures ids[j] == ids[i] <==>
            Unwritten(inputs, i, j) || exists k: nat :: LastWrite(inputs, i, j, k) && inputs[k].submission == ids[i]
  {
    if Unwritten(inputs, i, j) {
      UnwrittenKeeps(inputs, ids, i, j);
    } else {
      var last := LastWriteExists(inputs, i, j);
      UnwrittenKeeps(inputs, ids, last + 1, j);
      assert Follows(inputs, ids, last);
      forall k: nat | LastWrite(inputs, i, j, k)
        ensures k == last
      {
        LastWriteIsUnique(inputs, i, j, k, last);
      }
    }
  }

  /** An assignment there at both ends, with none recorded between, was there throughout. */
  lemma {:induction false} ThereThroughout(inputs: seq<Input>, k: nat, j: nat)
    requires k <= j <= |inputs| && NoneRecorded(inputs, k, j) && After(inputs[..j]).assignment.Some?
    ensures After(inputs[..k]).assignment.Some?
    decreases j - k
  {
    if k < j {
      ThereThroughout(inputs, k + 1, j);
      AfterStep(inputs, k);
      if After(inputs[..k]).assignment.None? {
        NothingStays(After(inputs[..k]), inputs[k]);
      }
    }
  }

  lemma IdFollows(inputs: seq<Input>, ids: seq<Option<string>>, k: nat, j: nat)
    requires k < j <= |inputs| && NoneRecorded(inputs, k, j) && After(inputs[..j]).assignment.Some?
    requires ids == Ids(inputs, j)
    ensures Follows(inputs, ids, k)
  {
    ThereThroughout(inputs, k, j);
    ThereThroughout(inputs, k + 1, j);
    AfterStep(inputs, k);
    SubmissionStays(After(inputs[..k]), inputs[k]);
  }

  /**
   * While an assignment stays, its submission id is the one it had if and only if the send watchdog
   * wrote none since or its last write was that same id.
   */
  lemma IdKeptExactly(inputs: seq<Input>, i: nat, j: nat)
    requires i <= j <= |inputs| && NoneRecorded(inputs, i, j) && After(inputs[..j]).assignment.Some?
    ensures var id := SubmissionOf(After(inputs[..i]));
            SubmissionOf(After(inputs[..j])) == id <==>
            Unwritten(inputs, i, j) || exists k: nat :: LastWrite(inputs, i, j, k) && inputs[k].submission == id
  {
    var ids := Ids(inputs, j);
    forall k: nat | i <= k < j
      ensures Follows(inputs, ids, k)
    {
      IdFollows(inputs, ids, k, j);
    }
    LastIdExactly(inputs, ids, i, j);
  }

  /**
   * An earned report (see `ReportIsEarnedIff`) is about the submission id its outcome was found true
   * of, if and only if the watchdog wrote none between that copy and the reporting pass's, or its
   * last write was that same id.
   */
  lemma ReportKeepsIdIff(inputs: seq<Input>, k: nat)
    requires k < |inputs| && PostedAt(inputs, k).Some? && After(inputs[..k]).pass.Some?
    requires After(inputs[..JudgedAt(inputs, k)]).recorded == PostedAt(inputs, k).value.number
    ensures var i, j := JudgedAt(inputs, k), After(inputs[..k]).pass.value.begun;
            var id := SubmissionOf(After(inputs[..i]));
            i <= j < |inputs| &&
            (After(inputs[..k]).pass.value.copy.submission == id <==>
             Unwritten(inputs, i, j) || exists w: nat :: LastWrite(inputs, i, j, w) && inputs[w].submission == id)
  {
    PostNeeds(inputs, k);
    ReportIsJudged(inputs, k);
    var i, j := JudgedAt(inputs, k), After(inputs[..k]).pass.value.begun;
    NumbersCount(inputs, i, j);
    IdKeptExactly(inputs, i, j);
  }

  // ---------------------------------------------------------------------------
  // Three runs
  // ---------------------------------------------------------------------------

  const OLD := Assignment("old", None, None, 0.0, false, Some("1"), false, false)
  const NEW := Assignment("new", None, None, 0.0, false, Some("2"), false, false)
  const RECORDS_OLD := Recorded("old", None, 0.0, Some("1"))
  const RECORDS_NEW := Recorded("new", None, 0.0, Some("2"))
  const FINISH := Lifecycle.Event(Lifecycle.Finished, Some("1"), Lifecycle.Link, true, None, None)
  const SEEN := Snap(true, None, false, None, None, OtherStatus, false, [FINISH])
  const SEES_FINISH := Look(Some(SEEN), false, 0.0, 0.0, false)
  const SEES_NOTHING := Look(None, false, 0.0, 0.0, false)

  lemma FinishSections()
    ensures DetectSections(OLD, SEES_FINISH, false) == [Latches(Complete), Posts(Complete)]
  {
    assert [FINISH][..0] == [];
    assert Judge([], "1") == Verdict(false, false, None);
    assert Judge([FINISH], "1") == Verdict(false, false, Some(Complete));
    assert EventSections([FINISH], "1") == [];
  }

  function At(
      assignment: Option<Assignment>, pass: Option<Pass>, steps: nat, recorded: nat, origin: Option<LatchedBy>): Printer
  {
    Printer(assignment, Memory(None, None), pass, steps, recorded, origin)
  }

  const LATCHED := OLD.(terminal := Some(Complete))

  /** Link's finish of "1" is latched on the assignment of "old", and posted without an ack. */
  const FINISHES: seq<Input> := [RECORDS_OLD, Detects(SEES_FINISH, false), RunsSection, RunsSection]

  lemma FinishesOld(inputs: seq<Input>)
    requires FINISHES <= inputs
    ensures After(inputs[..1]) == At(Some(OLD), None, 1, 1, None)
    ensures After(inputs[..4]) == At(Some(LATCHED), None, 4, 1, Some(LatchedBy(1, 2)))
    ensures PostedAt(inputs, 0).None? && PostedAt(inputs, 1).None? && PostedAt(inputs, 2).None?
    ensures PostedAt(inputs, 3) == Some(Posted(1, "old", Complete))
  {
    FinishSections();
    assert inputs[..0] == [];
    AfterStep(inputs, 0);
    AfterStep(inputs, 1);
    AfterStep(inputs, 2);
    AfterStep(inputs, 3);
    assert forall k :: 0 <= k < 4 ==> inputs[k] == FINISHES[k];
    assert After(inputs[..2]) == At(Some(OLD), Some(Pass(1, OLD, 1, [Latches(Complete), Posts(Complete)])), 2, 1, None);
    assert After(inputs[..3]) ==
           At(Some(LATCHED), Some(Pass(1, OLD, 1, [Posts(Complete)])), 3, 1, Some(LatchedBy(1, 2)));
  }

  /** The finish of "1" is seen for "old", but "new" is recorded before the pass latches it. */
  const MISSES: seq<Input> :=
    [RECORDS_OLD, Detects(SEES_FINISH, false), RECORDS_NEW, RunsSection, RunsSection,
     Detects(SEES_NOTHING, false), RunsSection]

  const NEW_LATCHED := NEW.(terminal := Some(Complete))
  const MISSING := Pass(1, OLD, 1, [Latches(Complete), Posts(Complete)])

  lemma MissesOld()
    ensures After(MISSES[..1]) == At(Some(OLD), None, 1, 1, None)
    ensures After(MISSES[..3]) == At(Some(NEW), Some(MISSING), 3, 2, None)
  {
    FinishSections();
    assert MISSES[..0] == [];
    AfterStep(MISSES, 0);
    AfterStep(MISSES, 1);
    AfterStep(MISSES, 2);
    assert After(MISSES[..2]) == At(Some(OLD), Some(MISSING), 2, 1, None);
  }

  lemma LatchesNew()
    ensures After(MISSES[..5]) == At(Some(NEW_LATCHED), None, 5, 2, Some(LatchedBy(1, 3)))
  {
    MissesOld();
    AfterStep(MISSES, 3);
    AfterStep(MISSES, 4);
    assert After(MISSES[..4]) ==
           At(Some(NEW_LATCHED), Some(MISSING.(left := [Posts(Complete)])), 4, 2, Some(LatchedBy(1, 3)));
  }

  /** Then "new" is reported complete, though nothing was ever seen of it. */
  lemma LatchCanMiss()
    ensures PostedAt(MISSES, 6) == Some(Posted(2, "new", Complete))
    ensures JudgedAt(MISSES, 6) == 1 && After(MISSES[..1]).assignment == Some(OLD)
  {
    MissesOld();
    LatchesNew();
    AfterStep(MISSES, 5);
    assert DetectSections(NEW_LATCHED, SEES_NOTHING, false) == [Posts(Complete)];
    assert After(MISSES[..6]) ==
           At(Some(NEW_LATCHED), Some(Pass(2, NEW_LATCHED, 5, [Posts(Complete)])), 6, 2, Some(LatchedBy(1, 3)));
  }

  /** The retry for "old" is acked, but "new" is recorded before the pass drops the assignment. */
  const DROPS: seq<Input> := FINISHES + [Detects(SEES_NOTHING, true), RunsSection, RECORDS_NEW, RunsSection]

  const RETRY := Pass(1, LATCHED, 4, [Posts(Complete), Drops])

  lemma RetriesOld()
    ensures After(DROPS[..5]) == At(Some(LATCHED), Some(RETRY), 5, 1, Some(LatchedBy(1, 2)))
    ensures After(DROPS[..6]) == At(Some(LATCHED), Some(RETRY.(left := [Drops])), 6, 1, Some(LatchedBy(1, 2)))
    ensures PostedAt(DROPS, 4).None? && PostedAt(DROPS, 5) == Some(Posted(1, "old", Complete))
  {
    FinishesOld(DROPS);
    assert DetectSections(LATCHED, SEES_NOTHING, true) == [Posts(Complete), Drops];
    AfterStep(DROPS, 4);
    AfterStep(DROPS, 5);
  }

  lemma DropsNew()
    ensures After(DROPS[..7]) == At(Some(NEW), Some(RETRY.(left := [Drops])), 7, 2, None)
    ensures After(DROPS).assignment.None? && PostedAt(DROPS, 6).None? && PostedAt(DROPS, 7).None?
  {
    RetriesOld();
    AfterStep(DROPS, 6);
    AfterStep(DROPS, 7);
    assert DROPS[..8] == DROPS;
  }

  /** Then "new" is dropped, though nothing was ever reported of it. */
  lemma AckCanDropAnother()
    ensures After(DROPS[..7]).assignment == Some(NEW) && After(DROPS).assignment.None?
    ensures forall k :: 0 <= k < |DROPS| && PostedAt(DROPS, k).Some? ==> PostedAt(DROPS, k).value.batch == "old"
  {
    FinishesOld(DROPS);
    RetriesOld();
    DropsNew();
    forall k | 0 <= k < |DROPS| && PostedAt(DROPS, k).Some?
      ensures PostedAt(DROPS, k).value.batch == "old"
    {
      assert k == 0 || k == 1 || k == 2 || k == 3 || k == 4 || k == 5 || k == 6 || k == 7;
    }
  }

  /** A watchdog retry writes another id between the latch and the next report. */
  const RENAMES: seq<Input> := FINISHES + [SendUpdated(Some("2")), Detects(SEES_NOTHING, true), RunsSection]

  /** Then the finish of "1" is reported while the assignment names "2". */
  lemma LatchedIdCanChange()
    ensures PostedAt(RENAMES, 6) == Some(Posted(1, "old", Complete))
    ensures JudgedAt(RENAMES, 6) == 1 && SubmissionOf(After(RENAMES[..1])) == Some("1")
    ensures SubmissionOf(After(RENAMES[..6])) == Some("2")
  {
    FinishesOld(RENAMES);
    var renamed := LATCHED.(submission := Some("2"));
    assert DetectSections(renamed, SEES_NOTHING, true) == [Posts(Complete), Drops];
    AfterStep(RENAMES, 4);
    AfterStep(RENAMES, 5);
    assert After(RENAMES[..5]) == At(Some(renamed), None, 5, 1, Some(LatchedBy(1, 2)));
    assert After(RENAMES[..6]) ==
           At(Some(renamed), Some(Pass(1, renamed, 5, [Posts(Complete), Drops])), 6, 1, Some(LatchedBy(1, 2)));
  }
}
