/**
 * Print edges for one printer (`LifecycleTracker` in bridge/bambu/state.py): what a stream of
 * merged reports, reconnects and stop commands queues as lifecycle events.
 */
module Lifecycle {
  import opened Base

  datatype GcodeState = Running | Pause | Prepare | Slicing | Finish | Failed | Idle | Other(name: string)

  /** Ids are non-zero tokens, names are stripped and non-blank; both may be missing. */
  datatype Report = Report(
    state: Option<GcodeState>, subtaskId: Option<string>, taskId: Option<string>,
    gcodeFile: Option<string>, subtaskName: Option<string>, userCancelled: bool)

  datatype Identity = BySubtask(id: string) | ByTask(id: string) | ByFile(name: string) | ByName(name: string)
  datatype Origin = Link | External
  datatype StopReason = Operator | StuckJob
  datatype Kind = Started | Paused | Resumed | Finished | Failure | Cancelled
  datatype By = ByStuckJob | ByLink | ByPrinter | ByUnknown
  datatype Tag = Tag(batch: string, plate: Option<int>)

  datatype Event = Event(
    kind: Kind, submission: Option<string>, origin: Origin, observed: bool, who: Option<By>, tag: Option<Tag>)

  datatype Registered = Registered(token: string, tag: Option<Tag>)

  datatype Tracker = Tracker(
    submissions: seq<Registered>, linkStop: Option<StopReason>, prevState: Option<GcodeState>,
    activeIdentity: Option<Identity>, activeSubmission: Option<string>, seenRunning: bool, origin: Option<Origin>)

  const MAX_REMEMBERED: nat := 50
  const FRESH := Tracker([], None, None, None, None, false, None)

  function PrintIdentity(r: Report): Option<Identity> {
    if r.subtaskId.Some? then Some(BySubtask(r.subtaskId.value))
    else if r.taskId.Some? then Some(ByTask(r.taskId.value))
    else if r.gcodeFile.Some? then Some(ByFile(r.gcodeFile.value))
    else if r.subtaskName.Some? then Some(ByName(r.subtaskName.value))
    else None
  }

  predicate HasFile(r: Report) { r.gcodeFile.Some? || r.subtaskName.Some? }

  predicate Knows(submissions: seq<Registered>, token: Option<string>) {
    token.Some? && exists e <- submissions :: e.token == token.value
  }

  /** `_classify`: the registered submission this frame names, subtask id first. */
  function Classify(submissions: seq<Registered>, r: Report): Option<string> {
    if Knows(submissions, r.subtaskId) then r.subtaskId
    else if Knows(submissions, r.taskId) then r.taskId
    else None
  }

  function TagOf(submissions: seq<Registered>, token: string): Option<Tag> {
    if submissions == [] then None
    else if submissions[0].token == token then submissions[0].tag
    else TagOf(submissions[1..], token)
  }

  /** This frame opens a print cycle. */
  predicate IsNewPrint(t: Tracker, r: Report) {
    r.state == Some(Running) && HasFile(r) &&
    (if t.activeIdentity.None? then t.prevState.Some? && t.prevState != Some(Running)
     else PrintIdentity(r) != t.activeIdentity)
  }

  function MakeEvent(
      t: Tracker, kind: Kind, submission: Option<string>, origin: Origin, observed: bool, who: Option<By>): Event
  {
    var tag := if submission.Some? then TagOf(t.submissions, submission.value) else None;
    Event(kind, submission, origin, observed, who, tag)
  }

  // ---------------------------------------------------------------------------
  // observe, as a function
  // ---------------------------------------------------------------------------

  /** The submission the frame counts for, once the open print's match is taken into account. */
  function Attribution(t: Tracker, r: Report): Option<string> {
    var named := Classify(t.submissions, r);
    if named.None? && !IsNewPrint(t, r) then t.activeSubmission else named
  }

  function NextSubmission(t: Tracker, r: Report): Option<string> {
    var named := Classify(t.submissions, r);
    if IsNewPrint(t, r) then named
    else if named.Some? && r.state in {Some(Running), Some(Pause)} then named
    else t.activeSubmission
  }

  function OriginOf(submission: Option<string>): Origin { if submission.Some? then Link else External }

  function EdgeOf(t: Tracker, r: Report): Option<Kind> {
    if IsNewPrint(t, r) then Some(Started)
    else if r.state == Some(Pause) && t.prevState == Some(Running) && t.activeIdentity.Some? then Some(Paused)
    else if r.state == Some(Running) && t.prevState == Some(Pause) && t.activeIdentity.Some? then Some(Resumed)
    else None
  }

  function TerminalOf(t: Tracker, r: Report, stop: Option<StopReason>): Option<Kind> {
    if r.state == Some(Finish) && (t.prevState == Some(Running) || t.seenRunning) then Some(Finished)
    else if r.state == Some(Failed) &&
      (t.prevState in {Some(Prepare), Some(Slicing), Some(Running)} || t.seenRunning) then
      Some(if r.userCancelled || stop.Some? then Cancelled else Failure)
    else if r.state == Some(Idle) && t.prevState in {Some(Running), Some(Pause)} then Some(Cancelled)
    else if r.state == Some(Finish) && t.prevState == Some(Pause) then Some(Finished)
    else None
  }

  function CancelledBy(r: Report, stop: Option<StopReason>): By {
    if stop == Some(StuckJob) then ByStuckJob
    else if stop.Some? then ByLink
    else if r.userCancelled then ByPrinter
    else ByUnknown
  }

  /** `observe`: one merged report. */
  function Observe(t: Tracker, r: Report): (Tracker, seq<Event>) {
    if r.state.None? then (t, [])
    else
      var submission := Attribution(t, r);
      var origin := OriginOf(submission);
      var edge := EdgeOf(t, r);
      var stop := if IsNewPrint(t, r) then None else t.linkStop;
      var opening := if edge.Some? then [MakeEvent(t, edge.value, submission, origin, true, None)] else [];
      var terminal := TerminalOf(t, r, stop);
      var closing := if terminal.None? then []
                     else [MakeEvent(t, terminal.value, submission, origin, true,
                                     if terminal.value == Cancelled then Some(CancelledBy(r, stop)) else None)];
      var closed := terminal.Some? || r.state in {Some(Idle), Some(Finish), Some(Failed)};
      (Tracker(
         t.submissions,
         if terminal.Some? then None else stop,
         r.state,
         if closed then None
         else if r.state == Some(Running) && HasFile(r) then PrintIdentity(r) else t.activeIdentity,
         if closed then None else NextSubmission(t, r),
         if terminal.Some? then false else t.seenRunning || r.state == Some(Running),
         if r.state == Some(Idle) then None else Some(origin)),
       opening + closing)
  }

  function NewSession(t: Tracker): Tracker { t.(prevState := None, seenRunning := false, origin := None) }

  function Forget(submissions: seq<Registered>, token: string): seq<Registered> {
    if submissions == [] then []
    else (if submissions[0].token == token then [] else [submissions[0]]) + Forget(submissions[1..], token)
  }

  function Newest(submissions: seq<Registered>): seq<Registered> {
    if |submissions| <= MAX_REMEMBERED then submissions else submissions[|submissions| - MAX_REMEMBERED..]
  }

  function Register(t: Tracker, token: string, tag: Option<Tag>): Tracker {
    var kept := if tag.Some? then tag else TagOf(t.submissions, token);
    t.(submissions := Newest(Forget(t.submissions, token) + [Registered(token, kept)]))
  }

  function Recovered(t: Tracker, kind: Kind, token: string): seq<Event> {
    [MakeEvent(t, kind, Some(token), Link, false, None)]
  }

  // ---------------------------------------------------------------------------
  // The same, as the program runs it
  // ---------------------------------------------------------------------------

  class LifecycleTracker {
    var submissions: seq<Registered>
    var linkStop: Option<StopReason>
    var prevState: Option<GcodeState>
    var activeIdentity: Option<Identity>
    var activeSubmission: Option<string>
    var seenRunning: bool
    var printOrigin: Option<Origin>
    /** Every event handed to the outbox so far. */
    var queued: seq<Event>

    constructor ()
      ensures View() == FRESH && queued == []
    {
      submissions, linkStop, prevState := [], None, None;
      activeIdentity, activeSubmission, seenRunning, printOrigin := None, None, false, None;
      queued := [];
    }

    function View(): Tracker
      reads this
    {
      Tracker(submissions, linkStop, prevState, activeIdentity, activeSubmission, seenRunning, printOrigin)
    }

    method StartSession()
      modifies this
      ensures View() == NewSession(old(View())) && queued == old(queued)
    {
      prevState, seenRunning, printOrigin := None, false, None;
    }

    method NoteLinkStop(reason: StopReason)
      modifies this
      ensures View() == old(View()).(linkStop := Some(reason)) && queued == old(queued)
    {
      linkStop := Some(reason);
    }

    static method Pop(all: seq<Registered>, token: string) returns (kept: seq<Registered>, tag: Option<Tag>)
      ensures kept == Forget(all, token) && tag == TagOf(all, token)
    {
      kept, tag := [], None;
      var found := false;
      for i := 0 to |all|
        invariant kept + Forget(all[i..], token) == Forget(all, token)
        invariant TagOf(all, token) == if found then tag else TagOf(all[i..], token)
        invariant !found ==> tag.None?
      {
        assert all[i..][1..] == all[i + 1..];
        if all[i].token != token {
          kept := kept + [all[i]];
        } else if !found {
          found, tag := true, all[i].tag;
        }
      }
    }

    method RegisterSubmission(token: string, tag: Option<Tag>)
      modifies this
      ensures View() == Register(old(View()), token, tag) && queued == old(queued)
    {
      var kept, previous := Pop(submissions, token);
      var all := kept + [Registered(token, if tag.Some? then tag else previous)];
      var newest := all;
      while |newest| > MAX_REMEMBERED
        invariant |newest| <= |all| && newest == all[|all| - |newest|..]
        invariant |newest| >= MAX_REMEMBERED || newest == all
      {
        newest := newest[1..];
      }
      submissions := newest;
    }

    method Enqueue(kind: Kind, origin: Origin, submission: Option<string>, observed: bool, who: Option<By>)
      modifies this`queued
      ensures queued == old(queued) + [MakeEvent(View(), kind, submission, origin, observed, who)]
    {
      var tag: Option<Tag> := if submission.Some? then TagOf(submissions, submission.value) else None;
      queued := queued + [Event(kind, submission, origin, observed, who, tag)];
    }

    method EmitRecovered(kind: Kind, token: string)
      modifies this`queued
      ensures queued == old(queued) + Recovered(View(), kind, token)
    {
      Enqueue(kind, Link, Some(token), false, None);
    }

    /** Whose print this frame is about, remembering a Link match for the open print. */
    method Attribute(r: Report, newPrint: bool) returns (submission: Option<string>)
      requires r.state.Some? && newPrint == IsNewPrint(View(), r)
      modifies this`activeSubmission, this`printOrigin
      ensures submission == Attribution(old(View()), r) && activeSubmission == NextSubmission(old(View()), r)
      ensures printOrigin == if r.state == Some(Idle) then None else Some(OriginOf(submission))
    {
      submission := Classify(submissions, r);
      if newPrint {
        activeSubmission := submission;
      } else if submission.Some? && (r.state == Some(Running) || r.state == Some(Pause)) {
        activeSubmission := submission;
      } else if submission.None? && activeSubmission.Some? {
        submission := activeSubmission;
      }
      printOrigin := if r.state == Some(Idle) then None else Some(OriginOf(submission));
    }

    method TerminalKind(r: Report) returns (terminal: Option<Kind>)
      requires r.state.Some?
      ensures terminal == TerminalOf(View(), r, linkStop)
    {
      var state, prev := r.state.value, prevState;
      terminal := None;
      if state == Finish && (prev == Some(Running) || seenRunning) {
        terminal := Some(Finished);
      } else if state == Failed &&
        (prev == Some(Prepare) || prev == Some(Slicing) || prev == Some(Running) || seenRunning) {
        var cancelled := r.userCancelled || linkStop.Some?;
        terminal := Some(if cancelled then Cancelled else Failure);
      } else if state == Idle && (prev == Some(Running) || prev == Some(Pause)) {
        terminal := Some(Cancelled);
      } else if state == Finish && prev == Some(Pause) {
        terminal := Some(Finished);
      }
    }

    method Stopper(r: Report, terminal: Kind) returns (who: Option<By>)
      ensures who == if terminal == Cancelled then Some(CancelledBy(r, linkStop)) else None
    {
      who := None;
      if terminal == Cancelled {
        if linkStop == Some(StuckJob) {
          who := Some(ByStuckJob);
        } else if linkStop.Some? {
          who := Some(ByLink);
        } else {
          who := Some(if r.userCancelled then ByPrinter else ByUnknown);
        }
      }
    }

    /** The start, pause or resume this frame queues. */
    method OpeningEdge(r: Report, newPrint: bool, submission: Option<string>)
      requires r.state.Some? && newPrint == IsNewPrint(View(), r)
      modifies this`queued, this`linkStop
      ensures linkStop == if newPrint then None else old(linkStop)
      ensures var edge := EdgeOf(old(View()), r);
              queued == old(queued) +
                if edge.Some? then [MakeEvent(old(View()), edge.value, submission, OriginOf(submission), true, None)]
                else []
    {
      if newPrint {
        linkStop := None;
        Enqueue(Started, OriginOf(submission), submission, true, None);
      } else if r.state == Some(Pause) && prevState == Some(Running) && activeIdentity.Some? {
        Enqueue(Paused, OriginOf(submission), submission, true, None);
      } else if r.state == Some(Running) && prevState == Some(Pause) && activeIdentity.Some? {
        Enqueue(Resumed, OriginOf(submission), submission, true, None);
      }
    }

    /** The terminal this frame queues, and what it leaves of the open print. */
    method CloseCycle(r: Report, submission: Option<string>)
      requires r.state.Some?
      modifies this`queued, this`linkStop, this`activeIdentity, this`activeSubmission, this`seenRunning, this`prevState
      ensures prevState == r.state
      ensures var terminal := TerminalOf(old(View()), r, old(linkStop));
              var closed := terminal.Some? || r.state in {Some(Idle), Some(Finish), Some(Failed)};
              linkStop == (if terminal.Some? then None else old(linkStop)) &&
              activeIdentity == (if closed then None else old(activeIdentity)) &&
              activeSubmission == (if closed then None else old(activeSubmission)) &&
              seenRunning == (if terminal.Some? then false else old(seenRunning) || r.state == Some(Running)) &&
              queued == old(queued) +
                if terminal.None? then []
                else [MakeEvent(old(View()), terminal.value, submission, OriginOf(submission), true,
                                if terminal.value == Cancelled then Some(CancelledBy(r, old(linkStop))) else None)]
    {
      var state := r.state.value;
      var terminal := TerminalKind(r);
      if terminal.Some? {
        var who := Stopper(r, terminal.value);
        Enqueue(terminal.value, OriginOf(submission), submission, true, who);
        linkStop, activeIdentity, activeSubmission, seenRunning := None, None, None, false;
      } else if state == Running {
        seenRunning := true;
      } else if state == Idle || state == Finish || state == Failed {
        activeIdentity, activeSubmission := None, None;
      }
      prevState := Some(state);
    }

    method ObserveReport(r: Report)
      modifies this
      ensures View() == Observe(old(View()), r).0 && queued == old(queued) + Observe(old(View()), r).1
    {
      if r.state.None? {
        return;
      }
      ghost var before, earlier := View(), queued;
      var newPrint := IsNewPrint(View(), r);
      var submission := Attribute(r, newPrint);
      OpeningEdge(r, newPrint, submission);
      if r.state == Some(Running) && HasFile(r) {
        activeIdentity := PrintIdentity(r);
      }
      CloseCycle(r, submission);
      assert queued == earlier + Observe(before, r).1;
    }
  }

  // ---------------------------------------------------------------------------
  // Runs: any reports, reconnects, registrations and stops
  // ---------------------------------------------------------------------------

  datatype Input =
    | Reported(report: Report)
    | Reconnected
    | Registers(token: string, tag: Option<Tag>)
    | LinkStops(reason: StopReason)
    | Recovers(kind: Kind, token: string)

  function Next(t: Tracker, input: Input): (Tracker, seq<Event>) {
    match input
    case Reported(r) => Observe(t, r)
    case Reconnected => (NewSession(t), [])
    case Registers(token, tag) => (Register(t, token, tag), [])
    case LinkStops(reason) => (t.(linkStop := Some(reason)), [])
    case Recovers(kind, token) => (t, Recovered(t, kind, token))
  }

  function After(inputs: seq<Input>): Tracker {
    if inputs == [] then FRESH else Next(After(inputs[..|inputs| - 1]), inputs[|inputs| - 1]).0
  }

  /** What step `i` of the run queued. */
  function Queued(inputs: seq<Input>, i: nat): seq<Event>
    requires i < |inputs|
  {
    Next(After(inputs[..i]), inputs[i]).1
  }

  lemma AfterStep(inputs: seq<Input>, i: nat)
    requires i < |inputs|
    ensures After(inputs[..i + 1]) == Next(After(inputs[..i]), inputs[i]).0
  {
    assert inputs[..i + 1][..i] == inputs[..i];
  }

  predicate Terminal(kind: Kind) { kind == Finished || kind == Failure || kind == Cancelled }

  /** An event that closes a print this session saw. */
  ghost predicate ClosesAt(inputs: seq<Input>, i: nat) {
    i < |inputs| && exists e <- Queued(inputs, i) :: e.observed && Terminal(e.kind)
  }

  /** A report of a print under way. */
  predicate Active(input: Input) {
    input.Reported? && input.report.state in {Some(Running), Some(Pause), Some(Prepare), Some(Slicing)}
  }

  ghost predicate ActiveInSession(inputs: seq<Input>, k: nat, j: nat) {
    k < j <= |inputs| && Active(inputs[k]) && forall m :: k < m < j ==> !inputs[m].Reconnected?
  }

  /** The tracker could still close a print. */
  predicate Armed(t: Tracker) {
    t.seenRunning || t.prevState in {Some(Running), Some(Pause), Some(Prepare), Some(Slicing)}
  }

  lemma CloseNeedsArmed(t: Tracker, input: Input)
    requires exists e <- Next(t, input).1 :: e.observed && Terminal(e.kind)
    ensures input.Reported? && Armed(t) && !Armed(Next(t, input).0)
  {
  }

  lemma ArmedNeedsActive(t: Tracker, input: Input)
    requires Armed(Next(t, input).0)
    ensures Active(input) || (Armed(t) && !input.Reconnected?)
  {
  }

  lemma CloseDisarms(inputs: seq<Input>, i: nat)
    requires ClosesAt(inputs, i)
    ensures !Armed(After(inputs[..i + 1])) && Armed(After(inputs[..i]))
  {
    AfterStep(inputs, i);
    CloseNeedsArmed(After(inputs[..i]), inputs[i]);
  }

  lemma ArmedBefore(inputs: seq<Input>, n: nat)
    requires n < |inputs| && Armed(After(inputs[..n + 1]))
    ensures Active(inputs[n]) || (Armed(After(inputs[..n])) && !inputs[n].Reconnected?)
  {
    AfterStep(inputs, n);
    ArmedNeedsActive(After(inputs[..n]), inputs[n]);
  }

  lemma {:induction false} ArmedSinceClose(inputs: seq<Input>, i: nat, n: nat)
    requires i < n <= |inputs| && !Armed(After(inputs[..i + 1])) && Armed(After(inputs[..n]))
    ensures exists k: nat :: i < k && ActiveInSession(inputs, k, n)
    decreases n
  {
    if i < n - 1 {
      ArmedBefore(inputs, n - 1);
      if Active(inputs[n - 1]) {
        assert ActiveInSession(inputs, n - 1, n);
      } else {
        ArmedSinceClose(inputs, i, n - 1);
        var k: nat :| i < k && ActiveInSession(inputs, k, n - 1);
        assert ActiveInSession(inputs, k, n);
      }
    }
  }

  /** A closed print cannot close again: between two terminals the second one's session reported a print under way. */
  lemma ClosesOnce(inputs: seq<Input>, i: nat, j: nat)
    requires i < j && ClosesAt(inputs, i) && ClosesAt(inputs, j)
    ensures exists k: nat :: i < k && ActiveInSession(inputs, k, j)
  {
    CloseDisarms(inputs, i);
    CloseDisarms(inputs, j);
    ArmedSinceClose(inputs, i, j);
  }

  /** No report with a state since the last reconnect. */
  ghost predicate SessionUnseen(inputs: seq<Input>) {
    (forall i :: 0 <= i < |inputs| ==> !(inputs[i].Reported? && inputs[i].report.state.Some?)) ||
    exists c :: 0 <= c < |inputs| && inputs[c].Reconnected? &&
      forall i :: c < i < |inputs| ==> !(inputs[i].Reported? && inputs[i].report.state.Some?)
  }

  lemma {:induction false} UnseenMeansBlank(inputs: seq<Input>)
    requires SessionUnseen(inputs)
    ensures After(inputs).prevState.None? && !After(inputs).seenRunning
  {
    if inputs != [] {
      var last := |inputs| - 1;
      if !inputs[last].Reconnected? {
        var init := inputs[..last];
        assert forall i :: 0 <= i < |init| ==> init[i] == inputs[i];
        if c :| 0 <= c < |inputs| && inputs[c].Reconnected? &&
                forall i :: c < i < |inputs| ==> !(inputs[i].Reported? && inputs[i].report.state.Some?) {
          assert init[c].Reconnected?;
        }
        assert SessionUnseen(init);
        UnseenMeansBlank(init);
        assert inputs[last] == inputs[|inputs| - 1];
      }
    }
  }

  /**
   * The first report of a session queues nothing, unless it is RUNNING, with a file, under an
   * identity other than the print still open: then exactly one start.
   */
  lemma {:induction false} FirstReportIsQuiet(inputs: seq<Input>, r: Report)
    requires SessionUnseen(inputs)
    ensures var t := After(inputs);
            var events := Observe(t, r).1;
            if r.state == Some(Running) && HasFile(r) && t.activeIdentity.Some? && PrintIdentity(r) != t.activeIdentity
            then |events| == 1 && events[0].kind == Started
            else events == []
  {
    UnseenMeansBlank(inputs);
  }

  /** Every event ever queued: it is Link's exactly when it names a submission. */
  lemma {:induction false} OriginMatchesSubmission(inputs: seq<Input>, i: nat)
    requires i < |inputs|
    ensures forall e <- Queued(inputs, i) :: e.origin == Link <==> e.submission.Some?
  {
  }

  // ---------------------------------------------------------------------------
  // Submission stickiness
  // ---------------------------------------------------------------------------

  predicate StandsStill(r: Report) { r.state in {Some(Idle), Some(Finish), Some(Failed)} }

  /** A step that neither closes the open print, nor opens another, nor names another submission. */
  predicate Carries(t: Tracker, input: Input, s: string) {
    input.Reported? && input.report.state.Some? ==>
      !StandsStill(input.report) && !IsNewPrint(t, input.report) &&
      Classify(t.submissions, input.report) in {None, Some(s)}
  }

  lemma CarriesKeeps(t: Tracker, input: Input, s: string)
    requires t.activeSubmission == Some(s) && Carries(t, input, s)
    ensures Next(t, input).0.activeSubmission == Some(s)
    ensures !input.Reconnected? && t.seenRunning ==> Next(t, input).0.seenRunning
  {
  }

  lemma MatchIsRemembered(t: Tracker, r: Report, s: string)
    requires r.state == Some(Running) && Classify(t.submissions, r) == Some(s)
    ensures Next(t, Reported(r)).0.activeSubmission == Some(s) && Next(t, Reported(r)).0.seenRunning
  {
  }

  lemma StickyStart(inputs: seq<Input>, i: nat, s: string)
    requires MatchedAt(inputs, i, s)
    ensures After(inputs[..i + 1]).activeSubmission == Some(s) && After(inputs[..i + 1]).seenRunning
  {
    AfterStep(inputs, i);
    MatchIsRemembered(After(inputs[..i]), inputs[i].report, s);
  }

  lemma StickyStep(inputs: seq<Input>, k: nat, s: string)
    requires CarriedAt(inputs, k, s) && After(inputs[..k]).activeSubmission == Some(s)
    ensures After(inputs[..k + 1]).activeSubmission == Some(s)
    ensures !inputs[k].Reconnected? && After(inputs[..k]).seenRunning ==> After(inputs[..k + 1]).seenRunning
  {
    AfterStep(inputs, k);
    CarriesKeeps(After(inputs[..k]), inputs[k], s);
  }

  lemma {:induction false} StickySubmission(inputs: seq<Input>, i: nat, n: nat, s: string)
    requires i < n <= |inputs| && MatchedAt(inputs, i, s)
    requires forall k: nat :: i < k < n ==> CarriedAt(inputs, k, s)
    ensures After(inputs[..n]).activeSubmission == Some(s)
    ensures (forall k :: i < k < n ==> !inputs[k].Reconnected?) ==> After(inputs[..n]).seenRunning
    decreases n
  {
    if i == n - 1 {
      StickyStart(inputs, i, s);
    } else {
      StickySubmission(inputs, i, n - 1, s);
      StickyStep(inputs, n - 1, s);
    }
  }

  /**
   * Once a RUNNING frame of the open print matched a submission, its first IDLE, FINISH or
   * FAILED frame is attributed to that submission even if the frames stopped naming it; and
   * within one session FINISH and FAILED always queue exactly one such event.
   */
  lemma CloseKeepsSubmission(inputs: seq<Input>, i: nat, j: nat, s: string)
    requires i < j < |inputs| && MatchedAt(inputs, i, s)
    requires forall k: nat :: i < k < j ==> CarriedAt(inputs, k, s)
    requires ClosesUnder(inputs, j, s)
    ensures forall e <- Queued(inputs, j) :: e.submission == Some(s) && e.origin == Link && Terminal(e.kind)
    ensures (forall k :: i < k < j ==> !inputs[k].Reconnected?) && inputs[j].report.state != Some(Idle) ==>
              |Queued(inputs, j)| == 1 &&
              (inputs[j].report.state == Some(Finish) <==> Queued(inputs, j)[0].kind == Finished)
  {
    StickySubmission(inputs, i, j, s);
    CloseUnder(After(inputs[..j]), inputs[j].report, s);
  }

  lemma CloseUnder(t: Tracker, r: Report, s: string)
    requires t.activeSubmission == Some(s) && StandsStill(r) && Classify(t.submissions, r) in {None, Some(s)}
    ensures forall e <- Observe(t, r).1 :: e.submission == Some(s) && e.origin == Link && Terminal(e.kind)
    ensures t.seenRunning && r.state != Some(Idle) ==>
              |Observe(t, r).1| == 1 && (r.state == Some(Finish) <==> Observe(t, r).1[0].kind == Finished)
  {
  }

  /** A RUNNING frame that names this registered submission. */
  ghost predicate MatchedAt(inputs: seq<Input>, i: nat, s: string) {
    i < |inputs| && inputs[i].Reported? && inputs[i].report.state == Some(Running) &&
    Classify(After(inputs[..i]).submissions, inputs[i].report) == Some(s)
  }

  ghost predicate CarriedAt(inputs: seq<Input>, k: nat, s: string) {
    k < |inputs| && Carries(After(inputs[..k]), inputs[k], s)
  }

  /** An IDLE, FINISH or FAILED frame that names no other registered submission. */
  ghost predicate ClosesUnder(inputs: seq<Input>, j: nat, s: string) {
    j < |inputs| && inputs[j].Reported? && StandsStill(inputs[j].report) &&
    Classify(After(inputs[..j]).submissions, inputs[j].report) in {None, Some(s)}
  }

  // ---------------------------------------------------------------------------
  // What is remembered of the submissions Link started
  // ---------------------------------------------------------------------------

  ghost predicate DistinctTokens(submissions: seq<Registered>) {
    forall i, j :: 0 <= i < j < |submissions| ==> submissions[i].token != submissions[j].token
  }

  lemma {:induction false} ForgetDrops(submissions: seq<Registered>, token: string)
    requires DistinctTokens(submissions)
    ensures DistinctTokens(Forget(submissions, token))
    ensures forall e :: e in Forget(submissions, token) <==> e in submissions && e.token != token
  {
    if submissions != [] {
      var rest := submissions[1..];
      ForgetDrops(rest, token);
      var kept := Forget(rest, token);
      assert submissions == [submissions[0]] + rest;
      forall i | 0 <= i < |kept|
        ensures kept[i].token != submissions[0].token
      {
        assert kept[i] in kept;
        var k :| 0 <= k < |rest| && rest[k] == kept[i];
        assert submissions[k + 1] == kept[i];
      }
    }
  }

  lemma RegisterKeepsNewest(t: Tracker, token: string, tag: Option<Tag>)
    requires DistinctTokens(t.submissions)
    ensures var after := Register(t, token, tag).submissions;
            DistinctTokens(after) && |after| <= MAX_REMEMBERED && Knows(after, Some(token))
  {
    var kept := Forget(t.submissions, token);
    ForgetDrops(t.submissions, token);
    var added := Registered(token, if tag.Some? then tag else TagOf(t.submissions, token));
    var all := kept + [added];
    assert forall i :: 0 <= i < |kept| ==> kept[i] in kept;
    assert DistinctTokens(all);
    var newest := Newest(all);
    assert newest[|newest| - 1] == added;
    assert newest[|newest| - 1] in newest;
  }

  lemma OthersKeepSubmissions(t: Tracker, input: Input)
    requires !input.Registers?
    ensures Next(t, input).0.submissions == t.submissions
  {
  }

  /** At most fifty distinct submissions are remembered, and the one just registered always is. */
  lemma {:induction false} RegisteredIsKnown(inputs: seq<Input>)
    ensures DistinctTokens(After(inputs).submissions) && |After(inputs).submissions| <= MAX_REMEMBERED
    ensures inputs != [] && inputs[|inputs| - 1].Registers? ==>
              Knows(After(inputs).submissions, Some(inputs[|inputs| - 1].token))
  {
    if inputs != [] {
      var last := inputs[|inputs| - 1];
      var before := After(inputs[..|inputs| - 1]);
      RegisteredIsKnown(inputs[..|inputs| - 1]);
      if last.Registers? {
        RegisterKeepsNewest(before, last.token, last.tag);
      } else {
        OthersKeepSubmissions(before, last);
      }
    }
  }

  // ---------------------------------------------------------------------------
  // Who cancelled, and which print is open
  // ---------------------------------------------------------------------------

  /** Link published this stop at step `i`, and no print started or closed between it and step `n`. */
  ghost predicate StopPending(inputs: seq<Input>, i: nat, n: nat, reason: StopReason) {
    i < n <= |inputs| && inputs[i] == LinkStops(reason) &&
    forall k: nat :: i < k < n ==>
      !inputs[k].LinkStops? && forall e <- Queued(inputs, k) :: e.observed ==> e.kind in {Paused, Resumed}
  }

  lemma StopStep(t: Tracker, input: Input)
    requires Next(t, input).0.linkStop.Some?
    ensures var after := Next(t, input).0.linkStop;
            input == LinkStops(after.value) ||
            (!input.LinkStops? && after == t.linkStop &&
             forall e <- Next(t, input).1 :: e.observed ==> e.kind in {Paused, Resumed})
  {
    if input.Reported? {
      forall e | e in Next(t, input).1
        ensures e.kind in {Paused, Resumed}
      {
        var r := input.report;
        assert !IsNewPrint(t, r) && TerminalOf(t, r, t.linkStop).None?;
        assert e.kind == EdgeOf(t, r).value;
      }
    }
  }

  lemma {:induction false} PendingStopIsReal(inputs: seq<Input>, n: nat)
    requires n <= |inputs| && After(inputs[..n]).linkStop.Some?
    ensures exists i: nat :: StopPending(inputs, i, n, After(inputs[..n]).linkStop.value)
    decreases n
  {
    if n > 0 {
      AfterStep(inputs, n - 1);
      StopStep(After(inputs[..n - 1]), inputs[n - 1]);
      var reason := After(inputs[..n]).linkStop.value;
      if inputs[n - 1] == LinkStops(reason) {
        assert StopPending(inputs, n - 1, n, reason);
      } else {
        PendingStopIsReal(inputs, n - 1);
        var i: nat :| StopPending(inputs, i, n - 1, reason);
        assert StopPending(inputs, i, n, reason);
      }
    }
  }

  lemma CancelNeedsStop(t: Tracker, r: Report, e: Event)
    requires e in Observe(t, r).1 && e.who.Some?
    ensures e.kind == Cancelled
    ensures e.who.value == ByLink ==> t.linkStop == Some(Operator)
    ensures e.who.value == ByStuckJob ==> t.linkStop == Some(StuckJob)
    ensures e.who.value == ByPrinter ==> r.userCancelled && t.linkStop.None?
  {
    assert t.linkStop.Some? ==> t.linkStop.value.Operator? || t.linkStop.value.StuckJob?;
  }

  /** A cancel is put down to Link only when Link published a stop since the print started. */
  lemma LinkCancelsAreLinks(inputs: seq<Input>, j: nat, e: Event, reason: StopReason)
    requires j < |inputs| && inputs[j].Reported? && e in Queued(inputs, j)
    requires e.who == Some(if reason == Operator then ByLink else ByStuckJob)
    ensures e.kind == Cancelled && exists i: nat :: StopPending(inputs, i, j, reason)
  {
    CancelNeedsStop(After(inputs[..j]), inputs[j].report, e);
    PendingStopIsReal(inputs, j);
  }

  /** A RUNNING report that carries a file. */
  predicate Prints(input: Input) { input.Reported? && input.report.state == Some(Running) && HasFile(input.report) }

  predicate Stands(input: Input) { input.Reported? && StandsStill(input.report) }

  /** Step `k` is the last RUNNING report with a file before `n`, and no report stood still since. */
  ghost predicate OpenSince(inputs: seq<Input>, k: nat, n: nat, identity: Identity) {
    k < n <= |inputs| && Prints(inputs[k]) && PrintIdentity(inputs[k].report) == Some(identity) &&
    forall m: nat :: k < m < n ==> !Prints(inputs[m]) && !Stands(inputs[m])
  }

  lemma IdentityStep(t: Tracker, input: Input)
    ensures Next(t, input).0.activeIdentity ==
            if Stands(input) then None else if Prints(input) then PrintIdentity(input.report) else t.activeIdentity
  {
  }

  /** The open print is the latest one reported RUNNING, until a report stands still. */
  lemma {:induction false} OpenPrintIsLatest(inputs: seq<Input>, n: nat, identity: Identity)
    requires n <= |inputs|
    ensures After(inputs[..n]).activeIdentity == Some(identity) <==> exists k: nat :: OpenSince(inputs, k, n, identity)
    decreases n
  {
    if n > 0 {
      AfterStep(inputs, n - 1);
      IdentityStep(After(inputs[..n - 1]), inputs[n - 1]);
      OpenPrintIsLatest(inputs, n - 1, identity);
      forall k: nat
        ensures OpenSince(inputs, k, n, identity) <==>
                OpensHere(inputs, k, n, identity) || StaysOpen(inputs, k, n, identity)
      {
        OpenStep(inputs, k, n, identity);
      }
      if Prints(inputs[n - 1]) {
        assert PrintIdentity(inputs[n - 1].report) == Some(identity) ==> OpensHere(inputs, n - 1, n, identity);
      } else if !Stands(inputs[n - 1]) {
        var m: nat := n - 1;
        assert forall k: nat :: OpenSince(inputs, k, m, identity) <==> StaysOpen(inputs, k, n, identity);
      }
    }
  }

  ghost predicate OpensHere(inputs: seq<Input>, k: nat, n: nat, identity: Identity) {
    k + 1 == n <= |inputs| && Prints(inputs[k]) && PrintIdentity(inputs[k].report) == Some(identity)
  }

  ghost predicate StaysOpen(inputs: seq<Input>, k: nat, n: nat, identity: Identity) {
    0 < n <= |inputs| && OpenSince(inputs, k, n - 1, identity) && !Prints(inputs[n - 1]) && !Stands(inputs[n - 1])
  }

  lemma OpenStep(inputs: seq<Input>, k: nat, n: nat, identity: Identity)
    requires 0 < n <= |inputs|
    ensures OpenSince(inputs, k, n, identity) <==>
            OpensHere(inputs, k, n, identity) || StaysOpen(inputs, k, n, identity)
  {
  }

  lemma StartStep(t: Tracker, r: Report)
    ensures (exists e <- Observe(t, r).1 :: e.observed && e.kind == Started) <==>
            r.state == Some(Running) && HasFile(r) &&
            (if t.activeIdentity.Some? then PrintIdentity(r) != t.activeIdentity
             else t.prevState.Some? && t.prevState != Some(Running))
  {
    if IsNewPrint(t, r) {
      assert Observe(t, r).1[0] in Observe(t, r).1;
    }
  }

  /** A start while a print is open always brings a new identity: the same print never starts twice. */
  lemma StartsAreNewPrints(inputs: seq<Input>, k: nat, j: nat, identity: Identity)
    requires j < |inputs| && OpenSince(inputs, k, j, identity) && inputs[j].Reported?
    requires exists e <- Queued(inputs, j) :: e.observed && e.kind == Started
    ensures Prints(inputs[j]) && PrintIdentity(inputs[j].report) != Some(identity)
  {
    OpenPrintIsLatest(inputs, j, identity);
    StartStep(After(inputs[..j]), inputs[j].report);
  }
}
