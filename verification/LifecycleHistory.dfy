/**
 * Which events a report queues, told from the run before it: the states and stops of the session,
 * the print that is open, the ids its frames named.
 */
module LifecycleHistory {
  import opened Base
  import opened Lifecycle

  // ---------------------------------------------------------------------------
  // What the run before says
  // ---------------------------------------------------------------------------

  /** The state last reported in this session. */
  function LastState(inputs: seq<Input>): Option<GcodeState> {
    if inputs == [] then None
    else
      var last := inputs[|inputs| - 1];
      if last.Reconnected? then None
      else if last.Reported? && last.report.state.Some? then last.report.state
      else LastState(inputs[..|inputs| - 1])
  }

  /** This session saw RUNNING, and no print closed since. */
  ghost predicate SawRunning(inputs: seq<Input>) {
    inputs != [] &&
    var n := |inputs| - 1;
    var last := inputs[n];
    !last.Reconnected? && !ClosesAt(inputs, n) &&
    ((last.Reported? && last.report.state == Some(Running)) || SawRunning(inputs[..n]))
  }

  lemma PrefixQueues(inputs: seq<Input>, n: nat, k: nat)
    requires k < n <= |inputs|
    ensures Queued(inputs[..n], k) == Queued(inputs, k)
    ensures ClosesAt(inputs[..n], k) <==> ClosesAt(inputs, k)
  {
    assert inputs[..n][..k] == inputs[..k];
  }

  lemma SeenStep(t: Tracker, input: Input)
    ensures Next(t, input).0.seenRunning <==>
            !input.Reconnected? && !(exists e <- Next(t, input).1 :: e.observed && Terminal(e.kind)) &&
            ((input.Reported? && input.report.state == Some(Running)) || t.seenRunning)
  {
    if input.Reported? && input.report.state.Some? {
      TerminalIsQueued(t, input.report);
    }
  }

  lemma TerminalIsQueued(t: Tracker, r: Report)
    requires r.state.Some?
    ensures var terminal := TerminalOf(t, r, if IsNewPrint(t, r) then None else t.linkStop);
            (exists e <- Observe(t, r).1 :: e.observed && Terminal(e.kind)) <==> terminal.Some?
  {
    var events := Observe(t, r).1;
    if TerminalOf(t, r, if IsNewPrint(t, r) then None else t.linkStop).Some? {
      assert events[|events| - 1] in events;
    }
  }

  lemma {:induction false} TrackerFollows(inputs: seq<Input>)
    ensures After(inputs).prevState == LastState(inputs)
    ensures After(inputs).seenRunning <==> SawRunning(inputs)
  {
    if inputs != [] {
      var n := |inputs| - 1;
      TrackerFollows(inputs[..n]);
      SeenStep(After(inputs[..n]), inputs[n]);
    }
  }

  // ---------------------------------------------------------------------------
  // Stops
  // ---------------------------------------------------------------------------

  lemma StopKept(t: Tracker, input: Input)
    requires !input.LinkStops? && forall e <- Next(t, input).1 :: e.observed ==> e.kind in {Paused, Resumed}
    ensures Next(t, input).0.linkStop == t.linkStop
  {
    if input.Reported? && input.report.state.Some? {
      TerminalIsQueued(t, input.report);
      StartStep(t, input.report);
    }
  }

  lemma {:induction false} PendingStopHolds(inputs: seq<Input>, i: nat, n: nat, reason: StopReason)
    requires StopPending(inputs, i, n, reason)
    ensures After(inputs[..n]).linkStop == Some(reason)
    decreases n
  {
    AfterStep(inputs, n - 1);
    if i < n - 1 {
      PendingStopHolds(inputs, i, n - 1, reason);
      StopKept(After(inputs[..n - 1]), inputs[n - 1]);
    }
  }

  /** A stop of this kind is pending: Link published it and no print started or closed since. */
  ghost predicate Stopping(inputs: seq<Input>, n: nat, reason: StopReason) {
    exists i: nat :: StopPending(inputs, i, n, reason)
  }

  lemma StopIsPending(inputs: seq<Input>, n: nat, reason: StopReason)
    requires n <= |inputs|
    ensures After(inputs[..n]).linkStop == Some(reason) <==> Stopping(inputs, n, reason)
  {
    if After(inputs[..n]).linkStop == Some(reason) {
      PendingStopIsReal(inputs, n);
    }
    if i: nat :| StopPending(inputs, i, n, reason) {
      PendingStopHolds(inputs, i, n, reason);
    }
  }

  // ---------------------------------------------------------------------------
  // How a print closes
  // ---------------------------------------------------------------------------

  /** The report at `j` closes a print. */
  ghost predicate Closing(inputs: seq<Input>, j: nat)
    requires j < |inputs| && inputs[j].Reported?
  {
    var before, state := inputs[..j], inputs[j].report.state;
    (state == Some(Finish) && (LastState(before) in {Some(Running), Some(Pause)} || SawRunning(before))) ||
    (state == Some(Failed) &&
     (LastState(before) in {Some(Running), Some(Prepare), Some(Slicing)} || SawRunning(before))) ||
    (state == Some(Idle) && LastState(before) in {Some(Running), Some(Pause)})
  }

  /** The kind of terminal a closing report queues. */
  ghost function ClosedAs(inputs: seq<Input>, j: nat): Kind
    requires j < |inputs| && inputs[j].Reported?
  {
    var r := inputs[j].report;
    if r.state == Some(Finish) then Finished
    else if r.state == Some(Idle) then Cancelled
    else if r.userCancelled || Stopping(inputs, j, Operator) || Stopping(inputs, j, StuckJob) then Cancelled
    else Failure
  }

  /** Whom a cancel is put down to: Link's pending stop, else the printer's word, else nobody knows. */
  ghost function ClosedBy(inputs: seq<Input>, j: nat): By
    requires j < |inputs| && inputs[j].Reported?
  {
    if Stopping(inputs, j, StuckJob) then ByStuckJob
    else if Stopping(inputs, j, Operator) then ByLink
    else if inputs[j].report.userCancelled then ByPrinter
    else ByUnknown
  }

  lemma TerminalStep(t: Tracker, r: Report, e: Event)
    requires e in Observe(t, r).1 && Terminal(e.kind)
    ensures e.observed && !IsNewPrint(t, r) && TerminalOf(t, r, t.linkStop) == Some(e.kind)
    ensures e.who == if e.kind == Cancelled then Some(CancelledBy(r, t.linkStop)) else None
  {
  }

  /**
   * A report closes a print exactly when the run before it says so; then it queues one terminal,
   * of exactly this kind, and put down to exactly this party when it is a cancel.
   */
  lemma ClosesExactly(inputs: seq<Input>, j: nat)
    requires j < |inputs| && inputs[j].Reported?
    ensures ClosesAt(inputs, j) <==> Closing(inputs, j)
    ensures forall e <- Queued(inputs, j) :: Terminal(e.kind) ==>
              e.kind == ClosedAs(inputs, j) &&
              e.who == if e.kind == Cancelled then Some(ClosedBy(inputs, j)) else None
  {
    var t, r := After(inputs[..j]), inputs[j].report;
    TrackerFollows(inputs[..j]);
    StopIsPending(inputs, j, Operator);
    StopIsPending(inputs, j, StuckJob);
    assert t.linkStop.Some? ==> t.linkStop.value == Operator || t.linkStop.value == StuckJob;
    if r.state.Some? {
      TerminalIsQueued(t, r);
    }
    forall e | e in Queued(inputs, j) && Terminal(e.kind)
      ensures e.kind == ClosedAs(inputs, j)
      ensures e.who == if e.kind == Cancelled then Some(ClosedBy(inputs, j)) else None
    {
      TerminalStep(t, r, e);
    }
  }

  // ---------------------------------------------------------------------------
  // Starts, pauses and resumes
  // ---------------------------------------------------------------------------

  ghost predicate PrintOpen(inputs: seq<Input>, n: nat) { exists k: nat, identity :: OpenSince(inputs, k, n, identity) }

  /** RUNNING with a file, and another print open, or none after a state that was not RUNNING. */
  ghost predicate Starting(inputs: seq<Input>, j: nat)
    requires j < |inputs|
  {
    inputs[j].Reported? &&
    var r := inputs[j].report;
    r.state == Some(Running) && (r.gcodeFile.Some? || r.subtaskName.Some?) &&
    if PrintOpen(inputs, j) then
      !exists k: nat :: OpenSince(inputs, k, j, PrintIdentity(r).value)
    else LastState(inputs[..j]).Some? && LastState(inputs[..j]) != Some(Running)
  }

  lemma PrintsHasIdentity(r: Report)
    requires HasFile(r)
    ensures PrintIdentity(r).Some?
  {
  }

  lemma OpenIdentity(inputs: seq<Input>, n: nat)
    requires n <= |inputs|
    ensures After(inputs[..n]).activeIdentity.Some? <==> PrintOpen(inputs, n)
    ensures forall identity :: After(inputs[..n]).activeIdentity == Some(identity) <==>
                               exists k: nat :: OpenSince(inputs, k, n, identity)
  {
    forall identity
      ensures After(inputs[..n]).activeIdentity == Some(identity) <==>
              exists k: nat :: OpenSince(inputs, k, n, identity)
    {
      OpenPrintIsLatest(inputs, n, identity);
    }
    if After(inputs[..n]).activeIdentity.Some? {
      var identity := After(inputs[..n]).activeIdentity.value;
      var k: nat :| OpenSince(inputs, k, n, identity);
    }
  }

  predicate Has(events: seq<Event>, kind: Kind) { exists e <- events :: e.observed && e.kind == kind }

  lemma EdgeIsQueued(t: Tracker, r: Report, kind: Kind)
    requires r.state.Some? && kind in {Started, Paused, Resumed}
    ensures Has(Observe(t, r).1, kind) <==> EdgeOf(t, r) == Some(kind)
  {
    if EdgeOf(t, r) == Some(kind) {
      assert Observe(t, r).1[0] in Observe(t, r).1;
    }
  }

  /** A report queues a start, a pause or a resume exactly when the run before it calls for one. */
  lemma EdgesExactly(inputs: seq<Input>, j: nat)
    requires j < |inputs| && inputs[j].Reported? && inputs[j].report.state.Some?
    ensures var state, before := inputs[j].report.state, LastState(inputs[..j]);
            (Has(Queued(inputs, j), Started) <==> Starting(inputs, j)) &&
            (Has(Queued(inputs, j), Paused) <==>
               state == Some(Pause) && before == Some(Running) && PrintOpen(inputs, j)) &&
            (Has(Queued(inputs, j), Resumed) <==>
               state == Some(Running) && before == Some(Pause) && PrintOpen(inputs, j) && !Starting(inputs, j))
  {
    var t, r := After(inputs[..j]), inputs[j].report;
    TrackerFollows(inputs[..j]);
    OpenIdentity(inputs, j);
    EdgeIsQueued(t, r, Started);
    EdgeIsQueued(t, r, Paused);
    EdgeIsQueued(t, r, Resumed);
    if HasFile(r) {
      PrintsHasIdentity(r);
    }
  }

  // ---------------------------------------------------------------------------
  // Whose print it is
  // ---------------------------------------------------------------------------

  /** Two reports are of one print when their first id is the same: subtask, else task, else file, else name. */
  lemma SamePrintIff(a: Report, b: Report)
    requires HasFile(a) && HasFile(b)
    ensures PrintIdentity(a) == PrintIdentity(b) <==>
            if a.subtaskId.Some? || b.subtaskId.Some? then a.subtaskId == b.subtaskId
            else if a.taskId.Some? || b.taskId.Some? then a.taskId == b.taskId
            else if a.gcodeFile.Some? || b.gcodeFile.Some? then a.gcodeFile == b.gcodeFile
            else a.subtaskName == b.subtaskName
  {
  }

  /** The submission a frame names: its subtask id when Link registered it, else its task id when it did. */
  lemma NamedMeans(submissions: seq<Registered>, r: Report, s: string)
    ensures Classify(submissions, r) == Some(s) <==>
            Knows(submissions, Some(s)) &&
            (r.subtaskId == Some(s) || (r.taskId == Some(s) && !Knows(submissions, r.subtaskId)))
  {
  }

  function NamedAt(inputs: seq<Input>, j: nat): Option<string>
    requires j < |inputs| && inputs[j].Reported?
  {
    Classify(After(inputs[..j]).submissions, inputs[j].report)
  }

  /** The submission the open print was matched to. */
  ghost function Matched(inputs: seq<Input>): Option<string> {
    if inputs == [] then None
    else
      var n := |inputs| - 1;
      var last := inputs[n];
      if !last.Reported? || last.report.state.None? then Matched(inputs[..n])
      else if StandsStill(last.report) then None
      else if Has(Queued(inputs, n), Started) then NamedAt(inputs, n)
      else if NamedAt(inputs, n).Some? && last.report.state in {Some(Running), Some(Pause)} then NamedAt(inputs, n)
      else Matched(inputs[..n])
  }

  lemma {:induction false} MatchFollows(inputs: seq<Input>)
    ensures After(inputs).activeSubmission == Matched(inputs)
  {
    if inputs != [] {
      var n := |inputs| - 1;
      MatchFollows(inputs[..n]);
      if inputs[n].Reported? && inputs[n].report.state.Some? {
        EdgeIsQueued(After(inputs[..n]), inputs[n].report, Started);
      }
    }
  }

  /**
   * Every observed event is put down to the submission its frame names, else, unless it starts a
   * print, to the one the open print was matched to.
   */
  lemma EventsNameTheirPrint(inputs: seq<Input>, j: nat)
    requires j < |inputs| && inputs[j].Reported?
    ensures forall e <- Queued(inputs, j) ::
              e.submission == if NamedAt(inputs, j).Some? || Has(Queued(inputs, j), Started) then NamedAt(inputs, j)
                              else Matched(inputs[..j])
  {
    MatchFollows(inputs[..j]);
    if inputs[j].report.state.Some? {
      EdgeIsQueued(After(inputs[..j]), inputs[j].report, Started);
    }
  }

  /** Whose print the printer shows: that of the last report of this session, none once it is idle. */
  ghost function ShownOrigin(inputs: seq<Input>): Option<Origin> {
    if inputs == [] then None
    else
      var n := |inputs| - 1;
      var last := inputs[n];
      if last.Reconnected? then None
      else if !last.Reported? || last.report.state.None? then ShownOrigin(inputs[..n])
      else if last.report.state == Some(Idle) then None
      else if NamedAt(inputs, n).Some? then Some(Link)
      else if Has(Queued(inputs, n), Started) || Matched(inputs[..n]).None? then Some(External)
      else Some(Link)
  }

  lemma {:induction false} OriginFollows(inputs: seq<Input>)
    ensures After(inputs).origin == ShownOrigin(inputs)
  {
    if inputs != [] {
      var n := |inputs| - 1;
      OriginFollows(inputs[..n]);
      MatchFollows(inputs[..n]);
      if inputs[n].Reported? && inputs[n].report.state.Some? {
        EdgeIsQueued(After(inputs[..n]), inputs[n].report, Started);
      }
    }
  }

  // ---------------------------------------------------------------------------
  // The tag of a submission
  // ---------------------------------------------------------------------------

  /** The tag last given with this token while it was remembered. */
  function LastTag(inputs: seq<Input>, token: string): Option<Tag> {
    if inputs == [] then None
    else
      var init, last := inputs[..|inputs| - 1], inputs[|inputs| - 1];
      if last.Registers? && last.token == token then
        if last.tag.Some? then last.tag
        else if Knows(After(init).submissions, Some(token)) then LastTag(init, token)
        else None
      else LastTag(init, token)
  }

  lemma {:induction false} TagOfUnknown(submissions: seq<Registered>, token: string)
    requires !Knows(submissions, Some(token))
    ensures TagOf(submissions, token).None?
  {
    if submissions != [] {
      assert submissions[0] in submissions;
      assert forall e <- submissions[1..] :: e in submissions;
      TagOfUnknown(submissions[1..], token);
    }
  }

  lemma {:induction false} TagOfForget(submissions: seq<Registered>, gone: string, token: string)
    requires token != gone
    ensures TagOf(Forget(submissions, gone), token) == TagOf(submissions, token)
    ensures Knows(Forget(submissions, gone), Some(token)) <==> Knows(submissions, Some(token))
  {
    if submissions != [] {
      TagOfForget(submissions[1..], gone, token);
      assert submissions == [submissions[0]] + submissions[1..];
      var rest := Forget(submissions[1..], gone);
      assert forall e :: e in [submissions[0]] + rest <==> e == submissions[0] || e in rest;
      assert [] + rest == rest && ([submissions[0]] + rest)[1..] == rest;
    }
  }

  lemma {:induction false} TagOfAppend(submissions: seq<Registered>, more: Registered, token: string)
    ensures TagOf(submissions + [more], token) ==
            if Knows(submissions, Some(token)) then TagOf(submissions, token)
            else if more.token == token then more.tag else None
  {
    if submissions == [] {
      assert [more][1..] == [];
    } else {
      assert (submissions + [more])[1..] == submissions[1..] + [more];
      assert submissions == [submissions[0]] + submissions[1..];
      TagOfAppend(submissions[1..], more, token);
    }
  }

  lemma {:induction false} ForgetsAll(submissions: seq<Registered>, token: string)
    ensures !Knows(Forget(submissions, token), Some(token))
  {
    if submissions != [] {
      ForgetsAll(submissions[1..], token);
    }
  }

  lemma TagOfTail(submissions: seq<Registered>, token: string)
    requires submissions != [] && DistinctTokens(submissions) && Knows(submissions[1..], Some(token))
    ensures TagOf(submissions[1..], token) == TagOf(submissions, token) && Knows(submissions, Some(token))
  {
    var tail := submissions[1..];
    var k :| 0 <= k < |tail| && tail[k].token == token;
    assert submissions[k + 1] == tail[k] && submissions[k + 1] in submissions;
  }

  lemma {:induction false} TagOfSuffix(submissions: seq<Registered>, n: nat, token: string)
    requires n <= |submissions| && DistinctTokens(submissions) && Knows(submissions[n..], Some(token))
    ensures TagOf(submissions[n..], token) == TagOf(submissions, token) && Knows(submissions, Some(token))
  {
    if n > 0 {
      assert submissions[n..] == submissions[1..][n - 1..];
      TagOfSuffix(submissions[1..], n - 1, token);
      TagOfTail(submissions, token);
    }
  }

  lemma AppendedDistinct(kept: seq<Registered>, added: Registered)
    requires DistinctTokens(kept) && !Knows(kept, Some(added.token))
    ensures DistinctTokens(kept + [added])
  {
    assert forall i :: 0 <= i < |kept| ==> kept[i] in kept;
  }

  /** Which tags a registration leaves, before the oldest tokens are dropped. */
  lemma RegisteredTags(submissions: seq<Registered>, added: Registered, other: string)
    requires DistinctTokens(submissions)
    ensures var all := Forget(submissions, added.token) + [added];
            DistinctTokens(all) &&
            TagOf(all, other) == (if other == added.token then added.tag else TagOf(submissions, other)) &&
            (Knows(all, Some(other)) <==> other == added.token || Knows(submissions, Some(other)))
  {
    var kept := Forget(submissions, added.token);
    ForgetDrops(submissions, added.token);
    ForgetsAll(submissions, added.token);
    AppendedDistinct(kept, added);
    TagOfAppend(kept, added, other);
    assert forall e :: e in kept + [added] <==> e in kept || e == added;
    if other != added.token {
      TagOfForget(submissions, added.token, other);
      if !Knows(submissions, Some(other)) {
        TagOfUnknown(submissions, other);
      }
    }
  }

  lemma RegisterTags(t: Tracker, token: string, tag: Option<Tag>, other: string)
    requires DistinctTokens(t.submissions) && Knows(Register(t, token, tag).submissions, Some(other))
    ensures TagOf(Register(t, token, tag).submissions, other) ==
            if other == token then (if tag.Some? then tag else TagOf(t.submissions, token))
            else TagOf(t.submissions, other)
    ensures other != token ==> Knows(t.submissions, Some(other))
  {
    var added := Registered(token, if tag.Some? then tag else TagOf(t.submissions, token));
    var all := Forget(t.submissions, token) + [added];
    RegisteredTags(t.submissions, added, other);
    TagOfSuffix(all, if |all| <= MAX_REMEMBERED then 0 else |all| - MAX_REMEMBERED, other);
  }

  /** A remembered submission has the tag it was last given; an event's tag is its submission's. */
  lemma {:induction false} TagIsLast(inputs: seq<Input>, token: string)
    requires Knows(After(inputs).submissions, Some(token))
    ensures TagOf(After(inputs).submissions, token) == LastTag(inputs, token)
  {
    if inputs != [] {
      var init, last := inputs[..|inputs| - 1], inputs[|inputs| - 1];
      RegisteredIsKnown(init);
      if last.Registers? {
        RegisterTags(After(init), last.token, last.tag, token);
        if Knows(After(init).submissions, Some(token)) {
          TagIsLast(init, token);
        } else {
          TagOfUnknown(After(init).submissions, token);
        }
      } else {
        OthersKeepSubmissions(After(init), last);
        TagIsLast(init, token);
      }
    }
  }

  lemma EventCarriesTag(inputs: seq<Input>, j: nat)
    requires j < |inputs|
    ensures forall e <- Queued(inputs, j) ::
              e.tag == if e.submission.Some? then TagOf(After(inputs[..j]).submissions, e.submission.value) else None
  {
  }

  /** Every event that names a remembered submission carries the batch and plate last given with it. */
  lemma EventsCarryTheirTag(inputs: seq<Input>, j: nat)
    requires j < |inputs|
    ensures forall e <- Queued(inputs, j) ::
              e.tag == if e.submission.Some? && Knows(After(inputs[..j]).submissions, e.submission)
                       then LastTag(inputs[..j], e.submission.value) else None
  {
    EventCarriesTag(inputs, j);
    forall e | e in Queued(inputs, j) && e.submission.Some?
      ensures e.tag == if Knows(After(inputs[..j]).submissions, e.submission)
                       then LastTag(inputs[..j], e.submission.value) else None
    {
      if Knows(After(inputs[..j]).submissions, e.submission) {
        TagIsLast(inputs[..j], e.submission.value);
      } else {
        TagOfUnknown(After(inputs[..j]).submissions, e.submission.value);
      }
    }
  }
}
