/**
 * How one printer's assignment ends (bridge/router.py): the router's assignment table, the
 * restart reconciler that closes what the first steady report of a session contradicts, and
 * the dispatcher that latches an outcome and reports it until 3DPF acks.
 */
module Completion {
  import opened Base
  import opened Lifecycle

  type Time = real

  const STARTUP_GRACE_SECONDS: Time := 60.0
  const STEADY_SECONDS: Time := 30.0

  datatype Outcome = Complete | Failed | EndedUnobserved

  datatype Assignment = Assignment(
    batch: string, plate: Option<int>, terminal: Option<Outcome>, startedAt: Time,
    observedActive: bool, submission: Option<string>, observedRunning: bool, recovered: bool)

  datatype PrinterStatus = Printing | PausedStatus | NeedsClearing | ErrorStatus | IdleStatus | OtherStatus

  /** One printer's report as the drain pass sees it. `session` names the MQTT session it belongs to. */
  datatype Snap = Snap(
    live: bool, state: Option<GcodeState>, gcodeSeen: bool, session: Option<int>, matched: Option<string>,
    status: PrinterStatus, cancelCodes: bool, events: seq<Event>)

  // ---------------------------------------------------------------------------
  // RestartReconciler
  // ---------------------------------------------------------------------------

  datatype SteadyKey = SteadyKey(session: int, state: GcodeState, matched: Option<string>)
  datatype Steady = Steady(key: SteadyKey, since: Time)

  /** What the reconciler remembers of one printer. */
  datatype Memory = Memory(decided: Option<int>, steady: Option<Steady>)

  datatype Decision = Nothing | AlreadyLatched | Keep | Leave | EmitFinish | Unobserved

  /** One look at one printer: the clocks, the report, and whether a finish could be queued. */
  datatype Look = Look(snap: Option<Snap>, stopping: bool, monotonic: Time, wall: Time, canEmit: bool)

  predicate ActiveState(s: GcodeState) { s in {Prepare, Slicing, Running, Pause} }

  predicate KnownState(s: GcodeState) { ActiveState(s) || s in {Finish, Idle, GcodeState.Failed} }

  predicate Confirmed(a: Assignment) { a.observedActive || a.observedRunning || a.recovered }

  datatype Action = KeepIt | FinishIt | CloseIt | LeaveIt | NotYet

  /** `_action` */
  function ActionFor(a: Assignment, state: GcodeState, matched: Option<string>): Action {
    if a.submission.Some? then
      if ActiveState(state) && matched == a.submission then KeepIt
      else if state == Finish && matched == a.submission then FinishIt
      else if state in {Idle, GcodeState.Failed} || (KnownState(state) && matched != a.submission) then
        if Confirmed(a) then CloseIt else LeaveIt
      else NotYet
    else if Confirmed(a) && state in {Idle, GcodeState.Failed} then CloseIt
    else if KnownState(state) then LeaveIt
    else NotYet
  }

  function Age(a: Assignment, wall: Time): Time { if wall - a.startedAt < 0.0 then 0.0 else wall - a.startedAt }

  /** The report can be decided on: live, with a state this session reported, not yet decided. */
  predicate Decidable(m: Memory, look: Look) {
    !look.stopping && look.snap.Some? && look.snap.value.live && look.snap.value.state.Some? &&
    look.snap.value.gcodeSeen && look.snap.value.session.Some? && m.decided != look.snap.value.session
  }

  function KeyOf(snap: Snap): SteadyKey
    requires snap.session.Some? && snap.state.Some?
  {
    SteadyKey(snap.session.value, snap.state.value, snap.matched)
  }

  /** The steadiness sample this look takes, if it gets that far. */
  function Sample(m: Memory, a: Assignment, look: Look): Option<SteadyKey> {
    if !Decidable(m, look) || a.terminal.Some? then None
    else
      var action := ActionFor(a, look.snap.value.state.value, look.snap.value.matched);
      if action == FinishIt || action == CloseIt then Some(KeyOf(look.snap.value)) else None
  }

  function IsSteady(m: Memory, key: SteadyKey, now: Time): (Memory, bool) {
    if m.steady.None? || m.steady.value.key != key then (m.(steady := Some(Steady(key, now))), false)
    else (m, now - m.steady.value.since >= STEADY_SECONDS)
  }

  function Decide(m: Memory, a: Assignment, look: Look): (Memory, Decision) {
    if !Decidable(m, look) then (m, Nothing)
    else
      var snap := look.snap.value;
      var settled := Memory(snap.session, None);
      if a.terminal.Some? then (settled, AlreadyLatched)
      else
        match ActionFor(a, snap.state.value, snap.matched)
        case NotYet => (m, Nothing)
        case KeepIt => (settled, Keep)
        case LeaveIt => (settled, Leave)
        case action =>
          var (after, steady) := IsSteady(m, KeyOf(snap), look.monotonic);
          if !steady || Age(a, look.wall) < STARTUP_GRACE_SECONDS then (after, Nothing)
          else if action == FinishIt then (if look.canEmit then (settled, EmitFinish) else (after, Nothing))
          else (settled, Unobserved)
  }

  /** What the decision does to the assignment. A finish is queued as an event instead. */
  function Applied(a: Assignment, d: Decision): Assignment {
    match d
    case Keep => a.(recovered := true, observedRunning := true)
    case Unobserved => if a.terminal.None? then a.(terminal := Some(EndedUnobserved)) else a
    case _ => a
  }

  // ---------------------------------------------------------------------------
  // Dispatcher: detect, latch, report
  // ---------------------------------------------------------------------------

  predicate Ours(e: Event, id: string) { e.origin == Link && e.submission == Some(id) }

  /** What a snapshot's events say about one submission: `Dropped` when it was cancelled. */
  datatype Verdict = Verdict(dropped: bool, running: bool, outcome: Option<Outcome>)

  function JudgeOne(before: Verdict, e: Event, id: string): Verdict {
    if before.dropped || !Ours(e, id) then before
    else
      match e.kind
      case Started => before.(running := true)
      case Cancelled => before.(dropped := true, outcome := None)
      case Finished => before.(outcome := Some(Complete))
      case Failure => before.(outcome := Some(Outcome.Failed))
      case _ => before
  }

  function Judge(events: seq<Event>, id: string): Verdict {
    if events == [] then Verdict(false, false, None)
    else JudgeOne(Judge(events[..|events| - 1], id), events[|events| - 1], id)
  }

  /** `_ack_terminal`: report the latched outcome, keeping the assignment until the ack. */
  function AckTerminal(a: Assignment, outcome: Outcome, acked: bool): (Option<Assignment>, Option<Outcome>) {
    if a.batch == "" then (None, None)
    else (if acked then None else Some(a.(terminal := Some(outcome))), Some(outcome))
  }

  function SubmissionDetect(a: Assignment, id: string, snap: Option<Snap>, stopping: bool, acked: bool)
    : (Option<Assignment>, Option<Outcome>)
  {
    if a.terminal.Some? then AckTerminal(a, a.terminal.value, acked)
    else if stopping then (None, None)
    else
      var verdict := Judge(if snap.Some? then snap.value.events else [], id);
      var marked := if verdict.running then a.(observedRunning := true) else a;
      if verdict.dropped then (None, None)
      else if verdict.outcome.None? then (Some(marked), None)
      else AckTerminal(marked, verdict.outcome.value, acked)
  }

  /** The status path of an assignment with no submission id. */
  function StatusOutcome(a: Assignment, status: PrinterStatus, cancelCodes: bool, wall: Time): Option<Outcome> {
    var grace := Age(a, wall) >= STARTUP_GRACE_SECONDS;
    if (status == IdleStatus || status == ErrorStatus) && cancelCodes then
      if grace then Some(Outcome.Failed) else None
    else if status == NeedsClearing then
      if a.observedActive then Some(Complete) else if grace then Some(Outcome.Failed) else None
    else if status == ErrorStatus && (a.observedActive || grace) then Some(Outcome.Failed)
    else None
  }

  function StatusDetect(a: Assignment, snap: Option<Snap>, stopping: bool, wall: Time, acked: bool)
    : (Option<Assignment>, Option<Outcome>)
  {
    if a.terminal.Some? then AckTerminal(a, a.terminal.value, acked)
    else
      var status := if snap.Some? then snap.value.status else OtherStatus;
      var cancelCodes := snap.Some? && snap.value.cancelCodes;
      if status == Printing || status == PausedStatus then (Some(a.(observedActive := true)), None)
      else if stopping then (None, None)
      else if (status == IdleStatus || status == ErrorStatus) && cancelCodes && a.observedActive then (None, None)
      else
        var outcome := StatusOutcome(a, status, cancelCodes, wall);
        if outcome.None? then (Some(a), None) else AckTerminal(a, outcome.value, acked)
  }

  function Detect(a: Assignment, look: Look, acked: bool): (Option<Assignment>, Option<Outcome>) {
    if a.submission.Some? then SubmissionDetect(a, a.submission.value, look.snap, look.stopping, acked)
    else StatusDetect(a, look.snap, look.stopping, look.wall, acked)
  }

  // ---------------------------------------------------------------------------
  // The sections of a pass
  // ---------------------------------------------------------------------------

  /**
   * What a pass does after it copied the assignment: each takes the router's lock for itself and
   * acts on whatever assignment the printer has by then, but for the post, which takes none.
   */
  datatype Section =
    | MarksRunning | MarksActive | MarksRecovered
    | Latches(outcome: Outcome)
    | Posts(outcome: Outcome)
    | Drops

  function Do(current: Option<Assignment>, section: Section): Option<Assignment> {
    if current.None? then None
    else
      var a := current.value;
      match section
      case MarksRunning => Some(a.(observedRunning := true))
      case MarksActive => Some(a.(observedActive := true))
      case MarksRecovered => Some(a.(recovered := true, observedRunning := true))
      case Latches(outcome) => Some(if a.terminal.None? then a.(terminal := Some(outcome)) else a)
      case Posts(_) => current
      case Drops => None
  }

  function DoAll(current: Option<Assignment>, sections: seq<Section>): Option<Assignment> {
    if sections == [] then current else Do(DoAll(current, sections[..|sections| - 1]), sections[|sections| - 1])
  }

  /** The reconciler's, for its decision. */
  function ReconcileSections(d: Decision): seq<Section> {
    match d
    case Keep => [MarksRecovered]
    case Unobserved => [Latches(EndedUnobserved)]
    case _ => []
  }

  /** The event scan's, for one event: a start is marked, and a cancel drops and ends the scan. */
  function EventSection(before: Verdict, e: Event, id: string): seq<Section> {
    if before.dropped || !Ours(e, id) then []
    else if e.kind == Started then [MarksRunning]
    else if e.kind == Cancelled then [Drops]
    else []
  }

  function EventSections(events: seq<Event>, id: string): seq<Section> {
    if events == [] then []
    else
      var init, e := events[..|events| - 1], events[|events| - 1];
      EventSections(init, id) + EventSection(Judge(init, id), e, id)
  }

  /** `_ack_terminal` */
  function AckSections(batch: string, outcome: Outcome, acked: bool): seq<Section> {
    if batch == "" then [Drops] else [Posts(outcome)] + if acked then [Drops] else []
  }

  function LatchSections(batch: string, outcome: Option<Outcome>, acked: bool): seq<Section> {
    if outcome.None? then [] else [Latches(outcome.value)] + AckSections(batch, outcome.value, acked)
  }

  function EventsOf(snap: Option<Snap>): seq<Event> { if snap.Some? then snap.value.events else [] }

  function SubmissionSections(a: Assignment, id: string, look: Look, acked: bool): seq<Section> {
    if a.terminal.Some? then AckSections(a.batch, a.terminal.value, acked)
    else if look.stopping then [Drops]
    else
      var events := EventsOf(look.snap);
      EventSections(events, id) + LatchSections(a.batch, Judge(events, id).outcome, acked)
  }

  function StatusSections(a: Assignment, look: Look, acked: bool): seq<Section> {
    if a.terminal.Some? then AckSections(a.batch, a.terminal.value, acked)
    else
      var status := if look.snap.Some? then look.snap.value.status else OtherStatus;
      var cancelCodes := look.snap.Some? && look.snap.value.cancelCodes;
      if status == Printing || status == PausedStatus then (if a.observedActive then [] else [MarksActive])
      else if look.stopping then [Drops]
      else if (status == IdleStatus || status == ErrorStatus) && cancelCodes && a.observedActive then [Drops]
      else LatchSections(a.batch, StatusOutcome(a, status, cancelCodes, look.wall), acked)
  }

  /** A whole detection pass over the assignment it copied. */
  function DetectSections(a: Assignment, look: Look, acked: bool): seq<Section> {
    if a.submission.Some? then SubmissionSections(a, a.submission.value, look, acked)
    else StatusSections(a, look, acked)
  }

  // ---------------------------------------------------------------------------
  // The same, as the program runs them
  // ---------------------------------------------------------------------------

  function Lookup<Serial>(m: map<Serial, Assignment>, serial: Serial): Option<Assignment> {
    if serial in m then Some(m[serial]) else None
  }

  function Put<Serial>(m: map<Serial, Assignment>, serial: Serial, a: Option<Assignment>): map<Serial, Assignment> {
    if a.Some? then m[serial := a.value] else m - {serial}
  }

  lemma PutOverwrites<Serial>(m: map<Serial, Assignment>, serial: Serial, x: Option<Assignment>, y: Option<Assignment>)
    ensures Put(Put(m, serial, x), serial, y) == Put(m, serial, y)
    ensures Lookup(Put(m, serial, x), serial) == x
    ensures Put(m, serial, Lookup(m, serial)) == m
  {
  }

  lemma DoAllOne(current: Option<Assignment>, sections: seq<Section>, section: Section)
    ensures DoAll(current, sections + [section]) == Do(DoAll(current, sections), section)
  {
    assert (sections + [section])[..|sections|] == sections;
  }

  lemma {:induction false} DoAllJoins(current: Option<Assignment>, a: seq<Section>, b: seq<Section>)
    ensures DoAll(current, a + b) == DoAll(DoAll(current, a), b)
  {
    if b == [] {
      assert a + b == a;
    } else {
      DoAllJoins(current, a, b[..|b| - 1]);
      assert (a + b)[..|a + b| - 1] == a + b[..|b| - 1];
    }
  }

  lemma DoAllSingle(current: Option<Assignment>, section: Section)
    ensures DoAll(current, [section]) == Do(current, section)
  {
    DoAllOne(current, [], section);
    assert [] + [section] == [section];
  }

  /** The assignments, and the sections passes have run on them so far. */
  datatype Table<Serial(==)> = Table(assignments: map<Serial, Assignment>, trail: seq<Section>)

  /** These sections were run on one printer, in this order, and nothing else changed. */
  ghost predicate Ran<Serial>(before: Table<Serial>, after: Table<Serial>, serial: Serial, sections: seq<Section>) {
    after.trail == before.trail + sections &&
    after.assignments == Put(before.assignments, serial, DoAll(Lookup(before.assignments, serial), sections))
  }

  lemma RanNothing<Serial>(table: Table<Serial>, serial: Serial)
    ensures Ran(table, table, serial, [])
  {
    PutOverwrites(table.assignments, serial, None, None);
    assert table.trail + [] == table.trail;
  }

  lemma RanOn<Serial>(
      a: Table<Serial>, b: Table<Serial>, c: Table<Serial>, serial: Serial, done: seq<Section>, more: seq<Section>)
    requires Ran(a, b, serial, done) && Ran(b, c, serial, more)
    ensures Ran(a, c, serial, done + more)
  {
    var current := Lookup(a.assignments, serial);
    PutOverwrites(a.assignments, serial, DoAll(current, done), DoAll(DoAll(current, done), more));
    DoAllJoins(current, done, more);
  }

  class Router<Serial(==)> {
    var assignments: map<Serial, Assignment>
    /** The sections passes have run, in order. */
    ghost var trail: seq<Section>

    constructor ()
      ensures assignments == map[] && trail == []
    {
      assignments, trail := map[], [];
    }

    ghost function View(): Table<Serial>
      reads this
    {
      Table(assignments, trail)
    }

    /** `assignments_snapshot`, one printer's part: the copy a pass works on. */
    method Copy(serial: Serial) returns (copy: Option<Assignment>)
      ensures copy == Lookup(assignments, serial)
    {
      copy := if serial in assignments then Some(assignments[serial]) else None;
    }

    method RecordAssignment(
        serial: Serial, batch: string, plate: Option<int>, startedAt: Time, submission: Option<string>)
      modifies this`assignments
      ensures assignments ==
              old(assignments)[serial := Assignment(batch, plate, None, startedAt, false, submission, false, false)]
    {
      assignments := assignments[serial := Assignment(batch, plate, None, startedAt, false, submission, false, false)];
    }

    /** `update_send_attempt` writes the send's fields, the submission id among them. */
    method UpdateSendAttempt(serial: Serial, submission: Option<string>)
      modifies this`assignments
      ensures assignments == if serial in old(assignments)
                             then old(assignments)[serial := old(assignments)[serial].(submission := submission)]
                             else old(assignments)
    {
      if serial in assignments {
        assignments := assignments[serial := assignments[serial].(submission := submission)];
      }
    }

    method MarkRunning(serial: Serial)
      modifies this
      ensures Ran(old(View()), View(), serial, [MarksRunning])
    {
      if serial in assignments && !assignments[serial].observedRunning {
        assignments := assignments[serial := assignments[serial].(observedRunning := true)];
      }
      Record(serial, MarksRunning);
    }

    method MarkActive(serial: Serial)
      modifies this
      ensures Ran(old(View()), View(), serial, [MarksActive])
    {
      if serial in assignments && !assignments[serial].observedActive {
        assignments := assignments[serial := assignments[serial].(observedActive := true)];
      }
      Record(serial, MarksActive);
    }

    method MarkRecovered(serial: Serial)
      modifies this
      ensures Ran(old(View()), View(), serial, [MarksRecovered])
    {
      if serial in assignments {
        assignments := assignments[serial := assignments[serial].(recovered := true, observedRunning := true)];
      }
      Record(serial, MarksRecovered);
    }

    /** A latch is set once: a second outcome is ignored. */
    method SetTerminal(serial: Serial, outcome: Outcome)
      modifies this
      ensures Ran(old(View()), View(), serial, [Latches(outcome)])
    {
      if serial in assignments && assignments[serial].terminal.None? {
        assignments := assignments[serial := assignments[serial].(terminal := Some(outcome))];
      }
      Record(serial, Latches(outcome));
    }

    method ClearAssignment(serial: Serial)
      modifies this
      ensures Ran(old(View()), View(), serial, [Drops])
    {
      assignments := assignments - {serial};
      Record(serial, Drops);
    }

    ghost method Record(serial: Serial, section: Section)
      modifies this`trail
      ensures trail == old(trail) + [section]
      ensures forall current :: DoAll(current, [section]) == Do(current, section)
    {
      trail := trail + [section];
      forall current {
        DoAllSingle(current, section);
      }
    }
  }

  class RestartReconciler<Serial(==)> {
    const router: Router<Serial>
    var reconciled: map<Serial, int>
    var steady: map<Serial, Steady>

    constructor (router: Router<Serial>)
      ensures this.router == router && reconciled == map[] && steady == map[]
    {
      this.router := router;
      reconciled, steady := map[], map[];
    }

    function MemoryOf(serial: Serial): Memory
      reads this
    {
      Memory(if serial in reconciled then Some(reconciled[serial]) else None,
             if serial in steady then Some(steady[serial]) else None)
    }

    method FinishDecision(serial: Serial, session: int)
      modifies this
      ensures reconciled == old(reconciled)[serial := session] && steady == old(steady) - {serial}
    {
      reconciled := reconciled[serial := session];
      steady := steady - {serial};
    }

    method CheckSteady(serial: Serial, key: SteadyKey, now: Time) returns (isSteady: bool)
      modifies this`steady
      ensures (MemoryOf(serial), isSteady) == IsSteady(old(MemoryOf(serial)), key, now)
    {
      if serial !in steady || steady[serial].key != key {
        steady := steady[serial := Steady(key, now)];
        return false;
      }
      return now - steady[serial].since >= STEADY_SECONDS;
    }

    /** `_consider`, on a copy of the assignment: another may have taken its place by now. */
    method Consider(serial: Serial, copy: Assignment, look: Look) returns (decision: Decision)
      modifies this, router
      ensures (MemoryOf(serial), decision) == Decide(old(MemoryOf(serial)), copy, look)
      ensures Ran(old(router.View()), router.View(), serial, ReconcileSections(decision))
    {
      RanNothing(router.View(), serial);
      if look.stopping || look.snap.None? || !look.snap.value.live {
        return Nothing;
      }
      var snap := look.snap.value;
      if snap.state.None? || !snap.gcodeSeen {
        return Nothing;
      }
      if snap.session.None? || (serial in reconciled && reconciled[serial] == snap.session.value) {
        return Nothing;
      }
      var session := snap.session.value;
      if copy.terminal.Some? {
        FinishDecision(serial, session);
        return AlreadyLatched;
      }
      var action := ActionFor(copy, snap.state.value, snap.matched);
      if action == NotYet {
        return Nothing;
      }
      if action == KeepIt {
        router.MarkRecovered(serial);
        FinishDecision(serial, session);
        return Keep;
      }
      if action == LeaveIt {
        FinishDecision(serial, session);
        return Leave;
      }
      var isSteady := CheckSteady(serial, SteadyKey(session, snap.state.value, snap.matched), look.monotonic);
      if !isSteady {
        return Nothing;
      }
      if Age(copy, look.wall) < STARTUP_GRACE_SECONDS {
        return Nothing;
      }
      if action == FinishIt {
        if !look.canEmit {
          return Nothing;
        }
        decision := EmitFinish;
      } else {
        router.SetTerminal(serial, EndedUnobserved);
        decision := Unobserved;
      }
      FinishDecision(serial, session);
    }
  }

  class Dispatcher<Serial(==)> {
    const router: Router<Serial>

    constructor (router: Router<Serial>)
      ensures this.router == router
    {
      this.router := router;
    }

    /** `_terminal_from_events`: event by event; a cancel clears at once and ends the scan. */
    method TerminalFromEvents(serial: Serial, id: string, events: seq<Event>) returns (outcome: Option<Outcome>)
      modifies router
      ensures outcome == Judge(events, id).outcome
      ensures Ran(old(router.View()), router.View(), serial, EventSections(events, id))
    {
      outcome := None;
      ghost var start := router.View();
      RanNothing(start, serial);
      for i := 0 to |events|
        invariant !Judge(events[..i], id).dropped && outcome == Judge(events[..i], id).outcome
        invariant Ran(start, router.View(), serial, EventSections(events[..i], id))
      {
        assert events[..i + 1][..i] == events[..i];
        ghost var done, here := EventSections(events[..i], id), router.View();
        assert done + [] == done;
        var e := events[i];
        if e.origin == Link && e.submission == Some(id) {
          if e.kind == Started {
            router.MarkRunning(serial);
            RanOn(start, here, router.View(), serial, done, [MarksRunning]);
          } else if e.kind == Cancelled {
            router.ClearAssignment(serial);
            RanOn(start, here, router.View(), serial, done, [Drops]);
            DroppedStays(events, id, i + 1);
            DroppedEnds(events, id, i + 1);
            return None;
          } else if e.kind == Finished {
            outcome := Some(Complete);
          } else if e.kind == Failure {
            outcome := Some(Outcome.Failed);
          }
        }
      }
      assert events[..|events|] == events;
    }

    /** `_ack_terminal`: reports the copied batch, and on the ack clears whatever assignment is there. */
    method Ack(serial: Serial, batch: string, outcome: Outcome, acked: bool) returns (report: Option<Outcome>)
      modifies router
      ensures report == if batch == "" then None else Some(outcome)
      ensures Ran(old(router.View()), router.View(), serial, AckSections(batch, outcome, acked))
    {
      ghost var start := router.View();
      RanNothing(start, serial);
      if batch == "" {
        router.ClearAssignment(serial);
        return None;
      }
      report := Some(outcome);
      router.Record(serial, Posts(outcome));
      ghost var posted := router.View();
      assert Ran(start, posted, serial, [Posts(outcome)]) by {
        PutOverwrites(start.assignments, serial, None, None);
        DoAllSingle(Lookup(start.assignments, serial), Posts(outcome));
      }
      if acked {
        router.ClearAssignment(serial);
        RanOn(start, posted, router.View(), serial, [Posts(outcome)], [Drops]);
      } else {
        assert [Posts(outcome)] + [] == [Posts(outcome)];
      }
    }

    /** A new outcome is latched on whatever assignment is there, and reported for the copied batch. */
    method LatchAndAck(serial: Serial, batch: string, outcome: Option<Outcome>, acked: bool)
      returns (report: Option<Outcome>)
      modifies router
      ensures report == if batch == "" then None else outcome
      ensures Ran(old(router.View()), router.View(), serial, LatchSections(batch, outcome, acked))
    {
      ghost var start := router.View();
      RanNothing(start, serial);
      if outcome.None? {
        return None;
      }
      router.SetTerminal(serial, outcome.value);
      ghost var latched := router.View();
      report := Ack(serial, batch, outcome.value, acked);
      RanOn(start, latched, router.View(), serial, [Latches(outcome.value)], AckSections(batch, outcome.value, acked));
    }

    method DetectSubmission(serial: Serial, copy: Assignment, id: string, look: Look, acked: bool)
      returns (report: Option<Outcome>)
      modifies router
      ensures report == SubmissionDetect(copy, id, look.snap, look.stopping, acked).1
      ensures Ran(old(router.View()), router.View(), serial, SubmissionSections(copy, id, look, acked))
    {
      if copy.terminal.Some? {
        report := Ack(serial, copy.batch, copy.terminal.value, acked);
        return;
      }
      if look.stopping {
        router.ClearAssignment(serial);
        return None;
      }
      ghost var start := router.View();
      var events := if look.snap.Some? then look.snap.value.events else [];
      var outcome := TerminalFromEvents(serial, id, events);
      ghost var scanned := router.View();
      VerdictKept(events, id);
      report := LatchAndAck(serial, copy.batch, outcome, acked);
      RanOn(start, scanned, router.View(), serial,
            EventSections(events, id), LatchSections(copy.batch, outcome, acked));
    }

    method DetectStatus(serial: Serial, copy: Assignment, look: Look, acked: bool) returns (report: Option<Outcome>)
      modifies router
      ensures report == StatusDetect(copy, look.snap, look.stopping, look.wall, acked).1
      ensures Ran(old(router.View()), router.View(), serial, StatusSections(copy, look, acked))
    {
      RanNothing(router.View(), serial);
      if copy.terminal.Some? {
        report := Ack(serial, copy.batch, copy.terminal.value, acked);
        return;
      }
      var status := if look.snap.Some? then look.snap.value.status else OtherStatus;
      if status == Printing || status == PausedStatus {
        if !copy.observedActive {
          router.MarkActive(serial);
        }
        return None;
      }
      var cancelCodes := look.snap.Some? && look.snap.value.cancelCodes;
      var cancelTerminal := (status == IdleStatus || status == ErrorStatus) && cancelCodes;
      var grace := Age(copy, look.wall) >= STARTUP_GRACE_SECONDS;
      if look.stopping {
        router.ClearAssignment(serial);
        return None;
      }
      var outcome: Option<Outcome> := None;
      if cancelTerminal {
        if copy.observedActive {
          router.ClearAssignment(serial);
          return None;
        }
        if grace {
          outcome := Some(Outcome.Failed);
        }
      } else if status == NeedsClearing {
        if copy.observedActive {
          outcome := Some(Complete);
        } else if grace {
          outcome := Some(Outcome.Failed);
        }
      } else if status == ErrorStatus && (copy.observedActive || grace) {
        outcome := Some(Outcome.Failed);
      }
      report := LatchAndAck(serial, copy.batch, outcome, acked);
    }

    /** One pass over the assignment it copied. */
    method DetectAndReport(serial: Serial, copy: Assignment, look: Look, acked: bool) returns (report: Option<Outcome>)
      modifies router
      ensures report == Detect(copy, look, acked).1
      ensures Ran(old(router.View()), router.View(), serial, DetectSections(copy, look, acked))
    {
      if copy.submission.Some? {
        report := DetectSubmission(serial, copy, copy.submission.value, look, acked);
      } else {
        report := DetectStatus(serial, copy, look, acked);
      }
    }
  }

  // ---------------------------------------------------------------------------
  // What the sections of a pass amount to
  // ---------------------------------------------------------------------------

  /** What the event scan leaves of an assignment. */
  function Scanned(a: Assignment, verdict: Verdict): Option<Assignment> {
    if verdict.dropped then None else Some(if verdict.running then a.(observedRunning := true) else a)
  }

  lemma ScanOne(a: Assignment, before: Verdict, e: Event, id: string)
    ensures DoAll(Scanned(a, before), EventSection(before, e, id)) == Scanned(a, JudgeOne(before, e, id))
  {
    DoAllSingle(Scanned(a, before), MarksRunning);
    DoAllSingle(Scanned(a, before), Drops);
  }

  lemma {:induction false} EventSectionsDo(a: Assignment, events: seq<Event>, id: string)
    ensures DoAll(Some(a), EventSections(events, id)) == Scanned(a, Judge(events, id))
  {
    if events != [] {
      var init, e := events[..|events| - 1], events[|events| - 1];
      EventSectionsDo(a, init, id);
      ScanOne(a, Judge(init, id), e, id);
      DoAllJoins(Some(a), EventSections(init, id), EventSection(Judge(init, id), e, id));
    }
  }

  lemma {:induction false} AckSectionsDo(a: Assignment, outcome: Outcome, acked: bool)
    requires a.terminal == Some(outcome)
    ensures DoAll(Some(a), AckSections(a.batch, outcome, acked)) == AckTerminal(a, outcome, acked).0
  {
    DoAllSingle(Some(a), Drops);
    DoAllSingle(Some(a), Posts(outcome));
    DoAllOne(Some(a), [Posts(outcome)], Drops);
    assert [Posts(outcome)] + [] == [Posts(outcome)];
  }

  lemma {:induction false} LatchSectionsDo(a: Assignment, outcome: Option<Outcome>, acked: bool)
    requires a.terminal.None?
    ensures DoAll(Some(a), LatchSections(a.batch, outcome, acked)) ==
            if outcome.None? then Some(a) else AckTerminal(a, outcome.value, acked).0
  {
    if outcome.Some? {
      var latched := a.(terminal := outcome);
      DoAllSingle(Some(a), Latches(outcome.value));
      AckSectionsDo(latched, outcome.value, acked);
      DoAllJoins(Some(a), [Latches(outcome.value)], AckSections(a.batch, outcome.value, acked));
    }
  }

  /**
   * A pass nothing comes between: its sections leave of the assignment it copied exactly what
   * `Detect` says, the reconciler's what `Applied` says.
   */
  lemma {:induction false} UninterruptedPass(a: Assignment, look: Look, acked: bool, d: Decision)
    ensures DoAll(Some(a), DetectSections(a, look, acked)) == Detect(a, look, acked).0
    ensures DoAll(Some(a), ReconcileSections(d)) == Some(Applied(a, d))
  {
    DoAllSingle(Some(a), MarksRecovered);
    DoAllSingle(Some(a), Latches(EndedUnobserved));
    if a.submission.Some? {
      SubmissionDo(a, a.submission.value, look, acked);
    } else {
      StatusDo(a, look, acked);
    }
  }

  lemma {:induction false} SubmissionDo(a: Assignment, id: string, look: Look, acked: bool)
    ensures DoAll(Some(a), SubmissionSections(a, id, look, acked)) ==
            SubmissionDetect(a, id, look.snap, look.stopping, acked).0
  {
    if a.terminal.Some? {
      AckSectionsDo(a, a.terminal.value, acked);
    } else if look.stopping {
      DoAllSingle(Some(a), Drops);
    } else {
      var events := EventsOf(look.snap);
      var verdict := Judge(events, id);
      var marked := if verdict.running then a.(observedRunning := true) else a;
      VerdictKept(events, id);
      EventSectionsDo(a, events, id);
      LatchSectionsDo(marked, verdict.outcome, acked);
      DoAllJoins(Some(a), EventSections(events, id), LatchSections(a.batch, verdict.outcome, acked));
    }
  }

  lemma {:induction false} StatusDo(a: Assignment, look: Look, acked: bool)
    ensures DoAll(Some(a), StatusSections(a, look, acked)) ==
            StatusDetect(a, look.snap, look.stopping, look.wall, acked).0
  {
    DoAllSingle(Some(a), Drops);
    DoAllSingle(Some(a), MarksActive);
    if a.terminal.Some? {
      AckSectionsDo(a, a.terminal.value, acked);
    } else {
      var status := if look.snap.Some? then look.snap.value.status else OtherStatus;
      var cancelCodes := look.snap.Some? && look.snap.value.cancelCodes;
      LatchSectionsDo(a, StatusOutcome(a, status, cancelCodes, look.wall), acked);
    }
  }

  // ---------------------------------------------------------------------------
  // What a verdict means
  // ---------------------------------------------------------------------------

  lemma {:induction false} DroppedStays(events: seq<Event>, id: string, i: nat)
    requires i <= |events| && Judge(events[..i], id).dropped
    ensures Judge(events, id).dropped && Judge(events, id).outcome == Judge(events[..i], id).outcome
    decreases |events| - i
  {
    if i == |events| {
      assert events[..i] == events;
    } else {
      assert events[..i + 1][..i] == events[..i];
      DroppedStays(events, id, i + 1);
    }
  }

  lemma {:induction false} VerdictKept(events: seq<Event>, id: string)
    ensures Judge(events, id).dropped ==> Judge(events, id).outcome.None?
    ensures Judge(events, id).outcome != Some(EndedUnobserved)
  {
    if events != [] {
      VerdictKept(events[..|events| - 1], id);
    }
  }

  lemma {:induction false} DroppedEnds(events: seq<Event>, id: string, i: nat)
    requires i <= |events| && Judge(events[..i], id).dropped
    ensures EventSections(events, id) == EventSections(events[..i], id)
    decreases |events| - i
  {
    if i == |events| {
      assert events[..i] == events;
    } else {
      assert events[..i + 1][..i] == events[..i];
      assert EventSections(events[..i], id) + [] == EventSections(events[..i], id);
      DroppedEnds(events, id, i + 1);
    }
  }

  ghost predicate OursAt(events: seq<Event>, i: int, id: string, kind: Kind) {
    0 <= i < |events| && Ours(events[i], id) && events[i].kind == kind
  }

  ghost predicate Holds(events: seq<Event>, id: string, kind: Kind) { exists i :: OursAt(events, i, id, kind) }

  /** The last of our finish and failure events. */
  ghost predicate LastVerdict(events: seq<Event>, i: int, id: string, kind: Kind) {
    OursAt(events, i, id, kind) &&
    forall j :: i < j < |events| ==> !OursAt(events, j, id, Finished) && !OursAt(events, j, id, Failure)
  }

  ghost predicate HasVerdict(events: seq<Event>, id: string, kind: Kind) {
    exists i :: LastVerdict(events, i, id, kind)
  }

  /**
   * A snapshot is dropped iff it holds our cancel; it completes iff our last verdict is a finish
   * and it holds no cancel.
   */
  lemma {:induction false} JudgeMeaning(events: seq<Event>, id: string)
    ensures Judge(events, id).dropped <==> Holds(events, id, Cancelled)
    ensures Judge(events, id).outcome == Some(Complete) <==>
            !Holds(events, id, Cancelled) && HasVerdict(events, id, Finished)
    ensures Judge(events, id).outcome == Some(Outcome.Failed) <==>
            !Holds(events, id, Cancelled) && HasVerdict(events, id, Failure)
  {
    if events != [] {
      var last := |events| - 1;
      var init := events[..last];
      JudgeMeaning(init, id);
      HoldsGrows(events, id, Cancelled);
      VerdictGrows(events, id, Finished);
      VerdictGrows(events, id, Failure);
      VerdictKept(init, id);
    }
  }

  lemma HoldsGrows(events: seq<Event>, id: string, kind: Kind)
    requires events != []
    ensures Holds(events, id, kind) <==>
            Holds(events[..|events| - 1], id, kind) || OursAt(events, |events| - 1, id, kind)
  {
    var init := events[..|events| - 1];
    if i :| OursAt(init, i, id, kind) {
      assert OursAt(events, i, id, kind);
    }
    if i :| OursAt(events, i, id, kind) {
      assert i < |init| ==> OursAt(init, i, id, kind);
    }
  }

  lemma VerdictGrows(events: seq<Event>, id: string, kind: Kind)
    requires events != [] && (kind == Finished || kind == Failure)
    ensures var e := events[|events| - 1];
            HasVerdict(events, id, kind) <==>
            if Ours(e, id) && (e.kind == Finished || e.kind == Failure) then e.kind == kind
            else HasVerdict(events[..|events| - 1], id, kind)
  {
    var last := |events| - 1;
    var init := events[..last];
    assert forall i, k :: i < last ==> (OursAt(events, i, id, k) <==> OursAt(init, i, id, k));
    if OursAt(events, last, id, kind) {
      assert LastVerdict(events, last, id, kind);
    }
    var closes := OursAt(events, last, id, Finished) || OursAt(events, last, id, Failure);
    if i :| LastVerdict(init, i, id, kind) && !closes {
      assert LastVerdict(events, i, id, kind);
    }
    if i :| LastVerdict(events, i, id, kind) {
      assert i < last ==> LastVerdict(init, i, id, kind);
    }
  }
}
