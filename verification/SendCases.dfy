/**
 * What a pass over a live send does, told from the record, the clock, the report and what its calls
 * return: for each thing it can do, exactly when it does it. And which submission id the record holds.
 */
module SendCases {
  import opened Base
  import opened SendWatchdog
  import opened SendRuns
  import Ams

  // ---------------------------------------------------------------------------
  // What a pass meets
  // ---------------------------------------------------------------------------

  predicate Refusing(pass: Pass) { pass.snapshot.Some? && pass.snapshot.value.commandsRejected }

  predicate Working(pass: Pass) {
    pass.snapshot.Some? && (pass.snapshot.value.statusActive || pass.snapshot.value.gcodeBusy)
  }

  /** The printer is idle as far as anyone knows, and takes commands. */
  predicate Open(pass: Pass) { !pass.observedActive && !Refusing(pass) && !Working(pass) }

  /** The report carries the id of the send. */
  predicate ShowsId(pass: Pass, id: Option<string>) {
    id.Some? && id.value !in {"", "0"} && pass.snapshot.Some? && id.value in pass.snapshot.value.ids
  }

  /** The report names another file than was on the printer when the send began. */
  predicate ShowsOtherFile(pass: Pass, file: Option<string>) {
    file.Some? && file.value != "" && pass.snapshot.Some? && pass.snapshot.value.gcodeFile.Some? &&
    pass.snapshot.value.gcodeFile.value != file.value
  }

  predicate Plain(r: Attempt) { r.phase == A && !r.pending }

  function Age(r: Attempt, pass: Pass): Time { pass.now - r.startedAt }

  /** Nothing shows that the printer took the file, and phase A is over. */
  predicate Unanswered(r: Attempt, pass: Pass) {
    Plain(r) && Age(r, pass) >= 90.0 && !ShowsId(pass, r.submissionId) && !ShowsOtherFile(pass, r.gcodeFile)
  }

  /** The pass tries a start: a reset's, over a session that is up, or phase B's. */
  predicate TriesStart(send: Send, pass: Pass) {
    var r := send.record;
    Open(pass) && r.attempts < 3 &&
    ((r.pending && pass.connected && (Age(r, pass) < 90.0 || Waiting(send).Some?)) ||
     (r.phase == B && Age(r, pass) >= 180.0))
  }

  /** The first tray of the mapping the report's bits call empty, as a slot. */
  ghost predicate FirstEmpty(pass: Pass, slot: int) {
    pass.mapping.Some? && pass.snapshot.Some? &&
    exists i: nat ::
      Ams.FirstClear(pass.snapshot.value.trayBits, pass.snapshot.value.unitBits, pass.mapping.value, i) &&
      slot == pass.mapping.value[i] + 1
  }

  lemma FirstClearIsUnique(trayBits: Option<set<nat>>, unitBits: Option<set<nat>>, mapping: seq<int>, i: nat, j: nat)
    requires Ams.FirstClear(trayBits, unitBits, mapping, i) && Ams.FirstClear(trayBits, unitBits, mapping, j)
    ensures i == j
  {
  }

  /** A start is refused on the first tray known empty, and else goes out iff it has a mapping and is accepted. */
  lemma StartOutcomeMeans(pass: Pass, slot: int)
    ensures StartOutcome(pass) == Absent(slot) <==> FirstEmpty(pass, slot)
    ensures StartOutcome(pass) == Sent <==>
            pass.mapping.Some? && pass.publishAccepted && forall s :: !FirstEmpty(pass, s)
  {
    if pass.mapping.Some? && pass.snapshot.Some? {
      var tray, unit, mapping := pass.snapshot.value.trayBits, pass.snapshot.value.unitBits, pass.mapping.value;
      Ams.AbsentSlotIsFirstClear(tray, unit, mapping);
      forall i: nat, j: nat | Ams.FirstClear(tray, unit, mapping, i) && Ams.FirstClear(tray, unit, mapping, j)
        ensures i == j
      {
        FirstClearIsUnique(tray, unit, mapping, i, j);
      }
      forall i: nat | Ams.FirstClear(tray, unit, mapping, i)
        ensures Ams.AbsentSlot(tray, unit, mapping).Some?
      {
        assert Ams.KnownClear(mapping[i], tray, unit);
      }
      if Ams.AbsentSlot(tray, unit, mapping).Some? {
        assert FirstEmpty(pass, Ams.AbsentSlot(tray, unit, mapping).value);
      }
    }
  }

  // ---------------------------------------------------------------------------
  // The steps behind each case
  // ---------------------------------------------------------------------------

  /** What a pass did: which of the marks, checks and reports. */
  datatype Deed = Deed(published: bool, reset: bool, entered: bool, dispatched: bool, checked: bool, reported: bool)

  ghost function DeedOf(events: seq<Event>): Deed {
    Deed(exists e <- events :: e.Published?, exists e <- events :: e.Reset?, exists e <- events :: e.EnteredB?,
         exists e <- events :: e.Dispatched?, exists e <- events :: e.Checked?, exists e <- events :: e.Reported?)
  }

  const NO_DEED := Deed(false, false, false, false, false, false)

  lemma DeedOne(e: Event)
    ensures DeedOf([e]) == Deed(e.Published?, e.Reset?, e.EnteredB?, e.Dispatched?, e.Checked?, e.Reported?)
    ensures DeedOf([]) == NO_DEED
  {
    assert e in [e];
  }

  function Either(a: Deed, b: Deed): Deed {
    Deed(a.published || b.published, a.reset || b.reset, a.entered || b.entered, a.dispatched || b.dispatched,
         a.checked || b.checked, a.reported || b.reported)
  }

  lemma DeedsAdd(a: seq<Event>, b: seq<Event>)
    ensures DeedOf(a + b) == Either(DeedOf(a), DeedOf(b))
  {
    assert forall e :: e in a + b <==> e in a || e in b;
  }

  /** The hold has lasted over ten minutes by this check. */
  predicate Outlasted(send: Send, pass: Pass) { send.held.Some? && pass.checkedAt - send.held.value.since > 600.0 }

  lemma CheckDeed(send: Send, local: Attempt, pass: Pass, absent: Option<int>)
    requires send.status == Live
    ensures DeedOf(CheckSlot(send, local, pass, absent).1) ==
            NO_DEED.(checked := true, reported := absent.Some? && Outlasted(send, pass))
    ensures Checked(pass.checkedAt, absent) in CheckSlot(send, local, pass, absent).1
    ensures forall a :: Checked(pass.checkedAt, a) in CheckSlot(send, local, pass, absent).1 ==> a == absent
  {
    var check, report := Checked(pass.checkedAt, absent),
      Reported(pass.checkedAt, SlotEmpty(absent.GetOr(0)), pass.acked);
    DeedOne(check);
    DeedOne(report);
    DeedsAdd([check], [report]);
    assert CheckSlot(send, local, pass, absent).1 ==
           if absent.Some? && Outlasted(send, pass) then [check] + [report] else [check];
  }

  lemma RepublishDeed(send: Send, pass: Pass)
    requires send.status == Live
    ensures DeedOf(RepublishStep(send, pass).1) ==
            if !pass.connected then NO_DEED
            else NO_DEED.(checked := true, published := StartOutcome(pass) == Sent,
                          reported := StartOutcome(pass).Absent? && Outlasted(send, pass))
  {
    DeedOne(Published(pass.now));
    match StartOutcome(pass)
    case Absent(slot) => CheckDeed(send, send.record, pass, Some(slot));
    case NotSent => CheckDeed(send, send.record, pass, None);
    case Sent =>
      CheckDeed(send, send.record, pass, None);
      DeedsAdd([Published(pass.now)], CheckSlot(send, send.record, pass, None).1);
  }

  lemma RetryDeed(send: Send, pass: Pass)
    requires send.status == Live
    ensures DeedOf(RetryStep(send, pass).1) ==
            NO_DEED.(checked := true, published := StartOutcome(pass) == Sent,
                     reported := StartOutcome(pass).NotSent? || (StartOutcome(pass).Absent? && Outlasted(send, pass)))
  {
    var local := send.record.(lastFailure := Some(NoActive));
    var report := Reported(pass.now, FailureReason(local, pass.snapshot), pass.acked);
    DeedOne(Published(pass.now));
    DeedOne(report);
    match StartOutcome(pass)
    case Absent(slot) => CheckDeed(send, local, pass, Some(slot));
    case NotSent =>
      CheckDeed(send, local, pass, None);
      DeedsAdd(CheckSlot(send, local, pass, None).1, [report]);
    case Sent =>
      CheckDeed(send, local, pass, None);
      DeedsAdd([Published(pass.now)], CheckSlot(send, local, pass, None).1);
  }

  lemma ResetDeed(send: Send, pass: Pass)
    ensures DeedOf(ResetStep(send, pass).1) ==
            if !send.record.pending && Age(send.record, pass) < 150.0 && pass.silent then NO_DEED
            else if send.record.pending && send.record.attempts + 1 >= 3 then NO_DEED.(reported := true)
            else NO_DEED.(reset := true)
  {
    DeedOne(Reset(pass.now));
    if ResetStep(send, pass).1 != [] {
      DeedOne(ResetStep(send, pass).1[0]);
    }
  }

  // ---------------------------------------------------------------------------
  // The cases
  // ---------------------------------------------------------------------------

  /** What a pass over a live send does, case by case. */
  ghost function DeedFor(send: Send, pass: Pass): Deed {
    var r, age := send.record, Age(send.record, pass);
    var hold := Waiting(send);
    var outlasted := hold.Some? && pass.checkedAt - hold.value.since > 600.0;
    var sent := pass.mapping.Some? && pass.publishAccepted && forall s :: !FirstEmpty(pass, s);
    var empty := exists s :: FirstEmpty(pass, s);
    var tries := TriesStart(send, pass);
    var unanswered := Open(pass) && Unanswered(r, pass);
    var offlineTooLong := Open(pass) && r.pending && r.attempts < 3 && age >= 90.0 && hold.None?;
    Deed(
      tries && sent,
      (unanswered && r.attempts < 3 && (age >= 150.0 || !pass.silent)) || (offlineTooLong && r.attempts < 2),
      Open(pass) && Plain(r) && (ShowsId(pass, r.submissionId) || (age >= 90.0 && ShowsOtherFile(pass, r.gcodeFile))),
      pass.observedActive || (!Refusing(pass) && Working(pass)),
      tries,
      (!pass.observedActive && Refusing(pass)) ||
      (Open(pass) && r.attempts >= 3 && (r.pending || (r.phase == B && age >= 180.0) || Unanswered(r, pass))) ||
      (offlineTooLong && r.attempts == 2) ||
      (tries && empty && outlasted) ||
      (tries && r.phase == B && !empty && !sent))
  }

  lemma TriedDeed(send: Send, pass: Pass)
    requires Sane(send) && send.status == Live && send.held == Waiting(send) && TriesStart(send, pass)
    ensures DeedOf(Advance(send, pass).1) == DeedFor(send, pass)
  {
    forall s
      ensures StartOutcome(pass) == Absent(s) <==> FirstEmpty(pass, s)
      ensures StartOutcome(pass) == Sent <==>
              pass.mapping.Some? && pass.publishAccepted && forall s :: !FirstEmpty(pass, s)
    {
      StartOutcomeMeans(pass, s);
    }
    var outcome := StartOutcome(pass);
    assert outcome.Sent? || outcome.NotSent? || outcome.Absent?;
    assert outcome.Absent? ==> FirstEmpty(pass, outcome.slot);
    if send.record.pending {
      RepublishDeed(send, pass);
    } else {
      RetryDeed(send, pass);
    }
  }

  lemma OtherDeed(send: Send, pass: Pass)
    requires Sane(send) && send.status == Live && send.held == Waiting(send) && !TriesStart(send, pass)
    ensures DeedOf(Advance(send, pass).1) == DeedFor(send, pass)
  {
    DeedOne(Dispatched(pass.now));
    DeedOne(EnteredB(pass.now));
    DeedOne(Reported(pass.now, FailureReason(send.record, pass.snapshot), pass.acked));
    ResetDeed(send, pass);
    RepublishDeed(send, pass);
  }

  /** Each thing a pass over a live send can do, it does exactly in its case. */
  lemma PassDoesExactly(send: Send, pass: Pass)
    requires Sane(send) && send.status == Live
    ensures DeedOf(Advance(send, pass).1) == DeedFor(send, pass)
  {
    var adopted := Adopt(send);
    if TriesStart(adopted, pass) {
      TriedDeed(adopted, pass);
    } else {
      OtherDeed(adopted, pass);
    }
    assert Adopt(adopted) == adopted;
  }

  // ---------------------------------------------------------------------------
  // What a pass leaves
  // ---------------------------------------------------------------------------

  /** The hold after a pass: begun or moved by a refused check, ended by a passed one, else as before. */
  ghost predicate HoldAfter(send: Send, pass: Pass, after: Send) {
    var since := if Waiting(send).Some? then Waiting(send).value.since else pass.checkedAt;
    if !TriesStart(send, pass) then Waiting(after) == Waiting(send)
    else if Waiting(after).Some? then
      Waiting(after).value.since == since && FirstEmpty(pass, Waiting(after).value.slot)
    else forall slot :: !FirstEmpty(pass, slot)
  }

  lemma CheckHolds(send: Send, local: Attempt, pass: Pass, absent: Option<int>)
    requires send.status == Live && send.held == Waiting(send)
    ensures var after := CheckSlot(send, local, pass, absent).0;
            after.status == Live ==>
              after.held == after.record.hold &&
              after.held ==
              if absent.None? then None
              else Some(Hold(if send.held.Some? then send.held.value.since else pass.checkedAt, absent.value))
  {
  }

  lemma TriedHolds(send: Send, pass: Pass)
    requires Sane(send) && send.status == Live && send.held == Waiting(send) && TriesStart(send, pass)
    ensures Advance(send, pass).0.status == Live ==> HoldAfter(send, pass, Advance(send, pass).0)
  {
    forall s
      ensures StartOutcome(pass) == Absent(s) <==> FirstEmpty(pass, s)
    {
      StartOutcomeMeans(pass, s);
    }
    var local := if send.record.pending then send.record else send.record.(lastFailure := Some(NoActive));
    match StartOutcome(pass)
    case Absent(slot) => CheckHolds(send, local, pass, Some(slot));
    case NotSent => CheckHolds(send, local, pass, None);
    case Sent => CheckHolds(send, local, pass, None);
  }

  lemma OtherHolds(send: Send, pass: Pass)
    requires Sane(send) && send.status == Live && send.held == Waiting(send) && !TriesStart(send, pass)
    ensures Advance(send, pass).0.status == Live ==> Waiting(Advance(send, pass).0) == Waiting(send)
  {
  }

  /** While the send lives, its hold begins, moves and ends with its slot checks and with nothing else. */
  lemma HoldFollowsChecks(send: Send, pass: Pass)
    requires Sane(send) && send.status == Live && Advance(send, pass).0.status == Live
    ensures HoldAfter(send, pass, Advance(send, pass).0)
  {
    var adopted := Adopt(send);
    assert Adopt(adopted) == adopted;
    if TriesStart(adopted, pass) {
      TriedHolds(adopted, pass);
    } else {
      OtherHolds(adopted, pass);
    }
  }

  /** A send ends in its pass as confirmed exactly on work seen, as failed exactly on an acked report. */
  lemma PassEndsExactly(send: Send, pass: Pass)
    requires Sane(send) && send.status == Live
    ensures Advance(send, pass).0.status == Confirmed <==> !pass.observedActive && !Refusing(pass) && Working(pass)
    ensures Advance(send, pass).0.status == Failed <==> DeedFor(send, pass).reported && pass.acked
  {
    PassDoesExactly(send, pass);
    if e :| e in Advance(send, pass).1 && e.Reported? {
      FailureNeedsSpentBudget(send, pass, e);
      AckedIsThePass(send, pass, e);
    } else {
      UnreportedLives(send, pass);
    }
  }

  lemma AckedIsThePass(send: Send, pass: Pass, e: Event)
    requires e in Advance(send, pass).1 && e.Reported?
    ensures e.acked == pass.acked
  {
  }

  predicate EndsReported(events: seq<Event>) { events != [] && events[|events| - 1].Reported? }

  lemma CheckFails(send: Send, local: Attempt, pass: Pass, absent: Option<int>)
    requires send.status == Live
    ensures CheckSlot(send, local, pass, absent).0.status == Failed ==>
              EndsReported(CheckSlot(send, local, pass, absent).1)
  {
  }

  lemma RepublishFails(send: Send, pass: Pass)
    requires send.status == Live
    ensures RepublishStep(send, pass).0.status == Failed ==> EndsReported(RepublishStep(send, pass).1)
  {
    match StartOutcome(pass)
    case Absent(slot) => CheckFails(send, send.record, pass, Some(slot));
    case NotSent => CheckFails(send, send.record, pass, None);
    case Sent => CheckFails(send, send.record, pass, None);
  }

  lemma RetryFails(send: Send, pass: Pass)
    requires send.status == Live
    ensures RetryStep(send, pass).0.status == Failed ==> EndsReported(RetryStep(send, pass).1)
  {
    var local := send.record.(lastFailure := Some(NoActive));
    match StartOutcome(pass)
    case Absent(slot) => CheckFails(send, local, pass, Some(slot));
    case NotSent =>
    case Sent => CheckFails(send, local, pass, None);
  }

  lemma UnreportedLives(send: Send, pass: Pass)
    requires Sane(send) && send.status == Live && forall e <- Advance(send, pass).1 :: !e.Reported?
    ensures Advance(send, pass).0.status != Failed
  {
    RepublishFails(Adopt(send), pass);
    RetryFails(Adopt(send), pass);
    EndsHasReport(Advance(send, pass).1);
  }

  lemma EndsHasReport(events: seq<Event>)
    ensures EndsReported(events) ==> exists e <- events :: e.Reported?
  {
    if EndsReported(events) {
      assert events[|events| - 1] in events;
    }
  }

  // ---------------------------------------------------------------------------
  // Which start the record is about
  // ---------------------------------------------------------------------------

  predicate Publishes(events: seq<Event>) { exists e <- events :: e.Published? }

  /** What the last step of a run did, from its trace. */
  function NewEvents(start: Send, first: Time, inputs: seq<Input>): seq<Event>
    requires inputs != []
  {
    var before, after := Trace(start, first, inputs[..|inputs| - 1]), Trace(start, first, inputs);
    if |before| <= |after| then after[|before|..] else []
  }

  /** The id on the printer after the last start that went out and left one, else the id the send began with. */
  function LatestId(start: Send, first: Time, inputs: seq<Input>): Option<string> {
    if inputs == [] then start.record.submissionId
    else
      var last := inputs[|inputs| - 1];
      if last.Passed? && Publishes(NewEvents(start, first, inputs)) && last.pass.freshId.Some? then last.pass.freshId
      else LatestId(start, first, inputs[..|inputs| - 1])
  }

  lemma CheckKeepsId(send: Send, local: Attempt, pass: Pass, absent: Option<int>)
    requires local.submissionId == send.record.submissionId && local.gcodeFile == send.record.gcodeFile
    ensures CheckSlot(send, local, pass, absent).0.record.submissionId == send.record.submissionId
    ensures CheckSlot(send, local, pass, absent).0.record.gcodeFile == send.record.gcodeFile
    ensures !Publishes(CheckSlot(send, local, pass, absent).1)
  {
  }

  /** The id and file name of the record, after what this step did. */
  ghost predicate IdsAfter(r: Attempt, pass: Pass, s: Attempt, events: seq<Event>) {
    s.gcodeFile == r.gcodeFile &&
    s.submissionId == if Publishes(events) && pass.freshId.Some? then pass.freshId else r.submissionId
  }

  lemma StartIds(send: Send, local: Attempt, pass: Pass)
    requires local.submissionId == send.record.submissionId && local.gcodeFile == send.record.gcodeFile
    requires local.phase == send.record.phase
    ensures var step := if send.record.pending then RepublishStep(send, pass) else RetryStep(send, pass);
            IdsAfter(send.record, pass, step.0.record, step.1)
  {
    var retried := send.record.(lastFailure := Some(NoActive));
    var from := if send.record.pending then send.record else retried;
    match StartOutcome(pass)
    case Absent(slot) => CheckKeepsId(send, from, pass, Some(slot));
    case NotSent => CheckKeepsId(send, from, pass, None);
    case Sent =>
      CheckKeepsId(send, from, pass, None);
      assert Published(pass.now) in [Published(pass.now)] + CheckSlot(send, from, pass, None).1;
  }

  lemma PassIds(send: Send, pass: Pass)
    requires Sane(send)
    ensures IdsAfter(send.record, pass, Advance(send, pass).0.record, Advance(send, pass).1)
  {
    if send.status == Live && !pass.observedActive {
      StartIds(Adopt(send), send.record, pass);
    }
  }

  lemma TraceIsLonger(start: Send, first: Time, inputs: seq<Input>)
    requires inputs != []
    ensures NewEvents(start, first, inputs) == Next(After(start, inputs[..|inputs| - 1]), inputs[|inputs| - 1]).1
  {
  }

  /**
   * Over any run the record holds the submission id of the last start that went out and left one,
   * else the first one's; and the file name it compares with is the one the send began with.
   */
  lemma {:induction false} IdIsLatest(start: Send, first: Time, inputs: seq<Input>)
    requires Begun(start, first)
    ensures After(start, inputs).record.submissionId == LatestId(start, first, inputs)
    ensures After(start, inputs).record.gcodeFile == start.record.gcodeFile
  {
    if inputs != [] {
      var last := |inputs| - 1;
      var earlier := inputs[..last];
      IdIsLatest(start, first, earlier);
      RunIsSane(start, first, earlier);
      TraceIsLonger(start, first, inputs);
      if inputs[last].Passed? {
        PassIds(After(start, earlier), inputs[last].pass);
      }
    }
  }

  /**
   * A send in plain phase A whose printer, idle and taking commands, shows the id of the last start
   * enters phase B in that pass.
   */
  lemma EchoOfLastStartIsSeen(start: Send, first: Time, inputs: seq<Input>, pass: Pass)
    requires Begun(start, first) && After(start, inputs).status == Live && Plain(After(start, inputs).record)
    requires Open(pass) && ShowsId(pass, LatestId(start, first, inputs))
    ensures var after := After(start, inputs + [Passed(pass)]);
            after.status == Live && after.record.phase == B && after.record.startedAt == pass.now &&
            after.record.attempts == After(start, inputs).record.attempts
  {
    IdIsLatest(start, first, inputs);
    assert (inputs + [Passed(pass)])[..|inputs|] == inputs;
  }
}
