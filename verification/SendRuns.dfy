/**
 * Whole runs of one send: any passes, any restarts of the program, from the first start on.
 */
module SendRuns {
  import opened Base
  import opened SendWatchdog

  datatype Input = Passed(pass: Pass) | Restarted

  /** A restart forgets the in-memory hold and nothing else. */
  function Next(send: Send, input: Input): (Send, seq<Event>) {
    match input
    case Passed(pass) => Advance(send, pass)
    case Restarted => (send.(held := None), [])
  }

  function After(start: Send, inputs: seq<Input>): Send {
    if inputs == [] then start else Next(After(start, inputs[..|inputs| - 1]), inputs[|inputs| - 1]).0
  }

  /** What a run did, oldest first; `first` is the publish that began the send. */
  function Trace(start: Send, first: Time, inputs: seq<Input>): seq<Event> {
    if inputs == [] then [Published(first)]
    else
      var earlier := inputs[..|inputs| - 1];
      Trace(start, first, earlier) + Next(After(start, earlier), inputs[|inputs| - 1]).1
  }

  /** `_remember_attempt`: attempt 1 in phase A, stamped no earlier than its publish. */
  predicate Begun(start: Send, first: Time) {
    var r := start.record;
    start.status == Live && start.held.None? && r.hold.None? && r.lastFailure.None? &&
    r.attempts == 1 && r.phase == A && !r.pending && first <= r.startedAt
  }

  /** The clock does not run backwards, from one read to the next. */
  ghost predicate Timely(start: Send, inputs: seq<Input>) {
    (forall i :: 0 <= i < |inputs| && inputs[i].Passed? ==>
       start.record.startedAt <= inputs[i].pass.now <= inputs[i].pass.checkedAt) &&
    (forall i, j :: 0 <= i < j < |inputs| && inputs[i].Passed? && inputs[j].Passed? ==>
       inputs[i].pass.checkedAt <= inputs[j].pass.now)
  }

  /** What every reachable send looks like. */
  predicate Sane(send: Send) {
    var r := send.record;
    1 <= r.attempts <= MAX_ATTEMPTS && (r.pending ==> r.phase == A) &&
    (r.lastFailure.Some? ==> r.lastFailure.value in {NoEcho, NoActive}) &&
    (send.status == Live ==> send.held.None? || send.held == r.hold)
  }

  // ---------------------------------------------------------------------------
  // What one pass can do
  // ---------------------------------------------------------------------------

  predicate Marks(event: Event) { event.Published? || event.Reset? || event.EnteredB? }

  ghost predicate Quiet(events: seq<Event>) { forall e <- events :: !Marks(e) }

  predicate SameProgress(r: Attempt, s: Attempt) {
    r.attempts == s.attempts && r.phase == s.phase && r.pending == s.pending
  }

  ghost predicate Idles(before: Send, after: Send, events: seq<Event>) {
    SameProgress(before.record, after.record) && after.record.startedAt == before.record.startedAt && Quiet(events)
  }

  predicate EntersB(before: Send, after: Send, events: seq<Event>, now: Time) {
    var r, s := before.record, after.record;
    !r.pending && r.phase == A && !s.pending && s.phase == B && s.attempts == r.attempts &&
    s.startedAt == now && events == [EnteredB(now)]
  }

  predicate Resets(before: Send, after: Send, events: seq<Event>, now: Time) {
    var r, s := before.record, after.record;
    r.phase == A && now - r.startedAt >= PHASE_A_SECONDS && s.phase == A && s.pending && s.startedAt == now &&
    s.attempts == (if r.pending then r.attempts + 1 else r.attempts) && s.attempts < MAX_ATTEMPTS &&
    events == [Reset(now)]
  }

  ghost predicate Exhausts(before: Send, after: Send, events: seq<Event>) {
    var r, s := before.record, after.record;
    r.pending && s.pending && s.phase == r.phase && s.attempts == r.attempts + 1 == MAX_ATTEMPTS &&
    s.startedAt == r.startedAt && Quiet(events)
  }

  predicate Publishes(before: Send, after: Send, events: seq<Event>, pass: Pass) {
    var r, s := before.record, after.record;
    (r.pending || (r.phase == B && pass.now - r.startedAt >= PHASE_B_SECONDS)) &&
    r.attempts < MAX_ATTEMPTS && s.attempts == r.attempts + 1 && s.phase == A && !s.pending &&
    s.startedAt == pass.now && events == [Published(pass.now), Checked(pass.checkedAt, None)]
  }

  ghost predicate Moves(before: Send, after: Send, events: seq<Event>, pass: Pass) {
    Idles(before, after, events) || EntersB(before, after, events, pass.now) ||
    Resets(before, after, events, pass.now) || Exhausts(before, after, events) ||
    Publishes(before, after, events, pass)
  }

  lemma CheckSlotShape(send: Send, local: Attempt, pass: Pass, absent: Option<int>)
    requires send.status == Live && SameProgress(local, send.record) && local.startedAt == send.record.startedAt
    ensures Idles(send, CheckSlot(send, local, pass, absent).0, CheckSlot(send, local, pass, absent).1)
    ensures absent.None? ==> CheckSlot(send, local, pass, absent).1 == [Checked(pass.checkedAt, None)]
  {
  }

  /** Every pass is one of five moves. */
  lemma AdvanceMoves(send: Send, pass: Pass)
    requires Sane(send)
    ensures Moves(send, Advance(send, pass).0, Advance(send, pass).1, pass)
    ensures Sane(Advance(send, pass).0)
  {
    if send.status == Live && !pass.observedActive {
      var adopted := Adopt(send);
      var action := Decide(adopted.record, pass.snapshot, pass.now);
      if action == Republish || (action == ResetRetry && adopted.record.pending && adopted.held.Some?) {
        RepublishMoves(adopted, pass);
      } else if action == ResetRetry {
        ResetMoves(adopted, pass);
      } else if action == Retry {
        RetryMoves(adopted, pass);
      }
    }
  }

  lemma RepublishMoves(send: Send, pass: Pass)
    requires Sane(send) && send.status == Live && send.record.pending && send.record.attempts < MAX_ATTEMPTS
    ensures Moves(send, RepublishStep(send, pass).0, RepublishStep(send, pass).1, pass)
    ensures Sane(RepublishStep(send, pass).0)
  {
    match StartOutcome(pass)
    case Absent(slot) => CheckSlotShape(send, send.record, pass, Some(slot));
    case NotSent => CheckSlotShape(send, send.record, pass, None);
    case Sent => CheckSlotShape(send, send.record, pass, None);
  }

  lemma RetryMoves(send: Send, pass: Pass)
    requires Sane(send) && send.status == Live && send.record.phase == B && send.record.attempts < MAX_ATTEMPTS
    requires pass.now - send.record.startedAt >= PHASE_B_SECONDS
    ensures Moves(send, RetryStep(send, pass).0, RetryStep(send, pass).1, pass)
    ensures Sane(RetryStep(send, pass).0)
  {
    var local := send.record.(lastFailure := Some(NoActive));
    match StartOutcome(pass)
    case Absent(slot) => CheckSlotShape(send, local, pass, Some(slot));
    case NotSent => CheckSlotShape(send, local, pass, None);
    case Sent => CheckSlotShape(send, local, pass, None);
  }

  lemma ResetMoves(send: Send, pass: Pass)
    requires Sane(send) && send.status == Live && send.record.phase == A && send.record.attempts < MAX_ATTEMPTS
    requires pass.now - send.record.startedAt >= PHASE_A_SECONDS
    ensures Moves(send, ResetStep(send, pass).0, ResetStep(send, pass).1, pass)
    ensures Sane(ResetStep(send, pass).0)
  {
  }

  lemma {:induction false} RunIsSane(start: Send, first: Time, inputs: seq<Input>)
    requires Begun(start, first)
    ensures Sane(After(start, inputs))
  {
    if inputs != [] {
      var last := |inputs| - 1;
      RunIsSane(start, first, inputs[..last]);
      if inputs[last].Passed? {
        AdvanceMoves(After(start, inputs[..last]), inputs[last].pass);
      }
    }
  }

  // ---------------------------------------------------------------------------
  // Termination: progress is bounded, whatever the clock and the reports do
  // ---------------------------------------------------------------------------

  function Rank(r: Attempt): int {
    3 * (MAX_ATTEMPTS - r.attempts) + (if r.phase == A && !r.pending then 2 else 1)
  }

  function Changes(start: Send, inputs: seq<Input>): nat {
    if inputs == [] then 0
    else
      var before := After(start, inputs[..|inputs| - 1]);
      Changes(start, inputs[..|inputs| - 1]) +
      if SameProgress(before.record, After(start, inputs).record) then 0 else 1
  }

  /** A pass that changes phase, attempts or the pending republish strictly lowers the rank. */
  lemma ProgressLowersRank(send: Send, pass: Pass)
    requires Sane(send)
    ensures var after := Advance(send, pass).0.record;
            0 < Rank(after) && (if SameProgress(send.record, after) then Rank(after) == Rank(send.record)
                                else Rank(after) < Rank(send.record))
  {
    AdvanceMoves(send, pass);
  }

  /** So a send makes at most seven such changes, over any run at all. */
  lemma {:induction false} ProgressIsBounded(start: Send, first: Time, inputs: seq<Input>)
    requires Begun(start, first)
    ensures Changes(start, inputs) <= Rank(start.record) - Rank(After(start, inputs).record) <= 7
  {
    RunIsSane(start, first, inputs);
    if inputs != [] {
      var last := |inputs| - 1;
      ProgressIsBounded(start, first, inputs[..last]);
      RunIsSane(start, first, inputs[..last]);
      if inputs[last].Passed? {
        ProgressLowersRank(After(start, inputs[..last]), inputs[last].pass);
      }
    }
  }

  /** One pass: a republish waiting on an absent tray while the session is down does not move. */
  lemma HeldOfflineNeverMoves(send: Send, pass: Pass)
    requires send.status == Live && send.record.pending && send.record.attempts < MAX_ATTEMPTS
    requires send.held.Some? && !pass.connected && !pass.observedActive
    requires !CommandsAreRejected(pass.snapshot) && !IsActive(pass.snapshot)
    ensures Advance(send, pass) == (send, [])
  {
  }

  // ---------------------------------------------------------------------------
  // Safety over whole runs
  // ---------------------------------------------------------------------------

  function CountPublished(trace: seq<Event>): nat {
    if trace == [] then 0
    else CountPublished(trace[..|trace| - 1]) + if trace[|trace| - 1].Published? then 1 else 0
  }

  function CountResets(trace: seq<Event>): nat {
    if trace == [] then 0
    else CountResets(trace[..|trace| - 1]) + if trace[|trace| - 1].Reset? then 1 else 0
  }

  lemma {:induction false} CountsAdd(a: seq<Event>, b: seq<Event>)
    ensures CountPublished(a + b) == CountPublished(a) + CountPublished(b)
    ensures CountResets(a + b) == CountResets(a) + CountResets(b)
  {
    if b == [] {
      assert a + b == a;
    } else {
      CountsAdd(a, b[..|b| - 1]);
      assert (a + b)[..|a + b| - 1] == a + b[..|b| - 1];
    }
  }

  lemma {:induction false} QuietCounts(events: seq<Event>)
    requires Quiet(events)
    ensures CountPublished(events) == 0 && CountResets(events) == 0
  {
    if events != [] {
      QuietCounts(events[..|events| - 1]);
      assert events[|events| - 1] in events;
    }
  }

  /** Publishes against attempts, hard resets against attempts. */
  predicate Counted(send: Send, trace: seq<Event>) {
    CountPublished(trace) <= send.record.attempts &&
    CountResets(trace) <= send.record.attempts - 1 +
      (if send.record.pending && send.record.attempts < MAX_ATTEMPTS then 1 else 0)
  }

  lemma CountedStep(before: Send, after: Send, trace: seq<Event>, events: seq<Event>, pass: Pass)
    requires Counted(before, trace) && Moves(before, after, events, pass)
    ensures Counted(after, trace + events)
  {
    CountsAdd(trace, events);
    if Quiet(events) {
      QuietCounts(events);
    } else {
      var e := events[0];
      assert events[..|events| - 1] == [] || events[..|events| - 1] == [e];
      CountOne(e);
      if |events| == 2 {
        assert events == [e] + [events[1]];
        CountsAdd([e], [events[1]]);
        CountOne(events[1]);
      } else {
        assert events == [e];
      }
    }
  }

  lemma CountOne(e: Event)
    ensures CountPublished([e]) == (if e.Published? then 1 else 0)
    ensures CountResets([e]) == (if e.Reset? then 1 else 0)
  {
    assert [e][..0] == [];
  }

  /**
   * Over any run: publishes never exceed attempts, attempts never exceed three, and there are at
   * most two hard resets.
   */
  lemma {:induction false} AttemptBudgetHolds(start: Send, first: Time, inputs: seq<Input>)
    requires Begun(start, first)
    ensures var send := After(start, inputs);
            var trace := Trace(start, first, inputs);
            Counted(send, trace) && CountPublished(trace) <= send.record.attempts <= MAX_ATTEMPTS &&
            CountResets(trace) <= MAX_ATTEMPTS - 1
  {
    RunIsSane(start, first, inputs);
    if inputs == [] {
      CountOne(Published(first));
    } else {
      var last := |inputs| - 1;
      var earlier := inputs[..last];
      AttemptBudgetHolds(start, first, earlier);
      RunIsSane(start, first, earlier);
      var before := After(start, earlier);
      if inputs[last].Passed? {
        AdvanceMoves(before, inputs[last].pass);
        CountedStep(before, After(start, inputs), Trace(start, first, earlier), Advance(before, inputs[last].pass).1,
          inputs[last].pass);
      } else {
        assert Trace(start, first, inputs) == Trace(start, first, earlier);
      }
    }
  }

  /** Two publishes of one send are at least a phase A apart. */
  ghost predicate Spaced(trace: seq<Event>) {
    forall i, j :: 0 <= i < j < |trace| && trace[i].Published? && trace[j].Published? ==>
      trace[j].at - trace[i].at >= PHASE_A_SECONDS
  }

  /** No hard reset between an echo and the next publish. */
  ghost predicate EchoShielded(trace: seq<Event>) {
    forall i, j :: 0 <= i < j < |trace| && trace[i].EnteredB? && trace[j].Reset? ==> PublishedBetween(trace, i, j)
  }

  ghost predicate PublishedBetween(trace: seq<Event>, i: int, j: int) {
    exists k :: i < k < j && 0 <= k < |trace| && trace[k].Published?
  }

  ghost predicate Paced(send: Send, trace: seq<Event>, clock: Time) {
    Spaced(trace) && EchoShielded(trace) && send.record.startedAt <= clock &&
    (forall i :: 0 <= i < |trace| && trace[i].Published? ==>
       trace[i].at + (if send.record.pending then PHASE_A_SECONDS else 0.0) <= send.record.startedAt) &&
    (forall i :: 0 <= i < |trace| && trace[i].EnteredB? ==>
       send.record.phase == B || PublishedBetween(trace, i, |trace|))
  }

  lemma PacedQuiet(before: Send, after: Send, trace: seq<Event>, events: seq<Event>, clock: Time, now: Time)
    requires Paced(before, trace, clock) && clock <= now && Quiet(events)
    requires after.record.pending == before.record.pending && after.record.phase == before.record.phase
    requires after.record.startedAt == before.record.startedAt
    ensures Paced(after, trace + events, now)
  {
    var longer := trace + events;
    forall i | |trace| <= i < |longer|
      ensures !Marks(longer[i])
    {
      assert longer[i] == events[i - |trace|];
    }
    ShieldsExtend(trace, events);
  }

  lemma ShieldsExtend(trace: seq<Event>, events: seq<Event>)
    ensures forall i, j :: 0 <= i < j <= |trace| && PublishedBetween(trace, i, j) ==>
            PublishedBetween(trace + events, i, j)
    ensures forall i :: 0 <= i < |trace| && PublishedBetween(trace, i, |trace|) ==>
              PublishedBetween(trace + events, i, |trace + events|)
  {
    forall i, j | 0 <= i < j <= |trace| && PublishedBetween(trace, i, j)
      ensures PublishedBetween(trace + events, i, j)
      ensures PublishedBetween(trace + events, i, |trace + events|)
    {
      var k :| i < k < j && 0 <= k < |trace| && trace[k].Published?;
      assert (trace + events)[k] == trace[k];
    }
  }

  lemma PacedStep(before: Send, after: Send, trace: seq<Event>, events: seq<Event>, pass: Pass, clock: Time)
    requires Sane(before) && Paced(before, trace, clock) && Moves(before, after, events, pass)
    requires clock <= pass.now
    ensures Paced(after, trace + events, pass.now)
  {
    if Idles(before, after, events) || Exhausts(before, after, events) {
      PacedQuiet(before, after, trace, events, clock, pass.now);
    } else {
      ShieldsExtend(trace, events);
      var longer := trace + events;
      assert forall i :: 0 <= i < |trace| ==> longer[i] == trace[i];
      assert longer[|trace|] == events[0];
      if Publishes(before, after, events, pass) {
        assert longer[|trace| + 1] == events[1] && !Marks(events[1]);
        forall i | 0 <= i < |longer| && longer[i].EnteredB?
          ensures PublishedBetween(longer, i, |longer|)
        {
          assert longer[|trace|].Published?;
        }
      } else if Resets(before, after, events, pass.now) {
        assert |longer| == |trace| + 1;
      } else {
        assert |longer| == |trace| + 1;
      }
    }
  }

  lemma {:induction false} RunIsPaced(start: Send, first: Time, inputs: seq<Input>, clock: Time)
    requires Begun(start, first) && Timely(start, inputs)
    requires start.record.startedAt <= clock
    requires forall i :: 0 <= i < |inputs| && inputs[i].Passed? ==> inputs[i].pass.checkedAt <= clock
    ensures Paced(After(start, inputs), Trace(start, first, inputs), clock)
  {
    if inputs != [] {
      var last := |inputs| - 1;
      var earlier := inputs[..last];
      var before := After(start, earlier);
      var trace := Trace(start, first, earlier);
      if inputs[last].Passed? {
        var pass := inputs[last].pass;
        RunIsPaced(start, first, earlier, pass.now);
        RunIsSane(start, first, earlier);
        AdvanceMoves(before, pass);
        PacedStep(before, After(start, inputs), trace, Advance(before, pass).1, pass, pass.now);
      } else {
        RunIsPaced(start, first, earlier, clock);
        assert Trace(start, first, inputs) == trace;
      }
    }
  }

  function LatestTime(start: Send, inputs: seq<Input>): Time {
    if inputs == [] then start.record.startedAt
    else
      var earlier := LatestTime(start, inputs[..|inputs| - 1]);
      var last := inputs[|inputs| - 1];
      if last.Passed? && last.pass.checkedAt > earlier then last.pass.checkedAt else earlier
  }

  lemma {:induction false} LatestTimeBounds(start: Send, inputs: seq<Input>)
    ensures start.record.startedAt <= LatestTime(start, inputs)
    ensures forall i :: 0 <= i < |inputs| && inputs[i].Passed? ==> inputs[i].pass.checkedAt <= LatestTime(start, inputs)
  {
    if inputs != [] {
      var init := inputs[..|inputs| - 1];
      LatestTimeBounds(start, init);
      assert forall i :: 0 <= i < |init| ==> init[i] == inputs[i];
    }
  }

  /** Over any run whose clock does not go back: publishes are spaced and an echo shields the parse from resets. */
  lemma RunIsSafe(start: Send, first: Time, inputs: seq<Input>)
    requires Begun(start, first) && Timely(start, inputs)
    ensures Spaced(Trace(start, first, inputs)) && EchoShielded(Trace(start, first, inputs))
  {
    LatestTimeBounds(start, inputs);
    RunIsPaced(start, first, inputs, LatestTime(start, inputs));
  }

  // ---------------------------------------------------------------------------
  // The slot hold
  // ---------------------------------------------------------------------------

  /** The hold that counts: the one in memory, else the one a restart will adopt. */
  function Waiting(send: Send): Option<Hold> { if send.held.Some? then send.held else send.record.hold }

  /** Every slot check from `i` on refused on an absent tray, and `i` is the check at `since`. */
  ghost predicate RefusedSince(trace: seq<Event>, i: nat, since: Time) {
    i < |trace| && trace[i].Checked? && trace[i].at == since &&
    forall k :: i <= k < |trace| && trace[k].Checked? ==> trace[k].absent.Some?
  }

  /** The report at `j` follows a window over ten minutes in which every check refused. */
  ghost predicate Justified(trace: seq<Event>, j: nat)
    requires j < |trace| && trace[j].Reported? && trace[j].reason.SlotEmpty?
  {
    exists i: nat :: i < j && RefusedSince(trace[..j], i, trace[i].at) &&
      trace[j].at - trace[i].at > SLOT_HOLD_SECONDS && trace[j - 1] == Checked(trace[j].at, Some(trace[j].reason.slot))
  }

  ghost predicate SlotReportsJustified(trace: seq<Event>) {
    forall j: nat :: j < |trace| && trace[j].Reported? && trace[j].reason.SlotEmpty? ==> Justified(trace, j)
  }

  ghost predicate HoldTracked(send: Send, trace: seq<Event>) {
    send.status == Live && Waiting(send).Some? ==> exists i: nat :: RefusedSince(trace, i, Waiting(send).value.since)
  }

  predicate AboutSlots(event: Event) { event.Checked? || (event.Reported? && event.reason.SlotEmpty?) }

  // How one pass treats the hold.
  ghost predicate NoCheck(before: Send, after: Send, events: seq<Event>) {
    (forall e <- events :: !AboutSlots(e)) && (after.status == Live ==> Waiting(after) == Waiting(before))
  }

  ghost predicate CheckPassed(after: Send, events: seq<Event>) {
    (after.status == Live ==> Waiting(after).None?) && (forall e <- events :: AboutSlots(e) ==> e.Checked?)
  }

  predicate CheckRefused(before: Send, after: Send, events: seq<Event>, at: Time, slot: int) {
    var since := if Waiting(before).Some? then Waiting(before).value.since else at;
    (after.status == Live ==> Waiting(after) == Some(Hold(since, slot))) &&
    (events == [Checked(at, Some(slot))] ||
     (at - since > SLOT_HOLD_SECONDS &&
      exists acked :: events == [Checked(at, Some(slot)), Reported(at, SlotEmpty(slot), acked)]))
  }

  ghost predicate HoldMoves(before: Send, after: Send, events: seq<Event>, at: Time) {
    NoCheck(before, after, events) || CheckPassed(after, events) ||
    exists slot :: CheckRefused(before, after, events, at, slot)
  }

  lemma CheckSlotHolds(send: Send, local: Attempt, pass: Pass, absent: Option<int>)
    requires send.status == Live && send.held == Waiting(send)
    ensures var (after, events) := CheckSlot(send, local, pass, absent);
            if absent.Some? then CheckRefused(send, after, events, pass.checkedAt, absent.value)
            else CheckPassed(after, events)
    ensures CheckSlot(send, local, pass, absent).0.status == Live ==>
              CheckSlot(send, local, pass, absent).0.held == CheckSlot(send, local, pass, absent).0.record.hold
  {
    if absent.Some? {
      var since := if send.held.Some? then send.held.value.since else pass.checkedAt;
      if pass.checkedAt - since > SLOT_HOLD_SECONDS {
        assert CheckSlot(send, local, pass, absent).1 ==
               [Checked(pass.checkedAt, absent), Reported(pass.checkedAt, SlotEmpty(absent.value), pass.acked)];
      }
    }
  }

  lemma RepublishHolds(send: Send, pass: Pass)
    requires send.status == Live && send.held == Waiting(send)
    ensures HoldMoves(send, RepublishStep(send, pass).0, RepublishStep(send, pass).1, pass.checkedAt)
  {
    match StartOutcome(pass)
    case Absent(slot) => CheckSlotHolds(send, send.record, pass, Some(slot));
    case NotSent => CheckSlotHolds(send, send.record, pass, None);
    case Sent => CheckSlotHolds(send, send.record, pass, None);
  }

  lemma RetryHolds(send: Send, pass: Pass)
    requires Sane(send) && send.status == Live && send.held == Waiting(send)
    ensures HoldMoves(send, RetryStep(send, pass).0, RetryStep(send, pass).1, pass.checkedAt)
  {
    var local := send.record.(lastFailure := Some(NoActive));
    match StartOutcome(pass)
    case Absent(slot) => CheckSlotHolds(send, local, pass, Some(slot));
    case NotSent => CheckSlotHolds(send, local, pass, None);
    case Sent => CheckSlotHolds(send, local, pass, None);
  }

  lemma AdvanceHolds(send: Send, pass: Pass)
    requires Sane(send)
    ensures HoldMoves(send, Advance(send, pass).0, Advance(send, pass).1, pass.checkedAt)
  {
    if send.status == Live && !pass.observedActive {
      var adopted := Adopt(send);
      assert adopted.held == Waiting(adopted) == Waiting(send);
      var action := Decide(adopted.record, pass.snapshot, pass.now);
      if action == Republish || (action == ResetRetry && adopted.record.pending && adopted.held.Some?) {
        RepublishHolds(adopted, pass);
        var (after, events) := Advance(send, pass);
        assert forall slot :: CheckRefused(adopted, after, events, pass.checkedAt, slot) ==>
                              CheckRefused(send, after, events, pass.checkedAt, slot);
      } else if action == Retry {
        RetryHolds(adopted, pass);
        var (after, events) := Advance(send, pass);
        assert forall slot :: CheckRefused(adopted, after, events, pass.checkedAt, slot) ==>
                              CheckRefused(send, after, events, pass.checkedAt, slot);
      }
    }
  }

  lemma JustifiedExtends(trace: seq<Event>, events: seq<Event>, j: nat)
    requires j < |trace| && trace[j].Reported? && trace[j].reason.SlotEmpty? && Justified(trace, j)
    ensures (trace + events)[j] == trace[j] && Justified(trace + events, j)
  {
    var longer := trace + events;
    var i: nat :| i < j && RefusedSince(trace[..j], i, trace[i].at) &&
      trace[j].at - trace[i].at > SLOT_HOLD_SECONDS && trace[j - 1] == Checked(trace[j].at, Some(trace[j].reason.slot));
    assert longer[..j] == trace[..j];
    assert longer[i] == trace[i];
  }

  lemma HoldStep(before: Send, after: Send, trace: seq<Event>, events: seq<Event>, at: Time)
    requires HoldTracked(before, trace) && SlotReportsJustified(trace) && HoldMoves(before, after, events, at)
    requires before.status == Live
    ensures HoldTracked(after, trace + events) && SlotReportsJustified(trace + events)
  {
    var longer := trace + events;
    forall j: nat | j < |trace| && trace[j].Reported? && trace[j].reason.SlotEmpty?
      ensures longer[j] == trace[j] && Justified(longer, j)
    {
      JustifiedExtends(trace, events, j);
    }
    if NoCheck(before, after, events) {
      assert forall k :: |trace| <= k < |longer| ==> longer[k] in events;
      if after.status == Live && Waiting(after).Some? {
        var i: nat :| RefusedSince(trace, i, Waiting(after).value.since);
        assert RefusedSince(longer, i, Waiting(after).value.since);
      }
    } else if CheckPassed(after, events) {
      assert forall k :: |trace| <= k < |longer| ==> longer[k] in events;
    } else {
      var slot :| CheckRefused(before, after, events, at, slot);
      HoldRefusedStep(before, after, trace, events, at, slot);
    }
  }

  lemma HoldRefusedStep(before: Send, after: Send, trace: seq<Event>, events: seq<Event>, at: Time, slot: int)
    requires HoldTracked(before, trace) && SlotReportsJustified(trace) && CheckRefused(before, after, events, at, slot)
    requires before.status == Live
    ensures HoldTracked(after, trace + events)
    ensures forall j: nat :: |trace| <= j < |trace + events| && (trace + events)[j].Reported? ==>
              (trace + events)[j].reason.SlotEmpty? && Justified(trace + events, j)
  {
    var longer := trace + events;
    var since := if Waiting(before).Some? then Waiting(before).value.since else at;
    assert longer[|trace|] == Checked(at, Some(slot));
    assert |longer| > |trace| + 1 ==> !longer[|trace| + 1].Checked?;
    var i: nat := |trace|;
    if Waiting(before).Some? {
      i :| RefusedSince(trace, i, since);
      assert longer[i] == trace[i];
    }
    assert RefusedSince(longer, i, since);
    if |events| == 2 {
      var j := |trace| + 1;
      assert longer[..j][i] == longer[i];
      assert forall k :: i <= k < j ==> longer[..j][k] == longer[k];
      assert i < j && RefusedSince(longer[..j], i, longer[i].at);
      assert longer[j] == events[1];
      assert Justified(longer, j);
    }
  }

  lemma SettledStep(before: Send, after: Send, trace: seq<Event>, events: seq<Event>)
    requires HoldTracked(before, trace) && SlotReportsJustified(trace) && forall e <- events :: e.Dispatched?
    requires after.status == Live ==> before.status == Live && Waiting(after) == Waiting(before) && events == []
    ensures HoldTracked(after, trace + events) && SlotReportsJustified(trace + events)
  {
    var longer := trace + events;
    assert events == [] ==> longer == trace;
    assert forall j :: |trace| <= j < |longer| ==> longer[j] in events;
    forall j: nat | j < |trace| && trace[j].Reported? && trace[j].reason.SlotEmpty?
      ensures longer[j] == trace[j] && Justified(longer, j)
    {
      JustifiedExtends(trace, events, j);
    }
  }

  /** `slot_empty` is only ever reported after ten minutes of nothing but refused checks, restarts included. */
  lemma {:induction false} SlotEmptyIsJustified(start: Send, first: Time, inputs: seq<Input>)
    requires Begun(start, first)
    ensures HoldTracked(After(start, inputs), Trace(start, first, inputs))
    ensures SlotReportsJustified(Trace(start, first, inputs))
  {
    if inputs != [] {
      var last := |inputs| - 1;
      var earlier := inputs[..last];
      SlotEmptyIsJustified(start, first, earlier);
      RunIsSane(start, first, earlier);
      var before := After(start, earlier);
      var trace := Trace(start, first, earlier);
      var events := Next(before, inputs[last]).1;
      if inputs[last].Passed? && before.status == Live {
        AdvanceHolds(before, inputs[last].pass);
        HoldStep(before, After(start, inputs), trace, events, inputs[last].pass.checkedAt);
      } else {
        SettledStep(before, After(start, inputs), trace, events);
      }
    }
  }

  /** After any check that leaves the send live, the record on disk and the hold in memory agree. */
  lemma CheckLeavesHoldOnDisk(send: Send, pass: Pass)
    requires Sane(send)
    requires exists e <- Advance(send, pass).1 :: e.Checked?
    ensures Advance(send, pass).0.status == Live ==> Advance(send, pass).0.held == Advance(send, pass).0.record.hold
  {
    var adopted := Adopt(send);
    CheckSlotHolds(adopted, adopted.record, pass, None);
    CheckSlotHolds(adopted, adopted.record.(lastFailure := Some(NoActive)), pass, None);
    var outcome := StartOutcome(pass);
    if outcome.Absent? {
      CheckSlotHolds(adopted, adopted.record, pass, Some(outcome.slot));
      CheckSlotHolds(adopted, adopted.record.(lastFailure := Some(NoActive)), pass, Some(outcome.slot));
    }
  }

  /** So a restart is invisible: the next pass does exactly what it would have done. */
  lemma RestartIsInvisible(start: Send, first: Time, inputs: seq<Input>, send: Send, pass: Pass)
    requires Begun(start, first) && RunsTo(start, inputs, send) && send.status == Live && !pass.observedActive
    ensures Advance(Next(send, Restarted).0, pass) == Advance(send, pass)
  {
    RunIsSane(start, first, inputs);
    assert Adopt(send.(held := None)) == Adopt(send);
  }

  ghost predicate RunsTo(start: Send, inputs: seq<Input>, send: Send) { After(start, inputs) == send }

  // ---------------------------------------------------------------------------
  // Why a send is reported failed
  // ---------------------------------------------------------------------------

  /** A failure other than an empty slot, with commands accepted, and what it takes. */
  predicate Justifiable(before: Attempt, after: Send, pass: Pass, event: Event) {
    event.Reported? ==>
      (event.acked <==> after.status == Failed) &&
      (event.reason.SlotEmpty? || after.record.attempts == MAX_ATTEMPTS ||
       (before.phase == B && StartOutcome(pass) == NotSent))
  }

  lemma CheckReports(send: Send, local: Attempt, pass: Pass, absent: Option<int>)
    requires send.status == Live
    ensures var (after, events) := CheckSlot(send, local, pass, absent);
            forall e <- events :: e.Reported? ==>
              absent.Some? && e.reason == SlotEmpty(absent.value) && (e.acked <==> after.status == Failed)
    ensures absent.None? ==> CheckSlot(send, local, pass, absent).0.status == Live
  {
  }

  lemma RepublishReports(send: Send, pass: Pass)
    requires send.status == Live
    ensures forall e <- RepublishStep(send, pass).1 :: Justifiable(send.record, RepublishStep(send, pass).0, pass, e)
  {
    match StartOutcome(pass)
    case Absent(slot) => CheckReports(send, send.record, pass, Some(slot));
    case NotSent => CheckReports(send, send.record, pass, None);
    case Sent => CheckReports(send, send.record, pass, None);
  }

  lemma RetryReports(send: Send, pass: Pass)
    requires send.status == Live && send.record.phase == B
    ensures forall e <- RetryStep(send, pass).1 :: Justifiable(send.record, RetryStep(send, pass).0, pass, e)
  {
    var local := send.record.(lastFailure := Some(NoActive));
    match StartOutcome(pass)
    case Absent(slot) => CheckReports(send, local, pass, Some(slot));
    case NotSent => CheckReports(send, local, pass, None);
    case Sent => CheckReports(send, local, pass, None);
  }

  lemma ResetReports(send: Send, pass: Pass)
    requires Sane(send) && send.status == Live && send.record.attempts < MAX_ATTEMPTS
    ensures forall e <- ResetStep(send, pass).1 :: Justifiable(send.record, ResetStep(send, pass).0, pass, e)
  {
  }

  /**
   * Apart from an empty slot or refused commands, a send fails only with its budget spent or a
   * phase B retry that did not go out.
   */
  lemma FailureNeedsSpentBudget(send: Send, pass: Pass, e: Event)
    requires Sane(send) && e in Advance(send, pass).1 && e.Reported?
    ensures e.reason.SlotEmpty? || CommandsAreRejected(pass.snapshot) ||
            Advance(send, pass).0.record.attempts == MAX_ATTEMPTS ||
            (send.record.phase == B && StartOutcome(pass) == NotSent)
    ensures e.acked <==> Advance(send, pass).0.status == Failed
  {
    var adopted := Adopt(send);
    var action := Decide(adopted.record, pass.snapshot, pass.now);
    if action == Republish || (action == ResetRetry && adopted.record.pending && adopted.held.Some?) {
      RepublishReports(adopted, pass);
    } else if action == ResetRetry {
      ResetReports(adopted, pass);
    } else if action == Retry {
      RetryReports(adopted, pass);
    }
  }

  // ---------------------------------------------------------------------------
  // What an active printer settles
  // ---------------------------------------------------------------------------

  /** A watchdog pass that sees the printer active confirms the send, and only tells 3DPF of the dispatch. */
  lemma ActiveConfirms(send: Send, pass: Pass)
    requires send.status == Live ==>
               !pass.observedActive && IsActive(pass.snapshot) && !CommandsAreRejected(pass.snapshot)
    requires send.status != Failed
    ensures Advance(send, pass).0.status == Confirmed && Advance(send, pass).1 == [Dispatched(pass.now)]
  {
  }
}
