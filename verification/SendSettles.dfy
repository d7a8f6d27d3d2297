/**
 * When a pass acts, and how long a send can go on: a connected one, whose failure reports are
 * acked and whose passes keep coming, ends within a fixed time.
 */
module SendSettles {
  import opened Base
  import opened SendWatchdog
  import opened SendRuns

  // ---------------------------------------------------------------------------
  // When a pass does nothing
  // ---------------------------------------------------------------------------

  predicate DoesNothing(send: Send, pass: Pass) {
    var (after, events) := Advance(send, pass);
    after.status == send.status && after.record == send.record && Waiting(after) == Waiting(send) && events == []
  }

  /** The current wait goes on: nothing was seen of the printer, and its time is not up or may not be used. */
  predicate KeepsWaiting(send: Send, pass: Pass) {
    var r := send.record;
    var age := pass.now - r.startedAt;
    if r.pending then
      r.attempts < MAX_ATTEMPTS && !pass.connected && (age < PHASE_A_SECONDS || Waiting(send).Some?)
    else if r.phase == B then age < PHASE_B_SECONDS
    else
      !Echoed(pass.snapshot, r.submissionId) &&
      (age < PHASE_A_SECONDS ||
       (age < RESET_HOLD_MAX_SECONDS && pass.silent && r.attempts < MAX_ATTEMPTS &&
        !GcodeFileChanged(r, pass.snapshot)))
  }

  /** A pass over a live send does nothing if and only if the send keeps waiting on a printer not seen active. */
  lemma PassActsUnlessWaiting(send: Send, pass: Pass)
    requires Sane(send) && send.status == Live
    ensures DoesNothing(send, pass) <==>
            !pass.observedActive && !IsActive(pass.snapshot) && !CommandsAreRejected(pass.snapshot) &&
            KeepsWaiting(send, pass)
  {
    if !pass.observedActive {
      var adopted := Adopt(send);
      var action := Decide(adopted.record, pass.snapshot, pass.now);
      if action == Republish || (action == ResetRetry && adopted.record.pending && adopted.held.Some?) {
        RepublishActs(adopted, pass);
      } else if action == ResetRetry {
        ResetActs(adopted, pass);
      } else if action == Retry {
        RetryActs(adopted, pass);
      }
    }
  }

  lemma RepublishActs(send: Send, pass: Pass)
    ensures if pass.connected then RepublishStep(send, pass).1 != [] else RepublishStep(send, pass) == (send, [])
  {
    var outcome := StartOutcome(pass);
    assert outcome.Sent? || outcome.NotSent? || outcome.Absent?;
  }

  lemma RetryActs(send: Send, pass: Pass)
    ensures RetryStep(send, pass).1 != []
  {
    var outcome := StartOutcome(pass);
    assert outcome.Sent? || outcome.NotSent? || outcome.Absent?;
  }

  lemma ResetActs(send: Send, pass: Pass)
    ensures if !send.record.pending && pass.now - send.record.startedAt < RESET_HOLD_MAX_SECONDS && pass.silent
            then ResetStep(send, pass) == (send, []) else ResetStep(send, pass).1 != []
  {
  }

  // ---------------------------------------------------------------------------
  // What never ends, and what has ended for good
  // ---------------------------------------------------------------------------

  /** A pass that meets an idle printer and a session that is down. */
  predicate Offline(input: Input) {
    input.Restarted? ||
    (!input.pass.connected && !input.pass.observedActive &&
     !CommandsAreRejected(input.pass.snapshot) && !IsActive(input.pass.snapshot))
  }

  predicate HeldPending(send: Send) {
    Sane(send) && send.status == Live && send.record.pending && send.record.attempts < MAX_ATTEMPTS &&
      Waiting(send).Some?
  }

  lemma HeldOfflineStays(send: Send, input: Input)
    requires HeldPending(send) && Offline(input)
    ensures var (after, events) := Next(send, input);
            HeldPending(after) && after.record == send.record && Waiting(after) == Waiting(send) && events == []
  {
    if input.Passed? {
      HeldOfflineNeverMoves(Adopt(send), input.pass);
      assert Advance(send, input.pass) == Advance(Adopt(send), input.pass);
    }
  }

  /**
   * A republish held on an absent tray waits for ever while the session stays down: no number
   * of passes or restarts, however late, moves it or reports anything.
   */
  lemma {:induction false} HeldOfflineWaitsForever(send: Send, inputs: seq<Input>)
    requires HeldPending(send) && forall k :: 0 <= k < |inputs| ==> Offline(inputs[k])
    ensures var after := After(send, inputs);
            HeldPending(after) && after.record == send.record && Waiting(after) == Waiting(send)
    ensures forall first :: Trace(send, first, inputs) == [Published(first)]
  {
    if inputs != [] {
      var earlier := inputs[..|inputs| - 1];
      HeldOfflineWaitsForever(send, earlier);
      HeldOfflineStays(After(send, earlier), inputs[|inputs| - 1]);
    }
  }

  predicate Over(send: Send) { send.status != Live }

  lemma OverStays(send: Send, input: Input)
    requires Over(send)
    ensures Next(send, input).0.status == send.status && Next(send, input).0.record == send.record
    ensures forall e <- Next(send, input).1 :: send.status == Confirmed && e.Dispatched?
  {
  }

  /** `trace` goes on from `earlier` with nothing but dispatch reports. */
  ghost predicate OnlyDispatches(earlier: seq<Event>, trace: seq<Event>) {
    earlier <= trace && forall e <- trace[|earlier|..] :: e.Dispatched?
  }

  lemma DispatchesGoOn(earlier: seq<Event>, trace: seq<Event>, events: seq<Event>)
    requires OnlyDispatches(earlier, trace) && forall e <- events :: e.Dispatched?
    ensures OnlyDispatches(earlier, trace + events)
  {
    assert (trace + events)[|earlier|..] == trace[|earlier|..] + events;
  }

  lemma TraceGrows(start: Send, first: Time, inputs: seq<Input>)
    requires inputs != []
    ensures var earlier := inputs[..|inputs| - 1];
            Trace(start, first, inputs) ==
            Trace(start, first, earlier) + Next(After(start, earlier), inputs[|inputs| - 1]).1
  {
  }

  /** A confirmed or failed send stays so over any run, and does nothing but repeat a dispatch report. */
  lemma {:induction false} OverForGood(start: Send, first: Time, inputs: seq<Input>, n: nat)
    requires n <= |inputs| && Over(After(start, inputs[..n]))
    ensures After(start, inputs).status == After(start, inputs[..n]).status
    ensures OnlyDispatches(Trace(start, first, inputs[..n]), Trace(start, first, inputs))
  {
    if n == |inputs| {
      assert inputs[..n] == inputs;
    } else {
      var last := |inputs| - 1;
      var init := inputs[..last];
      assert init[..n] == inputs[..n];
      OverForGood(start, first, init, n);
      OverStays(After(start, init), inputs[last]);
      TraceGrows(start, first, inputs);
      DispatchesGoOn(Trace(start, first, inputs[..n]), Trace(start, first, init),
        Next(After(start, init), inputs[last]).1);
    }
  }

  // ---------------------------------------------------------------------------
  // A bound on the life of a connected send
  // ---------------------------------------------------------------------------

  /** A pass with the session up and failure reports acked, on a printer not yet seen active. */
  predicate Prompt(pass: Pass, gap: Time) {
    pass.connected && pass.acked && !pass.observedActive && pass.now <= pass.checkedAt <= pass.now + gap
  }

  function Clock(start: Send, inputs: seq<Input>): Time {
    if inputs == [] then start.record.startedAt
    else
      var last := inputs[|inputs| - 1];
      if last.Passed? then last.pass.now else Clock(start, inputs[..|inputs| - 1])
  }

  /** Prompt passes, none later than `gap` after the one before. Restarts may come in between. */
  predicate Regular(start: Send, inputs: seq<Input>, gap: Time) {
    inputs == [] ||
    (var earlier, last := inputs[..|inputs| - 1], inputs[|inputs| - 1];
     Regular(start, earlier, gap) &&
     (last.Passed? ==>
        Prompt(last.pass, gap) && Clock(start, earlier) <= last.pass.now <= Clock(start, earlier) + gap))
  }

  /** How long a live send has been in its phase, just after a pass at `now`. */
  predicate InTime(send: Send, now: Time, gap: Time) {
    var r := send.record;
    var hold := Waiting(send);
    r.startedAt <= now &&
    if r.pending then
      if hold.None? then now <= r.startedAt + PHASE_A_SECONDS + SLOT_HOLD_SECONDS + 3.0 * gap
      else hold.value.since <= r.startedAt + PHASE_A_SECONDS + 2.0 * gap && now <= hold.value.since + SLOT_HOLD_SECONDS
    else if r.phase == B then
      if hold.None? then now <= r.startedAt + PHASE_B_SECONDS
      else
        r.startedAt + PHASE_B_SECONDS <= now <= hold.value.since + SLOT_HOLD_SECONDS &&
        hold.value.since <= r.startedAt + PHASE_B_SECONDS + 2.0 * gap
    else hold.None? && now <= r.startedAt + RESET_HOLD_MAX_SECONDS
  }

  /** The longest a phase can last, to the pass that ends it. */
  function Slice(gap: Time): Time { PHASE_B_SECONDS + SLOT_HOLD_SECONDS + 4.0 * gap }

  /** One pass either leaves the phase running in time, or starts the next one. */
  predicate Keeps(before: Send, after: Send, now: Time, gap: Time) {
    after.status == Live ==>
      InTime(after, now, gap) &&
      (if SameProgress(before.record, after.record) then after.record.startedAt == before.record.startedAt
       else after.record.startedAt == now)
  }

  /** Where a live send stands at a pass, `gap` at most after the last one. */
  predicate Stands(send: Send, was: Time, pass: Pass, gap: Time) {
    Sane(send) && send.status == Live && send.held == Waiting(send) && gap >= 0.0 && InTime(send, was, gap) &&
    Prompt(pass, gap) && was <= pass.now <= was + gap
  }

  lemma CheckKeepsTime(send: Send, local: Attempt, was: Time, pass: Pass, gap: Time, absent: Option<int>)
    requires Stands(send, was, pass, gap) && SameProgress(local, send.record) &&
             local.startedAt == send.record.startedAt
    requires send.record.pending || (absent.Some? && send.record.phase == B)
    requires send.record.phase == B ==> pass.now - send.record.startedAt >= PHASE_B_SECONDS
    requires send.held.None? && send.record.pending ==> pass.now - send.record.startedAt < PHASE_A_SECONDS
    ensures Keeps(send, CheckSlot(send, local, pass, absent).0, pass.now, gap)
  {
    CheckSlotShape(send, local, pass, absent);
  }

  lemma SentKeepsTime(send: Send, local: Attempt, pass: Pass, gap: Time)
    requires send.status == Live && gap >= 0.0 && local.attempts == send.record.attempts
    ensures var checked := CheckSlot(send, local, pass, None).0;
            checked.held.None? && checked.record.hold.None?
    ensures var checked := CheckSlot(send, local, pass, None).0;
            Keeps(send, checked.(record := StartAgain(checked.record, pass)), pass.now, gap)
    ensures var checked := CheckSlot(send, local, pass, None).0;
            Keeps(send, checked.(record := StartAgain(local.(hold := checked.held), pass)), pass.now, gap)
  {
  }

  lemma RepublishKeepsTime(send: Send, was: Time, pass: Pass, gap: Time)
    requires Stands(send, was, pass, gap) && send.record.pending
    requires send.held.None? ==> pass.now - send.record.startedAt < PHASE_A_SECONDS
    ensures Keeps(send, RepublishStep(send, pass).0, pass.now, gap)
  {
    match StartOutcome(pass)
    case Absent(slot) => CheckKeepsTime(send, send.record, was, pass, gap, Some(slot));
    case NotSent => CheckKeepsTime(send, send.record, was, pass, gap, None);
    case Sent => SentKeepsTime(send, send.record, pass, gap);
  }

  lemma RetryKeepsTime(send: Send, was: Time, pass: Pass, gap: Time)
    requires Stands(send, was, pass, gap) && !send.record.pending && send.record.phase == B
    requires pass.now - send.record.startedAt >= PHASE_B_SECONDS
    ensures Keeps(send, RetryStep(send, pass).0, pass.now, gap)
  {
    var local := send.record.(lastFailure := Some(NoActive));
    match StartOutcome(pass)
    case Absent(slot) => CheckKeepsTime(send, local, was, pass, gap, Some(slot));
    case NotSent =>
    case Sent => SentKeepsTime(send, local, pass, gap);
  }

  lemma ResetKeepsTime(send: Send, was: Time, pass: Pass, gap: Time)
    requires Stands(send, was, pass, gap) && send.record.phase == A && send.held.None?
    ensures Keeps(send, ResetStep(send, pass).0, pass.now, gap)
  {
  }

  lemma PassKeepsTime(send: Send, was: Time, pass: Pass, gap: Time)
    requires Sane(send) && send.status == Live && gap >= 0.0 && InTime(send, was, gap)
    requires Prompt(pass, gap) && was <= pass.now <= was + gap
    ensures Keeps(send, Advance(send, pass).0, pass.now, gap)
  {
    var adopted := Adopt(send);
    assert Stands(adopted, was, pass, gap);
    var action := Decide(adopted.record, pass.snapshot, pass.now);
    if action == Republish || (action == ResetRetry && adopted.record.pending && adopted.held.Some?) {
      RepublishKeepsTime(adopted, was, pass, gap);
    } else if action == ResetRetry {
      ResetKeepsTime(adopted, was, pass, gap);
    } else if action == Retry {
      RetryKeepsTime(adopted, was, pass, gap);
    }
  }

  /** `phases` whole slices. */
  function Allowance(phases: nat, gap: Time): Time {
    if phases == 0 then 0.0 else Allowance(phases - 1, gap) + Slice(gap)
  }

  lemma {:induction false} AllowanceGrows(a: nat, b: nat, gap: Time)
    requires a <= b && gap >= 0.0
    ensures Allowance(a, gap) <= Allowance(b, gap)
    ensures a < b ==> Allowance(a, gap) + Slice(gap) <= Allowance(b, gap)
    decreases b
  {
    if a < b {
      AllowanceGrows(a, b - 1, gap);
    }
  }

  lemma InTimeFitsSlice(send: Send, now: Time, next: Time, gap: Time)
    requires InTime(send, now, gap) && gap >= 0.0 && next <= now + gap
    ensures next <= send.record.startedAt + Slice(gap)
  {
  }

  /** The phases a send can have behind it, and the slices they may have taken. */
  predicate OnSchedule(start: Send, send: Send, now: Time, gap: Time) {
    Rank(send.record) <= 8 && InTime(send, now, gap) &&
    send.record.startedAt <= start.record.startedAt + Allowance(8 - Rank(send.record), gap)
  }

  lemma ScheduleStep(start: Send, before: Send, after: Send, was: Time, now: Time, gap: Time)
    requires OnSchedule(start, before, was, gap) && was <= now <= was + gap && gap >= 0.0
    requires after.status == Live && Keeps(before, after, now, gap)
    requires if SameProgress(before.record, after.record) then Rank(after.record) == Rank(before.record)
             else Rank(after.record) < Rank(before.record)
    requires 0 < Rank(after.record)
    ensures OnSchedule(start, after, now, gap)
  {
    if !SameProgress(before.record, after.record) {
      InTimeFitsSlice(before, was, now, gap);
      AllowanceGrows(8 - Rank(before.record), 8 - Rank(after.record), gap);
    }
  }

  lemma {:induction false} RunKeepsSchedule(start: Send, first: Time, inputs: seq<Input>, gap: Time)
    requires Begun(start, first) && gap >= 0.0 && Regular(start, inputs, gap)
    ensures After(start, inputs).status == Live ==> OnSchedule(start, After(start, inputs), Clock(start, inputs), gap)
  {
    if inputs != [] {
      var earlier, last := inputs[..|inputs| - 1], inputs[|inputs| - 1];
      var before, after := After(start, earlier), After(start, inputs);
      RunKeepsSchedule(start, first, earlier, gap);
      RunIsSane(start, first, earlier);
      if before.status != Live {
        OverStays(before, last);
      } else if last.Passed? {
        PassKeepsTime(before, Clock(start, earlier), last.pass, gap);
        ProgressLowersRank(before, last.pass);
        if after.status == Live {
          ScheduleStep(start, before, after, Clock(start, earlier), last.pass.now, gap);
        }
      }
    }
  }

  /**
   * A send with its session up, its failure reports acked and a pass at least every `gap`
   * seconds is confirmed or failed within eight slices of its first start, whatever the printer
   * reports, the publishes return and the program restarts.
   */
  lemma SendEndsInTime(start: Send, first: Time, inputs: seq<Input>, gap: Time)
    requires Begun(start, first) && gap >= 0.0 && Regular(start, inputs, gap)
    requires Clock(start, inputs) > start.record.startedAt + 8.0 * Slice(gap)
    ensures After(start, inputs).status in {Confirmed, Failed}
  {
    var send := After(start, inputs);
    RunKeepsSchedule(start, first, inputs, gap);
    RunIsSane(start, first, inputs);
    if send.status == Live {
      InTimeFitsSlice(send, Clock(start, inputs), Clock(start, inputs), gap);
      AllowanceGrows(8 - Rank(send.record), 8, gap);
      EightSlices(gap);
    }
  }

  lemma EightSlices(gap: Time)
    ensures Allowance(8, gap) == 8.0 * Slice(gap)
  {
    assert Allowance(1, gap) == Slice(gap);
    assert Allowance(2, gap) == 2.0 * Slice(gap);
    assert Allowance(3, gap) == 3.0 * Slice(gap);
    assert Allowance(4, gap) == 4.0 * Slice(gap);
    assert Allowance(5, gap) == 5.0 * Slice(gap);
    assert Allowance(6, gap) == 6.0 * Slice(gap);
    assert Allowance(7, gap) == 7.0 * Slice(gap);
  }
}
