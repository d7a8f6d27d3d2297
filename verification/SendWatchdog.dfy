/**
 * The two-phase watchdog over one cloud send (`decide` in bridge/send_pipeline.py and
 * `_advance_cloud_send` with its slot hold in bridge/app.py).
 *
 * One pass reads the clock, a printer snapshot and the outcome of whatever it tries; all of
 * them are arbitrary. The attempt record is on disk, the slot hold in memory.
 */
module SendWatchdog {
  import opened Base
  import Ams

  type Time = real

  const PHASE_A_SECONDS: Time := 90.0
  const PHASE_B_SECONDS: Time := 180.0
  const RESET_HOLD_MAX_SECONDS: Time := 150.0
  const SLOT_HOLD_SECONDS: Time := 600.0
  const MAX_ATTEMPTS: int := 3

  datatype Phase = A | B
  datatype Reason = CommandsRejected | NoEcho | NoActive | SlotEmpty(slot: int)
  datatype Hold = Hold(since: Time, slot: int)

  datatype Attempt = Attempt(
    submissionId: Option<string>, attempts: int, phase: Phase, startedAt: Time,
    lastFailure: Option<Reason>, pending: bool, gcodeFile: Option<string>, hold: Option<Hold>)

  /** `ids` are the submission, subtask and task ids the report carries. */
  datatype Snapshot = Snapshot(
    commandsRejected: bool, statusActive: bool, gcodeBusy: bool, ids: set<string>,
    gcodeFile: Option<string>, trayBits: Option<set<nat>>, unitBits: Option<set<nat>>)

  /** Everything one pass meets: two clock reads, the report, the session, and what its calls return. */
  datatype Pass = Pass(
    now: Time, checkedAt: Time, snapshot: Option<Snapshot>, observedActive: bool,
    silent: bool, connected: bool, mapping: Option<seq<int>>, publishAccepted: bool,
    freshId: Option<string>, acked: bool)

  datatype Status = Live | Confirmed | Failed
  datatype Send = Send(record: Attempt, held: Option<Hold>, status: Status)

  datatype Event =
    | Published(at: Time)
    | Reset(at: Time)
    | EnteredB(at: Time)
    | Checked(at: Time, absent: Option<int>)
    | Reported(at: Time, reason: Reason, acked: bool)
    | Dispatched(at: Time)

  // ---------------------------------------------------------------------------
  // decide
  // ---------------------------------------------------------------------------

  datatype Action = Fail | Confirm | EnterB | ResetRetry | Republish | Retry | Wait

  predicate CommandsAreRejected(snapshot: Option<Snapshot>) { snapshot.Some? && snapshot.value.commandsRejected }

  predicate IsActive(snapshot: Option<Snapshot>) {
    snapshot.Some? && (snapshot.value.statusActive || snapshot.value.gcodeBusy)
  }

  predicate Echoed(snapshot: Option<Snapshot>, id: Option<string>) {
    snapshot.Some? && id.Some? && id.value != "" && id.value != "0" && id.value in snapshot.value.ids
  }

  predicate GcodeFileChanged(record: Attempt, snapshot: Option<Snapshot>) {
    snapshot.Some? && record.gcodeFile.Some? && record.gcodeFile.value != "" &&
    snapshot.value.gcodeFile.Some? && snapshot.value.gcodeFile.value != record.gcodeFile.value
  }

  function Decide(record: Attempt, snapshot: Option<Snapshot>, now: Time): Action {
    var age := now - record.startedAt;
    if CommandsAreRejected(snapshot) then Fail
    else if IsActive(snapshot) then Confirm
    else if record.pending then
      if record.attempts >= MAX_ATTEMPTS then Fail
      else if age >= PHASE_A_SECONDS then ResetRetry
      else Republish
    else if record.phase == B then
      if age >= PHASE_B_SECONDS then (if record.attempts >= MAX_ATTEMPTS then Fail else Retry) else Wait
    else if Echoed(snapshot, record.submissionId) then EnterB
    else if age >= PHASE_A_SECONDS then
      if GcodeFileChanged(record, snapshot) then EnterB
      else if record.attempts >= MAX_ATTEMPTS then Fail
      else ResetRetry
    else Wait
  }

  function FailureReason(record: Attempt, snapshot: Option<Snapshot>): Reason {
    if CommandsAreRejected(snapshot) then CommandsRejected
    else if record.lastFailure.Some? then record.lastFailure.value
    else if record.phase == B then NoActive
    else NoEcho
  }

  // ---------------------------------------------------------------------------
  // One pass, as a function
  // ---------------------------------------------------------------------------

  /** What `_republish_start` came back with. */
  datatype Outcome = Sent | NotSent | Absent(slot: int)

  function StartOutcome(pass: Pass): Outcome {
    if pass.mapping.None? then NotSent
    else
      var absent := if pass.snapshot.Some?
                    then Ams.AbsentSlot(pass.snapshot.value.trayBits, pass.snapshot.value.unitBits, pass.mapping.value)
                    else None;
      if absent.Some? then Absent(absent.value)
      else if pass.publishAccepted then Sent
      else NotSent
  }

  /** A failure is reported each pass until 3DPF acks it; only then is the send over. */
  function ReportFailure(send: Send, pass: Pass, at: Time, reason: Reason): (Send, seq<Event>) {
    (if pass.acked then send.(status := Failed) else send, [Reported(at, reason, pass.acked)])
  }

  /** `_slot_hold`: the check before any start, the first one included. It touches memory only. */
  function HoldSlot(send: Send, pass: Pass, absent: Option<int>): (Send, seq<Event>) {
    var check := [Checked(pass.checkedAt, absent)];
    if absent.None? then (send.(held := None), check)
    else
      var since := if send.held.Some? then send.held.value.since else pass.checkedAt;
      var holding := send.(held := Some(Hold(since, absent.value)));
      if pass.checkedAt - since > SLOT_HOLD_SECONDS then
        var (after, reported) := ReportFailure(holding, pass, pass.checkedAt, SlotEmpty(absent.value));
        (if after.status == Failed then after.(held := None) else after, check + reported)
      else (holding, check)
  }

  /**
   * `_keep_slot_hold`: `local`, the record as this pass changed it so far, reaches the disk
   * only when the hold changed, and never over a failure latch.
   */
  function Mirror(send: Send, local: Attempt): Send {
    if send.status == Failed || send.record.hold == send.held then send
    else send.(record := local.(hold := send.held))
  }

  /** The slot check of a start the watchdog publishes again. */
  function CheckSlot(send: Send, local: Attempt, pass: Pass, absent: Option<int>): (Send, seq<Event>) {
    var (after, events) := HoldSlot(send, pass, absent);
    (Mirror(after, local), events)
  }

  /** A start that went out: the next attempt begins in phase A. */
  function StartAgain(record: Attempt, pass: Pass): Attempt {
    record.(pending := false, attempts := record.attempts + 1, phase := A, startedAt := pass.now,
            submissionId := if pass.freshId.Some? then pass.freshId else record.submissionId)
  }

  /** `adopt`: a hold read back from the record, unless one is running. */
  function Adopt(send: Send): Send {
    if send.held.None? && send.record.hold.Some? then send.(held := send.record.hold) else send
  }

  function ResetStep(send: Send, pass: Pass): (Send, seq<Event>) {
    var record := send.record;
    if !record.pending && pass.now - record.startedAt < RESET_HOLD_MAX_SECONDS && pass.silent then (send, [])
    else
      var counted := if record.pending
                     then record.(attempts := record.attempts + 1, lastFailure := Some(NoEcho)) else record;
      if record.pending && counted.attempts >= MAX_ATTEMPTS then
        ReportFailure(send.(record := counted), pass, pass.now, FailureReason(counted, pass.snapshot))
      else
        (send.(record := counted.(pending := true, lastFailure := Some(NoEcho), phase := A, startedAt := pass.now)),
         [Reset(pass.now)])
  }

  function RepublishStep(send: Send, pass: Pass): (Send, seq<Event>) {
    if !pass.connected then (send, [])
    else
      match StartOutcome(pass)
      case Absent(slot) => CheckSlot(send, send.record, pass, Some(slot))
      case NotSent => CheckSlot(send, send.record, pass, None)
      case Sent =>
        var (checked, events) := CheckSlot(send, send.record, pass, None);
        (checked.(record := StartAgain(checked.record, pass)), [Published(pass.now)] + events)
  }

  function RetryStep(send: Send, pass: Pass): (Send, seq<Event>) {
    var local := send.record.(lastFailure := Some(NoActive));
    match StartOutcome(pass)
    case Absent(slot) => CheckSlot(send, local, pass, Some(slot))
    case NotSent =>
      var (checked, events) := CheckSlot(send, local, pass, None);
      var (after, reported) := ReportFailure(checked, pass, pass.now, FailureReason(local, pass.snapshot));
      (after, events + reported)
    case Sent =>
      var (checked, events) := CheckSlot(send, local, pass, None);
      (checked.(record := StartAgain(local.(hold := checked.held), pass)), [Published(pass.now)] + events)
  }

  /**
   * `_advance_cloud_send`: one pass over a send, and what it did to the outside world. A
   * confirmed send reports its dispatch again each pass; so does one whose assignment was seen
   * active, for as long as it is. A failed one is latched and left alone.
   */
  function Advance(send: Send, pass: Pass): (Send, seq<Event>) {
    if send.status == Failed then (send, [])
    else if send.status == Confirmed || pass.observedActive then (send, [Dispatched(pass.now)])
    else
      var adopted := Adopt(send);
      match Decide(adopted.record, pass.snapshot, pass.now)
      case Confirm => (adopted.(held := None, status := Confirmed), [Dispatched(pass.now)])
      case EnterB =>
        (adopted.(record := adopted.record.(phase := B, startedAt := pass.now, lastFailure := None)),
         [EnteredB(pass.now)])
      case ResetRetry =>
        if adopted.record.pending && adopted.held.Some? then RepublishStep(adopted, pass) else ResetStep(adopted, pass)
      case Republish => RepublishStep(adopted, pass)
      case Retry => RetryStep(adopted, pass)
      case Fail => ReportFailure(adopted, pass, pass.now, FailureReason(adopted.record, pass.snapshot))
      case Wait => (adopted, [])
  }

  // ---------------------------------------------------------------------------
  // The same pass, as the program runs it
  // ---------------------------------------------------------------------------

  /** `_SlotHolds`: when each send's start began waiting on an absent tray, shared by all sends. */
  class SlotHolds<Key(==)> {
    var held: map<Key, Hold>

    constructor ()
      ensures held == map[]
    {
      held := map[];
    }

    function Get(key: Key): Option<Hold>
      reads this
    {
      if key in held then Some(held[key]) else None
    }

    /** A new hold starts now; one that runs takes the slot but not the time. */
    method Begin(key: Key, now: Time, slot: int) returns (since: Time)
      modifies this
      ensures held == old(held)[key := Hold(since, slot)]
      ensures since == if key in old(held) then old(held[key].since) else now
    {
      since := if key in held then held[key].since else now;
      held := held[key := Hold(since, slot)];
    }

    method Adopt(key: Key, hold: Hold)
      modifies this
      ensures held == if key in old(held) then old(held) else old(held)[key := hold]
    {
      if key !in held {
        held := held[key := hold];
      }
    }

    method Clear(key: Key)
      modifies this
      ensures held == old(held) - {key}
    {
      held := held - {key};
    }
  }

  class CloudSend<Key(==)> {
    const key: Key
    const holds: SlotHolds<Key>
    var record: Attempt
    var status: Status

    constructor (key: Key, holds: SlotHolds<Key>, record: Attempt)
      ensures this.key == key && this.holds == holds && this.record == record && status == Live
    {
      this.key, this.holds, this.record, status := key, holds, record, Live;
    }

    function View(): Send
      reads this, holds
    {
      Send(record, holds.Get(key), status)
    }

    /** Holds of other sends are never touched. */
    twostate predicate OthersUnchanged()
      reads this, holds
    {
      holds.held - {key} == old(holds.held) - {key}
    }

    method Fail(pass: Pass, at: Time, reason: Reason) returns (events: seq<Event>)
      modifies this
      ensures (View(), events) == ReportFailure(old(View()), pass, at, reason)
    {
      events := [Reported(at, reason, pass.acked)];
      if pass.acked {
        status := Failed;
      }
    }

    /** `_slot_hold`. True while the start must wait. */
    method SlotHold(pass: Pass, absent: Option<int>) returns (waiting: bool, events: seq<Event>)
      requires status == Live
      modifies this, holds
      ensures (View(), events) == HoldSlot(old(View()), pass, absent)
      ensures waiting == absent.Some? && OthersUnchanged()
    {
      events := [Checked(pass.checkedAt, absent)];
      if absent.None? {
        holds.Clear(key);
        waiting := false;
      } else {
        waiting := true;
        var since := holds.Begin(key, pass.checkedAt, absent.value);
        if pass.checkedAt - since > SLOT_HOLD_SECONDS {
          var reported := Fail(pass, pass.checkedAt, SlotEmpty(absent.value));
          events := events + reported;
          if status == Failed {
            holds.Clear(key);
          }
        }
      }
    }

    /** `_keep_slot_hold` */
    method KeepSlotHold(local: Attempt)
      modifies this`record
      ensures View() == Mirror(old(View()), local)
    {
      if status == Failed {
        return;
      }
      if record.hold != holds.Get(key) {
        record := local.(hold := holds.Get(key));
      }
    }

    method RepublishStart(pass: Pass) returns (outcome: Outcome)
      ensures outcome == StartOutcome(pass)
    {
      if pass.mapping.None? {
        return NotSent;
      }
      if pass.snapshot.Some? {
        var absent := Ams.FirstAbsentSlot(pass.snapshot.value.trayBits, pass.snapshot.value.unitBits,
          pass.mapping.value);
        if absent.Some? {
          return Absent(absent.value);
        }
      }
      return if pass.publishAccepted then Sent else NotSent;
    }

    method Republish(pass: Pass) returns (events: seq<Event>)
      requires status == Live
      modifies this, holds
      ensures (View(), events) == RepublishStep(old(View()), pass) && OthersUnchanged()
    {
      events := [];
      if !pass.connected {
        return;
      }
      var outcome := RepublishStart(pass);
      if outcome.Sent? {
        events := [Published(pass.now)];
      }
      var waiting, checks := SlotHold(pass, if outcome.Absent? then Some(outcome.slot) else None);
      KeepSlotHold(record);
      assert [] + checks == checks;
      events := events + checks;
      if waiting || !outcome.Sent? {
        return;
      }
      record := StartAgain(record, pass);
    }

    method Retry(pass: Pass) returns (events: seq<Event>)
      requires status == Live
      modifies this, holds
      ensures (View(), events) == RetryStep(old(View()), pass) && OthersUnchanged()
    {
      var local := record.(lastFailure := Some(NoActive));
      var outcome := RepublishStart(pass);
      events := if outcome.Sent? then [Published(pass.now)] else [];
      var waiting, checks := SlotHold(pass, if outcome.Absent? then Some(outcome.slot) else None);
      KeepSlotHold(local);
      assert [] + checks == checks;
      events := events + checks;
      if waiting {
        return;
      }
      if !outcome.Sent? {
        var reported := Fail(pass, pass.now, FailureReason(local, pass.snapshot));
        events := events + reported;
        return;
      }
      record := StartAgain(local.(hold := holds.Get(key)), pass);
    }

    /** `_advance_cloud_send` */
    method AdvanceCloudSend(pass: Pass) returns (events: seq<Event>)
      modifies this, holds
      ensures (View(), events) == Advance(old(View()), pass) && OthersUnchanged()
    {
      events := [];
      if status == Failed {
        return;
      }
      if status == Confirmed || pass.observedActive {
        return [Dispatched(pass.now)];
      }
      if record.hold.Some? {
        holds.Adopt(key, record.hold.value);
      }
      var action := Decide(record, pass.snapshot, pass.now);
      if action == Confirm {
        holds.Clear(key);
        status := Confirmed;
        return [Dispatched(pass.now)];
      }
      if action == ResetRetry && record.pending && holds.Get(key).Some? {
        // The republish waits on an absent tray, not on the session.
        action := Action.Republish;
      }
      match action {
        case EnterB =>
          record := record.(phase := B, startedAt := pass.now, lastFailure := None);
          events := [EnteredB(pass.now)];
        case ResetRetry =>
          if !record.pending && pass.now - record.startedAt < RESET_HOLD_MAX_SECONDS && pass.silent {
            return;
          }
          if record.pending {
            record := record.(attempts := record.attempts + 1, lastFailure := Some(NoEcho));
            if record.attempts >= MAX_ATTEMPTS {
              events := Fail(pass, pass.now, FailureReason(record, pass.snapshot));
              return;
            }
          }
          record := record.(pending := true, lastFailure := Some(NoEcho), phase := A, startedAt := pass.now);
          events := [Reset(pass.now)];
        case Republish => events := Republish(pass);
        case Retry => events := Retry(pass);
        case Fail => events := Fail(pass, pass.now, FailureReason(record, pass.snapshot));
        case Wait =>
      }
    }
  }
}
