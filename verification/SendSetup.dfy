/**
 * The slot hold before a send's first start: checked before the upload and again after it, kept
 * in memory only, so a restart begins the wait again.
 */
module SendSetup {
  import opened Base
  import opened SendWatchdog
  import opened SendRuns

  datatype Look = Looked(pass: Pass, absent: Option<int>) | Forgotten

  predicate Unstarted(send: Send) { send.status == Live && send.held.None? && send.record.hold.None? }

  function NextLook(send: Send, look: Look): (Send, seq<Event>) {
    match look
    case Looked(pass, absent) => if send.status == Failed then (send, []) else HoldSlot(send, pass, absent)
    case Forgotten => (send.(held := None), [])
  }

  function AfterLooks(send: Send, looks: seq<Look>): Send {
    if looks == [] then send else NextLook(AfterLooks(send, looks[..|looks| - 1]), looks[|looks| - 1]).0
  }

  function LookTrace(send: Send, looks: seq<Look>): seq<Event> {
    if looks == [] then []
    else
      var earlier := looks[..|looks| - 1];
      LookTrace(send, earlier) + NextLook(AfterLooks(send, earlier), looks[|looks| - 1]).1
  }

  lemma HoldSlotMoves(send: Send, pass: Pass, absent: Option<int>)
    requires send.status == Live && send.record.hold.None?
    ensures HoldMoves(send, HoldSlot(send, pass, absent).0, HoldSlot(send, pass, absent).1, pass.checkedAt)
  {
    var (after, events) := HoldSlot(send, pass, absent);
    if absent.Some? {
      assert CheckRefused(send, after, events, pass.checkedAt, absent.value);
    } else {
      assert CheckPassed(after, events);
    }
  }

  lemma LookKeepsRecord(send: Send, look: Look)
    requires send.status != Confirmed
    ensures NextLook(send, look).0.record == send.record && NextLook(send, look).0.status != Confirmed
  {
  }

  lemma {:induction false} LooksAreJustified(send: Send, looks: seq<Look>)
    requires Unstarted(send)
    ensures var after := AfterLooks(send, looks);
            after.record == send.record && after.status != Confirmed && HoldTracked(after, LookTrace(send, looks))
    ensures SlotReportsJustified(LookTrace(send, looks))
  {
    if looks != [] {
      var earlier, look := looks[..|looks| - 1], looks[|looks| - 1];
      var before := AfterLooks(send, earlier);
      var trace := LookTrace(send, earlier);
      LooksAreJustified(send, earlier);
      LookKeepsRecord(before, look);
      if look.Looked? && before.status == Live {
        HoldSlotMoves(before, look.pass, look.absent);
        HoldStep(before, AfterLooks(send, looks), trace, NextLook(before, look).1, look.pass.checkedAt);
      } else {
        assert LookTrace(send, looks) == trace;
      }
    }
  }

  lemma JustifiedAfter(earlier: seq<Event>, trace: seq<Event>, j: nat)
    requires j < |trace| && trace[j].Reported? && trace[j].reason.SlotEmpty? && Justified(trace, j)
    ensures (earlier + trace)[|earlier| + j] == trace[j] && Justified(earlier + trace, |earlier| + j)
  {
    var whole := earlier + trace;
    var n := |earlier|;
    var i: nat :| i < j && RefusedSince(trace[..j], i, trace[i].at) &&
      trace[j].at - trace[i].at > SLOT_HOLD_SECONDS && trace[j - 1] == Checked(trace[j].at, Some(trace[j].reason.slot));
    assert whole[n + i] == trace[i] && whole[n + j] == trace[j] && whole[n + j - 1] == trace[j - 1];
    var window := whole[..n + j];
    forall k | n + i <= k < n + j && window[k].Checked?
      ensures window[k].absent.Some?
    {
      assert window[k] == trace[..j][k - n];
    }
    assert RefusedSince(window, n + i, whole[n + i].at);
  }

  lemma JustifiedJoin(a: seq<Event>, b: seq<Event>)
    requires SlotReportsJustified(a) && SlotReportsJustified(b)
    ensures SlotReportsJustified(a + b)
  {
    var whole := a + b;
    forall j: nat | j < |whole| && whole[j].Reported? && whole[j].reason.SlotEmpty?
      ensures Justified(whole, j)
    {
      if j < |a| {
        JustifiedExtends(a, b, j);
      } else {
        assert whole[j] == b[j - |a|];
        JustifiedAfter(a, b, j - |a|);
      }
    }
  }

  /**
   * From the first check of a send to its last: `slot_empty` is only ever reported after ten
   * minutes of nothing but refused checks.
   */
  lemma EmptySlotIsJustified(unstarted: Send, looks: seq<Look>, start: Send, first: Time, inputs: seq<Input>)
    requires Unstarted(unstarted) && Begun(start, first)
    ensures SlotReportsJustified(LookTrace(unstarted, looks) + Trace(start, first, inputs))
  {
    LooksAreJustified(unstarted, looks);
    SlotEmptyIsJustified(start, first, inputs);
    JustifiedJoin(LookTrace(unstarted, looks), Trace(start, first, inputs));
  }
}
