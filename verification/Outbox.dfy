/**
 * The durable lifecycle event outbox (bridge/outbox.py): events keep a rising `seq`, are on
 * disk before they are sent, and leave only when acked or when two thousand newer ones wait.
 */
module Outbox {
  import opened Base
  import Lifecycle

  const MAX_EVENTS: nat := 2000

  datatype Stored = Stored(id: string, number: int, serial: string, event: Lifecycle.Event)

  /** One row of `events.json`; a row the loader cannot use is `Malformed`. */
  datatype Row = Usable(stored: Stored) | Malformed
  datatype File = File(nextSeq: Option<int>, rows: seq<Row>)

  datatype Box = Box(events: seq<Stored>, nextSeq: int, disk: Option<File>)

  const EMPTY := Box([], 1, None)

  // ---------------------------------------------------------------------------
  // The operations, as functions
  // ---------------------------------------------------------------------------

  function Rows(events: seq<Stored>): (rows: seq<Row>)
    ensures |rows| == |events| && forall i :: 0 <= i < |rows| ==> rows[i] == Usable(events[i])
  {
    seq(|events|, i requires 0 <= i < |events| => Usable(events[i]))
  }

  function Save(box: Box): Box { box.(disk := Some(File(Some(box.nextSeq), Rows(box.events)))) }

  function Overflow(events: seq<Stored>): nat { if |events| > MAX_EVENTS then |events| - MAX_EVENTS else 0 }

  /** `append`: the new box, and the events dropped to make room. */
  function Append(box: Box, id: string, serial: string, event: Lifecycle.Event): (Box, seq<Stored>) {
    var all := box.events + [Stored(id, box.nextSeq, serial, event)];
    (Save(Box(all[Overflow(all)..], box.nextSeq + 1, box.disk)), all[..Overflow(all)])
  }

  function Unacked(events: seq<Stored>, ids: set<string>): seq<Stored> {
    if events == [] then []
    else
      var last := events[|events| - 1];
      Unacked(events[..|events| - 1], ids) + if last.id in ids && last.id != "" then [] else [last]
  }

  function AckedOf(events: seq<Stored>, ids: set<string>): seq<Stored> {
    if events == [] then []
    else
      var last := events[|events| - 1];
      AckedOf(events[..|events| - 1], ids) + if last.id in ids && last.id != "" then [last] else []
  }

  function Ack(box: Box, ids: set<string>): Box {
    var left := Unacked(box.events, ids);
    if |left| == |box.events| then box else Save(box.(events := left))
  }

  function Readable(rows: seq<Row>): seq<Stored> {
    if rows == [] then []
    else
      var last := rows[|rows| - 1];
      Readable(rows[..|rows| - 1]) + if last.Usable? then [last.stored] else []
  }

  function Highest(events: seq<Stored>): int {
    if events == [] then 0
    else
      var rest := Highest(events[..|events| - 1]);
      var last := events[|events| - 1].number;
      if |events| == 1 || last > rest then last else rest
  }

  /** `__init__` on the file a previous process left behind. */
  function Load(disk: Option<File>): Box {
    if disk.None? then EMPTY
    else
      var events := Readable(disk.value.rows);
      var stored := disk.value.nextSeq.GetOr(1);
      Box(events, if Highest(events) + 1 > stored then Highest(events) + 1 else stored, disk)
  }

  // ---------------------------------------------------------------------------
  // The same, as the program runs them
  // ---------------------------------------------------------------------------

  class EventOutbox {
    var events: seq<Stored>
    var nextSeq: int
    var disk: Option<File>

    function View(): Box
      reads this
    {
      Box(events, nextSeq, disk)
    }

    constructor (disk: Option<File>)
      ensures View() == Load(disk)
    {
      events, nextSeq := [], 1;
      this.disk := disk;
      new;
      if disk.Some? {
        var found := ReadRows(disk.value.rows);
        var highest := HighestSeq(found);
        var stored := disk.value.nextSeq.GetOr(1);
        events := found;
        nextSeq := if highest + 1 > stored then highest + 1 else stored;
      }
    }

    static method ReadRows(rows: seq<Row>) returns (found: seq<Stored>)
      ensures found == Readable(rows)
    {
      found := [];
      for i := 0 to |rows|
        invariant found == Readable(rows[..i])
      {
        assert rows[..i + 1][..i] == rows[..i];
        if rows[i].Usable? {
          found := found + [rows[i].stored];
        }
      }
      assert rows[..|rows|] == rows;
    }

    /** `max(..., default=0)` */
    static method HighestSeq(events: seq<Stored>) returns (highest: int)
      ensures highest == Highest(events)
    {
      highest := 0;
      for i := 0 to |events|
        invariant highest == Highest(events[..i])
      {
        assert events[..i + 1][..i] == events[..i];
        if i == 0 || events[i].number > highest {
          highest := events[i].number;
        }
      }
      assert events[..|events|] == events;
    }

    method SaveToDisk()
      modifies this`disk
      ensures View() == Save(old(View()))
    {
      disk := Some(File(Some(nextSeq), Rows(events)));
    }

    method AppendEvent(id: string, serial: string, event: Lifecycle.Event) returns (stored: Stored)
      modifies this
      ensures View() == Append(old(View()), id, serial, event).0
      ensures stored == Stored(id, old(nextSeq), serial, event)
    {
      stored := Stored(id, nextSeq, serial, event);
      nextSeq := nextSeq + 1;
      events := events + [stored];
      ghost var all := events;
      while |events| > MAX_EVENTS
        invariant |events| <= |all| && events == all[|all| - |events|..]
        invariant |events| >= MAX_EVENTS || events == all
        invariant nextSeq == old(nextSeq) + 1 && disk == old(disk)
      {
        events := events[1..];
      }
      SaveToDisk();
    }

    method AckEvents(ids: set<string>) returns (dropped: int)
      modifies this
      ensures View() == Ack(old(View()), ids)
      ensures dropped == |old(events)| - |events|
    {
      var left := Remaining(events, ids);
      dropped := |events| - |left|;
      UnackedSplits(events, ids);
      if dropped != 0 {
        events := left;
        SaveToDisk();
      } else {
        UnackedAll(events, ids);
      }
    }

    static method Remaining(events: seq<Stored>, ids: set<string>) returns (left: seq<Stored>)
      ensures left == Unacked(events, ids)
    {
      left := [];
      for i := 0 to |events|
        invariant left == Unacked(events[..i], ids)
      {
        assert events[..i + 1][..i] == events[..i];
        if !(events[i].id in ids && events[i].id != "") {
          left := left + [events[i]];
        }
      }
      assert events[..|events|] == events;
    }

    /** `pending`: oldest first, optionally one printer's. */
    method Pending(serial: Option<string>) returns (found: seq<Stored>)
      ensures found == PendingOf(events, serial)
    {
      found := [];
      for i := 0 to |events|
        invariant found == PendingOf(events[..i], serial)
      {
        assert events[..i + 1][..i] == events[..i];
        if serial.None? || events[i].serial == serial.value {
          found := found + [events[i]];
        }
      }
      assert events[..|events|] == events;
    }
  }

  function PendingOf(events: seq<Stored>, serial: Option<string>): seq<Stored> {
    if events == [] then []
    else
      var last := events[|events| - 1];
      PendingOf(events[..|events| - 1], serial) + if serial.None? || last.serial == serial.value then [last] else []
  }

  // ---------------------------------------------------------------------------
  // Runs, restarts included
  // ---------------------------------------------------------------------------

  datatype Input = Appends(id: string, serial: string, event: Lifecycle.Event) | Acks(ids: set<string>) | Restarts

  function Next(box: Box, input: Input): Box {
    match input
    case Appends(id, serial, event) => Append(box, id, serial, event).0
    case Acks(ids) => Ack(box, ids)
    case Restarts => Load(box.disk)
  }

  // What one step appended, acked and evicted.
  function AppendedBy(box: Box, input: Input): seq<Stored> {
    if input.Appends? then [Stored(input.id, box.nextSeq, input.serial, input.event)] else []
  }

  function AckedBy(box: Box, input: Input): seq<Stored> {
    if input.Acks? then AckedOf(box.events, input.ids) else []
  }

  function EvictedBy(box: Box, input: Input): seq<Stored> {
    if input.Appends? then Append(box, input.id, input.serial, input.event).1 else []
  }

  function After(inputs: seq<Input>): Box {
    if inputs == [] then EMPTY else Next(After(inputs[..|inputs| - 1]), inputs[|inputs| - 1])
  }

  function Appended(inputs: seq<Input>): seq<Stored> {
    if inputs == [] then []
    else
      var init := inputs[..|inputs| - 1];
      Appended(init) + AppendedBy(After(init), inputs[|inputs| - 1])
  }

  function Acked(inputs: seq<Input>): seq<Stored> {
    if inputs == [] then []
    else
      var init := inputs[..|inputs| - 1];
      Acked(init) + AckedBy(After(init), inputs[|inputs| - 1])
  }

  function Evicted(inputs: seq<Input>): seq<Stored> {
    if inputs == [] then []
    else
      var init := inputs[..|inputs| - 1];
      Evicted(init) + EvictedBy(After(init), inputs[|inputs| - 1])
  }

  ghost predicate Rising(events: seq<Stored>) {
    forall i, j :: 0 <= i < j < |events| ==> events[i].number < events[j].number
  }

  ghost predicate Below(events: seq<Stored>, bound: int) { forall e <- events :: e.number < bound }

  lemma {:induction false} UnackedSplits(events: seq<Stored>, ids: set<string>)
    ensures multiset(events) == multiset(Unacked(events, ids)) + multiset(AckedOf(events, ids))
    ensures |events| == |Unacked(events, ids)| + |AckedOf(events, ids)|
    ensures forall e <- Unacked(events, ids) :: e in events
    ensures forall e <- AckedOf(events, ids) :: e in events && e.id in ids
  {
    if events != [] {
      var init, last := events[..|events| - 1], events[|events| - 1];
      UnackedSplits(init, ids);
      assert events == init + [last];
    }
  }

  lemma {:induction false} UnackedAll(events: seq<Stored>, ids: set<string>)
    requires |Unacked(events, ids)| == |events|
    ensures Unacked(events, ids) == events && AckedOf(events, ids) == []
  {
    if events != [] {
      var init, last := events[..|events| - 1], events[|events| - 1];
      UnackedSplits(init, ids);
      UnackedAll(init, ids);
      assert events == init + [last];
    }
  }

  lemma {:induction false} UnackedRises(events: seq<Stored>, ids: set<string>)
    requires Rising(events)
    ensures Rising(Unacked(events, ids))
  {
    if events != [] {
      var init, last := events[..|events| - 1], events[|events| - 1];
      UnackedRises(init, ids);
      UnackedSplits(init, ids);
      RisingBelow(events);
      RisingPlus(Unacked(init, ids), last);
    }
  }

  lemma RisingBelow(events: seq<Stored>)
    requires Rising(events) && events != []
    ensures Below(events[..|events| - 1], events[|events| - 1].number)
  {
    var init := events[..|events| - 1];
    forall e | e in init
      ensures e.number < events[|events| - 1].number
    {
      var k :| 0 <= k < |init| && init[k] == e;
      assert events[k] == e;
    }
  }

  lemma RisingPlus(events: seq<Stored>, last: Stored)
    requires Rising(events) && Below(events, last.number)
    ensures Rising(events + [last])
  {
    assert forall i :: 0 <= i < |events| ==> events[i] in events;
  }

  lemma {:induction false} ReadableRows(events: seq<Stored>)
    ensures Readable(Rows(events)) == events
  {
    if events != [] {
      var init := events[..|events| - 1];
      ReadableRows(init);
      assert Rows(events)[..|events| - 1] == Rows(init);
      assert events == init + [events[|events| - 1]];
    }
  }

  lemma {:induction false} HighestBounds(events: seq<Stored>)
    ensures forall e <- events :: e.number <= Highest(events)
    ensures events != [] ==> exists e <- events :: e.number == Highest(events)
  {
    if events != [] {
      var init, last := events[..|events| - 1], events[|events| - 1];
      HighestBounds(init);
      assert events == init + [last];
      assert last in events;
      if init != [] {
        var e :| e in init && e.number == Highest(init);
        assert e in events;
      }
    }
  }

  /** Loading what was saved gives back the same outbox. */
  lemma LoadUndoesSave(box: Box)
    requires Below(box.events, box.nextSeq) && box.nextSeq >= 1
    ensures Load(Save(box).disk) == Save(box)
  {
    ReadableRows(box.events);
    HighestBounds(box.events);
  }

  /** Whatever the file holds, a loaded outbox never hands out a `seq` already on one of its events. */
  lemma LoadNeverReuses(disk: Option<File>)
    ensures Below(Load(disk).events, Load(disk).nextSeq)
    ensures disk.Some? && disk.value.nextSeq.Some? ==> Load(disk).nextSeq >= disk.value.nextSeq.value
  {
    if disk.Some? {
      HighestBounds(Readable(disk.value.rows));
    }
  }

  ghost predicate Good(box: Box) {
    Rising(box.events) && Below(box.events, box.nextSeq) && box.nextSeq >= 1 && |box.events| <= MAX_EVENTS &&
    (if box.disk.None? then box == EMPTY else box == Save(box))
  }

  lemma AppendSplits(box: Box, id: string, serial: string, event: Lifecycle.Event)
    requires |box.events| <= MAX_EVENTS
    ensures var (after, evicted) := Append(box, id, serial, event);
            box.events + [Stored(id, box.nextSeq, serial, event)] == evicted + after.events &&
            |after.events| <= MAX_EVENTS && (evicted != [] ==> |box.events| == MAX_EVENTS && |evicted| == 1)
  {
  }

  lemma RisingParts(a: seq<Stored>, b: seq<Stored>)
    requires Rising(a + b)
    ensures Rising(a) && Rising(b) && Older(a, b)
  {
    var all := a + b;
    assert forall i :: 0 <= i < |a| ==> all[i] == a[i];
    assert forall j :: 0 <= j < |b| ==> all[|a| + j] == b[j];
    forall e, f | e in a && f in b
      ensures e.number < f.number
    {
      var i :| 0 <= i < |a| && a[i] == e;
      var j :| 0 <= j < |b| && b[j] == f;
      assert all[i].number < all[|a| + j].number;
    }
  }

  lemma SavedIsGood(box: Box)
    requires Rising(box.events) && Below(box.events, box.nextSeq) && box.nextSeq >= 1 && |box.events| <= MAX_EVENTS
    ensures Good(Save(box))
  {
  }

  lemma AppendGood(box: Box, id: string, serial: string, event: Lifecycle.Event)
    requires Good(box)
    ensures var (after, evicted) := Append(box, id, serial, event);
            Good(after) &&
            box.events + [Stored(id, box.nextSeq, serial, event)] == evicted + after.events &&
            (evicted != [] ==> |box.events| == MAX_EVENTS && |evicted| == 1) &&
            Older(evicted, after.events)
  {
    var last := Stored(id, box.nextSeq, serial, event);
    var (after, evicted) := Append(box, id, serial, event);
    AppendSplits(box, id, serial, event);
    RisingPlus(box.events, last);
    RisingParts(evicted, after.events);
    forall e | e in after.events
      ensures e.number < after.nextSeq
    {
      assert e in box.events + [last];
    }
    SavedIsGood(Box(after.events, after.nextSeq, box.disk));
    assert after == Save(Box(after.events, after.nextSeq, box.disk));
  }

  lemma AckGood(box: Box, ids: set<string>)
    requires Good(box)
    ensures Good(Ack(box, ids)) && Ack(box, ids).nextSeq == box.nextSeq
    ensures Ack(box, ids).events == Unacked(box.events, ids)
  {
    UnackedSplits(box.events, ids);
    UnackedRises(box.events, ids);
    if |Unacked(box.events, ids)| == |box.events| {
      UnackedAll(box.events, ids);
    }
  }

  lemma LoadGood(box: Box)
    requires Good(box)
    ensures Load(box.disk) == box
  {
    if box.disk.Some? {
      LoadUndoesSave(box);
    }
  }

  lemma AppendBalances(box: Box, id: string, serial: string, event: Lifecycle.Event)
    requires Good(box)
    ensures var (after, evicted) := Append(box, id, serial, event);
            multiset(box.events) + multiset([Stored(id, box.nextSeq, serial, event)]) ==
            multiset(after.events) + multiset(evicted)
  {
    var (after, evicted) := Append(box, id, serial, event);
    AppendGood(box, id, serial, event);
    assert multiset(box.events + [Stored(id, box.nextSeq, serial, event)]) == multiset(evicted + after.events);
  }

  /** One step keeps the outbox good and loses no event. */
  lemma NextGood(box: Box, input: Input)
    requires Good(box)
    ensures Good(Next(box, input)) && Next(box, input).nextSeq == box.nextSeq + |AppendedBy(box, input)|
    ensures multiset(box.events) + multiset(AppendedBy(box, input)) ==
            multiset(Next(box, input).events) + multiset(AckedBy(box, input)) + multiset(EvictedBy(box, input))
  {
    match input {
      case Appends(id, serial, event) =>
        AppendGood(box, id, serial, event);
        AppendBalances(box, id, serial, event);
      case Acks(ids) =>
        AckGood(box, ids);
        UnackedSplits(box.events, ids);
      case Restarts => LoadGood(box);
    }
  }

  /** Pending events have strictly rising seqs below `next_seq`, and there are never over two thousand. */
  lemma {:induction false} RunIsGood(inputs: seq<Input>)
    ensures Good(After(inputs))
  {
    if inputs != [] {
      RunIsGood(inputs[..|inputs| - 1]);
      NextGood(After(inputs[..|inputs| - 1]), inputs[|inputs| - 1]);
    }
  }

  /** A restart at any point is invisible: the file always holds exactly what is in memory. */
  lemma RestartLosesNothing(inputs: seq<Input>)
    ensures After(inputs + [Restarts]) == After(inputs)
  {
    assert (inputs + [Restarts])[..|inputs|] == inputs;
    RunIsGood(inputs);
    LoadGood(After(inputs));
  }

  /** No seq is ever handed out twice: the appended events' seqs strictly rise over the whole run. */
  lemma {:induction false} SeqsNeverRepeat(inputs: seq<Input>)
    ensures Rising(Appended(inputs)) && Below(Appended(inputs), After(inputs).nextSeq)
  {
    if inputs != [] {
      var init, last := inputs[..|inputs| - 1], inputs[|inputs| - 1];
      SeqsNeverRepeat(init);
      RunIsGood(init);
      NextGood(After(init), last);
      if last.Appends? {
        RisingPlus(Appended(init), AppendedBy(After(init), last)[0]);
      }
    }
  }

  lemma Balance<T>(appended: multiset<T>, more: multiset<T>, pending: multiset<T>, after: multiset<T>,
                   acked: multiset<T>, acks: multiset<T>, evicted: multiset<T>, evicts: multiset<T>)
    requires appended == pending + acked + evicted && pending + more == after + acks + evicts
    ensures appended + more == after + (acked + acks) + (evicted + evicts)
  {
    forall e
      ensures (appended + more)[e] == (after + (acked + acks) + (evicted + evicts))[e]
    {
      assert appended[e] == pending[e] + acked[e] + evicted[e];
      assert (pending + more)[e] == (after + acks + evicts)[e];
    }
  }

  /** What a run appended, acked and evicted, and what it left pending. */
  datatype Account = Account(appended: seq<Stored>, pending: seq<Stored>, acked: seq<Stored>, evicted: seq<Stored>)

  ghost predicate Accounts(inputs: seq<Input>, sum: Account) {
    sum == Account(Appended(inputs), After(inputs).events, Acked(inputs), Evicted(inputs))
  }

  /** Every event ever appended is pending, acked or evicted, exactly once. */
  lemma {:induction false} EventsAreConserved(inputs: seq<Input>, sum: Account)
    requires Accounts(inputs, sum)
    ensures multiset(sum.appended) == multiset(sum.pending) + multiset(sum.acked) + multiset(sum.evicted)
  {
    if inputs != [] {
      var init, last := inputs[..|inputs| - 1], inputs[|inputs| - 1];
      var before := Account(Appended(init), After(init).events, Acked(init), Evicted(init));
      EventsAreConserved(init, before);
      RunIsGood(init);
      var box := After(init);
      NextGood(box, last);
      Balance(multiset(before.appended), multiset(AppendedBy(box, last)),
              multiset(box.events), multiset(sum.pending),
              multiset(before.acked), multiset(AckedBy(box, last)),
              multiset(before.evicted), multiset(EvictedBy(box, last)));
      assert multiset(before.appended + AppendedBy(box, last)) ==
        multiset(before.appended) + multiset(AppendedBy(box, last));
      assert multiset(before.acked + AckedBy(box, last)) == multiset(before.acked) + multiset(AckedBy(box, last));
      assert multiset(before.evicted + EvictedBy(box, last)) ==
        multiset(before.evicted) + multiset(EvictedBy(box, last));
    }
  }

  /** Everything in `elder` was appended before everything in `young`. */
  ghost predicate Older(elder: seq<Stored>, young: seq<Stored>) { forall e <- elder, f <- young :: e.number < f.number }

  lemma NextEvicts(box: Box, input: Input)
    requires Good(box)
    ensures Older(EvictedBy(box, input), Next(box, input).events) && Rising(EvictedBy(box, input))
    ensures forall f <- EvictedBy(box, input) + Next(box, input).events ::
              f in box.events || f in AppendedBy(box, input)
    ensures Below(EvictedBy(box, input), Next(box, input).nextSeq)
  {
    match input {
      case Appends(id, serial, event) =>
        AppendGood(box, id, serial, event);
        var all := box.events + AppendedBy(box, input);
        assert all == EvictedBy(box, input) + Next(box, input).events;
        assert forall f <- EvictedBy(box, input) + Next(box, input).events :: f in all;
      case Acks(ids) =>
        AckGood(box, ids);
        UnackedSplits(box.events, ids);
      case Restarts => LoadGood(box);
    }
  }

  lemma RisingJoin(a: seq<Stored>, b: seq<Stored>)
    requires Rising(a) && Rising(b) && Older(a, b)
    ensures Rising(a + b)
  {
    assert forall i :: 0 <= i < |a| ==> a[i] in a;
    assert forall i :: 0 <= i < |b| ==> b[i] in b;
  }

  /** Eviction takes the oldest first: everything evicted is older than everything still pending. */
  lemma {:induction false} EvictsOldestFirst(inputs: seq<Input>)
    ensures Rising(Evicted(inputs)) && Below(Evicted(inputs), After(inputs).nextSeq)
    ensures Older(Evicted(inputs), After(inputs).events)
  {
    if inputs != [] {
      var init, last := inputs[..|inputs| - 1], inputs[|inputs| - 1];
      EvictsOldestFirst(init);
      RunIsGood(init);
      NextGood(After(init), last);
      NextEvicts(After(init), last);
      assert Older(Evicted(init), EvictedBy(After(init), last) + Next(After(init), last).events);
      assert Older(Evicted(init), EvictedBy(After(init), last)) by {
        assert forall f <- EvictedBy(After(init), last) ::
          f in EvictedBy(After(init), last) + Next(After(init), last).events;
      }
      assert Older(Evicted(init), Next(After(init), last).events) by {
        assert forall f <- Next(After(init), last).events ::
          f in EvictedBy(After(init), last) + Next(After(init), last).events;
      }
      RisingJoin(Evicted(init), EvictedBy(After(init), last));
    }
  }

  /** An event is evicted only when two thousand others are already waiting. */
  lemma EvictsOnlyWhenFull(inputs: seq<Input>, id: string, serial: string, event: Lifecycle.Event)
    ensures var (after, evicted) := Append(After(inputs), id, serial, event);
            evicted != [] ==> |After(inputs).events| == MAX_EVENTS && evicted == [After(inputs).events[0]]
  {
    RunIsGood(inputs);
    AppendGood(After(inputs), id, serial, event);
    var (after, evicted) := Append(After(inputs), id, serial, event);
    if evicted != [] {
      var all := After(inputs).events + [Stored(id, After(inputs).nextSeq, serial, event)];
      assert all[0] == (evicted + after.events)[0] == evicted[0];
    }
  }

  /** However many a file brought back, an append leaves the newest two thousand and nothing else is lost. */
  lemma AppendKeepsNewest(box: Box, id: string, serial: string, event: Lifecycle.Event)
    ensures var (after, evicted) := Append(box, id, serial, event);
            evicted + after.events == box.events + [Stored(id, box.nextSeq, serial, event)] &&
            |after.events| == (if |box.events| < MAX_EVENTS then |box.events| + 1 else MAX_EVENTS) &&
            after.nextSeq == box.nextSeq + 1 && after.disk == Some(File(Some(after.nextSeq), Rows(after.events)))
  {
  }

  /** An ack drops exactly the events it names; an empty id never matches. */
  lemma {:induction false} AckDropsExactly(events: seq<Stored>, ids: set<string>)
    ensures forall e :: e in Unacked(events, ids) <==> e in events && !(e.id in ids && e.id != "")
  {
    if events != [] {
      var init, last := events[..|events| - 1], events[|events| - 1];
      AckDropsExactly(init, ids);
      assert events == init + [last];
    }
  }

  /** What one printer is sent is all of its pending events and nobody else's, oldest first. */
  lemma {:induction false} PendingIsThePrinters(events: seq<Stored>, serial: Option<string>)
    requires Rising(events)
    ensures Rising(PendingOf(events, serial))
    ensures forall e :: e in PendingOf(events, serial) <==> e in events && (serial.None? || e.serial == serial.value)
  {
    if events != [] {
      var init, last := events[..|events| - 1], events[|events| - 1];
      assert events == init + [last];
      PendingIsThePrinters(init, serial);
      RisingBelow(events);
      RisingPlus(PendingOf(init, serial), last);
    }
  }
}
