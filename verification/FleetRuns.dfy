/**
 * Every interleaving of the fleet's add, remove and reconnect threads. A thread is where it
 * stands between two critical sections; what its I/O returns is arbitrary.
 */
module FleetRuns {
  import opened Base
  import opened Fleet

  datatype Thread =
    | AddMaking(config: Config, generation: nat)
    | AddConnecting(printer: Printer, config: Config, generation: nat)
    | Dropping(printer: Printer)                     // about to disconnect it
    | Started(ticket: Ticket)
    | Probing(ticket: Ticket)
    | Proving(ticket: Ticket)
    | Making(ticket: Ticket)
    | Connecting(ticket: Ticket, spare: Printer)
    | Swapping(ticket: Ticket, spare: Printer)
    | Finishing(ticket: Ticket, own: Option<Printer>, swapped: bool)

  /** Membership changes and reconnects, in the order their sections ran. */
  datatype Entry =
    | AddBegan(serial: Serial, generation: nat) | Added(serial: Serial, config: Config) | Removed(serial: Serial)
    | Scheduled(serial: Serial, token: nat, config: Config, ip: string) | Swapped(serial: Serial, token: nat)

  /** How a replacement's connect went, seen from the reconnect worker that waits for it. */
  datatype Dialled = Up | Refused | TimedOut

  /**
   * `made` and `closed` are the printer objects ever made and those disconnected. `live` are those
   * that hold a session, and `dialling` those whose connect a worker gave up waiting for. `late` are
   * those such a connect gave a session after their disconnect.
   */
  datatype System = System(
    core: Core, threads: map<nat, Thread>, made: set<Printer>, closed: set<Printer>,
    live: set<Printer>, dialling: set<Printer>, late: set<Printer>,
    nextThread: nat, nextPrinter: nat, nextToken: nat, log: seq<Entry>)

  datatype Step =
    | BeginAdd(config: Config) | MakeAdded(tid: nat) | FailAdd(tid: nat) | Dial(tid: nat) | CommitAdd(tid: nat)
    | RemoveSerial(serial: Serial)
    | ScheduleReconnect(printer: Printer, ip: string) | FailStart(tid: nat)
    | CheckStart(tid: nat) | Probe(tid: nat, answered: bool) | Prove(tid: nat, proved: bool)
    | Make(tid: nat, ok: bool) | Connect(tid: nat, dialled: Dialled) | CommitSwap(tid: nat) | Finalise(tid: nat)
    | Disconnect(tid: nat)
    | LateConnect(printer: Printer, ok: bool)

  predicate Enabled(s: System, step: Step) {
    match step
    case BeginAdd(_) => true
    case RemoveSerial(_) => true
    case ScheduleReconnect(_, _) => true
    case MakeAdded(t) => t in s.threads && s.threads[t].AddMaking?
    case FailAdd(t) => t in s.threads && s.threads[t].AddMaking?
    case Dial(t) => t in s.threads && s.threads[t].AddConnecting?
    case CommitAdd(t) => t in s.threads && s.threads[t].AddConnecting?
    case LateConnect(p, _) => p in s.dialling
    case FailStart(t) => t in s.threads && s.threads[t].Started?
    case CheckStart(t) => t in s.threads && s.threads[t].Started?
    case Probe(t, _) => t in s.threads && s.threads[t].Probing?
    case Prove(t, _) => t in s.threads && s.threads[t].Proving?
    case Make(t, _) => t in s.threads && s.threads[t].Making?
    case Connect(t, _) => t in s.threads && s.threads[t].Connecting?
    case CommitSwap(t) => t in s.threads && s.threads[t].Swapping?
    case Finalise(t) => t in s.threads && s.threads[t].Finishing?
    case Disconnect(t) => t in s.threads && s.threads[t].Dropping?
  }

  function Spawn(s: System, thread: Thread): System {
    s.(threads := s.threads[s.nextThread := thread], nextThread := s.nextThread + 1)
  }

  function Goto(s: System, tid: nat, thread: Thread): System { s.(threads := s.threads[tid := thread]) }

  function End(s: System, tid: nat): System { s.(threads := s.threads - {tid}) }

  function NewPrinter(s: System, serial: Serial): Printer { Printer(s.nextPrinter, serial) }

  function WithNew(s: System, serial: Serial): System {
    s.(made := s.made + {NewPrinter(s, serial)}, nextPrinter := s.nextPrinter + 1)
  }

  /** What the reconnect worker disconnects at the end: the old printer after a swap, else its own. */
  function LeftOver(thread: Thread): Option<Printer>
    requires thread.Finishing?
  {
    if thread.swapped then Some(thread.ticket.printer) else thread.own
  }

  function Apply(s: System, step: Step): System
    requires Enabled(s, step)
  {
    match step
    case BeginAdd(config) =>
      var (core, generation) := AddBegin(s.core, config.serial);
      if generation.None? then s
      else Spawn(s.(core := core, log := s.log + [AddBegan(config.serial, generation.value)]),
                 AddMaking(config, generation.value))
    case MakeAdded(t) =>
      var th := s.threads[t];
      Goto(WithNew(s, th.config.serial), t, AddConnecting(NewPrinter(s, th.config.serial), th.config, th.generation))
    case FailAdd(t) => End(s, t)
    case Dial(t) => s.(live := s.live + {s.threads[t].printer})
    case CommitAdd(t) =>
      var th := s.threads[t];
      var (core, added) := AddCommit(s.core, th.printer, th.config, th.generation);
      if added then End(s.(core := core, log := s.log + [Added(th.printer.serial, th.config)]), t)
      else Goto(s.(core := core), t, Dropping(th.printer))
    case RemoveSerial(serial) =>
      var (core, printer, removed) := Remove(s.core, serial);
      if !removed then s
      else
        var after := s.(core := core, log := s.log + [Removed(serial)]);
        if printer.Some? then Spawn(after, Dropping(printer.value)) else after
    case ScheduleReconnect(printer, ip) =>
      var (core, ticket) := Schedule(s.core, printer, ip, s.nextToken);
      if ticket.None? then s
      else
        var entry := Scheduled(printer.serial, s.nextToken, s.core.configs[printer.serial], ip);
        Spawn(s.(core := core, nextToken := s.nextToken + 1, log := s.log + [entry]), Started(ticket.value))
    case FailStart(t) => End(s.(core := Finish(s.core, s.threads[t].ticket)), t)
    case CheckStart(t) =>
      var ticket := s.threads[t].ticket;
      Goto(s, t, if StillCurrent(s.core, ticket) then Probing(ticket) else Finishing(ticket, None, false))
    case Probe(t, answered) =>
      var ticket := s.threads[t].ticket;
      Goto(s, t, if !answered && StillCurrent(s.core, ticket) then Proving(ticket) else Finishing(ticket, None, false))
    case Prove(t, proved) =>
      var ticket := s.threads[t].ticket;
      Goto(s, t, if proved then Making(ticket) else Finishing(ticket, None, false))
    case Make(t, ok) =>
      var ticket := s.threads[t].ticket;
      if ok then Goto(WithNew(s, ticket.printer.serial), t, Connecting(ticket, NewPrinter(s, ticket.printer.serial)))
      else Goto(s, t, Finishing(ticket, None, false))
    case Connect(t, dialled) =>
      var th := s.threads[t];
      var after := Goto(s, t, if dialled.Up? then Swapping(th.ticket, th.spare)
                              else Finishing(th.ticket, Some(th.spare), false));
      if dialled.Up? then after.(live := s.live + {th.spare})
      else if dialled.TimedOut? then after.(dialling := s.dialling + {th.spare})
      else after
    case CommitSwap(t) =>
      var th := s.threads[t];
      var (core, swapped) := Swap(s.core, th.ticket, th.spare);
      var after := Goto(s.(core := core), t, Finishing(th.ticket, Some(th.spare), swapped));
      if swapped then after.(log := s.log + [Swapped(th.ticket.printer.serial, th.ticket.token)]) else after
    case Finalise(t) =>
      var th := s.threads[t];
      var after := s.(core := Finish(s.core, th.ticket));
      if LeftOver(th).Some? then Goto(after, t, Dropping(LeftOver(th).value)) else End(after, t)
    case Disconnect(t) =>
      var p := s.threads[t].printer;
      End(s.(closed := s.closed + {p}, live := s.live - {p}), t)
    case LateConnect(p, ok) =>
      var ended := s.(dialling := s.dialling - {p});
      if !ok then ended
      else ended.(live := s.live + {p}, late := if p in s.closed then s.late + {p} else s.late)
  }

  /** A fleet built from a list of configs with distinct serials, nothing in flight. */
  ghost predicate Initial(s: System) {
    s.threads == map[] && s.closed == {} && s.dialling == {} && s.late == {} && s.live <= s.made && s.log == [] &&
    s.core.adds == map[] && s.core.reconnects == map[] &&
    s.core.counts == map[] && Distinct(s.core.printers) && KeysMatch(s.core) && ConfigsNamed(s.core) &&
    s.made == (set p <- s.core.printers) && (forall p <- s.made :: p.id < s.nextPrinter) &&
    (forall p <- s.core.printers :: p.serial in s.core.generations)
  }

  // ---------------------------------------------------------------------------
  // Members, configs and workers
  // ---------------------------------------------------------------------------

  ghost predicate Distinct(printers: seq<Printer>) {
    forall i, j :: 0 <= i < j < |printers| ==> printers[i].serial != printers[j].serial
  }

  predicate HasMember(core: Core, serial: Serial) { exists p <- core.printers :: p.serial == serial }

  ghost predicate KeysMatch(core: Core) {
    forall serial :: (serial in core.configs <==> HasMember(core, serial)) &&
      (serial in core.workers <==> HasMember(core, serial))
  }

  ghost predicate ConfigsNamed(core: Core) { forall serial <- core.configs :: core.configs[serial].serial == serial }

  ghost predicate AddsPending(core: Core) {
    forall serial <- core.adds ::
      !HasMember(core, serial) && serial in core.generations && core.adds[serial] == core.generations[serial]
  }

  ghost predicate CoreOk(core: Core) {
    Distinct(core.printers) && KeysMatch(core) && ConfigsNamed(core) && AddsPending(core) &&
    forall p <- core.printers :: p.serial in core.generations
  }

  lemma {:induction false} FirstWithFinds(printers: seq<Printer>, serial: Serial)
    ensures FirstWith(printers, serial).None? <==> forall p <- printers :: p.serial != serial
    ensures FirstWith(printers, serial).Some? ==>
              FirstWith(printers, serial).value in printers && FirstWith(printers, serial).value.serial == serial
  {
    if printers != [] && printers[0].serial != serial {
      FirstWithFinds(printers[1..], serial);
      assert printers == [printers[0]] + printers[1..];
    }
  }

  lemma FirstWithMember(core: Core, serial: Serial)
    ensures FirstWith(core.printers, serial).Some? <==> HasMember(core, serial)
    ensures FirstWith(core.printers, serial).Some? ==>
              FirstWith(core.printers, serial).value in core.printers &&
                FirstWith(core.printers, serial).value.serial == serial
  {
    FirstWithFinds(core.printers, serial);
  }

  lemma {:induction false} IndexOfFinds(printers: seq<Printer>, printer: Printer)
    ensures IndexOf(printers, printer).Some? <==> printer in printers
    ensures IndexOf(printers, printer).Some? ==>
              IndexOf(printers, printer).value < |printers| && printers[IndexOf(printers, printer).value] == printer
  {
    if printers != [] && printers[0] != printer {
      IndexOfFinds(printers[1..], printer);
      assert printers == [printers[0]] + printers[1..];
    }
  }

  lemma {:induction false} WithoutKeeps(printers: seq<Printer>, gone: Printer)
    requires Distinct(printers)
    ensures Distinct(Without(printers, gone))
    ensures forall p :: p in Without(printers, gone) <==> p in printers && p != gone
  {
    if printers != [] {
      var last := |printers| - 1;
      var init := printers[..last];
      WithoutKeeps(init, gone);
      assert printers == init + [printers[last]];
      var kept := Without(init, gone);
      forall i | 0 <= i < |kept|
        ensures kept[i].serial != printers[last].serial
      {
        assert kept[i] in kept;
        var k :| 0 <= k < |init| && init[k] == kept[i];
        assert printers[k] == kept[i];
      }
    }
  }

  lemma AddBeginOk(core: Core, serial: Serial)
    requires CoreOk(core)
    ensures CoreOk(AddBegin(core, serial).0) && AddBegin(core, serial).0.printers == core.printers
    ensures AddBegin(core, serial).1.Some? ==> !HasMember(core, serial) && serial !in core.adds
  {
    FirstWithMember(core, serial);
  }

  lemma AddCommitOk(core: Core, printer: Printer, config: Config, generation: nat)
    requires CoreOk(core) && config.serial == printer.serial
    ensures var (after, added) := AddCommit(core, printer, config, generation);
            CoreOk(after) && after.printers == (if added then core.printers + [printer] else core.printers) &&
            (added ==> printer.serial in core.adds && !HasMember(core, printer.serial))
  {
    FirstWithMember(core, printer.serial);
    var (after, added) := AddCommit(core, printer, config, generation);
    if added {
      forall serial
        ensures HasMember(after, serial) <==> HasMember(core, serial) || serial == printer.serial
      {
        assert printer in after.printers;
        assert forall p <- core.printers :: p in after.printers;
      }
      assert Distinct(after.printers) by {
        assert forall i :: 0 <= i < |core.printers| ==> core.printers[i] in core.printers;
      }
    } else {
      assert forall serial :: HasMember(after, serial) <==> HasMember(core, serial);
    }
  }

  lemma RemoveOk(core: Core, serial: Serial)
    requires CoreOk(core)
    ensures var (after, printer, removed) := Remove(core, serial);
            CoreOk(after) &&
            (printer.Some? ==> removed && printer.value in core.printers && printer.value.serial == serial) &&
            (forall p :: p in after.printers <==> p in core.printers && printer != Some(p)) &&
            (removed ==> !HasMember(after, serial))
  {
    FirstWithMember(core, serial);
    var (after, printer, removed) := Remove(core, serial);
    if printer.Some? {
      WithoutKeeps(core.printers, printer.value);
      forall p | p in core.printers && p.serial == serial
        ensures p == printer.value
      {
        SerialsDecide(core.printers, p, printer.value);
      }
    }
    forall x
      ensures HasMember(after, x) <==> HasMember(core, x) && (removed ==> x != serial)
    {
      if HasMember(core, x) && (removed ==> x != serial) {
        var p :| p in core.printers && p.serial == x;
        assert p in after.printers;
      }
      if HasMember(after, x) {
        var p :| p in after.printers && p.serial == x;
        assert p in core.printers;
      }
    }
  }

  lemma SerialsDecide(printers: seq<Printer>, p: Printer, q: Printer)
    requires Distinct(printers) && p in printers && q in printers && p.serial == q.serial
    ensures p == q
  {
    var i :| 0 <= i < |printers| && printers[i] == p;
    var j :| 0 <= j < |printers| && printers[j] == q;
    assert i == j;
  }

  lemma ScheduleOk(core: Core, printer: Printer, ip: string, token: nat)
    requires CoreOk(core)
    ensures CoreOk(Schedule(core, printer, ip, token).0) &&
            Schedule(core, printer, ip, token).0.printers == core.printers
    ensures Schedule(core, printer, ip, token).1.Some? ==> printer in core.printers
  {
    FirstWithMember(core, printer.serial);
  }

  lemma SwapOk(core: Core, ticket: Ticket, spare: Printer)
    requires CoreOk(core) && spare.serial == ticket.printer.serial == ticket.config.serial && spare !in core.printers
    ensures var (after, swapped) := Swap(core, ticket, spare);
            CoreOk(after) && (!swapped ==> after == core) &&
            (swapped ==> ticket.printer in core.printers && SameGeneration(core, ticket) &&
                         forall p :: p in after.printers <==> p == spare || (p in core.printers && p != ticket.printer))
  {
    IndexOfFinds(core.printers, ticket.printer);
    var (after, swapped) := Swap(core, ticket, spare);
    if swapped {
      var index := IndexOf(core.printers, ticket.printer).value;
      SwapMembers(core.printers, index, spare);
      forall x
        ensures HasMember(after, x) <==> HasMember(core, x)
      {
        if p :| p in core.printers && p.serial == x {
          assert p != ticket.printer ==> p in after.printers;
          assert spare in after.printers;
        }
        if p :| p in after.printers && p.serial == x {
          assert p == spare || p in core.printers;
          assert ticket.printer in core.printers;
        }
      }
    }
  }

  lemma SwapMembers(printers: seq<Printer>, index: nat, spare: Printer)
    requires Distinct(printers) && index < |printers| && spare.serial == printers[index].serial && spare !in printers
    ensures Distinct(printers[index := spare])
    ensures forall p :: p in printers[index := spare] <==> p == spare || (p in printers && p != printers[index])
  {
    var after := printers[index := spare];
    assert after[index] == spare;
    forall p
      ensures p in after <==> p == spare || (p in printers && p != printers[index])
    {
      if p in printers && p != printers[index] {
        var i :| 0 <= i < |printers| && printers[i] == p;
        assert after[i] == p;
      }
      if p in after && p != spare {
        var i :| 0 <= i < |after| && after[i] == p;
        assert printers[i] == p && i != index;
        assert p.serial != printers[index].serial;
      }
    }
  }

  lemma FinishOk(core: Core, ticket: Ticket)
    requires CoreOk(core)
    ensures CoreOk(Finish(core, ticket)) && Finish(core, ticket).printers == core.printers
  {
    var after := Finish(core, ticket);
    assert forall serial :: HasMember(after, serial) <==> HasMember(core, serial);
  }

  // ---------------------------------------------------------------------------
  // Threads
  // ---------------------------------------------------------------------------

  predicate LiveReconnect(th: Thread) {
    th.Started? || th.Probing? || th.Proving? || th.Making? || th.Connecting? || th.Swapping? || th.Finishing?
  }

  /** The object only this thread may still disconnect. */
  function Owned(th: Thread): Option<Printer> {
    match th
    case AddConnecting(printer, _, _) => Some(printer)
    case Dropping(printer) => Some(printer)
    case Connecting(_, spare) => Some(spare)
    case Swapping(_, spare) => Some(spare)
    case Finishing(_, _, _) => LeftOver(th)
    case _ => None
  }

  predicate Membership(entry: Entry, serial: Serial) {
    (entry.AddBegan? || entry.Added? || entry.Removed?) && entry.serial == serial
  }

  predicate Orders(entry: Entry, serial: Serial, token: nat) {
    entry.Scheduled? && entry.serial == serial && entry.token == token
  }

  ghost predicate UnchangedSince(log: seq<Entry>, serial: Serial, token: nat) {
    exists i: nat :: i < |log| && Orders(log[i], serial, token) &&
      forall k :: i < k < |log| ==> !Membership(log[k], serial)
  }

  ghost predicate ThreadOk(s: System, th: Thread) {
    match th
    case AddMaking(_, _) => true
    case AddConnecting(printer, config, _) => printer.serial == config.serial
    case Dropping(_) => true
    case _ =>
      var serial := th.ticket.printer.serial;
      th.ticket.config.serial == serial && serial in s.core.generations &&
      th.ticket.generation <= s.core.generations[serial] &&
      (serial in s.core.adds ==> th.ticket.generation < s.core.generations[serial]) &&
      (th.ticket.generation == s.core.generations[serial] ==> UnchangedSince(s.log, serial, th.ticket.token)) &&
      (th.Connecting? || th.Swapping? ==> th.spare.serial == serial)
  }

  ghost predicate ThreadsOk(s: System) {
    (forall t <- s.threads :: t < s.nextThread && ThreadOk(s, s.threads[t]))
  }

  /** A swap's reconnect was scheduled earlier, with no add or remove of the serial in between. */
  ghost predicate SwapsCurrent(log: seq<Entry>) {
    forall j: nat :: j < |log| && log[j].Swapped? ==> UnchangedSince(log[..j], log[j].serial, log[j].token)
  }

  lemma UnchangedExtends(log: seq<Entry>, entry: Entry, serial: Serial, token: nat)
    requires UnchangedSince(log, serial, token) && !Membership(entry, serial)
    ensures UnchangedSince(log + [entry], serial, token)
  {
    var i: nat :| i < |log| && Orders(log[i], serial, token) &&
      forall k :: i < k < |log| ==> !Membership(log[k], serial);
    var longer := log + [entry];
    assert longer[i] == log[i] && forall k :: i < k < |longer| ==> !Membership(longer[k], serial);
  }

  lemma SwapsExtend(log: seq<Entry>, entry: Entry)
    requires SwapsCurrent(log) && (entry.Swapped? ==> UnchangedSince(log, entry.serial, entry.token))
    ensures SwapsCurrent(log + [entry])
  {
    var longer := log + [entry];
    forall j: nat | j < |longer| && longer[j].Swapped?
      ensures UnchangedSince(longer[..j], longer[j].serial, longer[j].token)
    {
      if j < |log| {
        assert longer[..j] == log[..j] && longer[j] == log[j];
      } else {
        assert longer[..j] == log;
      }
    }
  }

  ghost predicate Inv(s: System) {
    CoreOk(s.core) && ThreadsOk(s) && SwapsCurrent(s.log) && OwnersOk(s) && SlotsOk(s) && SessionsOk(s)
  }

  // ---------------------------------------------------------------------------
  // Every printer object has exactly one keeper
  // ---------------------------------------------------------------------------

  function OwnerAt(s: System, tid: nat): Option<Printer> { if tid in s.threads then Owned(s.threads[tid]) else None }

  ghost predicate OwnedBySome(s: System, p: Printer) { exists tid :: OwnerAt(s, tid) == Some(p) }

  /** Members are neither closed nor owned; an owner is alone; nothing made is lost. */
  ghost predicate OwnersOk(s: System) {
    (forall p <- s.core.printers :: p in s.made && p !in s.closed) &&
    (forall tid :: OwnerAt(s, tid).Some? ==>
       OwnerAt(s, tid).value in s.made && OwnerAt(s, tid).value !in s.closed &&
       OwnerAt(s, tid).value !in s.core.printers) &&
    (forall t, u :: t != u && OwnerAt(s, t).Some? ==> OwnerAt(s, t) != OwnerAt(s, u)) &&
    (forall p <- s.made :: p.id < s.nextPrinter && (p in s.core.printers || p in s.closed || OwnedBySome(s, p))) &&
    s.closed <= s.made
  }

  // ---------------------------------------------------------------------------
  // Sessions
  // ---------------------------------------------------------------------------

  /** A disconnected object holds a session exactly when a late connect gave it one. */
  ghost predicate SessionsOk(s: System) {
    s.live <= s.made && s.dialling <= s.made && s.late <= s.closed &&
    forall p <- s.closed :: p in s.live <==> p in s.late
  }

  lemma SessionsKept(s: System, step: Step)
    requires Inv(s) && Enabled(s, step)
    ensures SessionsOk(Apply(s, step))
  {
    match step {
      case Dial(t) => assert OwnerAt(s, t) == Some(s.threads[t].printer);
      case Connect(t, _) => assert OwnerAt(s, t) == Some(s.threads[t].spare);
      case Disconnect(t) => assert OwnerAt(s, t) == Some(s.threads[t].printer);
      case _ =>
    }
  }

  // ---------------------------------------------------------------------------
  // Reconnect slots
  // ---------------------------------------------------------------------------

  function Slots(threads: map<nat, Thread>, serial: Serial): set<nat> {
    set t | t in threads && LiveReconnect(threads[t]) && threads[t].ticket.printer.serial == serial
  }

  ghost predicate SlotsOk(s: System) {
    forall serial :: |Slots(s.threads, serial)| == GetOr(s.core.counts, serial, 0) <= MAX_RECONNECT_WORKERS
  }

  lemma SlotsGoto(threads: map<nat, Thread>, tid: nat, th: Thread, serial: Serial)
    ensures Slots(threads[tid := th], serial) ==
            Slots(threads, serial) - {tid}
            + (if LiveReconnect(th) && th.ticket.printer.serial == serial then {tid} else {})
  {
  }

  lemma SlotsEnd(threads: map<nat, Thread>, tid: nat, serial: Serial)
    ensures Slots(threads - {tid}, serial) == Slots(threads, serial) - {tid}
  {
  }

  /** A thread that keeps or never had a slot leaves every count alone. */
  lemma SlotsUnmoved(s: System, t: System, tid: nat)
    requires SlotsOk(s) && t.core.counts == s.core.counts
    requires tid in s.threads && LiveReconnect(s.threads[tid]) ==>
               tid in t.threads && LiveReconnect(t.threads[tid]) && t.threads[tid].ticket == s.threads[tid].ticket
    requires tid in t.threads && LiveReconnect(t.threads[tid]) ==> tid in s.threads && LiveReconnect(s.threads[tid])
    requires t.threads - {tid} == s.threads - {tid}
    ensures SlotsOk(t)
  {
    forall serial
      ensures |Slots(t.threads, serial)| == GetOr(t.core.counts, serial, 0) <= MAX_RECONNECT_WORKERS
    {
      forall u
        ensures u in Slots(t.threads, serial) <==> u in Slots(s.threads, serial)
      {
        assert u != tid ==>
          (u in t.threads <==> u in t.threads - {tid}) && (u in s.threads <==> u in s.threads - {tid});
        assert u != tid && u in s.threads ==>
          (t.threads - {tid})[u] == t.threads[u] && (s.threads - {tid})[u] == s.threads[u];
      }
      assert Slots(t.threads, serial) == Slots(s.threads, serial);
    }
  }

  ghost predicate ThreadsNumbered(s: System) { forall t <- s.threads :: t < s.nextThread }

  lemma SlotsKept(s: System, step: Step)
    requires SlotsOk(s) && ThreadsNumbered(s) && Enabled(s, step)
    ensures SlotsOk(Apply(s, step))
  {
    var t := Apply(s, step);
    match step {
      case ScheduleReconnect(printer, ip) =>
        if Schedule(s.core, printer, ip, s.nextToken).1.Some? {
          SlotsSchedule(s, printer, ip);
        }
      case FailStart(tid) => SlotsRelease(s, t, tid);
      case Finalise(tid) => SlotsRelease(s, t, tid);
      case BeginAdd(config) => SlotsBeginAdd(s, config);
      case RemoveSerial(serial) => SlotsRemove(s, serial);
      case Make(tid, ok) => SlotsMove(s, t, tid);
      case CheckStart(tid) => SlotsMove(s, t, tid);
      case Probe(tid, _) => SlotsMove(s, t, tid);
      case Prove(tid, _) => SlotsMove(s, t, tid);
      case Connect(tid, _) => SlotsMove(s, t, tid);
      case CommitSwap(tid) => SlotsMove(s, t, tid);
      case MakeAdded(tid) => SlotsUnmoved(s, t, tid);
      case FailAdd(tid) => SlotsUnmoved(s, t, tid);
      case CommitAdd(tid) => SlotsUnmoved(s, t, tid);
      case Disconnect(tid) => SlotsUnmoved(s, t, tid);
      case Dial(tid) => SlotsUnmoved(s, t, tid);
      case LateConnect(_, _) => SlotsUnmoved(s, t, s.nextThread);
    }
  }

  lemma SlotsMove(s: System, t: System, tid: nat)
    requires SlotsOk(s) && t.core.counts == s.core.counts
    requires tid in s.threads && tid in t.threads && LiveReconnect(s.threads[tid]) && LiveReconnect(t.threads[tid])
    requires t.threads == s.threads[tid := t.threads[tid]] && t.threads[tid].ticket == s.threads[tid].ticket
    ensures SlotsOk(t)
  {
    SlotsUnmoved(s, t, tid);
  }

  lemma SlotsBeginAdd(s: System, config: Config)
    requires SlotsOk(s) && ThreadsNumbered(s)
    ensures SlotsOk(Apply(s, BeginAdd(config)))
  {
    SlotsUnmoved(s, Apply(s, BeginAdd(config)), s.nextThread);
  }

  lemma SlotsRemove(s: System, serial: Serial)
    requires SlotsOk(s) && ThreadsNumbered(s)
    ensures SlotsOk(Apply(s, RemoveSerial(serial)))
  {
    SlotsUnmoved(s, Apply(s, RemoveSerial(serial)), s.nextThread);
  }

  lemma SlotsSchedule(s: System, printer: Printer, ip: string)
    requires SlotsOk(s) && ThreadsNumbered(s) && Schedule(s.core, printer, ip, s.nextToken).1.Some?
    ensures SlotsOk(Apply(s, ScheduleReconnect(printer, ip)))
  {
    var t := Apply(s, ScheduleReconnect(printer, ip));
    var ticket := Schedule(s.core, printer, ip, s.nextToken).1.value;
    assert ticket.printer == printer;
    assert t.threads == s.threads[s.nextThread := Started(ticket)];
    forall serial
      ensures |Slots(t.threads, serial)| == GetOr(t.core.counts, serial, 0) <= MAX_RECONNECT_WORKERS
    {
      SlotsGrow(s.threads, s.nextThread, ticket, serial);
      assert |Slots(s.threads, serial)| == GetOr(s.core.counts, serial, 0) <= MAX_RECONNECT_WORKERS;
    }
  }

  lemma SlotsGrow(threads: map<nat, Thread>, tid: nat, ticket: Ticket, serial: Serial)
    requires tid !in threads
    ensures |Slots(threads[tid := Started(ticket)], serial)| ==
            |Slots(threads, serial)| + (if serial == ticket.printer.serial then 1 else 0)
  {
    SlotsGoto(threads, tid, Started(ticket), serial);
    assert tid !in Slots(threads, serial);
    if serial == ticket.printer.serial {
      assert Slots(threads[tid := Started(ticket)], serial) == Slots(threads, serial) + {tid};
    } else {
      assert Slots(threads[tid := Started(ticket)], serial) == Slots(threads, serial);
    }
  }

  lemma SlotsShrink(threads: map<nat, Thread>, after: map<nat, Thread>, tid: nat, serial: Serial)
    requires tid in threads && LiveReconnect(threads[tid])
    requires after == threads - {tid} || exists p :: after == threads[tid := Dropping(p)]
    ensures |Slots(after, serial)| ==
            |Slots(threads, serial)| - (if serial == threads[tid].ticket.printer.serial then 1 else 0)
  {
    SlotsEnd(threads, tid, serial);
    if p :| after == threads[tid := Dropping(p)] {
      SlotsGoto(threads, tid, Dropping(p), serial);
    }
    assert Slots(after, serial) == Slots(threads, serial) - {tid};
    if serial == threads[tid].ticket.printer.serial {
      assert tid in Slots(threads, serial);
    } else {
      assert tid !in Slots(threads, serial);
    }
  }

  lemma SlotsRelease(s: System, t: System, tid: nat)
    requires SlotsOk(s) && tid in s.threads && LiveReconnect(s.threads[tid])
    requires t.core == Finish(s.core, s.threads[tid].ticket)
    requires t.threads == s.threads - {tid} || exists p :: t.threads == s.threads[tid := Dropping(p)]
    ensures SlotsOk(t)
  {
    forall serial
      ensures |Slots(t.threads, serial)| == GetOr(t.core.counts, serial, 0) <= MAX_RECONNECT_WORKERS
    {
      SlotsShrink(s.threads, t.threads, tid, serial);
      assert |Slots(s.threads, serial)| == GetOr(s.core.counts, serial, 0) <= MAX_RECONNECT_WORKERS;
    }
  }

  // ---------------------------------------------------------------------------
  // Each step keeps the invariant
  // ---------------------------------------------------------------------------

  lemma CoreKept(s: System, step: Step)
    requires Inv(s) && Enabled(s, step)
    ensures CoreOk(Apply(s, step).core)
  {
    match step {
      case BeginAdd(config) => AddBeginOk(s.core, config.serial);
      case CommitAdd(t) => AddCommitOk(s.core, s.threads[t].printer, s.threads[t].config, s.threads[t].generation);
      case RemoveSerial(serial) => RemoveOk(s.core, serial);
      case ScheduleReconnect(printer, ip) => ScheduleOk(s.core, printer, ip, s.nextToken);
      case FailStart(t) => FinishOk(s.core, s.threads[t].ticket);
      case Finalise(t) => FinishOk(s.core, s.threads[t].ticket);
      case CommitSwap(t) =>
        assert OwnerAt(s, t) == Some(s.threads[t].spare);
        SwapOk(s.core, s.threads[t].ticket, s.threads[t].spare);
      case _ =>
    }
  }

  lemma LogKept(s: System, step: Step)
    requires Inv(s) && Enabled(s, step)
    ensures SwapsCurrent(Apply(s, step).log)
  {
    var t := Apply(s, step);
    if t.log != s.log {
      var entry := t.log[|s.log|];
      assert t.log == s.log + [entry];
      if step.CommitSwap? {
        var th := s.threads[step.tid];
        assert OwnerAt(s, step.tid) == Some(th.spare);
        SwapOk(s.core, th.ticket, th.spare);
        assert ThreadOk(s, th);
      }
      SwapsExtend(s.log, entry);
    }
  }

  // A section that changes the serial's generation, its pending add, or the log.
  lemma OthersStayOk(s: System, t: System, th: Thread, entry: Entry)
    requires ThreadOk(s, th) && t.log == s.log + [entry] && LiveReconnect(th)
    requires var serial := th.ticket.printer.serial;
             !Membership(entry, serial) && (serial in t.core.generations <==> serial in s.core.generations) &&
             (serial in s.core.generations ==> t.core.generations[serial] == s.core.generations[serial]) &&
             (serial in t.core.adds ==> serial in s.core.adds)
    ensures ThreadOk(t, th)
  {
    if th.ticket.generation == s.core.generations[th.ticket.printer.serial] {
      UnchangedExtends(s.log, entry, th.ticket.printer.serial, th.ticket.token);
    }
  }

  lemma BeginAddThreads(s: System, config: Config, th: Thread)
    requires CoreOk(s.core) && ThreadOk(s, th)
    ensures ThreadOk(Apply(s, BeginAdd(config)), th)
  {
    var t := Apply(s, BeginAdd(config));
    if LiveReconnect(th) && t.log != s.log && th.ticket.printer.serial != config.serial {
      OthersStayOk(s, t, th, t.log[|s.log|]);
    }
  }

  lemma CommitAddThreads(s: System, tid: nat, th: Thread)
    requires Inv(s) && Enabled(s, CommitAdd(tid)) && ThreadOk(s, th)
    ensures ThreadOk(Apply(s, CommitAdd(tid)), th)
  {
    var adder := s.threads[tid];
    var t := Apply(s, CommitAdd(tid));
    assert ThreadOk(s, adder);
    AddCommitOk(s.core, adder.printer, adder.config, adder.generation);
    if LiveReconnect(th) && t.log != s.log && th.ticket.printer.serial != adder.printer.serial {
      OthersStayOk(s, t, th, Added(adder.printer.serial, adder.config));
    }
  }

  lemma RemoveThreads(s: System, serial: Serial, th: Thread)
    requires CoreOk(s.core) && ThreadOk(s, th)
    ensures ThreadOk(Apply(s, RemoveSerial(serial)), th)
  {
    var t := Apply(s, RemoveSerial(serial));
    if LiveReconnect(th) && t.log != s.log && th.ticket.printer.serial != serial {
      OthersStayOk(s, t, th, Removed(serial));
    }
  }

  lemma ScheduleThreads(s: System, printer: Printer, ip: string, th: Thread)
    requires Inv(s) && ThreadOk(s, th)
    ensures ThreadOk(Apply(s, ScheduleReconnect(printer, ip)), th)
    ensures var ticket := Schedule(s.core, printer, ip, s.nextToken).1;
            ticket.Some? ==> ThreadOk(Apply(s, ScheduleReconnect(printer, ip)), Started(ticket.value))
  {
    var t := Apply(s, ScheduleReconnect(printer, ip));
    ScheduleOk(s.core, printer, ip, s.nextToken);
    if Schedule(s.core, printer, ip, s.nextToken).1.Some? {
      var entry := Scheduled(printer.serial, s.nextToken, s.core.configs[printer.serial], ip);
      if LiveReconnect(th) {
        OthersStayOk(s, t, th, entry);
      }
      assert HasMember(s.core, printer.serial);
      assert t.log[|s.log|] == entry;
      assert UnchangedSince(t.log, printer.serial, s.nextToken);
    }
  }

  lemma SwapThreads(s: System, tid: nat, th: Thread)
    requires Enabled(s, CommitSwap(tid)) && ThreadOk(s, th)
    ensures ThreadOk(Apply(s, CommitSwap(tid)), th)
  {
    var t := Apply(s, CommitSwap(tid));
    if LiveReconnect(th) && t.log != s.log {
      OthersStayOk(s, t, th, Swapped(s.threads[tid].ticket.printer.serial, s.threads[tid].ticket.token));
    }
  }

  /** What any other thread knows survives the step. */
  lemma OtherThreadOk(s: System, step: Step, th: Thread)
    requires Inv(s) && Enabled(s, step) && ThreadOk(s, th)
    ensures ThreadOk(Apply(s, step), th)
  {
    match step {
      case BeginAdd(config) => BeginAddThreads(s, config, th);
      case CommitAdd(tid) => CommitAddThreads(s, tid, th);
      case RemoveSerial(serial) => RemoveThreads(s, serial, th);
      case ScheduleReconnect(printer, ip) => ScheduleThreads(s, printer, ip, th);
      case CommitSwap(tid) => SwapThreads(s, tid, th);
      case _ =>
    }
  }

  /** The thread that moved, or was started. */
  function Mover(s: System, step: Step): nat {
    match step
    case BeginAdd(_) => s.nextThread
    case RemoveSerial(_) => s.nextThread
    case ScheduleReconnect(_, _) => s.nextThread
    case LateConnect(_, _) => s.nextThread
    case _ => step.tid
  }

  lemma MoverOk(s: System, step: Step)
    requires Inv(s) && Enabled(s, step)
    ensures var tid := Mover(s, step);
            tid in Apply(s, step).threads ==>
              tid < Apply(s, step).nextThread && ThreadOk(Apply(s, step), Apply(s, step).threads[tid])
  {
    var tid := Mover(s, step);
    if tid in s.threads {
      OtherThreadOk(s, step, s.threads[tid]);
    }
    match step {
      case ScheduleReconnect(printer, ip) => ScheduleThreads(s, printer, ip, Dropping(printer));
      case _ =>
    }
  }

  lemma OnlyMoverMoves(s: System, step: Step, tid: nat)
    requires Enabled(s, step) && tid != Mover(s, step)
    ensures tid in Apply(s, step).threads <==> tid in s.threads
    ensures tid in s.threads ==> Apply(s, step).threads[tid] == s.threads[tid]
    ensures s.nextThread <= Apply(s, step).nextThread
  {
  }

  lemma ThreadsKept(s: System, step: Step)
    requires Inv(s) && Enabled(s, step)
    ensures ThreadsOk(Apply(s, step))
  {
    var t := Apply(s, step);
    forall tid | tid in t.threads
      ensures tid < t.nextThread && ThreadOk(t, t.threads[tid])
    {
      if tid == Mover(s, step) {
        MoverOk(s, step);
      } else {
        OnlyMoverMoves(s, step, tid);
        OtherThreadOk(s, step, s.threads[tid]);
      }
    }
  }

  // Five ways an object changes keeper; everything else about keepers stays.
  ghost predicate SameOwners(s: System, t: System, tid: nat) {
    forall u :: u != tid ==> OwnerAt(t, u) == OwnerAt(s, u)
  }

  ghost predicate SameMembers(s: System, t: System) { forall p :: p in t.core.printers <==> p in s.core.printers }

  lemma KeeperSame(s: System, t: System, tid: nat)
    requires OwnersOk(s) && SameOwners(s, t, tid) && OwnerAt(t, tid) == OwnerAt(s, tid) && SameMembers(s, t)
    requires t.made == s.made && t.closed == s.closed && t.nextPrinter == s.nextPrinter
    ensures OwnersOk(t)
  {
    forall p | OwnedBySome(s, p)
      ensures OwnedBySome(t, p)
    {
      var u :| OwnerAt(s, u) == Some(p);
      assert OwnerAt(t, u) == Some(p);
    }
  }

  lemma KeeperNew(s: System, t: System, tid: nat, p: Printer)
    requires OwnersOk(s) && SameOwners(s, t, tid) && OwnerAt(s, tid).None? && OwnerAt(t, tid) == Some(p)
    requires p.id == s.nextPrinter && t.nextPrinter == s.nextPrinter + 1 && t.made == s.made + {p}
    requires SameMembers(s, t) && t.closed == s.closed
    ensures OwnersOk(t)
  {
    assert p !in s.made;
    forall q | OwnedBySome(s, q)
      ensures OwnedBySome(t, q)
    {
      var u :| OwnerAt(s, u) == Some(q);
      assert OwnerAt(t, u) == Some(q);
    }
    assert OwnedBySome(t, p);
  }

  /** The thread hands `p` over: to the fleet, or to the closed objects. */
  lemma KeeperGives(s: System, t: System, tid: nat, p: Printer)
    requires OwnersOk(s) && SameOwners(s, t, tid) && OwnerAt(s, tid) == Some(p) && OwnerAt(t, tid).None?
    requires t.made == s.made && t.nextPrinter == s.nextPrinter
    requires (t.closed == s.closed && forall q :: q in t.core.printers <==> q in s.core.printers || q == p)
          || (t.closed == s.closed + {p} && SameMembers(s, t))
    ensures OwnersOk(t)
  {
    forall q | OwnedBySome(s, q) && q != p
      ensures OwnedBySome(t, q)
    {
      var u :| OwnerAt(s, u) == Some(q);
      assert OwnerAt(t, u) == Some(q);
    }
  }

  lemma KeeperTakes(s: System, t: System, tid: nat, p: Printer)
    requires OwnersOk(s) && SameOwners(s, t, tid) && OwnerAt(s, tid).None? && OwnerAt(t, tid) == Some(p)
    requires p in s.core.printers && forall q :: q in t.core.printers <==> q in s.core.printers && q != p
    requires t.made == s.made && t.closed == s.closed && t.nextPrinter == s.nextPrinter
    ensures OwnersOk(t)
  {
    forall q | OwnedBySome(s, q)
      ensures OwnedBySome(t, q)
    {
      var u :| OwnerAt(s, u) == Some(q);
      assert OwnerAt(t, u) == Some(q);
    }
    assert OwnedBySome(t, p);
  }

  lemma KeeperSwaps(s: System, t: System, tid: nat, given: Printer, taken: Printer)
    requires OwnersOk(s) && SameOwners(s, t, tid) && OwnerAt(s, tid) == Some(given) && OwnerAt(t, tid) == Some(taken)
    requires taken in s.core.printers
    requires forall q :: q in t.core.printers <==> q == given || (q in s.core.printers && q != taken)
    requires t.made == s.made && t.closed == s.closed && t.nextPrinter == s.nextPrinter
    ensures OwnersOk(t)
  {
    forall q | OwnedBySome(s, q) && q != given
      ensures OwnedBySome(t, q)
    {
      var u :| OwnerAt(s, u) == Some(q);
      assert OwnerAt(t, u) == Some(q);
    }
    assert OwnedBySome(t, taken);
  }

  lemma OwnersKept(s: System, step: Step)
    requires Inv(s) && Enabled(s, step)
    ensures OwnersOk(Apply(s, step))
  {
    var t := Apply(s, step);
    var tid := Mover(s, step);
    forall u | u != tid
      ensures OwnerAt(t, u) == OwnerAt(s, u)
    {
      OnlyMoverMoves(s, step, u);
    }
    assert SameOwners(s, t, tid);
    match step {
      case CommitAdd(_) => OwnersCommitAdd(s, tid);
      case RemoveSerial(serial) => OwnersRemove(s, serial);
      case CommitSwap(_) =>
        assert ThreadOk(s, s.threads[tid]);
        OwnersSwap(s, tid);
      case MakeAdded(_) => OwnersMade(s, step);
      case Make(_, _) => OwnersMade(s, step);
      case BeginAdd(_) => OwnersStarting(s, step);
      case ScheduleReconnect(_, _) => OwnersStarting(s, step);
      case FailStart(_) => OwnersFinishing(s, step);
      case Finalise(_) => OwnersFinishing(s, step);
      case Disconnect(_) => KeeperGives(s, t, tid, s.threads[tid].printer);
      case Dial(_) => KeeperSame(s, t, tid);
      case LateConnect(_, _) => KeeperSame(s, t, tid);
      case _ => OwnersPlain(s, step);
    }
  }

  lemma OwnersMade(s: System, step: Step)
    requires Inv(s) && Enabled(s, step) && (step.MakeAdded? || step.Make?)
    requires SameOwners(s, Apply(s, step), Mover(s, step))
    ensures OwnersOk(Apply(s, step))
  {
    var t := Apply(s, step);
    if step.MakeAdded? {
      KeeperNew(s, t, step.tid, NewPrinter(s, s.threads[step.tid].config.serial));
    } else if step.ok {
      KeeperNew(s, t, step.tid, NewPrinter(s, s.threads[step.tid].ticket.printer.serial));
    } else {
      KeeperSame(s, t, step.tid);
    }
  }

  lemma OwnersStarting(s: System, step: Step)
    requires CoreOk(s.core) && OwnersOk(s) && OwnerAt(s, s.nextThread).None?
    requires step.BeginAdd? || step.ScheduleReconnect?
    requires SameOwners(s, Apply(s, step), s.nextThread)
    ensures OwnersOk(Apply(s, step))
  {
    if step.BeginAdd? {
      AddBeginOk(s.core, step.config.serial);
    } else {
      ScheduleOk(s.core, step.printer, step.ip, s.nextToken);
    }
    KeeperSame(s, Apply(s, step), s.nextThread);
  }

  lemma OwnersFinishing(s: System, step: Step)
    requires CoreOk(s.core) && OwnersOk(s) && Enabled(s, step)
    requires step.FailStart? || step.Finalise?
    requires SameOwners(s, Apply(s, step), step.tid)
    ensures OwnersOk(Apply(s, step))
  {
    FinishOk(s.core, s.threads[step.tid].ticket);
    KeeperSame(s, Apply(s, step), step.tid);
  }

  lemma OwnersPlain(s: System, step: Step)
    requires Inv(s) && Enabled(s, step)
    requires step.FailAdd? || step.CheckStart? || step.Probe? || step.Prove? || step.Connect?
    requires SameOwners(s, Apply(s, step), Mover(s, step))
    ensures OwnersOk(Apply(s, step))
  {
    KeeperSame(s, Apply(s, step), step.tid);
  }

  lemma OwnersCommitAdd(s: System, tid: nat)
    requires Inv(s) && Enabled(s, CommitAdd(tid)) && SameOwners(s, Apply(s, CommitAdd(tid)), tid)
    ensures OwnersOk(Apply(s, CommitAdd(tid)))
  {
    var th := s.threads[tid];
    var t := Apply(s, CommitAdd(tid));
    assert ThreadOk(s, th);
    AddCommitOk(s.core, th.printer, th.config, th.generation);
    if AddCommit(s.core, th.printer, th.config, th.generation).1 {
      KeeperGives(s, t, tid, th.printer);
    } else {
      KeeperSame(s, t, tid);
    }
  }

  lemma OwnersRemove(s: System, serial: Serial)
    requires Inv(s) && SameOwners(s, Apply(s, RemoveSerial(serial)), s.nextThread)
    ensures OwnersOk(Apply(s, RemoveSerial(serial)))
  {
    var t := Apply(s, RemoveSerial(serial));
    RemoveOk(s.core, serial);
    var printer := Remove(s.core, serial).1;
    assert OwnerAt(s, s.nextThread).None?;
    if printer.Some? {
      KeeperTakes(s, t, s.nextThread, printer.value);
    } else {
      KeeperSame(s, t, s.nextThread);
    }
  }

  lemma OwnersSwap(s: System, tid: nat)
    requires CoreOk(s.core) && OwnersOk(s) && Enabled(s, CommitSwap(tid)) && ThreadOk(s, s.threads[tid])
    requires SameOwners(s, Apply(s, CommitSwap(tid)), tid)
    ensures OwnersOk(Apply(s, CommitSwap(tid)))
  {
    var th := s.threads[tid];
    var t := Apply(s, CommitSwap(tid));
    assert OwnerAt(s, tid) == Some(th.spare);
    SwapOk(s.core, th.ticket, th.spare);
    if Swap(s.core, th.ticket, th.spare).1 {
      KeeperSwaps(s, t, tid, th.spare, th.ticket.printer);
    } else {
      KeeperSame(s, t, tid);
    }
  }

  lemma StepKeepsInv(s: System, step: Step)
    requires Inv(s) && Enabled(s, step)
    ensures Inv(Apply(s, step))
  {
    CoreKept(s, step);
    ThreadsKept(s, step);
    LogKept(s, step);
    OwnersKept(s, step);
    SlotsKept(s, step);
    SessionsKept(s, step);
  }

  lemma InitialInv(s: System)
    requires Initial(s)
    ensures Inv(s)
  {
    forall serial
      ensures Slots(s.threads, serial) == {}
    {
    }
  }

  // ---------------------------------------------------------------------------
  // Main results, over every interleaving
  // ---------------------------------------------------------------------------

  /** Where a schedule leads, when each of its steps was possible in turn. */
  function Run(start: System, steps: seq<Step>): Option<System> {
    if steps == [] then Some(start)
    else
      var before := Run(start, steps[..|steps| - 1]);
      var step := steps[|steps| - 1];
      if before.Some? && Enabled(before.value, step) then Some(Apply(before.value, step)) else None
  }

  /** Some interleaving leads from a fresh fleet here. */
  ghost predicate Reachable(start: System, steps: seq<Step>, s: System) {
    Initial(start) && Run(start, steps) == Some(s)
  }

  lemma {:induction false} RunKeepsInv(start: System, steps: seq<Step>, s: System)
    requires Reachable(start, steps, s)
    ensures Inv(s)
  {
    if steps == [] {
      InitialInv(start);
    } else {
      var before := Run(start, steps[..|steps| - 1]).value;
      RunKeepsInv(start, steps[..|steps| - 1], before);
      StepKeepsInv(before, steps[|steps| - 1]);
    }
  }

  /** Serials are unique, and members, configs and workers always cover the same serials. */
  lemma MembershipIsConsistent(start: System, steps: seq<Step>, s: System)
    requires Reachable(start, steps, s)
    ensures Distinct(s.core.printers) && KeysMatch(s.core) && ConfigsNamed(s.core)
  {
    RunKeepsInv(start, steps, s);
  }

  /** Live reconnect threads per serial are exactly the counter, and never more than two. */
  lemma ReconnectsAreBounded(start: System, steps: seq<Step>, s: System, serial: Serial)
    requires Reachable(start, steps, s)
    ensures |Slots(s.threads, serial)| == GetOr(s.core.counts, serial, 0) <= MAX_RECONNECT_WORKERS
  {
    RunKeepsInv(start, steps, s);
  }

  /** A swap commits only when no add or remove of its serial ran since the reconnect was scheduled. */
  lemma SwapsSeeNoMembershipChange(start: System, steps: seq<Step>, s: System, j: nat)
    requires Reachable(start, steps, s) && j < |s.log| && s.log[j].Swapped?
    ensures UnchangedSince(s.log[..j], s.log[j].serial, s.log[j].token)
  {
    RunKeepsInv(start, steps, s);
  }

  /**
   * No printer object leaks and none is closed while in use: each one ever made is a member,
   * or will be disconnected by exactly one unfinished thread, or is disconnected; never two of these.
   */
  lemma PrintersAreAccounted(start: System, steps: seq<Step>, s: System, p: Printer)
    requires Reachable(start, steps, s) && p in s.made
    ensures (p in s.core.printers || p in s.closed || OwnedBySome(s, p)) &&
            !(p in s.core.printers && p in s.closed) &&
            (OwnedBySome(s, p) ==> p !in s.core.printers && p !in s.closed) &&
            forall t, u :: OwnerAt(s, t) == Some(p) == OwnerAt(s, u) ==> t == u
  {
    RunKeepsInv(start, steps, s);
  }

  /**
   * No session outlives its object but through a connect its reconnect worker gave up waiting for:
   * a disconnected object holds one if and only if such a connect came through after its disconnect.
   */
  lemma SessionsOutliveOnlyLate(start: System, steps: seq<Step>, s: System)
    requires Reachable(start, steps, s)
    ensures forall p <- s.closed :: p in s.live <==> p in s.late
    ensures s.late == {} <==> s.closed !! s.live
  {
    RunKeepsInv(start, steps, s);
  }

  /**
   * So once every thread has finished, the objects not disconnected are exactly the members, and
   * only members and late-connected objects can hold a session.
   */
  lemma QuietFleetHasNoLeak(start: System, steps: seq<Step>, s: System)
    requires Reachable(start, steps, s) && s.threads == map[]
    ensures forall p <- s.made :: p in s.core.printers <==> p !in s.closed
    ensures forall p <- s.live :: p in s.core.printers || p in s.late
  {
    RunKeepsInv(start, steps, s);
  }

  lemma RunMore(start: System, steps: seq<Step>, step: Step)
    requires Run(start, steps).Some? && Enabled(Run(start, steps).value, step)
    ensures Run(start, steps + [step]) == Some(Apply(Run(start, steps).value, step))
  {
    assert (steps + [step])[..|steps|] == steps;
  }

  /** The steps of a reconnect to where it connects its replacement. */
  function ToConnect(printer: Printer, ip: string): seq<Step> {
    [ScheduleReconnect(printer, ip)] + [CheckStart(0)] + [Probe(0, false)] + [Prove(0, true)] + [Make(0, true)]
  }

  /** Its worker gives up waiting, disconnects the replacement and ends; the connect comes through after. */
  function LateEnd(spare: Printer): seq<Step> {
    [Connect(0, TimedOut)] + [Finalise(0)] + [Disconnect(0)] + [LateConnect(spare, true)]
  }

  /** A fleet of one printer, with nothing in flight. */
  ghost predicate OnePrinter(start: System, printer: Printer) {
    Initial(start) && start.core.printers == [printer] && start.nextThread == 0 &&
    printer.serial in start.core.generations
  }

  lemma TicketOfOne(start: System, printer: Printer, ip: string)
    requires OnePrinter(start, printer)
    ensures Schedule(start.core, printer, ip, start.nextToken).1.Some?
    ensures StillCurrent(Schedule(start.core, printer, ip, start.nextToken).0,
                         Schedule(start.core, printer, ip, start.nextToken).1.value)
  {
    assert HasMember(start.core, printer.serial);
  }

  predicate AtConnect(s: System, spare: Printer) {
    s.threads.Keys == {0} && s.threads[0].Connecting? && s.threads[0].spare == spare
  }

  lemma ReachesConnect(start: System, printer: Printer, ip: string)
    requires OnePrinter(start, printer)
    ensures var s := Run(start, ToConnect(printer, ip));
            s.Some? && AtConnect(s.value, Printer(start.nextPrinter, printer.serial))
  {
    TicketOfOne(start, printer, ip);
    assert Run(start, []) == Some(start);
    var s1 := [ScheduleReconnect(printer, ip)];
    assert [] + s1 == s1;
    RunMore(start, [], ScheduleReconnect(printer, ip));
    RunMore(start, s1, CheckStart(0));
    RunMore(start, s1 + [CheckStart(0)], Probe(0, false));
    RunMore(start, s1 + [CheckStart(0)] + [Probe(0, false)], Prove(0, true));
    RunMore(start, s1 + [CheckStart(0)] + [Probe(0, false)] + [Prove(0, true)], Make(0, true));
  }

  predicate AtDrop(s: System, spare: Printer) {
    s.threads == map[0 := Dropping(spare)] && spare in s.dialling
  }

  lemma GivesUp(start: System, steps: seq<Step>, spare: Printer)
    requires Run(start, steps).Some? && AtConnect(Run(start, steps).value, spare)
    ensures var s := Run(start, steps + [Connect(0, TimedOut)] + [Finalise(0)]);
            s.Some? && AtDrop(s.value, spare)
  {
    RunMore(start, steps, Connect(0, TimedOut));
    RunMore(start, steps + [Connect(0, TimedOut)], Finalise(0));
  }

  lemma EndsLate(start: System, steps: seq<Step>, spare: Printer)
    requires Run(start, steps).Some? && AtConnect(Run(start, steps).value, spare)
    ensures var end := Run(start, steps + LateEnd(spare));
            end.Some? && end.value.threads == map[] && spare in end.value.closed && spare in end.value.live
  {
    var waited := steps + [Connect(0, TimedOut)] + [Finalise(0)];
    GivesUp(start, steps, spare);
    RunMore(start, waited, Disconnect(0));
    RunMore(start, waited + [Disconnect(0)], LateConnect(spare, true));
    assert steps + LateEnd(spare) == waited + [Disconnect(0)] + [LateConnect(spare, true)];
  }

  /** And it does leak: when that connect comes through at last, nothing is left to close the session. */
  lemma LateConnectLeaks(start: System, printer: Printer, ip: string)
    requires OnePrinter(start, printer)
    ensures var spare := Printer(start.nextPrinter, printer.serial);
            var end := Run(start, ToConnect(printer, ip) + LateEnd(spare));
            end.Some? && end.value.threads == map[] && spare in end.value.closed && spare in end.value.live
  {
    ReachesConnect(start, printer, ip);
    EndsLate(start, ToConnect(printer, ip), Printer(start.nextPrinter, printer.serial));
  }
}
