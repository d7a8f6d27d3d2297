/**
 * The fleet's membership and reconnect bookkeeping (bridge/fleet.py): the fields its lock
 * protects and every critical section that changes them. Slow work happens between sections.
 */
module Fleet {
  import opened Base

  /** A printer's serial number. */
  datatype Serial = Serial(text: string)

  /** One printer object. Two objects may carry the same serial over time. */
  datatype Printer = Printer(id: nat, serial: Serial)
  datatype Config = Config(serial: Serial, ip: string, accessCode: string, name: string, model: string)

  /** What a reconnect worker is given when it is scheduled. */
  datatype Ticket = Ticket(printer: Printer, config: Config, generation: nat, token: nat)

  const MAX_RECONNECT_WORKERS: nat := 2

  datatype Core = Core(
    printers: seq<Printer>, configs: map<Serial, Config>, workers: set<Serial>,
    generations: map<Serial, nat>, adds: map<Serial, nat>,
    reconnects: map<Serial, (nat, nat)>, counts: map<Serial, nat>)

  function GetOr<K, V>(m: map<K, V>, key: K, default: V): V { if key in m then m[key] else default }

  function FirstWith(printers: seq<Printer>, serial: Serial): Option<Printer> {
    if printers == [] then None
    else if printers[0].serial == serial then Some(printers[0])
    else FirstWith(printers[1..], serial)
  }

  function IndexOf(printers: seq<Printer>, printer: Printer): Option<nat> {
    if printers == [] then None
    else if printers[0] == printer then Some(0)
    else
      var rest := IndexOf(printers[1..], printer);
      if rest.Some? then Some(rest.value + 1) else None
  }

  function Without(printers: seq<Printer>, printer: Printer): seq<Printer> {
    if printers == [] then []
    else if printers[|printers| - 1] == printer then Without(printers[..|printers| - 1], printer)
    else Without(printers[..|printers| - 1], printer) + [printers[|printers| - 1]]
  }

  // ---------------------------------------------------------------------------
  // The critical sections
  // ---------------------------------------------------------------------------

  function AddBegin(core: Core, serial: Serial): (Core, Option<nat>) {
    if FirstWith(core.printers, serial).Some? || serial in core.adds then (core, None)
    else
      var generation := GetOr(core.generations, serial, 0) + 1;
      (core.(generations := core.generations[serial := generation], adds := core.adds[serial := generation]),
       Some(generation))
  }

  function AddCommit(core: Core, printer: Printer, config: Config, generation: nat): (Core, bool) {
    var serial := printer.serial;
    var owns := serial in core.adds && core.adds[serial] == generation;
    var settled := if owns then core.(adds := core.adds - {serial}) else core;
    if !owns || !(serial in core.generations && core.generations[serial] == generation)
       || FirstWith(core.printers, serial).Some?
    then (settled, false)
    else
      (settled.(printers := core.printers + [printer], configs := core.configs[serial := config],
                workers := core.workers + {serial}), true)
  }

  function Remove(core: Core, serial: Serial): (Core, Option<Printer>, bool) {
    var printer := FirstWith(core.printers, serial);
    if printer.None? && serial !in core.adds then (core, None, false)
    else
      (core.(generations := core.generations[serial := GetOr(core.generations, serial, 0) + 1],
             adds := core.adds - {serial}, reconnects := core.reconnects - {serial},
             configs := core.configs - {serial}, workers := core.workers - {serial},
             printers := if printer.Some? then Without(core.printers, printer.value) else core.printers),
       printer, true)
  }

  function Schedule(core: Core, printer: Printer, ip: string, token: nat): (Core, Option<Ticket>) {
    var serial := printer.serial;
    var live := GetOr(core.counts, serial, 0);
    if FirstWith(core.printers, serial) != Some(printer) || serial !in core.configs
       || serial in core.reconnects || live >= MAX_RECONNECT_WORKERS
    then (core, None)
    else
      var generation := GetOr(core.generations, serial, 0);
      (core.(reconnects := core.reconnects[serial := (generation, token)], counts := core.counts[serial := live + 1]),
       Some(Ticket(printer, core.configs[serial].(ip := ip), generation, token)))
  }

  predicate Owns(core: Core, ticket: Ticket) {
    var serial := ticket.printer.serial;
    serial in core.reconnects && core.reconnects[serial] == (ticket.generation, ticket.token)
  }

  predicate SameGeneration(core: Core, ticket: Ticket) {
    var serial := ticket.printer.serial;
    serial in core.generations && core.generations[serial] == ticket.generation
  }

  /** The test a reconnect worker makes before it goes on. */
  predicate StillCurrent(core: Core, ticket: Ticket) {
    ticket.printer in core.printers && SameGeneration(core, ticket) && Owns(core, ticket)
  }

  function Swap(core: Core, ticket: Ticket, replacement: Printer): (Core, bool) {
    var index := IndexOf(core.printers, ticket.printer);
    if SameGeneration(core, ticket) && Owns(core, ticket) && index.Some? && index.value < |core.printers| then
      (core.(printers := core.printers[index.value := replacement],
             configs := core.configs[ticket.printer.serial := ticket.config]), true)
    else (core, false)
  }

  function ReleaseSlot(counts: map<Serial, nat>, serial: Serial): map<Serial, nat> {
    var live := GetOr(counts, serial, 0);
    if live > 1 then counts[serial := live - 1] else counts - {serial}
  }

  function Finish(core: Core, ticket: Ticket): Core {
    var serial := ticket.printer.serial;
    core.(reconnects := if Owns(core, ticket) then core.reconnects - {serial} else core.reconnects,
          counts := ReleaseSlot(core.counts, serial))
  }

  // ---------------------------------------------------------------------------
  // The same sections, as the program runs them
  // ---------------------------------------------------------------------------

  lemma {:induction false} WithoutAppend(printers: seq<Printer>, last: Printer, gone: Printer)
    ensures Without(printers + [last], gone) == Without(printers, gone) + (if last == gone then [] else [last])
  {
    assert (printers + [last])[..|printers|] == printers;
  }

  class FleetState {
    var printers: seq<Printer>
    var configs: map<Serial, Config>
    var workers: set<Serial>
    var generations: map<Serial, nat>
    var adds: map<Serial, nat>
    var reconnects: map<Serial, (nat, nat)>
    var counts: map<Serial, nat>

    function View(): Core
      reads this
    {
      Core(printers, configs, workers, generations, adds, reconnects, counts)
    }

    constructor (core: Core)
      ensures View() == core
    {
      printers, configs, workers := core.printers, core.configs, core.workers;
      generations, adds := core.generations, core.adds;
      reconnects, counts := core.reconnects, core.counts;
    }

    method Find(serial: Serial) returns (printer: Option<Printer>)
      ensures printer == FirstWith(printers, serial)
    {
      for i := 0 to |printers|
        invariant FirstWith(printers, serial) == FirstWith(printers[i..], serial)
      {
        if printers[i].serial == serial {
          return Some(printers[i]);
        }
        assert printers[i..][1..] == printers[i + 1..];
      }
      return None;
    }

    method BeginAdd(serial: Serial) returns (generation: Option<nat>)
      modifies this
      ensures (View(), generation) == AddBegin(old(View()), serial)
    {
      var member := Find(serial);
      if member.Some? || serial in adds {
        return None;
      }
      var next := GetOr(generations, serial, 0) + 1;
      generations := generations[serial := next];
      adds := adds[serial := next];
      return Some(next);
    }

    method CommitAdd(printer: Printer, config: Config, generation: nat) returns (added: bool)
      modifies this
      ensures (View(), added) == AddCommit(old(View()), printer, config, generation)
    {
      var serial := printer.serial;
      var owns := serial in adds && adds[serial] == generation;
      if owns {
        adds := adds - {serial};
      }
      var member := Find(serial);
      added := owns && serial in generations && generations[serial] == generation && member.None?;
      if added {
        printers := printers + [printer];
        configs := configs[serial := config];
        assert serial in workers ==> workers + {serial} == workers;
        if serial !in workers {
          workers := workers + {serial};
        }
      }
    }

    method RemoveSerial(serial: Serial) returns (printer: Option<Printer>, removed: bool)
      modifies this
      ensures (View(), printer, removed) == Remove(old(View()), serial)
    {
      printer := Find(serial);
      if printer.None? && serial !in adds {
        return None, false;
      }
      generations := generations[serial := GetOr(generations, serial, 0) + 1];
      adds := adds - {serial};
      reconnects := reconnects - {serial};
      configs := configs - {serial};
      workers := workers - {serial};
      if printer.Some? {
        printers := Drop(printers, printer.value);
      }
      removed := true;
    }

    static method Drop(all: seq<Printer>, gone: Printer) returns (kept: seq<Printer>)
      ensures kept == Without(all, gone)
    {
      kept := [];
      for i := 0 to |all|
        invariant kept == Without(all[..i], gone)
      {
        assert all[..i + 1] == all[..i] + [all[i]];
        WithoutAppend(all[..i], all[i], gone);
        if all[i] != gone {
          kept := kept + [all[i]];
        }
      }
      assert all[..|all|] == all;
    }

    method ScheduleReconnect(printer: Printer, ip: string, token: nat) returns (ticket: Option<Ticket>)
      modifies this
      ensures (View(), ticket) == Schedule(old(View()), printer, ip, token)
    {
      var serial := printer.serial;
      var current := Find(serial);
      var live := GetOr(counts, serial, 0);
      if current != Some(printer) || serial !in configs || serial in reconnects || live >= MAX_RECONNECT_WORKERS {
        return None;
      }
      var generation := GetOr(generations, serial, 0);
      reconnects := reconnects[serial := (generation, token)];
      counts := counts[serial := live + 1];
      return Some(Ticket(printer, configs[serial].(ip := ip), generation, token));
    }

    method CommitSwap(ticket: Ticket, replacement: Printer) returns (swapped: bool)
      modifies this
      ensures (View(), swapped) == Swap(old(View()), ticket, replacement)
    {
      swapped := false;
      var serial := ticket.printer.serial;
      if serial in generations && generations[serial] == ticket.generation
         && serial in reconnects && reconnects[serial] == (ticket.generation, ticket.token) {
        var index := Locate(ticket.printer);
        if index.Some? {
          printers := printers[index.value := replacement];
          configs := configs[serial := ticket.config];
          swapped := true;
        }
      }
    }

    method Locate(printer: Printer) returns (index: Option<nat>)
      ensures index == IndexOf(printers, printer)
      ensures index.Some? ==> index.value < |printers|
    {
      for i := 0 to |printers|
        invariant IndexOf(printers, printer) ==
                  if IndexOf(printers[i..], printer).None? then None
                  else Some(IndexOf(printers[i..], printer).value + i)
      {
        if printers[i] == printer {
          return Some(i);
        }
        assert printers[i..][1..] == printers[i + 1..];
      }
      return None;
    }

    method FinishReconnect(ticket: Ticket)
      modifies this
      ensures View() == Finish(old(View()), ticket)
    {
      var serial := ticket.printer.serial;
      if serial in reconnects && reconnects[serial] == (ticket.generation, ticket.token) {
        reconnects := reconnects - {serial};
      }
      var live := GetOr(counts, serial, 0);
      if live > 1 {
        counts := counts[serial := live - 1];
      } else {
        counts := counts - {serial};
      }
    }
  }
}
