/**
 * What the fleet's history says of it: which config each serial has, and when an add, a reconnect
 * and a swap go through.
 */
module FleetHistory {
  import opened Base
  import opened Fleet
  import opened FleetRuns

  // ---------------------------------------------------------------------------
  // Configs, read off the log
  // ---------------------------------------------------------------------------

  /** What the reconnect of this token was scheduled to put in place: the config then, at the new address. */
  function Ordered(log: seq<Entry>, token: nat): Option<Config> {
    if log == [] then None
    else
      var last := log[|log| - 1];
      if last.Scheduled? && last.token == token then Some(last.config.(ip := last.ip))
      else Ordered(log[..|log| - 1], token)
  }

  /** The config of a serial: the one it was last added with, or last swapped to. */
  function ConfigNow(first: map<Serial, Config>, log: seq<Entry>, serial: Serial): Option<Config> {
    if log == [] then (if serial in first then Some(first[serial]) else None)
    else
      var init, last := log[..|log| - 1], log[|log| - 1];
      if last.Added? && last.serial == serial then Some(last.config)
      else if last.Removed? && last.serial == serial then None
      else if last.Swapped? && last.serial == serial then Ordered(init, last.token)
      else ConfigNow(first, init, serial)
  }

  function ConfigOf(core: Core, serial: Serial): Option<Config> {
    if serial in core.configs then Some(core.configs[serial]) else None
  }

  lemma OrderedMore(log: seq<Entry>, entry: Entry, token: nat)
    ensures Ordered(log + [entry], token) ==
            if entry.Scheduled? && entry.token == token then Some(entry.config.(ip := entry.ip))
            else Ordered(log, token)
  {
    assert (log + [entry])[..|log|] == log;
  }

  lemma ConfigMore(first: map<Serial, Config>, log: seq<Entry>, entry: Entry, serial: Serial)
    ensures ConfigNow(first, log + [entry], serial) ==
            if entry.Added? && entry.serial == serial then Some(entry.config)
            else if entry.Removed? && entry.serial == serial then None
            else if entry.Swapped? && entry.serial == serial then Ordered(log, entry.token)
            else ConfigNow(first, log, serial)
  {
    assert (log + [entry])[..|log|] == log;
  }

  // ---------------------------------------------------------------------------
  // What each thread knows of the history
  // ---------------------------------------------------------------------------

  predicate Adding(th: Thread) { th.AddMaking? || th.AddConnecting? }

  /** The add of this generation began, and its serial was not removed since. */
  ghost predicate AddStands(log: seq<Entry>, serial: Serial, generation: nat) {
    exists i: nat :: i < |log| && log[i] == AddBegan(serial, generation) &&
      forall k :: i < k < |log| ==> log[k] != Removed(serial)
  }

  predicate OwnsAdd(core: Core, serial: Serial, generation: nat) {
    serial in core.adds && core.adds[serial] == generation
  }

  ghost predicate AddOk(s: System, th: Thread)
    requires Adding(th)
  {
    var serial := th.config.serial;
    serial in s.core.generations && th.generation <= s.core.generations[serial] &&
    (OwnsAdd(s.core, serial, th.generation) <==> AddStands(s.log, serial, th.generation))
  }

  ghost predicate ReconnectOk(s: System, th: Thread)
    requires LiveReconnect(th)
  {
    var ticket := th.ticket;
    ticket.token < s.nextToken && Ordered(s.log, ticket.token) == Some(ticket.config) &&
    (UnchangedSince(s.log, ticket.printer.serial, ticket.token) ==> SameGeneration(s.core, ticket)) &&
    (SameGeneration(s.core, ticket) ==> Owns(s.core, ticket) && (th.Finishing? || ticket.printer in s.core.printers))
  }

  ghost predicate KnowsOk(s: System, th: Thread) {
    (Adding(th) ==> AddOk(s, th)) && (LiveReconnect(th) ==> ReconnectOk(s, th))
  }

  /** Two threads never share an add's generation or a reconnect's token. */
  predicate Apart(a: Thread, b: Thread) {
    (Adding(a) && Adding(b) && a.config.serial == b.config.serial ==> a.generation != b.generation) &&
    (LiveReconnect(a) && LiveReconnect(b) ==> a.ticket.token != b.ticket.token)
  }

  /** A reservation is of a member, under its generation, and some live reconnect holds it. */
  ghost predicate HeldBy(s: System, serial: Serial, tid: nat) {
    tid in s.threads && LiveReconnect(s.threads[tid]) && s.threads[tid].ticket.printer.serial == serial &&
    Owns(s.core, s.threads[tid].ticket)
  }

  ghost predicate ReservationsOk(s: System) {
    forall serial <- s.core.reconnects ::
      HasMember(s.core, serial) && serial in s.core.generations &&
      s.core.reconnects[serial].0 == s.core.generations[serial] && exists tid :: HeldBy(s, serial, tid)
  }

  ghost predicate History(s: System) {
    Inv(s) && (forall t <- s.threads :: KnowsOk(s, s.threads[t])) &&
    (forall t, u :: t in s.threads && u in s.threads && t != u ==> Apart(s.threads[t], s.threads[u])) &&
    ReservationsOk(s)
  }

  // ---------------------------------------------------------------------------
  // How the log grows
  // ---------------------------------------------------------------------------

  lemma AddStandsMore(log: seq<Entry>, entry: Entry, serial: Serial, generation: nat)
    ensures AddStands(log + [entry], serial, generation) <==>
            entry == AddBegan(serial, generation) || (AddStands(log, serial, generation) && entry != Removed(serial))
  {
    var longer := log + [entry];
    assert longer[|log|] == entry;
    if i: nat :| i < |log| && log[i] == AddBegan(serial, generation) &&
                 forall k :: i < k < |log| ==> log[k] != Removed(serial) {
      assert longer[i] == log[i];
    }
    if i: nat :| i < |longer| && longer[i] == AddBegan(serial, generation) &&
                 forall k :: i < k < |longer| ==> longer[k] != Removed(serial) {
      if i < |log| {
        assert log[i] == longer[i];
        assert forall k :: i < k < |log| ==> log[k] == longer[k];
        assert AddStands(log, serial, generation);
      }
    }
  }

  lemma UnchangedMore(log: seq<Entry>, entry: Entry, serial: Serial, token: nat)
    ensures UnchangedSince(log + [entry], serial, token) <==>
            Orders(entry, serial, token) || (UnchangedSince(log, serial, token) && !Membership(entry, serial))
  {
    var longer := log + [entry];
    assert longer[|log|] == entry;
    if UnchangedSince(log, serial, token) && !Membership(entry, serial) {
      UnchangedExtends(log, entry, serial, token);
    }
    if i: nat :| i < |longer| && Orders(longer[i], serial, token) &&
                 forall k :: i < k < |longer| ==> !Membership(longer[k], serial) {
      if i < |log| {
        assert log[i] == longer[i];
        assert forall k :: i < k < |log| ==> log[k] == longer[k];
        assert UnchangedSince(log, serial, token);
      }
    }
  }

  // ---------------------------------------------------------------------------
  // What the other threads know survives a step
  // ---------------------------------------------------------------------------

  // How a section changes what a thread's knowledge is about.
  ghost predicate Grows(s: System, t: System, entry: Entry) {
    t.log == s.log + [entry] && s.nextToken <= t.nextToken
  }

  lemma AddGrows(s: System, t: System, entry: Entry, th: Thread)
    requires Adding(th) && AddOk(s, th) && Grows(s, t, entry)
    requires var serial := th.config.serial;
             entry != AddBegan(serial, th.generation) && serial in t.core.generations &&
             s.core.generations[serial] <= t.core.generations[serial] &&
             (OwnsAdd(t.core, serial, th.generation) <==>
              OwnsAdd(s.core, serial, th.generation) && entry != Removed(serial))
    ensures AddOk(t, th)
  {
    AddStandsMore(s.log, entry, th.config.serial, th.generation);
  }

  lemma ReconnectGrows(s: System, t: System, entry: Entry, th: Thread)
    requires LiveReconnect(th) && ReconnectOk(s, th) && Grows(s, t, entry)
    requires !(entry.Scheduled? && entry.token == th.ticket.token)
    requires SameGeneration(t.core, th.ticket) <==>
             SameGeneration(s.core, th.ticket) && !Membership(entry, th.ticket.printer.serial)
    requires SameGeneration(t.core, th.ticket) ==>
               Owns(t.core, th.ticket) && (th.Finishing? || th.ticket.printer in t.core.printers)
    ensures ReconnectOk(t, th)
  {
    OrderedMore(s.log, entry, th.ticket.token);
    UnchangedMore(s.log, entry, th.ticket.printer.serial, th.ticket.token);
  }

  lemma BeginAddKnows(s: System, config: Config, th: Thread)
    requires CoreOk(s.core) && KnowsOk(s, th) && (LiveReconnect(th) ==> ThreadOk(s, th))
    ensures KnowsOk(Apply(s, BeginAdd(config)), th)
  {
    var t := Apply(s, BeginAdd(config));
    if t.log != s.log {
      var entry := t.log[|s.log|];
      assert Grows(s, t, entry);
      if Adding(th) {
        AddGrows(s, t, entry, th);
      } else if LiveReconnect(th) {
        ReconnectGrows(s, t, entry, th);
      }
    }
  }

  lemma RemoveKnowsAdd(s: System, serial: Serial, th: Thread)
    requires Adding(th) && AddOk(s, th)
    ensures AddOk(Apply(s, RemoveSerial(serial)), th)
  {
    var t := Apply(s, RemoveSerial(serial));
    if t.log != s.log {
      AddGrows(s, t, Removed(serial), th);
    }
  }

  lemma RemoveTickets(core: Core, serial: Serial, ticket: Ticket)
    requires ticket.generation <= GetOr(core.generations, ticket.printer.serial, 0)
    ensures var (after, _, removed) := Remove(core, serial);
            if removed && ticket.printer.serial == serial then !SameGeneration(after, ticket)
            else (SameGeneration(after, ticket) <==> SameGeneration(core, ticket)) &&
                 (Owns(after, ticket) <==> Owns(core, ticket))
  {
  }

  lemma RemoveMembers(core: Core, serial: Serial, p: Printer)
    requires CoreOk(core) && p in core.printers && p.serial != serial
    ensures p in Remove(core, serial).0.printers
  {
    RemoveOk(core, serial);
  }

  lemma RemoveKnowsReconnect(s: System, serial: Serial, th: Thread)
    requires CoreOk(s.core) && LiveReconnect(th) && ReconnectOk(s, th) && ThreadOk(s, th)
    ensures ReconnectOk(Apply(s, RemoveSerial(serial)), th)
  {
    var t := Apply(s, RemoveSerial(serial));
    if t.log != s.log {
      RemoveTickets(s.core, serial, th.ticket);
      if th.ticket.printer in s.core.printers && th.ticket.printer.serial != serial {
        RemoveMembers(s.core, serial, th.ticket.printer);
      }
      ReconnectGrows(s, t, Removed(serial), th);
    }
  }

  lemma CommitAddKnowsAdd(s: System, tid: nat, th: Thread)
    requires Enabled(s, CommitAdd(tid)) && s.threads[tid].printer.serial == s.threads[tid].config.serial
    requires Adding(th) && AddOk(s, th) && Apart(s.threads[tid], th)
    ensures AddOk(Apply(s, CommitAdd(tid)), th)
  {
    var t := Apply(s, CommitAdd(tid));
    if t.log != s.log {
      AddGrows(s, t, Added(s.threads[tid].printer.serial, s.threads[tid].config), th);
    }
  }

  lemma CommitAddKnowsReconnect(s: System, tid: nat, th: Thread)
    requires CoreOk(s.core) && Enabled(s, CommitAdd(tid)) && ThreadOk(s, s.threads[tid])
    requires LiveReconnect(th) && ReconnectOk(s, th) && ThreadOk(s, th)
    ensures ReconnectOk(Apply(s, CommitAdd(tid)), th)
  {
    var t := Apply(s, CommitAdd(tid));
    var adder := s.threads[tid];
    AddCommitOk(s.core, adder.printer, adder.config, adder.generation);
    if t.log != s.log {
      ReconnectGrows(s, t, Added(adder.printer.serial, adder.config), th);
    }
  }

  lemma ScheduleKnows(s: System, printer: Printer, ip: string, th: Thread)
    requires CoreOk(s.core) && KnowsOk(s, th)
    ensures KnowsOk(Apply(s, ScheduleReconnect(printer, ip)), th)
  {
    var t := Apply(s, ScheduleReconnect(printer, ip));
    if t.log != s.log {
      var entry := t.log[|s.log|];
      assert Grows(s, t, entry);
      if Adding(th) {
        AddGrows(s, t, entry, th);
      } else if LiveReconnect(th) {
        ReconnectGrows(s, t, entry, th);
      }
    }
  }

  lemma OneOwner(core: Core, a: Ticket, b: Ticket)
    requires Owns(core, a) && Owns(core, b) && a.printer == b.printer
    ensures a.token == b.token
  {
  }

  lemma SwapKnows(s: System, t: System, swapper: Thread, th: Thread)
    requires CoreOk(s.core) && swapper.Swapping? && ThreadOk(s, swapper) && swapper.spare !in s.core.printers
    requires t.core == Swap(s.core, swapper.ticket, swapper.spare).0 && Swap(s.core, swapper.ticket, swapper.spare).1
    requires Grows(s, t, Swapped(swapper.ticket.printer.serial, swapper.ticket.token))
    requires KnowsOk(s, th) && Apart(swapper, th)
    ensures KnowsOk(t, th)
  {
    var entry := Swapped(swapper.ticket.printer.serial, swapper.ticket.token);
    if Adding(th) {
      AddGrows(s, t, entry, th);
    } else if LiveReconnect(th) {
      SwapOk(s.core, swapper.ticket, swapper.spare);
      if SameGeneration(s.core, th.ticket) && th.ticket.printer == swapper.ticket.printer {
        OneOwner(s.core, th.ticket, swapper.ticket);
      }
      ReconnectGrows(s, t, entry, th);
    }
  }

  lemma FinishKnows(s: System, t: System, ticket: Ticket, th: Thread)
    requires KnowsOk(s, th) && (LiveReconnect(th) ==> th.ticket.token != ticket.token)
    requires t.core == Finish(s.core, ticket) && t.log == s.log && t.nextToken == s.nextToken
    ensures KnowsOk(t, th)
  {
  }

  lemma PlainStepKnows(s: System, step: Step, th: Thread)
    requires Enabled(s, step) && KnowsOk(s, th)
    requires step.MakeAdded? || step.FailAdd? || step.Dial? || step.CheckStart? || step.Probe? || step.Prove? ||
             step.Make? || step.Connect? || step.Disconnect? || step.LateConnect?
    ensures KnowsOk(Apply(s, step), th)
  {
    var t := Apply(s, step);
    assert t.core == s.core && t.log == s.log && t.nextToken == s.nextToken;
  }

  lemma OtherKnows(s: System, step: Step, th: Thread)
    requires Inv(s) && Enabled(s, step) && KnowsOk(s, th) && (LiveReconnect(th) ==> ThreadOk(s, th))
    requires Mover(s, step) in s.threads ==> Apart(s.threads[Mover(s, step)], th)
    ensures KnowsOk(Apply(s, step), th)
  {
    match step {
      case BeginAdd(config) => BeginAddKnows(s, config, th);
      case RemoveSerial(serial) =>
        if Adding(th) {
          RemoveKnowsAdd(s, serial, th);
        } else if LiveReconnect(th) {
          RemoveKnowsReconnect(s, serial, th);
        }
      case CommitAdd(tid) =>
        assert ThreadOk(s, s.threads[tid]);
        if Adding(th) {
          CommitAddKnowsAdd(s, tid, th);
        } else if LiveReconnect(th) {
          CommitAddKnowsReconnect(s, tid, th);
        }
      case ScheduleReconnect(printer, ip) => ScheduleKnows(s, printer, ip, th);
      case CommitSwap(tid) => SwapStepKnows(s, tid, th);
      case FailStart(tid) => FinishKnows(s, Apply(s, step), s.threads[tid].ticket, th);
      case Finalise(tid) => FinishKnows(s, Apply(s, step), s.threads[tid].ticket, th);
      case _ => PlainStepKnows(s, step, th);
    }
  }

  lemma SwapStepKnows(s: System, tid: nat, th: Thread)
    requires Inv(s) && Enabled(s, CommitSwap(tid)) && KnowsOk(s, th) && Apart(s.threads[tid], th)
    ensures KnowsOk(Apply(s, CommitSwap(tid)), th)
  {
    assert OwnerAt(s, tid) == Some(s.threads[tid].spare) && ThreadOk(s, s.threads[tid]);
    if Apply(s, CommitSwap(tid)).log != s.log {
      SwapKnows(s, Apply(s, CommitSwap(tid)), s.threads[tid], th);
    }
  }

  // ---------------------------------------------------------------------------
  // What the moving thread knows
  // ---------------------------------------------------------------------------

  lemma BegunKnows(s: System, config: Config)
    requires Inv(s)
    ensures var t := Apply(s, BeginAdd(config));
            s.nextThread in t.threads ==> s.nextThread in s.threads || KnowsOk(t, t.threads[s.nextThread])
  {
    var t := Apply(s, BeginAdd(config));
    if t.log != s.log {
      var entry := t.log[|s.log|];
      assert t.log == s.log + [entry];
      AddStandsMore(s.log, entry, config.serial, entry.generation);
    }
  }

  lemma ScheduledKnows(s: System, printer: Printer, ip: string)
    requires Inv(s)
    ensures var t := Apply(s, ScheduleReconnect(printer, ip));
            s.nextThread in t.threads ==> s.nextThread in s.threads || KnowsOk(t, t.threads[s.nextThread])
  {
    var t := Apply(s, ScheduleReconnect(printer, ip));
    ScheduleOk(s.core, printer, ip, s.nextToken);
    if t.log != s.log {
      var entry := t.log[|s.log|];
      assert t.log == s.log + [entry];
      OrderedMore(s.log, entry, s.nextToken);
      assert HasMember(s.core, printer.serial);
    }
  }

  lemma MovedKnows(s: System, step: Step)
    requires Inv(s) && Enabled(s, step) && Mover(s, step) in s.threads && KnowsOk(s, s.threads[Mover(s, step)])
    ensures var t := Apply(s, step);
            Mover(s, step) in t.threads ==> KnowsOk(t, t.threads[Mover(s, step)])
  {
    var tid := Mover(s, step);
    assert ThreadOk(s, s.threads[tid]);
    if step.CommitSwap? {
      SwapperKnows(s, tid);
    } else {
      PlainMoverKnows(s, step);
    }
  }

  lemma PlainMoverKnows(s: System, step: Step)
    requires ThreadsNumbered(s) && Enabled(s, step) && !step.CommitSwap?
    requires Mover(s, step) in s.threads && KnowsOk(s, s.threads[Mover(s, step)])
    ensures var t := Apply(s, step);
            Mover(s, step) in t.threads ==> KnowsOk(t, t.threads[Mover(s, step)])
  {
  }

  lemma SwapperKnows(s: System, tid: nat)
    requires Inv(s) && Enabled(s, CommitSwap(tid)) && KnowsOk(s, s.threads[tid])
    ensures var t := Apply(s, CommitSwap(tid)); KnowsOk(t, t.threads[tid])
  {
    var swapper := s.threads[tid];
    var t := Apply(s, CommitSwap(tid));
    if t.log != s.log {
      var entry := Swapped(swapper.ticket.printer.serial, swapper.ticket.token);
      assert t.log == s.log + [entry];
      OrderedMore(s.log, entry, swapper.ticket.token);
      UnchangedMore(s.log, entry, swapper.ticket.printer.serial, swapper.ticket.token);
    }
  }

  // ---------------------------------------------------------------------------
  // Every step keeps the history
  // ---------------------------------------------------------------------------

  lemma KnowsKept(s: System, step: Step)
    requires History(s) && Enabled(s, step)
    ensures forall t <- Apply(s, step).threads :: KnowsOk(Apply(s, step), Apply(s, step).threads[t])
  {
    var after := Apply(s, step);
    var tid := Mover(s, step);
    forall t | t in after.threads
      ensures KnowsOk(after, after.threads[t])
    {
      if t != tid {
        OnlyMoverMoves(s, step, t);
        assert ThreadOk(s, s.threads[t]);
        OtherKnows(s, step, s.threads[t]);
      } else if tid in s.threads {
        MovedKnows(s, step);
      } else {
        NewKnows(s, step);
      }
    }
  }

  lemma NewKnows(s: System, step: Step)
    requires Inv(s) && Enabled(s, step) && Mover(s, step) !in s.threads && Mover(s, step) in Apply(s, step).threads
    ensures KnowsOk(Apply(s, step), Apply(s, step).threads[Mover(s, step)])
  {
    match step {
      case BeginAdd(config) => BegunKnows(s, config);
      case ScheduleReconnect(printer, ip) => ScheduledKnows(s, printer, ip);
      case _ =>
    }
  }

  /** A thread that goes on keeps what told it apart. */
  lemma MoverKeeps(s: System, step: Step)
    requires Enabled(s, step) && Mover(s, step) in s.threads && Mover(s, step) in Apply(s, step).threads
    requires !step.BeginAdd? && !step.RemoveSerial? && !step.ScheduleReconnect?
    ensures var a, b := s.threads[Mover(s, step)], Apply(s, step).threads[Mover(s, step)];
            (Adding(b) ==> Adding(a) && a.config == b.config && a.generation == b.generation) &&
            (LiveReconnect(b) ==> LiveReconnect(a) && a.ticket == b.ticket)
  {
  }

  /** A new one gets a generation or a token of its own. */
  lemma NewIsApart(s: System, step: Step, other: Thread)
    requires ThreadsNumbered(s) && Enabled(s, step) && KnowsOk(s, other) && s.nextThread in Apply(s, step).threads
    requires step.BeginAdd? || step.RemoveSerial? || step.ScheduleReconnect?
    ensures Apart(Apply(s, step).threads[s.nextThread], other)
  {
  }

  lemma MoverApart(s: System, step: Step, other: Thread)
    requires ThreadsNumbered(s) && Enabled(s, step) && KnowsOk(s, other) && Mover(s, step) in Apply(s, step).threads
    requires Mover(s, step) in s.threads ==> Apart(s.threads[Mover(s, step)], other)
    ensures Apart(Apply(s, step).threads[Mover(s, step)], other)
  {
    if step.BeginAdd? || step.RemoveSerial? || step.ScheduleReconnect? {
      NewIsApart(s, step, other);
    } else {
      MoverStood(s, step);
      MoverKeeps(s, step);
    }
  }

  lemma MoverStood(s: System, step: Step)
    requires ThreadsNumbered(s) && Enabled(s, step) && Mover(s, step) in Apply(s, step).threads
    requires !step.BeginAdd? && !step.RemoveSerial? && !step.ScheduleReconnect?
    ensures Mover(s, step) in s.threads
  {
  }

  lemma ApartIsMutual(a: Thread, b: Thread)
    ensures Apart(a, b) == Apart(b, a)
  {
  }

  lemma ApartKept(s: System, step: Step)
    requires History(s) && Enabled(s, step)
    ensures var t := Apply(s, step);
            forall u, v :: u in t.threads && v in t.threads && u != v ==> Apart(t.threads[u], t.threads[v])
  {
    var t, m := Apply(s, step), Mover(s, step);
    forall u, v | u in t.threads && v in t.threads && u != v
      ensures Apart(t.threads[u], t.threads[v])
    {
      if u != m {
        OnlyMoverMoves(s, step, u);
      }
      if v != m {
        OnlyMoverMoves(s, step, v);
      }
      if u == m {
        MoverApart(s, step, s.threads[v]);
      } else if v == m {
        MoverApart(s, step, s.threads[u]);
        ApartIsMutual(t.threads[u], t.threads[v]);
      }
    }
  }

  // Reservations.
  lemma HolderStays(s: System, step: Step, serial: Serial, tid: nat)
    requires Inv(s) && Enabled(s, step) && HeldBy(s, serial, tid) && serial in Apply(s, step).core.reconnects
    requires Apply(s, step).core.reconnects[serial] == s.core.reconnects[serial]
    requires !((step.FailStart? || step.Finalise?) && step.tid == tid)
    ensures HeldBy(Apply(s, step), serial, tid)
  {
    if tid != Mover(s, step) {
      OnlyMoverMoves(s, step, tid);
    }
  }

  lemma ReservationsKept(s: System, step: Step)
    requires History(s) && Enabled(s, step)
    ensures ReservationsOk(Apply(s, step))
  {
    var t := Apply(s, step);
    forall serial | serial in t.core.reconnects
      ensures HasMember(t.core, serial) && serial in t.core.generations
      ensures t.core.reconnects[serial].0 == t.core.generations[serial]
      ensures exists tid :: HeldBy(t, serial, tid)
    {
      if step.ScheduleReconnect? {
        ScheduleStands(s, step.printer, step.ip, serial);
      } else {
        OnlySchedulesReserve(s, step, serial);
        ReservationStays(s, step, serial);
      }
      if serial in s.core.reconnects {
        var tid :| HeldBy(s, serial, tid);
        if step.FailStart? || step.Finalise? {
          FinishedWasHolder(s, step, serial);
        }
        HolderStays(s, step, serial, tid);
      }
    }
  }

  lemma OnlySchedulesReserve(s: System, step: Step, serial: Serial)
    requires Enabled(s, step) && !step.ScheduleReconnect? && serial in Apply(s, step).core.reconnects
    ensures serial in s.core.reconnects
  {
  }

  /** The reservation, generation and membership of a serial, from one state of the fleet to another. */
  ghost predicate SameStanding(a: Core, b: Core, serial: Serial) {
    (serial in b.reconnects ==>
       serial in a.reconnects && b.reconnects[serial] == a.reconnects[serial] &&
       (serial in a.generations <==> serial in b.generations) &&
       (serial in a.generations ==> b.generations[serial] == a.generations[serial]) &&
       (HasMember(a, serial) ==> HasMember(b, serial)))
  }

  lemma SamePrintersStand(a: Core, b: Core, serial: Serial)
    requires b.printers == a.printers && b.generations == a.generations
    requires serial in b.reconnects ==> serial in a.reconnects && b.reconnects[serial] == a.reconnects[serial]
    ensures SameStanding(a, b, serial)
  {
  }

  lemma AddBeginStands(core: Core, added: Serial, serial: Serial)
    requires HasMember(core, serial)
    ensures SameStanding(core, AddBegin(core, added).0, serial)
  {
    FirstWithMember(core, added);
  }

  lemma AddCommitStands(core: Core, printer: Printer, config: Config, generation: nat, serial: Serial)
    requires CoreOk(core) && config.serial == printer.serial
    ensures SameStanding(core, AddCommit(core, printer, config, generation).0, serial)
  {
    AddCommitOk(core, printer, config, generation);
    var after := AddCommit(core, printer, config, generation).0;
    assert forall p <- core.printers :: p in after.printers;
  }

  lemma RemoveStands(core: Core, gone: Serial, serial: Serial)
    requires CoreOk(core)
    ensures SameStanding(core, Remove(core, gone).0, serial)
  {
    RemoveOk(core, gone);
    if p :| p in core.printers && p.serial == serial && serial != gone {
      assert p in Remove(core, gone).0.printers;
    }
  }

  lemma SwapStands(core: Core, ticket: Ticket, spare: Printer, serial: Serial)
    requires CoreOk(core) && spare.serial == ticket.printer.serial == ticket.config.serial && spare !in core.printers
    ensures SameStanding(core, Swap(core, ticket, spare).0, serial)
  {
    SwapOk(core, ticket, spare);
    var (after, swapped) := Swap(core, ticket, spare);
    if swapped {
      if p :| p in core.printers && p.serial == serial {
        assert spare in after.printers && (p != ticket.printer ==> p in after.printers);
      }
    }
  }

  lemma ReservationStays(s: System, step: Step, serial: Serial)
    requires Inv(s) && Enabled(s, step) && !step.ScheduleReconnect? && HasMember(s.core, serial)
    ensures SameStanding(s.core, Apply(s, step).core, serial)
  {
    if step.BeginAdd? {
      AddBeginStands(s.core, step.config.serial, serial);
    } else if step.CommitAdd? {
      var th := s.threads[step.tid];
      assert ThreadOk(s, th);
      AddCommitStands(s.core, th.printer, th.config, th.generation, serial);
    } else if step.RemoveSerial? {
      RemoveStands(s.core, step.serial, serial);
    } else if step.CommitSwap? {
      var th := s.threads[step.tid];
      assert ThreadOk(s, th) && OwnerAt(s, step.tid) == Some(th.spare);
      SwapStands(s.core, th.ticket, th.spare, serial);
    } else {
      PlainStepStands(s, step, serial);
    }
  }

  lemma PlainStepStands(s: System, step: Step, serial: Serial)
    requires Enabled(s, step) && !step.BeginAdd? && !step.CommitAdd? && !step.RemoveSerial?
    requires !step.CommitSwap? && !step.ScheduleReconnect?
    ensures SameStanding(s.core, Apply(s, step).core, serial)
  {
    SamePrintersStand(s.core, Apply(s, step).core, serial);
  }

  lemma ScheduleStands(s: System, printer: Printer, ip: string, serial: Serial)
    requires CoreOk(s.core) && serial in Apply(s, ScheduleReconnect(printer, ip)).core.reconnects
    ensures var t := Apply(s, ScheduleReconnect(printer, ip));
            (serial in s.core.reconnects ==> SameStanding(s.core, t.core, serial)) &&
            (serial !in s.core.reconnects ==>
               HasMember(t.core, serial) && serial in t.core.generations &&
               t.core.reconnects[serial].0 == t.core.generations[serial] && HeldBy(t, serial, s.nextThread))
  {
    var t := Apply(s, ScheduleReconnect(printer, ip));
    ScheduleOk(s.core, printer, ip, s.nextToken);
    if serial in s.core.reconnects {
      SamePrintersStand(s.core, t.core, serial);
    } else {
      assert printer in t.core.printers;
    }
  }

  lemma FinishedWasHolder(s: System, step: Step, serial: Serial)
    requires Enabled(s, step) && (step.FailStart? || step.Finalise?) && serial in Apply(s, step).core.reconnects
    ensures !HeldBy(s, serial, step.tid)
  {
  }

  lemma HistoryKept(s: System, step: Step)
    requires History(s) && Enabled(s, step)
    ensures History(Apply(s, step))
  {
    StepKeepsInv(s, step);
    KnowsKept(s, step);
    ApartKept(s, step);
    ReservationsKept(s, step);
  }

  lemma {:induction false} RunKeepsHistory(start: System, steps: seq<Step>, s: System)
    requires Reachable(start, steps, s)
    ensures History(s)
  {
    if steps == [] {
      InitialInv(start);
    } else {
      var before := Run(start, steps[..|steps| - 1]).value;
      RunKeepsHistory(start, steps[..|steps| - 1], before);
      HistoryKept(before, steps[|steps| - 1]);
    }
  }

  // ---------------------------------------------------------------------------
  // Main results
  // ---------------------------------------------------------------------------

  /** An add lands if and only if its serial was not removed since it began. */
  lemma AddLandsIff(start: System, steps: seq<Step>, s: System, tid: nat)
    requires Reachable(start, steps, s) && tid in s.threads && s.threads[tid].AddConnecting?
    ensures var th := s.threads[tid];
            AddCommit(s.core, th.printer, th.config, th.generation).1 <==>
            AddStands(s.log, th.printer.serial, th.generation)
  {
    RunKeepsHistory(start, steps, s);
    var th := s.threads[tid];
    assert KnowsOk(s, th) && ThreadOk(s, th);
    FirstWithMember(s.core, th.printer.serial);
  }

  /** A swap goes through if and only if no add or remove of its serial ran since it was scheduled. */
  lemma SwapLandsIff(start: System, steps: seq<Step>, s: System, tid: nat)
    requires Reachable(start, steps, s) && tid in s.threads && s.threads[tid].Swapping?
    ensures var th := s.threads[tid];
            Swap(s.core, th.ticket, th.spare).1 <==> UnchangedSince(s.log, th.ticket.printer.serial, th.ticket.token)
  {
    RunKeepsHistory(start, steps, s);
    var th := s.threads[tid];
    assert KnowsOk(s, th) && ThreadOk(s, th);
    IndexOfFinds(s.core.printers, th.ticket.printer);
  }

  /** A reconnect that has not dialled goes on if and only if no add or remove of its serial ran since. */
  lemma GoesOnIff(start: System, steps: seq<Step>, s: System, tid: nat)
    requires Reachable(start, steps, s) && tid in s.threads && (s.threads[tid].Started? || s.threads[tid].Probing?)
    ensures var ticket := s.threads[tid].ticket;
            StillCurrent(s.core, ticket) <==> UnchangedSince(s.log, ticket.printer.serial, ticket.token)
  {
    RunKeepsHistory(start, steps, s);
    var th := s.threads[tid];
    assert KnowsOk(s, th) && ThreadOk(s, th);
  }

  /** A live reconnect of the serial's current membership. */
  ghost predicate ReconnectsNow(s: System, serial: Serial, tid: nat) {
    tid in s.threads && LiveReconnect(s.threads[tid]) && s.threads[tid].ticket.printer.serial == serial &&
    SameGeneration(s.core, s.threads[tid].ticket)
  }

  /**
   * A reconnect of a printer starts if and only if that object is the member, no reconnect of its
   * current membership is live, and fewer than two of its serial are.
   */
  lemma ReconnectStartsIff(start: System, steps: seq<Step>, s: System, printer: Printer, ip: string)
    requires Reachable(start, steps, s)
    ensures Schedule(s.core, printer, ip, s.nextToken).1.Some? <==>
            printer in s.core.printers && (forall tid :: !ReconnectsNow(s, printer.serial, tid)) &&
            |Slots(s.threads, printer.serial)| < MAX_RECONNECT_WORKERS
  {
    RunKeepsHistory(start, steps, s);
    FirstWithMember(s.core, printer.serial);
    MemberIsFirst(s.core, printer);
    assert |Slots(s.threads, printer.serial)| == GetOr(s.core.counts, printer.serial, 0);
    if printer.serial in s.core.reconnects {
      var tid :| HeldBy(s, printer.serial, tid);
      assert ReconnectsNow(s, printer.serial, tid);
    } else {
      forall tid
        ensures !ReconnectsNow(s, printer.serial, tid)
      {
        assert tid in s.threads ==> KnowsOk(s, s.threads[tid]);
      }
    }
  }

  lemma MemberIsFirst(core: Core, printer: Printer)
    requires CoreOk(core)
    ensures FirstWith(core.printers, printer.serial) == Some(printer) <==> printer in core.printers
    ensures printer in core.printers ==> printer.serial in core.configs
  {
    FirstWithMember(core, printer.serial);
    if printer in core.printers {
      assert HasMember(core, printer.serial);
      SerialsDecide(core.printers, printer, FirstWith(core.printers, printer.serial).value);
    }
  }

  /**
   * A reconnect dials, and would put in place, the config its serial had when it was scheduled, at
   * the address asked for.
   */
  lemma TicketIsOrdered(start: System, steps: seq<Step>, s: System, tid: nat)
    requires Reachable(start, steps, s) && tid in s.threads && LiveReconnect(s.threads[tid])
    ensures Ordered(s.log, s.threads[tid].ticket.token) == Some(s.threads[tid].ticket.config)
  {
    RunKeepsHistory(start, steps, s);
    assert KnowsOk(s, s.threads[tid]);
  }

  lemma SwapConfig(core: Core, ticket: Ticket, spare: Printer, serial: Serial)
    ensures var (after, swapped) := Swap(core, ticket, spare);
            ConfigOf(after, serial) ==
            if swapped && serial == ticket.printer.serial then Some(ticket.config) else ConfigOf(core, serial)
  {
  }

  lemma RemoveConfig(core: Core, gone: Serial, serial: Serial)
    ensures var (after, _, removed) := Remove(core, gone);
            ConfigOf(after, serial) == if removed && serial == gone then None else ConfigOf(core, serial)
  {
  }

  lemma AddConfig(core: Core, printer: Printer, config: Config, generation: nat, serial: Serial)
    ensures var (after, added) := AddCommit(core, printer, config, generation);
            ConfigOf(after, serial) ==
            if added && serial == printer.serial then Some(config) else ConfigOf(core, serial)
  {
  }

  /** What an entry says of its serial's config. */
  function ConfigAfter(log: seq<Entry>, entry: Option<Entry>, serial: Serial, before: Option<Config>): Option<Config> {
    if entry.None? then before
    else
      match entry.value
      case Added(x, config) => if x == serial then Some(config) else before
      case Removed(x) => if x == serial then None else before
      case Swapped(x, token) => if x == serial then Ordered(log, token) else before
      case _ => before
  }

  function NewEntry(s: System, step: Step): Option<Entry>
    requires Enabled(s, step)
  {
    var log := Apply(s, step).log;
    if |log| > |s.log| then Some(log[|s.log|]) else None
  }

  lemma LogGrows(s: System, step: Step)
    requires Enabled(s, step)
    ensures Apply(s, step).log == s.log + if NewEntry(s, step).Some? then [NewEntry(s, step).value] else []
  {
  }

  lemma SwapChanges(s: System, tid: nat, serial: Serial)
    requires Enabled(s, CommitSwap(tid))
    requires Ordered(s.log, s.threads[tid].ticket.token) == Some(s.threads[tid].ticket.config)
    ensures ConfigOf(Apply(s, CommitSwap(tid)).core, serial) ==
            ConfigAfter(s.log, NewEntry(s, CommitSwap(tid)), serial, ConfigOf(s.core, serial))
  {
    SwapConfig(s.core, s.threads[tid].ticket, s.threads[tid].spare, serial);
  }

  lemma AddChanges(s: System, tid: nat, serial: Serial)
    requires Enabled(s, CommitAdd(tid))
    ensures ConfigOf(Apply(s, CommitAdd(tid)).core, serial) ==
            ConfigAfter(s.log, NewEntry(s, CommitAdd(tid)), serial, ConfigOf(s.core, serial))
  {
    var th := s.threads[tid];
    AddConfig(s.core, th.printer, th.config, th.generation, serial);
  }

  lemma RemoveChanges(s: System, gone: Serial, serial: Serial)
    ensures ConfigOf(Apply(s, RemoveSerial(gone)).core, serial) ==
            ConfigAfter(s.log, NewEntry(s, RemoveSerial(gone)), serial, ConfigOf(s.core, serial))
  {
    RemoveConfig(s.core, gone, serial);
  }

  lemma OthersChangeNothing(s: System, step: Step, serial: Serial)
    requires Enabled(s, step) && !step.CommitAdd? && !step.RemoveSerial? && !step.CommitSwap?
    ensures ConfigOf(Apply(s, step).core, serial) == ConfigOf(s.core, serial)
    ensures ConfigAfter(s.log, NewEntry(s, step), serial, ConfigOf(s.core, serial)) == ConfigOf(s.core, serial)
  {
  }

  lemma ConfigChanges(s: System, step: Step, serial: Serial)
    requires History(s) && Enabled(s, step)
    ensures ConfigOf(Apply(s, step).core, serial) ==
            ConfigAfter(s.log, NewEntry(s, step), serial, ConfigOf(s.core, serial))
  {
    if step.CommitSwap? {
      assert KnowsOk(s, s.threads[step.tid]);
      SwapChanges(s, step.tid, serial);
    } else if step.CommitAdd? {
      AddChanges(s, step.tid, serial);
    } else if step.RemoveSerial? {
      RemoveChanges(s, step.serial, serial);
    } else {
      OthersChangeNothing(s, step, serial);
    }
  }

  lemma ConfigStep(first: map<Serial, Config>, s: System, step: Step, serial: Serial)
    requires History(s) && Enabled(s, step) && ConfigOf(s.core, serial) == ConfigNow(first, s.log, serial)
    ensures ConfigOf(Apply(s, step).core, serial) == ConfigNow(first, Apply(s, step).log, serial)
  {
    ConfigChanges(s, step, serial);
    LogGrows(s, step);
    var entry := NewEntry(s, step);
    if entry.Some? {
      ConfigMore(first, s.log, entry.value, serial);
    } else {
      assert Apply(s, step).log == s.log;
    }
  }

  /**
   * The config of every serial, over any run, is the one its log tells: the one it was last added
   * with, or at its last swap the one it had when that reconnect was scheduled, at the address then
   * asked for; and nothing else changes it.
   */
  lemma {:induction false} ConfigsFollowTheLog(start: System, steps: seq<Step>, s: System, serial: Serial)
    requires Reachable(start, steps, s)
    ensures ConfigOf(s.core, serial) == ConfigNow(start.core.configs, s.log, serial)
  {
    if steps != [] {
      var before := Run(start, steps[..|steps| - 1]).value;
      ConfigsFollowTheLog(start, steps[..|steps| - 1], before, serial);
      RunKeepsHistory(start, steps[..|steps| - 1], before);
      ConfigStep(start.core.configs, before, steps[|steps| - 1], serial);
    }
  }

  /** And a schedule notes the config there is and the address asked for. */
  lemma ScheduleNotesConfig(s: System, printer: Printer, ip: string)
    requires Apply(s, ScheduleReconnect(printer, ip)).log != s.log
    ensures ConfigOf(s.core, printer.serial).Some?
    ensures Apply(s, ScheduleReconnect(printer, ip)).log ==
            s.log + [Scheduled(printer.serial, s.nextToken, ConfigOf(s.core, printer.serial).value, ip)]
  {
  }

  // ---------------------------------------------------------------------------
  // Adds in progress
  // ---------------------------------------------------------------------------

  /** What an entry says of the add of a serial. */
  function AddAfter(entry: Option<Entry>, serial: Serial, before: Option<nat>): Option<nat> {
    if entry.None? then before
    else
      match entry.value
      case AddBegan(x, generation) => if x == serial then Some(generation) else before
      case Added(x, _) => if x == serial then None else before
      case Removed(x) => if x == serial then None else before
      case _ => before
  }

  /** The add of this serial that began and neither landed nor was removed. */
  function AddBegun(log: seq<Entry>, serial: Serial): Option<nat> {
    if log == [] then None else AddAfter(Some(log[|log| - 1]), serial, AddBegun(log[..|log| - 1], serial))
  }

  function AddOf(core: Core, serial: Serial): Option<nat> {
    if serial in core.adds then Some(core.adds[serial]) else None
  }

  lemma OnlyLandingSettles(core: Core, printer: Printer, config: Config, generation: nat)
    requires CoreOk(core)
    ensures var (after, added) := AddCommit(core, printer, config, generation);
            after.adds == if added then core.adds - {printer.serial} else core.adds
  {
    FirstWithMember(core, printer.serial);
  }

  lemma OthersMoveNoAdd(s: System, step: Step, serial: Serial)
    requires Enabled(s, step) && !step.BeginAdd? && !step.CommitAdd? && !step.RemoveSerial?
    ensures AddOf(Apply(s, step).core, serial) == AddOf(s.core, serial)
    ensures AddAfter(NewEntry(s, step), serial, AddOf(s.core, serial)) == AddOf(s.core, serial)
  {
  }

  lemma BeginMovesAdd(s: System, config: Config, serial: Serial)
    ensures var t := Apply(s, BeginAdd(config));
            AddOf(t.core, serial) == AddAfter(NewEntry(s, BeginAdd(config)), serial, AddOf(s.core, serial))
  {
  }

  lemma RemovalMovesAdd(s: System, gone: Serial, serial: Serial)
    ensures var t := Apply(s, RemoveSerial(gone));
            AddOf(t.core, serial) == AddAfter(NewEntry(s, RemoveSerial(gone)), serial, AddOf(s.core, serial))
  {
  }

  lemma LandingMovesAdd(s: System, tid: nat, serial: Serial)
    requires CoreOk(s.core) && Enabled(s, CommitAdd(tid))
    ensures var t := Apply(s, CommitAdd(tid));
            AddOf(t.core, serial) == AddAfter(NewEntry(s, CommitAdd(tid)), serial, AddOf(s.core, serial))
  {
    var th := s.threads[tid];
    OnlyLandingSettles(s.core, th.printer, th.config, th.generation);
  }

  lemma AddsMove(s: System, step: Step, serial: Serial)
    requires CoreOk(s.core) && Enabled(s, step)
    ensures AddOf(Apply(s, step).core, serial) == AddAfter(NewEntry(s, step), serial, AddOf(s.core, serial))
  {
    if step.CommitAdd? {
      LandingMovesAdd(s, step.tid, serial);
    } else if step.BeginAdd? {
      BeginMovesAdd(s, step.config, serial);
    } else if step.RemoveSerial? {
      RemovalMovesAdd(s, step.serial, serial);
    } else {
      OthersMoveNoAdd(s, step, serial);
    }
  }

  lemma AddBegunMore(log: seq<Entry>, entry: Option<Entry>, serial: Serial)
    ensures AddBegun(log + if entry.Some? then [entry.value] else [], serial) ==
            AddAfter(entry, serial, AddBegun(log, serial))
  {
    if entry.Some? {
      assert (log + [entry.value])[..|log|] == log;
    } else {
      assert log + [] == log;
    }
  }

  lemma {:induction false} AddsFollowTheLog(start: System, steps: seq<Step>, s: System, serial: Serial)
    requires Reachable(start, steps, s)
    ensures AddOf(s.core, serial) == AddBegun(s.log, serial)
  {
    if steps != [] {
      var init, step := steps[..|steps| - 1], steps[|steps| - 1];
      var before := Run(start, init).value;
      AddsFollowTheLog(start, init, before, serial);
      RunKeepsHistory(start, init, before);
      AddsMove(before, step, serial);
      LogGrows(before, step);
      AddBegunMore(before.log, NewEntry(before, step), serial);
    }
  }

  /** An add begins if and only if its serial is neither a member nor being added. */
  lemma AddBeginsIff(start: System, steps: seq<Step>, s: System, serial: Serial)
    requires Reachable(start, steps, s)
    ensures AddBegin(s.core, serial).1.Some? <==>
            (forall p <- s.core.printers :: p.serial != serial) && AddBegun(s.log, serial).None?
  {
    AddsFollowTheLog(start, steps, s, serial);
    FirstWithFinds(s.core.printers, serial);
  }

  /**
   * A removal does something if and only if its serial is a member or being added. It then takes
   * out exactly that member, and ends the add.
   */
  lemma RemovalActsIff(start: System, steps: seq<Step>, s: System, serial: Serial)
    requires Reachable(start, steps, s)
    ensures var (after, _, removed) := Remove(s.core, serial);
            (removed <==> HasMember(s.core, serial) || AddBegun(s.log, serial).Some?) &&
            (forall p :: p in after.printers <==> p in s.core.printers && p.serial != serial) &&
            serial !in after.adds && serial !in after.configs && (removed ==> serial !in after.reconnects)
  {
    RunKeepsHistory(start, steps, s);
    AddsFollowTheLog(start, steps, s, serial);
    FirstWithMember(s.core, serial);
    RemoveOk(s.core, serial);
    var (after, printer, removed) := Remove(s.core, serial);
    forall p
      ensures p in after.printers <==> p in s.core.printers && p.serial != serial
    {
      if p in s.core.printers && p.serial == serial {
        assert HasMember(s.core, serial);
        SerialsDecide(s.core.printers, p, printer.value);
      }
    }
  }
}
