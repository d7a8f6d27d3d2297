/**
 * One command thread per printer (bridge/printer_worker.py).
 *
 * Callers submit and stop from any thread. Each critical section under the worker's lock is one
 * step, but for `stop`: it empties the queue one job a step, and the worker thread, which takes
 * jobs without the lock, may get some of them first. Jobs are numbered in the order accepted.
 */
module PrinterWorker {
  import opened Base

  type Job = nat

  // ---------------------------------------------------------------------------
  // The fields the lock protects, and the sections that change them
  // ---------------------------------------------------------------------------

  datatype Shared = Shared(queue: seq<Job>, queued: int, running: bool, stopped: bool)

  function Max0(n: int): int { if n < 0 then 0 else n }

  predicate IsBusy(s: Shared) { s.queued > 0 || s.running }

  function SubmitSection(s: Shared, size: nat, job: Job): (Shared, bool) {
    if s.stopped || s.queued >= size then (s, false)
    else if |s.queue| >= size then (s, false)  // queue.Full: the count goes up and back down
    else (s.(queued := s.queued + 1, queue := s.queue + [job]), true)
  }

  // The three parts of `stop`, all under the lock.
  function BeginStopSection(s: Shared): Shared { s.(stopped := true) }

  function DrainSection(s: Shared): Shared
    requires s.queue != []
  {
    s.(queue := s.queue[1..])
  }

  function EndStopSection(s: Shared, drained: nat): Shared { s.(queued := Max0(s.queued - drained)) }

  /** A job already taken off the queue is marked running, or refused once stopped. */
  function TakeSection(s: Shared): (Shared, bool) {
    (s.(queued := Max0(s.queued - 1), running := s.running || !s.stopped), !s.stopped)
  }

  class Worker {
    const size: nat
    var queue: seq<Job>
    var queued: int
    var running: bool
    var stopped: bool

    constructor (size: nat)
      requires size >= 1
      ensures this.size == size && View() == Shared([], 0, false, false)
    {
      this.size := size;
      queue, queued, running, stopped := [], 0, false, false;
    }

    function View(): Shared
      reads this
    {
      Shared(queue, queued, running, stopped)
    }

    method Busy() returns (busy: bool)
      ensures busy == IsBusy(View())
    {
      busy := queued > 0 || running;
    }

    method Submit(job: Job) returns (accepted: bool)
      modifies this
      ensures (View(), accepted) == SubmitSection(old(View()), size, job)
    {
      if stopped {
        return false;
      }
      if queued >= size {
        return false;
      }
      queued := queued + 1;
      if |queue| >= size {
        queued := queued - 1;
        return false;
      }
      queue := queue + [job];
      return true;
    }

    method BeginStop()
      modifies this
      ensures View() == BeginStopSection(old(View()))
    {
      stopped := true;
    }

    /** `get_nowait` */
    method DrainOne() returns (job: Job)
      requires queue != []
      modifies this
      ensures View() == DrainSection(old(View())) && job == old(queue[0])
    {
      job, queue := queue[0], queue[1..];
    }

    method EndStop(drained: seq<Job>)
      modifies this
      ensures View() == EndStopSection(old(View()), |drained|)
    {
      queued := if queued - |drained| < 0 then 0 else queued - |drained|;
    }

    /** A stop the worker thread does not interrupt. */
    method Stop() returns (drained: seq<Job>)
      modifies this
      ensures View() == Shared([], Max0(old(queued) - |old(queue)|), old(running), true) && drained == old(queue)
    {
      BeginStop();
      drained := [];
      while queue != []
        invariant drained + queue == old(queue)
        invariant queued == old(queued) && running == old(running) && stopped
        decreases |queue|
      {
        var job := DrainOne();
        drained := drained + [job];
      }
      EndStop(drained);
    }

    method Take() returns (start: bool)
      modifies this
      ensures (View(), start) == TakeSection(old(View()))
    {
      queued := if queued - 1 < 0 then 0 else queued - 1;
      if stopped {
        start := false;
      } else {
        start := true;
        running := true;
      }
    }

    method Leave()
      modifies this
      ensures View() == old(View()).(running := false)
    {
      running := false;
    }
  }

  // ---------------------------------------------------------------------------
  // The protocol
  // ---------------------------------------------------------------------------

  /** Where the worker thread is. */
  datatype Pc =
    | Polling | SawEmpty | Exited
    | Taken(job: Job)      // off the queue, lock not yet held
    | Refusing(job: Job)   // stopped: about to cancel it
    | Marked(job: Job)     // running, about to enter fn
    | InFn(job: Job)
    | Leaving              // future settled, about to clear running

  datatype Future = Pending | Running | Finished | Cancelled

  datatype Event = Stopped | MarkedRunning(job: Job) | Entered(job: Job)

  /**
   * `stopping` is what the `stop` call that holds the lock has drained so far; `drained` holds the
   * jobs a finished one has still to cancel.
   */
  datatype State = State(
    shared: Shared, size: nat, pc: Pc, futures: seq<Future>, stopping: Option<seq<Job>>, drained: set<Job>,
    started: seq<Job>, trace: seq<Event>)

  datatype Step =
    | Submit | BeginStop | DrainOne | EndStop | CancelDrained(job: Job) | CallerCancels(job: Job)
    | Get | FindEmpty | CheckStop | Take | Refuse | Enter | Finish | Leave

  function Initial(size: nat): State { State(Shared([], 0, false, false), size, Polling, [], None, {}, [], []) }

  predicate LockFree(s: State) { s.stopping.None? }

  predicate Enabled(s: State, step: Step) {
    match step
    case Submit => LockFree(s)
    case BeginStop => LockFree(s)
    case DrainOne => s.stopping.Some? && s.shared.queue != []
    case EndStop => s.stopping.Some? && s.shared.queue == []
    case CancelDrained(job) => job in s.drained && job < |s.futures|
    case CallerCancels(job) => job < |s.futures|
    case Get => s.pc == Polling && s.shared.queue != []
    case FindEmpty => s.pc == Polling && s.shared.queue == []
    case CheckStop => s.pc == SawEmpty
    case Take => s.pc.Taken? && LockFree(s)
    case Refuse => s.pc.Refusing? && s.pc.job < |s.futures|
    case Enter => s.pc.Marked? && s.pc.job < |s.futures|
    case Finish => s.pc.InFn? && s.pc.job < |s.futures|
    case Leave => s.pc == Leaving && LockFree(s)
  }

  /** `Future.cancel`: only a pending future is cancelled. */
  function Cancel(futures: seq<Future>, job: Job): seq<Future>
    requires job < |futures|
  {
    if futures[job] == Pending then futures[job := Cancelled] else futures
  }

  /** The jobs taken off the queue by `stop` calls and not yet cancelled. */
  function Dropped(s: State): set<Job> {
    s.drained + (if s.stopping.Some? then set j <- s.stopping.value else {})
  }

  function Apply(s: State, step: Step): State
    requires Enabled(s, step)
  {
    match step
    case Submit =>
      var (shared, accepted) := SubmitSection(s.shared, s.size, |s.futures|);
      if accepted then s.(shared := shared, futures := s.futures + [Pending]) else s.(shared := shared)
    case BeginStop =>
      s.(shared := BeginStopSection(s.shared), stopping := Some([]), trace := s.trace + [Stopped])
    case DrainOne =>
      s.(shared := DrainSection(s.shared), stopping := Some(s.stopping.value + [s.shared.queue[0]]))
    case EndStop =>
      s.(shared := EndStopSection(s.shared, |s.stopping.value|), drained := Dropped(s), stopping := None)
    case CancelDrained(job) => s.(futures := Cancel(s.futures, job), drained := s.drained - {job})
    case CallerCancels(job) => s.(futures := Cancel(s.futures, job))
    case Get => s.(pc := Taken(s.shared.queue[0]), shared := s.shared.(queue := s.shared.queue[1..]))
    case FindEmpty => s.(pc := SawEmpty)
    case CheckStop => s.(pc := if s.shared.stopped then Exited else Polling)
    case Take =>
      var (shared, start) := TakeSection(s.shared);
      if start then s.(shared := shared, pc := Marked(s.pc.job), trace := s.trace + [MarkedRunning(s.pc.job)])
      else s.(shared := shared, pc := Refusing(s.pc.job))
    case Refuse => s.(futures := Cancel(s.futures, s.pc.job), pc := Polling)
    case Enter =>
      if s.futures[s.pc.job] == Pending then
        s.(futures := s.futures[s.pc.job := Running], pc := InFn(s.pc.job),
           started := s.started + [s.pc.job], trace := s.trace + [Entered(s.pc.job)])
      else s.(pc := Leaving)
    case Finish => s.(futures := s.futures[s.pc.job := Finished], pc := Leaving)
    case Leave => s.(shared := s.shared.(running := false), pc := Polling)
  }

  /** Where a schedule leads, when each of its steps was possible in turn. */
  function Run(size: nat, steps: seq<Step>): Option<State> {
    if steps == [] then Some(Initial(size))
    else
      var before := Run(size, steps[..|steps| - 1]);
      var step := steps[|steps| - 1];
      if before.Some? && Enabled(before.value, step) then Some(Apply(before.value, step)) else None
  }

  ghost predicate Reachable(size: nat, steps: seq<Step>, s: State) { Run(size, steps) == Some(s) }

  // ---------------------------------------------------------------------------
  // The invariant
  // ---------------------------------------------------------------------------

  /** The job the worker thread still owes a start or a cancel. */
  function InHand(pc: Pc): Option<Job> {
    if pc.Taken? || pc.Refusing? || pc.Marked? then Some(pc.job) else None
  }

  predicate InTransit(pc: Pc) { pc.Taken? }

  ghost predicate Increasing(jobs: seq<Job>) { forall i, j :: 0 <= i < j < |jobs| ==> jobs[i] < jobs[j] }

  /** The count is exact, so neither clamp nor `queue.Full` ever fires. */
  predicate Counted(s: State) {
    s.shared.queued == |s.shared.queue| + (if InTransit(s.pc) then 1 else 0) + |s.stopping.GetOr([])| &&
    s.shared.queued <= s.size
  }

  ghost predicate Ordered(s: State) {
    Increasing(s.started) && Increasing(s.shared.queue) &&
    (forall j <- s.shared.queue :: j < |s.futures| && j !in Dropped(s)) &&
    (forall j <- Dropped(s) :: j < |s.futures|) &&
    (forall i <- s.started, j <- s.shared.queue :: i < j) &&
    (InHand(s.pc).Some? ==>
       var job := InHand(s.pc).value;
       job < |s.futures| && job !in Dropped(s) &&
       (forall i <- s.started :: i < job) && (forall j <- s.shared.queue :: job < j)) &&
    (s.pc.InFn? ==> s.pc.job in s.started && s.pc.job < |s.futures| && forall j <- s.shared.queue :: s.pc.job < j) &&
    (forall i <- s.started :: i < |s.futures| && i !in Dropped(s))
  }

  /** Every accepted job is somewhere: waiting, in hand, drained, in `fn`, or settled. */
  ghost predicate Accounted(s: State) {
    forall j: Job :: j < |s.futures| ==>
      (s.futures[j] == Pending ==> j in s.shared.queue || j in Dropped(s) || InHand(s.pc) == Some(j)) &&
      (s.futures[j] == Running <==> s.pc == InFn(j)) &&
      (s.futures[j] in {Running, Finished} <==> j in s.started)
  }

  ghost predicate Flags(s: State) {
    (s.shared.running <==> s.pc.Marked? || s.pc.InFn? || s.pc == Leaving) &&
    (s.shared.stopped && LockFree(s) ==> s.shared.queue == []) &&
    (s.stopping.Some? ==> s.shared.stopped) &&
    (s.pc == Exited || s.pc.Refusing? ==> s.shared.stopped) &&
    (!s.shared.stopped ==> s.drained == {})
  }

  /** The job was marked running before any `stop` took the lock. */
  ghost predicate MarkedInTime(trace: seq<Event>, job: Job, limit: nat) {
    exists m: nat :: m < limit && m < |trace| && trace[m] == MarkedRunning(job) && Stopped !in trace[..m]
  }

  ghost predicate EntriesMarked(s: State) {
    (s.shared.stopped <==> Stopped in s.trace) &&
    (s.pc.Marked? ==> MarkedInTime(s.trace, s.pc.job, |s.trace|)) &&
    forall k: nat :: k < |s.trace| && s.trace[k].Entered? ==> MarkedInTime(s.trace, s.trace[k].job, k)
  }

  ghost predicate Inv(s: State) { Counted(s) && Ordered(s) && Accounted(s) && Flags(s) && EntriesMarked(s) }

  lemma CountedKept(s: State, step: Step)
    requires Counted(s) && Enabled(s, step)
    ensures Counted(Apply(s, step)) && Apply(s, step).size == s.size
  {
  }

  lemma FlagsKept(s: State, step: Step)
    requires Flags(s) && Counted(s) && Enabled(s, step)
    ensures Flags(Apply(s, step))
  {
  }

  lemma OrderedSubmit(s: State)
    requires Ordered(s) && LockFree(s)
    ensures Ordered(Apply(s, Submit))
  {
    var t, queue, job := Apply(s, Submit), s.shared.queue, |s.futures|;
    DroppedAfter(s, Submit);
    if t.shared.queue != queue {
      assert t.shared.queue == queue + [job];
      forall i | 0 <= i < |queue|
        ensures queue[i] < job
      {
        assert queue[i] in queue;
      }
      assert Increasing(queue + [job]);
      assert forall j :: j in queue + [job] <==> j in queue || j == job;
    }
  }

  lemma OrderedGet(s: State)
    requires Ordered(s) && Enabled(s, Get)
    ensures Ordered(Apply(s, Get))
  {
    QueueHead(s);
  }

  /** What a step adds to the drained jobs, if anything, and else takes nothing new. */
  lemma DroppedAfter(s: State, step: Step)
    requires Enabled(s, step)
    ensures Dropped(Apply(s, step)) ==
            if step.DrainOne? then Dropped(s) + {s.shared.queue[0]}
            else if step.CancelDrained? then Dropped(Apply(s, step)) else Dropped(s)
    ensures step.CancelDrained? ==>
            Dropped(Apply(s, step)) <= Dropped(s) && Dropped(s) <= Dropped(Apply(s, step)) + {step.job}
  {
    if step.DrainOne? {
      var list, more := s.stopping.value, Apply(s, step).stopping.value;
      assert forall j :: j in more <==> j in list || j == s.shared.queue[0];
    }
  }

  lemma QueueHead(s: State)
    requires Ordered(s) && s.shared.queue != []
    ensures s.shared.queue[0] in s.shared.queue
    ensures forall j <- s.shared.queue[1..] :: j in s.shared.queue && s.shared.queue[0] < j
  {
    var queue := s.shared.queue;
    assert queue[0] in queue;
    forall j | j in queue[1..]
      ensures j in queue && queue[0] < j
    {
      var i :| 0 <= i < |queue[1..]| && queue[1..][i] == j;
      assert queue[i + 1] == j;
    }
  }

  lemma OrderedDrain(s: State)
    requires Ordered(s) && Enabled(s, DrainOne)
    ensures Ordered(Apply(s, DrainOne))
  {
    QueueHead(s);
    DroppedAfter(s, DrainOne);
  }

  lemma OrderedStop(s: State, step: Step)
    requires Ordered(s) && Enabled(s, step) && (step.BeginStop? || step.EndStop?)
    ensures Ordered(Apply(s, step))
  {
    DroppedAfter(s, step);
  }

  lemma OrderedMove(s: State, step: Step)
    requires Ordered(s) && Enabled(s, step)
    requires step.CallerCancels? || step.FindEmpty? || step.CheckStop? || step.Take? || step.Refuse? ||
             step.Finish? || step.Leave?
    ensures Ordered(Apply(s, step))
  {
    DroppedAfter(s, step);
  }

  lemma OrderedCancel(s: State, job: Job)
    requires Ordered(s) && Enabled(s, CancelDrained(job))
    ensures Ordered(Apply(s, CancelDrained(job)))
  {
    DroppedAfter(s, CancelDrained(job));
  }

  lemma OrderedEnter(s: State)
    requires Ordered(s) && Enabled(s, Enter)
    ensures Ordered(Apply(s, Enter))
  {
    assert forall i :: 0 <= i < |s.started| ==> s.started[i] in s.started;
  }

  lemma OrderedKept(s: State, step: Step)
    requires Ordered(s) && Enabled(s, step)
    ensures Ordered(Apply(s, step))
  {
    match step {
      case Submit => OrderedSubmit(s);
      case Get => OrderedGet(s);
      case DrainOne => OrderedDrain(s);
      case CancelDrained(job) => OrderedCancel(s, job);
      case Enter => OrderedEnter(s);
      case BeginStop => OrderedStop(s, step);
      case EndStop => OrderedStop(s, step);
      case _ => OrderedMove(s, step);
    }
  }

  lemma AccountedKept(s: State, step: Step)
    requires Accounted(s) && Ordered(s) && Enabled(s, step)
    ensures Accounted(Apply(s, step))
  {
    var t := Apply(s, step);
    DroppedAfter(s, step);
    forall j: Job | j < |t.futures|
      ensures t.futures[j] == Pending ==> j in t.shared.queue || j in Dropped(t) || InHand(t.pc) == Some(j)
      ensures t.futures[j] == Running <==> t.pc == InFn(j)
      ensures t.futures[j] in {Running, Finished} <==> j in t.started
    {
      match step {
        case Submit =>
          if j == |s.futures| {
            assert forall i <- s.started :: i < |s.futures|;
            assert t.shared.queue[|s.shared.queue|] == j;
          } else {
            assert forall q <- s.shared.queue :: q in t.shared.queue;
          }
        case Get =>
          assert s.shared.queue == [s.shared.queue[0]] + s.shared.queue[1..];
        case DrainOne =>
          assert s.shared.queue == [s.shared.queue[0]] + s.shared.queue[1..];
        case Enter =>
          assert s.pc.job in t.started || t.started == s.started;
        case _ =>
      }
    }
  }

  lemma MarkedInTimeExtends(trace: seq<Event>, event: Event, job: Job, limit: nat)
    requires MarkedInTime(trace, job, limit)
    ensures MarkedInTime(trace + [event], job, limit)
  {
    var m: nat :| m < limit && m < |trace| && trace[m] == MarkedRunning(job) && Stopped !in trace[..m];
    assert (trace + [event])[..m] == trace[..m] && (trace + [event])[m] == trace[m];
  }

  lemma EntriesMarkedKept(s: State, step: Step)
    requires EntriesMarked(s) && Enabled(s, step)
    ensures EntriesMarked(Apply(s, step))
  {
    var t := Apply(s, step);
    if t.trace != s.trace {
      var event := t.trace[|s.trace|];
      assert t.trace == s.trace + [event];
      forall k: nat | k < |t.trace| && t.trace[k].Entered?
        ensures MarkedInTime(t.trace, t.trace[k].job, k)
      {
        if k < |s.trace| {
          MarkedInTimeExtends(s.trace, event, s.trace[k].job, k);
        } else {
          MarkedInTimeExtends(s.trace, event, s.pc.job, |s.trace|);
        }
      }
      if step == Take {
        assert t.trace[..|s.trace|] == s.trace;
        assert MarkedInTime(t.trace, s.pc.job, |t.trace|);
      } else if s.pc.Marked? {
        MarkedInTimeExtends(s.trace, event, s.pc.job, |s.trace|);
      }
    }
  }

  lemma {:induction false} ReachableInv(size: nat, steps: seq<Step>, s: State)
    requires size >= 1 && Reachable(size, steps, s)
    ensures Inv(s) && s.size == size
  {
    if steps != [] {
      var step := steps[|steps| - 1];
      var before := Run(size, steps[..|steps| - 1]).value;
      ReachableInv(size, steps[..|steps| - 1], before);
      CountedKept(before, step);
      FlagsKept(before, step);
      OrderedKept(before, step);
      AccountedKept(before, step);
      EntriesMarkedKept(before, step);
    }
  }

  // ---------------------------------------------------------------------------
  // Main results, over every interleaving
  // ---------------------------------------------------------------------------

  /** The queue count is exact: the clamps at zero and the `queue.Full` branch never fire. */
  lemma CountIsExact(size: nat, steps: seq<Step>, s: State)
    requires size >= 1 && Reachable(size, steps, s)
    ensures s.shared.queued == |s.shared.queue| + (if InTransit(s.pc) then 1 else 0) + |s.stopping.GetOr([])|
    ensures (s.pc.Taken? ==> s.shared.queued >= 1) && (s.stopping.Some? ==> s.shared.queued >= |s.stopping.value|)
    ensures LockFree(s) && s.shared.queued < size ==> |s.shared.queue| < size
  {
    ReachableInv(size, steps, s);
  }

  /** Jobs start in the order they were accepted, each at most once. */
  lemma StartsAreFifo(size: nat, steps: seq<Step>, s: State)
    requires size >= 1 && Reachable(size, steps, s)
    ensures Increasing(s.started)
    ensures forall i <- s.started, j <- s.shared.queue :: i < j
  {
    ReachableInv(size, steps, s);
  }

  /** Nothing enters `fn` unless it was marked running before the first `stop`. */
  lemma NoEntryAfterStop(size: nat, steps: seq<Step>, s: State, k: nat)
    requires size >= 1 && Reachable(size, steps, s) && k < |s.trace| && s.trace[k].Entered?
    ensures MarkedInTime(s.trace, s.trace[k].job, k)
  {
    ReachableInv(size, steps, s);
  }

  /** While not stopped, an idle worker has settled every job it accepted. */
  lemma IdleMeansSettled(size: nat, steps: seq<Step>, s: State)
    requires size >= 1 && Reachable(size, steps, s) && !s.shared.stopped && !IsBusy(s.shared)
    ensures forall j: Job :: j < |s.futures| ==> s.futures[j] in {Finished, Cancelled}
  {
    ReachableInv(size, steps, s);
  }

  /** Once the thread has exited and every `stop` call cancelled what it drained, no accepted job is left. */
  lemma StoppedMeansSettled(size: nat, steps: seq<Step>, s: State)
    requires size >= 1 && Reachable(size, steps, s) && s.pc == Exited && Dropped(s) == {} && LockFree(s)
    ensures forall j: Job :: j < |s.futures| ==> s.futures[j] in {Finished, Cancelled}
  {
    ReachableInv(size, steps, s);
  }

  predicate Settled(f: Future) { f == Finished || f == Cancelled }

  /** A settled job stays as it is: it was run or cancelled, never both, and never again. */
  lemma SettledOnce(size: nat, steps: seq<Step>, s: State, step: Step, j: Job)
    requires size >= 1 && Reachable(size, steps, s) && Enabled(s, step) && j < |s.futures|
    ensures Settled(s.futures[j]) ==> Apply(s, step).futures[j] == s.futures[j]
    ensures s.futures[j] == Cancelled ==> j !in Apply(s, step).started
    ensures s.futures[j] == Running ==> Apply(s, step).futures[j] in {Running, Finished}
  {
    ReachableInv(size, steps, s);
    AccountedKept(s, step);
  }
}
