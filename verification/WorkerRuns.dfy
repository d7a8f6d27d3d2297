/**
 * What a printer's worker does with each submitted job, told from the schedule before it: which
 * submissions it accepts, which jobs wait, which are started, why one is cancelled, and that a
 * worker with jobs left always has a step to take.
 */
module WorkerRuns {
  import opened Base
  import opened PrinterWorker

  // ---------------------------------------------------------------------------
  // The jobs that wait
  // ---------------------------------------------------------------------------

  predicate Takes(step: Step) { step.Get? || step.DrainOne? }

  /** How many jobs have left the queue. */
  function TakenOff(steps: seq<Step>): nat {
    if steps == [] then 0
    else TakenOff(steps[..|steps| - 1]) + if Takes(steps[|steps| - 1]) then 1 else 0
  }

  /** The jobs numbered from `lo` up to `hi`. */
  function Numbered(lo: nat, hi: nat): seq<Job>
    requires lo <= hi
  {
    seq(hi - lo, i requires 0 <= i => lo + i)
  }

  lemma StopMoves(s: State, step: Step)
    requires Enabled(s, step)
    ensures Apply(s, step).shared.stopped <==> s.shared.stopped || step == BeginStop
  {
  }

  lemma {:induction false} StopsAreSteps(size: nat, steps: seq<Step>, s: State)
    requires Reachable(size, steps, s)
    ensures s.shared.stopped <==> BeginStop in steps
  {
    if steps != [] {
      var init := steps[..|steps| - 1];
      StopsAreSteps(size, init, Run(size, init).value);
      StopMoves(Run(size, init).value, steps[|steps| - 1]);
      assert steps == init + [steps[|steps| - 1]];
    }
  }

  lemma SubmitIf(s: State, size: nat)
    requires Counted(s) && LockFree(s) && s.size == size
    ensures Apply(s, Submit) ==
            if !s.shared.stopped && |s.shared.queue| + (if s.pc.Taken? then 1 else 0) < size
            then s.(shared := s.shared.(queued := s.shared.queued + 1, queue := s.shared.queue + [|s.futures|]),
                    futures := s.futures + [Pending])
            else s
  {
  }

  /**
   * A submission is accepted exactly when no `stop` ran before it and fewer jobs wait than the
   * queue holds, the one the thread has taken and not yet marked counted. One that is refused
   * changes nothing; one that is accepted goes last.
   */
  lemma AcceptsIff(size: nat, steps: seq<Step>, s: State)
    requires size >= 1 && Reachable(size, steps, s) && LockFree(s)
    ensures Apply(s, Submit) ==
            if BeginStop !in steps && |s.shared.queue| + (if s.pc.Taken? then 1 else 0) < size
            then s.(shared := s.shared.(queued := s.shared.queued + 1, queue := s.shared.queue + [|s.futures|]),
                    futures := s.futures + [Pending])
            else s
  {
    ReachableInv(size, steps, s);
    StopsAreSteps(size, steps, s);
    SubmitIf(s, size);
  }

  lemma QueueMoves(s: State, step: Step)
    requires Counted(s) && Enabled(s, step)
    ensures var t := Apply(s, step);
            if Takes(step) then t.shared.queue == s.shared.queue[1..] && |t.futures| == |s.futures|
            else if |t.futures| != |s.futures| then
              |t.futures| == |s.futures| + 1 && t.shared.queue == s.shared.queue + [|s.futures|]
            else t.shared.queue == s.shared.queue
  {
  }

  lemma NumberedMoves(lo: nat, hi: nat)
    requires lo <= hi
    ensures Numbered(lo, hi) + [hi] == Numbered(lo, hi + 1)
    ensures lo < hi ==> Numbered(lo, hi)[1..] == Numbered(lo + 1, hi)
    ensures |Numbered(lo, hi)| == hi - lo
  {
  }

  lemma RestMoves(s: State, step: Step, off: nat)
    requires Counted(s) && Enabled(s, step) && off <= |s.futures| && s.shared.queue == Numbered(off, |s.futures|)
    ensures var t, gone := Apply(s, step), off + if Takes(step) then 1 else 0;
            gone <= |t.futures| && t.shared.queue == Numbered(gone, |t.futures|)
  {
    assert Takes(step) ==> s.shared.queue != [];
    NumberedMoves(off, |s.futures|);
    QueueMoves(s, step);
  }

  /** The queue is what was accepted less what has left it: the newest jobs, in order, with none missing. */
  lemma {:induction false} QueueIsTheRest(size: nat, steps: seq<Step>, s: State)
    requires size >= 1 && Reachable(size, steps, s)
    ensures TakenOff(steps) <= |s.futures|
    ensures s.shared.queue == Numbered(TakenOff(steps), |s.futures|)
  {
    if steps == [] {
      assert Numbered(0, 0) == [];
    } else {
      var init := steps[..|steps| - 1];
      QueueIsTheRest(size, init, Run(size, init).value);
      CountsHold(size, init, Run(size, init).value);
      RestMoves(Run(size, init).value, steps[|steps| - 1], TakenOff(init));
    }
  }

  lemma CountsHold(size: nat, steps: seq<Step>, s: State)
    requires size >= 1 && Reachable(size, steps, s)
    ensures Counted(s)
  {
    ReachableInv(size, steps, s);
  }

  // ---------------------------------------------------------------------------
  // Started, refused, cancelled
  // ---------------------------------------------------------------------------

  /** A job the thread has taken is marked running exactly when no `stop` ran before; else it is refused. */
  lemma TakenRunsIff(size: nat, steps: seq<Step>, s: State)
    requires size >= 1 && Reachable(size, steps, s) && s.pc.Taken? && LockFree(s)
    ensures Apply(s, Take).pc == if BeginStop in steps then Refusing(s.pc.job) else Marked(s.pc.job)
    ensures Apply(s, Take).shared == s.shared.(queued := |s.shared.queue|, running := BeginStop !in steps)
  {
    ReachableInv(size, steps, s);
    StopsAreSteps(size, steps, s);
  }

  lemma CancelMoves(s: State, step: Step, j: Job)
    requires Enabled(s, step) && j < |s.futures| && s.futures[j] != Cancelled
    requires Apply(s, step).futures[j] == Cancelled
    ensures step == CallerCancels(j) || (step == CancelDrained(j) && j in s.drained) ||
            (step == Refuse && s.pc == Refusing(j))
  {
  }

  /** A job is cancelled only because its caller cancelled it or the worker was stopped. */
  lemma {:induction false} CancelsHaveACause(size: nat, steps: seq<Step>, s: State, j: Job)
    requires size >= 1 && Reachable(size, steps, s) && j < |s.futures| && s.futures[j] == Cancelled
    ensures CallerCancels(j) in steps || BeginStop in steps
  {
    if steps != [] {
      var init, last := steps[..|steps| - 1], steps[|steps| - 1];
      var before := Run(size, init).value;
      assert steps == init + [last];
      if j < |before.futures| && before.futures[j] == Cancelled {
        CancelsHaveACause(size, init, before, j);
      } else if j < |before.futures| {
        CancelMoves(before, last, j);
        ReachableInv(size, init, before);
        StopsAreSteps(size, init, before);
      } else {
        ReachableInv(size, init, before);
        QueueMoves(before, last);
      }
    }
  }

  // ---------------------------------------------------------------------------
  // Jobs get done
  // ---------------------------------------------------------------------------

  /** The worker thread moves a job on. */
  predicate Works(step: Step) {
    step.Get? || step.Take? || step.Refuse? || step.Enter? || step.Finish? || step.Leave?
  }

  function Worked(steps: seq<Step>): nat {
    if steps == [] then 0 else Worked(steps[..|steps| - 1]) + if Works(steps[|steps| - 1]) then 1 else 0
  }

  /** The most steps the thread still takes with the job in hand. */
  function StepsLeft(pc: Pc): nat {
    match pc
    case Taken(_) => 4
    case Marked(_) => 3
    case InFn(_) => 2
    case Leaving => 1
    case Refusing(_) => 1
    case _ => 0
  }

  lemma StepsFall(s: State, step: Step)
    requires Enabled(s, step)
    ensures step.Get? ==> StepsLeft(s.pc) == 0 && StepsLeft(Apply(s, step).pc) == 4
    ensures Works(step) && !step.Get? ==> StepsLeft(Apply(s, step).pc) < StepsLeft(s.pc)
    ensures !Works(step) ==> StepsLeft(Apply(s, step).pc) == StepsLeft(s.pc)
  {
  }

  lemma {:induction false} WorkIsPaid(size: nat, steps: seq<Step>, s: State)
    requires size >= 1 && Reachable(size, steps, s)
    ensures Worked(steps) + StepsLeft(s.pc) <= 5 * TakenOff(steps)
  {
    if steps != [] {
      var init := steps[..|steps| - 1];
      WorkIsPaid(size, init, Run(size, init).value);
      StepsFall(Run(size, init).value, steps[|steps| - 1]);
    }
  }

  /** The thread spends at most five steps on each accepted job, none on those still waiting. */
  lemma WorkIsBounded(size: nat, steps: seq<Step>, s: State)
    requires size >= 1 && Reachable(size, steps, s)
    ensures Worked(steps) + StepsLeft(s.pc) + 5 * |s.shared.queue| <= 5 * |s.futures|
  {
    WorkIsPaid(size, steps, s);
    QueueIsTheRest(size, steps, s);
  }

  /**
   * A worker that has a job waiting or in hand is never stuck: its thread can move that job on, or
   * find the queue changed under it, unless the lock is held, and then its holder can go on.
   */
  lemma NeverStuck(size: nat, steps: seq<Step>, s: State)
    requires size >= 1 && Reachable(size, steps, s)
    requires s.pc != Exited && (s.shared.queue != [] || StepsLeft(s.pc) > 0)
    ensures (exists step :: Enabled(s, step) && Works(step)) || (s.pc == SawEmpty && Enabled(s, CheckStop)) ||
            Enabled(s, DrainOne) || Enabled(s, EndStop)
  {
    ReachableInv(size, steps, s);
    if LockFree(s) {
      var step := if s.pc.Taken? then Take else if s.pc.Refusing? then Refuse else if s.pc.Marked? then Enter
                  else if s.pc.InFn? then Finish else if s.pc == Leaving then Leave else Get;
      assert s.pc != SawEmpty ==> Enabled(s, step) && Works(step);
    } else {
      assert Enabled(s, DrainOne) || Enabled(s, EndStop);
    }
  }
}
