/**
 * Whole runs of one printer's assignment. The report loop's passes copy the assignment, decide on
 * the copy, and then run their sections one at a time; new sends, send-watchdog updates, sightings
 * and clears by the printer's worker thread, failing passes and program restarts come in between,
 * in any order.
 */
module CompletionRuns {
  import opened Base
  import opened Lifecycle
  import opened Completion

  /**
   * A pass of either kind carries its look at the printer; a detection also whether 3DPF acks what
   * it posts. `Abandoned` is a pass an exception ended.
   */
  datatype Input =
    | Recorded(batch: string, plate: Option<int>, startedAt: Time, submission: Option<string>)
    | SendUpdated(submission: Option<string>)
    | SeenActive
    | Cleared
    | Reconciles(look: Look)
    | Detects(look: Look, acked: bool)
    | RunsSection
    | Abandoned
    | Relaunched

  /** A pass under way: what it copied, and the sections it has left. */
  datatype Pass = Pass(number: nat, copy: Assignment, begun: nat, left: seq<Section>)

  /** The pass and the step that set a latch. */
  datatype LatchedBy = LatchedBy(begun: nat, at: nat)

  /**
   * `steps`, `recorded`, `latchedBy` and a pass's `number` and `begun` are history the program does
   * not keep: how many steps and assignments there were, and which of them.
   */
  datatype Printer = Printer(
    assignment: Option<Assignment>, memory: Memory, pass: Option<Pass>,
    steps: nat, recorded: nat, latchedBy: Option<LatchedBy>)

  datatype Posted = Posted(number: nat, batch: string, outcome: Outcome)
  datatype Effect = Effect(decision: Decision, report: Option<Posted>)

  const IDLE := Printer(None, Memory(None, None), None, 0, 0, None)
  const NONE := Effect(Nothing, None)

  /** This step copies the assignment for a new pass. */
  predicate Begins(p: Printer, input: Input) {
    (input.Reconciles? || input.Detects?) && p.pass.None? && p.assignment.Some?
  }

  function SectionsOf(p: Printer, input: Input): seq<Section>
    requires Begins(p, input)
  {
    var a := p.assignment.value;
    if input.Reconciles? then ReconcileSections(Decide(p.memory, a, input.look).1)
    else DetectSections(a, input.look, input.acked)
  }

  function Begin(p: Printer, input: Input): Option<Pass>
    requires Begins(p, input)
  {
    var sections := SectionsOf(p, input);
    if sections == [] then None else Some(Pass(p.recorded, p.assignment.value, p.steps, sections))
  }

  predicate RunsNext(p: Printer, input: Input) { input.RunsSection? && p.pass.Some? && p.pass.value.left != [] }

  /** The next section of the pass runs on whatever assignment there is. */
  function RunNext(p: Printer): Printer
    requires p.pass.Some? && p.pass.value.left != []
  {
    var pass := p.pass.value;
    var section := pass.left[0];
    var sets := section.Latches? && p.assignment.Some? && p.assignment.value.terminal.None?;
    p.(assignment := Do(p.assignment, section),
       pass := if |pass.left| == 1 then None else Some(pass.(left := pass.left[1..])),
       latchedBy := if sets then Some(LatchedBy(pass.begun, p.steps))
                    else if section.Drops? then None else p.latchedBy)
  }

  function ReportOf(pass: Pass): Option<Posted>
    requires pass.left != []
  {
    if pass.left[0].Posts? then Some(Posted(pass.number, pass.copy.batch, pass.left[0].outcome)) else None
  }

  function Act(p: Printer, input: Input): (Printer, Effect) {
    match input
    case Recorded(batch, plate, startedAt, submission) =>
      (p.(assignment := Some(Assignment(batch, plate, None, startedAt, false, submission, false, false)),
          recorded := p.recorded + 1, latchedBy := None), NONE)
    case SendUpdated(submission) =>
      (if p.assignment.Some? then p.(assignment := Some(p.assignment.value.(submission := submission))) else p, NONE)
    case SeenActive =>
      (if p.assignment.Some? then p.(assignment := Some(p.assignment.value.(observedActive := true))) else p, NONE)
    case Cleared => (p.(assignment := None, latchedBy := None), NONE)
    case Reconciles(look) =>
      if !Begins(p, input) then (p, NONE)
      else
        var (memory, decision) := Decide(p.memory, p.assignment.value, look);
        (p.(memory := memory, pass := Begin(p, input)), Effect(decision, None))
    case Detects(_, _) => (if Begins(p, input) then p.(pass := Begin(p, input)) else p, NONE)
    case RunsSection =>
      if RunsNext(p, input) then (RunNext(p), Effect(Nothing, ReportOf(p.pass.value))) else (p, NONE)
    case Abandoned => (p.(pass := None), NONE)
    case Relaunched => (p.(memory := Memory(None, None), pass := None), NONE)
  }

  function Next(p: Printer, input: Input): (Printer, Effect) {
    var (after, effect) := Act(p, input);
    (after.(steps := p.steps + 1), effect)
  }

  function After(inputs: seq<Input>): Printer {
    if inputs == [] then IDLE else Next(After(inputs[..|inputs| - 1]), inputs[|inputs| - 1]).0
  }

  function EffectAt(inputs: seq<Input>, i: nat): Effect
    requires i < |inputs|
  {
    Next(After(inputs[..i]), inputs[i]).1
  }

  lemma AfterStep(inputs: seq<Input>, i: nat)
    requires i < |inputs|
    ensures After(inputs[..i + 1]) == Next(After(inputs[..i]), inputs[i]).0
  {
    assert inputs[..i + 1][..i] == inputs[..i];
  }

  // ---------------------------------------------------------------------------
  // A restart close is steady
  // ---------------------------------------------------------------------------

  /** The steadiness sample step `i` took: same session, state and matched id give the same key. */
  function SampleAt(inputs: seq<Input>, i: nat): Option<SteadyKey>
    requires i < |inputs|
  {
    var p := After(inputs[..i]);
    if inputs[i].Reconciles? && Begins(p, inputs[i]) then Sample(p.memory, p.assignment.value, inputs[i].look) else None
  }

  /** Step `i` took this sample and no later step before `n` took a different one or lost it. */
  ghost predicate SteadySince(inputs: seq<Input>, i: nat, n: nat, steady: Steady) {
    i < n <= |inputs| && inputs[i].Reconciles? && SampleAt(inputs, i) == Some(steady.key) &&
    inputs[i].look.monotonic == steady.since &&
    forall k: nat :: i < k < n ==> SampleAt(inputs, k) in {None, Some(steady.key)} && !inputs[k].Relaunched?
  }

  lemma SteadyStep(p: Printer, input: Input)
    ensures var after := Next(p, input).0.memory.steady;
            var sample := if input.Reconciles? && Begins(p, input)
                          then Sample(p.memory, p.assignment.value, input.look) else None;
            after.Some? ==>
              (sample.None? && after == p.memory.steady && !input.Relaunched?) ||
              (sample == Some(after.value.key) && after == p.memory.steady) ||
              (sample == Some(after.value.key) && after.value.since == input.look.monotonic)
  {
  }

  /** The steady mark after step `n` is the one before it, or was set by step `n` itself. */
  lemma SteadyAfter(inputs: seq<Input>, n: nat)
    requires n < |inputs| && After(inputs[..n + 1]).memory.steady.Some?
    ensures var after := After(inputs[..n + 1]).memory.steady;
            (SampleAt(inputs, n) in {None, Some(after.value.key)} && after == After(inputs[..n]).memory.steady &&
             !inputs[n].Relaunched?) ||
            (inputs[n].Reconciles? && SampleAt(inputs, n) == Some(after.value.key) &&
             after.value.since == inputs[n].look.monotonic)
  {
    AfterStep(inputs, n);
    SteadyStep(After(inputs[..n]), inputs[n]);
  }

  /** One step seen from outside: its sample and time, and the steady marks around it. */
  datatype Mark = Mark(
    before: Option<Steady>, sample: Option<SteadyKey>, at: Option<Time>, relaunched: bool, after: Option<Steady>)

  function MarkAt(inputs: seq<Input>, i: nat): Mark
    requires i < |inputs|
  {
    Mark(After(inputs[..i]).memory.steady, SampleAt(inputs, i),
         if inputs[i].Reconciles? then Some(inputs[i].look.monotonic) else None,
         inputs[i].Relaunched?, After(inputs[..i + 1]).memory.steady)
  }

  predicate Sets(mark: Mark, steady: Steady) { mark.sample == Some(steady.key) && mark.at == Some(steady.since) }

  predicate KeepsOrSets(mark: Mark) {
    mark.after.Some? ==>
      Sets(mark, mark.after.value) ||
      (mark.sample in {None, Some(mark.after.value.key)} && mark.after == mark.before && !mark.relaunched)
  }

  ghost predicate Chained(marks: seq<Mark>) {
    (forall k :: 0 <= k < |marks| ==> KeepsOrSets(marks[k])) &&
    (marks != [] ==> marks[0].before.None?) &&
    (forall j, k :: 0 <= j < k < |marks| && k == j + 1 ==> marks[k].before == marks[j].after)
  }

  ghost predicate MarkedSince(marks: seq<Mark>, i: nat, steady: Steady) {
    i < |marks| && Sets(marks[i], steady) &&
    forall k :: i < k < |marks| ==> marks[k].sample in {None, Some(steady.key)} && !marks[k].relaunched
  }

  lemma {:induction false} MarkHasOrigin(marks: seq<Mark>, steady: Steady)
    requires Chained(marks) && marks != [] && marks[|marks| - 1].after == Some(steady)
    ensures exists i: nat :: MarkedSince(marks, i, steady)
  {
    var last := |marks| - 1;
    assert KeepsOrSets(marks[last]);
    if Sets(marks[last], steady) {
      assert MarkedSince(marks, last, steady);
    } else {
      var init := marks[..last];
      assert last > 0;
      assert marks[last].before == marks[last - 1].after;
      MarkHasOrigin(init, steady);
      var i: nat :| MarkedSince(init, i, steady);
      assert MarkedSince(marks, i, steady);
    }
  }

  function Marks(inputs: seq<Input>, n: nat): (marks: seq<Mark>)
    requires n <= |inputs|
    ensures |marks| == n && forall k :: 0 <= k < n ==> marks[k] == MarkAt(inputs, k)
  {
    if n == 0 then [] else Marks(inputs, n - 1) + [MarkAt(inputs, n - 1)]
  }

  lemma MarkKeepsOrSets(inputs: seq<Input>, k: nat)
    requires k < |inputs|
    ensures KeepsOrSets(MarkAt(inputs, k))
  {
    if After(inputs[..k + 1]).memory.steady.Some? {
      SteadyAfter(inputs, k);
    }
  }

  lemma MarksAreChained(inputs: seq<Input>, n: nat)
    requires n <= |inputs|
    ensures Chained(Marks(inputs, n))
  {
    forall k: nat | k < n
      ensures KeepsOrSets(Marks(inputs, n)[k])
    {
      MarkKeepsOrSets(inputs, k);
    }
    if n > 0 {
      assert inputs[..0] == [];
      assert Marks(inputs, n)[0] == MarkAt(inputs, 0);
    }
  }

  lemma SteadyTracked(inputs: seq<Input>, n: nat)
    requires n <= |inputs| && After(inputs[..n]).memory.steady.Some?
    ensures exists i: nat :: SteadySince(inputs, i, n, After(inputs[..n]).memory.steady.value)
  {
    var steady := After(inputs[..n]).memory.steady.value;
    var marks := Marks(inputs, n);
    MarksAreChained(inputs, n);
    assert inputs[..0] == [] && After(inputs[..0]) == IDLE;
    MarkHasOrigin(marks, steady);
    var i: nat :| MarkedSince(marks, i, steady);
    forall k: nat | i < k < n
      ensures SampleAt(inputs, k) in {None, Some(steady.key)} && !inputs[k].Relaunched?
    {
      assert marks[k] == MarkAt(inputs, k);
    }
    assert marks[i] == MarkAt(inputs, i);
    assert SteadySince(inputs, i, n, steady);
  }

  lemma CloseNeeds(m: Memory, a: Assignment, look: Look)
    requires Decide(m, a, look).1 in {EmitFinish, Unobserved}
    ensures Decidable(m, look) && a.terminal.None? && Sample(m, a, look) == Some(KeyOf(look.snap.value))
    ensures m.steady.Some? && m.steady.value.key == KeyOf(look.snap.value)
    ensures look.monotonic - m.steady.value.since >= STEADY_SECONDS && Age(a, look.wall) >= STARTUP_GRACE_SECONDS
    ensures Decide(m, a, look).1 == Unobserved ==> Confirmed(a)
  {
  }

  /** Everything a closing decision at step `j` rests on, the earlier sample being step `i`. */
  ghost predicate SteadyClose(inputs: seq<Input>, i: nat, j: nat)
    requires j < |inputs| && inputs[j].Reconciles? && After(inputs[..j]).assignment.Some?
  {
    var look := inputs[j].look;
    var a := After(inputs[..j]).assignment.value;
    SampleAt(inputs, j).Some? &&
    (exists since :: SteadySince(inputs, i, j, Steady(SampleAt(inputs, j).value, since)) &&
                     look.monotonic - since >= STEADY_SECONDS) &&
    Age(a, look.wall) >= STARTUP_GRACE_SECONDS && !look.stopping
  }

  /**
   * A recovered finish or an unobserved end is decided only after the same state and matched id
   * were live in the same session thirty seconds before, with no differing sample between, on
   * an assignment a minute old, with no stop in flight; an unobserved end also needs a
   * confirmed assignment.
   */
  lemma ClosesAreSteady(inputs: seq<Input>, j: nat)
    requires j < |inputs| && EffectAt(inputs, j).decision in {EmitFinish, Unobserved}
    ensures inputs[j].Reconciles? && After(inputs[..j]).assignment.Some?
    ensures exists i: nat :: SteadyClose(inputs, i, j)
    ensures EffectAt(inputs, j).decision == Unobserved ==> Confirmed(After(inputs[..j]).assignment.value)
  {
    var p := After(inputs[..j]);
    CloseNeeds(p.memory, p.assignment.value, inputs[j].look);
    SteadyTracked(inputs, j);
    var i: nat :| SteadySince(inputs, i, j, p.memory.steady.value);
    assert Steady(SampleAt(inputs, j).value, p.memory.steady.value.since) == p.memory.steady.value;
    assert SteadyClose(inputs, i, j);
  }

  /** The session step `i` decided for, if it decided anything. */
  function DecidedFor(inputs: seq<Input>, i: nat): Option<int>
    requires i < |inputs|
  {
    if inputs[i].Reconciles? && EffectAt(inputs, i).decision != Nothing && inputs[i].look.snap.Some?
    then inputs[i].look.snap.value.session else None
  }

  lemma DecisionNeeds(p: Printer, input: Input)
    requires input.Reconciles? && Next(p, input).1.decision != Nothing
    ensures Begins(p, input) && Decidable(p.memory, input.look)
    ensures Next(p, input).0.memory.decided == input.look.snap.value.session
  {
  }

  lemma DecidedStays(p: Printer, input: Input)
    requires !input.Relaunched? && (input.Reconciles? ==> Next(p, input).1.decision == Nothing)
    ensures Next(p, input).0.memory.decided == p.memory.decided
  {
  }

  lemma DecidedAfter(inputs: seq<Input>, n: nat)
    requires n < |inputs| && !inputs[n].Relaunched?
    ensures After(inputs[..n + 1]).memory.decided ==
            if DecidedFor(inputs, n).Some? then DecidedFor(inputs, n) else After(inputs[..n]).memory.decided
    ensures DecidedFor(inputs, n).Some? ==> DecidedFor(inputs, n) != After(inputs[..n]).memory.decided
  {
    AfterStep(inputs, n);
    var before := After(inputs[..n]);
    if inputs[n].Reconciles? && Next(before, inputs[n]).1.decision != Nothing {
      DecisionNeeds(before, inputs[n]);
    } else {
      DecidedStays(before, inputs[n]);
    }
  }

  /** One step's decision, and the decided session remembered around it. */
  datatype Verdicted = Verdicted(before: Option<int>, made: Option<int>, after: Option<int>)

  function VerdictedAt(inputs: seq<Input>, k: nat): Verdicted
    requires k < |inputs|
  {
    Verdicted(After(inputs[..k]).memory.decided, DecidedFor(inputs, k), After(inputs[..k + 1]).memory.decided)
  }

  function Decisions(inputs: seq<Input>, n: nat): (marks: seq<Verdicted>)
    requires n <= |inputs|
    ensures |marks| == n && forall k :: 0 <= k < n ==> marks[k] == VerdictedAt(inputs, k)
  {
    if n == 0 then [] else Decisions(inputs, n - 1) + [VerdictedAt(inputs, n - 1)]
  }

  predicate Remembers(mark: Verdicted) { mark.after == if mark.made.Some? then mark.made else mark.before }

  /** From mark `i` on every mark remembers its decision, and none is for another session. */
  ghost predicate Remembering(marks: seq<Verdicted>, i: nat) {
    i < |marks| && marks[i].made.Some? &&
    (forall k :: i <= k < |marks| ==> Remembers(marks[k]) && marks[k].made in {None, marks[i].made}) &&
    forall j, k :: i <= j < k < |marks| && k == j + 1 ==> marks[k].before == marks[j].after
  }

  lemma {:induction false} LastDecision(marks: seq<Verdicted>, i: nat)
    requires Remembering(marks, i)
    ensures marks[|marks| - 1].after == marks[i].made
  {
    var last := |marks| - 1;
    assert Remembers(marks[last]);
    if i < last {
      assert marks[last].before == marks[last - 1].after;
      LastDecision(marks[..last], i);
    }
  }

  lemma DecisionsRemember(inputs: seq<Input>, i: nat, n: nat)
    requires i < n <= |inputs| && DecidedFor(inputs, i).Some?
    requires forall k: nat :: i <= k < n ==>
             !inputs[k].Relaunched? && DecidedFor(inputs, k) in {None, DecidedFor(inputs, i)}
    ensures Remembering(Decisions(inputs, n), i)
  {
    var marks := Decisions(inputs, n);
    forall k: nat | i <= k < n
      ensures Remembers(marks[k]) && marks[k].made in {None, marks[i].made}
    {
      DecisionRemembered(inputs, k);
    }
  }

  lemma DecisionRemembered(inputs: seq<Input>, k: nat)
    requires k < |inputs| && !inputs[k].Relaunched?
    ensures Remembers(VerdictedAt(inputs, k))
  {
    DecidedAfter(inputs, k);
  }

  lemma DecidedRemembered(inputs: seq<Input>, i: nat, n: nat)
    requires i < n <= |inputs| && DecidedFor(inputs, i).Some?
    requires forall k: nat :: i < k < n ==>
             !inputs[k].Relaunched? && DecidedFor(inputs, k) in {None, DecidedFor(inputs, i)}
    ensures After(inputs[..n]).memory.decided == DecidedFor(inputs, i)
  {
    DecidedIsNoRelaunch(inputs, i);
    DecisionsRemember(inputs, i, n);
    var marks := Decisions(inputs, n);
    LastDecision(marks, i);
    assert marks[n - 1] == VerdictedAt(inputs, n - 1);
  }

  lemma DecidedIsNoRelaunch(inputs: seq<Input>, i: nat)
    requires i < |inputs| && DecidedFor(inputs, i).Some?
    ensures !inputs[i].Relaunched?
  {
  }

  /**
   * One decision per session: two decisions under the same session token are separated by one
   * under another token, or by a restart of the program.
   */
  lemma DecidesOncePerSession(inputs: seq<Input>, i: nat, j: nat)
    requires i < j < |inputs| && DecidedFor(inputs, i).Some? && DecidedFor(inputs, j) == DecidedFor(inputs, i)
    ensures exists k: nat ::
              i < k < j && (inputs[k].Relaunched? || DecidedFor(inputs, k) !in {None, DecidedFor(inputs, i)})
  {
    if forall k: nat :: i < k < j ==> !inputs[k].Relaunched? && DecidedFor(inputs, k) in {None, DecidedFor(inputs, i)} {
      DecidedRemembered(inputs, i, j);
      DecidedAfter(inputs, j);
    }
  }

  /** A later look never carries an older session token. */
  ghost predicate TokensRise(inputs: seq<Input>) {
    forall i, j :: 0 <= i < j < |inputs| && TokenAt(inputs, i).Some? && TokenAt(inputs, j).Some? ==>
      TokenAt(inputs, i).value <= TokenAt(inputs, j).value
  }

  function TokenAt(inputs: seq<Input>, i: nat): Option<int>
    requires i < |inputs|
  {
    if inputs[i].Reconciles? && inputs[i].look.snap.Some? then inputs[i].look.snap.value.session else None
  }

  /** With tokens that never go back, no two decisions of one program run share a session. */
  lemma OneDecisionPerToken(inputs: seq<Input>, i: nat, j: nat)
    requires TokensRise(inputs) && i < j < |inputs| && DecidedFor(inputs, i).Some? && DecidedFor(inputs, j).Some?
    requires forall k :: i < k < j ==> !inputs[k].Relaunched?
    ensures DecidedFor(inputs, i).value < DecidedFor(inputs, j).value
  {
    TokensOrder(inputs, i, j);
    if DecidedFor(inputs, j) == DecidedFor(inputs, i) {
      forall k: nat | i < k < j && DecidedFor(inputs, k).Some?
        ensures DecidedFor(inputs, k) == DecidedFor(inputs, i)
      {
        TokensOrder(inputs, i, k);
        TokensOrder(inputs, k, j);
      }
      DecidesOncePerSession(inputs, i, j);
    }
  }

  lemma TokensOrder(inputs: seq<Input>, i: nat, j: nat)
    requires TokensRise(inputs) && i < j < |inputs| && DecidedFor(inputs, i).Some? && DecidedFor(inputs, j).Some?
    ensures DecidedFor(inputs, i).value <= DecidedFor(inputs, j).value
  {
    assert TokenAt(inputs, i) == DecidedFor(inputs, i) && TokenAt(inputs, j) == DecidedFor(inputs, j);
  }

  // ---------------------------------------------------------------------------
  // When a session is decided
  // ---------------------------------------------------------------------------

  /** What the reconciler needs to decide, but for its memory of the sessions decided. */
  predicate Ready(m: Memory, a: Assignment, look: Look) {
    !look.stopping && look.snap.Some? &&
    var snap := look.snap.value;
    snap.live && snap.state.Some? && snap.gcodeSeen && snap.session.Some? &&
    (a.terminal.Some? ||
     match ActionFor(a, snap.state.value, snap.matched)
     case NotYet => false
     case KeepIt => true
     case LeaveIt => true
     case action =>
       m.steady.Some? && m.steady.value.key == KeyOf(snap) &&
       look.monotonic - m.steady.value.since >= STEADY_SECONDS && Age(a, look.wall) >= STARTUP_GRACE_SECONDS &&
       (action == FinishIt ==> look.canEmit))
  }

  /** The token of the last decision since the program started, if any. */
  function LastDecided(inputs: seq<Input>): Option<int> {
    if inputs == [] then None
    else
      var last := |inputs| - 1;
      if inputs[last].Relaunched? then None
      else if DecidedFor(inputs, last).Some? then DecidedFor(inputs, last)
      else LastDecided(inputs[..last])
  }

  lemma DecisionKeepsPrefix(inputs: seq<Input>, n: nat, k: nat)
    requires k < n <= |inputs|
    ensures DecidedFor(inputs[..n], k) == DecidedFor(inputs, k)
  {
    assert inputs[..n][..k] == inputs[..k];
  }

  lemma {:induction false} MemoryIsLastDecided(inputs: seq<Input>, n: nat)
    requires n <= |inputs|
    ensures After(inputs[..n]).memory.decided == LastDecided(inputs[..n])
  {
    if n > 0 {
      MemoryIsLastDecided(inputs, n - 1);
      assert inputs[..n][..n - 1] == inputs[..n - 1];
      DecisionKeepsPrefix(inputs, n, n - 1);
      if inputs[n - 1].Relaunched? {
        AfterStep(inputs, n - 1);
      } else {
        DecidedAfter(inputs, n - 1);
      }
    }
  }

  lemma DecidesIff(m: Memory, a: Assignment, look: Look)
    ensures Decide(m, a, look).1 != Nothing <==> Ready(m, a, look) && m.decided != look.snap.value.session
  {
  }

  /**
   * A look that is ready is decided exactly when its session token is not the one last decided: a
   * new session that comes back under that token, as after an address swap, is never decided.
   */
  lemma ReadySessionIsDecided(inputs: seq<Input>, n: nat)
    requires n < |inputs| && inputs[n].Reconciles? && Begins(After(inputs[..n]), inputs[n])
    requires Ready(After(inputs[..n]).memory, After(inputs[..n]).assignment.value, inputs[n].look)
    ensures DecidedFor(inputs, n).Some? <==> inputs[n].look.snap.value.session != LastDecided(inputs[..n])
  {
    var p := After(inputs[..n]);
    MemoryIsLastDecided(inputs, n);
    DecidesIff(p.memory, p.assignment.value, inputs[n].look);
  }

  /** What the report must have shown for each decision. */
  lemma DecisionsFitTheReport(m: Memory, a: Assignment, look: Look)
    requires Decide(m, a, look).1 !in {Nothing, AlreadyLatched}
    ensures look.snap.Some? && look.snap.value.live && look.snap.value.gcodeSeen && look.snap.value.state.Some?
    ensures var snap := look.snap.value;
            var state := snap.state.value;
            var ours := a.submission.Some? && snap.matched == a.submission;
            match Decide(m, a, look).1
            case Keep => ours && state in {Prepare, Slicing, Running, Pause}
            case EmitFinish => ours && state == Finish && look.canEmit
            case Unobserved =>
              Confirmed(a) && !(ours && state in {Prepare, Slicing, Running, Pause, Finish}) &&
              (a.submission.None? ==> state in {Idle, GcodeState.Failed})
            case _ => a.submission.None? || (!ours && !Confirmed(a)) || state in {Idle, GcodeState.Failed}
  {
  }
}
