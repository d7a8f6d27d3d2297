/**
 * When a tick resets a session, told from what the session heard and when: the exact condition in
 * each of the three states a tick may find it in, and the time within which a silent one is reset.
 */
module SessionUp {
  import opened Base
  import opened Session

  // ---------------------------------------------------------------------------
  // One tick
  // ---------------------------------------------------------------------------

  /** Nothing stamped after `limit`. */
  predicate NotSince(stamp: Option<Time>, limit: Time) { stamp.Some? ==> stamp.value <= limit }

  /** Heard from at some time, and for more than a minute by neither report nor CONNACK. */
  predicate Stale(s: State, now: Time) {
    (s.lastMessageAt.Some? || s.connackAt.Some?) &&
    (s.lastMessageAt.Some? ==> now - s.lastMessageAt.value > 60.0) &&
    (s.connackAt.Some? ==> now - s.connackAt.value > 60.0)
  }

  /** A tick resets a connected session exactly when it is stale, not held too soon, and not just reset. */
  lemma UpTickExactly(s: State, now: Time, held: bool)
    requires !s.stopped && s.connected && s.error != Some(AuthRejected) && s.resetting.None?
    ensures var t := Tick(s, now, held);
            (t.resetting.Some? <==>
               !s.commandsRejected && Stale(s, now) && NotSince(s.lastResetAt, now - 30.0) &&
               (!held || (NotSince(s.lastMessageAt, now - 150.0) && NotSince(s.connackAt, now - 150.0)))) &&
            t == (if t.resetting.Some? then
                    s.(resetting := Some(Reset(Some(Silent), None)), down := Some(Silent),
                       hasClient := false, connected := false)
                  else if !s.commandsRejected && Stale(s, now) then s.(down := Some(Silent))
                  else s)
  {
  }

  /** The client ended and its backoff has passed. */
  predicate RedialDue(s: State, now: Time) { s.ended && s.redialAt.Some? && s.redialAt.value <= now }

  predicate Unanswered(s: State, now: Time) { s.hasClient && !s.ended && s.openedAt <= now - 20.0 }

  /**
   * A tick on a session that is down redials exactly when the backoff of the ended client has
   * passed, and ends exactly the client that was opened twenty seconds ago and never answered.
   */
  lemma DownTickExactly(s: State, now: Time, held: bool)
    requires !s.stopped && !s.connected && s.error != Some(AuthRejected) && s.redialDelay > 0.0
    ensures var t := Tick(s, now, held);
            var begun := RedialDue(s, now) && s.resetting.None?;
            (begun ==> t.resetting == Some(Reset(s.down, Some(now))) && !t.hasClient) &&
            (!begun ==> t.resetting == s.resetting && t.hasClient == s.hasClient) &&
            (t.ended <==> s.ended || Unanswered(s, now)) && !t.connected && t.error == s.error &&
            t.redialAt == (if Unanswered(s, now) then Some(now + s.redialDelay) else s.redialAt) &&
            t.redialDelay == (if !RedialDue(s, now) then s.redialDelay
                              else if s.redialDelay > 15.0 then 30.0 else 2.0 * s.redialDelay) &&
            t.down == (if begun then s.down
                       else if s.error == Some(Refused) then Some(DownRefused)
                       else if s.downSince.Some? && now - s.downSince.value > 60.0 then Some(Unreachable)
                       else s.down)
  {
  }

  /** A tick on a rejected access code retries exactly when the wait of 300 s is over, and then waits anew. */
  lemma AuthTickExactly(s: State, now: Time, held: bool)
    requires !s.stopped && s.error == Some(AuthRejected) && s.resetting.None?
    ensures var t := Tick(s, now, held);
            (t.resetting.Some? <==>
               s.authRetryAt.Some? && s.authRetryAt.value <= now && NotSince(s.lastResetAt, now - 30.0)) &&
            (t.resetting.Some? ==> t.resetting == Some(Reset(Some(DownAuth), None)) && !t.hasClient) &&
            t.authRetryAt == (if t.resetting.Some? || s.authRetryAt.None? then Some(now + 300.0) else s.authRetryAt) &&
            t.error == s.error && t.down == Some(DownAuth)
  {
  }

  // ---------------------------------------------------------------------------
  // What the run before says
  // ---------------------------------------------------------------------------

  /** The last step was of the network, and of the client that is current. */
  predicate FromClient(start: Time, steps: seq<Step>) {
    steps != [] && Run(start, steps[..|steps| - 1]).Some? && Run(start, steps[..|steps| - 1]).value.hasClient
  }

  /** The last step began a reset. */
  predicate BeginsReset(start: Time, steps: seq<Step>) {
    steps != [] && Run(start, steps[..|steps| - 1]).Some? && Run(start, steps).Some? &&
    Run(start, steps[..|steps| - 1]).value.resetting.None? && Run(start, steps).value.resetting.Some?
  }

  /** A client is current: the first, or the last one opened, until a reset or a stop drops it. */
  predicate HasClient(start: Time, steps: seq<Step>) {
    if steps == [] then true
    else
      var event := steps[|steps| - 1].event;
      if event.Reopens? then event.ok
      else !event.UserStops? && !BeginsReset(start, steps) && HasClient(start, steps[..|steps| - 1])
  }

  /** The current client was accepted, and has neither ended nor been dropped since. */
  predicate Up(start: Time, steps: seq<Step>) {
    steps != [] &&
    var event := steps[|steps| - 1].event;
    if event.Accepted? then HasClient(start, steps)
    else
      !event.Rejected? && !event.Drops? && !event.DialFails? && !event.Reopens? && !event.UserStops? &&
      !BeginsReset(start, steps) && Up(start, steps[..|steps| - 1])
  }

  /** When a current client last brought a report or was accepted. */
  function LastHeard(start: Time, steps: seq<Step>): Option<Time> {
    if steps == [] then None
    else
      var last := steps[|steps| - 1];
      if (last.event.Hears? || last.event.Accepted?) && FromClient(start, steps) then Some(last.now)
      else LastHeard(start, steps[..|steps| - 1])
  }

  /** The commands are rejected as the printer last said. */
  predicate CommandsRejected(steps: seq<Step>) {
    steps != [] &&
    var event := steps[|steps| - 1].event;
    if event.RejectsCommands? then event.rejected else CommandsRejected(steps[..|steps| - 1])
  }

  predicate Stopped(steps: seq<Step>) { exists step <- steps :: step.event.UserStops? }

  /** The redials since a client was last accepted. */
  function Redials(start: Time, steps: seq<Step>): nat
    requires Run(start, steps).Some?
  {
    if steps == [] then 0
    else
      var init, last := steps[..|steps| - 1], steps[|steps| - 1];
      if last.event.Accepted? && FromClient(start, steps) then 0
      else Redials(start, init) + if Redialled(Run(start, init).value, last) then 1 else 0
  }

  predicate Redialled(s: State, step: Step) { step.event.Ticks? && Redialling(s) && RedialDue(s, step.now) }

  // ---------------------------------------------------------------------------
  // The run says it
  // ---------------------------------------------------------------------------

  /** When the later of the two stamps was made. */
  function Later(a: Option<Time>, b: Option<Time>): Option<Time> {
    if a.None? || (b.Some? && b.value >= a.value) then b else a
  }

  /** No stamp is ahead of the clock, and a connected client was accepted after it was opened. */
  predicate Stamped(s: State, clock: Time) {
    s.openedAt <= clock && NotSince(s.lastMessageAt, clock) && NotSince(s.connackAt, clock) &&
    NotSince(s.lastResetAt, s.openedAt) &&
    (s.connected ==> s.error.None? && s.connackAt.Some? && s.openedAt <= s.connackAt.value)
  }

  lemma StoppedMoves(s: State, step: Step)
    requires Enabled(s, step)
    ensures Next(s, step).stopped <==> s.stopped || step.event.UserStops?
  {
    if step.event.Ticks? {
      TickKeepsFlags(s, step.now, step.event.held);
    }
  }

  lemma RejectionMoves(s: State, step: Step)
    requires Enabled(s, step)
    ensures Next(s, step).commandsRejected <==>
            if step.event.RejectsCommands? then step.event.rejected else s.commandsRejected
  {
    if step.event.Ticks? {
      TickKeepsFlags(s, step.now, step.event.held);
    }
  }

  /** The fields no tick changes. */
  predicate SameFlags(s: State, t: State) {
    t.stopped == s.stopped && t.commandsRejected == s.commandsRejected && t.lastMessageAt == s.lastMessageAt &&
    t.connackAt == s.connackAt && t.lastResetAt == s.lastResetAt && t.openedAt == s.openedAt && t.error == s.error &&
    t.downSince == s.downSince
  }

  lemma TickKeepsFlags(s: State, now: Time, held: bool)
    ensures SameFlags(s, Tick(s, now, held))
  {
    var ended := EndUnanswered(s, now);
    assert SameFlags(s, ended);
    RedialKeepsFlags(ended, now);
    LabelKeepsFlags(RedialIfDue(ended, now), now);
    UpTickKeepsFlags(s, now, held);
    AuthTickKeepsFlags(s, now);
  }

  lemma RedialKeepsFlags(s: State, now: Time)
    ensures SameFlags(s, RedialIfDue(s, now))
  {
  }

  lemma LabelKeepsFlags(s: State, tick: Time)
    ensures SameFlags(s, Labelled(s, tick))
  {
  }

  lemma UpTickKeepsFlags(s: State, now: Time, held: bool)
    ensures SameFlags(s, TickUp(s, now, held))
  {
  }

  lemma AuthTickKeepsFlags(s: State, now: Time)
    ensures SameFlags(s, TickAuth(s, now))
  {
  }

  lemma {:induction false} FlagsFollow(start: Time, steps: seq<Step>)
    requires Run(start, steps).Some?
    ensures Run(start, steps).value.stopped <==> Stopped(steps)
    ensures Run(start, steps).value.commandsRejected <==> CommandsRejected(steps)
  {
    if steps != [] {
      var init, last := steps[..|steps| - 1], steps[|steps| - 1];
      FlagsFollow(start, init);
      StoppedMoves(Run(start, init).value, last);
      RejectionMoves(Run(start, init).value, last);
      assert steps == init + [last];
    }
  }

  /** A reset has dropped the client, and only a client that is there is connected. */
  predicate Linked(s: State) {
    s.redialDelay > 0.0 && (s.connected ==> s.hasClient) && (s.resetting.Some? ==> !s.hasClient)
  }

  lemma TickLinks(s: State, now: Time, held: bool)
    requires Linked(s)
    ensures var t := Tick(s, now, held);
            var begun := s.resetting.None? && t.resetting.Some?;
            (t.hasClient <==> s.hasClient && !begun) && (t.connected <==> s.connected && !begun)
  {
    if s.stopped {
    } else if s.error == Some(AuthRejected) {
    } else if s.connected {
      UpTickExactly(s, now, held);
    } else {
      DownTickExactly(s, now, held);
    }
  }

  /** What one step does to the client and to the connection. */
  lemma LinkMoves(s: State, step: Step)
    requires Linked(s) && Enabled(s, step)
    ensures var t := Next(s, step);
            var begun := s.resetting.None? && t.resetting.Some?;
            (t.hasClient <==> if step.event.Reopens? then step.event.ok
                              else !step.event.UserStops? && !begun && s.hasClient) &&
            (t.connected <==> if step.event.Accepted? then s.hasClient
                              else s.connected && !begun && (step.event.Ticks? || step.event.AsksReset? ||
                                                              step.event.Hears? || step.event.RejectsCommands?))
  {
    if step.event.Ticks? {
      TickLinks(s, step.now, step.event.held);
    }
  }

  lemma {:induction false} LinkFollows(start: Time, steps: seq<Step>)
    requires Run(start, steps).Some?
    ensures Run(start, steps).value.hasClient <==> HasClient(start, steps)
    ensures Run(start, steps).value.connected <==> Up(start, steps)
  {
    if steps != [] {
      var init, last := steps[..|steps| - 1], steps[|steps| - 1];
      LinkFollows(start, init);
      RunKeepsInv(start, init);
      LinkMoves(Run(start, init).value, last);
    }
  }

  lemma TickStamps(s: State, now: Time, held: bool, clock: Time)
    requires Linked(s) && clock <= now && Stamped(s, clock)
    ensures Stamped(Tick(s, now, held), now)
  {
    TickKeepsFlags(s, now, held);
    TickLinks(s, now, held);
  }

  lemma ReopenStamps(s: State, now: Time, ok: bool, clock: Time)
    requires s.resetting.Some? && clock <= now && Stamped(s, clock)
    ensures Stamped(FinishReset(s, now, ok), now)
  {
    var t := FinishReset(s, now, ok);
    assert t.lastMessageAt == s.lastMessageAt && t.connackAt == s.connackAt && !t.connected;
    assert t.lastResetAt == Some(now) && t.openedAt == now;
  }

  lemma RefusedStamps(s: State, now: Time, auth: bool, clock: Time)
    requires Linked(s) && clock <= now && Stamped(s, clock)
    ensures Stamped(OnConnectRefused(s, now, auth), now)
  {
  }

  lemma DropStamps(s: State, now: Time, ignored: bool, clock: Time)
    requires Linked(s) && clock <= now && Stamped(s, clock)
    ensures Stamped(OnDisconnect(s, now, ignored), now) && Stamped(OnConnectFail(s, now), now)
  {
  }

  lemma CallbackStamps(s: State, step: Step, clock: Time)
    requires Linked(s) && clock <= step.now && Stamped(s, clock)
    requires step.event.Rejected? || step.event.Drops? || step.event.DialFails?
    ensures Stamped(Next(s, step), step.now)
  {
    match step.event {
      case Rejected(auth) => RefusedStamps(s, step.now, auth, clock);
      case Drops(ignored) => DropStamps(s, step.now, ignored, clock);
      case DialFails => DropStamps(s, step.now, false, clock);
    }
  }

  lemma HearingStamps(s: State, now: Time, clock: Time)
    requires Linked(s) && clock <= now && Stamped(s, clock)
    ensures Stamped(OnConnectOk(s, now), now) && Stamped(OnMessage(s, now), now)
  {
  }

  lemma OtherStamps(s: State, step: Step, clock: Time)
    requires Linked(s) && clock <= step.now && Stamped(s, clock)
    requires step.event.AsksReset? || step.event.RejectsCommands? || step.event.UserStops?
    ensures Stamped(Next(s, step), step.now)
  {
  }

  lemma StampsKept(s: State, step: Step, clock: Time)
    requires Linked(s) && Enabled(s, step) && clock <= step.now && Stamped(s, clock)
    ensures Stamped(Next(s, step), step.now)
  {
    match step.event {
      case Ticks(held) => TickStamps(s, step.now, held, clock);
      case Reopens(ok) => ReopenStamps(s, step.now, ok, clock);
      case Rejected(auth) => CallbackStamps(s, step, clock);
      case Drops(ignored) => CallbackStamps(s, step, clock);
      case DialFails => CallbackStamps(s, step, clock);
      case Accepted => HearingStamps(s, step.now, clock);
      case Hears => HearingStamps(s, step.now, clock);
      case _ => OtherStamps(s, step, clock);
    }
  }

  /** Neither a report nor an accepted CONNACK. */
  predicate SameHeard(s: State, t: State) { t.lastMessageAt == s.lastMessageAt && t.connackAt == s.connackAt }

  lemma ReopenHears(s: State, now: Time, ok: bool)
    requires s.resetting.Some?
    ensures SameHeard(s, FinishReset(s, now, ok))
  {
  }

  lemma RefusedHears(s: State, now: Time, auth: bool)
    ensures SameHeard(s, OnConnectRefused(s, now, auth))
  {
  }

  lemma DropHears(s: State, now: Time, ignored: bool)
    ensures SameHeard(s, OnDisconnect(s, now, ignored)) && SameHeard(s, OnConnectFail(s, now))
  {
  }

  lemma HeardMoves(s: State, step: Step)
    requires Enabled(s, step)
    ensures step.event.Hears? && s.hasClient ==> Next(s, step) == s.(lastMessageAt := Some(step.now), down := None)
    ensures step.event.Accepted? && s.hasClient ==>
              Next(s, step).lastMessageAt == s.lastMessageAt && Next(s, step).connackAt == Some(step.now)
    ensures !((step.event.Hears? || step.event.Accepted?) && s.hasClient) ==> SameHeard(s, Next(s, step))
  {
    match step.event {
      case Ticks(held) => TickKeepsFlags(s, step.now, held);
      case Reopens(ok) => ReopenHears(s, step.now, ok);
      case Rejected(auth) => RefusedHears(s, step.now, auth);
      case Drops(ignored) => DropHears(s, step.now, ignored);
      case DialFails => DropHears(s, step.now, false);
      case _ =>
    }
  }

  /** The later of the two stamps a session keeps is when it was last heard from. */
  lemma {:induction false} HeardFollows(start: Time, steps: seq<Step>)
    requires Run(start, steps).Some?
    ensures var s := Run(start, steps).value;
            Stamped(s, Clock(start, steps)) && Later(s.lastMessageAt, s.connackAt) == LastHeard(start, steps)
  {
    if steps != [] {
      var init, last := steps[..|steps| - 1], steps[|steps| - 1];
      HeardFollows(start, init);
      RunKeepsInv(start, init);
      StampsKept(Run(start, init).value, last, Clock(start, init));
      HeardMoves(Run(start, init).value, last);
    }
  }

  // ---------------------------------------------------------------------------
  // Backoff
  // ---------------------------------------------------------------------------

  function Backoff(redials: nat): Time {
    if redials == 0 then 5.0 else if redials == 1 then 10.0 else if redials == 2 then 20.0 else 30.0
  }

  lemma DelayMoves(s: State, step: Step)
    requires Enabled(s, step) && s.redialDelay > 0.0
    ensures Next(s, step).redialDelay ==
            if step.event.Accepted? && s.hasClient then 5.0
            else if !Redialled(s, step) then s.redialDelay
            else if s.redialDelay > 15.0 then 30.0 else 2.0 * s.redialDelay
  {
    if step.event.Ticks? && Redialling(s) {
      DownTickExactly(s, step.now, step.event.held);
    }
  }

  /** A client that ends waits 5, 10, 20 and then 30 s, by the redials since one was last accepted. */
  lemma {:induction false} BackoffFollows(start: Time, steps: seq<Step>)
    requires Run(start, steps).Some?
    ensures Run(start, steps).value.redialDelay == Backoff(Redials(start, steps))
  {
    if steps != [] {
      var init := steps[..|steps| - 1];
      BackoffFollows(start, init);
      DelayMoves(Run(start, init).value, steps[|steps| - 1]);
    }
  }

  // ---------------------------------------------------------------------------
  // Why it is down, and since when
  // ---------------------------------------------------------------------------

  /** Since when the session has been down: a CONNACK ends it, a drop or a fresh client begins it. */
  function DownSince(start: Time, steps: seq<Step>): Option<Time> {
    if steps == [] then Some(start)
    else
      var last, before := steps[|steps| - 1], DownSince(start, steps[..|steps| - 1]);
      if last.event.Accepted? && FromClient(start, steps) then None
      else if before.None? &&
              (last.event.Reopens? || (last.event.Drops? && !last.event.ignored && FromClient(start, steps)))
      then Some(last.now)
      else before
  }

  /** What the last CONNACK refused; a reset that is not a redial or a retry of it forgets it. */
  function Refusal(start: Time, steps: seq<Step>): Option<ConnectError>
    requires Run(start, steps).Some?
  {
    if steps == [] then None
    else
      var init, last := steps[..|steps| - 1], steps[|steps| - 1];
      if last.event.Accepted? && FromClient(start, steps) then None
      else if last.event.Rejected? && FromClient(start, steps) then
        Some(if last.event.auth then AuthRejected else ConnectError.Refused)
      else if last.event.Reopens? && !KeepsRefusal(Run(start, init).value) then None
      else Refusal(start, init)
  }

  /** The reset under way is the retry or the redial of a refused CONNACK. */
  predicate KeepsRefusal(s: State) {
    s.resetting.Some? && s.resetting.value.keep in {Some(DownAuth), Some(DownRefused)}
  }

  lemma DownSinceMoves(s: State, step: Step)
    requires Enabled(s, step)
    ensures Next(s, step).downSince ==
            if step.event.Accepted? && s.hasClient then None
            else if s.downSince.None? &&
                    (step.event.Reopens? || (step.event.Drops? && !step.event.ignored && s.hasClient))
            then Some(step.now)
            else s.downSince
  {
    if step.event.Ticks? {
      TickKeepsFlags(s, step.now, step.event.held);
    }
  }

  lemma RefusalMoves(s: State, step: Step)
    requires Enabled(s, step)
    ensures Next(s, step).error ==
            if step.event.Accepted? && s.hasClient then None
            else if step.event.Rejected? && s.hasClient then
              Some(if step.event.auth then AuthRejected else ConnectError.Refused)
            else if step.event.Reopens? && !KeepsRefusal(s) then None
            else s.error
  {
    if step.event.Ticks? {
      TickKeepsFlags(s, step.now, step.event.held);
    }
  }

  /** What a down session is labelled by follows from the CONNACKs, drops and resets before. */
  lemma {:induction false} DownFollows(start: Time, steps: seq<Step>)
    requires Run(start, steps).Some?
    ensures Run(start, steps).value.downSince == DownSince(start, steps)
    ensures Run(start, steps).value.error == Refusal(start, steps)
  {
    if steps != [] {
      var init := steps[..|steps| - 1];
      DownFollows(start, init);
      DownSinceMoves(Run(start, init).value, steps[|steps| - 1]);
      RefusalMoves(Run(start, init).value, steps[|steps| - 1]);
    }
  }

  /** What this step ends: the current client, unless it had ended, or the fresh one that did not start. */
  predicate EndsNow(s: State, step: Step) {
    match step.event
    case Reopens(ok) => !ok
    case Ticks(_) => !s.stopped && !s.connected && s.error != Some(AuthRejected) && Unanswered(s, step.now)
    case _ => (step.event.Rejected? || step.event.Drops? || step.event.DialFails?) && s.hasClient && !s.ended
  }

  predicate Revives(s: State, step: Step) { step.event.Reopens? || (step.event.Accepted? && s.hasClient) }

  lemma TickEnds(s: State, now: Time, held: bool)
    requires Linked(s)
    ensures var t, ends := Tick(s, now, held), EndsNow(s, Step(now, Ticks(held)));
            (t.ended <==> ends || s.ended) && t.redialAt == if ends then Some(now + s.redialDelay) else s.redialAt
  {
    if s.stopped || s.error == Some(AuthRejected) {
    } else if s.connected {
      UpTickExactly(s, now, held);
    } else {
      DownTickExactly(s, now, held);
    }
  }

  lemma ReopenEnds(s: State, now: Time, ok: bool)
    requires s.resetting.Some?
    ensures var t := FinishReset(s, now, ok);
            (t.ended <==> !ok) && t.redialAt == if ok then s.redialAt else Some(now + s.redialDelay)
  {
  }

  /**
   * A client that is refused, drops, cannot dial or goes unanswered ends at once, once, and its
   * redial is due one backoff later; only a fresh or an accepted client is not ended.
   */
  lemma EndsExactly(s: State, step: Step)
    requires Linked(s) && Enabled(s, step)
    ensures Next(s, step).ended <==> EndsNow(s, step) || (s.ended && !Revives(s, step))
    ensures Next(s, step).redialAt ==
            if EndsNow(s, step) then Some(step.now + s.redialDelay)
            else if step.event.Accepted? && s.hasClient then None else s.redialAt
  {
    match step.event {
      case Ticks(held) => TickEnds(s, step.now, held);
      case Reopens(ok) => ReopenEnds(s, step.now, ok);
      case _ =>
    }
  }

  /** A reset asked for from outside begins exactly when none is under way and the session is wanted. */
  lemma AskedResetExactly(s: State, now: Time)
    ensures Next(s, Step(now, AsksReset)) ==
            if s.stopped || s.resetting.Some? then s
            else s.(hasClient := false, connected := false, resetting := Some(Reset(None, None)))
  {
  }

  /** How long a session that is down may wait before it is called unreachable is over. */
  predicate LongDown(since: Option<Time>, at: Time) { since.Some? && at - since.value > 60.0 }

  /** The label of a session a tick at `at` finds or leaves down. */
  function LabelledAt(error: Option<ConnectError>, since: Option<Time>, at: Time, before: Option<Down>): Option<Down> {
    if error == Some(ConnectError.Refused) then Some(DownRefused)
    else if LongDown(since, at) then Some(Unreachable)
    else before
  }

  /** The label a step leaves, told from the fields before it. */
  function LabelAfter(s: State, step: Step): Option<Down>
    requires Enabled(s, step)
  {
    match step.event
    case Accepted => if s.hasClient then None else s.down
    case Hears => if s.hasClient then None else s.down
    case Rejected(auth) => if !s.hasClient then s.down else if auth then Some(DownAuth) else Some(DownRefused)
    case Reopens(_) =>
      var reset := s.resetting.value;
      if reset.tick.None? then reset.keep
      else
        LabelledAt(if KeepsRefusal(s) then s.error else None,
                   if s.downSince.Some? then s.downSince else Some(step.now), reset.tick.value, reset.keep)
    case Ticks(_) =>
      if s.stopped then s.down
      else if s.error == Some(AuthRejected) then Some(DownAuth)
      else if s.connected then (if !s.commandsRejected && Stale(s, step.now) then Some(Silent) else s.down)
      else if RedialDue(s, step.now) && s.resetting.None? then s.down
      else LabelledAt(s.error, s.downSince, step.now, s.down)
    case _ => s.down
  }

  lemma TickLabels(s: State, now: Time, held: bool)
    requires Linked(s)
    ensures Tick(s, now, held).down == LabelAfter(s, Step(now, Ticks(held)))
  {
    if s.stopped || s.error == Some(AuthRejected) {
    } else if s.connected {
      UpTickExactly(s, now, held);
    } else {
      DownTickExactly(s, now, held);
    }
  }

  lemma ReopenLabels(s: State, now: Time, ok: bool)
    requires s.resetting.Some?
    ensures FinishReset(s, now, ok).down == LabelAfter(s, Step(now, Reopens(ok)))
  {
  }

  /** Why the session is said to be down after any step. */
  lemma LabelExactly(s: State, step: Step)
    requires Linked(s) && Enabled(s, step)
    ensures Next(s, step).down == LabelAfter(s, step)
  {
    match step.event {
      case Ticks(held) => TickLabels(s, step.now, held);
      case Reopens(ok) => ReopenLabels(s, step.now, ok);
      case _ =>
    }
  }

  /** The tick sets the slow wait: it starts it, or it retries and waits anew. */
  predicate SetsWait(s: State, now: Time) {
    !s.stopped && s.error == Some(AuthRejected) &&
    (s.authRetryAt.None? || (s.authRetryAt.value <= now && NotSince(s.lastResetAt, now - 30.0)))
  }

  lemma DownTickRetries(s: State, now: Time)
    ensures TickDown(s, now).authRetryAt == s.authRetryAt
  {
    var ended := EndUnanswered(s, now);
    assert ended.authRetryAt == s.authRetryAt;
    assert RedialIfDue(ended, now).authRetryAt == s.authRetryAt;
  }

  lemma TickRetries(s: State, now: Time, held: bool)
    ensures Tick(s, now, held).authRetryAt == if SetsWait(s, now) then Some(now + 300.0) else s.authRetryAt
  {
    DownTickRetries(s, now);
  }

  lemma ReopenRetries(s: State, now: Time, ok: bool)
    requires s.resetting.Some?
    ensures FinishReset(s, now, ok).authRetryAt == s.authRetryAt
  {
  }

  /** Only a refused access code, or the retry of one, sets the slow wait; an accepted client clears it. */
  lemma RetryExactly(s: State, step: Step)
    requires Enabled(s, step)
    ensures Next(s, step).authRetryAt ==
            if step.event.Accepted? && s.hasClient then None
            else if (step.event.Rejected? && step.event.auth && s.hasClient) ||
                    (step.event.Ticks? && SetsWait(s, step.now))
            then Some(step.now + 300.0)
            else s.authRetryAt
  {
    match step.event {
      case Ticks(held) => TickRetries(s, step.now, held);
      case Reopens(ok) => ReopenRetries(s, step.now, ok);
      case _ =>
    }
  }

  lemma StoppedBeginsNone(s: State, step: Step)
    requires Enabled(s, step) && s.stopped && s.resetting.None?
    ensures Next(s, step).resetting.None?
  {
  }

  /** No reset ever begins once the user has stopped the session. */
  lemma NoResetOnceStopped(start: Time, steps: seq<Step>)
    requires Run(start, steps).Some? && BeginsReset(start, steps)
    ensures !Stopped(steps[..|steps| - 1])
  {
    var init := steps[..|steps| - 1];
    FlagsFollow(start, init);
    if Run(start, init).value.stopped {
      StoppedBeginsNone(Run(start, init).value, steps[|steps| - 1]);
    }
  }

  // ---------------------------------------------------------------------------
  // A silent session is reset
  // ---------------------------------------------------------------------------

  /**
   * In any run, a tick resets a session that is up exactly when its commands are accepted and it
   * was last heard from over a minute before, and at least 150 s before when the printer holds it.
   * No cooldown is left to wait for: the last reset is older than the CONNACK.
   */
  lemma SilentTickResets(start: Time, steps: seq<Step>, s: State, now: Time, held: bool)
    requires Reachable(start, steps, s) && Clock(start, steps) <= now
    requires Up(start, steps) && !Stopped(steps)
    ensures LastHeard(start, steps).Some?
    ensures Tick(s, now, held).resetting.Some? <==>
            !CommandsRejected(steps) && now - LastHeard(start, steps).value > 60.0 &&
            (held ==> now - LastHeard(start, steps).value >= 150.0)
  {
    RunKeepsInv(start, steps);
    FlagsFollow(start, steps);
    LinkFollows(start, steps);
    HeardFollows(start, steps);
    UpTickExactly(s, now, held);
  }

  lemma {:induction false} UnheardSince(start: Time, steps: seq<Step>, i: nat, j: nat)
    requires i <= j <= |steps| && Run(start, steps[..j]).Some?
    requires forall k :: i <= k < j ==> !steps[k].event.Hears? && !steps[k].event.Accepted?
    ensures Run(start, steps[..i]).Some? && LastHeard(start, steps[..j]) == LastHeard(start, steps[..i])
    ensures NotSince(LastHeard(start, steps[..j]), Clock(start, steps[..i]))
  {
    if i == j {
      HeardFollows(start, steps[..i]);
    } else {
      assert steps[..j][..j - 1] == steps[..j - 1];
      UnheardSince(start, steps, i, j - 1);
    }
  }

  /**
   * A tick 150 s after any moment since which nothing was heard leaves no session connected, unless
   * it was stopped or the printer rejects its commands.
   */
  lemma SilenceIsBounded(start: Time, steps: seq<Step>, i: nat, j: nat)
    requires i <= j < |steps| && Run(start, steps[..j + 1]).Some? && steps[j].event.Ticks?
    requires forall k :: i <= k < j ==> !steps[k].event.Hears? && !steps[k].event.Accepted?
    requires steps[j].now >= Clock(start, steps[..i]) + 150.0
    ensures !Up(start, steps[..j + 1]) || Stopped(steps[..j]) || CommandsRejected(steps[..j])
  {
    RunStep(start, steps, j);
    UnheardSince(start, steps, i, j);
    LinkFollows(start, steps[..j]);
    LinkFollows(start, steps[..j + 1]);
    assert steps[..j + 1][..j] == steps[..j];
    if Up(start, steps[..j + 1]) && !Stopped(steps[..j]) && !CommandsRejected(steps[..j]) {
      SilentTickResets(start, steps[..j], Run(start, steps[..j]).value, steps[j].now, steps[j].event.held);
    }
  }
}
