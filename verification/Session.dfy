/**
 * MQTT session liveness for one printer (`LinkSession` in bridge/bambu/session.py): the
 * watchdog tick, the redial backoff and the client callbacks.
 *
 * A reset takes two sections: `_stop` drops the client, then a fresh one is opened. The
 * network callbacks and other threads run in between; the reset lock admits one reset at a time.
 */
module Session {
  import opened Base

  type Time = real

  const REDIAL_MIN_SECONDS: Time := 5.0
  const REDIAL_MAX_SECONDS: Time := 30.0
  const CONNECT_TIMEOUT_SECONDS: Time := 20.0
  const STALE_AFTER_SECONDS: Time := 60.0
  const RESET_COOLDOWN_SECONDS: Time := 30.0
  const RESET_HOLD_MAX_SECONDS: Time := 150.0
  const AUTH_RETRY_SECONDS: Time := 300.0
  const UNREACHABLE_AFTER_SECONDS: Time := 60.0

  datatype ConnectError = AuthRejected | Refused

  /** Why the session is down. */
  datatype Down = DownAuth | DownRefused | Unreachable | Silent

  /** A reset under way: the reason it keeps, and the tick whose redial it is, which labels the session after it. */
  datatype Reset = Reset(keep: Option<Down>, tick: Option<Time>)

  /**
   * `opens` counts the clients opened and `endedAt` is when the current one ended; the program
   * has no such fields.
   */
  datatype State = State(
    stopped: bool, hasClient: bool, connected: bool, ended: bool, resetting: Option<Reset>,
    redialAt: Option<Time>, redialDelay: Time, openedAt: Time, error: Option<ConnectError>,
    authRetryAt: Option<Time>, lastResetAt: Option<Time>, lastMessageAt: Option<Time>, connackAt: Option<Time>,
    downSince: Option<Time>, down: Option<Down>, commandsRejected: bool,
    opens: nat, endedAt: Time)

  // ---------------------------------------------------------------------------
  // The sections, as functions
  // ---------------------------------------------------------------------------

  function EndClient(s: State, now: Time): State {
    if s.ended then s else s.(ended := true, redialAt := Some(now + s.redialDelay), endedAt := now)
  }

  /** `_open`; `ok` is false when starting the fresh client raised. */
  function Open(s: State, now: Time, ok: bool): State {
    var started := s.(hasClient := true, connected := false, ended := false, openedAt := now, opens := s.opens + 1,
                     downSince := if s.downSince.Some? then s.downSince else Some(now));
    if ok then started else EndClient(started.(hasClient := false), now)
  }

  /** The first half of `hard_reset`: a stopped session or a reset under way makes it a no-op. */
  function BeginReset(s: State, keep: Option<Down>, tick: Option<Time>): State {
    if s.stopped || s.resetting.Some? then s
    else s.(hasClient := false, connected := false, resetting := Some(Reset(keep, tick)))
  }

  /** The label a tick ends with while the session is down. */
  function Labelled(s: State, tick: Time): State {
    if s.error == Some(Refused) then s.(down := Some(DownRefused))
    else if s.downSince.Some? && tick - s.downSince.value > UNREACHABLE_AFTER_SECONDS then s.(down := Some(Unreachable))
    else s
  }

  /** The second half, once the old client's thread was joined or given up. */
  function FinishReset(s: State, now: Time, ok: bool): State
    requires s.resetting.Some?
  {
    var keep := s.resetting.value.keep;
    var error := if keep in {Some(DownAuth), Some(DownRefused)} then s.error else None;
    var after := Open(s.(resetting := None, lastResetAt := Some(now), down := keep, error := error), now, ok);
    if s.resetting.value.tick.Some? then Labelled(after, s.resetting.value.tick.value) else after
  }

  predicate ResetAllowed(s: State, now: Time) {
    s.lastResetAt.None? || now - s.lastResetAt.value >= RESET_COOLDOWN_SECONDS
  }

  function EndUnanswered(s: State, now: Time): State {
    if !s.hasClient || s.ended || now - s.openedAt < CONNECT_TIMEOUT_SECONDS then s else EndClient(s, now)
  }

  function Doubled(delay: Time): Time { if delay * 2.0 > REDIAL_MAX_SECONDS then REDIAL_MAX_SECONDS else delay * 2.0 }

  function RedialIfDue(s: State, now: Time): State {
    if !s.ended || s.redialAt.None? || now < s.redialAt.value then s
    else BeginReset(s.(redialDelay := Doubled(s.redialDelay)), s.down, Some(now))
  }

  /** When this client was last heard from: a report or its CONNACK, whichever came second. */
  function SilenceAnchor(lastMessageAt: Option<Time>, connackAt: Option<Time>): Option<Time> {
    if lastMessageAt.None? then connackAt
    else if connackAt.None? then lastMessageAt
    else if connackAt.value > lastMessageAt.value then connackAt else lastMessageAt
  }

  function TickAuth(s: State, now: Time): State {
    var labelled := s.(down := Some(DownAuth),
                       authRetryAt := if s.authRetryAt.Some? then s.authRetryAt else Some(now + AUTH_RETRY_SECONDS));
    if now >= labelled.authRetryAt.value && ResetAllowed(s, now) then
      BeginReset(labelled.(authRetryAt := Some(now + AUTH_RETRY_SECONDS)), Some(DownAuth), None)
    else labelled
  }

  function TickDown(s: State, now: Time): State {
    var redialled := RedialIfDue(EndUnanswered(s, now), now);
    if s.resetting.None? && redialled.resetting.Some? then redialled else Labelled(redialled, now)
  }

  /** `held`: the printer is unpacking, or a start is too fresh, so silence must not reset it. */
  function TickUp(s: State, now: Time, held: bool): State {
    var anchor := SilenceAnchor(s.lastMessageAt, s.connackAt);
    if s.commandsRejected || anchor.None? || now - anchor.value <= STALE_AFTER_SECONDS then s
    else
      var stale := s.(down := Some(Silent));
      if (held && now - anchor.value < RESET_HOLD_MAX_SECONDS) || !ResetAllowed(s, now) then stale
      else BeginReset(stale, Some(Silent), None)
  }

  function Tick(s: State, now: Time, held: bool): State {
    if s.stopped then s
    else if s.error == Some(AuthRejected) then TickAuth(s, now)
    else if !s.connected then TickDown(s, now)
    else TickUp(s, now, held)
  }

  // Callbacks. One from a client that is no longer current is ignored.
  function OnConnectOk(s: State, now: Time): State {
    if !s.hasClient then s
    else s.(connected := true, error := None, connackAt := Some(now), downSince := None, authRetryAt := None,
            ended := false, redialDelay := REDIAL_MIN_SECONDS, redialAt := None, down := None)
  }

  function OnConnectRefused(s: State, now: Time, auth: bool): State {
    if !s.hasClient then s
    else
      var refused := EndClient(s.(connected := false, error := Some(if auth then AuthRejected else Refused)), now);
      refused.(down := Some(if auth then DownAuth else DownRefused),
               authRetryAt := if auth then Some(now + AUTH_RETRY_SECONDS) else s.authRetryAt)
  }

  function OnDisconnect(s: State, now: Time, ignored: bool): State {
    if !s.hasClient then s
    else
      var dropped := EndClient(s.(connected := false), now);
      if ignored || s.downSince.Some? then dropped else dropped.(downSince := Some(now))
  }

  function OnConnectFail(s: State, now: Time): State {
    if !s.hasClient then s else EndClient(s.(connected := false), now)
  }

  function OnMessage(s: State, now: Time): State {
    if !s.hasClient then s else s.(lastMessageAt := Some(now), down := None)
  }

  // ---------------------------------------------------------------------------
  // The same, as the program runs them
  // ---------------------------------------------------------------------------

  class LinkSession {
    var userStopped: bool
    var hasClient: bool
    var connected: bool
    var clientEnded: bool
    var resetting: Option<Reset>
    var redialAt: Option<Time>
    var redialDelay: Time
    var openedAt: Time
    var lastConnectError: Option<ConnectError>
    var authRetryNotBefore: Option<Time>
    var lastResetAt: Option<Time>
    var lastMessageAt: Option<Time>
    var connackAt: Option<Time>
    var socketDownSince: Option<Time>
    var downReason: Option<Down>
    var commandsRejected: bool
    ghost var opens: nat
    ghost var endedAt: Time

    ghost function View(): State
      reads this
    {
      State(userStopped, hasClient, connected, clientEnded, resetting, redialAt, redialDelay, openedAt,
            lastConnectError, authRetryNotBefore, lastResetAt, lastMessageAt, connackAt, socketDownSince, downReason,
            commandsRejected, opens, endedAt)
    }

    /** `start`: the first client is opened and the call returned. */
    constructor (now: Time)
      ensures View() == Fresh(now)
    {
      userStopped, hasClient, connected, clientEnded, resetting := false, true, false, false, None;
      redialAt, redialDelay, openedAt := None, REDIAL_MIN_SECONDS, now;
      lastConnectError, authRetryNotBefore, lastResetAt := None, None, None;
      lastMessageAt, connackAt, socketDownSince, downReason := None, None, Some(now), None;
      commandsRejected, opens, endedAt := false, 1, now;
    }

    method EndClientLocked(now: Time)
      modifies this
      ensures View() == EndClient(old(View()), now)
    {
      if clientEnded {
        return;
      }
      clientEnded := true;
      redialAt := Some(now + redialDelay);
      endedAt := now;
    }

    method OpenClient(now: Time, ok: bool)
      modifies this
      ensures View() == Open(old(View()), now, ok)
    {
      hasClient, connected, clientEnded := true, false, false;
      openedAt := now;
      opens := opens + 1;
      if socketDownSince.None? {
        socketDownSince := Some(now);
      }
      if !ok {
        hasClient := false;
        EndClientLocked(now);
      }
    }

    method HardResetBegin(keep: Option<Down>, tick: Option<Time>)
      modifies this
      ensures View() == BeginReset(old(View()), keep, tick)
    {
      if userStopped || resetting.Some? {
        return;
      }
      hasClient, connected := false, false;
      resetting := Some(Reset(keep, tick));
    }

    method HardResetFinish(now: Time, ok: bool)
      requires resetting.Some?
      modifies this
      ensures View() == FinishReset(old(View()), now, ok)
    {
      var keep, tick := resetting.value.keep, resetting.value.tick;
      resetting := None;
      lastResetAt := Some(now);
      downReason := keep;
      if keep != Some(DownAuth) && keep != Some(DownRefused) {
        lastConnectError := None;
      }
      OpenClient(now, ok);
      if tick.Some? {
        Label(tick.value);
      }
    }

    /** The end of a tick over a session that is down. */
    method Label(tick: Time)
      modifies this`downReason
      ensures View() == Labelled(old(View()), tick)
    {
      if lastConnectError == Some(Refused) {
        downReason := Some(DownRefused);
        return;
      }
      if socketDownSince.Some? && tick - socketDownSince.value > UNREACHABLE_AFTER_SECONDS {
        downReason := Some(Unreachable);
      }
    }

    method EndUnansweredClient(now: Time)
      modifies this
      ensures View() == EndUnanswered(old(View()), now)
    {
      if !hasClient || clientEnded || now - openedAt < CONNECT_TIMEOUT_SECONDS {
        return;
      }
      EndClientLocked(now);
    }

    method Redial(now: Time)
      modifies this
      ensures View() == RedialIfDue(old(View()), now)
    {
      if !clientEnded || redialAt.None? || now < redialAt.value {
        return;
      }
      redialDelay := Doubled(redialDelay);
      HardResetBegin(downReason, Some(now));
    }

    method WatchdogTick(now: Time, held: bool)
      modifies this
      ensures View() == Tick(old(View()), now, held)
    {
      if userStopped {
        return;
      }
      var allowed := lastResetAt.None? || now - lastResetAt.value >= RESET_COOLDOWN_SECONDS;
      if lastConnectError == Some(AuthRejected) {
        downReason := Some(DownAuth);
        if authRetryNotBefore.None? {
          authRetryNotBefore := Some(now + AUTH_RETRY_SECONDS);
        }
        if now >= authRetryNotBefore.value && allowed {
          authRetryNotBefore := Some(now + AUTH_RETRY_SECONDS);
          HardResetBegin(Some(DownAuth), None);
        }
        return;
      }
      if !connected {
        var busy := resetting.Some?;
        EndUnansweredClient(now);
        Redial(now);
        // A redial this tick started labels the session when it is done.
        if busy || resetting.None? {
          Label(now);
        }
        return;
      }
      if commandsRejected {
        return;
      }
      var anchor := SilenceAnchor(lastMessageAt, connackAt);
      if anchor.Some? && now - anchor.value > STALE_AFTER_SECONDS {
        downReason := Some(Silent);
        if held && now - anchor.value < RESET_HOLD_MAX_SECONDS {
          return;
        }
        if allowed {
          HardResetBegin(Some(Silent), None);
        }
      }
    }

    /** The redial bookkeeping a successful CONNACK resets. */
    method ForgetRedial()
      modifies this`authRetryNotBefore, this`clientEnded, this`redialDelay, this`redialAt
      ensures authRetryNotBefore == None && !clientEnded && redialDelay == REDIAL_MIN_SECONDS && redialAt == None
    {
      authRetryNotBefore := None;
      clientEnded := false;
      redialDelay := REDIAL_MIN_SECONDS;
      redialAt := None;
    }

    method ForgetTrouble()
      modifies this`lastConnectError, this`socketDownSince, this`downReason
      ensures lastConnectError == None && socketDownSince == None && downReason == None
    {
      lastConnectError := None;
      socketDownSince := None;
      downReason := None;
    }

    /** `_on_connect` with code 0. */
    method ConnackAccepted(now: Time)
      modifies this
      ensures View() == OnConnectOk(old(View()), now)
    {
      if !hasClient {
        return;
      }
      connected := true;
      connackAt := Some(now);
      ForgetTrouble();
      ForgetRedial();
    }

    /** `_on_connect` with any other code; 134 and 135 are access-code rejections. */
    method ConnackRefused(now: Time, code: int)
      modifies this
      ensures View() == OnConnectRefused(old(View()), now, code == 134 || code == 135)
    {
      if !hasClient {
        return;
      }
      var rejected := code == 134 || code == 135;
      connected := false;
      lastConnectError := Some(if rejected then AuthRejected else Refused);
      EndClientLocked(now);
      downReason := Some(if rejected then DownAuth else DownRefused);
      if rejected {
        authRetryNotBefore := Some(now + AUTH_RETRY_SECONDS);
      }
    }

    method Disconnected(now: Time, ignored: bool)
      modifies this
      ensures View() == OnDisconnect(old(View()), now, ignored)
    {
      if !hasClient {
        return;
      }
      connected := false;
      EndClientLocked(now);
      if !ignored && socketDownSince.None? {
        socketDownSince := Some(now);
      }
    }

    method ConnectFailed(now: Time)
      modifies this
      ensures View() == OnConnectFail(old(View()), now)
    {
      if !hasClient {
        return;
      }
      connected := false;
      EndClientLocked(now);
    }

    method Message(now: Time)
      modifies this
      ensures View() == OnMessage(old(View()), now)
    {
      if !hasClient {
        return;
      }
      lastMessageAt := Some(now);
      downReason := None;
    }
  }

  // ---------------------------------------------------------------------------
  // Runs
  // ---------------------------------------------------------------------------

  datatype Event =
    | Ticks(held: bool)
    | AsksReset                      // the send watchdog or the fleet backstop
    | Reopens(ok: bool)              // a reset under way opens its client
    | Accepted | Rejected(auth: bool) | Drops(ignored: bool) | DialFails | Hears
    | RejectsCommands(rejected: bool)
    | UserStops

  datatype Step = Step(now: Time, event: Event)

  function Fresh(now: Time): State {
    State(false, true, false, false, None, None, REDIAL_MIN_SECONDS, now, None, None, None, None, None, Some(now),
      None, false, 1, now)
  }

  predicate Enabled(s: State, step: Step) { step.event.Reopens? ==> s.resetting.Some? }

  function Next(s: State, step: Step): State
    requires Enabled(s, step)
  {
    match step.event
    case Ticks(held) => Tick(s, step.now, held)
    case AsksReset => BeginReset(s, None, None)
    case Reopens(ok) => FinishReset(s, step.now, ok)
    case Accepted => OnConnectOk(s, step.now)
    case Rejected(auth) => OnConnectRefused(s, step.now, auth)
    case Drops(ignored) => OnDisconnect(s, step.now, ignored)
    case DialFails => OnConnectFail(s, step.now)
    case Hears => OnMessage(s, step.now)
    case RejectsCommands(rejected) => s.(commandsRejected := rejected)
    case UserStops => s.(stopped := true, hasClient := false, connected := false)
  }

  /** A session started at `start` and run through steps whose clock never goes back. */
  function Run(start: Time, steps: seq<Step>): Option<State> {
    if steps == [] then Some(Fresh(start))
    else
      var before := Run(start, steps[..|steps| - 1]);
      var step := steps[|steps| - 1];
      if before.Some? && Enabled(before.value, step) && Clock(start, steps[..|steps| - 1]) <= step.now
      then Some(Next(before.value, step)) else None
  }

  ghost predicate Reachable(start: Time, steps: seq<Step>, s: State) { Run(start, steps) == Some(s) }

  function Clock(start: Time, steps: seq<Step>): Time { if steps == [] then start else steps[|steps| - 1].now }

  // ---------------------------------------------------------------------------
  // No down state is stranded
  // ---------------------------------------------------------------------------

  /** The client ended and its replacement is due within thirty seconds of that. */
  predicate EndedWithDeadline(s: State, clock: Time) {
    s.ended && s.redialAt.Some? && s.endedAt <= clock && s.redialAt.value <= s.endedAt + REDIAL_MAX_SECONDS
  }

  /** A client is open and unanswered, stamped so that a tick can time it out. */
  predicate OpenAndTimed(s: State, clock: Time) { s.hasClient && !s.ended && s.openedAt <= clock }

  predicate Inv(s: State, clock: Time) {
    REDIAL_MIN_SECONDS <= s.redialDelay <= REDIAL_MAX_SECONDS &&
    (s.resetting.Some? ==> !s.connected && !s.hasClient) &&
    (s.connected ==> s.hasClient && !s.ended) &&
    (!s.stopped && s.resetting.None? && !s.connected ==> EndedWithDeadline(s, clock) || OpenAndTimed(s, clock)) &&
    (s.lastResetAt.Some? ==> s.lastResetAt.value <= s.openedAt) && s.openedAt <= clock &&
    (s.authRetryAt.Some? ==> s.authRetryAt.value <= clock + AUTH_RETRY_SECONDS) &&
    (s.error == Some(AuthRejected) ==> s.authRetryAt.Some?)
  }

  lemma TickKeepsInv(s: State, now: Time, held: bool, clock: Time)
    requires Inv(s, clock) && clock <= now
    ensures Inv(Tick(s, now, held), now)
  {
    if s.stopped {
    } else if s.error == Some(AuthRejected) {
      AuthTickKeepsInv(s, now, clock);
    } else if s.connected {
      UpTickKeepsInv(s, now, held, clock);
    } else {
      DownTickKeepsInv(s, now, clock);
    }
  }

  lemma DownTickKeepsInv(s: State, now: Time, clock: Time)
    requires Inv(s, clock) && clock <= now && !s.connected
    ensures Inv(TickDown(s, now), now)
  {
    EndingKeepsInv(s, EndUnanswered(s, now), now, clock);
    var redialled := RedialIfDue(EndUnanswered(s, now), now);
    RedialKeepsInv(EndUnanswered(s, now), now);
    LabelKeepsInv(redialled, now, now);
  }

  lemma LabelKeepsInv(s: State, tick: Time, now: Time)
    requires Inv(s, now)
    ensures Inv(Labelled(s, tick), now)
  {
  }

  lemma AuthTickKeepsInv(s: State, now: Time, clock: Time)
    requires Inv(s, clock) && clock <= now
    ensures Inv(TickAuth(s, now), now)
  {
  }

  lemma UpTickKeepsInv(s: State, now: Time, held: bool, clock: Time)
    requires Inv(s, clock) && clock <= now && s.connected
    ensures Inv(TickUp(s, now, held), now)
  {
  }

  lemma EndingKeepsInv(s: State, after: State, now: Time, clock: Time)
    requires Inv(s, clock) && clock <= now && !s.connected && (after == s || after == EndClient(s, now))
    ensures Inv(after, now)
  {
  }

  lemma RedialKeepsInv(s: State, now: Time)
    requires Inv(s, now)
    ensures Inv(RedialIfDue(s, now), now)
  {
  }

  lemma ReopenKeepsInv(s: State, now: Time, ok: bool, clock: Time)
    requires Inv(s, clock) && clock <= now && s.resetting.Some?
    ensures Inv(FinishReset(s, now, ok), now)
  {
  }

  lemma ConnackKeepsInv(s: State, now: Time, auth: bool, clock: Time)
    requires Inv(s, clock) && clock <= now
    ensures Inv(OnConnectOk(s, now), now) && Inv(OnConnectRefused(s, now, auth), now)
  {
  }

  lemma DropKeepsInv(s: State, now: Time, ignored: bool, clock: Time)
    requires Inv(s, clock) && clock <= now
    ensures Inv(OnDisconnect(s, now, ignored), now)
  {
    DialFailKeepsInv(s, now, clock);
    DownSinceKeepsInv(OnConnectFail(s, now), Some(now), now);
  }

  lemma DownSinceKeepsInv(s: State, since: Option<Time>, now: Time)
    requires Inv(s, now)
    ensures Inv(s.(downSince := since), now)
  {
  }

  lemma DialFailKeepsInv(s: State, now: Time, clock: Time)
    requires Inv(s, clock) && clock <= now
    ensures Inv(OnConnectFail(s, now), now)
  {
  }

  lemma OthersKeepInv(s: State, step: Step, clock: Time)
    requires Inv(s, clock) && clock <= step.now
    requires step.event.AsksReset? || step.event.Hears? || step.event.RejectsCommands? || step.event.UserStops?
    ensures Inv(Next(s, step), step.now)
  {
  }

  lemma InvKept(s: State, step: Step, clock: Time)
    requires Inv(s, clock) && Enabled(s, step) && clock <= step.now
    ensures Inv(Next(s, step), step.now)
  {
    match step.event {
      case Ticks(held) => TickKeepsInv(s, step.now, held, clock);
      case Reopens(ok) => ReopenKeepsInv(s, step.now, ok, clock);
      case Accepted => ConnackKeepsInv(s, step.now, false, clock);
      case Rejected(auth) => ConnackKeepsInv(s, step.now, auth, clock);
      case Drops(ignored) => DropKeepsInv(s, step.now, ignored, clock);
      case DialFails => DialFailKeepsInv(s, step.now, clock);
      case _ => OthersKeepInv(s, step, clock);
    }
  }

  lemma {:induction false} RunKeepsInv(start: Time, steps: seq<Step>)
    requires Run(start, steps).Some?
    ensures Inv(Run(start, steps).value, Clock(start, steps))
  {
    if steps != [] {
      var init := steps[..|steps| - 1];
      RunKeepsInv(start, init);
      InvKept(Run(start, init).value, steps[|steps| - 1], Clock(start, init));
    }
  }

  /**
   * In every reachable un-stopped down state a fresh client is on its way: a reset is opening
   * one, or the client ended with a redial deadline at most thirty seconds after, or it is
   * open with a start stamp. The backoff stays between five and thirty seconds.
   */
  lemma DownIsNeverStranded(start: Time, steps: seq<Step>, s: State)
    requires Reachable(start, steps, s)
    ensures REDIAL_MIN_SECONDS <= s.redialDelay <= REDIAL_MAX_SECONDS
    ensures var clock := Clock(start, steps);
            !s.stopped && !s.connected ==> s.resetting.Some? || EndedWithDeadline(s, clock) || OpenAndTimed(s, clock)
  {
    RunKeepsInv(start, steps);
  }

  // ---------------------------------------------------------------------------
  // A fresh client comes within a fixed bound
  // ---------------------------------------------------------------------------

  /** Down, wanted, and not waiting out an auth rejection. */
  predicate Redialling(s: State) { !s.stopped && !s.connected && s.error != Some(AuthRejected) }

  /** A replacement is being opened, or will be by the first tick at `by`. */
  predicate Due(s: State, due: Time) {
    s.resetting.Some? || (s.ended && s.redialAt.Some? && s.redialAt.value <= due)
  }

  /** A tick twenty seconds in leaves the replacement due thirty seconds later. */
  lemma TickMakesDue(s: State, step: Step, clock: Time)
    requires Inv(s, clock) && clock <= step.now && step.event.Ticks? && Redialling(s)
    requires s.resetting.None? ==> s.ended || step.now >= s.openedAt + CONNECT_TIMEOUT_SECONDS
    ensures Due(Next(s, step), step.now + REDIAL_MAX_SECONDS) && Next(s, step).opens == s.opens
  {
  }

  lemma DueStays(s: State, step: Step, clock: Time, due: Time)
    requires Inv(s, clock) && Enabled(s, step) && clock <= step.now && Redialling(s) && Due(s, due)
    requires Redialling(Next(s, step))
    ensures Next(s, step).opens > s.opens || (Next(s, step).opens == s.opens && Due(Next(s, step), due))
  {
    match step.event {
      case Ticks(_) => DueTick(s, step.now, clock, due);
      case Rejected(auth) => DueRefused(s, step.now, auth, due);
      case _ =>
    }
  }

  lemma DueTick(s: State, now: Time, clock: Time, due: Time)
    requires Inv(s, clock) && clock <= now && Redialling(s) && Due(s, due)
    ensures TickDown(s, now).opens == s.opens && Due(TickDown(s, now), due)
  {
  }

  lemma DueRefused(s: State, now: Time, auth: bool, due: Time)
    requires Due(s, due)
    ensures OnConnectRefused(s, now, auth).opens == s.opens && Due(OnConnectRefused(s, now, auth), due)
  {
  }

  lemma DueTickReopens(s: State, step: Step, clock: Time, due: Time)
    requires Inv(s, clock) && clock <= step.now && step.event.Ticks? && Redialling(s) && Due(s, due) && due <= step.now
    ensures Next(s, step).resetting.Some? && Next(s, step).opens == s.opens
  {
  }

  lemma OpensGrow(s: State, step: Step)
    requires Enabled(s, step)
    ensures Next(s, step).opens == s.opens + (if step.event.Reopens? then 1 else 0)
    ensures !step.event.Reopens? ==> Next(s, step).openedAt == s.openedAt
  {
    match step.event {
      case Ticks(held) => TickOpensNothing(s, step.now, held);
      case _ =>
    }
  }

  lemma TickOpensNothing(s: State, now: Time, held: bool)
    ensures Tick(s, now, held).opens == s.opens && Tick(s, now, held).openedAt == s.openedAt
  {
  }

  /** Each state of a stretch of a run, from after its first `a` steps to after its first `b`. */
  ghost predicate Throughout(start: Time, steps: seq<Step>, a: nat, b: nat, held: State -> bool) {
    b <= |steps| && forall k: nat :: a <= k <= b ==> Run(start, steps[..k]).Some? && held(Run(start, steps[..k]).value)
  }

  lemma RunStep(start: Time, steps: seq<Step>, k: nat)
    requires k < |steps| && Run(start, steps[..k + 1]).Some?
    ensures Run(start, steps[..k]).Some? && Enabled(Run(start, steps[..k]).value, steps[k])
    ensures Run(start, steps[..k + 1]).value == Next(Run(start, steps[..k]).value, steps[k])
    ensures Clock(start, steps[..k]) <= steps[k].now && Inv(Run(start, steps[..k]).value, Clock(start, steps[..k]))
  {
    assert steps[..k + 1][..k] == steps[..k];
    RunKeepsInv(start, steps[..k]);
  }

  /** The state after `k` steps. */
  function StateAt(start: Time, steps: seq<Step>, k: nat): State
    requires k <= |steps|
  {
    Run(start, steps[..k]).GetOr(Fresh(start))
  }

  /** What holds at first and is kept by each step holds to the end. */
  lemma {:induction false} HoldsAlong(flags: seq<bool>, a: nat, b: nat)
    requires a <= b < |flags| && flags[a] && forall k :: a < k <= b && flags[k - 1] ==> flags[k]
    ensures flags[b]
  {
    if a < b {
      HoldsAlong(flags, a, b - 1);
    }
  }

  /** One step of some run. */
  ghost predicate Moves(s: State, step: Step, t: State) {
    Enabled(s, step) && t == Next(s, step) && exists clock :: Inv(s, clock) && clock <= step.now
  }

  lemma StateMoves(start: Time, steps: seq<Step>, k: nat)
    requires k < |steps| && Run(start, steps[..k + 1]).Some?
    ensures Moves(StateAt(start, steps, k), steps[k], StateAt(start, steps, k + 1))
  {
    RunStep(start, steps, k);
  }

  /** From `s` to `t` a fresh client was opened, or the replacement is due as it was. */
  predicate OpenedOrAwaited(s: State, t: State, due: Time) { t.opens > s.opens || (t.opens == s.opens && Due(t, due)) }

  lemma DueMoves(first: State, s: State, step: Step, t: State, due: Time)
    requires Moves(s, step, t) && Redialling(s) && Redialling(t) && OpenedOrAwaited(first, s, due)
    ensures OpenedOrAwaited(first, t, due)
  {
    var clock :| Inv(s, clock) && clock <= step.now;
    OpensGrow(s, step);
    if Due(s, due) {
      DueStays(s, step, clock, due);
    }
  }

  lemma DueMovesAt(start: Time, steps: seq<Step>, a: nat, b: nat, k: nat, due: Time)
    requires a <= k < b && Throughout(start, steps, a, b, Redialling)
    requires OpenedOrAwaited(StateAt(start, steps, a), StateAt(start, steps, k), due)
    ensures OpenedOrAwaited(StateAt(start, steps, a), StateAt(start, steps, k + 1), due)
  {
    StateMoves(start, steps, k);
    DueMoves(StateAt(start, steps, a), StateAt(start, steps, k), steps[k], StateAt(start, steps, k + 1), due);
  }

  lemma DueThrough(start: Time, steps: seq<Step>, a: nat, b: nat, due: Time)
    requires a <= b && Throughout(start, steps, a, b, Redialling) && Due(StateAt(start, steps, a), due)
    ensures OpenedOrAwaited(StateAt(start, steps, a), StateAt(start, steps, b), due)
  {
    var flags := seq(b + 1, k requires 0 <= k <= b =>
      OpenedOrAwaited(StateAt(start, steps, a), StateAt(start, steps, k), due));
    forall k | a < k <= b && flags[k - 1]
      ensures flags[k]
    {
      DueMovesAt(start, steps, a, b, k - 1, due);
    }
    HoldsAlong(flags, a, b);
  }

  /**
   * While the session stays down, un-stopped and not auth-rejected, one tick twenty seconds in
   * and one thirty seconds later see a fresh client opened, or being opened, since.
   */
  lemma RedialIsBounded(start: Time, steps: seq<Step>, i: nat, j: nat)
    requires i < j < |steps| && Throughout(start, steps, i, j + 1, Redialling)
    requires steps[i].event.Ticks? && steps[j].event.Ticks?
    requires steps[i].now >= Run(start, steps[..i]).value.openedAt + CONNECT_TIMEOUT_SECONDS
    requires steps[j].now >= steps[i].now + REDIAL_MAX_SECONDS
    ensures Run(start, steps[..j + 1]).value.opens > Run(start, steps[..i]).value.opens ||
            Run(start, steps[..j + 1]).value.resetting.Some?
  {
    var due := steps[i].now + REDIAL_MAX_SECONDS;
    RunStep(start, steps, i);
    TickMakesDue(Run(start, steps[..i]).value, steps[i], Clock(start, steps[..i]));
    DueThrough(start, steps, i + 1, j, due);
    RunStep(start, steps, j);
    var before := Run(start, steps[..j]).value;
    OpensGrow(before, steps[j]);
    if Due(before, due) {
      DueTickReopens(before, steps[j], Clock(start, steps[..j]), due);
    }
  }

  // ---------------------------------------------------------------------------
  // While the access code is rejected
  // ---------------------------------------------------------------------------

  predicate AuthHeld(s: State) { !s.stopped && s.error == Some(AuthRejected) }

  predicate AuthDue(s: State, due: Time) { s.resetting.Some? || (s.authRetryAt.Some? && s.authRetryAt.value <= due) }

  /** From `s` to `t` a fresh client was opened, or the same one still waits and the retry is due. */
  predicate OpenedOrDue(s: State, t: State, due: Time) {
    t.opens > s.opens || (t.opens == s.opens && t.openedAt == s.openedAt && AuthDue(t, due))
  }

  lemma AuthDueStays(s: State, step: Step, clock: Time, due: Time)
    requires Inv(s, clock) && Enabled(s, step) && clock <= step.now && AuthHeld(s)
    requires AuthHeld(Next(s, step)) && !step.event.Rejected?
    ensures Next(s, step).opens >= s.opens
    ensures AuthDue(s, due) ==> OpenedOrDue(s, Next(s, step), due)
  {
    OpensGrow(s, step);
    match step.event {
      case Ticks(_) => if AuthDue(s, due) { AuthDueTick(s, step.now, due); }
      case _ =>
    }
  }

  lemma AuthDueTick(s: State, now: Time, due: Time)
    requires AuthHeld(s) && AuthDue(s, due)
    ensures TickAuth(s, now).opens == s.opens && AuthDue(TickAuth(s, now), due)
  {
  }

  lemma AuthDueTickReopens(s: State, step: Step, clock: Time, due: Time)
    requires Inv(s, clock) && clock <= step.now && step.event.Ticks? && AuthHeld(s) && AuthDue(s, due) &&
             due <= step.now
    ensures Next(s, step).resetting.Some? || step.now - s.openedAt < RESET_COOLDOWN_SECONDS
  {
  }

  /** Every refusal in this stretch is of a client opened since step `i`. */
  ghost predicate RefusalsAreFresh(start: Time, steps: seq<Step>, i: nat, j: nat) {
    j <= |steps| && forall k :: i <= k < j && steps[k].event.Rejected? ==>
      StateAt(start, steps, k).opens > StateAt(start, steps, i).opens
  }

  lemma AuthDueStep(s: State, step: Step, clock: Time, due: Time, first: State)
    requires Inv(s, clock) && Enabled(s, step) && clock <= step.now && AuthHeld(s) && AuthHeld(Next(s, step))
    requires OpenedOrDue(first, s, due) && (step.event.Rejected? ==> s.opens > first.opens)
    ensures OpenedOrDue(first, Next(s, step), due)
  {
    OpensGrow(s, step);
    if s.opens == first.opens {
      AuthDueStays(s, step, clock, due);
    }
  }

  lemma AuthDueMoves(first: State, s: State, step: Step, t: State, due: Time)
    requires Moves(s, step, t) && AuthHeld(s) && AuthHeld(t) && OpenedOrDue(first, s, due)
    requires step.event.Rejected? ==> s.opens > first.opens
    ensures OpenedOrDue(first, t, due)
  {
    var clock :| Inv(s, clock) && clock <= step.now;
    AuthDueStep(s, step, clock, due, first);
  }

  lemma AuthDueMovesAt(start: Time, steps: seq<Step>, a: nat, b: nat, k: nat, due: Time)
    requires a <= k < b && Throughout(start, steps, a, b, AuthHeld) && RefusalsAreFresh(start, steps, a, b)
    requires OpenedOrDue(StateAt(start, steps, a), StateAt(start, steps, k), due)
    ensures OpenedOrDue(StateAt(start, steps, a), StateAt(start, steps, k + 1), due)
  {
    StateMoves(start, steps, k);
    AuthDueMoves(StateAt(start, steps, a), StateAt(start, steps, k), steps[k], StateAt(start, steps, k + 1), due);
  }

  lemma AuthDueThrough(start: Time, steps: seq<Step>, a: nat, b: nat, due: Time)
    requires a <= b && Throughout(start, steps, a, b, AuthHeld) && AuthDue(StateAt(start, steps, a), due)
    requires RefusalsAreFresh(start, steps, a, b)
    ensures OpenedOrDue(StateAt(start, steps, a), StateAt(start, steps, b), due)
  {
    var flags := seq(b + 1, k requires 0 <= k <= b =>
      OpenedOrDue(StateAt(start, steps, a), StateAt(start, steps, k), due));
    forall k | a < k <= b && flags[k - 1]
      ensures flags[k]
    {
      AuthDueMovesAt(start, steps, a, b, k - 1, due);
    }
    HoldsAlong(flags, a, b);
  }

  lemma AuthIsDue(start: Time, steps: seq<Step>, i: nat)
    requires i <= |steps| && Run(start, steps[..i]).Some? && AuthHeld(Run(start, steps[..i]).value)
    ensures AuthDue(Run(start, steps[..i]).value, Clock(start, steps[..i]) + AUTH_RETRY_SECONDS)
    ensures Run(start, steps[..i]).value.openedAt <= Clock(start, steps[..i])
  {
    RunKeepsInv(start, steps[..i]);
  }

  /**
   * While the access code stays rejected, a tick three hundred seconds after any moment of it
   * finds a fresh client opened, or being opened, since that moment, as long as the client of
   * that moment is not refused again. Fresh clients may be refused.
   */
  lemma AuthRetryIsBounded(start: Time, steps: seq<Step>, i: nat, j: nat)
    requires i <= j < |steps| && Throughout(start, steps, i, j + 1, AuthHeld) && steps[j].event.Ticks?
    requires RefusalsAreFresh(start, steps, i, j)
    requires steps[j].now >= Clock(start, steps[..i]) + AUTH_RETRY_SECONDS
    ensures Run(start, steps[..j + 1]).value.opens > Run(start, steps[..i]).value.opens ||
            Run(start, steps[..j + 1]).value.resetting.Some?
  {
    var due := Clock(start, steps[..i]) + AUTH_RETRY_SECONDS;
    AuthIsDue(start, steps, i);
    AuthDueThrough(start, steps, i, j, due);
    RunStep(start, steps, j);
    var before := Run(start, steps[..j]).value;
    OpensGrow(before, steps[j]);
    if AuthDue(before, due) {
      AuthDueTickReopens(before, steps[j], Clock(start, steps[..j]), due);
    }
  }
}
