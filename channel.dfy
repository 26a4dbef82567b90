/** The reconnecting channel manager (`WebSocketManager`). The transport
    is an abstract ready state plus the events it delivers; `Date.now()` is
    a `now` parameter; a timer is a scheduled entry with its delay. The
    callbacks the manager calls, and what it asks of the transport, are
    recorded in order in an effect log.

    The behaviour is given twice: as step functions over an immutable
    `Session` (the specification, about which the lemmas speak) and as the
    class `ChannelManager`, whose methods update the fields step by step as
    the source does and are proved to agree with the step functions. */
module Channel {
  import opened Common
  import opened Protocol

  /** `WebSocket.readyState` */
  datatype ReadyState = Connecting | Open | Closing | Closed

  /** What the manager does that is visible outside it, in order. */
  datatype Effect =
    | OpenCallback
    | MessageCallback(message: InboundMessage)
    | CloseCallback(wasClean: bool)
    | ErrorCallback
    | ReconnectCallback(attempt: int)
    | ReconnectFailedCallback
    | Transmitted(sent: OutboundMessage)
    | TransportCloseRequested(code: int, reason: string)

  /** `this.config` (the URL and the admin flag only label log lines). */
  datatype Config = Config(maxReconnectAttempts: int, reconnectDelay: real, pingInterval: int)

  /** The constructor's defaults, and the two factories' configurations. */
  const DefaultConfig := Config(5, 1000.0, 30000)
  const MainConfig := Config(3, 1000.0, 30000)
  const AdminConfig := Config(5, 1000.0, 30000)

  /** `close()` defaults: normal closure, section 7.4.1 of RFC 6455. */
  const NormalClosure := 1000
  const ClientCloseReason := "Client initiated close"

  /** The window in which a failure of the first connection gives up. */
  const InitialFailureWindow := 5000

  /** All fields of a manager. `reconnectTimeout` is the handle the field
      holds (it may name a timer that has already fired);
      `pendingReconnects` maps the handles of the reconnect timers still
      scheduled to their delays; `pingTimer` is the period of the running
      ping interval. After `destroy` the callbacks are gone: a callback
      call then throws, which the effect log shows as no entry. */
  datatype Session = Session(
    socket: Option<ReadyState>,
    reconnectAttempts: int,
    reconnectTimeout: Option<nat>,
    pendingReconnects: map<nat, real>,
    nextTimerId: nat,
    pingTimer: Option<int>,
    isConnecting: bool,
    isDestroyed: bool,
    lastPingTime: int,
    connectionStartTime: int,
    effects: seq<Effect>)

  /** The state after the constructor. */
  function Initial(): Session
  {
    Session(None, 0, None, map[], 0, None, false, false, 0, 0, [])
  }

  /** `1.5 ** k` for `k >= 0` (the attempt counter is never negative, see
      `Inv`, so no negative power is ever taken). */
  function Power15(k: int): (p: real)
    ensures p >= 1.0
    decreases k
  {
    if k <= 0 then 1.0 else 1.5 * Power15(k - 1)
  }

  /** `reconnectDelay * 1.5 ** (n - 1)`: the delay before attempt `n`. */
  function Backoff(cfg: Config, n: int): real
  {
    cfg.reconnectDelay * Power15(n - 1)
  }

  /** Each attempt waits one and a half times as long as the one before. */
  lemma BackoffGrows(cfg: Config, n: int)
    requires n >= 1
    ensures Backoff(cfg, n + 1) == 1.5 * Backoff(cfg, n)
    ensures Backoff(cfg, 1) == cfg.reconnectDelay
  {
  }

  /** Invoke a callback; after `destroy` the call throws instead. */
  function NotifyStep(s: Session, e: Effect): Session
  {
    if s.isDestroyed then s else s.(effects := s.effects + [e])
  }

  /** `isConnected` */
  predicate IsOpen(s: Session)
  {
    s.socket == Some(Open)
  }

  /** `getConnectionState` */
  function ConnectionState(s: Session): (r: string)
    ensures r == "OPEN" <==> IsOpen(s)
    ensures r == "DISCONNECTED" <==> s.socket.None?
  {
    match s.socket
    case None => "DISCONNECTED"
    case Some(Connecting) => "CONNECTING"
    case Some(Open) => "OPEN"
    case Some(Closing) => "CLOSING"
    case Some(Closed) => "CLOSED"
  }

  /** `stopPingInterval` */
  function StopPingStep(s: Session): (r: Session)
    ensures r.pingTimer.None?
    ensures r.(pingTimer := s.pingTimer) == s
  {
    s.(pingTimer := None)
  }

  /** `startPingInterval`: a running interval is replaced; none is started
      for a non-positive period. */
  function StartPingStep(cfg: Config, s: Session): (r: Session)
    ensures r.pingTimer.Some? <==> cfg.pingInterval > 0
    ensures r.pingTimer.Some? ==> r.pingTimer.value == cfg.pingInterval
    ensures r.(pingTimer := s.pingTimer) == s
  {
    StopPingStep(s).(pingTimer := if cfg.pingInterval > 0 then Some(cfg.pingInterval) else None)
  }

  /** `clearReconnectTimeout`: cancel the timer the field names, if any. */
  function ClearReconnectStep(s: Session): (r: Session)
    ensures r.reconnectTimeout.None?
    ensures s.reconnectTimeout.Some? ==> r.pendingReconnects == s.pendingReconnects - {s.reconnectTimeout.value}
    ensures s.reconnectTimeout.None? ==> r == s
    ensures r.(reconnectTimeout := s.reconnectTimeout, pendingReconnects := s.pendingReconnects) == s
  {
    if s.reconnectTimeout.Some? then
      s.(pendingReconnects := s.pendingReconnects - {s.reconnectTimeout.value}, reconnectTimeout := None)
    else s
  }

  /** The outcome of `sendMessage`: the new state and the returned flag. */
  datatype SendOutcome = SendOutcome(session: Session, sent: bool)

  /** `sendMessage`; `transmitOk` says whether `socket.send` returns
      normally. */
  function SendStep(s: Session, message: OutboundMessage, transmitOk: bool): (o: SendOutcome)
    ensures o.sent <==> IsOpen(s) && transmitOk
    ensures o.sent ==> o.session == s.(effects := s.effects + [Transmitted(message)])
    ensures !IsOpen(s) ==> o.session == s
    ensures IsOpen(s) && !transmitOk ==> o.session == NotifyStep(s, ErrorCallback)
  {
    if !IsOpen(s) then SendOutcome(s, false)
    else if transmitOk then SendOutcome(s.(effects := s.effects + [Transmitted(message)]), true)
    else SendOutcome(NotifyStep(s, ErrorCallback), false)
  }

  /** `handleReconnection`: give up at the maximum, otherwise count the
      attempt, report it, and schedule `connect` after the backoff delay. */
  function ReconnectionStep(cfg: Config, s: Session): (r: Session)
    ensures s.reconnectAttempts >= cfg.maxReconnectAttempts ==> r == NotifyStep(s, ReconnectFailedCallback)
    ensures s.isDestroyed && s.reconnectAttempts < cfg.maxReconnectAttempts ==> r == s
    ensures !s.isDestroyed && s.reconnectAttempts < cfg.maxReconnectAttempts ==>
      r.reconnectAttempts == s.reconnectAttempts + 1 &&
      r.effects == s.effects + [ReconnectCallback(s.reconnectAttempts + 1)] &&
      r.reconnectTimeout == Some(s.nextTimerId) &&
      r.pendingReconnects == s.pendingReconnects[s.nextTimerId := Backoff(cfg, s.reconnectAttempts + 1)] &&
      r.nextTimerId == s.nextTimerId + 1
    ensures r.socket == s.socket && r.pingTimer == s.pingTimer && r.isDestroyed == s.isDestroyed
    ensures s.reconnectAttempts <= r.reconnectAttempts
    ensures 0 <= s.reconnectAttempts <= cfg.maxReconnectAttempts ==> r.reconnectAttempts <= cfg.maxReconnectAttempts
  {
    if s.isDestroyed || s.reconnectAttempts >= cfg.maxReconnectAttempts then
      if s.reconnectAttempts >= cfg.maxReconnectAttempts then NotifyStep(s, ReconnectFailedCallback) else s
    else
      var n := s.reconnectAttempts + 1;
      var t := NotifyStep(s.(reconnectAttempts := n), ReconnectCallback(n));
      t.(reconnectTimeout := Some(t.nextTimerId),
         pendingReconnects := t.pendingReconnects[t.nextTimerId := Backoff(cfg, n)],
         nextTimerId := t.nextTimerId + 1)
  }

  /** `handleConnectionError`: a failure of the very first connection
      within five seconds of starting it gives up at once; any other
      failure goes on to `handleReconnection`. */
  function ConnectionErrorStep(cfg: Config, s: Session, now: int): (r: Session)
    ensures s.isDestroyed ==> r == s
    ensures !s.isDestroyed && s.reconnectAttempts == 0 && now - s.connectionStartTime < InitialFailureWindow ==>
      r == StopPingStep(s).(effects := s.effects + [ReconnectFailedCallback])
    ensures !s.isDestroyed && !(s.reconnectAttempts == 0 && now - s.connectionStartTime < InitialFailureWindow) ==>
      r == ReconnectionStep(cfg, StopPingStep(s))
  {
    if s.isDestroyed then s
    else
      var t := StopPingStep(s);
      if t.reconnectAttempts == 0 && now - t.connectionStartTime < InitialFailureWindow then
        NotifyStep(t, ReconnectFailedCallback)
      else ReconnectionStep(cfg, t)
  }

  /** `connect`; `created` says whether `new WebSocket(url)` returns
      normally. Nothing happens after `destroy` or while a connection is in
      progress; otherwise the attempt is marked and timed. */
  function ConnectStep(cfg: Config, s: Session, now: int, created: bool): (r: Session)
    ensures s.isDestroyed || s.isConnecting || s.socket == Some(Connecting) ==> r == s
    ensures !(s.isDestroyed || s.isConnecting || s.socket == Some(Connecting)) && created ==>
      r == s.(isConnecting := true, connectionStartTime := now, socket := Some(Connecting))
    ensures !(s.isDestroyed || s.isConnecting || s.socket == Some(Connecting)) && !created ==>
      r == ConnectionErrorStep(cfg, s.(connectionStartTime := now), now)
  {
    if s.isDestroyed then s
    else if s.isConnecting || s.socket == Some(Connecting) then s
    else
      var t := s.(isConnecting := true, connectionStartTime := now);
      if created then t.(socket := Some(Connecting))
      else ConnectionErrorStep(cfg, t.(isConnecting := false), now)
  }

  /** The transport's ready state moves on; a detached manager has none. */
  function WithReadyState(s: Session, state: ReadyState): Session
  {
    if s.socket.Some? then s.(socket := Some(state)) else s
  }

  /** `onopen`: the attempt counter is reset, a pending reconnect is
      cancelled, the ping interval is (re)started and `onOpen` is called. */
  function OpenStep(cfg: Config, s: Session): (r: Session)
    ensures r.reconnectAttempts == 0 && !r.isConnecting && r.reconnectTimeout.None?
    ensures r.pingTimer == if cfg.pingInterval > 0 then Some(cfg.pingInterval) else None
    ensures r.pendingReconnects == ClearReconnectStep(s).pendingReconnects
    ensures r.effects == if s.isDestroyed then s.effects else s.effects + [OpenCallback]
    ensures s.socket.Some? ==> r.socket == Some(Open)
  {
    var t := WithReadyState(s, Open).(isConnecting := false, reconnectAttempts := 0);
    NotifyStep(StartPingStep(cfg, ClearReconnectStep(t)), OpenCallback)
  }

  /** `onmessage`: a ping is answered with one pong and a pong refreshes
      `lastPingTime`, neither forwarded; every other message goes to
      `onMessage`; an undecodable frame only reaches `onError`. */
  function MessageStep(s: Session, frame: Frame, now: int, transmitOk: bool): (r: Session)
    ensures frame.Malformed? ==> r == NotifyStep(s, ErrorCallback)
    ensures frame == Decoded(Ping) ==> r == SendStep(s, PongReply, transmitOk).session
    ensures frame == Decoded(Pong) ==> r == s.(lastPingTime := now)
    ensures frame.Decoded? && !frame.message.Ping? && !frame.message.Pong? ==>
      r == NotifyStep(s, MessageCallback(frame.message))
  {
    match frame
    case Malformed => NotifyStep(s, ErrorCallback)
    case Decoded(m) =>
      if m.Ping? then SendStep(s, PongReply, transmitOk).session
      else if m.Pong? then s.(lastPingTime := now)
      else NotifyStep(s, MessageCallback(m))
  }

  /** `onclose`: the ping interval always stops and `onClose` is called;
      reconnection follows only an unclean close of a live manager. */
  function CloseStep(cfg: Config, s: Session, wasClean: bool): (r: Session)
    ensures r.pingTimer.None? && !r.isConnecting && r.isDestroyed == s.isDestroyed
    ensures s.socket.Some? ==> r.socket == Some(Closed)
    ensures s.isDestroyed ==> r == s.(socket := r.socket, pingTimer := None, isConnecting := false)
    ensures !s.isDestroyed && wasClean ==>
      r.effects == s.effects + [CloseCallback(true)] &&
      r.reconnectAttempts == s.reconnectAttempts && r.reconnectTimeout == s.reconnectTimeout &&
      r.pendingReconnects == s.pendingReconnects
    ensures !s.isDestroyed && !wasClean && s.reconnectAttempts < cfg.maxReconnectAttempts ==>
      r.effects == s.effects + [CloseCallback(false), ReconnectCallback(s.reconnectAttempts + 1)] &&
      r.reconnectAttempts == s.reconnectAttempts + 1 && r.reconnectTimeout == Some(s.nextTimerId) &&
      r.pendingReconnects == s.pendingReconnects[s.nextTimerId := Backoff(cfg, s.reconnectAttempts + 1)]
    ensures !s.isDestroyed && !wasClean && s.reconnectAttempts >= cfg.maxReconnectAttempts ==>
      r.effects == s.effects + [CloseCallback(false), ReconnectFailedCallback] &&
      r.reconnectAttempts == s.reconnectAttempts && r.pendingReconnects == s.pendingReconnects
  {
    var t := NotifyStep(StopPingStep(WithReadyState(s, Closed).(isConnecting := false)), CloseCallback(wasClean));
    if !t.isDestroyed && !wasClean then ReconnectionStep(cfg, t) else t
  }

  /** `onerror`: `onError` is called, then `handleConnectionError`. */
  function ErrorStep(cfg: Config, s: Session, now: int): (r: Session)
    ensures s.isDestroyed ==> r == s.(isConnecting := false)
    ensures !s.isDestroyed ==> r.pingTimer.None? && !r.isConnecting && r.socket == s.socket
    ensures !s.isDestroyed && s.reconnectAttempts == 0 && now - s.connectionStartTime < InitialFailureWindow ==>
      r.effects == s.effects + [ErrorCallback, ReconnectFailedCallback] &&
      r.reconnectAttempts == 0 && r.pendingReconnects == s.pendingReconnects &&
      r.reconnectTimeout == s.reconnectTimeout
    ensures (!s.isDestroyed && !(s.reconnectAttempts == 0 && now - s.connectionStartTime < InitialFailureWindow) &&
             s.reconnectAttempts < cfg.maxReconnectAttempts) ==>
      r.effects == s.effects + [ErrorCallback, ReconnectCallback(s.reconnectAttempts + 1)] &&
      r.reconnectAttempts == s.reconnectAttempts + 1 && r.reconnectTimeout == Some(s.nextTimerId) &&
      r.pendingReconnects == s.pendingReconnects[s.nextTimerId := Backoff(cfg, s.reconnectAttempts + 1)]
    ensures (!s.isDestroyed && !(s.reconnectAttempts == 0 && now - s.connectionStartTime < InitialFailureWindow) &&
             s.reconnectAttempts >= cfg.maxReconnectAttempts) ==>
      r.effects == s.effects + [ErrorCallback, ReconnectFailedCallback] &&
      r.reconnectAttempts == s.reconnectAttempts && r.pendingReconnects == s.pendingReconnects
  {
    ConnectionErrorStep(cfg, NotifyStep(s.(isConnecting := false), ErrorCallback), now)
  }

  /** `close(code, reason)`: both timers are cleared; the transport is
      asked to close only while it is open or connecting. */
  function CloseRequestStep(s: Session, code: int, reason: string): (r: Session)
    ensures r.reconnectTimeout.None? && r.pingTimer.None?
    ensures r.pendingReconnects == ClearReconnectStep(s).pendingReconnects
    ensures s.socket == Some(Open) || s.socket == Some(Connecting) ==>
      r.socket == Some(Closing) && r.effects == s.effects + [TransportCloseRequested(code, reason)]
    ensures !(s.socket == Some(Open) || s.socket == Some(Connecting)) ==>
      r.socket == s.socket && r.effects == s.effects
    ensures r.reconnectAttempts == s.reconnectAttempts && r.isDestroyed == s.isDestroyed
  {
    var t := StopPingStep(ClearReconnectStep(s));
    if t.socket == Some(Open) || t.socket == Some(Connecting) then
      t.(socket := Some(Closing), effects := t.effects + [TransportCloseRequested(code, reason)])
    else t
  }

  /** `destroy`: mark destroyed, close with the defaults, drop the socket. */
  function DestroyStep(s: Session): (r: Session)
    ensures r.isDestroyed && r.socket.None?
    ensures r.reconnectTimeout.None? && r.pingTimer.None?
    ensures r.pendingReconnects == ClearReconnectStep(s).pendingReconnects
    ensures r.effects == if s.socket == Some(Open) || s.socket == Some(Connecting)
      then s.effects + [TransportCloseRequested(NormalClosure, ClientCloseReason)] else s.effects
    ensures r.reconnectAttempts == s.reconnectAttempts && r.nextTimerId == s.nextTimerId
  {
    CloseRequestStep(s.(isDestroyed := true), NormalClosure, ClientCloseReason).(socket := None)
  }

  /** A reconnect timer fires: it is no longer pending, and `connect` runs. */
  function ReconnectFiresStep(cfg: Config, s: Session, id: nat, now: int, created: bool): (r: Session)
    ensures id !in s.pendingReconnects ==> r == s
    ensures (id in s.pendingReconnects && !s.isDestroyed && !s.isConnecting &&
             s.socket != Some(Connecting) && created) ==>
      r.socket == Some(Connecting) && r.isConnecting && r.connectionStartTime == now &&
      r.pendingReconnects == s.pendingReconnects - {id}
  {
    if id in s.pendingReconnects then
      ConnectStep(cfg, s.(pendingReconnects := s.pendingReconnects - {id}), now, created)
    else s
  }

  /** The ping interval fires: a ping is sent while connected. */
  function PingFiresStep(s: Session, transmitOk: bool): (r: Session)
    ensures r.(effects := s.effects) == s
    ensures s.pingTimer.Some? && IsOpen(s) && transmitOk ==> r.effects == s.effects + [Transmitted(PingRequest)]
    ensures s.pingTimer.Some? && IsOpen(s) && !transmitOk ==> r == NotifyStep(s, ErrorCallback)
    ensures !(s.pingTimer.Some? && IsOpen(s)) ==> r == s
  {
    if s.pingTimer.Some? && IsOpen(s) then SendStep(s, PingRequest, transmitOk).session else s
  }

  /** Everything that can happen to a manager. */
  datatype Event =
    | ConnectCall(now: int, created: bool)
    | TransportOpen
    | TransportMessage(frame: Frame, now: int, transmitOk: bool)
    | TransportClose(wasClean: bool)
    | TransportError(now: int)
    | ReconnectTimerFires(id: nat, now: int, created: bool)
    | PingTimerFires(transmitOk: bool)
    | SendCall(message: OutboundMessage, transmitOk: bool)
    | CloseCall(code: int, reason: string)
    | DestroyCall

  function Step(cfg: Config, s: Session, e: Event): Session
  {
    match e
    case ConnectCall(now, created) => ConnectStep(cfg, s, now, created)
    case TransportOpen => OpenStep(cfg, s)
    case TransportMessage(frame, now, ok) => MessageStep(s, frame, now, ok)
    case TransportClose(clean) => CloseStep(cfg, s, clean)
    case TransportError(now) => ErrorStep(cfg, s, now)
    case ReconnectTimerFires(id, now, created) => ReconnectFiresStep(cfg, s, id, now, created)
    case PingTimerFires(ok) => PingFiresStep(s, ok)
    case SendCall(m, ok) => SendStep(s, m, ok).session
    case CloseCall(code, reason) => CloseRequestStep(s, code, reason)
    case DestroyCall => DestroyStep(s)
  }

  function Run(cfg: Config, s: Session, events: seq<Event>): Session
    decreases |events|
  {
    if events == [] then s else Run(cfg, Step(cfg, s, events[0]), events[1..])
  }

  /** What holds of every reachable state: the attempt counter stays within
      the configured maximum, a running ping interval has the configured
      positive period, timer handles are ones already issued, and a
      destroyed manager holds no socket. */
  predicate Inv(cfg: Config, s: Session)
  {
    0 <= s.reconnectAttempts &&
    (s.reconnectAttempts == 0 || s.reconnectAttempts <= cfg.maxReconnectAttempts) &&
    (s.pingTimer.Some? ==> cfg.pingInterval > 0 && s.pingTimer.value == cfg.pingInterval) &&
    (forall id | id in s.pendingReconnects :: id < s.nextTimerId) &&
    (s.reconnectTimeout.Some? ==> s.reconnectTimeout.value < s.nextTimerId) &&
    (s.isDestroyed ==> s.socket.None?)
  }

  lemma InitialInv(cfg: Config)
    ensures Inv(cfg, Initial())
  {
  }

  lemma ReconnectionInv(cfg: Config, s: Session)
    requires Inv(cfg, s)
    ensures Inv(cfg, ReconnectionStep(cfg, s))
  {
  }

  lemma ConnectionErrorInv(cfg: Config, s: Session, now: int)
    requires Inv(cfg, s)
    ensures Inv(cfg, ConnectionErrorStep(cfg, s, now))
  {
    if !s.isDestroyed {
      ReconnectionInv(cfg, StopPingStep(s));
    }
  }

  lemma ConnectInv(cfg: Config, s: Session, now: int, created: bool)
    requires Inv(cfg, s)
    ensures Inv(cfg, ConnectStep(cfg, s, now, created))
  {
    ConnectionErrorInv(cfg, s.(connectionStartTime := now), now);
  }

  lemma OpenInv(cfg: Config, s: Session)
    requires Inv(cfg, s)
    ensures Inv(cfg, OpenStep(cfg, s))
  {
  }

  lemma MessageInv(cfg: Config, s: Session, frame: Frame, now: int, ok: bool)
    requires Inv(cfg, s)
    ensures Inv(cfg, MessageStep(s, frame, now, ok))
  {
  }

  lemma CloseInv(cfg: Config, s: Session, clean: bool)
    requires Inv(cfg, s)
    ensures Inv(cfg, CloseStep(cfg, s, clean))
  {
    ReconnectionInv(cfg, NotifyStep(StopPingStep(WithReadyState(s, Closed).(isConnecting := false)), CloseCallback(clean)));
  }

  lemma ErrorInv(cfg: Config, s: Session, now: int)
    requires Inv(cfg, s)
    ensures Inv(cfg, ErrorStep(cfg, s, now))
  {
    ConnectionErrorInv(cfg, NotifyStep(s.(isConnecting := false), ErrorCallback), now);
  }

  lemma ReconnectFiresInv(cfg: Config, s: Session, id: nat, now: int, created: bool)
    requires Inv(cfg, s)
    ensures Inv(cfg, ReconnectFiresStep(cfg, s, id, now, created))
  {
    ConnectInv(cfg, s.(pendingReconnects := s.pendingReconnects - {id}), now, created);
  }

  lemma CloseRequestInv(cfg: Config, s: Session, code: int, reason: string)
    requires Inv(cfg, s)
    ensures Inv(cfg, CloseRequestStep(s, code, reason))
  {
  }

  lemma StepInv(cfg: Config, s: Session, e: Event)
    requires Inv(cfg, s)
    ensures Inv(cfg, Step(cfg, s, e))
  {
    match e
    case ConnectCall(now, created) => ConnectInv(cfg, s, now, created);
    case TransportOpen => OpenInv(cfg, s);
    case TransportMessage(frame, now, ok) => MessageInv(cfg, s, frame, now, ok);
    case TransportClose(clean) => CloseInv(cfg, s, clean);
    case TransportError(now) => ErrorInv(cfg, s, now);
    case ReconnectTimerFires(id, now, created) => ReconnectFiresInv(cfg, s, id, now, created);
    case PingTimerFires(ok) =>
    case SendCall(m, ok) =>
    case CloseCall(code, reason) => CloseRequestInv(cfg, s, code, reason);
    case DestroyCall =>
  }

  /** Every state reached from a valid one is valid; in particular no
      sequence of events drives the attempt counter past the maximum. */
  lemma {:induction false} RunInv(cfg: Config, s: Session, events: seq<Event>)
    requires Inv(cfg, s)
    ensures Inv(cfg, Run(cfg, s, events))
    decreases |events|
  {
    if events != [] {
      StepInv(cfg, s, events[0]);
      RunInv(cfg, Step(cfg, s, events[0]), events[1..]);
    }
  }

  /** After `destroy` nothing is visible any more: no callback, no
      transmission, no close request; and the manager stays destroyed. */
  lemma DestroyedStepSilent(cfg: Config, s: Session, e: Event)
    requires Inv(cfg, s) && s.isDestroyed
    ensures Step(cfg, s, e).isDestroyed && Step(cfg, s, e).effects == s.effects
  {
  }

  lemma {:induction false} DestroyedRunSilent(cfg: Config, s: Session, events: seq<Event>)
    requires Inv(cfg, s) && s.isDestroyed
    ensures Run(cfg, s, events).isDestroyed && Run(cfg, s, events).effects == s.effects
    decreases |events|
  {
    if events != [] {
      DestroyedStepSilent(cfg, s, events[0]);
      StepInv(cfg, s, events[0]);
      DestroyedRunSilent(cfg, Step(cfg, s, events[0]), events[1..]);
    }
  }

  /** Running two event sequences one after the other is running their
      concatenation. */
  lemma {:induction false} RunAppend(cfg: Config, s: Session, first: seq<Event>, second: seq<Event>)
    ensures Run(cfg, s, first + second) == Run(cfg, Run(cfg, s, first), second)
    decreases |first|
  {
    if first == [] {
      assert first + second == second;
    } else {
      assert (first + second)[1..] == first[1..] + second;
      RunAppend(cfg, Step(cfg, s, first[0]), first[1..], second);
    }
  }

  /** Whatever happened before, once `destroy` is called the events after
      it add no effect. */
  lemma {:induction false} SilentAfterDestroy(cfg: Config, s: Session, before: seq<Event>, after: seq<Event>)
    requires Inv(cfg, s)
    ensures Run(cfg, s, before + [DestroyCall] + after).effects == Run(cfg, s, before + [DestroyCall]).effects
  {
    RunAppend(cfg, s, before + [DestroyCall], after);
    RunAppend(cfg, s, before, [DestroyCall]);
    var d := Run(cfg, s, before + [DestroyCall]);
    assert d == Step(cfg, Run(cfg, s, before), DestroyCall);
    RunInv(cfg, s, before);
    StepInv(cfg, Run(cfg, s, before), DestroyCall);
    DestroyedRunSilent(cfg, d, after);
  }

  /** A connection that drops after being established is reported twice,
      by `onerror` and by the unclean `onclose`; each reaches
      `handleReconnection`, so the pair uses two attempts and schedules two
      timers, the first of which the field no longer names. */
  lemma ErrorThenUncleanClose(cfg: Config, s: Session, now: int)
    requires Inv(cfg, s) && !s.isDestroyed
    requires now - s.connectionStartTime >= InitialFailureWindow
    requires s.reconnectAttempts + 2 <= cfg.maxReconnectAttempts
    ensures CloseStep(cfg, ErrorStep(cfg, s, now), false).reconnectAttempts == s.reconnectAttempts + 2
    ensures CloseStep(cfg, ErrorStep(cfg, s, now), false).pendingReconnects ==
      s.pendingReconnects[s.nextTimerId := Backoff(cfg, s.reconnectAttempts + 1)]
                         [s.nextTimerId + 1 := Backoff(cfg, s.reconnectAttempts + 2)]
    ensures CloseStep(cfg, ErrorStep(cfg, s, now), false).reconnectTimeout == Some(s.nextTimerId + 1)
  {
  }

  /** When the very first connection fails within five seconds the error
      handler gives up at once, yet the unclean close that follows it still
      enters `handleReconnection` and schedules a retry: the page is told
      that reconnection failed and then that it is reconnecting. */
  lemma FirstFailureStillReconnects(cfg: Config, s: Session, now: int)
    requires Inv(cfg, s) && !s.isDestroyed
    requires s.reconnectAttempts == 0 && now - s.connectionStartTime < InitialFailureWindow
    requires cfg.maxReconnectAttempts >= 1
    ensures CloseStep(cfg, ErrorStep(cfg, s, now), false).effects ==
      s.effects + [ErrorCallback, ReconnectFailedCallback, CloseCallback(false), ReconnectCallback(1)]
    ensures CloseStep(cfg, ErrorStep(cfg, s, now), false).reconnectAttempts == 1
    ensures CloseStep(cfg, ErrorStep(cfg, s, now), false).pendingReconnects ==
      s.pendingReconnects[s.nextTimerId := cfg.reconnectDelay]
  {
  }

  /** The manager object. Its fields are those of the source; `effects`
      records the callback calls and transport requests made so far. */
  class ChannelManager {
    const config: Config
    var socket: Option<ReadyState>
    var reconnectAttempts: int
    var reconnectTimeout: Option<nat>
    var pendingReconnects: map<nat, real>
    var nextTimerId: nat
    var pingInterval: Option<int>
    var isConnecting: bool
    var isDestroyed: bool
    var lastPingTime: int
    var connectionStartTime: int
    var effects: seq<Effect>

    function Snapshot(): Session
      reads this
    {
      Session(socket, reconnectAttempts, reconnectTimeout, pendingReconnects, nextTimerId,
              pingInterval, isConnecting, isDestroyed, lastPingTime, connectionStartTime, effects)
    }

    ghost predicate Valid()
      reads this
    {
      Inv(config, Snapshot())
    }

    constructor (cfg: Config)
      ensures Valid() && config == cfg && Snapshot() == Initial()
    {
      config := cfg;
      socket := None;
      reconnectAttempts := 0;
      reconnectTimeout := None;
      pendingReconnects := map[];
      nextTimerId := 0;
      pingInterval := None;
      isConnecting := false;
      isDestroyed := false;
      lastPingTime := 0;
      connectionStartTime := 0;
      effects := [];
    }

    /** `createMainWebSocket` */
    static method CreateMain() returns (m: ChannelManager)
      ensures fresh(m) && m.Valid() && m.config == MainConfig && m.Snapshot() == Initial()
    {
      m := new ChannelManager(MainConfig);
    }

    /** `createAdminWebSocket` */
    static method CreateAdmin() returns (m: ChannelManager)
      ensures fresh(m) && m.Valid() && m.config == AdminConfig && m.Snapshot() == Initial()
    {
      m := new ChannelManager(AdminConfig);
    }

    method Notify(e: Effect)
      modifies this
      ensures Snapshot() == NotifyStep(old(Snapshot()), e)
    {
      if !isDestroyed {
        effects := effects + [e];
      }
    }

    function IsConnected(): (b: bool)
      reads this
      ensures b == IsOpen(Snapshot())
    {
      socket == Some(Open)
    }

    method GetConnectionState() returns (state: string)
      ensures state == ConnectionState(Snapshot())
    {
      if socket.None? {
        return "DISCONNECTED";
      }
      match socket.value
      case Connecting => state := "CONNECTING";
      case Open => state := "OPEN";
      case Closing => state := "CLOSING";
      case Closed => state := "CLOSED";
    }

    method StopPingInterval()
      modifies this
      ensures Snapshot() == StopPingStep(old(Snapshot()))
    {
      if pingInterval.Some? {
        pingInterval := None;
      }
    }

    method StartPingInterval()
      modifies this
      ensures Snapshot() == StartPingStep(config, old(Snapshot()))
    {
      StopPingInterval();
      if config.pingInterval > 0 {
        pingInterval := Some(config.pingInterval);
      }
    }

    method ClearReconnectTimeout()
      modifies this
      ensures Snapshot() == ClearReconnectStep(old(Snapshot()))
    {
      if reconnectTimeout.Some? {
        pendingReconnects := pendingReconnects - {reconnectTimeout.value};
        reconnectTimeout := None;
      }
    }

    method SendMessage(message: OutboundMessage, transmitOk: bool) returns (sent: bool)
      modifies this
      ensures Snapshot() == SendStep(old(Snapshot()), message, transmitOk).session
      ensures sent == SendStep(old(Snapshot()), message, transmitOk).sent
    {
      if !IsConnected() {
        return false;
      }
      if transmitOk {
        effects := effects + [Transmitted(message)];
        return true;
      }
      Notify(ErrorCallback);
      return false;
    }

    method HandleReconnection()
      modifies this
      ensures Snapshot() == ReconnectionStep(config, old(Snapshot()))
    {
      if isDestroyed || reconnectAttempts >= config.maxReconnectAttempts {
        if reconnectAttempts >= config.maxReconnectAttempts {
          Notify(ReconnectFailedCallback);
        }
        return;
      }
      reconnectAttempts := reconnectAttempts + 1;
      var delay := Backoff(config, reconnectAttempts);
      Notify(ReconnectCallback(reconnectAttempts));
      reconnectTimeout := Some(nextTimerId);
      pendingReconnects := pendingReconnects[nextTimerId := delay];
      nextTimerId := nextTimerId + 1;
    }

    method HandleConnectionError(now: int)
      modifies this
      ensures Snapshot() == ConnectionErrorStep(config, old(Snapshot()), now)
    {
      if isDestroyed {
        return;
      }
      StopPingInterval();
      if reconnectAttempts == 0 && now - connectionStartTime < InitialFailureWindow {
        Notify(ReconnectFailedCallback);
        return;
      }
      HandleReconnection();
    }

    method Connect(now: int, created: bool)
      requires Valid()
      modifies this
      ensures Valid() && Snapshot() == ConnectStep(config, old(Snapshot()), now, created)
    {
      ghost var s0 := Snapshot();
      if isDestroyed {
        return;
      }
      if isConnecting || socket == Some(Connecting) {
        return;
      }
      isConnecting := true;
      connectionStartTime := now;
      if created {
        socket := Some(Connecting);
      } else {
        isConnecting := false;
        HandleConnectionError(now);
      }
      StepInv(config, s0, ConnectCall(now, created));
    }

    /** `socket.onopen` */
    method OnOpen()
      requires Valid()
      modifies this
      ensures Valid() && Snapshot() == OpenStep(config, old(Snapshot()))
    {
      ghost var s0 := Snapshot();
      if socket.Some? {
        socket := Some(Open);
      }
      isConnecting := false;
      reconnectAttempts := 0;
      ClearReconnectTimeout();
      StartPingInterval();
      Notify(OpenCallback);
      StepInv(config, s0, TransportOpen);
    }

    /** `socket.onmessage` */
    method OnMessage(frame: Frame, now: int, transmitOk: bool)
      requires Valid()
      modifies this
      ensures Valid() && Snapshot() == MessageStep(old(Snapshot()), frame, now, transmitOk)
    {
      ghost var s0 := Snapshot();
      if frame.Malformed? {
        Notify(ErrorCallback);
      } else if frame.message.Ping? {
        var _ := SendMessage(PongReply, transmitOk);
      } else if frame.message.Pong? {
        lastPingTime := now;
      } else {
        Notify(MessageCallback(frame.message));
      }
      StepInv(config, s0, TransportMessage(frame, now, transmitOk));
    }

    /** `socket.onclose` */
    method OnClose(wasClean: bool)
      requires Valid()
      modifies this
      ensures Valid() && Snapshot() == CloseStep(config, old(Snapshot()), wasClean)
    {
      ghost var s0 := Snapshot();
      if socket.Some? {
        socket := Some(Closed);
      }
      isConnecting := false;
      StopPingInterval();
      Notify(CloseCallback(wasClean));
      assert Snapshot() == NotifyStep(StopPingStep(WithReadyState(s0, Closed).(isConnecting := false)), CloseCallback(wasClean));
      if !isDestroyed && !wasClean {
        HandleReconnection();
      }
      StepInv(config, s0, TransportClose(wasClean));
    }

    /** `socket.onerror` */
    method OnError(now: int)
      requires Valid()
      modifies this
      ensures Valid() && Snapshot() == ErrorStep(config, old(Snapshot()), now)
    {
      ghost var s0 := Snapshot();
      isConnecting := false;
      Notify(ErrorCallback);
      assert Snapshot() == NotifyStep(s0.(isConnecting := false), ErrorCallback);
      HandleConnectionError(now);
      StepInv(config, s0, TransportError(now));
    }

    /** The timer `handleReconnection` scheduled fires. */
    method OnReconnectTimer(id: nat, now: int, created: bool)
      requires Valid()
      modifies this
      ensures Valid() && Snapshot() == ReconnectFiresStep(config, old(Snapshot()), id, now, created)
    {
      ghost var s0 := Snapshot();
      if id in pendingReconnects {
        pendingReconnects := pendingReconnects - {id};
        StepInv(config, s0, ReconnectTimerFires(id, now, created));
        Connect(now, created);
      }
    }

    /** The ping interval fires. */
    method OnPingTimer(transmitOk: bool)
      requires Valid()
      modifies this
      ensures Valid() && Snapshot() == PingFiresStep(old(Snapshot()), transmitOk)
    {
      if pingInterval.Some? && IsConnected() {
        var _ := SendMessage(PingRequest, transmitOk);
      }
    }

    method Close(code: int, reason: string)
      requires Valid()
      modifies this
      ensures Valid() && Snapshot() == CloseRequestStep(old(Snapshot()), code, reason)
    {
      ClearReconnectTimeout();
      StopPingInterval();
      if socket.Some? {
        if socket.value == Open || socket.value == Connecting {
          socket := Some(Closing);
          effects := effects + [TransportCloseRequested(code, reason)];
        }
      }
    }

    method Destroy()
      requires Valid()
      modifies this
      ensures Valid() && Snapshot() == DestroyStep(old(Snapshot()))
    {
      isDestroyed := true;
      ClearReconnectTimeout();
      StopPingInterval();
      if socket.Some? {
        if socket.value == Open || socket.value == Connecting {
          socket := Some(Closing);
          effects := effects + [TransportCloseRequested(NormalClosure, ClientCloseReason)];
        }
      }
      socket := None;
    }
  }
}
