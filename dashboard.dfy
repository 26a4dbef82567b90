/** The admin dashboard script (`dash.js`): the bounded, newest-first pixel
    log, uptime formatting, the connection status label, the guard on admin
    commands, and the periodic sanity check. Whether the admin channel is
    connected is a parameter; what the dashboard asks of the channel
    manager and the notice component is recorded in an action log. */
module Dashboard {
  import opened Common
  import opened Protocol
  import opened Arith

  const MaxPixelLogEntries := 50
  const SanityCheckInterval := 5 * 60 * 1000
  const NotConnectedText := "Not connected to server"
  const AdminLostText := "Admin connection lost. Please refresh the page."
  const AnnouncementTimeout := 10000

  /** One line of the pixel log. */
  datatype LogEntry = LogEntry(x: int, y: int, color: string, username: string,
                               userId: Option<string>, timestamp: int)

  /** `{ ..., username: username || "Anonymous", timestamp: timestamp || Date.now() }` */
  function MakeEntry(x: int, y: int, color: string, username: Option<string>,
                     userId: Option<string>, timestamp: Option<int>, now: int): (e: LogEntry)
    ensures e.username == OrDefault(username, "Anonymous")
    ensures username.None? ==> e.username == "Anonymous"
    ensures timestamp.None? ==> e.timestamp == now
    ensures timestamp.Some? && timestamp.value != 0 ==> e.timestamp == timestamp.value
    ensures e.x == x && e.y == y && e.color == color && e.userId == userId
  {
    LogEntry(x, y, color, OrDefault(username, "Anonymous"), userId,
             if timestamp.Some? && timestamp.value != 0 then timestamp.value else now)
  }

  function Min(a: int, b: int): int
  {
    if a < b then a else b
  }

  /** The first `n` entries (all of them when there are fewer). */
  function Take<T>(s: seq<T>, n: nat): (r: seq<T>)
    ensures |r| == Min(|s|, n)
    ensures r == s[..|r|]
  {
    if |s| <= n then s else s[..n]
  }

  /** `unshift` the entry, then keep the first fifty: the new entry comes
      first, the others keep their order, and the log never holds more than
      fifty entries. */
  function Prepended(log: seq<LogEntry>, e: LogEntry): (r: seq<LogEntry>)
    ensures |r| == Min(|log| + 1, MaxPixelLogEntries)
    ensures 1 <= |r| <= MaxPixelLogEntries
    ensures r[0] == e
    ensures r[1..] == log[..|r| - 1]
  {
    Take([e] + log, MaxPixelLogEntries)
  }

  /** The log after a series of updates, oldest update first. */
  function AfterUpdates(log: seq<LogEntry>, updates: seq<LogEntry>): seq<LogEntry>
    decreases |updates|
  {
    if updates == [] then log else AfterUpdates(Prepended(log, updates[0]), updates[1..])
  }

  function Reversed<T>(s: seq<T>): (r: seq<T>)
    ensures |r| == |s|
    ensures forall i | 0 <= i < |s| :: r[i] == s[|s| - 1 - i]
  {
    if s == [] then [] else Reversed(s[1..]) + [s[0]]
  }

  /** After any series of updates the log is the fifty most recent entries,
      newest first, followed by what remains of the old log. */
  lemma {:induction false} AfterUpdatesNewestFirst(log: seq<LogEntry>, updates: seq<LogEntry>)
    requires |log| <= MaxPixelLogEntries
    ensures AfterUpdates(log, updates) == Take(Reversed(updates) + log, MaxPixelLogEntries)
    decreases |updates|
  {
    if updates == [] {
      assert Reversed(updates) + log == log;
    } else {
      AfterUpdatesNewestFirst(Prepended(log, updates[0]), updates[1..]);
      PrependedUnderTake(Reversed(updates[1..]), log, updates[0]);
      assert Reversed(updates) == Reversed(updates[1..]) + [updates[0]];
    }
  }

  /** Entries put in front of a prepended log: the cap applied inside makes
      no difference once it is applied again outside. */
  lemma PrependedUnderTake(front: seq<LogEntry>, log: seq<LogEntry>, e: LogEntry)
    ensures Take(front + Prepended(log, e), MaxPixelLogEntries) == Take((front + [e]) + log, MaxPixelLogEntries)
  {
    TakeAppend(front, [e] + log);
    assert front + ([e] + log) == (front + [e]) + log;
  }

  lemma TakeAppend<T>(a: seq<T>, b: seq<T>)
    ensures Take(a + Take(b, MaxPixelLogEntries), MaxPixelLogEntries) == Take(a + b, MaxPixelLogEntries)
  {
    var l := Take(a + Take(b, MaxPixelLogEntries), MaxPixelLogEntries);
    var r := Take(a + b, MaxPixelLogEntries);
    assert |l| == |r|;
    assert forall i | 0 <= i < |l| :: l[i] == r[i];
  }

  /** `formatUptime`'s day, hour and minute fields. JavaScript's `%`
      truncates toward zero, so the remainders are written out for
      negative inputs. */
  function JsRem(a: int, b: int): (r: int)
    requires b > 0
    ensures a >= 0 ==> r == a % b
  {
    if a >= 0 then a % b else -((-a) % b)
  }

  datatype Uptime = Uptime(days: int, hours: int, minutes: int)

  function UptimeParts(seconds: int): Uptime
  {
    Uptime(seconds / 86400, JsRem(seconds, 86400) / 3600, JsRem(seconds, 3600) / 60)
  }

  /** For a non-negative number of seconds the fields are a days, hours,
      minutes decomposition: hours below 24, minutes below 60, and what is
      left is under a minute. */
  lemma UptimePartsRange(seconds: int)
    requires seconds >= 0
    ensures var u := UptimeParts(seconds);
      u.days >= 0 && 0 <= u.hours < 24 && 0 <= u.minutes < 60 &&
      0 <= seconds - (u.days * 86400 + u.hours * 3600 + u.minutes * 60) < 60
  {
    var u := UptimeParts(seconds);
    var r := seconds % 86400;
    assert seconds == u.days * 86400 + r;
    assert r == u.hours * 3600 + r % 3600;
    assert seconds % 3600 == r % 3600 by {
      assert seconds == (u.days * 24) * 3600 + r;
      ModShift(r, u.days * 24, 3600);
    }
  }

  lemma ModShift(r: int, q: int, d: int)
    requires d > 0 && q >= 0 && r >= 0
    ensures (q * d + r) % d == r % d
  {
    var m := r % d;
    assert r == (r / d) * d + m;
    assert (q + r / d) * d == q * d + (r / d) * d;
    DivModOf(q + r / d, d, m);
  }

  /** `formatUptime(seconds)` */
  function FormatUptime(seconds: int): (r: string)
    ensures |r| >= 2 && r[|r| - 1] == 'm'
  {
    var u := UptimeParts(seconds);
    if u.days > 0 then
      IntToString(u.days) + "d " + IntToString(u.hours) + "h " + IntToString(u.minutes) + "m"
    else if u.hours > 0 then
      IntToString(u.hours) + "h " + IntToString(u.minutes) + "m"
    else
      IntToString(u.minutes) + "m"
  }

  predicate Numeral(s: string)
  {
    forall k :: 0 <= k < |s| ==> s[k] == '-' || '0' <= s[k] <= '9'
  }

  /** Which layout `formatUptime` picks: the day field appears exactly when
      there is at least one day, the hour field exactly when there is a day
      or an hour, and the minutes always close the text. */
  lemma FormatUptimeLayout(seconds: int)
    ensures ('d' in FormatUptime(seconds)) <==> UptimeParts(seconds).days > 0
    ensures ('h' in FormatUptime(seconds)) <==> UptimeParts(seconds).days > 0 || UptimeParts(seconds).hours > 0
    ensures FormatUptime(seconds)[|FormatUptime(seconds)| - 1] == 'm'
  {
    var u := UptimeParts(seconds);
    var d, h, m := IntToString(u.days), IntToString(u.hours), IntToString(u.minutes);
    NumeralLacks(d, 'd'); NumeralLacks(h, 'd'); NumeralLacks(m, 'd');
    NumeralLacks(d, 'h'); NumeralLacks(h, 'h'); NumeralLacks(m, 'h');
    if u.days > 0 {
      assert FormatUptime(seconds)[|d|] == 'd';
      assert FormatUptime(seconds)[|d| + 2 + |h|] == 'h';
    } else if u.hours > 0 {
      assert FormatUptime(seconds) == h + "h " + m + "m";
      assert FormatUptime(seconds)[|h|] == 'h';
      NotInConcat(h + "h " + m, "m", 'd');
      NotInConcat(h + "h ", m, 'd');
      NotInConcat(h, "h ", 'd');
    } else {
      assert FormatUptime(seconds) == m + "m";
      NotInConcat(m, "m", 'd');
      NotInConcat(m, "m", 'h');
    }
  }

  lemma NumeralLacks(s: string, c: char)
    requires Numeral(s) && c != '-' && !('0' <= c <= '9')
    ensures c !in s
  {
  }

  lemma NotInConcat(a: string, b: string, c: char)
    requires c !in a && c !in b
    ensures c !in a + b
  {
  }

  /** The display of `updateConnectionStatus`: the indicator's class and the
      status text. */
  datatype StatusDisplay = StatusDisplay(cssClass: string, text: string)

  const KnownStatuses := ["connected", "disconnected", "reconnecting", "error", "failed"]

  function StatusFor(status: string): (d: StatusDisplay)
    ensures d.cssClass == "status-active" <==> status == "connected"
    ensures d.cssClass == "status-active" || d.cssClass == "status-warning"
    ensures status !in KnownStatuses ==> d == StatusDisplay("status-warning", "Unknown")
    ensures status in KnownStatuses ==> d.text != "Unknown"
  {
    match status
    case "connected" => StatusDisplay("status-active", "Connected")
    case "disconnected" => StatusDisplay("status-warning", "Disconnected")
    case "reconnecting" => StatusDisplay("status-warning", "Reconnecting...")
    case "error" => StatusDisplay("status-warning", "Connection Error")
    case "failed" => StatusDisplay("status-warning", "Connection Failed")
    case _ => StatusDisplay("status-warning", "Unknown")
  }

  /** `handleAdminResponse`: the server's text, or a default for the kind. */
  function AdminResponseNotice(success: bool, message: Option<string>): (n: Notice)
    ensures success ==> n == ShowSuccess(OrDefault(message, "Action completed successfully"))
    ensures !success ==> n == ShowError(OrDefault(message, "Action failed"))
    ensures message.None? ==> (n == ShowSuccess("Action completed successfully") <==> success)
    ensures message.None? ==> (n == ShowError("Action failed") <==> !success)
  {
    if success then ShowSuccess(OrDefault(message, "Action completed successfully"))
    else ShowError(OrDefault(message, "Action failed"))
  }

  /** What the dashboard asks of other components. */
  datatype Action =
    | Notify(notice: Notice)
    | ChannelSend(message: OutboundMessage)
    | ChannelConnect
    | ChannelDestroy
    | ShowStatus(display: StatusDisplay)
    | RenderPixelLog
    | RenderActiveUsers
    | UpdateAdminGrid(x: int, y: int, color: string)

  /** The three admin commands. */
  datatype Command =
    | GridCommand(action: string)
    | BroadcastCommand(message: string)
    | UserCommand(action: string, userId: string)

  function CommandMessage(c: Command, now: int): OutboundMessage
  {
    match c
    case GridCommand(a) => GridUpdate(a, now)
    case BroadcastCommand(m) => Broadcast(m, now)
    case UserCommand(a, u) => UserAction(a, u, now)
  }

  function CommandConfirmation(c: Command): Notice
  {
    match c
    case GridCommand(a) => ShowInfo("Grid " + a + " initiated...", None)
    case BroadcastCommand(_) => ShowSuccess("Broadcast message sent")
    case UserCommand(a, u) => ShowInfo("User " + a + " action sent for " + u, None)
  }

  /** `sendGridUpdate`, `broadcastMessage`, `handleUserAction`: without a
      connected manager nothing is sent and an error is shown; otherwise
      the command is sent and confirmed. */
  function CommandActions(c: Command, connected: bool, now: int): (r: seq<Action>)
    ensures !connected ==> r == [Notify(ShowError(NotConnectedText))]
    ensures (exists i | 0 <= i < |r| :: r[i].ChannelSend?) <==> connected
    ensures connected ==> r == [ChannelSend(CommandMessage(c, now)), Notify(CommandConfirmation(c))]
  {
    if !connected then [Notify(ShowError(NotConnectedText))]
    else
      var r := [ChannelSend(CommandMessage(c, now)), Notify(CommandConfirmation(c))];
      assert r[0].ChannelSend?;
      r
  }

  class AdminDashboard {
    var pixelLogEntries: seq<LogEntry>
    var sanityCheck: Option<int>
    var hasChannel: bool
    var actions: seq<Action>

    ghost predicate Valid()
      reads this
    {
      |pixelLogEntries| <= MaxPixelLogEntries
    }

    constructor ()
      ensures Valid()
      ensures pixelLogEntries == [] && sanityCheck.None? && !hasChannel && actions == []
    {
      pixelLogEntries := [];
      sanityCheck := None;
      hasChannel := false;
      actions := [];
    }

    /** `initializeWebSocket` */
    method InitializeWebSocket()
      modifies this
      ensures hasChannel && actions == old(actions) + [ChannelConnect]
      ensures pixelLogEntries == old(pixelLogEntries) && sanityCheck == old(sanityCheck)
    {
      hasChannel := true;
      actions := actions + [ChannelConnect];
    }

    /** `handleWebSocketOpen`: authenticate as admin when a token is
        stored, then show "connected". */
    method HandleWebSocketOpen(token: Option<string>)
      modifies this
      ensures actions == old(actions) +
        (if token.Some? && token.value != "" then [ChannelSend(Authenticate(token.value, true))] else []) +
        [ShowStatus(StatusFor("connected"))]
      ensures pixelLogEntries == old(pixelLogEntries) && sanityCheck == old(sanityCheck) && hasChannel == old(hasChannel)
    {
      if token.Some? && token.value != "" {
        actions := actions + [ChannelSend(Authenticate(token.value, true))];
      }
      actions := actions + [ShowStatus(StatusFor("connected"))];
    }

    /** `updateConnectionStatus(status)` */
    method UpdateConnectionStatus(status: string)
      modifies this
      ensures actions == old(actions) + [ShowStatus(StatusFor(status))]
      ensures pixelLogEntries == old(pixelLogEntries) && sanityCheck == old(sanityCheck) && hasChannel == old(hasChannel)
    {
      actions := actions + [ShowStatus(StatusFor(status))];
    }

    /** `handleWebSocketClose` */
    method HandleWebSocketClose()
      modifies this
      ensures actions == old(actions) + [ShowStatus(StatusFor("disconnected"))]
      ensures pixelLogEntries == old(pixelLogEntries) && sanityCheck == old(sanityCheck) && hasChannel == old(hasChannel)
    {
      UpdateConnectionStatus("disconnected");
    }

    /** `handleWebSocketError`: report the error, then show the status. */
    method HandleWebSocketError()
      modifies this
      ensures actions == old(actions) + [Notify(HandleError("admin_websocket")), ShowStatus(StatusFor("error"))]
      ensures pixelLogEntries == old(pixelLogEntries) && sanityCheck == old(sanityCheck) && hasChannel == old(hasChannel)
    {
      actions := actions + [Notify(HandleError("admin_websocket"))];
      UpdateConnectionStatus("error");
    }

    /** `handleWebSocketReconnect` */
    method HandleWebSocketReconnect(attempts: int)
      modifies this
      ensures actions == old(actions) + [ShowStatus(StatusFor("reconnecting"))]
      ensures pixelLogEntries == old(pixelLogEntries) && sanityCheck == old(sanityCheck) && hasChannel == old(hasChannel)
    {
      UpdateConnectionStatus("reconnecting");
    }

    /** `handleWebSocketReconnectFailed`: tell the user, then show the status. */
    method HandleWebSocketReconnectFailed()
      modifies this
      ensures actions == old(actions) + [Notify(ShowError(AdminLostText)), ShowStatus(StatusFor("failed"))]
      ensures pixelLogEntries == old(pixelLogEntries) && sanityCheck == old(sanityCheck) && hasChannel == old(hasChannel)
    {
      actions := actions + [Notify(ShowError(AdminLostText))];
      UpdateConnectionStatus("failed");
    }

    /** `handleAnnouncement` */
    method HandleAnnouncement(message: string)
      modifies this
      ensures actions == old(actions) + [Notify(ShowInfo("Server: " + message, Some(AnnouncementTimeout)))]
      ensures pixelLogEntries == old(pixelLogEntries) && sanityCheck == old(sanityCheck) && hasChannel == old(hasChannel)
    {
      actions := actions + [Notify(ShowInfo("Server: " + message, Some(AnnouncementTimeout)))];
    }

    /** `handleWebSocketMessage`: the admin switch. Only a pixel update
        touches the log; a tag the switch does not know changes nothing. */
    method HandleWebSocketMessage(m: InboundMessage, now: int)
      requires Valid()
      modifies this
      ensures Valid()
      ensures m.PixelUpdate? ==>
        pixelLogEntries == Prepended(old(pixelLogEntries), MakeEntry(m.x, m.y, m.color, m.username, m.userId, m.timestamp, now))
      ensures !m.PixelUpdate? ==> pixelLogEntries == old(pixelLogEntries)
      ensures m.PixelUpdate? ==> actions == old(actions) + [RenderPixelLog, UpdateAdminGrid(m.x, m.y, m.color)]
      ensures m.ActiveUsers? ==> actions == old(actions) + [RenderActiveUsers]
      ensures m.Announcement? ==> actions == old(actions) + [Notify(ShowInfo("Server: " + m.message, Some(AnnouncementTimeout)))]
      ensures m.ServerError? ==> actions == old(actions) + [Notify(ShowError(m.message))]
      ensures m.AdminResponse? ==> actions == old(actions) + [Notify(AdminResponseNotice(m.success, m.responseMessage))]
      ensures m.GridData? || m.RateLimit? || m.Ping? || m.Pong? || m.Unrecognized? ==> actions == old(actions)
      ensures sanityCheck == old(sanityCheck) && hasChannel == old(hasChannel)
    {
      match m
      case PixelUpdate(x, y, color, username, userId, timestamp) =>
        HandlePixelUpdate(x, y, color, username, userId, timestamp, now);
      case ActiveUsers => actions := actions + [RenderActiveUsers];
      case Announcement(message) => HandleAnnouncement(message);
      case ServerError(message) => actions := actions + [Notify(ShowError(message))];
      case AdminResponse(success, message) => HandleAdminResponse(success, message);
      case _ =>
    }

    /** `handlePixelUpdate`: log the update newest first, within the bound,
        and repaint. */
    method HandlePixelUpdate(x: int, y: int, color: string, username: Option<string>,
                             userId: Option<string>, timestamp: Option<int>, now: int)
      requires Valid()
      modifies this
      ensures Valid()
      ensures pixelLogEntries == Prepended(old(pixelLogEntries), MakeEntry(x, y, color, username, userId, timestamp, now))
      ensures actions == old(actions) + [RenderPixelLog, UpdateAdminGrid(x, y, color)]
      ensures sanityCheck == old(sanityCheck) && hasChannel == old(hasChannel)
    {
      var entry := LogEntry(x, y, color, if username.Some? && username.value != "" then username.value else "Anonymous",
                            userId, if timestamp.Some? && timestamp.value != 0 then timestamp.value else now);
      pixelLogEntries := [entry] + pixelLogEntries;
      if |pixelLogEntries| > MaxPixelLogEntries {
        pixelLogEntries := pixelLogEntries[..MaxPixelLogEntries];
      }
      actions := actions + [RenderPixelLog, UpdateAdminGrid(x, y, color)];
    }

    /** `handleAdminResponse` */
    method HandleAdminResponse(success: bool, message: Option<string>)
      modifies this
      ensures actions == old(actions) + [Notify(AdminResponseNotice(success, message))]
      ensures pixelLogEntries == old(pixelLogEntries) && sanityCheck == old(sanityCheck) && hasChannel == old(hasChannel)
    {
      if success {
        actions := actions + [Notify(ShowSuccess(if message.Some? && message.value != "" then message.value else "Action completed successfully"))];
      } else {
        actions := actions + [Notify(ShowError(if message.Some? && message.value != "" then message.value else "Action failed"))];
      }
    }

    /** The shared guard of the three admin commands. */
    method SendCommand(c: Command, connected: bool, now: int)
      modifies this
      ensures actions == old(actions) + CommandActions(c, hasChannel && connected, now)
      ensures pixelLogEntries == old(pixelLogEntries) && sanityCheck == old(sanityCheck) && hasChannel == old(hasChannel)
    {
      if !hasChannel || !connected {
        actions := actions + [Notify(ShowError(NotConnectedText))];
        return;
      }
      actions := actions + [ChannelSend(CommandMessage(c, now))];
      actions := actions + [Notify(CommandConfirmation(c))];
    }

    method SendGridUpdate(action: string, connected: bool, now: int)
      modifies this
      ensures actions == old(actions) + CommandActions(GridCommand(action), hasChannel && connected, now)
      ensures pixelLogEntries == old(pixelLogEntries) && sanityCheck == old(sanityCheck) && hasChannel == old(hasChannel)
    {
      SendCommand(GridCommand(action), connected, now);
    }

    method BroadcastMessage(message: string, connected: bool, now: int)
      modifies this
      ensures actions == old(actions) + CommandActions(BroadcastCommand(message), hasChannel && connected, now)
      ensures pixelLogEntries == old(pixelLogEntries) && sanityCheck == old(sanityCheck) && hasChannel == old(hasChannel)
    {
      SendCommand(BroadcastCommand(message), connected, now);
    }

    method HandleUserAction(action: string, userId: string, connected: bool, now: int)
      modifies this
      ensures actions == old(actions) + CommandActions(UserCommand(action, userId), hasChannel && connected, now)
      ensures pixelLogEntries == old(pixelLogEntries) && sanityCheck == old(sanityCheck) && hasChannel == old(hasChannel)
    {
      SendCommand(UserCommand(action, userId), connected, now);
    }

    /** `startSanityCheck`: every five minutes. */
    method StartSanityCheck()
      modifies this
      ensures sanityCheck == Some(SanityCheckInterval)
      ensures pixelLogEntries == old(pixelLogEntries) && actions == old(actions) && hasChannel == old(hasChannel)
    {
      sanityCheck := Some(SanityCheckInterval);
    }

    /** The sanity check fires: reconnect a manager that is not connected. */
    method SanityTick(connected: bool)
      requires sanityCheck.Some?
      modifies this
      ensures actions == old(actions) + (if hasChannel && !connected then [ChannelConnect] else [])
      ensures pixelLogEntries == old(pixelLogEntries) && sanityCheck == old(sanityCheck) && hasChannel == old(hasChannel)
    {
      if hasChannel && !connected {
        actions := actions + [ChannelConnect];
      }
    }

    /** `cleanup`: stop the sanity check and destroy the manager. */
    method Cleanup()
      modifies this
      ensures sanityCheck.None?
      ensures actions == old(actions) + (if hasChannel then [ChannelDestroy] else [])
      ensures pixelLogEntries == old(pixelLogEntries) && hasChannel == old(hasChannel)
    {
      if sanityCheck.Some? {
        sanityCheck := None;
      }
      if hasChannel {
        actions := actions + [ChannelDestroy];
      }
    }
  }
}
