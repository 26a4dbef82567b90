# Pixel-canvas client, modelled in Dafny

This project models the browser client of a shared pixel canvas. The client is a 500×500 grid that many users paint together. Its logic lives in five JavaScript files; each is modelled as one or two Dafny modules:

- **`WebSocketManager`** (`channel.dfy`) is the reconnecting channel manager. It covers:
  - connecting, and the transport's open / message / close / error events;
  - bounded retries with a backoff of `reconnectDelay * 1.5^(n-1)`;
  - the rule that a first connection failing within five seconds gives up;
  - ping/pong filtering, `close`, and `destroy`.

  Each operation is defined twice. A step function over an immutable `Session` is the specification that the lemmas reason about. The class `ChannelManager` updates the same fields in place, and each of its methods is proved equal to its step function.
- **`CanvasManager`** (`colors.dfy`, `viewport.dfy`, `raster.dfy`) covers:
  - hex ⇄ RGB conversion;
  - the viewport arithmetic (`canvasToGrid`, `gridToCanvas`), `isValidCoordinate` and `getPixelColor`;
  - the pixel buffers as arrays. The offscreen buffer is filled block by block. The decimated live-view buffer is filled by a row-major pass, so the last writer wins.
- **The page script** (`sync.dfy`, class `Page`) covers:
  - the fallback polling toggle;
  - zoom anchored at a point;
  - arrow-key selection;
  - the grid replica;
  - the message switch and the routing of a placed pixel.
- **`ErrorHandler`** (`notices.dfy`) covers:
  - toast bookkeeping by id;
  - duplicate suppression within two seconds, keyed by `type:message`;
  - the ten-minute eviction of its tracking maps;
  - the ordered mapping of technical error texts to friendly ones.
- **The admin dashboard** (`dashboard.dfy`) covers:
  - the bounded, newest-first pixel log;
  - `formatUptime`;
  - the connection-status label;
  - the connection guard on admin commands;
  - the sanity-check timer.

Shared values live in `protocol.dfy`: the grid, the decoded channel messages in both directions, and the requests sent to the notice component. Small string helpers live in `common.dfy`; `arith.dfy` holds division lemmas.

How the environment is represented:
- **Clocks:** `Date.now()` becomes a `now` parameter.
- **Randomness:** the generated toast id becomes a `freshId` parameter.
- **Outside effects:** a call into another component (a callback of the channel manager, a canvas call, a notice, an HTTP request) is recorded in order in an effect or action log.
- **Timers:** a timer is a scheduled entry that holds its delay. A firing is an event of its own (`OnReconnectTimer`, `OnPingTimer`, `PollTick`, `AutoDismissFires`, `FinishDismiss`, `SanityTick`).
- **The transport:** an abstract ready state plus the events it delivers. A frame arrives already decoded, or `Malformed` when `JSON.parse` throws.

Behaviours of the source that the proofs bring out:
- **Error then unclean close** (`Channel.ErrorThenUncleanClose`). When the page's `onError` returns normally, a connection that drops after it was established is reported twice, by `onerror` and by the unclean `onclose`. Both reach `handleReconnection`. The pair therefore uses two attempts and schedules two timers, and the `reconnectTimeout` field names only the second, so `clearReconnectTimeout` can no longer cancel the first.
- **A first failure still reconnects** (`Channel.FirstFailureStillReconnects`). After the "first failure within five seconds" rule has given up, the unclean close that follows still schedules a retry. The page is told that reconnection failed, and then that it is reconnecting. This too assumes the page's `onError` returns normally.
- **The highlight is black.** Every call from the page passes `var(--accent, orange)` as the highlight colour. A canvas context does not parse that text and keeps its previous stroke style, which is black for the fresh highlight context. The model records the string assigned (`Raster.HighlightFor`).
- **Fallback polling at start-up.** `init` always calls `setupFallbackMode`, so fallback polling runs from start-up until the channel opens.
- **Deferred removal hits a replacement.** The removal that `dismissToast` schedules deletes whatever toast holds the id 300 ms later, including a replacement shown under the same id in the meantime (`Notices.ErrorHandler.FinishDismiss`).
- **Truncating remainder.** JavaScript's `%` truncates toward zero, so `formatUptime` gives negative fields for negative input. The model writes that operator out (`Dashboard.JsRem`).

## Model

| member | source | states |
|---|---|---|
| Common.NatToString | public/static/js/dash.js:694-700 | The decimal text of a whole number: non-empty, all digits, no leading zero, and its digits read back as the number. |
| Common.IntToString | public/static/js/script.js:300-301 | The text of an integer: a leading minus exactly for negatives, followed by digits that read back as its magnitude. |
| Protocol.SetCell | public/static/js/script.js:347-349 | Cell `(x, y)` holds the colour afterwards, and the row is created if absent. Every other cell keeps both whether it is defined and its colour. |
| Colors.HexToRgba | public/static/js/canvas-manager.js:318-324 | Each channel is the value of its hex digit pair, in 0..255, and alpha is 255. |
| Colors.RgbToHex | public/static/js/canvas-manager.js:331-351 | Text starting with `#` is returned unchanged. Unrecognised text or a non-string gives `#000000`. The result is undefined exactly for an `rgb(...)` text with no digits. |
| Colors.ChannelsRoundTrip | public/static/js/canvas-manager.js:318-351 | For channels in 0..255, `rgbToHex` gives `#` plus six lowercase hex digits, and `hexToRgba` of that gives back the channels with alpha 255. |
| Colors.HexRoundTrip | public/static/js/canvas-manager.js:318-351 | hex → RGB → hex is the identity on lowercase six-digit hex colours. |
| Viewport.Clamp | public/static/js/canvas-manager.js:370-371 | `Math.max(lo, Math.min(hi, n))` is at least `lo`, equals `n` inside the range, and equals the bound it crosses outside. |
| Viewport.GridToCanvas | public/static/js/canvas-manager.js:381-388 | The canvas point is affine in the cell: the offset plus the cell times `pixelSize * scale`. |
| Viewport.CanvasToGrid | public/static/js/canvas-manager.js:360-372 | The result is always inside the grid, whatever the input. Points left of or above the grid map to 0, and points beyond it map to the last row/column. |
| Viewport.CanvasToGridInSquare | public/static/js/canvas-manager.js:360-388 | Every canvas point inside the square of an in-bounds cell maps back to that cell. |
| Viewport.GridCanvasRoundTrip | public/static/js/canvas-manager.js:360-388 | `canvasToGrid(gridToCanvas(x, y, v), v) == (x, y)` for an in-bounds cell and a positive cell extent. |
| Viewport.CanvasToGridIsValid | public/static/js/canvas-manager.js:360-403 | Every converted point passes `isValidCoordinate`. |
| Viewport.GetPixelColor | public/static/js/canvas-manager.js:412-417 | `#000000` for an out-of-bounds or unset cell, the stored colour otherwise. It is total. |
| Viewport.IsValidCoordinate | public/static/js/canvas-manager.js:396-403 | A valid cell has a row-major slot below `gridWidth * gridHeight`. |
| Viewport.GetPixelColorAfterSet | public/static/js/canvas-manager.js:412-417 | After a grid write, the written in-bounds cell reads the new colour and every other cell reads as before. |
| Raster.BlockIsCell | public/static/js/canvas-manager.js:160-176 | A buffer pixel lies in the `pixelSize × pixelSize` block of cell `(x, y)` exactly when its cell is `(x, y)`. |
| Raster.CellOfPixelInRange | public/static/js/canvas-manager.js:182-201 | Every pixel of the offscreen buffer belongs to a valid cell. |
| Raster.ColorOrBlack | public/static/js/canvas-manager.js:273-274 | Definition of the ternary default. A defined cell gives its colour, an unset one `#000000`. |
| Raster.LastOfBlockIsLast | public/static/js/canvas-manager.js:271-292 | The block's last cell lies in the block and comes last in row-major order among the block's cells. |
| Raster.HighlightLineWidth | public/static/js/canvas-manager.js:231-259 | The stroke width is positive and is three screen pixels at every scale. |
| Raster.HighlightFor | public/static/js/canvas-manager.js:231-259 | A rectangle is stroked exactly when both selection coordinates are set. It is the selected cell's `pixelSize` square drawn through the viewport, with the given colour text or `orange` when none is given, three screen pixels wide. |
| Raster.CanvasManager.constructor | public/static/js/canvas-manager.js:35-133 | The buffers have the configured sizes. A live-view context needs non-zero grid sides. The offscreen buffer is white when it has a context, the live-view data is zeroed, and the live-view canvas is painted white. |
| Raster.CanvasManager.DrawPixelToOffscreen | public/static/js/canvas-manager.js:160-176 | The cell's block is filled with the colour and every other pixel is unchanged. Nothing changes without a context. |
| Raster.CanvasManager.DrawFullOffscreenGrid | public/static/js/canvas-manager.js:182-201 | Afterwards every pixel shows its cell's colour, or is cleared when the cell is unset. |
| Raster.CanvasManager.WriteRgba | public/static/js/canvas-manager.js:287-290 | The four bytes at the index become r, g, b, a, and no other byte changes. |
| Raster.CanvasManager.DrawLiveViewCell | public/static/js/canvas-manager.js:273-291 | One visit of the row-major pass keeps the invariant that each live pixel holds the last cell of its block visited so far. |
| Raster.CanvasManager.DrawLiveViewGrid | public/static/js/canvas-manager.js:265-296 | Each live-view pixel holds the RGBA of the last cell, in row-major order, of its `f × f` block (unset cells count as black), and the data is put on the canvas. Nothing changes without a context. |
| Raster.CanvasManager.DrawGrid | public/static/js/canvas-manager.js:207-221 | The main canvas shows the offscreen buffer through the viewport when it has a context. |
| Raster.CanvasManager.DrawHighlight | public/static/js/canvas-manager.js:231-259 | The highlight layer becomes `HighlightFor` of the selection when it has a context. |
| Raster.CanvasManager.RedrawAll | public/static/js/canvas-manager.js:305-311 | The main and live views are redrawn only for a non-empty grid; the highlight layer always. |
| Channel.BackoffGrows | public/static/js/websocket-manager.js:202-203 | The first retry waits `reconnectDelay`, and each later one waits 1.5 times as long as the one before. |
| Channel.ConnectionState | public/static/js/websocket-manager.js:249-264 | `"OPEN"` exactly when connected, and `"DISCONNECTED"` exactly when there is no socket. |
| Channel.StartPingStep | public/static/js/websocket-manager.js:270-280 | An interval runs afterwards exactly when `pingInterval > 0`, with that period. Nothing else changes. |
| Channel.StopPingStep | public/static/js/websocket-manager.js:286-291 | No interval runs afterwards, and nothing else changes. |
| Channel.ClearReconnectStep | public/static/js/websocket-manager.js:297-302 | The timer the field names is cancelled and the field becomes null. Nothing else changes. |
| Channel.SendStep | public/static/js/websocket-manager.js:221-235 | The result is true exactly when the socket is OPEN and `send` succeeds. Only then is the message transmitted. A failed send reports an error. A closed socket changes nothing. |
| Channel.ReconnectionStep | public/static/js/websocket-manager.js:190-214 | At the maximum: `onReconnectFailed`, nothing scheduled. Otherwise: the counter is incremented, `onReconnect(n)` is called, and one timer with the backoff delay is scheduled. The counter never passes the maximum. |
| Channel.ConnectionErrorStep | public/static/js/websocket-manager.js:166-184 | A first attempt failing within 5000 ms calls `onReconnectFailed` and leaves the counter at 0. Any other failure goes to `handleReconnection`. The ping interval stops either way. |
| Channel.ConnectStep | public/static/js/websocket-manager.js:64-95 | No change when destroyed, connecting, or the socket is CONNECTING. Otherwise the attempt is marked and timed at `now`; a constructor failure goes to the error path. |
| Channel.OpenStep | public/static/js/websocket-manager.js:104-113 | The counter becomes 0, `isConnecting` becomes false, and the pending reconnect is cancelled. Ping runs exactly when `pingInterval > 0`, and `onOpen` is called. |
| Channel.MessageStep | public/static/js/websocket-manager.js:115-133 | A ping is answered with exactly one pong and a pong refreshes `lastPingTime`; neither is forwarded. Any other message goes to `onMessage`, and a parse failure only to `onError`. |
| Channel.CloseStep | public/static/js/websocket-manager.js:135-148 | The ping interval always stops and `onClose` is called. Reconnection is entered only after an unclean close of a live manager, with the attempt and timer it schedules. |
| Channel.ErrorStep | public/static/js/websocket-manager.js:150-158 | `onError` is called, then the connection-error rule. The log lists the effects of each of its three outcomes. |
| Channel.CloseRequestStep | public/static/js/websocket-manager.js:309-321 | Both timers are cleared. The transport is asked to close with the given code and reason only while OPEN or CONNECTING. |
| Channel.DestroyStep | public/static/js/websocket-manager.js:326-331 | The manager is destroyed and holds no socket, with both timers cleared. Normal closure (code 1000) is requested only of an open or connecting socket. |
| Channel.ReconnectFiresStep | public/static/js/websocket-manager.js:211-213 | A timer no longer pending does nothing. A pending one is removed and runs `connect`. |
| Channel.PingFiresStep | public/static/js/websocket-manager.js:270-280 | A ping is transmitted only while the interval runs and the socket is OPEN. A failed transmission there reports an error to the page. Nothing but the log changes. |
| Channel.InitialInv | public/static/js/websocket-manager.js:32-59 | The constructed manager satisfies the invariant. |
| Channel.StepInv | public/static/js/websocket-manager.js:64-331 | Every event keeps the invariant. The counter stays within the maximum, a running ping has the configured positive period, timer handles are ones already issued, and a destroyed manager holds no socket. |
| Channel.RunInv | public/static/js/websocket-manager.js:190-214 | No sequence of events drives `reconnectAttempts` past `maxReconnectAttempts`. |
| Channel.DestroyedStepSilent | public/static/js/websocket-manager.js:326-331 | After `destroy`, no event produces a callback, a transmission or a close request, and the manager stays destroyed. |
| Channel.DestroyedRunSilent | public/static/js/websocket-manager.js:326-331 | The same for every sequence of later events. |
| Channel.SilentAfterDestroy | public/static/js/websocket-manager.js:65-68 | Whatever happened before, the events after `destroy` add no effect to the log, so every later `connect` is a no-op. |
| Channel.ErrorThenUncleanClose | public/static/js/websocket-manager.js:135-158 | An error followed by an unclean close uses two attempts and schedules two timers; the field names only the second. |
| Channel.FirstFailureStillReconnects | public/static/js/websocket-manager.js:135-184 | After the first-failure rule gives up, the unclean close still schedules attempt 1 with delay `reconnectDelay`. |
| Channel.ChannelManager.constructor | public/static/js/websocket-manager.js:32-59 | The fields start as the initial session. |
| Channel.ChannelManager.CreateMain | public/static/js/websocket-manager.js:354-364 | The main manager allows 3 attempts, with delay 1000 and ping 30000. |
| Channel.ChannelManager.CreateAdmin | public/static/js/websocket-manager.js:372-382 | The admin manager allows 5 attempts, with delay 1000 and ping 30000. |
| Channel.ChannelManager.IsConnected | public/static/js/websocket-manager.js:241-243 | True exactly when the socket is OPEN. |
| Channel.ChannelManager.GetConnectionState | public/static/js/websocket-manager.js:249-264 | The ready-state label of the current socket. |
| Channel.ChannelManager.StopPingInterval | public/static/js/websocket-manager.js:286-291 | The new state is `StopPingStep` of the old one. |
| Channel.ChannelManager.StartPingInterval | public/static/js/websocket-manager.js:270-280 | The new state is `StartPingStep` of the old one. |
| Channel.ChannelManager.ClearReconnectTimeout | public/static/js/websocket-manager.js:297-302 | The new state is `ClearReconnectStep` of the old one. |
| Channel.ChannelManager.SendMessage | public/static/js/websocket-manager.js:221-235 | The new state and result are those of `SendStep`. |
| Channel.ChannelManager.HandleReconnection | public/static/js/websocket-manager.js:190-214 | The new state is `ReconnectionStep` of the old one. |
| Channel.ChannelManager.HandleConnectionError | public/static/js/websocket-manager.js:166-184 | The new state is `ConnectionErrorStep` of the old one. |
| Channel.ChannelManager.Connect | public/static/js/websocket-manager.js:64-95 | The new state is `ConnectStep` of the old one, and the invariant is kept. |
| Channel.ChannelManager.OnOpen | public/static/js/websocket-manager.js:104-113 | The new state is `OpenStep` of the old one, and the invariant is kept. |
| Channel.ChannelManager.OnMessage | public/static/js/websocket-manager.js:115-133 | The new state is `MessageStep` of the old one, and the invariant is kept. |
| Channel.ChannelManager.OnClose | public/static/js/websocket-manager.js:135-148 | The new state is `CloseStep` of the old one, and the invariant is kept. |
| Channel.ChannelManager.OnError | public/static/js/websocket-manager.js:150-158 | The new state is `ErrorStep` of the old one, and the invariant is kept. |
| Channel.ChannelManager.OnReconnectTimer | public/static/js/websocket-manager.js:211-213 | The new state is `ReconnectFiresStep` of the old one, and the invariant is kept. |
| Channel.ChannelManager.OnPingTimer | public/static/js/websocket-manager.js:270-280 | The new state is `PingFiresStep` of the old one, and the invariant is kept. |
| Channel.ChannelManager.Close | public/static/js/websocket-manager.js:309-321 | The new state is `CloseRequestStep` of the old one, and the invariant is kept. |
| Channel.ChannelManager.Destroy | public/static/js/websocket-manager.js:326-331 | The new state is `DestroyStep` of the old one, and the invariant is kept. |
| Sync.ClampScale | public/static/js/script.js:642 | The scale lies in [0.1, 10], equals the input inside that range, and equals the bound outside it. |
| Sync.AnchorKept | public/static/js/script.js:644-646 | The offset update keeps the grid point under the centre fixed. |
| Sync.ZoomedView | public/static/js/script.js:641-659 | The new scale is the clamped product. An unchanged scale changes nothing. Otherwise `(c - offset')/scale' == (c - offset)/scale` on both axes. |
| Sync.MovedSelection | public/static/js/script.js:712-725 | With no selection the result is the centre cell. Otherwise it is the delta clamped into the grid, and always a valid cell. |
| Sync.MoveInsideIsExact | public/static/js/script.js:712-725 | A move that stays in the grid is exact, and a move along one axis keeps the other coordinate. |
| Sync.Route | public/static/js/script.js:251-280 | Each known type selects its own handler (both directions). Ping, pong, admin responses and unknown types select none. |
| Sync.PlacementRoute | public/static/js/script.js:736-764 | Nothing is sent for an invalid cell or without a token. Otherwise the pixel goes over the channel exactly when connected, and over HTTP exactly when not. |
| Sync.SetupFallback | public/static/js/script.js:313-322 | Fallback is on afterwards. When it was already on, nothing changes; otherwise one polling interval of 2000 ms starts. |
| Sync.LeaveFallback | public/static/js/script.js:232-237 | The flag is off and the interval is cancelled. |
| Sync.AfterClose | public/static/js/script.js:286-292 | Fallback is entered only after an unclean close. A clean close or active fallback changes nothing. |
| Sync.SetupFallbackIdempotent | public/static/js/script.js:313-322 | A second `setupFallbackMode` starts no second interval. |
| Sync.PollingTransitionsOk | public/static/js/script.js:230-322 | Every fallback transition keeps the flag and the interval in step. |
| Sync.Page.constructor | public/static/js/script.js:28-45 | The initial module state: empty grid, no selection, scale 1, offset 0, no fallback. |
| Sync.Page.Init | public/static/js/script.js:58-113 | Connects, always sets up fallback polling, then redraws everything for a non-empty grid and only the main view otherwise. The page invariant holds after it, and the grid, selection, view, login state and `lastUpdateTime` are kept. |
| Sync.Page.SetupFallbackMode | public/static/js/script.js:313-322 | The polling state becomes `SetupFallback` of the old one. Every other field, the actions and the login state included, is kept. |
| Sync.Page.PollTick | public/static/js/script.js:319-321 | A running interval fetches the grid, and nothing else happens. It keeps the page invariant and every other field. |
| Sync.Page.HandleWebSocketOpen | public/static/js/script.js:230-249 | Leaves fallback and cancels the interval. It authenticates (not as admin) only with a non-empty token, then fetches the grid. The login state, `lastUpdateTime` and everything not named keep their values. |
| Sync.Page.HandleWebSocketClose | public/static/js/script.js:286-292 | The polling state becomes `AfterClose` of the old one, with no action. The login state, `lastUpdateTime` and everything not named keep their values. |
| Sync.Page.HandleWebSocketError | public/static/js/script.js:294-297 | The error goes to `handleError` with type `websocket`. It keeps the page invariant and every other field. |
| Sync.Page.HandleWebSocketReconnect | public/static/js/script.js:299-302 | Shows `Reconnecting... (n)` for 2000 ms. It keeps the page invariant and every other field. |
| Sync.Page.HandleWebSocketReconnectFailed | public/static/js/script.js:304-308 | Shows the fallback error and enters fallback. The login state, `lastUpdateTime` and everything not named keep their values. |
| Sync.Page.HandleGridData | public/static/js/script.js:327-342 | A missing grid changes nothing. Otherwise the grid is replaced, stamped, and fully redrawn. The selection, view, polling and login state are kept. |
| Sync.Page.HandlePixelUpdate | public/static/js/script.js:344-362 | The grid becomes `SetCell` of the old one, with no bounds check. The pixel, the main view and the live view (twice) are redrawn. The login state, `lastUpdateTime` and everything not named keep their values. |
| Sync.Page.HandleWebSocketMessage | public/static/js/script.js:251-284 | Each message gets its handler's full effect: grid data with and without a grid, the pixel update, the active-user render and the three notices. Unknown types, ping and pong change nothing. The selection, view, polling and login state are always kept, and only grid data with a grid moves `lastUpdateTime`. |
| Sync.Page.Zoom | public/static/js/script.js:641-659 | The view becomes `ZoomedView` of the old one, redrawn only when the scale changed. The login state, `lastUpdateTime` and everything not named keep their values. |
| Sync.Page.ZoomIn | public/static/js/script.js:661-665 | Zooms by 1.2 about the canvas centre, with Zoom's redraw rule and frame. |
| Sync.Page.ZoomOut | public/static/js/script.js:667-671 | Zooms by 0.8 about the canvas centre, with Zoom's redraw rule and frame. |
| Sync.Page.MoveSelection | public/static/js/script.js:712-731 | The selection becomes `MovedSelection` of the old one, and the highlight is redrawn. The login state, `lastUpdateTime` and everything not named keep their values. |
| Sync.Page.PlacePixel | public/static/js/script.js:736-764 | The single request follows `PlacementRoute`: the error notice, the channel message, or the HTTP post. Every other field is kept. |
| Sync.Page.ClickAt | public/static/js/script.js:443-472 | Selects the (always valid) cell under the point and redraws the highlight. It places a pixel there exactly when logged in with user data; the login state itself is kept. |
| Notices.First | public/static/js/error-handler.js:102-109 | Definition of spread precedence for one key. The key given later in a spread wins when present. |
| Notices.Spread | public/static/js/error-handler.js:102-109 | Every option the caller gives overrides the default, and no options leave the defaults. |
| Notices.Resolve | public/static/js/error-handler.js:102-114 | Definition of showToast's option defaults. Timeout defaults to the configured one, type to `info` and persistent to false. The id is the given one when non-empty, a fresh one otherwise. |
| Notices.KindOptions | public/static/js/error-handler.js:46-78 | The type defaults to the method's own, and the caller's options are kept otherwise. |
| Notices.PixelErrorOptions | public/static/js/error-handler.js:86-93 | Without overrides: id `pixel-error-toast`, type `error`, timeout 3000. |
| Notices.AutoDismiss | public/static/js/error-handler.js:137-141 | Definition of the auto-dismiss condition. Auto-dismiss is scheduled exactly for a non-persistent toast with a positive timeout, after that timeout. |
| Notices.OrZero | public/static/js/error-handler.js:237-238 | Definition of the `|| 0` default. A missing time counts as 0. |
| Notices.Evicted | public/static/js/error-handler.js:257-263 | Exactly the entries older than ten minutes are dropped; the rest keep their times. |
| Notices.EvictedCounts | public/static/js/error-handler.js:257-263 | Exactly the counts of stale keys are dropped; the rest are kept. |
| Notices.TrackedLast | public/static/js/error-handler.js:250-264 | The tracked key is stamped and always kept. Every other key stays exactly when it is not stale. |
| Notices.TrackedCounts | public/static/js/error-handler.js:250-264 | The tracked key's count goes up by one, and surviving other keys keep their counts. |
| Notices.TrackedIsDuplicate | public/static/js/error-handler.js:235-264 | Once tracked at `now`, a key is a duplicate exactly during the next two seconds. |
| Notices.TrackingOtherKey | public/static/js/error-handler.js:235-264 | Tracking one key does not change whether another fresh key is a duplicate. |
| Notices.FirstMatch | public/static/js/error-handler.js:331-335 | It finds something exactly when some pattern occurs in the message. It returns the friendly text of the first such pattern in listed order. |
| Notices.FriendlyMessage | public/static/js/error-handler.js:313-352 | The first matching pattern's text. Otherwise the websocket / pixel / auth fallback, and otherwise the original message. |
| Notices.EarlierPatternWins | public/static/js/error-handler.js:315-337 | A text containing two patterns gets the earlier pattern's message. |
| Notices.ErrorMessage | public/static/js/error-handler.js:272-284 | Gives an `Error`'s non-empty message, a resource-load text, a string itself, or the default text. |
| Notices.ContextTimeout | public/static/js/error-handler.js:298 | Definition of the `||` timeout default. The context's non-zero timeout, otherwise the default. |
| Notices.ErrorHandler.constructor | public/static/js/error-handler.js:27-38 | The default timeout is 5000 unless configured, and all maps start empty. |
| Notices.ErrorHandler.IsDuplicateError | public/static/js/error-handler.js:235-242 | True exactly when `now - lastErrors["type:message"] < 2000`, an absent entry counting as 0. |
| Notices.ErrorHandler.TrackError | public/static/js/error-handler.js:250-264 | The maps become `TrackedLast` / `TrackedCounts` of the old ones, and they keep the same keys. |
| Notices.ErrorHandler.DismissToast | public/static/js/error-handler.js:194-217 | An unknown id is ignored. Otherwise auto-dismiss is cancelled and one removal is scheduled. |
| Notices.ErrorHandler.FinishDismiss | public/static/js/error-handler.js:206-216 | The scheduled removal deletes whatever toast holds the id, a replacement included. |
| Notices.ErrorHandler.AutoDismissFires | public/static/js/error-handler.js:138-140 | An expiring toast is dismissed. |
| Notices.ErrorHandler.DismissAll | public/static/js/error-handler.js:222-226 | Every toast is dismissed, with one removal scheduled per id. |
| Notices.ErrorHandler.ShowToast | public/static/js/error-handler.js:101-148 | `ToastShown`: a duplicate changes no map. Otherwise a same-id toast is dismissed first, the new one is stored with its auto-dismiss, the other toasts are kept, and the key is tracked. |
| Notices.ErrorHandler.ShowError | public/static/js/error-handler.js:46-48 | `ToastShown` for the options with type `error` spread under the caller's. With no options the toast gets a fresh id and the default auto-dismiss. |
| Notices.ErrorHandler.ShowWarning | public/static/js/error-handler.js:56-58 | `ToastShown` for type `warning`, as for ShowError. |
| Notices.ErrorHandler.ShowSuccess | public/static/js/error-handler.js:66-68 | `ToastShown` for type `success`, as for ShowError. |
| Notices.ErrorHandler.ShowInfo | public/static/js/error-handler.js:76-78 | `ToastShown` for type `info`, as for ShowError. |
| Notices.ErrorHandler.ShowPixelError | public/static/js/error-handler.js:86-93 | `ToastShown` for the pixel-error options. Without options, the shared id `pixel-error-toast` holds the new error toast with a 3000 ms auto-dismiss, so a new pixel error replaces the last one. |
| Notices.ErrorHandler.ScanPatterns | public/static/js/error-handler.js:331-335 | The loop over the pattern table returns `FirstMatch` of the table. |
| Notices.ErrorHandler.GetUserFriendlyMessage | public/static/js/error-handler.js:313-352 | The method returns `FriendlyMessage`: the first matching pattern's text, otherwise the context's fallback, otherwise the message. |
| Notices.ErrorHandler.HandleError | public/static/js/error-handler.js:271-304 | When `showToUser === false`, nothing changes. Otherwise it is `ToastShown` of the friendly message as a non-persistent error under the fresh id, with the context timeout. |
| Notices.ErrorHandler.ClearStats | public/static/js/error-handler.js:400-403 | Empties both tracking maps and keeps the toasts. |
| Dashboard.MakeEntry | public/static/js/dash.js:288-295 | Definition of the entry's `||` defaults. A missing username becomes `Anonymous`, and a missing timestamp becomes `now`. |
| Dashboard.Take | public/static/js/dash.js:301-303 | `slice(0, n)`: a prefix of length `min(len, n)`. |
| Dashboard.Prepended | public/static/js/dash.js:297-303 | The new entry is at index 0, the others keep their order, and the log never exceeds 50. |
| Dashboard.AfterUpdatesNewestFirst | public/static/js/dash.js:284-310 | After any series of updates the log is the 50 most recent entries, newest first, then what remains of the old log. |
| Dashboard.Reversed | public/static/js/dash.js:297-303 | Reverses the order of the updates. |
| Dashboard.JsRem | public/static/js/dash.js:689-701 | JavaScript's truncating `%` agrees with Dafny's on non-negative operands. |
| Dashboard.UptimePartsRange | public/static/js/dash.js:689-701 | For non-negative seconds: hours in 0..23, minutes in 0..59, and less than a minute left over. |
| Dashboard.FormatUptimeLayout | public/static/js/dash.js:689-701 | A day field appears exactly when days > 0, an hour field exactly when days or hours > 0, and minutes always end the text. |
| Dashboard.FormatUptime | public/static/js/dash.js:689-701 | Every result ends with the minutes field `m`. |
| Dashboard.StatusFor | public/static/js/dash.js:620-646 | Only `connected` is `status-active`. Any unknown status gives `status-warning` and `Unknown`. |
| Dashboard.AdminResponseNotice | public/static/js/dash.js:316-322 | Success shows the server text or "Action completed successfully"; failure shows it or "Action failed". |
| Dashboard.CommandActions | public/static/js/dash.js:416-461 | Something is sent exactly when connected. Without a connection only `Not connected to server` is shown; with one, the command is sent and confirmed. |
| Dashboard.AdminDashboard.constructor | public/static/js/dash.js:17-24 | The log is empty, with no manager and no sanity check. |
| Dashboard.AdminDashboard.InitializeWebSocket | public/static/js/dash.js:175-199 | Creates the manager and connects. |
| Dashboard.AdminDashboard.HandleWebSocketOpen | public/static/js/dash.js:204-218 | Authenticates as admin only with a stored token, then shows "connected". |
| Dashboard.AdminDashboard.HandleWebSocketClose | public/static/js/dash.js:259-262 | Shows "disconnected". |
| Dashboard.AdminDashboard.HandleWebSocketError | public/static/js/dash.js:264-268 | Reports the error, then shows "error". |
| Dashboard.AdminDashboard.HandleWebSocketReconnect | public/static/js/dash.js:270-273 | Shows "reconnecting". |
| Dashboard.AdminDashboard.HandleWebSocketReconnectFailed | public/static/js/dash.js:275-279 | Shows the lost-connection error, then "failed". |
| Dashboard.AdminDashboard.HandleAnnouncement | public/static/js/dash.js:312-314 | Shows `Server: message` for 10000 ms. |
| Dashboard.AdminDashboard.HandleWebSocketMessage | public/static/js/dash.js:220-257 | Dispatches each admin message to its handler. Only pixel updates change the log, and unknown types change nothing. |
| Dashboard.AdminDashboard.UpdateConnectionStatus | public/static/js/dash.js:620-646 | Shows `StatusFor(status)`. |
| Dashboard.AdminDashboard.HandlePixelUpdate | public/static/js/dash.js:284-310 | The log becomes `Prepended` of the old one, and stays within 50 entries. It then re-renders the log and updates the grid. |
| Dashboard.AdminDashboard.HandleAdminResponse | public/static/js/dash.js:316-322 | Shows `AdminResponseNotice`. |
| Dashboard.AdminDashboard.SendCommand | public/static/js/dash.js:416-461 | The shared guard: the actions are `CommandActions` for "manager present and connected". |
| Dashboard.AdminDashboard.SendGridUpdate | public/static/js/dash.js:416-430 | The guarded `gridUpdate` command. |
| Dashboard.AdminDashboard.BroadcastMessage | public/static/js/dash.js:432-445 | The guarded `broadcast` command. |
| Dashboard.AdminDashboard.HandleUserAction | public/static/js/dash.js:447-461 | The guarded `userAction` command. |
| Dashboard.AdminDashboard.StartSanityCheck | public/static/js/dash.js:703-712 | A five-minute interval is scheduled. |
| Dashboard.AdminDashboard.SanityTick | public/static/js/dash.js:704-711 | Reconnects only a manager that exists and is not connected. |
| Dashboard.AdminDashboard.Cleanup | public/static/js/dash.js:740-748 | Stops the sanity check and destroys the manager if there is one. |

## Left out

**Outside the model**
- DOM and presentation are not modelled:
  - element lookup, event binding and toast elements;
  - `requestAnimationFrame` and the theme toggle;
  - pixel-log, active-user and admin-stats rendering (`renderPixelLog`, `updateActiveUsersDisplay`, `updateAdminStats`, `updateGridUpdateStatus`, `updateAdminGrid`);
  - canvas sizing and resizing (`setCanvasSize`, `handleResize`, `clearAll`, `dispose`). These are recorded as actions or omitted. The two white fills of `initializeEmptyGrid` are part of the `CanvasManager` constructor.
- Network and storage are not modelled:
  - the browser `WebSocket` object is an abstract ready state;
  - HTTP (`fetchGridData`, `sendPixelViaHTTP`, `loadBackupGridData`, admin validation) is an action with no modelled outcome;
  - OAuth, `localStorage` and logout do not appear; the stored token is a parameter;
  - `JSON.parse`/`stringify` is an abstract decode result.
- Real time is not modelled: timers are scheduled entries and `Date.now()` is a parameter.
- Floating point is treated as Dafny `real`, not IEEE doubles. So are the viewport numbers and the 1.5 backoff power.
- Touch, pinch, drag and wheel gestures (`Math.hypot`) are not modelled: they are input plumbing around `zoom`.
- Foreign and environment-specific code is not modelled:
  - `reportError` (reads the process environment);
  - the global window error listeners of `getErrorHandler`;
  - `getStats` of both managers (diagnostics only);
  - `generateSessionId` (randomness);
  - the `onDismiss` callback option.
- `timer/timer.js` (a countdown over `Date` strings and DOM writes) and `tailwind.config.js` (build configuration) are not part of this model.

**Input assumptions**
- Colors.HexToRgba: requires a well-formed `#rrggbb` string. `parseInt` on malformed hex is not modelled.
- Raster.CanvasManager.constructor: with a live-view context, requires both grid sides to be non-zero. The source's `createImageData` throws `IndexSizeError` for a zero side, and the model does not represent that failure. The page always passes a 500 by 500 grid.
- Raster.CanvasManager.DrawLiveViewGrid: requires grid sides divisible by `liveViewPixelSizeFactor` (`ConfigOk`). `liveViewCanvasWidth` is then an integer; the source would otherwise use a fractional width.
- Viewport.CanvasToGrid: requires a non-zero cell extent. The page keeps the scale positive, so division by zero does not arise there.
- Dashboard.AfterUpdatesNewestFirst: requires a starting log of at most 50 entries, which every reachable log is.

**Events not modelled**
- Channel.MessageStep: an exception thrown inside the page's own `onMessage` handler (caught and sent to `onError`) is not modelled, because the page handlers are modelled as total. A frame that parses to `null` is treated as `Malformed`, because the source then throws on `.type` and reaches `onError`.
- Channel.ChannelManager: events from a socket that `connect` has already replaced are not modelled, since transport events concern the current socket only. Nothing in the source guarantees a single live transport.

**Deliberate differences of form**
- Channel.ReconnectFiresStep: after a reconnect timer fires, the handle stays in the `reconnectTimeout` field as in the source, but it is no longer pending. Clearing it afterwards cancels nothing.
- Notices.ErrorHandler.ShowToast: the generated id is a parameter of its own, so the model does not tie it to the `now` of the call, while the source builds it from `Date.now()` at that moment.
- Dashboard.AdminDashboard.Cleanup: the source clears the interval but keeps the stale handle in the field. The model records the interval as stopped.
- Dashboard.FormatUptime: properties are proved for non-negative whole seconds only. The function is total, and its negative-input behaviour follows `JsRem`.
- Sync.Page.HandleWebSocketMessage: handler exceptions caught by the switch are not modelled.
- Dashboard.StatusFor: the statusClasses lookup of `updateConnectionStatus` is modelled on its five listed keys; inherited object keys are not modelled.
- Notices.ErrorHandler.HandleError: `reportError` is taken to return normally. It reads `process.env.NODE_ENV` (error-handler.js:365), so in a browser without a `process` global it throws after the toast is shown. That exception would cut short the callers. Sync.Page.HandleWebSocketError would pass it on to the channel, and Channel.ErrorStep would then stop after the page's `onError` and before `handleConnectionError`. Dashboard.AdminDashboard.HandleWebSocketError would not reach its status update to "error".
- Raster.HighlightFor: a colour is recorded as the string assigned to `strokeStyle`. A canvas ignores a string it cannot parse, such as the page's `var(--accent, orange)`, and keeps its previous style.
- Raster.CanvasManager.DrawPixelToOffscreen: the same holds for `fillStyle`. The colour is recorded as the string assigned, and an unparseable one would leave the previous fill style in place. Compositing is not modelled either: a block records the colour text, though `fillRect` with a non-opaque colour would blend it over the pixels already there.
- Channel.ConnectStep: `connect` does not check for an already OPEN socket. Connecting twice while open replaces the socket, as the source does.
