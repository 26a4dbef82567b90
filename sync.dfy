/** The page script that ties the channel, the canvas and the notices
    together (`script.js`): the grid replica, the viewport and selection, the
    fallback polling toggle, and where a placed pixel is sent. The page's
    module-level variables are the fields of `Page`; what it asks of the
    canvas manager, the channel manager, the notice component and HTTP is
    recorded, in order, in an action log. Whether the channel is connected
    is a parameter. */
module Sync {
  import opened Common
  import opened Protocol
  import opened Viewport

  const GridWidth := 500
  const GridHeight := 500
  const PixelSize := 10
  const LiveViewFactor := 2
  const FallbackPollInterval := 2000

  /** The canvas configuration the page creates its canvas manager with. */
  const PageConfig := CanvasConfig(GridWidth, GridHeight, PixelSize, LiveViewFactor)

  const MinScale := 0.1
  const MaxScale := 10.0

  /** Requests the page makes of other components. Canvas calls carry the
      viewport and selection passed; the grid passed is the page's grid at
      that moment. */
  datatype Action =
    | Notify(notice: Notice)
    | ChannelSend(message: OutboundMessage)
    | ChannelConnect
    | FetchGrid
    | PostPixel(x: int, y: int, color: string)
    | DrawFullOffscreen
    | DrawPixel(x: int, y: int, color: string)
    | DrawGrid(view: View)
    | DrawLiveView
    | DrawHighlight(view: View, selection: Selection)
    | RedrawAll(view: View, selection: Selection)
    | RenderActiveUsers

  /** A JavaScript string value is truthy when present and not empty. */
  predicate Truthy(s: Option<string>)
  {
    s.Some? && s.value != ""
  }

  /** `Math.max(0.1, Math.min(10, x))` */
  function ClampScale(x: real): (r: real)
    ensures MinScale <= r <= MaxScale
    ensures MinScale <= x <= MaxScale ==> r == x
    ensures x < MinScale ==> r == MinScale
    ensures x > MaxScale ==> r == MaxScale
  {
    if x > MaxScale then MaxScale else if x < MinScale then MinScale else x
  }

  /** `(center - offset) * (newScale / scale)` keeps the grid point under
      `center` where it was: the offset moves by the same ratio. */
  lemma AnchorKept(c: real, off: real, s: real, ns: real)
    requires s > 0.0 && ns > 0.0
    ensures (c - (c - (c - off) * (ns / s))) / ns == (c - off) / s
  {
    var k := ns / s;
    var d := c - off;
    assert k * s == ns;
    assert c - (c - d * k) == d * k;
    assert (d * k) / ns == ((d / s) * (k * s)) / ns;
    assert ((d / s) * ns) / ns == d / s;
  }

  /** `zoom(factor, centerX, centerY)`: the new scale is the clamped product;
      if it equals the old one nothing changes, otherwise the grid point
      under the centre stays under the centre on both axes. */
  function ZoomedView(v: View, factor: real, cx: real, cy: real): (r: View)
    requires v.scale > 0.0
    ensures r.scale == ClampScale(v.scale * factor)
    ensures r.scale == v.scale ==> r == v
    ensures r.scale != v.scale ==>
      (cx - r.offsetX) / r.scale == (cx - v.offsetX) / v.scale &&
      (cy - r.offsetY) / r.scale == (cy - v.offsetY) / v.scale
  {
    var ns := ClampScale(v.scale * factor);
    if ns == v.scale then v
    else
      AnchorKept(cx, v.offsetX, v.scale, ns);
      AnchorKept(cy, v.offsetY, v.scale, ns);
      View(cx - (cx - v.offsetX) * (ns / v.scale), cy - (cy - v.offsetY) * (ns / v.scale), ns)
  }

  /** A selection is either empty or a valid cell of the page's grid. */
  predicate SelectionOk(sel: Selection)
  {
    (sel.x.None? <==> sel.y.None?) &&
    (sel.x.Some? ==> IsValidCoordinate(PageConfig, sel.x.value, sel.y.value))
  }

  /** `moveSelection(dx, dy)`: with no selection, the centre cell; otherwise
      the selection moved by the delta and clamped into the grid. */
  function MovedSelection(sel: Selection, dx: int, dy: int): (r: Selection)
    ensures r.x.Some? && r.y.Some?
    ensures IsValidCoordinate(PageConfig, r.x.value, r.y.value)
    ensures sel.x.None? || sel.y.None? ==> r == Selection(Some(GridWidth / 2), Some(GridHeight / 2))
    ensures sel.x.Some? && sel.y.Some? ==>
      r.x.value == Clamp(0, GridWidth - 1, sel.x.value + dx) &&
      r.y.value == Clamp(0, GridHeight - 1, sel.y.value + dy)
  {
    if sel.x.None? || sel.y.None? then Selection(Some(GridWidth / 2), Some(GridHeight / 2))
    else Selection(Some(Clamp(0, GridWidth - 1, sel.x.value + dx)), Some(Clamp(0, GridHeight - 1, sel.y.value + dy)))
  }

  /** A move inside the grid is exact, and a move from a valid cell never
      changes the coordinate it does not move along. */
  lemma MoveInsideIsExact(sel: Selection, dx: int, dy: int)
    requires SelectionOk(sel) && sel.x.Some?
    requires IsValidCoordinate(PageConfig, sel.x.value + dx, sel.y.value + dy)
    ensures MovedSelection(sel, dx, dy) == Selection(Some(sel.x.value + dx), Some(sel.y.value + dy))
    ensures MovedSelection(sel, dx, 0).y == sel.y && MovedSelection(sel, 0, dy).x == sel.x
  {
  }

  /** The handler the message switch selects. */
  datatype Handler =
    | GridDataHandler | PixelUpdateHandler | ActiveUsersHandler
    | AnnouncementHandler | RateLimitHandler | ErrorNoticeHandler | NoHandler

  /** The switch of `handleWebSocketMessage`. */
  function Route(m: InboundMessage): (h: Handler)
    ensures h == NoHandler <==> m.Ping? || m.Pong? || m.AdminResponse? || m.Unrecognized?
    ensures h == GridDataHandler <==> m.GridData?
    ensures h == PixelUpdateHandler <==> m.PixelUpdate?
    ensures h == ActiveUsersHandler <==> m.ActiveUsers?
    ensures h == AnnouncementHandler <==> m.Announcement?
    ensures h == RateLimitHandler <==> m.RateLimit?
    ensures h == ErrorNoticeHandler <==> m.ServerError?
  {
    match m
    case GridData(_) => GridDataHandler
    case PixelUpdate(_, _, _, _, _, _) => PixelUpdateHandler
    case ActiveUsers => ActiveUsersHandler
    case Announcement(_) => AnnouncementHandler
    case RateLimit(_) => RateLimitHandler
    case ServerError(_) => ErrorNoticeHandler
    case _ => NoHandler
  }

  const InvalidCoordinatesText := "Invalid pixel coordinates"
  const LoginRequiredText := "Please log in to place pixels"
  const RateLimitText := "Slow down! You're placing pixels too quickly."
  const FallbackText := "Connection lost. Switching to fallback mode."

  /** Where `placePixel` sends a pixel. */
  datatype Placement = Refused(reason: string) | OverChannel | OverHttp

  /** `placePixel`'s routing: nothing is sent for an invalid cell or without
      a token; otherwise the channel is used when connected and HTTP when
      not. */
  function PlacementRoute(x: int, y: int, token: Option<string>, connected: bool): (p: Placement)
    ensures p.Refused? <==> !IsValidCoordinate(PageConfig, x, y) || !Truthy(token)
    ensures !IsValidCoordinate(PageConfig, x, y) ==> p == Refused(InvalidCoordinatesText)
    ensures IsValidCoordinate(PageConfig, x, y) && !Truthy(token) ==> p == Refused(LoginRequiredText)
    ensures p == OverChannel <==> IsValidCoordinate(PageConfig, x, y) && Truthy(token) && connected
    ensures p == OverHttp <==> IsValidCoordinate(PageConfig, x, y) && Truthy(token) && !connected
  {
    if !IsValidCoordinate(PageConfig, x, y) then Refused(InvalidCoordinatesText)
    else if !Truthy(token) then Refused(LoginRequiredText)
    else if connected then OverChannel
    else OverHttp
  }

  /** The fallback polling state: the flag and the running interval. */
  datatype Polling = Polling(fallbackMode: bool, interval: Option<int>)

  /** The two fields agree: polling runs exactly in fallback mode. */
  predicate PollingOk(p: Polling)
  {
    p.fallbackMode <==> p.interval == Some(FallbackPollInterval)
  }

  /** `setupFallbackMode` */
  function SetupFallback(p: Polling): (r: Polling)
    ensures r.fallbackMode
    ensures p.fallbackMode ==> r == p
    ensures !p.fallbackMode ==> r == Polling(true, Some(FallbackPollInterval))
  {
    if p.fallbackMode then p else Polling(true, Some(FallbackPollInterval))
  }

  /** The part of `handleWebSocketOpen` that ends fallback mode. */
  function LeaveFallback(p: Polling): (r: Polling)
    ensures r == Polling(false, None) && PollingOk(r)
  {
    Polling(false, None)
  }

  /** `handleWebSocketClose` enters fallback only after an unclean close. */
  function AfterClose(p: Polling, wasClean: bool): (r: Polling)
    ensures wasClean || p.fallbackMode ==> r == p
    ensures !wasClean ==> r.fallbackMode
  {
    if !wasClean && !p.fallbackMode then SetupFallback(p) else p
  }

  /** Setting up fallback twice starts a single interval. */
  lemma SetupFallbackIdempotent(p: Polling)
    ensures SetupFallback(SetupFallback(p)) == SetupFallback(p)
    ensures PollingOk(p) ==> PollingOk(SetupFallback(p))
  {
  }

  /** Every fallback transition keeps the flag and the interval in step. */
  lemma PollingTransitionsOk(p: Polling, wasClean: bool)
    requires PollingOk(p)
    ensures PollingOk(SetupFallback(p)) && PollingOk(LeaveFallback(p)) && PollingOk(AfterClose(p, wasClean))
  {
  }

  /** The page: the module-level state of the script. */
  class Page {
    var grid: Grid
    var selection: Selection
    var scale: real
    var offsetX: real
    var offsetY: real
    var fallbackMode: bool
    var fallbackPollingInterval: Option<int>
    var lastUpdateTime: int
    var userToken: Option<string>
    var hasUserData: bool
    var actions: seq<Action>

    function CurrentView(): View
      reads this
    {
      View(offsetX, offsetY, scale)
    }

    function CurrentPolling(): Polling
      reads this
    {
      Polling(fallbackMode, fallbackPollingInterval)
    }

    /** The scale stays within the zoom bounds, the selection is empty or a
        valid cell, and polling runs exactly in fallback mode. */
    ghost predicate Valid()
      reads this
    {
      MinScale <= scale <= MaxScale && SelectionOk(selection) && PollingOk(CurrentPolling())
    }

    /** The state before `init`; the token and user data are what local
        storage held. */
    constructor (token: Option<string>, userData: bool)
      ensures Valid()
      ensures grid == map[] && selection == Selection(None, None)
      ensures CurrentView() == View(0.0, 0.0, 1.0)
      ensures !fallbackMode && fallbackPollingInterval.None? && lastUpdateTime == 0
      ensures userToken == token && hasUserData == userData && actions == []
    {
      grid := map[];
      selection := Selection(None, None);
      scale := 1.0;
      offsetX := 0.0;
      offsetY := 0.0;
      fallbackMode := false;
      fallbackPollingInterval := None;
      lastUpdateTime := 0;
      userToken := token;
      hasUserData := userData;
      actions := [];
    }

    /** `init` after the modules are loaded: connect, set up fallback polling
        (unconditionally), and draw the initial frame. */
    method Init()
      requires Valid()
      modifies this
      ensures Valid()
      ensures CurrentPolling() == SetupFallback(old(CurrentPolling()))
      ensures actions == old(actions) + [ChannelConnect,
        if NonEmpty(grid) then RedrawAll(CurrentView(), selection) else DrawGrid(CurrentView())]
      ensures grid == old(grid) && selection == old(selection) && CurrentView() == old(CurrentView())
      ensures lastUpdateTime == old(lastUpdateTime) && userToken == old(userToken) && hasUserData == old(hasUserData)
    {
      actions := actions + [ChannelConnect];
      SetupFallbackMode();
      if NonEmpty(grid) {
        actions := actions + [RedrawAll(CurrentView(), selection)];
      } else {
        actions := actions + [DrawGrid(CurrentView())];
      }
    }

    method SetupFallbackMode()
      requires Valid()
      modifies this
      ensures Valid()
      ensures CurrentPolling() == SetupFallback(old(CurrentPolling()))
      ensures grid == old(grid) && selection == old(selection) && CurrentView() == old(CurrentView())
      ensures actions == old(actions) && lastUpdateTime == old(lastUpdateTime)
      ensures userToken == old(userToken) && hasUserData == old(hasUserData)
    {
      if fallbackMode {
        return;
      }
      fallbackMode := true;
      fallbackPollingInterval := Some(FallbackPollInterval);
    }

    /** The fallback polling interval fires. */
    method PollTick()
      requires Valid()
      modifies this
      ensures Valid()
      ensures actions == old(actions) + (if fallbackPollingInterval.Some? then [FetchGrid] else [])
      ensures grid == old(grid) && CurrentPolling() == old(CurrentPolling())
      ensures selection == old(selection) && CurrentView() == old(CurrentView())
      ensures lastUpdateTime == old(lastUpdateTime) && userToken == old(userToken) && hasUserData == old(hasUserData)
    {
      if fallbackPollingInterval.Some? {
        actions := actions + [FetchGrid];
      }
    }

    /** `handleWebSocketOpen` */
    method HandleWebSocketOpen()
      requires Valid()
      modifies this
      ensures Valid()
      ensures CurrentPolling() == LeaveFallback(old(CurrentPolling()))
      ensures actions == old(actions) +
        (if Truthy(userToken) then [ChannelSend(Authenticate(userToken.value, false))] else []) + [FetchGrid]
      ensures grid == old(grid) && selection == old(selection) && CurrentView() == old(CurrentView())
      ensures lastUpdateTime == old(lastUpdateTime) && userToken == old(userToken) && hasUserData == old(hasUserData)
    {
      fallbackMode := false;
      if fallbackPollingInterval.Some? {
        fallbackPollingInterval := None;
      }
      if userToken.Some? && userToken.value != "" {
        actions := actions + [ChannelSend(Authenticate(userToken.value, false))];
      }
      actions := actions + [FetchGrid];
    }

    /** `handleWebSocketClose` */
    method HandleWebSocketClose(wasClean: bool)
      requires Valid()
      modifies this
      ensures Valid()
      ensures CurrentPolling() == AfterClose(old(CurrentPolling()), wasClean)
      ensures actions == old(actions) && grid == old(grid) && selection == old(selection)
      ensures CurrentView() == old(CurrentView())
      ensures lastUpdateTime == old(lastUpdateTime) && userToken == old(userToken) && hasUserData == old(hasUserData)
    {
      if !wasClean && !fallbackMode {
        SetupFallbackMode();
      }
    }

    /** `handleWebSocketError` */
    method HandleWebSocketError()
      requires Valid()
      modifies this
      ensures Valid()
      ensures actions == old(actions) + [Notify(HandleError("websocket"))]
      ensures grid == old(grid) && CurrentPolling() == old(CurrentPolling())
      ensures selection == old(selection) && CurrentView() == old(CurrentView())
      ensures lastUpdateTime == old(lastUpdateTime) && userToken == old(userToken) && hasUserData == old(hasUserData)
    {
      actions := actions + [Notify(HandleError("websocket"))];
    }

    /** `handleWebSocketReconnect` */
    method HandleWebSocketReconnect(attempts: int)
      requires Valid()
      modifies this
      ensures Valid()
      ensures actions == old(actions) + [Notify(ShowInfo("Reconnecting... (" + IntToString(attempts) + ")", Some(2000)))]
      ensures grid == old(grid) && CurrentPolling() == old(CurrentPolling())
      ensures selection == old(selection) && CurrentView() == old(CurrentView())
      ensures lastUpdateTime == old(lastUpdateTime) && userToken == old(userToken) && hasUserData == old(hasUserData)
    {
      actions := actions + [Notify(ShowInfo("Reconnecting... (" + IntToString(attempts) + ")", Some(2000)))];
    }

    /** `handleWebSocketReconnectFailed`: tell the user and poll instead. */
    method HandleWebSocketReconnectFailed()
      requires Valid()
      modifies this
      ensures Valid() && fallbackMode
      ensures CurrentPolling() == SetupFallback(old(CurrentPolling()))
      ensures actions == old(actions) + [Notify(ShowError(FallbackText))]
      ensures grid == old(grid) && selection == old(selection) && CurrentView() == old(CurrentView())
      ensures lastUpdateTime == old(lastUpdateTime) && userToken == old(userToken) && hasUserData == old(hasUserData)
    {
      actions := actions + [Notify(ShowError(FallbackText))];
      SetupFallbackMode();
    }

    /** `handleGridData`: a missing grid is ignored; otherwise it replaces
        the replica and everything is redrawn. */
    method HandleGridData(gridData: Option<Grid>, now: int)
      requires Valid()
      modifies this
      ensures Valid()
      ensures gridData.None? ==> grid == old(grid) && actions == old(actions) && lastUpdateTime == old(lastUpdateTime)
      ensures gridData.Some? ==> (grid == gridData.value && lastUpdateTime == now &&
        actions == old(actions) + [DrawFullOffscreen, RedrawAll(CurrentView(), selection)])
      ensures selection == old(selection) && CurrentView() == old(CurrentView()) && CurrentPolling() == old(CurrentPolling())
      ensures userToken == old(userToken) && hasUserData == old(hasUserData)
    {
      if gridData.None? {
        return;
      }
      grid := gridData.value;
      lastUpdateTime := now;
      actions := actions + [DrawFullOffscreen, RedrawAll(CurrentView(), selection)];
    }

    /** `handlePixelUpdate`: one cell of the replica is written, without a
        bounds check, and the canvas is updated. */
    method HandlePixelUpdate(x: int, y: int, color: string)
      requires Valid()
      modifies this
      ensures Valid()
      ensures grid == SetCell(old(grid), x, y, color)
      ensures actions == old(actions) + [DrawPixel(x, y, color), DrawGrid(CurrentView()), DrawLiveView, DrawLiveView]
      ensures selection == old(selection) && CurrentView() == old(CurrentView()) && CurrentPolling() == old(CurrentPolling())
      ensures lastUpdateTime == old(lastUpdateTime) && userToken == old(userToken) && hasUserData == old(hasUserData)
    {
      var row := if y in grid then grid[y] else map[];
      grid := grid[y := row[x := color]];
      actions := actions + [DrawPixel(x, y, color), DrawGrid(CurrentView()), DrawLiveView, DrawLiveView];
    }

    /** `handleWebSocketMessage`: route the message to its handler; a message
        the switch does not know changes nothing. */
    method HandleWebSocketMessage(m: InboundMessage, now: int)
      requires Valid()
      modifies this
      ensures Valid()
      ensures Route(m) == NoHandler ==> grid == old(grid) && actions == old(actions)
      ensures Route(m) != PixelUpdateHandler && Route(m) != GridDataHandler ==> grid == old(grid)
      ensures !(m.GridData? && m.grid.Some?) ==> lastUpdateTime == old(lastUpdateTime)
      ensures m.GridData? && m.grid.None? ==> grid == old(grid) && actions == old(actions)
      ensures m.GridData? && m.grid.Some? ==> (grid == m.grid.value && lastUpdateTime == now &&
        actions == old(actions) + [DrawFullOffscreen, RedrawAll(CurrentView(), selection)])
      ensures m.PixelUpdate? ==> (grid == SetCell(old(grid), m.x, m.y, m.color) &&
        actions == old(actions) + [DrawPixel(m.x, m.y, m.color), DrawGrid(CurrentView()), DrawLiveView, DrawLiveView])
      ensures m.ActiveUsers? ==> actions == old(actions) + [RenderActiveUsers]
      ensures m.Announcement? ==> actions == old(actions) + [Notify(ShowInfo(m.message, Some(10000)))]
      ensures m.RateLimit? ==> actions == old(actions) + [Notify(ShowPixelError(OrDefault(m.limitMessage, RateLimitText)))]
      ensures m.ServerError? ==> actions == old(actions) + [Notify(ShowError(m.message))]
      ensures selection == old(selection) && CurrentView() == old(CurrentView()) && CurrentPolling() == old(CurrentPolling())
      ensures userToken == old(userToken) && hasUserData == old(hasUserData)
    {
      match Route(m)
      case GridDataHandler => HandleGridData(m.grid, now);
      case PixelUpdateHandler => HandlePixelUpdate(m.x, m.y, m.color);
      case ActiveUsersHandler => actions := actions + [RenderActiveUsers];
      case AnnouncementHandler => actions := actions + [Notify(ShowInfo(m.message, Some(10000)))];
      case RateLimitHandler => actions := actions + [Notify(ShowPixelError(OrDefault(m.limitMessage, RateLimitText)))];
      case ErrorNoticeHandler => actions := actions + [Notify(ShowError(m.message))];
      case NoHandler =>
    }

    /** `zoom(factor, centerX, centerY)` */
    method Zoom(factor: real, centerX: real, centerY: real)
      requires Valid()
      modifies this
      ensures Valid()
      ensures CurrentView() == ZoomedView(old(CurrentView()), factor, centerX, centerY)
      ensures scale == old(scale) ==> actions == old(actions)
      ensures scale != old(scale) ==> actions == old(actions) + [RedrawAll(CurrentView(), selection)]
      ensures grid == old(grid) && selection == old(selection) && CurrentPolling() == old(CurrentPolling())
      ensures lastUpdateTime == old(lastUpdateTime) && userToken == old(userToken) && hasUserData == old(hasUserData)
    {
      ghost var v0 := CurrentView();
      var newScale := ClampScale(scale * factor);
      if newScale != scale {
        var newX := centerX - (centerX - offsetX) * (newScale / scale);
        var newY := centerY - (centerY - offsetY) * (newScale / scale);
        assert View(newX, newY, newScale) == ZoomedView(v0, factor, centerX, centerY);
        offsetX, offsetY, scale := newX, newY, newScale;
        actions := actions + [RedrawAll(CurrentView(), selection)];
      }
    }

    /** `zoomIn`: zoom by 1.2 about the canvas centre. */
    method ZoomIn(canvasWidth: real, canvasHeight: real)
      requires Valid()
      modifies this
      ensures Valid()
      ensures CurrentView() == ZoomedView(old(CurrentView()), 1.2, canvasWidth / 2.0, canvasHeight / 2.0)
      ensures scale == old(scale) ==> actions == old(actions)
      ensures scale != old(scale) ==> actions == old(actions) + [RedrawAll(CurrentView(), selection)]
      ensures grid == old(grid) && selection == old(selection) && CurrentPolling() == old(CurrentPolling())
      ensures lastUpdateTime == old(lastUpdateTime) && userToken == old(userToken) && hasUserData == old(hasUserData)
    {
      Zoom(1.2, canvasWidth / 2.0, canvasHeight / 2.0);
    }

    /** `zoomOut`: zoom by 0.8 about the canvas centre. */
    method ZoomOut(canvasWidth: real, canvasHeight: real)
      requires Valid()
      modifies this
      ensures Valid()
      ensures CurrentView() == ZoomedView(old(CurrentView()), 0.8, canvasWidth / 2.0, canvasHeight / 2.0)
      ensures scale == old(scale) ==> actions == old(actions)
      ensures scale != old(scale) ==> actions == old(actions) + [RedrawAll(CurrentView(), selection)]
      ensures grid == old(grid) && selection == old(selection) && CurrentPolling() == old(CurrentPolling())
      ensures lastUpdateTime == old(lastUpdateTime) && userToken == old(userToken) && hasUserData == old(hasUserData)
    {
      Zoom(0.8, canvasWidth / 2.0, canvasHeight / 2.0);
    }

    /** `moveSelection(deltaX, deltaY)` */
    method MoveSelection(deltaX: int, deltaY: int)
      requires Valid()
      modifies this
      ensures Valid()
      ensures selection == MovedSelection(old(selection), deltaX, deltaY)
      ensures actions == old(actions) + [DrawHighlight(CurrentView(), selection)]
      ensures grid == old(grid) && CurrentView() == old(CurrentView()) && CurrentPolling() == old(CurrentPolling())
      ensures lastUpdateTime == old(lastUpdateTime) && userToken == old(userToken) && hasUserData == old(hasUserData)
    {
      if selection.x.None? || selection.y.None? {
        selection := Selection(Some(GridWidth / 2), Some(GridHeight / 2));
      } else {
        selection := Selection(Some(Clamp(0, GridWidth - 1, selection.x.value + deltaX)),
                               Some(Clamp(0, GridHeight - 1, selection.y.value + deltaY)));
      }
      actions := actions + [DrawHighlight(CurrentView(), selection)];
    }

    /** `placePixel(x, y, color)`; the outcome of the HTTP request is not
        part of the model. */
    method PlacePixel(x: int, y: int, color: string, connected: bool)
      modifies this
      ensures PlacementRoute(x, y, userToken, connected).Refused? ==>
        actions == old(actions) + [Notify(ShowPixelError(PlacementRoute(x, y, userToken, connected).reason))]
      ensures PlacementRoute(x, y, userToken, connected) == OverChannel ==>
        actions == old(actions) + [ChannelSend(OutboundMessage.PlacePixel(x, y, color))]
      ensures PlacementRoute(x, y, userToken, connected) == OverHttp ==>
        actions == old(actions) + [PostPixel(x, y, color)]
      ensures grid == old(grid) && selection == old(selection) && CurrentView() == old(CurrentView())
      ensures CurrentPolling() == old(CurrentPolling())
      ensures lastUpdateTime == old(lastUpdateTime) && userToken == old(userToken) && hasUserData == old(hasUserData)
    {
      if !IsValidCoordinate(PageConfig, x, y) {
        actions := actions + [Notify(ShowPixelError(InvalidCoordinatesText))];
        return;
      }
      if userToken.None? || userToken.value == "" {
        actions := actions + [Notify(ShowPixelError(LoginRequiredText))];
        return;
      }
      if connected {
        actions := actions + [ChannelSend(OutboundMessage.PlacePixel(x, y, color))];
      } else {
        actions := actions + [PostPixel(x, y, color)];
      }
    }

    /** `handleCanvasClick` at canvas point `(cx, cy)`: select the cell under
        it (always a valid cell, as the conversion clamps) and, when logged in
        with user data, place a pixel there. */
    method ClickAt(cx: real, cy: real, color: string, connected: bool)
      requires Valid()
      modifies this
      ensures Valid()
      ensures selection == Selection(Some(CanvasToGrid(PageConfig, cx, cy, CurrentView()).x),
                                     Some(CanvasToGrid(PageConfig, cx, cy, CurrentView()).y))
      ensures !(Truthy(userToken) && hasUserData) ==> actions == old(actions) + [DrawHighlight(CurrentView(), selection)]
      ensures Truthy(userToken) && hasUserData ==> actions == old(actions) + [DrawHighlight(CurrentView(), selection),
        if connected then ChannelSend(OutboundMessage.PlacePixel(selection.x.value, selection.y.value, color))
        else PostPixel(selection.x.value, selection.y.value, color)]
      ensures grid == old(grid) && CurrentView() == old(CurrentView()) && CurrentPolling() == old(CurrentPolling())
      ensures lastUpdateTime == old(lastUpdateTime) && userToken == old(userToken) && hasUserData == old(hasUserData)
    {
      var c := CanvasToGrid(PageConfig, cx, cy, CurrentView());
      CanvasToGridIsValid(PageConfig, CurrentView(), cx, cy);
      if IsValidCoordinate(PageConfig, c.x, c.y) {
        selection := Selection(Some(c.x), Some(c.y));
        actions := actions + [DrawHighlight(CurrentView(), selection)];
        if Truthy(userToken) && hasUserData {
          assert PlacementRoute(c.x, c.y, userToken, connected) == if connected then OverChannel else OverHttp;
          PlacePixel(c.x, c.y, color, connected);
        }
      }
    }
  }
}
