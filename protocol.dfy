/** The values exchanged between the pixel-canvas client's components: the
    grid, the messages of the channel in both directions, and the requests the
    client makes of its notice component. */
module Protocol {
  import opened Common

  /** The grid as the client holds it: a JavaScript array of rows, any of
      which may be missing, each row an array of colour strings, any of which
      may be missing. Row `y` is `g[y]`, cell `(x, y)` is `g[y][x]`. */
  type Grid = map<int, map<int, string>>

  /** `grid[y] && grid[y][x] !== undefined` */
  predicate CellDefined(g: Grid, x: int, y: int)
  {
    y in g && x in g[y]
  }

  /** `grid.length > 0`: some row sits at an array index. */
  predicate NonEmpty(g: Grid)
  {
    exists y | y in g :: y >= 0
  }

  /** `if (!grid[y]) grid[y] = []; grid[y][x] = color;` */
  function SetCell(g: Grid, x: int, y: int, color: string): (r: Grid)
    ensures CellDefined(r, x, y) && r[y][x] == color
    ensures forall y', x' | y' != y || x' != x ::
      CellDefined(r, x', y') == CellDefined(g, x', y') &&
      (CellDefined(g, x', y') ==> r[y'][x'] == g[y'][x'])
    ensures r.Keys == g.Keys + {y}
  {
    g[y := (if y in g then g[y] else map[])[x := color]]
  }

  /** Channel messages from the server, decoded (the `type` tag selects the
      variant; any tag the client does not know is kept as `Unrecognized`). */
  datatype InboundMessage =
    | GridData(grid: Option<Grid>)
    | PixelUpdate(x: int, y: int, color: string, username: Option<string>,
                  userId: Option<string>, timestamp: Option<int>)
    | ActiveUsers
    | Announcement(message: string)
    | RateLimit(limitMessage: Option<string>)
    | ServerError(message: string)
    | AdminResponse(success: bool, responseMessage: Option<string>)
    | Ping
    | Pong
    | Unrecognized(tag: string)

  /** One frame as the transport delivers it: a payload that parses, or one
      on which `JSON.parse` throws. */
  datatype Frame = Malformed | Decoded(message: InboundMessage)

  /** Channel messages to the server. */
  datatype OutboundMessage =
    | PingRequest
    | PongReply
    | Authenticate(token: string, asAdmin: bool)
    | PlacePixel(x: int, y: int, color: string)
    | GridUpdate(action: string, timestamp: int)
    | Broadcast(message: string, timestamp: int)
    | UserAction(action: string, userId: string, timestamp: int)

  /** A request made of the notice component (`errorHandler.showError(...)`
      and its siblings). */
  datatype Notice =
    | ShowError(message: string)
    | ShowInfo(message: string, timeout: Option<int>)
    | ShowSuccess(message: string)
    | ShowPixelError(message: string)
    | HandleError(contextType: string)
}
