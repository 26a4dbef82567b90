/** The notice component (`ErrorHandler`): toasts by id, duplicate
    suppression over a two-second window keyed by type and message, a
    ten-minute eviction of the tracking maps, and the mapping of technical
    error texts to user-friendly ones. The toast elements themselves are
    left to the page; a toast here is its bookkeeping record. `Date.now()`
    is a `now` parameter and the generated id is the `freshId`
    parameter. */
module Notices {
  import opened Common

  const DefaultTimeout := 5000
  const DuplicateWindow := 2000
  const EvictAfter := 600000
  const PixelErrorId := "pixel-error-toast"
  const PixelErrorTimeout := 3000
  const UnexpectedErrorText := "An unexpected error occurred"

  /** The bookkeeping of one toast: `timer` is the delay of its pending
      auto-dismiss, `dismissing` says `dismissToast` has run on it and its
      removal is scheduled. */
  datatype Toast = Toast(message: string, kind: string, persistent: bool,
                         timer: Option<int>, dismissing: bool, createdAt: int)
  {
    /** The toast once `dismissToast` has run on it. */
    function Dismissed(): (t: Toast)
      ensures t.timer.None? && t.dismissing
      ensures t.message == message && t.kind == kind && t.persistent == persistent && t.createdAt == createdAt
    {
      this.(timer := None, dismissing := true)
    }
  }

  /** The options object; an absent key is `None`. */
  datatype ToastOptions = ToastOptions(timeout: Option<int>, kind: Option<string>,
                                       persistent: Option<bool>, id: Option<string>)

  const NoOptions := ToastOptions(None, None, None, None)

  function First<T>(a: Option<T>, b: Option<T>): (r: Option<T>)
    ensures a.Some? ==> r == a
    ensures a.None? ==> r == b
  {
    if a.Some? then a else b
  }

  /** `{ ...base, ...opts }`: every key present in `opts` wins. */
  function Spread(base: ToastOptions, opts: ToastOptions): (r: ToastOptions)
    ensures opts.timeout.Some? ==> r.timeout == opts.timeout
    ensures opts.kind.Some? ==> r.kind == opts.kind
    ensures opts.id.Some? ==> r.id == opts.id
    ensures opts.persistent.Some? ==> r.persistent == opts.persistent
    ensures opts == NoOptions ==> r == base
  {
    ToastOptions(First(opts.timeout, base.timeout), First(opts.kind, base.kind),
                 First(opts.persistent, base.persistent), First(opts.id, base.id))
  }

  /** The options `showToast` works with once its defaults are spread under
      the caller's. */
  datatype Resolved = Resolved(timeout: int, kind: string, persistent: bool, id: string)

  function Resolve(opts: ToastOptions, defaultTimeout: int, freshId: string): (r: Resolved)
    ensures r.timeout == if opts.timeout.Some? then opts.timeout.value else defaultTimeout
    ensures r.kind == if opts.kind.Some? then opts.kind.value else "info"
    ensures r.persistent == (opts.persistent == Some(true))
    ensures r.id == OrDefault(opts.id, freshId)
  {
    Resolved(if opts.timeout.Some? then opts.timeout.value else defaultTimeout,
             if opts.kind.Some? then opts.kind.value else "info",
             opts.persistent == Some(true),
             OrDefault(opts.id, freshId))
  }

  /** `showError`, `showWarning`, `showSuccess`, `showInfo`: the type is a
      default the caller's options may override. */
  function KindOptions(kind: string, opts: ToastOptions): (r: ToastOptions)
    ensures opts.kind.None? ==> r.kind == Some(kind)
    ensures r.(kind := opts.kind) == opts
  {
    Spread(ToastOptions(None, Some(kind), None, None), opts)
  }

  /** `showPixelError`'s defaults. */
  function PixelErrorOptions(opts: ToastOptions): (r: ToastOptions)
    ensures opts == NoOptions ==> Resolve(r, DefaultTimeout, "").id == PixelErrorId
    ensures opts == NoOptions ==> Resolve(r, DefaultTimeout, "").kind == "error"
    ensures opts == NoOptions ==> Resolve(r, DefaultTimeout, "").timeout == PixelErrorTimeout
  {
    Spread(ToastOptions(Some(PixelErrorTimeout), Some("error"), None, Some(PixelErrorId)), opts)
  }

  /** The auto-dismiss `showToast` schedules: only for a non-persistent
      toast with a positive timeout. */
  function AutoDismiss(persistent: bool, timeout: int): (t: Option<int>)
    ensures t.Some? <==> !persistent && timeout > 0
    ensures t.Some? ==> t.value == timeout
  {
    if !persistent && timeout > 0 then Some(timeout) else None
  }

  /** `${type}:${message}` */
  function Key(kind: string, message: string): string
  {
    kind + ":" + message
  }

  /** `map.get(key) || 0` (a stored 0 is read as 0 either way). */
  function OrZero(m: map<string, int>, key: string): (v: int)
    ensures key in m ==> v == m[key]
    ensures key !in m ==> v == 0
  {
    if key in m then m[key] else 0
  }

  predicate Duplicate(lastErrors: map<string, int>, key: string, now: int)
  {
    now - OrZero(lastErrors, key) < DuplicateWindow
  }

  predicate Stale(timestamp: int, now: int)
  {
    now - timestamp > EvictAfter
  }

  /** The tracking maps once every stale key is gone. */
  function Evicted(last: map<string, int>, now: int): (r: map<string, int>)
    ensures forall k :: k in r <==> k in last && !Stale(last[k], now)
    ensures forall k | k in r :: r[k] == last[k]
  {
    map k | k in last && !Stale(last[k], now) :: last[k]
  }

  function EvictedCounts(counts: map<string, int>, last: map<string, int>, now: int): (r: map<string, int>)
    ensures forall k :: k in r <==> k in counts && !(k in last && Stale(last[k], now))
    ensures forall k | k in r :: r[k] == counts[k]
  {
    map k | k in counts && !(k in last && Stale(last[k], now)) :: counts[k]
  }

  /** The tracking maps part-way through `trackError`'s sweep: the keys
      still in `entries` are unvisited, the visited ones are kept exactly
      when they are fresh. */
  ghost predicate EvictedSoFar(last0: map<string, int>, counts0: map<string, int>, now: int,
                         last: map<string, int>, counts: map<string, int>, entries: set<string>)
  {
    entries <= last0.Keys && counts0.Keys == last0.Keys &&
    (forall k :: k in last <==> k in last0 && (k in entries || !Stale(last0[k], now))) &&
    (forall k | k in last :: last[k] == last0[k]) &&
    counts.Keys == last.Keys &&
    (forall k | k in counts :: counts[k] == counts0[k])
  }

  lemma EvictStart(last0: map<string, int>, counts0: map<string, int>, now: int)
    requires counts0.Keys == last0.Keys
    ensures EvictedSoFar(last0, counts0, now, last0, counts0, last0.Keys)
  {
  }

  lemma EvictOne(last0: map<string, int>, counts0: map<string, int>, now: int,
                 last: map<string, int>, counts: map<string, int>, entries: set<string>, k: string)
    requires EvictedSoFar(last0, counts0, now, last, counts, entries) && k in entries
    ensures k in last
    ensures Stale(last[k], now) ==> EvictedSoFar(last0, counts0, now, last - {k}, counts - {k}, entries - {k})
    ensures !Stale(last[k], now) ==> EvictedSoFar(last0, counts0, now, last, counts, entries - {k})
  {
  }

  lemma EvictDone(last0: map<string, int>, counts0: map<string, int>, now: int,
                  last: map<string, int>, counts: map<string, int>)
    requires EvictedSoFar(last0, counts0, now, last, counts, {})
    ensures last == Evicted(last0, now)
    ensures counts == EvictedCounts(counts0, last0, now)
  {
  }

  /** `trackError`'s effect on `lastErrors` ... */
  function TrackedLast(last: map<string, int>, key: string, now: int): (r: map<string, int>)
    ensures key in r && r[key] == now
    ensures forall k | k != key :: k in r <==> k in last && !Stale(last[k], now)
  {
    Evicted(last[key := now], now)
  }

  /** ... and on `errorCounts`. */
  function TrackedCounts(counts: map<string, int>, last: map<string, int>, key: string, now: int): (r: map<string, int>)
    ensures key in r && r[key] == OrZero(counts, key) + 1
    ensures forall k | k != key && k in r :: k in counts && r[k] == counts[k]
  {
    EvictedCounts(counts[key := OrZero(counts, key) + 1], last[key := now], now)
  }

  /** Once a key is tracked at `now`, it counts as a duplicate exactly for
      the next two seconds. */
  lemma TrackedIsDuplicate(last: map<string, int>, key: string, now: int, later: int)
    ensures Duplicate(TrackedLast(last, key, now), key, later) <==> later - now < DuplicateWindow
  {
  }

  /** Tracking one key never changes whether another, fresh key is a
      duplicate. */
  lemma TrackingOtherKey(last: map<string, int>, key: string, other: string, now: int)
    requires other != key && other in last && !Stale(last[other], now)
    ensures Duplicate(TrackedLast(last, key, now), other, now) == Duplicate(last, other, now)
  {
  }

  /** The message shown for a technical error: the table of known patterns,
      in the order listed, then the context fallbacks. */
  const FriendlyMessages: seq<(string, string)> := [
    ("NetworkError", "Connection problem. Please check your internet connection."),
    ("Failed to fetch", "Unable to connect to server. Please try again."),
    ("WebSocket connection failed", "Real-time connection lost. Attempting to reconnect..."),
    ("Canvas context not available", "Graphics initialization failed. Please refresh the page."),
    ("Authentication failed", "Login session expired. Please log in again."),
    ("Rate limited", "You are performing actions too quickly. Please slow down."),
    ("Invalid coordinates", "Invalid pixel location selected."),
    ("Color validation failed", "Invalid color selected.")
  ]

  const WebsocketFallbackText := "Connection issue detected. Attempting to reconnect..."
  const PixelFallbackText := "Failed to place pixel. Please try again."
  const AuthFallbackText := "Authentication error. Please log in again."

  /** The friendly text of the first pattern at or after `i` that `message`
      contains. */
  function FirstMatch(table: seq<(string, string)>, message: string, i: nat): (r: Option<string>)
    requires i <= |table|
    ensures r.Some? <==> exists j | i <= j < |table| :: Contains(message, table[j].0)
    ensures r.Some? ==> exists j | i <= j < |table| ::
      Contains(message, table[j].0) && r.value == table[j].1 &&
      forall k | i <= k < j :: !Contains(message, table[k].0)
    decreases |table| - i
  {
    if i == |table| then None
    else if Contains(message, table[i].0) then Some(table[i].1)
    else FirstMatch(table, message, i + 1)
  }

  /** `getUserFriendlyMessage` */
  function FriendlyMessage(message: string, contextType: Option<string>): (r: string)
    ensures FirstMatch(FriendlyMessages, message, 0).Some? ==> r == FirstMatch(FriendlyMessages, message, 0).value
    ensures FirstMatch(FriendlyMessages, message, 0).None? ==>
      r == (if contextType == Some("websocket") then WebsocketFallbackText
            else if contextType == Some("pixel") then PixelFallbackText
            else if contextType == Some("auth") then AuthFallbackText
            else message)
  {
    match FirstMatch(FriendlyMessages, message, 0)
    case Some(friendly) => friendly
    case None =>
      if contextType == Some("websocket") then WebsocketFallbackText
      else if contextType == Some("pixel") then PixelFallbackText
      else if contextType == Some("auth") then AuthFallbackText
      else message
  }

  /** Order matters: a text holding two patterns gets the earlier one's
      message. */
  lemma EarlierPatternWins(message: string, contextType: Option<string>)
    requires Contains(message, "Failed to fetch") && Contains(message, "Authentication failed")
    requires !Contains(message, "NetworkError")
    ensures FriendlyMessage(message, contextType) == "Unable to connect to server. Please try again."
  {
    assert FriendlyMessages[0].0 == "NetworkError";
    assert FriendlyMessages[1].0 == "Failed to fetch";
    assert FirstMatch(FriendlyMessages, message, 1) == Some(FriendlyMessages[1].1);
  }

  /** The value `handleError` receives. */
  datatype ErrorValue =
    | ErrorObject(message: string)
    | ResourceEvent(src: Option<string>, href: Option<string>)
    | Text(text: string)
    | OtherValue

  /** The message `handleError` derives from the error value. */
  function ErrorMessage(e: ErrorValue): (r: string)
    ensures e.ErrorObject? && e.message != "" ==> r == e.message
    ensures e.ErrorObject? && e.message == "" ==> r == UnexpectedErrorText
    ensures e.ResourceEvent? ==> StartsWith(r, "Failed to load resource: ")
    ensures e.Text? ==> r == e.text
    ensures e.OtherValue? ==> r == UnexpectedErrorText
  {
    match e
    case ErrorObject(m) => OrDefault(Some(m), UnexpectedErrorText)
    case ResourceEvent(src, href) =>
      "Failed to load resource: " + OrDefault(src, OrDefault(href, "unknown"))
    case Text(t) => t
    case OtherValue => UnexpectedErrorText
  }

  /** The context object of `handleError`. */
  datatype Context = Context(contextType: Option<string>, showToUser: Option<bool>, timeout: Option<int>)

  /** `context.showToUser !== false` */
  predicate ShowsToUser(c: Context)
  {
    c.showToUser != Some(false)
  }

  /** `context.timeout || defaultTimeout` */
  function ContextTimeout(c: Context, defaultTimeout: int): (t: int)
    ensures c.timeout.Some? && c.timeout.value != 0 ==> t == c.timeout.value
    ensures c.timeout.None? || c.timeout.value == 0 ==> t == defaultTimeout
  {
    if c.timeout.Some? && c.timeout.value != 0 then c.timeout.value else defaultTimeout
  }

  /** The state part-way through `dismissAll`: the ids in `done` are
      dismissed and queued for removal, the ids in `remaining` untouched. */
  predicate DismissedSoFar(toasts0: map<string, Toast>, pending0: multiset<string>,
                           toasts: map<string, Toast>, pending: multiset<string>,
                           done: set<string>, remaining: set<string>)
  {
    done <= toasts0.Keys && remaining == toasts0.Keys - done &&
    toasts.Keys == toasts0.Keys &&
    (forall k | k in toasts :: toasts[k] == if k in done then toasts0[k].Dismissed() else toasts0[k]) &&
    pending == pending0 + multiset(done)
  }

  lemma DismissOneMore(toasts0: map<string, Toast>, pending0: multiset<string>,
                       toasts: map<string, Toast>, pending: multiset<string>,
                       done: set<string>, remaining: set<string>, id: string)
    requires DismissedSoFar(toasts0, pending0, toasts, pending, done, remaining) && id in remaining
    ensures id in toasts
    ensures DismissedSoFar(toasts0, pending0, toasts[id := toasts[id].Dismissed()], pending + multiset{id},
                           done + {id}, remaining - {id})
  {
  }

  lemma DismissedAll(toasts0: map<string, Toast>, pending0: multiset<string>,
                     toasts: map<string, Toast>, pending: multiset<string>, done: set<string>)
    requires DismissedSoFar(toasts0, pending0, toasts, pending, done, {})
    ensures toasts.Keys == toasts0.Keys
    ensures forall id | id in toasts :: toasts[id] == toasts0[id].Dismissed()
    ensures pending == pending0 + multiset(toasts0.Keys)
  {
    forall k | k in toasts0.Keys
      ensures k in done
    {
      assert k !in toasts0.Keys - done;
    }
    assert done == toasts0.Keys;
  }

  /** What `showToast` with resolved options `o` does to the handler's maps:
      a duplicate changes nothing; otherwise the toast is stored under `o.id`
      (a toast already holding the id is dismissed first, so one removal is
      scheduled for it), with its auto-dismiss, and the key is tracked. */
  predicate ToastShown(toasts0: map<string, Toast>, pending0: multiset<string>,
                       last0: map<string, int>, counts0: map<string, int>,
                       toasts: map<string, Toast>, pending: multiset<string>,
                       last: map<string, int>, counts: map<string, int>,
                       message: string, o: Resolved, now: int)
  {
    if Duplicate(last0, Key(o.kind, message), now) then
      toasts == toasts0 && pending == pending0 && last == last0 && counts == counts0
    else
      toasts == toasts0[o.id := Toast(message, o.kind, o.persistent, AutoDismiss(o.persistent, o.timeout), false, now)] &&
      pending == pending0 + (if o.id in toasts0 then multiset{o.id} else multiset{}) &&
      last == TrackedLast(last0, Key(o.kind, message), now) &&
      counts == TrackedCounts(counts0, last0, Key(o.kind, message), now)
  }

  class ErrorHandler {
    const defaultTimeout: int
    var toasts: map<string, Toast>
    var errorCounts: map<string, int>
    var lastErrors: map<string, int>
    var pendingRemovals: multiset<string>

    /** The two tracking maps always hold the same keys. */
    ghost predicate Valid()
      reads this
    {
      errorCounts.Keys == lastErrors.Keys
    }

    constructor (timeout: Option<int>)
      ensures Valid()
      ensures defaultTimeout == if timeout.Some? then timeout.value else DefaultTimeout
      ensures toasts == map[] && errorCounts == map[] && lastErrors == map[] && pendingRemovals == multiset{}
    {
      defaultTimeout := if timeout.Some? then timeout.value else DefaultTimeout;
      toasts := map[];
      errorCounts := map[];
      lastErrors := map[];
      pendingRemovals := multiset{};
    }

    /** `isDuplicateError(message, type)` */
    method IsDuplicateError(message: string, kind: string, now: int) returns (b: bool)
      ensures b <==> now - OrZero(lastErrors, Key(kind, message)) < DuplicateWindow
    {
      var key := Key(kind, message);
      var lastTime := if key in lastErrors then lastErrors[key] else 0;
      b := now - lastTime < DuplicateWindow;
    }

    /** `trackError(message, type)`: stamp and count the key, then drop every
        entry older than ten minutes from both maps. */
    method TrackError(message: string, kind: string, now: int)
      requires Valid()
      modifies this
      ensures Valid()
      ensures lastErrors == TrackedLast(old(lastErrors), Key(kind, message), now)
      ensures errorCounts == TrackedCounts(old(errorCounts), old(lastErrors), Key(kind, message), now)
      ensures toasts == old(toasts) && pendingRemovals == old(pendingRemovals)
    {
      var key := Key(kind, message);
      lastErrors := lastErrors[key := now];
      errorCounts := errorCounts[key := (if key in errorCounts then errorCounts[key] else 0) + 1];
      ghost var last0 := lastErrors;
      ghost var counts0 := errorCounts;
      var entries := lastErrors.Keys;
      EvictStart(last0, counts0, now);
      while entries != {}
        invariant EvictedSoFar(last0, counts0, now, lastErrors, errorCounts, entries)
        invariant toasts == old(toasts) && pendingRemovals == old(pendingRemovals)
        decreases |entries|
      {
        var k :| k in entries;
        EvictOne(last0, counts0, now, lastErrors, errorCounts, entries, k);
        if now - lastErrors[k] > EvictAfter {
          lastErrors := lastErrors - {k};
          errorCounts := errorCounts - {k};
        }
        entries := entries - {k};
      }
      EvictDone(last0, counts0, now, lastErrors, errorCounts);
    }

    /** `dismissToast(id)`: cancel its auto-dismiss and schedule its removal;
        an unknown id is ignored. */
    method DismissToast(id: string)
      modifies this
      ensures id !in old(toasts) ==> toasts == old(toasts) && pendingRemovals == old(pendingRemovals)
      ensures id in old(toasts) ==>
        toasts == old(toasts)[id := old(toasts)[id].Dismissed()] &&
        pendingRemovals == old(pendingRemovals) + multiset{id}
      ensures errorCounts == old(errorCounts) && lastErrors == old(lastErrors)
    {
      if id !in toasts {
        return;
      }
      toasts := toasts[id := toasts[id].Dismissed()];
      pendingRemovals := pendingRemovals + multiset{id};
    }

    /** The removal `dismissToast` scheduled runs 300 ms later: it deletes
        whatever toast holds the id by then, a replacement included. */
    method FinishDismiss(id: string)
      requires id in pendingRemovals
      modifies this
      ensures pendingRemovals == old(pendingRemovals) - multiset{id}
      ensures toasts == old(toasts) - {id}
      ensures errorCounts == old(errorCounts) && lastErrors == old(lastErrors)
    {
      pendingRemovals := pendingRemovals - multiset{id};
      toasts := toasts - {id};
    }

    /** A toast's auto-dismiss timer fires. */
    method AutoDismissFires(id: string)
      requires id in toasts && toasts[id].timer.Some?
      modifies this
      ensures toasts == old(toasts)[id := old(toasts)[id].Dismissed()]
      ensures pendingRemovals == old(pendingRemovals) + multiset{id}
      ensures errorCounts == old(errorCounts) && lastErrors == old(lastErrors)
    {
      DismissToast(id);
    }

    /** `dismissAll` */
    method DismissAll()
      modifies this
      ensures toasts.Keys == old(toasts).Keys
      ensures forall id | id in toasts :: toasts[id] == old(toasts)[id].Dismissed()
      ensures pendingRemovals == old(pendingRemovals) + multiset(old(toasts).Keys)
      ensures errorCounts == old(errorCounts) && lastErrors == old(lastErrors)
    {
      ghost var toasts0 := toasts;
      ghost var pending0 := pendingRemovals;
      ghost var done: set<string> := {};
      var remaining := toasts.Keys;
      while remaining != {}
        invariant DismissedSoFar(toasts0, pending0, toasts, pendingRemovals, done, remaining)
        invariant errorCounts == old(errorCounts) && lastErrors == old(lastErrors)
        decreases |remaining|
      {
        var id :| id in remaining;
        DismissOneMore(toasts0, pending0, toasts, pendingRemovals, done, remaining, id);
        DismissToast(id);
        done := done + {id};
        remaining := remaining - {id};
      }
      DismissedAll(toasts0, pending0, toasts, pendingRemovals, done);
    }

    /** `showToast(message, options)`: a duplicate within the window only
        returns the id; otherwise a toast with the same id is dismissed, the
        new one is stored, its auto-dismiss scheduled, and the key tracked. */
    method ShowToast(message: string, opts: ToastOptions, now: int, freshId: string) returns (id: string)
      requires Valid()
      modifies this
      ensures Valid()
      ensures id == Resolve(opts, defaultTimeout, freshId).id
      ensures ToastShown(old(toasts), old(pendingRemovals), old(lastErrors), old(errorCounts),
                         toasts, pendingRemovals, lastErrors, errorCounts,
                         message, Resolve(opts, defaultTimeout, freshId), now)
    {
      var o := Resolve(opts, defaultTimeout, freshId);
      id := o.id;
      var duplicate := IsDuplicateError(message, o.kind, now);
      if duplicate {
        return;
      }
      ghost var toasts0, pending0 := toasts, pendingRemovals;
      if id in toasts {
        DismissToast(id);
      }
      assert pendingRemovals == pending0 + (if id in toasts0 then multiset{id} else multiset{});
      var timer := if !o.persistent && o.timeout > 0 then Some(o.timeout) else None;
      assert timer == AutoDismiss(o.persistent, o.timeout);
      toasts := toasts[id := Toast(message, o.kind, o.persistent, timer, false, now)];
      assert toasts == toasts0[id := Toast(message, o.kind, o.persistent, timer, false, now)];
      TrackError(message, o.kind, now);
    }

    method ShowError(message: string, opts: ToastOptions, now: int, freshId: string) returns (id: string)
      requires Valid()
      modifies this
      ensures Valid()
      ensures id == Resolve(KindOptions("error", opts), defaultTimeout, freshId).id
      ensures ToastShown(old(toasts), old(pendingRemovals), old(lastErrors), old(errorCounts),
                         toasts, pendingRemovals, lastErrors, errorCounts,
                         message, Resolve(KindOptions("error", opts), defaultTimeout, freshId), now)
      ensures opts == NoOptions && !Duplicate(old(lastErrors), Key("error", message), now) ==>
        id == freshId && toasts[id] == Toast(message, "error", false, AutoDismiss(false, defaultTimeout), false, now)
    {
      id := ShowToast(message, KindOptions("error", opts), now, freshId);
    }

    method ShowInfo(message: string, opts: ToastOptions, now: int, freshId: string) returns (id: string)
      requires Valid()
      modifies this
      ensures Valid()
      ensures id == Resolve(KindOptions("info", opts), defaultTimeout, freshId).id
      ensures ToastShown(old(toasts), old(pendingRemovals), old(lastErrors), old(errorCounts),
                         toasts, pendingRemovals, lastErrors, errorCounts,
                         message, Resolve(KindOptions("info", opts), defaultTimeout, freshId), now)
      ensures opts == NoOptions && !Duplicate(old(lastErrors), Key("info", message), now) ==>
        id == freshId && toasts[id] == Toast(message, "info", false, AutoDismiss(false, defaultTimeout), false, now)
    {
      id := ShowToast(message, KindOptions("info", opts), now, freshId);
    }

    method ShowWarning(message: string, opts: ToastOptions, now: int, freshId: string) returns (id: string)
      requires Valid()
      modifies this
      ensures Valid()
      ensures id == Resolve(KindOptions("warning", opts), defaultTimeout, freshId).id
      ensures ToastShown(old(toasts), old(pendingRemovals), old(lastErrors), old(errorCounts),
                         toasts, pendingRemovals, lastErrors, errorCounts,
                         message, Resolve(KindOptions("warning", opts), defaultTimeout, freshId), now)
      ensures opts == NoOptions && !Duplicate(old(lastErrors), Key("warning", message), now) ==>
        id == freshId && toasts[id] == Toast(message, "warning", false, AutoDismiss(false, defaultTimeout), false, now)
    {
      id := ShowToast(message, KindOptions("warning", opts), now, freshId);
    }

    method ShowSuccess(message: string, opts: ToastOptions, now: int, freshId: string) returns (id: string)
      requires Valid()
      modifies this
      ensures Valid()
      ensures id == Resolve(KindOptions("success", opts), defaultTimeout, freshId).id
      ensures ToastShown(old(toasts), old(pendingRemovals), old(lastErrors), old(errorCounts),
                         toasts, pendingRemovals, lastErrors, errorCounts,
                         message, Resolve(KindOptions("success", opts), defaultTimeout, freshId), now)
      ensures opts == NoOptions && !Duplicate(old(lastErrors), Key("success", message), now) ==>
        id == freshId && toasts[id] == Toast(message, "success", false, AutoDismiss(false, defaultTimeout), false, now)
    {
      id := ShowToast(message, KindOptions("success", opts), now, freshId);
    }

    /** `showPixelError(message, options)`: one shared id, so a new pixel
        error replaces the previous one. */
    method ShowPixelError(message: string, opts: ToastOptions, now: int, freshId: string) returns (id: string)
      requires Valid()
      modifies this
      ensures Valid()
      ensures opts == NoOptions ==> id == PixelErrorId
      ensures id == Resolve(PixelErrorOptions(opts), defaultTimeout, freshId).id
      ensures ToastShown(old(toasts), old(pendingRemovals), old(lastErrors), old(errorCounts),
                         toasts, pendingRemovals, lastErrors, errorCounts,
                         message, Resolve(PixelErrorOptions(opts), defaultTimeout, freshId), now)
      ensures opts == NoOptions && !Duplicate(old(lastErrors), Key("error", message), now) ==>
        toasts[PixelErrorId] == Toast(message, "error", false, Some(PixelErrorTimeout), false, now)
    {
      id := ShowToast(message, PixelErrorOptions(opts), now, freshId);
    }

    /** The scan of a pattern table in order that `getUserFriendlyMessage`
        starts with. */
    static method ScanPatterns(table: seq<(string, string)>, message: string) returns (r: Option<string>)
      ensures r == FirstMatch(table, message, 0)
    {
      var i := 0;
      while i < |table|
        invariant 0 <= i <= |table|
        invariant FirstMatch(table, message, 0) == FirstMatch(table, message, i)
      {
        if Contains(message, table[i].0) {
          return Some(table[i].1);
        }
        i := i + 1;
      }
      return None;
    }

    /** `getUserFriendlyMessage`: the first matching pattern, else the
        context's fallback, else the message itself. */
    method GetUserFriendlyMessage(message: string, contextType: Option<string>) returns (r: string)
      ensures r == FriendlyMessage(message, contextType)
    {
      var found := ScanPatterns(FriendlyMessages, message);
      if found.Some? {
        return found.value;
      }
      if contextType == Some("websocket") {
        return WebsocketFallbackText;
      }
      if contextType == Some("pixel") {
        return PixelFallbackText;
      }
      if contextType == Some("auth") {
        return AuthFallbackText;
      }
      return message;
    }

    /** `handleError(error, context)`: show the friendly message as an error
        toast unless the context says not to. */
    method HandleError(error: ErrorValue, context: Context, now: int, freshId: string)
      requires Valid()
      modifies this
      ensures Valid()
      ensures !ShowsToUser(context) ==>
        toasts == old(toasts) && lastErrors == old(lastErrors) &&
        errorCounts == old(errorCounts) && pendingRemovals == old(pendingRemovals)
      ensures ShowsToUser(context) ==>
        ToastShown(old(toasts), old(pendingRemovals), old(lastErrors), old(errorCounts),
                   toasts, pendingRemovals, lastErrors, errorCounts,
                   FriendlyMessage(ErrorMessage(error), context.contextType),
                   Resolved(ContextTimeout(context, defaultTimeout), "error", false, freshId), now)
    {
      var message := ErrorMessage(error);
      if context.showToUser != Some(false) {
        var friendly := GetUserFriendlyMessage(message, context.contextType);
        var opts := KindOptions("error", ToastOptions(Some(ContextTimeout(context, defaultTimeout)), None, None, None));
        assert Resolve(opts, defaultTimeout, freshId) ==
          Resolved(ContextTimeout(context, defaultTimeout), "error", false, freshId);
        var _ := ShowToast(friendly, opts, now, freshId);
      }
    }

    /** `clearStats`: forget the tracking, keep the toasts. */
    method ClearStats()
      modifies this
      ensures Valid()
      ensures errorCounts == map[] && lastErrors == map[]
      ensures toasts == old(toasts) && pendingRemovals == old(pendingRemovals)
    {
      errorCounts := map[];
      lastErrors := map[];
    }
  }
}
