/** The push-channel manager (`useLeaderboardSSE`): one server-sent-events
    stream per mounted view, a single reconnect timer, and the cache writes each
    pushed snapshot causes.

    The state is modelled twice, as the source's own mutable refs in the class
    `LeaderboardStream` and as the value `ChannelState` that specifies it; every
    method of the class is proved to perform exactly one step of `Step`.

    Event-stream handles (`EventSource` objects) are identified by the order in
    which they were created: `handles[i]` is the `readyState` of the i-th one.
    The transport follows the EventSource interface of the WHATWG HTML Living
    Standard, section 9.2 (Server-sent events): a closed source delivers no
    further events, `open` fires only on a connecting source, and `message`
    only on an open one. */
module LeaderboardSSE {
  import opened Types
  import opened Text
  import QueryCache

  /** Delay before a reconnect attempt, in milliseconds. */
  const ReconnectDelayMs: nat := 3000
  const ConnectionLostMessage: string := "Connection lost. Reconnecting..."
  const StreamPath: string := "/api/sse/leaderboard"

  // ---------------------------------------------------------------------------
  // Stream URL

  /** `SSE_URL`: the configured API URL with its first "/api" removed; the
      empty string when no URL is configured (`?.` then `|| ''`; a non-empty
      result is kept, and an empty one is the empty string either way). */
  function SseBase(apiUrl: Option<string>): (base: string)
    ensures apiUrl.None? ==> base == ""
    ensures apiUrl.Some? && IndexOf(apiUrl.value, "/api", 0).None? ==> base == apiUrl.value
    ensures apiUrl.Some? && IndexOf(apiUrl.value, "/api", 0).Some? ==>
      var i := IndexOf(apiUrl.value, "/api", 0).value;
      i + 4 <= |apiUrl.value| && base == apiUrl.value[..i] + apiUrl.value[i + 4..]
  {
    match apiUrl
    case None => ""
    case Some(u) => ReplaceFirst(u, "/api", "")
  }

  /** The URL every `EventSource` is opened on. */
  function StreamUrl(apiUrl: Option<string>): (url: string)
    ensures |url| >= |StreamPath| && url[|url| - |StreamPath|..] == StreamPath
  {
    SseBase(apiUrl) + StreamPath
  }

  /** With no URL configured the stream is opened on the bare path. */
  lemma StreamUrlUnset()
    ensures StreamUrl(None) == StreamPath
  {
  }

  /** The first "/api" of the configured URL is dropped, and only that one. */
  lemma StreamUrlDropsFirstApi(h: string, t: string)
    requires forall j :: 0 <= j < |h| ==> !OccursAt(h + "/api" + t, "/api", j)
    ensures StreamUrl(Some(h + "/api" + t)) == h + t + StreamPath
  {
    DropFirst(h, "/api", t);
  }

  /** A URL without "/api" is used as it is. */
  lemma StreamUrlWithoutApi(u: string)
    requires forall j :: !OccursAt(u, "/api", j)
    ensures StreamUrl(Some(u)) == u + StreamPath
  {
  }

  // ---------------------------------------------------------------------------
  // The state machine, as values

  /** `EventSource.readyState`. */
  datatype ReadyState = Connecting | Open | Closed

  /** A call the hook makes to its caller. */
  datatype Callback = ConnectionChanged(connected: bool) | ErrorReported(message: string)

  /** The hook's options: `enabled` (default true) and which callbacks were supplied. */
  datatype Options = Options(enabled: bool, hasOnConnectionChange: bool, hasOnError: bool)

  datatype ChannelState = ChannelState(
    handles: seq<ReadyState>,      // every EventSource created so far
    current: Option<nat>,          // eventSourceRef.current
    timerRef: Option<nat>,         // reconnectTimeoutRef.current
    pendingTimers: set<nat>,       // timers the host will still fire
    nextTimer: nat,                // id the host gives the next timer
    cache: map<string, Snapshot>,  // the query cache's data
    invalidated: set<string>,      // the query cache's invalidated keys
    log: seq<Callback>)            // callbacks made, in order

  /** One of the six things that can happen to the hook. */
  datatype Event =
    | Connect                                    // mount, or the returned `reconnect`
    | Opened(h: nat)                             // `onopen` of handle h
    | Message(h: nat, parsed: Option<Snapshot>)  // `onmessage`; None when the payload is dropped
    | Errored(h: nat)                            // `onerror` of handle h
    | TimerFired(t: nat)                         // the host runs timer t
    | Teardown                                   // the effect's cleanup

  function TimersOf(timerRef: Option<nat>): set<nat> {
    match timerRef
    case None => {}
    case Some(t) => {t}
  }

  /** The hook's invariant: the ref never holds a closed or unknown handle, and
      the host's pending timers are exactly the one the ref holds, if any. */
  predicate Inv(st: ChannelState) {
    && (st.current.Some? ==> st.current.value < |st.handles| && st.handles[st.current.value] != Closed)
    && st.pendingTimers == TimersOf(st.timerRef)
  }

  function Initial(cache: map<string, Snapshot>, invalidated: set<string>): (st: ChannelState)
    ensures Inv(st) && st.handles == [] && st.current.None? && st.pendingTimers == {} && st.log == []
  {
    ChannelState([], None, None, {}, 1, cache, invalidated, [])
  }

  /** `onConnectionChange?.(c)`. */
  function ConnectionCallback(o: Options, c: bool): seq<Callback> {
    if o.hasOnConnectionChange then [ConnectionChanged(c)] else []
  }

  /** `onError?.(message)`. */
  function ErrorCallback(o: Options, message: string): seq<Callback> {
    if o.hasOnError then [ErrorReported(message)] else []
  }

  predicate IsLive(st: ChannelState, h: nat) {
    h < |st.handles| && st.handles[h] != Closed
  }

  predicate CurrentIsOpen(st: ChannelState) {
    st.current.Some? && st.current.value < |st.handles| && st.handles[st.current.value] == Open
  }

  /** `connect`: nothing when disabled or when the current handle is open;
      otherwise a new connecting handle becomes current. A connecting handle
      that was current is left as it is, not closed. */
  function ConnectStep(o: Options, st: ChannelState): (r: ChannelState)
    requires Inv(st)
    ensures Inv(r)
    ensures !o.enabled || CurrentIsOpen(st) ==> r == st
    ensures o.enabled && !CurrentIsOpen(st) ==>
      && |r.handles| == |st.handles| + 1
      && r.handles[..|st.handles|] == st.handles
      && r.handles[|st.handles|] == Connecting
      && r.current == Some(|st.handles|)
      && r == st.(handles := r.handles, current := r.current)
  {
    if !o.enabled then st
    else if CurrentIsOpen(st) then st
    else st.(handles := st.handles + [Connecting], current := Some(|st.handles|))
  }

  /** `onopen`: report the connection and cancel the pending reconnect. */
  function OpenedStep(o: Options, st: ChannelState, h: nat): (r: ChannelState)
    requires Inv(st)
    ensures Inv(r)
    ensures !(h < |st.handles| && st.handles[h] == Connecting) ==> r == st
    ensures h < |st.handles| && st.handles[h] == Connecting ==>
      && r.handles == st.handles[h := Open]
      && r.log == st.log + ConnectionCallback(o, true)
      && r.timerRef.None? && r.pendingTimers == {}
      && r.current == st.current && r.cache == st.cache && r.invalidated == st.invalidated
  {
    if h < |st.handles| && st.handles[h] == Connecting then
      st.(handles := st.handles[h := Open],
          log := st.log + ConnectionCallback(o, true),
          pendingTimers := st.pendingTimers - TimersOf(st.timerRef),
          timerRef := None)
    else st
  }

  /** `onmessage`: a payload that parses replaces the leaderboard slot and
      invalidates the team queries; one that does not is dropped. */
  function MessageStep(st: ChannelState, h: nat, parsed: Option<Snapshot>): (r: ChannelState)
    requires Inv(st)
    ensures Inv(r)
    ensures r.handles == st.handles && r.current == st.current && r.timerRef == st.timerRef
    ensures r.pendingTimers == st.pendingTimers && r.log == st.log
    ensures parsed.None? ==> r == st
    ensures parsed.Some? && h < |st.handles| && st.handles[h] == Open ==>
      && r.cache.Keys == st.cache.Keys + {QueryCache.LeaderboardKey}
      && r.cache[QueryCache.LeaderboardKey] == parsed.value
      && (forall k :: k in st.cache && k != QueryCache.LeaderboardKey ==> r.cache[k] == st.cache[k])
      && r.invalidated == st.invalidated + {QueryCache.TeamsKey}
  {
    if h < |st.handles| && st.handles[h] == Open && parsed.Some? then
      st.(cache := st.cache[QueryCache.LeaderboardKey := parsed.value],
          invalidated := st.invalidated + {QueryCache.TeamsKey})
    else st
  }

  /** `onerror`: report the loss, close the handle, clear the ref (whichever
      handle it holds) and schedule a reconnect unless one is pending. */
  function ErroredStep(o: Options, st: ChannelState, h: nat): (r: ChannelState)
    requires Inv(st)
    ensures Inv(r)
    ensures !IsLive(st, h) ==> r == st
    ensures IsLive(st, h) ==>
      && r.log == st.log + ConnectionCallback(o, false) + ErrorCallback(o, ConnectionLostMessage)
      && r.handles == st.handles[h := Closed]
      && r.current.None?
      && r.timerRef.Some? && |r.pendingTimers| == 1
      && (st.timerRef.Some? ==> r.timerRef == st.timerRef)
      && r.cache == st.cache && r.invalidated == st.invalidated
  {
    if IsLive(st, h) then
      var closed := st.(log := st.log + ConnectionCallback(o, false) + ErrorCallback(o, ConnectionLostMessage),
                        handles := st.handles[h := Closed],
                        current := None);
      if closed.timerRef.None? then
        closed.(timerRef := Some(closed.nextTimer),
                pendingTimers := closed.pendingTimers + {closed.nextTimer},
                nextTimer := closed.nextTimer + 1)
      else closed
    else st
  }

  /** The reconnect timer fires: clear the ref, then `connect`. A timer that
      was cancelled never fires. */
  function TimerFiredStep(o: Options, st: ChannelState, t: nat): (r: ChannelState)
    requires Inv(st)
    ensures Inv(r)
    ensures t !in st.pendingTimers ==> r == st
    ensures t in st.pendingTimers ==>
      r == ConnectStep(o, st.(timerRef := None, pendingTimers := {}))
  {
    if t in st.pendingTimers then
      ConnectStep(o, st.(pendingTimers := st.pendingTimers - {t}, timerRef := None))
    else st
  }

  /** The effect's cleanup: cancel the pending timer and close the current handle. */
  function TeardownStep(st: ChannelState): (r: ChannelState)
    requires Inv(st)
    ensures Inv(r)
    ensures r.current.None? && r.timerRef.None? && r.pendingTimers == {}
    ensures |r.handles| == |st.handles|
    ensures forall i :: 0 <= i < |st.handles| && Some(i) != st.current ==> r.handles[i] == st.handles[i]
    ensures st.current.Some? ==> r.handles[st.current.value] == Closed
    ensures r.log == st.log && r.cache == st.cache && r.invalidated == st.invalidated
  {
    var untimed := st.(pendingTimers := st.pendingTimers - TimersOf(st.timerRef), timerRef := None);
    match untimed.current
    case None => untimed
    case Some(c) => untimed.(handles := untimed.handles[c := Closed], current := None)
  }

  function Step(o: Options, st: ChannelState, e: Event): (r: ChannelState)
    requires Inv(st)
    ensures Inv(r)
  {
    match e
    case Connect => ConnectStep(o, st)
    case Opened(h) => OpenedStep(o, st, h)
    case Message(h, parsed) => MessageStep(st, h, parsed)
    case Errored(h) => ErroredStep(o, st, h)
    case TimerFired(t) => TimerFiredStep(o, st, t)
    case Teardown => TeardownStep(st)
  }

  /** The state after a sequence of events; the invariant holds throughout. */
  function Run(o: Options, st: ChannelState, events: seq<Event>): (r: ChannelState)
    requires Inv(st)
    ensures Inv(r)
    decreases |events|
  {
    if events == [] then st else Run(o, Step(o, st, events[0]), events[1..])
  }

  // ---------------------------------------------------------------------------
  // Properties

  /** At most one reconnect timer is ever pending, whatever happens. */
  lemma AtMostOneTimer(o: Options, st: ChannelState, events: seq<Event>)
    requires Inv(st)
    ensures |Run(o, st, events).pendingTimers| <= 1
    ensures Run(o, st, events).pendingTimers == TimersOf(Run(o, st, events).timerRef)
  {
    var r := Run(o, st, events);
    assert r.pendingTimers == TimersOf(r.timerRef);
  }

  /** Handles are only ever added, and a closed handle stays closed. */
  lemma {:induction false} ClosedStaysClosed(o: Options, st: ChannelState, events: seq<Event>, i: nat)
    requires Inv(st)
    requires i < |st.handles| && st.handles[i] == Closed
    ensures i < |Run(o, st, events).handles| && Run(o, st, events).handles[i] == Closed
    decreases |events|
  {
    if events != [] {
      var next := Step(o, st, events[0]);
      StepKeepsClosed(o, st, events[0], i);
      ClosedStaysClosed(o, next, events[1..], i);
    }
  }

  lemma StepKeepsClosed(o: Options, st: ChannelState, e: Event, i: nat)
    requires Inv(st)
    requires i < |st.handles| && st.handles[i] == Closed
    ensures i < |Step(o, st, e).handles| && Step(o, st, e).handles[i] == Closed
  {
    match e
    case Connect =>
      assert Step(o, st, e).handles[..|st.handles|] == st.handles;
    case TimerFired(t) =>
      var r := Step(o, st, e);
      assert r.handles == st.handles || r.handles[..|st.handles|] == st.handles;
    case _ =>
  }

  /** Callbacks already made are never retracted: the log only grows. */
  lemma {:induction false} LogOnlyGrows(o: Options, st: ChannelState, events: seq<Event>)
    requires Inv(st)
    ensures |st.log| <= |Run(o, st, events).log|
    ensures Run(o, st, events).log[..|st.log|] == st.log
    decreases |events|
  {
    if events != [] {
      var next := Step(o, st, events[0]);
      assert next.log[..|st.log|] == st.log;
      LogOnlyGrows(o, next, events[1..]);
      assert Run(o, st, events).log[..|next.log|] == next.log;
      assert Run(o, st, events).log[..|st.log|] == next.log[..|st.log|];
    }
  }

  /** A disabled hook never opens a stream. */
  lemma {:induction false} DisabledNeverConnects(o: Options, st: ChannelState, events: seq<Event>)
    requires Inv(st) && !o.enabled
    ensures |Run(o, st, events).handles| == |st.handles|
    decreases |events|
  {
    if events != [] {
      DisabledNeverConnects(o, Step(o, st, events[0]), events[1..]);
    }
  }

  /** A predicate over events: the event can write the leaderboard slot. */
  predicate DeliversSnapshot(e: Event) {
    e.Message? && e.parsed.Some?
  }

  /** Only a snapshot that parsed changes the cache; connection events never do. */
  lemma {:induction false} CacheOnlyWrittenByMessages(o: Options, st: ChannelState, events: seq<Event>)
    requires Inv(st)
    requires forall k :: 0 <= k < |events| ==> !DeliversSnapshot(events[k])
    ensures Run(o, st, events).cache == st.cache
    ensures Run(o, st, events).invalidated == st.invalidated
    decreases |events|
  {
    if events != [] {
      assert !DeliversSnapshot(events[0]);
      assert forall k :: 0 <= k < |events[1..]| ==> !DeliversSnapshot(events[1..][k]) by {
        forall k | 0 <= k < |events[1..]| ensures !DeliversSnapshot(events[1..][k]) {
          assert events[1..][k] == events[k + 1];
        }
      }
      CacheOnlyWrittenByMessages(o, Step(o, st, events[0]), events[1..]);
    }
  }

  /** `connect` while the current stream is open changes nothing, however often it is called. */
  lemma {:induction false} ConnectIdempotentWhenOpen(o: Options, st: ChannelState, n: nat)
    requires Inv(st) && CurrentIsOpen(st)
    ensures Run(o, st, seq(n, _ => Connect)) == st
    decreases n
  {
    if n > 0 {
      assert seq(n, _ => Connect)[1..] == seq(n - 1, _ => Connect);
      ConnectIdempotentWhenOpen(o, st, n - 1);
    }
  }

  /** `connect` while the current stream is still connecting opens a second
      stream and leaves the first one live but no longer referenced. */
  lemma ConnectWhileConnectingLeavesFirstLive(o: Options, st: ChannelState)
    requires Inv(st) && o.enabled && st.current.None?
    ensures var r := Step(o, Step(o, st, Connect), Connect);
      && r.handles == st.handles + [Connecting, Connecting]
      && r.current == Some(|st.handles| + 1)
  {
    var s1 := Step(o, st, Connect);
    assert s1.current == Some(|st.handles|) && s1.handles == st.handles + [Connecting];
    assert !CurrentIsOpen(s1);
    var s2 := Step(o, s1, Connect);
    assert s2.handles == s1.handles + [Connecting];
  }

  /** An error on a stream the ref no longer holds still clears the ref: the
      newer stream stays live, and the cleanup then cannot close it. */
  lemma StaleErrorOrphansNewerStream(o: Options, st: ChannelState)
    requires Inv(st) && o.enabled && st.current.None?
    ensures var first := |st.handles|;
      var r := Step(o, Step(o, Step(o, Step(o, st, Connect), Connect), Errored(first)), Teardown);
      && r.handles == st.handles + [Closed, Connecting]
      && r.current.None? && r.pendingTimers == {}
  {
    var first := |st.handles|;
    ConnectWhileConnectingLeavesFirstLive(o, st);
    var s2 := Step(o, Step(o, st, Connect), Connect);
    var s3 := Step(o, s2, Errored(first));
    assert IsLive(s2, first);
    assert s3.handles == st.handles + [Closed, Connecting];
    assert s3.current.None?;
  }

  /** `onopen` makes the connected callback exactly once and leaves no timer pending. */
  lemma OpenReportsOnce(o: Options, st: ChannelState, h: nat)
    requires Inv(st) && o.hasOnConnectionChange
    requires h < |st.handles| && st.handles[h] == Connecting
    ensures Step(o, st, Opened(h)).log == st.log + [ConnectionChanged(true)]
    ensures Step(o, st, Opened(h)).pendingTimers == {}
  {
  }

  /** A payload that fails to parse changes nothing at all. */
  lemma MalformedMessageIgnored(o: Options, st: ChannelState, h: nat)
    requires Inv(st)
    ensures Step(o, st, Message(h, None)) == st
  {
  }

  /** Two snapshots in a row: the second replaces the first entirely. */
  lemma LastSnapshotWins(o: Options, st: ChannelState, h: nat, s1: Snapshot, s2: Snapshot)
    requires Inv(st) && h < |st.handles| && st.handles[h] == Open
    ensures var r := Step(o, Step(o, st, Message(h, Some(s1))), Message(h, Some(s2)));
      QueryCache.LeaderboardKey in r.cache && r.cache[QueryCache.LeaderboardKey] == s2
  {
    var a := Step(o, st, Message(h, Some(s1)));
    assert a.handles == st.handles;
  }

  /** After a lost connection exactly one reconnect is scheduled; when it
      fires, a fresh stream is opened and nothing is left pending. */
  lemma ReconnectCadence(o: Options, st: ChannelState, h: nat)
    requires Inv(st) && o.enabled && IsLive(st, h)
    ensures var lost := Step(o, st, Errored(h));
      && lost.timerRef.Some? && |lost.pendingTimers| == 1
      && var again := Step(o, lost, TimerFired(lost.timerRef.value));
         && again.pendingTimers == {} && again.timerRef.None?
         && again.handles == lost.handles + [Connecting]
         && again.current == Some(|st.handles|)
  {
    var lost := Step(o, st, Errored(h));
    assert lost.current.None?;
  }

  /** A second error while a reconnect is pending does not schedule another. */
  lemma ErrorsDoNotStackTimers(o: Options, st: ChannelState, h1: nat, h2: nat)
    requires Inv(st) && IsLive(st, h1)
    ensures var first := Step(o, st, Errored(h1));
      var r := Step(o, first, Errored(h2));
      |r.pendingTimers| == 1 && r.timerRef == first.timerRef
  {
  }

  /** The cleanup is idempotent, and safe before any `connect`. */
  lemma TeardownIdempotent(st: ChannelState)
    requires Inv(st)
    ensures TeardownStep(TeardownStep(st)) == TeardownStep(st)
  {
  }

  lemma TeardownBeforeConnect(cache: map<string, Snapshot>, invalidated: set<string>)
    ensures TeardownStep(Initial(cache, invalidated)) == Initial(cache, invalidated)
  {
  }

  /** A closed stream is inert: nothing it could report changes the state. */
  lemma ClosedStreamInert(o: Options, st: ChannelState, h: nat, parsed: Option<Snapshot>)
    requires Inv(st) && h < |st.handles| && st.handles[h] == Closed
    ensures Step(o, st, Opened(h)) == st
    ensures Step(o, st, Message(h, parsed)) == st
    ensures Step(o, st, Errored(h)) == st
  {
  }

  // ---------------------------------------------------------------------------
  // The hook, with its mutable refs

  class LeaderboardStream {
    const options: Options
    const queryClient: QueryCache.QueryClient
    /** The readyState of every event source created. */
    var sources: seq<ReadyState>
    var eventSourceRef: Option<nat>
    var reconnectTimeoutRef: Option<nat>
    /** Timers the host has been asked to run and not been told to cancel. */
    var scheduled: set<nat>
    var nextTimerId: nat
    var callbacks: seq<Callback>

    ghost function State(): ChannelState
      reads this, queryClient
    {
      ChannelState(sources, eventSourceRef, reconnectTimeoutRef, scheduled, nextTimerId,
                   queryClient.data, queryClient.invalidated, callbacks)
    }

    ghost predicate Valid()
      reads this, queryClient
    {
      Inv(State())
    }

    constructor (options: Options, queryClient: QueryCache.QueryClient)
      ensures this.options == options && this.queryClient == queryClient
      ensures Valid() && State() == Initial(queryClient.data, queryClient.invalidated)
    {
      this.options := options;
      this.queryClient := queryClient;
      sources := [];
      eventSourceRef := None;
      reconnectTimeoutRef := None;
      scheduled := {};
      nextTimerId := 1;
      callbacks := [];
    }

    method Connect()
      requires Valid()
      modifies this
      ensures Valid() && State() == Step(options, old(State()), Event.Connect)
    {
      if !options.enabled {
        return;
      }
      if eventSourceRef.Some? && sources[eventSourceRef.value] == Open {
        return;
      }
      sources := sources + [Connecting];
      eventSourceRef := Some(|sources| - 1);
    }

    method OnOpen(h: nat)
      requires Valid()
      modifies this
      ensures Valid() && State() == Step(options, old(State()), Opened(h))
    {
      if h < |sources| && sources[h] == Connecting {
        sources := sources[h := Open];
        if options.hasOnConnectionChange {
          callbacks := callbacks + [ConnectionChanged(true)];
        }
        if reconnectTimeoutRef.Some? {
          scheduled := scheduled - {reconnectTimeoutRef.value};
          reconnectTimeoutRef := None;
        }
      }
    }

    method OnMessage(h: nat, parsed: Option<Snapshot>)
      requires Valid()
      modifies this, queryClient
      ensures Valid() && State() == Step(options, old(State()), Message(h, parsed))
    {
      if h < |sources| && sources[h] == Open {
        match parsed
        case None =>
        case Some(leaderboard) =>
          queryClient.SetQueryData(QueryCache.LeaderboardKey, leaderboard);
          queryClient.InvalidateQueries(QueryCache.TeamsKey);
      }
    }

    method OnError(h: nat)
      requires Valid()
      modifies this
      ensures Valid() && State() == Step(options, old(State()), Errored(h))
    {
      if h < |sources| && sources[h] != Closed {
        if options.hasOnConnectionChange {
          callbacks := callbacks + [ConnectionChanged(false)];
        }
        if options.hasOnError {
          callbacks := callbacks + [ErrorReported(ConnectionLostMessage)];
        }
        sources := sources[h := Closed];
        eventSourceRef := None;
        if reconnectTimeoutRef.None? {
          reconnectTimeoutRef := Some(nextTimerId);
          scheduled := scheduled + {nextTimerId};
          nextTimerId := nextTimerId + 1;
        }
      }
    }

    method OnTimer(t: nat)
      requires Valid()
      modifies this
      ensures Valid() && State() == Step(options, old(State()), TimerFired(t))
    {
      if t in scheduled {
        scheduled := scheduled - {t};
        reconnectTimeoutRef := None;
        Connect();
      }
    }

    method Cleanup()
      requires Valid()
      modifies this
      ensures Valid() && State() == Step(options, old(State()), Teardown)
    {
      if reconnectTimeoutRef.Some? {
        scheduled := scheduled - {reconnectTimeoutRef.value};
        reconnectTimeoutRef := None;
      }
      if eventSourceRef.Some? {
        sources := sources[eventSourceRef.value := Closed];
        eventSourceRef := None;
      }
    }
  }
}
