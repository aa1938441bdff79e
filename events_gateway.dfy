/**
 * The WebSocket events gateway: a connect / disconnect / reconnect state
 * machine with capped exponential backoff and a retry limit, a set of
 * subscribers that every notification reaches, and the normaliser that maps
 * the two spellings of each server event to one canonical event.
 *
 * The socket, the browser's timers and the subscribers' code are outside the
 * model: each socket callback and each timer firing is a method, whether
 * `new WebSocket` throws is a parameter, pending timers are a map from handle
 * to delay, and a notification is recorded as a delivery to each subscriber.
 */
module EventsGateway {
  import opened Wrappers
  import opened Js
  import opened BrowserTypes
  import Lists

  const MaxReconnectAttempts: nat := 10
  const BaseReconnectDelay: nat := 1000
  const MaxReconnectDelay: nat := 30000

  function Pow2(n: nat): (r: nat)
    ensures r >= 1
  {
    if n == 0 then 1 else 2 * Pow2(n - 1)
  }

  /** `Math.min(baseReconnectDelay * 2 ** attempts, 30000)`. */
  function ReconnectDelay(attempts: nat): nat
  {
    if BaseReconnectDelay * Pow2(attempts) < MaxReconnectDelay then BaseReconnectDelay * Pow2(attempts)
    else MaxReconnectDelay
  }

  lemma {:induction false} Pow2Monotone(m: nat, n: nat)
    requires m <= n
    ensures Pow2(m) <= Pow2(n)
    decreases n
  {
    if m < n {
      Pow2Monotone(m, n - 1);
    }
  }

  /**
   * The delay doubles from one second and is capped at thirty: it never
   * decreases, and from the fifth attempt on it is the cap.
   */
  lemma ReconnectDelayFacts(m: nat, n: nat)
    ensures BaseReconnectDelay <= ReconnectDelay(n) <= MaxReconnectDelay
    ensures m <= n ==> ReconnectDelay(m) <= ReconnectDelay(n)
    ensures n >= 5 ==> ReconnectDelay(n) == MaxReconnectDelay
    ensures n < 5 ==> ReconnectDelay(n) == BaseReconnectDelay * Pow2(n)
  {
    if m <= n {
      Pow2Monotone(m, n);
    }
    if n >= 5 {
      Pow2Monotone(5, n);
      assert Pow2(5) == 32;
    } else {
      assert Pow2(4) == 16;
      Pow2Monotone(n, 4);
    }
  }

  /** The ten delays of a run of failures from a fresh gateway. */
  lemma ReconnectDelaySchedule()
    ensures seq(MaxReconnectAttempts, i requires 0 <= i < MaxReconnectAttempts => ReconnectDelay(i))
      == [1000, 2000, 4000, 8000, 16000, 30000, 30000, 30000, 30000, 30000]
  {
    assert Pow2(5) == 32;
    forall i | 5 <= i < 10
      ensures ReconnectDelay(i) == 30000
    {
      ReconnectDelayFacts(i, i);
    }
  }

  /** The six kinds a server can announce. */
  datatype Kind = TabCreatedKind | TabClosedKind | TabSwitchedKind | NavigationChangedKind | AudioChangedKind | TabsUpdatedKind

  /** The camelCase and the colon spelling of each kind. */
  const Spellings: seq<(string, string, Kind)> := [
    ("tabCreated", "tab:created", TabCreatedKind),
    ("tabClosed", "tab:closed", TabClosedKind),
    ("tabSwitched", "tab:switched", TabSwitchedKind),
    ("navigationChanged", "navigation:changed", NavigationChangedKind),
    ("audioChanged", "audio:changed", AudioChangedKind),
    ("tabsUpdated", "tabs:updated", TabsUpdatedKind)
  ]

  /** The `switch` on the event type: a string equal to one of the twelve spellings. */
  function KindOf(t: JsValue): Option<Kind>
  {
    if !t.Str? then None
    else if t.s == "tabCreated" || t.s == "tab:created" then Some(TabCreatedKind)
    else if t.s == "tabClosed" || t.s == "tab:closed" then Some(TabClosedKind)
    else if t.s == "tabSwitched" || t.s == "tab:switched" then Some(TabSwitchedKind)
    else if t.s == "navigationChanged" || t.s == "navigation:changed" then Some(NavigationChangedKind)
    else if t.s == "audioChanged" || t.s == "audio:changed" then Some(AudioChangedKind)
    else if t.s == "tabsUpdated" || t.s == "tabs:updated" then Some(TabsUpdatedKind)
    else None
  }

  /**
   * A canonical event as the gateway hands it on. Payload fields keep the
   * server's values as they are; only the status events are produced by the
   * gateway itself.
   */
  datatype GatewayEvent =
    | TabsUpdatedEvent(tabs: JsValue)
    | TabCreatedEvent(tab: JsValue)
    | TabClosedEvent(tabId: JsValue)
    | TabSwitchedEvent(tabId: JsValue)
    | NavigationChangedEvent(tabId: JsValue, url: JsValue, title: JsValue)
    | AudioChangedEvent(tabId: JsValue, muted: JsValue)
    | StatusChangedEvent(status: ConnectionStatus)

  /** `data.type || data.event`. */
  function EventType(data: JsValue): JsValue
  {
    Or(Get(data, "type"), Get(data, "event"))
  }

  /** `data.payload?.k || data.k`. */
  function Pick(data: JsValue, k: string): JsValue
  {
    Or(Get(Get(data, "payload"), k), Get(data, k))
  }

  function Build(kind: Kind, data: JsValue): GatewayEvent
  {
    match kind
    case TabCreatedKind => TabCreatedEvent(Or(Get(data, "payload"), Get(data, "tab")))
    case TabClosedKind => TabClosedEvent(Pick(data, "tabId"))
    case TabSwitchedKind => TabSwitchedEvent(Pick(data, "tabId"))
    case NavigationChangedKind => NavigationChangedEvent(Pick(data, "tabId"), Pick(data, "url"), Pick(data, "title"))
    case AudioChangedKind => AudioChangedEvent(Pick(data, "tabId"), Pick(data, "muted"))
    case TabsUpdatedKind => TabsUpdatedEvent(Or(Pick(data, "tabs"), Arr([])))
  }

  /**
   * `handleServerEvent(data)`: the canonical event to notify, or `None` when
   * nothing is notified (an unknown type, or a `null` message whose `.type`
   * throws inside the message handler's `try`).
   */
  function Normalize(data: JsValue): Option<GatewayEvent>
  {
    if IsNullish(data) then None
    else match KindOf(EventType(data))
      case None => None
      case Some(k) => Some(Build(k, data))
  }

  /** The message `data` with its `type` field set to `t`. */
  function WithType(data: JsValue, t: string): JsValue
    requires data.Obj?
  {
    Obj(data.fields["type" := Str(t)])
  }

  /** Both spellings of every kind name the same kind, and no other string names a kind. */
  lemma KindOfSpellings(t: JsValue)
    ensures forall i :: 0 <= i < |Spellings| ==>
      KindOf(Str(Spellings[i].0)) == Some(Spellings[i].2) && KindOf(Str(Spellings[i].1)) == Some(Spellings[i].2)
    ensures KindOf(t).Some? <==> exists i :: 0 <= i < |Spellings| && (t == Str(Spellings[i].0) || t == Str(Spellings[i].1))
  {
    if KindOf(t).Some? {
      var k := KindOf(t).value;
      var i := match k
        case TabCreatedKind => 0 case TabClosedKind => 1 case TabSwitchedKind => 2
        case NavigationChangedKind => 3 case AudioChangedKind => 4 case TabsUpdatedKind => 5;
      assert t == Str(Spellings[i].0) || t == Str(Spellings[i].1);
    }
  }

  /** The camelCase and the colon spelling of a kind give identical events for the same message. */
  lemma SpellingsAgree(data: JsValue, i: nat)
    requires data.Obj? && i < |Spellings|
    ensures Normalize(WithType(data, Spellings[i].0)) == Normalize(WithType(data, Spellings[i].1))
    ensures Normalize(WithType(data, Spellings[i].0)).Some?
  {
    KindOfSpellings(Undefined);
    var a, b := WithType(data, Spellings[i].0), WithType(data, Spellings[i].1);
    assert EventType(a) == Str(Spellings[i].0) && EventType(b) == Str(Spellings[i].1);
    forall k | k != "type"
      ensures Get(a, k) == Get(data, k) == Get(b, k)
    {
    }
  }

  /** A falsy `type` defers to `event`; an unknown type, a gateway status event among them, notifies nothing. */
  lemma EventTypeRules(data: JsValue)
    ensures !Truthy(Get(data, "type")) ==> EventType(data) == Get(data, "event")
    ensures Truthy(Get(data, "type")) ==> EventType(data) == Get(data, "type")
    ensures KindOf(EventType(data)).None? ==> Normalize(data) == None
    ensures data.Obj? ==> Normalize(WithType(data, "status:changed")) == None
    ensures Normalize(data).Some? ==> !Normalize(data).value.StatusChangedEvent?
  {
  }

  /**
   * Payload fields are the first truthy of `payload.X` and `X`, so a falsy
   * `payload.muted` falls through to the top-level `muted`; a tab list with
   * no truthy source is the empty array.
   */
  lemma PayloadFallbacks(data: JsValue)
    requires data.Obj?
    ensures Truthy(Get(Get(data, "payload"), "muted")) ==> Pick(data, "muted") == Get(Get(data, "payload"), "muted")
    ensures !Truthy(Get(Get(data, "payload"), "muted")) ==> Pick(data, "muted") == Get(data, "muted")
    ensures KindOf(EventType(data)) == Some(TabsUpdatedKind) && !Truthy(Pick(data, "tabs")) ==>
      Normalize(data) == Some(TabsUpdatedEvent(Arr([])))
    ensures KindOf(EventType(data)) == Some(TabCreatedKind) && !Truthy(Get(data, "payload")) ==>
      Normalize(data) == Some(TabCreatedEvent(Get(data, "tab")))
  {
  }

  /** A concrete case: `payload.muted = false` with `muted: true` outside reports muted. */
  lemma MutedFalseFallsThrough()
    ensures Normalize(Obj(map["type" := Str("audio:changed"),
                              "payload" := Obj(map["tabId" := Str("7"), "muted" := Bool(false)]),
                              "muted" := Bool(true)]))
      == Some(AudioChangedEvent(Str("7"), Bool(true)))
  {
    var payload := Obj(map["tabId" := Str("7"), "muted" := Bool(false)]);
    var data := Obj(map["type" := Str("audio:changed"), "payload" := payload, "muted" := Bool(true)]);
    assert Get(data, "type") == Str("audio:changed");
    assert Get(data, "payload") == payload;
    assert Get(payload, "muted") == Bool(false) && Get(data, "muted") == Bool(true);
    assert Get(payload, "tabId") == Str("7");
  }

  /**
   * The four WebSocket ready states. No step produces `Closing` or `Closed`:
   * the browser delivers a socket's `error` and `close` in one task, so the
   * model takes them as one atomic step that drops the socket, and nothing
   * can call `connect` in between.
   */
  datatype ReadyState = Connecting | Open | Closing | Closed

  /** One call of a subscriber: who was called, with what, and whether it threw. */
  datatype Delivery = Delivery(callback: nat, event: GatewayEvent, threw: bool)

  /** `callbacks.forEach(cb => { try { cb(event) } catch {} })`: every subscriber, in order. */
  function Deliveries(callbacks: seq<nat>, e: GatewayEvent, failing: set<nat>): (r: seq<Delivery>)
    ensures |r| == |callbacks|
    ensures forall i :: 0 <= i < |r| ==> r[i] == Delivery(callbacks[i], e, callbacks[i] in failing)
  {
    seq(|callbacks|, i requires 0 <= i < |callbacks| => Delivery(callbacks[i], e, callbacks[i] in failing))
  }

  /** The gateway's fields, with the pending timers and the delivery log. */
  datatype GatewayState = GatewayState(
    ws: Option<ReadyState>,
    callbacks: seq<nat>,
    reconnectTimeout: Option<nat>,
    reconnectAttempts: nat,
    isIntentionallyClosed: bool,
    timers: map<nat, nat>,
    nextHandle: nat,
    delivered: seq<Delivery>)

  const InitialGateway := GatewayState(None, [], None, 0, false, map[], 0, [])

  function NotifyStep(g: GatewayState, e: GatewayEvent, failing: set<nat>): GatewayState
  {
    g.(delivered := g.delivered + Deliveries(g.callbacks, e, failing))
  }

  function ScheduleReconnectStep(g: GatewayState): GatewayState
  {
    if g.reconnectAttempts >= MaxReconnectAttempts then g
    else
      g.(reconnectAttempts := g.reconnectAttempts + 1,
         timers := g.timers[g.nextHandle := ReconnectDelay(g.reconnectAttempts)],
         nextHandle := g.nextHandle + 1,
         reconnectTimeout := Some(g.nextHandle))
  }

  predicate SocketLive(g: GatewayState)
  {
    g.ws == Some(Open) || g.ws == Some(ReadyState.Connecting)
  }

  function ConnectStep(g: GatewayState, constructionFails: bool): GatewayState
  {
    if SocketLive(g) then g
    else if constructionFails then ScheduleReconnectStep(g.(isIntentionallyClosed := false))
    else g.(isIntentionallyClosed := false, ws := Some(ReadyState.Connecting))
  }

  function OpenStep(g: GatewayState, failing: set<nat>): GatewayState
  {
    NotifyStep(g.(ws := Some(Open), reconnectAttempts := 0), StatusChangedEvent(Connected), failing)
  }

  function MessageStep(g: GatewayState, parsed: Option<JsValue>, failing: set<nat>): GatewayState
  {
    if parsed.None? then g
    else match Normalize(parsed.value)
      case None => g
      case Some(e) => NotifyStep(g, e, failing)
  }

  function ErrorStep(g: GatewayState, failing: set<nat>): GatewayState
  {
    NotifyStep(g, StatusChangedEvent(Disconnected), failing)
  }

  function CloseStep(g: GatewayState, failing: set<nat>): GatewayState
  {
    var closed := NotifyStep(g.(ws := None), StatusChangedEvent(Disconnected), failing);
    if g.isIntentionallyClosed then closed else ScheduleReconnectStep(closed)
  }

  function DisconnectStep(g: GatewayState): GatewayState
  {
    g.(isIntentionallyClosed := true,
       timers := if g.reconnectTimeout.Some? then g.timers - {g.reconnectTimeout.value} else g.timers,
       reconnectTimeout := None,
       ws := None,
       reconnectAttempts := 0)
  }

  function FireTimerStep(g: GatewayState, handle: nat, constructionFails: bool): GatewayState
  {
    ConnectStep(g.(timers := g.timers - {handle}), constructionFails)
  }

  /** At most ten reconnects are ever scheduled in a row: the counter never passes the limit. */
  predicate AttemptsBounded(g: GatewayState)
  {
    g.reconnectAttempts <= MaxReconnectAttempts && (forall h :: h in g.timers ==> h < g.nextHandle)
  }

  /**
   * `scheduleReconnect`: nothing at the limit; otherwise one new timer whose
   * delay is computed from the count before it is incremented.
   */
  lemma ScheduleReconnectSpec(g: GatewayState)
    ensures g.reconnectAttempts >= MaxReconnectAttempts ==> ScheduleReconnectStep(g) == g
    ensures g.reconnectAttempts < MaxReconnectAttempts ==>
      var r := ScheduleReconnectStep(g);
      && r.reconnectAttempts == g.reconnectAttempts + 1
      && r.reconnectTimeout == Some(g.nextHandle)
      && r.timers == g.timers[g.nextHandle := ReconnectDelay(g.reconnectAttempts)]
      && r.ws == g.ws && r.callbacks == g.callbacks && r.delivered == g.delivered
    ensures AttemptsBounded(g) ==> AttemptsBounded(ScheduleReconnectStep(g))
  {
  }

  /** Every step of the gateway keeps the retry counter within the limit. */
  lemma StepsKeepBounded(g: GatewayState, parsed: Option<JsValue>, failing: set<nat>, h: nat, fails: bool, cb: nat)
    requires AttemptsBounded(g)
    ensures AttemptsBounded(ConnectStep(g, fails))
    ensures AttemptsBounded(OpenStep(g, failing))
    ensures AttemptsBounded(MessageStep(g, parsed, failing))
    ensures AttemptsBounded(ErrorStep(g, failing))
    ensures AttemptsBounded(CloseStep(g, failing))
    ensures AttemptsBounded(DisconnectStep(g))
    ensures AttemptsBounded(FireTimerStep(g, h, fails))
    ensures AttemptsBounded(SubscribeStep(g, cb))
    ensures AttemptsBounded(UnsubscribeStep(g, cb))
  {
    ScheduleReconnectSpec(g.(isIntentionallyClosed := false));
    ScheduleReconnectSpec(g.(timers := g.timers - {h}, isIntentionallyClosed := false));
    var closed := NotifyStep(g.(ws := None), StatusChangedEvent(Disconnected), failing);
    ScheduleReconnectSpec(closed);
  }

  /** `k` reconnect timers firing in a row while the socket cannot even be constructed. */
  function FailedRetries(g: GatewayState, k: nat): GatewayState
    decreases k
  {
    if k == 0 || g.reconnectTimeout.None? then g
    else FailedRetries(FireTimerStep(g, g.reconnectTimeout.value, true), k - 1)
  }

  /**
   * A run of failures gives up after ten: starting from `a` attempts with a
   * pending timer, `k` failing firings leave `min(a + k, 10)` attempts as long
   * as timers keep being scheduled, and once the counter reaches ten no
   * further timer is scheduled.
   */
  lemma {:induction false} FailedRetriesStop(g: GatewayState, k: nat)
    requires !SocketLive(g) && g.reconnectTimeout.Some? && g.reconnectAttempts <= MaxReconnectAttempts
    ensures var r := FailedRetries(g, k);
      && r.reconnectAttempts == (if g.reconnectAttempts + k < MaxReconnectAttempts then g.reconnectAttempts + k else MaxReconnectAttempts)
      && r.nextHandle == g.nextHandle + (r.reconnectAttempts - g.reconnectAttempts)
      && !SocketLive(r)
    decreases k
  {
    if k > 0 {
      var next := FireTimerStep(g, g.reconnectTimeout.value, true);
      ScheduleReconnectSpec(g.(timers := g.timers - {g.reconnectTimeout.value}, isIntentionallyClosed := false));
      if g.reconnectAttempts < MaxReconnectAttempts {
        assert next.reconnectAttempts == g.reconnectAttempts + 1;
        FailedRetriesStop(next, k - 1);
      } else {
        assert next.reconnectAttempts == g.reconnectAttempts && next.nextHandle == g.nextHandle;
        FailedRetriesStopAtLimit(next, k - 1);
      }
    }
  }

  lemma {:induction false} FailedRetriesStopAtLimit(g: GatewayState, k: nat)
    requires !SocketLive(g) && g.reconnectAttempts >= MaxReconnectAttempts
    ensures FailedRetries(g, k).reconnectAttempts == g.reconnectAttempts
    ensures FailedRetries(g, k).nextHandle == g.nextHandle
    ensures !SocketLive(FailedRetries(g, k))
    decreases k
  {
    if k > 0 && g.reconnectTimeout.Some? {
      var next := FireTimerStep(g, g.reconnectTimeout.value, true);
      assert next.reconnectAttempts == g.reconnectAttempts && next.nextHandle == g.nextHandle;
      FailedRetriesStopAtLimit(next, k - 1);
    }
  }

  /** `connect` leaves a live socket alone; otherwise it clears the intentional flag and either opens or schedules a retry. */
  lemma ConnectSpec(g: GatewayState, fails: bool)
    ensures SocketLive(g) ==> ConnectStep(g, fails) == g
    ensures !SocketLive(g) ==> !ConnectStep(g, fails).isIntentionallyClosed
    ensures !SocketLive(g) && !fails ==> ConnectStep(g, fails).ws == Some(ReadyState.Connecting)
    ensures !SocketLive(g) && fails ==> ConnectStep(g, fails) == ScheduleReconnectStep(g.(isIntentionallyClosed := false))
  {
  }

  /** An opened socket resets the counter and tells every subscriber `connected`. */
  lemma OpenSpec(g: GatewayState, failing: set<nat>)
    ensures var r := OpenStep(g, failing);
      && r.reconnectAttempts == 0
      && r.ws == Some(Open)
      && r.delivered[..|g.delivered|] == g.delivered
      && |r.delivered| == |g.delivered| + |g.callbacks|
      && forall i :: 0 <= i < |g.callbacks| ==>
           r.delivered[|g.delivered| + i].callback == g.callbacks[i]
           && r.delivered[|g.delivered| + i].event == StatusChangedEvent(Connected)
  {
  }

  /**
   * Errors and closes both report `disconnected` to every subscriber; a
   * close also drops the socket and schedules a retry exactly when the
   * closure was not asked for.
   */
  lemma ErrorAndCloseSpec(g: GatewayState, failing: set<nat>)
    ensures ErrorStep(g, failing).delivered == g.delivered + Deliveries(g.callbacks, StatusChangedEvent(Disconnected), failing)
    ensures ErrorStep(g, failing).ws == g.ws && ErrorStep(g, failing).reconnectAttempts == g.reconnectAttempts
    ensures var r := CloseStep(g, failing);
      && r.ws.None?
      && r.delivered == g.delivered + Deliveries(g.callbacks, StatusChangedEvent(Disconnected), failing)
      && (g.isIntentionallyClosed ==> r.timers == g.timers && r.reconnectAttempts == g.reconnectAttempts)
      && (!g.isIntentionallyClosed && g.reconnectAttempts < MaxReconnectAttempts ==>
            r.reconnectAttempts == g.reconnectAttempts + 1 && g.nextHandle in r.timers)
  {
  }

  /** `disconnect` cancels the pending timer, drops the socket and resets the counter; a second call changes nothing. */
  lemma DisconnectSpec(g: GatewayState, failing: set<nat>)
    ensures var r := DisconnectStep(g);
      && r.isIntentionallyClosed && r.ws.None? && r.reconnectTimeout.None? && r.reconnectAttempts == 0
      && (g.reconnectTimeout.Some? ==> g.reconnectTimeout.value !in r.timers)
      && r.callbacks == g.callbacks && r.delivered == g.delivered
    ensures DisconnectStep(DisconnectStep(g)) == DisconnectStep(g)
    ensures CloseStep(DisconnectStep(g), failing).timers == DisconnectStep(g).timers
  {
  }

  /**
   * `reconnect` in the controller calls `disconnect` then `connect`; if the
   * old socket's close event arrives afterwards, it drops the new socket and
   * schedules a retry, because `connect` has cleared the intentional flag.
   */
  lemma LateCloseAfterReconnect(g: GatewayState, failing: set<nat>)
    ensures var r := CloseStep(ConnectStep(DisconnectStep(g), false), failing);
      && r.ws.None?
      && r.reconnectAttempts == 1
      && r.reconnectTimeout == Some(g.nextHandle)
  {
  }

  function SubscribeStep(g: GatewayState, cb: nat): GatewayState
  {
    g.(callbacks := Lists.SetAdd(g.callbacks, cb))
  }

  function UnsubscribeStep(g: GatewayState, cb: nat): GatewayState
  {
    g.(callbacks := Lists.SetDelete(g.callbacks, cb))
  }

  /**
   * The subscribers form a set: subscribing twice stores one entry,
   * unsubscribing removes the callback and keeps the others, and a
   * notification reaches every subscriber whichever of them throw.
   */
  lemma SubscribersSpec(g: GatewayState, cb: nat, e: GatewayEvent, failing: set<nat>)
    requires Lists.NoDuplicates(g.callbacks)
    ensures Lists.NoDuplicates(SubscribeStep(g, cb).callbacks)
    ensures SubscribeStep(SubscribeStep(g, cb), cb) == SubscribeStep(g, cb)
    ensures cb in SubscribeStep(g, cb).callbacks
    ensures cb !in UnsubscribeStep(SubscribeStep(g, cb), cb).callbacks
    ensures forall c :: c != cb ==> (c in UnsubscribeStep(SubscribeStep(g, cb), cb).callbacks <==> c in g.callbacks)
    ensures forall c :: c in g.callbacks ==>
      Delivery(c, e, c in failing) in NotifyStep(g, e, failing).delivered[|g.delivered|..]
  {
    var tail := NotifyStep(g, e, failing).delivered[|g.delivered|..];
    assert tail == Deliveries(g.callbacks, e, failing);
    forall c | c in g.callbacks
      ensures Delivery(c, e, c in failing) in tail
    {
      var i :| 0 <= i < |g.callbacks| && g.callbacks[i] == c;
      assert tail[i] == Delivery(c, e, c in failing);
    }
  }

  class BrowserEventsGateway {
    const wsUrl: string
    var ws: Option<ReadyState>
    /** The subscribers in insertion order, each once. */
    var callbacks: seq<nat>
    var reconnectTimeout: Option<nat>
    var reconnectAttempts: nat
    var isIntentionallyClosed: bool
    /** The browser's pending timers: handle to delay. */
    var timers: map<nat, nat>
    var nextHandle: nat
    /** Every subscriber call so far, oldest first. */
    var delivered: seq<Delivery>

    function State(): GatewayState
      reads this
    {
      GatewayState(ws, callbacks, reconnectTimeout, reconnectAttempts, isIntentionallyClosed, timers, nextHandle, delivered)
    }

    constructor (wsUrl: string)
      ensures this.wsUrl == wsUrl && State() == InitialGateway
    {
      this.wsUrl := wsUrl;
      ws := None;
      callbacks := [];
      reconnectTimeout := None;
      reconnectAttempts := 0;
      isIntentionallyClosed := false;
      timers := map[];
      nextHandle := 0;
      delivered := [];
    }

    method Connect(constructionFails: bool)
      modifies this
      ensures State() == ConnectStep(old(State()), constructionFails)
    {
      if ws == Some(Open) || ws == Some(ReadyState.Connecting) {
        return;
      }
      isIntentionallyClosed := false;
      if constructionFails {
        ScheduleReconnect();
      } else {
        ws := Some(ReadyState.Connecting);
      }
    }

    /** `onopen`, fired by the socket once the connection is up. */
    method OnOpen(failing: set<nat>)
      modifies this
      ensures State() == OpenStep(old(State()), failing)
    {
      ws := Some(Open);
      reconnectAttempts := 0;
      Notify(StatusChangedEvent(Connected), failing);
    }

    /** `onmessage` with the result of `JSON.parse` (`None` when it throws). */
    method OnMessage(parsed: Option<JsValue>, failing: set<nat>)
      modifies this
      ensures State() == MessageStep(old(State()), parsed, failing)
    {
      if parsed.None? {
        return;
      }
      var e := Normalize(parsed.value);
      if e.Some? {
        Notify(e.value, failing);
      }
    }

    method OnError(failing: set<nat>)
      modifies this
      ensures State() == ErrorStep(old(State()), failing)
    {
      Notify(StatusChangedEvent(Disconnected), failing);
    }

    method OnClose(failing: set<nat>)
      modifies this
      ensures State() == CloseStep(old(State()), failing)
    {
      ws := None;
      Notify(StatusChangedEvent(Disconnected), failing);
      if !isIntentionallyClosed {
        ScheduleReconnect();
      }
    }

    method Disconnect()
      modifies this
      ensures State() == DisconnectStep(old(State()))
    {
      isIntentionallyClosed := true;
      if reconnectTimeout.Some? {
        timers := timers - {reconnectTimeout.value};
        reconnectTimeout := None;
      }
      if ws.Some? {
        ws := None;
      }
      reconnectAttempts := 0;
    }

    method Subscribe(cb: nat)
      modifies this
      ensures State() == SubscribeStep(old(State()), cb)
    {
      callbacks := Lists.SetAdd(callbacks, cb);
    }

    /** The function `subscribe` returns. */
    method Unsubscribe(cb: nat)
      modifies this
      ensures State() == UnsubscribeStep(old(State()), cb)
    {
      callbacks := Lists.SetDelete(callbacks, cb);
    }

    /** The pending reconnect timer `handle` fires. */
    method FireTimer(handle: nat, constructionFails: bool)
      modifies this
      ensures State() == FireTimerStep(old(State()), handle, constructionFails)
    {
      timers := timers - {handle};
      Connect(constructionFails);
    }

    method ScheduleReconnect()
      modifies this
      ensures State() == ScheduleReconnectStep(old(State()))
    {
      if reconnectAttempts >= MaxReconnectAttempts {
        return;
      }
      var delay := ReconnectDelay(reconnectAttempts);
      reconnectAttempts := reconnectAttempts + 1;
      var handle := nextHandle;
      nextHandle := nextHandle + 1;
      timers := timers[handle := delay];
      reconnectTimeout := Some(handle);
    }

    /** Calls every subscriber in turn; one that throws does not stop the others. */
    method Notify(e: GatewayEvent, failing: set<nat>)
      modifies this
      ensures State() == NotifyStep(old(State()), e, failing)
    {
      var i := 0;
      while i < |callbacks|
        invariant 0 <= i <= |callbacks|
        invariant callbacks == old(callbacks)
        invariant delivered == old(delivered) + Deliveries(callbacks[..i], e, failing)
        invariant State() == old(State()).(delivered := delivered)
      {
        var cb := callbacks[i];
        delivered := delivered + [Delivery(cb, e, cb in failing)];
        assert callbacks[..i + 1] == callbacks[..i] + [cb];
        i := i + 1;
      }
      assert callbacks[..i] == callbacks;
    }
  }
}
