/**
 * The session client: one transport, a cached session id, a reconnect
 * counter and the user-initiated-close flag.  The transport's callbacks
 * (open, message, close) and the reconnect timer are methods the
 * environment calls; what the client sends, the events it raises and the
 * reconnect delays it schedules are kept in ghost logs.
 */
module WsClient {
  import opened Wrappers
  import Json
  import opened Messages

  /** The default of WS_MAX_RECONNECT_ATTEMPTS. */
  const MaxReconnectAttempts: nat := 5
  const BaseDelayMs: nat := 1000
  const MinDelayMs: int := 200
  const MaxDelayMs: int := 30000

  function Pow2(n: nat): (r: nat)
    ensures r >= 1
  {
    if n == 0 then 1 else 2 * Pow2(n - 1)
  }

  /** `1000 * Math.pow(2, attempts)`. */
  function BaseDelay(attempts: nat): nat {
    BaseDelayMs * Pow2(attempts)
  }

  function Abs(x: int): nat {
    if x < 0 then -x else x
  }

  /** The jitter `base * 0.1 * (Math.random() * 2 - 1)`, as an integer drawn within ten percent of the base. */
  predicate JitterWithin(attempts: nat, jitter: int) {
    10 * Abs(jitter) <= BaseDelay(attempts)
  }

  /** `Math.max(200, Math.min(base + jitter, 30000))`: the jittered base, clamped to [200, 30000]. */
  function ReconnectDelay(attempts: nat, jitter: int): (d: int)
    ensures MinDelayMs <= d <= MaxDelayMs
    ensures MinDelayMs <= BaseDelay(attempts) + jitter <= MaxDelayMs ==> d == BaseDelay(attempts) + jitter
    ensures BaseDelay(attempts) + jitter > MaxDelayMs ==> d == MaxDelayMs
  {
    var raw := BaseDelay(attempts) + jitter;
    if raw > MaxDelayMs then MaxDelayMs else if raw < MinDelayMs then MinDelayMs else raw
  }

  /** Before jitter, the five permitted attempts wait 1, 2, 4, 8 and 16 seconds. */
  lemma BaseDelaySchedule()
    ensures BaseDelay(0) == 1000 && BaseDelay(1) == 2000 && BaseDelay(2) == 4000
    ensures BaseDelay(3) == 8000 && BaseDelay(4) == 16000
  {
    assert Pow2(4) == 16 by { assert Pow2(3) == 8 by { assert Pow2(2) == 4; } }
  }

  /** Within the attempt limit the clamp never engages: the delay is the jittered base, within ten percent of it. */
  lemma DelayUnclampedWithinLimit(attempts: nat, jitter: int)
    requires attempts < MaxReconnectAttempts
    requires JitterWithin(attempts, jitter)
    ensures ReconnectDelay(attempts, jitter) == BaseDelay(attempts) + jitter
    ensures 9 * BaseDelay(attempts) <= 10 * ReconnectDelay(attempts, jitter) <= 11 * BaseDelay(attempts)
  {
    BaseDelaySchedule();
    assert 1000 <= BaseDelay(attempts) <= 16000 by {
      if attempts == 0 {} else if attempts == 1 {} else if attempts == 2 {} else if attempts == 3 {} else {}
    }
  }

  datatype ReadyState = Connecting | Open | Closing | Closed

  /** What the client hands to its handlers. */
  datatype Event =
    | OpenEvent(sessionId: Option<string>)
    | ConnectAckEvent(payload: Option<Json.Value>)
    | ProgressEvent(payload: Option<Json.Value>)
    | QuestionEvent(question: Json.Value)
    | ResultsEvent(payload: Option<Json.Value>)
    | ErrorEvent(payload: Option<Json.Value>)
    | CloseEvent

  /** `data.type`, when it is one of the tags. */
  function InboundTag(data: Json.Value): Option<MessageType> {
    var t := Json.Get(Some(data), "type");
    if t.Some? && t.value.Str? then ParseTag(t.value.s) else None
  }

  /** `data.payload?.value ?? data.payload?.response ?? data.payload`. */
  function NormalizeQuestion(payload: Option<Json.Value>): Option<Json.Value> {
    Json.Coalesce(Json.Get(payload, "value"), Json.Coalesce(Json.Get(payload, "response"), payload))
  }

  /** Only `null` and `undefined` fall through: a falsy `value` such as "" or 0 is the question. */
  lemma QuestionKeepsFalsyValue(payload: Option<Json.Value>)
    requires !Json.Nullish(Json.Get(payload, "value")) && !Json.Truthy(Json.Get(payload, "value"))
    ensures NormalizeQuestion(payload) == Json.Get(payload, "value")
  {
  }

  /** Without `value` or `response` the whole payload is the question. */
  lemma QuestionFallsBackToPayload(payload: Option<Json.Value>)
    requires Json.Nullish(Json.Get(payload, "value")) && Json.Nullish(Json.Get(payload, "response"))
    ensures NormalizeQuestion(payload) == payload
  {
  }

  /** `{ value }`: an undefined value leaves the key out. */
  function QuestionPayload(value: Option<Json.Value>): Json.Value {
    Json.Obj(if value.Some? then map["value" := value.value] else map[])
  }

  predicate NonEmptyString(v: Option<Json.Value>) {
    v.Some? && v.value.Str? && v.value.s != ""
  }

  /**
   * `data.payload?.sessionId || data.sessionId || this.sessionId`: the first
   * non-empty string of the nested and the top-level field, else the cached id.
   */
  function PickSessionId(data: Json.Value, prev: Option<string>): (r: Option<string>)
    ensures NonEmptyString(Json.Get(Json.Get(Some(data), "payload"), "sessionId"))
            ==> r == Some(Json.Get(Json.Get(Some(data), "payload"), "sessionId").value.s)
    ensures !NonEmptyString(Json.Get(Json.Get(Some(data), "payload"), "sessionId"))
            && NonEmptyString(Json.Get(Some(data), "sessionId"))
            ==> r == Some(Json.Get(Some(data), "sessionId").value.s)
    ensures !NonEmptyString(Json.Get(Json.Get(Some(data), "payload"), "sessionId"))
            && !NonEmptyString(Json.Get(Some(data), "sessionId"))
            ==> r == prev
    ensures (prev.Some? ==> prev.value != "") ==> (r.Some? ==> r.value != "")
  {
    var nested := Json.Get(Json.Get(Some(data), "payload"), "sessionId");
    var top := Json.Get(Some(data), "sessionId");
    if NonEmptyString(nested) then Some(nested.value.s)
    else if NonEmptyString(top) then Some(top.value.s)
    else prev
  }

  /** An empty nested id falls through to the top-level one: "" is falsy. */
  lemma EmptyNestedIdFallsThrough(sid: string, prev: Option<string>)
    requires sid != ""
    ensures PickSessionId(Json.Obj(map["type" := Json.Str("connect"), "sessionId" := Json.Str(sid),
                                       "payload" := Json.Obj(map["sessionId" := Json.Str("")])]), prev)
            == Some(sid)
  {
  }

  /** True when a received frame is a connect reply (the first case of the switch). */
  predicate IsConnectReply(frame: Option<Json.Value>) {
    frame.Some? && InboundTag(frame.value) == Some(Connect)
  }

  /**
   * The event a received frame raises.  An unparsable frame, a `null`, a
   * value without a known tag, and the tags only the client sends
   * (start_analysis, user_answer, disconnect) raise nothing.
   */
  function InboundEvent(frame: Option<Json.Value>): (e: Option<Event>)
    ensures e.Some? <==> frame.Some? && InboundTag(frame.value).Some?
                         && InboundTag(frame.value).value in {Connect, ProgressUpdate, UserInput, Results, Error}
    ensures e.Some? ==> !e.value.OpenEvent? && !e.value.CloseEvent?
  {
    if frame.None? then None
    else
      var data := frame.value;
      var payload := Json.Get(Some(data), "payload");
      match InboundTag(data)
      case Some(Connect) => Some(ConnectAckEvent(payload))
      case Some(ProgressUpdate) => Some(ProgressEvent(payload))
      case Some(UserInput) => Some(QuestionEvent(QuestionPayload(NormalizeQuestion(payload))))
      case Some(Results) => Some(ResultsEvent(payload))
      case Some(Error) => Some(ErrorEvent(payload))
      case _ => None
  }

  /** A typed server message reaches the handler of its tag with its payload object. */
  lemma TypedReplyDispatch(m: Message)
    requires WellFormed(m)
    ensures m.kind == ProgressUpdate ==> InboundEvent(Some(ToJson(m))) == Some(ProgressEvent(PayloadJson(m)))
    ensures m.kind == Results ==> InboundEvent(Some(ToJson(m))) == Some(ResultsEvent(PayloadJson(m)))
    ensures m.kind == Error ==> InboundEvent(Some(ToJson(m))) == Some(ErrorEvent(PayloadJson(m)))
    ensures m.kind == Connect ==> InboundEvent(Some(ToJson(m))) == Some(ConnectAckEvent(PayloadJson(m)))
    ensures m.kind in {StartAnalysis, UserAnswer, Disconnect} ==> InboundEvent(Some(ToJson(m))).None?
  {
    EightDistinctTags();
    assert Json.Get(Some(ToJson(m)), "payload") == PayloadJson(m);
  }

  /** A server question `{response}` becomes the handler's `{value: response}`. */
  lemma TypedQuestionDispatch(sid: string, now: int, response: string)
    ensures InboundEvent(Some(ToJson(Message(UserInput, Some(sid), now, Some(ResponsePayload(response))))))
            == Some(QuestionEvent(Json.Obj(map["value" := Json.Str(response)])))
  {
    EightDistinctTags();
  }

  function PayloadJson(m: Message): Option<Json.Value> {
    if m.payload.Some? then Some(PayloadToJson(m.payload.value)) else None
  }

  /** The greeting sent on open: `{sessionId}` when an id is cached, else `{}`; never a top-level id. */
  function ConnectMessage(sessionId: Option<string>, now: int): (m: Message)
    ensures WellFormed(m) && m.kind == Connect && m.sessionId.None? && m.timestamp == now
    ensures ToJson(m) == Json.Obj(map["type" := Json.Str("connect"), "timestamp" := Json.Num(now),
                                      "payload" := Json.Obj(if sessionId.Some? && sessionId.value != ""
                                                            then map["sessionId" := Json.Str(sessionId.value)]
                                                            else map[])])
  {
    var id := if sessionId.Some? && sessionId.value != "" then sessionId else None;
    assert OptStrField("clientId", None) + OptStrField("sessionId", id)
        == if sessionId.Some? && sessionId.value != "" then map["sessionId" := Json.Str(sessionId.value)] else map[];
    var m := Message(Connect, None, now, Some(ConnectPayload(None, id)));
    assert Tag(Connect) == "connect";
    assert OptStrField("sessionId", m.sessionId) == map[];
    var head := map["type" := Json.Str("connect"), "timestamp" := Json.Num(now)];
    var body := PayloadToJson(ConnectPayload(None, id));
    assert head + map[] + map["payload" := body] == head["payload" := body];
    assert body == Json.Obj(if sessionId.Some? && sessionId.value != "" then map["sessionId" := Json.Str(sessionId.value)] else map[]);
    m
  }

  class Client {
    var ws: Option<ReadyState>
    var sessionId: Option<string>
    var reconnectAttempts: nat
    var closedByUser: bool

    /** Every message handed to an open transport, in order. */
    ghost var sent: seq<Message>
    /** Every event raised to the handlers, in order. */
    ghost var events: seq<Event>
    /** Every reconnect delay scheduled, in order. */
    ghost var delays: seq<int>
    /** The delays scheduled since the last connect acknowledgement. */
    ghost var sinceAck: seq<int>
    /** Reconnect timers scheduled and not yet fired. */
    ghost var pendingTimers: nat

    ghost predicate Valid()
      reads this
    {
      && reconnectAttempts <= MaxReconnectAttempts
      && |sinceAck| == reconnectAttempts
      && |sinceAck| <= |delays| && sinceAck == delays[|delays| - |sinceAck|..]
      && (forall i :: 0 <= i < |delays| ==> MinDelayMs <= delays[i] <= MaxDelayMs)
      && (sessionId.Some? ==> sessionId.value != "")
      && (forall i :: 0 <= i < |sent| ==> WellFormed(sent[i]))
    }

    /** A transport exists and is OPEN or CONNECTING. */
    predicate Busy()
      reads this
    {
      ws == Some(Open) || ws == Some(Connecting)
    }

    /** The precondition of every send but the greeting: an open transport and a cached id. */
    predicate CanSend()
      reads this
    {
      ws == Some(Open) && sessionId.Some? && sessionId.value != ""
    }

    constructor ()
      ensures Valid()
      ensures ws.None? && sessionId.None? && reconnectAttempts == 0 && !closedByUser
      ensures sent == [] && events == [] && delays == [] && sinceAck == [] && pendingTimers == 0
    {
      ws, sessionId, reconnectAttempts, closedByUser := None, None, 0, false;
      sent, events, delays, sinceAck, pendingTimers := [], [], [], [], 0;
    }

    /** `connect()`: a no-op on a busy transport; otherwise a new transport and reconnects re-enabled. */
    method Connect()
      requires Valid()
      modifies this
      ensures Valid()
      ensures old(Busy()) ==> unchanged(this)
      ensures !old(Busy()) ==> ws == Some(Connecting) && !closedByUser
      ensures !old(Busy()) ==> sessionId == old(sessionId) && reconnectAttempts == old(reconnectAttempts)
      ensures !old(Busy()) ==> sent == old(sent) && events == old(events) && delays == old(delays)
                               && sinceAck == old(sinceAck) && pendingTimers == old(pendingTimers)
    {
      if Busy() {
        return;
      }
      ws := Some(Connecting);
      closedByUser := false;
    }

    /** `onopen`: exactly one connect greeting, then the open event. */
    method TransportOpens(now: int) returns (e: Event)
      requires Valid() && ws == Some(Connecting)
      modifies this
      ensures Valid()
      ensures ws == Some(Open)
      ensures sent == old(sent) + [ConnectMessage(sessionId, now)]
      ensures e == OpenEvent(sessionId) && events == old(events) + [e]
      ensures sessionId == old(sessionId) && reconnectAttempts == old(reconnectAttempts)
      ensures closedByUser == old(closedByUser) && delays == old(delays) && sinceAck == old(sinceAck)
      ensures pendingTimers == old(pendingTimers)
    {
      ws := Some(Open);
      sent := sent + [ConnectMessage(sessionId, now)];
      e := OpenEvent(sessionId);
      events := events + [e];
    }

    /** `onmessage`: a connect reply caches the id and resets the counter; every handled tag raises its event. */
    method TransportMessage(frame: Option<Json.Value>) returns (e: Option<Event>)
      requires Valid()
      modifies this
      ensures Valid()
      ensures e == InboundEvent(frame)
      ensures events == old(events) + (if e.Some? then [e.value] else [])
      ensures IsConnectReply(frame) ==> sessionId == PickSessionId(frame.value, old(sessionId))
                                        && reconnectAttempts == 0 && sinceAck == []
      ensures !IsConnectReply(frame) ==> sessionId == old(sessionId) && reconnectAttempts == old(reconnectAttempts)
                                         && sinceAck == old(sinceAck)
      ensures ws == old(ws) && closedByUser == old(closedByUser) && sent == old(sent)
      ensures delays == old(delays) && pendingTimers == old(pendingTimers)
      ensures e.None? ==> unchanged(this)
    {
      e := InboundEvent(frame);
      if IsConnectReply(frame) {
        sessionId := PickSessionId(frame.value, sessionId);
        reconnectAttempts := 0;
        sinceAck := [];
      }
      if e.Some? {
        events := events + [e.value];
      }
    }

    /** `onclose`: the close event, then a reconnect unless the user closed. */
    method TransportCloses(jitter: int) returns (e: Event)
      requires Valid() && ws.Some? && ws != Some(Closed)
      requires JitterWithin(reconnectAttempts, jitter)
      modifies this
      ensures Valid()
      ensures ws == Some(Closed)
      ensures e == CloseEvent && events == old(events) + [e]
      ensures var scheduled := !old(closedByUser) && old(reconnectAttempts) < MaxReconnectAttempts;
              && (scheduled ==> delays == old(delays) + [ReconnectDelay(old(reconnectAttempts), jitter)]
                                && reconnectAttempts == old(reconnectAttempts) + 1
                                && pendingTimers == old(pendingTimers) + 1)
              && (!scheduled ==> delays == old(delays) && reconnectAttempts == old(reconnectAttempts)
                                 && pendingTimers == old(pendingTimers))
      ensures sessionId == old(sessionId) && closedByUser == old(closedByUser) && sent == old(sent)
    {
      ws := Some(Closed);
      e := CloseEvent;
      events := events + [e];
      if !closedByUser {
        ScheduleReconnect(jitter);
      }
    }

    /** `scheduleReconnect()`: nothing after a user close or at the limit; else one timer and one more attempt. */
    method ScheduleReconnect(jitter: int)
      requires Valid()
      requires JitterWithin(reconnectAttempts, jitter)
      modifies this
      ensures Valid()
      ensures var scheduled := !old(closedByUser) && old(reconnectAttempts) < MaxReconnectAttempts;
              && (scheduled ==> delays == old(delays) + [ReconnectDelay(old(reconnectAttempts), jitter)]
                                && sinceAck == old(sinceAck) + [ReconnectDelay(old(reconnectAttempts), jitter)]
                                && reconnectAttempts == old(reconnectAttempts) + 1
                                && pendingTimers == old(pendingTimers) + 1)
              && (!scheduled ==> unchanged(this))
      ensures ws == old(ws) && sessionId == old(sessionId) && closedByUser == old(closedByUser)
      ensures sent == old(sent) && events == old(events)
    {
      if closedByUser {
        return;
      }
      if reconnectAttempts >= MaxReconnectAttempts {
        return;
      }
      var delay := ReconnectDelay(reconnectAttempts, jitter);
      reconnectAttempts := reconnectAttempts + 1;
      delays := delays + [delay];
      sinceAck := sinceAck + [delay];
      pendingTimers := pendingTimers + 1;
    }

    /** A scheduled timer fires and calls `connect()`, whatever happened since it was set. */
    method ReconnectTimerFires()
      requires Valid() && pendingTimers > 0
      modifies this
      ensures Valid()
      ensures pendingTimers == old(pendingTimers) - 1
      ensures old(Busy()) ==> ws == old(ws) && closedByUser == old(closedByUser)
      ensures !old(Busy()) ==> ws == Some(Connecting) && !closedByUser
      ensures sessionId == old(sessionId) && reconnectAttempts == old(reconnectAttempts)
      ensures sent == old(sent) && events == old(events) && delays == old(delays)
    {
      pendingTimers := pendingTimers - 1;
      Connect();
    }

    /** `startAnalysis(requirement)`: sent only on an open, sessioned transport; otherwise silently nothing. */
    method StartAnalysis(requirement: string, now: int)
      requires Valid()
      modifies this
      ensures Valid()
      ensures old(CanSend()) ==> sent == old(sent) + [Message(MessageType.StartAnalysis, sessionId, now, Some(RequirementPayload(requirement)))]
      ensures !old(CanSend()) ==> sent == old(sent)
      ensures ws == old(ws) && sessionId == old(sessionId) && reconnectAttempts == old(reconnectAttempts)
      ensures closedByUser == old(closedByUser) && events == old(events) && delays == old(delays)
      ensures sinceAck == old(sinceAck) && pendingTimers == old(pendingTimers)
    {
      if !CanSend() {
        return;
      }
      sent := sent + [Message(MessageType.StartAnalysis, sessionId, now, Some(RequirementPayload(requirement)))];
    }

    /** `answerQuestion(response)`: the same precondition, a user_answer message. */
    method AnswerQuestion(response: string, now: int)
      requires Valid()
      modifies this
      ensures Valid()
      ensures old(CanSend()) ==> sent == old(sent) + [Message(UserAnswer, sessionId, now, Some(ResponsePayload(response)))]
      ensures !old(CanSend()) ==> sent == old(sent)
      ensures ws == old(ws) && sessionId == old(sessionId) && reconnectAttempts == old(reconnectAttempts)
      ensures closedByUser == old(closedByUser) && events == old(events) && delays == old(delays)
      ensures sinceAck == old(sinceAck) && pendingTimers == old(pendingTimers)
    {
      if !CanSend() {
        return;
      }
      sent := sent + [Message(UserAnswer, sessionId, now, Some(ResponsePayload(response)))];
    }

    /**
     * `disconnect(reason)`: nothing without a transport.  Otherwise reconnects
     * are suppressed, a farewell reaches an open transport (on a connecting one
     * `send` throws and on a closing one it is dropped; both are swallowed), and
     * the transport starts closing.  The cached id and pending timers stay.
     */
    method Disconnect(reason: Option<string>, now: int)
      requires Valid()
      modifies this
      ensures Valid()
      ensures old(ws).None? ==> unchanged(this)
      ensures old(ws).Some? ==> closedByUser
      ensures old(ws) == Some(Open) ==> sent == old(sent) + [Message(MessageType.Disconnect, sessionId, now, Some(DisconnectPayload(reason)))]
      ensures old(ws) != Some(Open) ==> sent == old(sent)
      ensures old(Busy()) ==> ws == Some(Closing)
      ensures !old(Busy()) ==> ws == old(ws)
      ensures sessionId == old(sessionId) && reconnectAttempts == old(reconnectAttempts)
      ensures events == old(events) && delays == old(delays) && sinceAck == old(sinceAck)
      ensures pendingTimers == old(pendingTimers)
    {
      if ws.None? {
        return;
      }
      closedByUser := true;
      var farewell := Message(MessageType.Disconnect, sessionId, now, Some(DisconnectPayload(reason)));
      if ws == Some(Open) {
        sent := sent + [farewell];
      }
      if ws == Some(Connecting) || ws == Some(Open) {
        ws := Some(Closing);
      }
    }
  }

  /** `createAnalysisWSClient`: a new client that immediately connects. */
  method CreateClient() returns (c: Client)
    ensures fresh(c) && c.Valid()
    ensures c.ws == Some(Connecting) && c.sessionId.None? && c.reconnectAttempts == 0 && !c.closedByUser
    ensures c.sent == [] && c.events == [] && c.delays == [] && c.pendingTimers == 0
  {
    c := new Client();
    c.Connect();
  }

  /**
   * `disconnect()` does not cancel a timer already scheduled: when it fires,
   * `connect()` clears the flag again and the next close schedules another reconnect.
   */
  method DisconnectDoesNotCancelTimer()
  {
    var c := CreateClient();
    var e := c.TransportOpens(0);
    e := c.TransportCloses(0);
    assert c.pendingTimers == 1 && |c.delays| == 1;
    c.Disconnect(Some("unmount"), 1);
    assert c.closedByUser && c.sent == [ConnectMessage(None, 0)];
    c.ReconnectTimerFires();
    assert !c.closedByUser && c.ws == Some(Connecting);
    e := c.TransportCloses(0);
    assert |c.delays| == 2 && c.pendingTimers == 1;
  }

  /** Five refused connections schedule five reconnects; the sixth close schedules none. */
  method NoSixthReconnect()
  {
    var c := CreateClient();
    var e := c.TransportCloses(0);
    c.ReconnectTimerFires();
    e := c.TransportCloses(0);
    c.ReconnectTimerFires();
    e := c.TransportCloses(0);
    c.ReconnectTimerFires();
    e := c.TransportCloses(0);
    c.ReconnectTimerFires();
    e := c.TransportCloses(0);
    c.ReconnectTimerFires();
    assert c.reconnectAttempts == MaxReconnectAttempts && |c.delays| == 5;
    e := c.TransportCloses(0);
    assert |c.delays| == 5 && c.pendingTimers == 0;
  }

  /** A connect acknowledgement whose id travels only at the top level is cached; sends then carry it. */
  method AckThenSend()
  {
    var c := CreateClient();
    var e := c.TransportOpens(0);
    c.StartAnalysis("r", 1);
    assert |c.sent| == 1;
    var ack := Json.Obj(map["type" := Json.Str("connect"), "sessionId" := Json.Str("S1")]);
    var ev := c.TransportMessage(Some(ack));
    assert c.sessionId == Some("S1");
    c.StartAnalysis("r", 2);
    assert c.sent[1] == Message(MessageType.StartAnalysis, Some("S1"), 2, Some(RequirementPayload("r")));
  }
}
