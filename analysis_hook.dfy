/**
 * The analysis hook: six state cells fed by the session client's handlers,
 * the client itself (held in a ref and cleared on unmount), and three
 * forwarders to it.  The environment's transport callbacks reach the hook
 * through methods that first run the client and then apply the event the
 * client raised to the state cells.
 */
module AnalysisHook {
  import opened Wrappers
  import Json
  import opened WsClient

  /** The hook's returned state: `connected`, `sessionId`, `progress`, `results`, `error`, `question`. */
  datatype View = View(
    connected: bool,
    sessionId: Option<Json.Value>,
    progress: Option<Json.Value>,
    results: Option<Json.Value>,
    error: Option<Json.Value>,
    question: Option<string>)

  /** Every cell starts `false` or `null`. */
  const Initial := View(false, Some(Json.Null), Some(Json.Null), Some(Json.Null), Some(Json.Null), None)

  /** The question handler's text: `payload?.value ?? payload?.response ?? payload`, then `String` unless a string. */
  function QuestionText(payload: Json.Value): string
  {
    Json.ToJsString(NormalizeQuestion(Some(payload)))
  }

  /** The error handler's value: `payload?.message || "Unknown error"`. */
  function ErrorValue(payload: Option<Json.Value>): (r: Option<Json.Value>)
    ensures Json.Truthy(r)
    ensures Json.Truthy(Json.Get(payload, "message")) ==> r == Json.Get(payload, "message")
  {
    Json.Or(Json.Get(payload, "message"), Some(Json.Str("Unknown error")))
  }

  /** The state change one client event makes; every cell an event does not name is kept. */
  function Step(v: View, e: Event): (w: View)
    ensures e.OpenEvent? ==> w.connected
    ensures e.CloseEvent? ==> !w.connected
    ensures !e.OpenEvent? && !e.CloseEvent? ==> w.connected == v.connected
    ensures e.ResultsEvent? ==> w.question.None? && w.results == e.payload
    ensures e.QuestionEvent? ==> w.question.Some?
    ensures !e.ResultsEvent? && !e.QuestionEvent? ==> w.question == v.question
    ensures e.ErrorEvent? ==> Json.Truthy(w.error)
    ensures !e.ErrorEvent? ==> w.error == v.error
    ensures !e.ConnectAckEvent? ==> w.sessionId == v.sessionId
    ensures !e.ProgressEvent? ==> w.progress == v.progress
    ensures e.ConnectAckEvent? ==> w.sessionId == Json.Get(e.payload, "sessionId")
    ensures e.ProgressEvent? ==> w.progress == e.payload
    ensures e.QuestionEvent? ==> w.question == Some(QuestionText(e.question))
    ensures e.ErrorEvent? ==> w.error == ErrorValue(e.payload)
  {
    match e
    case OpenEvent(_) => v.(connected := true)
    case ConnectAckEvent(payload) => v.(sessionId := Json.Get(payload, "sessionId"))
    case ProgressEvent(payload) => v.(progress := payload)
    case QuestionEvent(q) => v.(question := Some(QuestionText(q)))
    case ResultsEvent(payload) => v.(results := payload, question := None)
    case ErrorEvent(payload) => v.(error := ErrorValue(payload))
    case CloseEvent => v.(connected := false)
  }

  /**
   * What the user sees for a server question with payload `p`: the client
   * wraps its normalised value as `{value}` and the hook normalises again.  A
   * nullish value (no `value`, `response` or payload at all, or an explicit
   * `null`) shows "[object Object]"; any other value shows `String(value)`.
   */
  lemma {:induction false} QuestionShown(p: Option<Json.Value>)
    ensures var value := NormalizeQuestion(p);
            QuestionText(QuestionPayload(value))
            == if Json.Nullish(value) then "[object Object]" else Json.ToJsString(value)
  {
    var value := NormalizeQuestion(p);
    var wrapped := QuestionPayload(value);
    if value.None? {
      assert Json.Get(Some(wrapped), "value").None?;
      assert Json.Get(Some(wrapped), "response").None?;
      assert NormalizeQuestion(Some(wrapped)) == Some(wrapped);
    } else if value.value.Null? {
      assert Json.Get(Some(wrapped), "value") == Some(Json.Null);
      assert Json.Get(Some(wrapped), "response").None?;
      assert NormalizeQuestion(Some(wrapped)) == Some(wrapped);
    } else {
      assert Json.Get(Some(wrapped), "value") == value;
      assert NormalizeQuestion(Some(wrapped)) == value;
    }
  }

  /** A server question `{response: s}` or a bare string `s` shows `s`. */
  lemma StringQuestionShown(s: string)
    ensures QuestionText(QuestionPayload(NormalizeQuestion(Some(Json.Obj(map["response" := Json.Str(s)]))))) == s
    ensures QuestionText(QuestionPayload(NormalizeQuestion(Some(Json.Str(s))))) == s
  {
    QuestionShown(Some(Json.Obj(map["response" := Json.Str(s)])));
    QuestionShown(Some(Json.Str(s)));
  }

  /** An error without a truthy message (absent, "", or no payload) shows "Unknown error". */
  lemma ErrorFallback(payload: Option<Json.Value>)
    requires !Json.Truthy(Json.Get(payload, "message"))
    ensures ErrorValue(payload) == Some(Json.Str("Unknown error"))
  {
  }

  /**
   * The hook reads the session id only from the acknowledgement's payload,
   * the client also from the top level: an acknowledgement that carries its
   * id only at the top level leaves the client with that id and the hook's
   * cell `undefined`.
   */
  lemma TopLevelIdNotShown(v: View, sid: string)
    requires sid != ""
    ensures var ack := Json.Obj(map["type" := Json.Str("connect"), "sessionId" := Json.Str(sid)]);
            && InboundEvent(Some(ack)) == Some(ConnectAckEvent(None))
            && PickSessionId(ack, None) == Some(sid)
            && Step(v, ConnectAckEvent(None)).sessionId.None?
  {
    var ack := Json.Obj(map["type" := Json.Str("connect"), "sessionId" := Json.Str(sid)]);
    assert InboundTag(ack) == Some(Messages.Connect);
  }

  class Hook {
    /** `clientRef.current`. */
    var client: Client?
    var connected: bool
    var sessionId: Option<Json.Value>
    var progress: Option<Json.Value>
    var results: Option<Json.Value>
    var error: Option<Json.Value>
    var question: Option<string>

    function State(): View
      reads this
    {
      View(connected, sessionId, progress, results, error, question)
    }

    /**
     * The client is consistent and has a transport; a reconnect timer is
     * pending only while that transport is closed, and then only one; and
     * `connected` follows the transport: an open transport has announced
     * itself, and `connected` holds only while the transport is open or,
     * after `disconnect()`, closing.
     */
    ghost predicate Valid()
      reads this, client
    {
      client != null ==>
        && client.Valid()
        && client.ws.Some?
        && client.pendingTimers <= 1
        && (client.pendingTimers > 0 ==> client.ws == Some(Closed))
        && (client.ws == Some(Open) ==> connected)
        && (connected ==> client.ws == Some(Open) || client.ws == Some(Closing))
    }

    /** The mount effect: the cells at their initial values and a new, connecting client. */
    constructor ()
      ensures Valid()
      ensures State() == Initial
      ensures client != null && fresh(client)
      ensures client.ws == Some(Connecting) && client.sessionId.None? && client.sent == [] && client.events == []
      ensures !client.closedByUser && client.reconnectAttempts == 0 && client.pendingTimers == 0
    {
      connected, sessionId, progress, results, error, question := false, Some(Json.Null), Some(Json.Null), Some(Json.Null), Some(Json.Null), None;
      var c := CreateClient();
      client := c;
    }

    /** The handler for one event. */
    method Handle(e: Event)
      modifies this
      ensures State() == Step(old(State()), e)
      ensures client == old(client)
    {
      match e
      case OpenEvent(_) => connected := true;
      case ConnectAckEvent(payload) => sessionId := Json.Get(payload, "sessionId");
      case ProgressEvent(payload) => progress := payload;
      case QuestionEvent(q) => question := Some(QuestionText(q));
      case ResultsEvent(payload) => results := payload; question := None;
      case ErrorEvent(payload) => error := ErrorValue(payload);
      case CloseEvent => connected := false;
    }

    method TransportOpens(now: int)
      requires Valid() && client != null && client.ws == Some(Connecting)
      modifies this, client
      ensures Valid() && client == old(client)
      ensures State() == Step(old(State()), OpenEvent(client.sessionId)) && connected
      ensures client.sent == old(client.sent) + [ConnectMessage(client.sessionId, now)]
      ensures client.ws == Some(Open) && client.sessionId == old(client.sessionId)
      ensures client.closedByUser == old(client.closedByUser) && client.reconnectAttempts == old(client.reconnectAttempts)
      ensures client.pendingTimers == old(client.pendingTimers)
    {
      var e := client.TransportOpens(now);
      Handle(e);
    }

    method TransportMessage(frame: Option<Json.Value>)
      requires Valid() && client != null
      modifies this, client
      ensures Valid() && client == old(client)
      ensures InboundEvent(frame).Some? ==> State() == Step(old(State()), InboundEvent(frame).value)
      ensures InboundEvent(frame).None? ==> State() == old(State())
      ensures client.sent == old(client.sent) && client.ws == old(client.ws)
      ensures IsConnectReply(frame) ==> client.sessionId == PickSessionId(frame.value, old(client.sessionId))
      ensures !IsConnectReply(frame) ==> client.sessionId == old(client.sessionId)
      ensures IsConnectReply(frame) ==> client.reconnectAttempts == 0 && client.sinceAck == []
      ensures !IsConnectReply(frame) ==> client.reconnectAttempts == old(client.reconnectAttempts)
                                         && client.sinceAck == old(client.sinceAck)
      ensures client.closedByUser == old(client.closedByUser) && client.delays == old(client.delays)
      ensures client.pendingTimers == old(client.pendingTimers)
    {
      var e := client.TransportMessage(frame);
      if e.Some? {
        Handle(e.value);
      }
    }

    method TransportCloses(jitter: int)
      requires Valid() && client != null && client.ws.Some? && client.ws != Some(Closed)
      requires JitterWithin(client.reconnectAttempts, jitter)
      modifies this, client
      ensures Valid() && client == old(client)
      ensures State() == Step(old(State()), CloseEvent) && !connected
      ensures client.ws == Some(Closed) && client.sent == old(client.sent)
      ensures client.closedByUser == old(client.closedByUser) && client.sessionId == old(client.sessionId)
      ensures var scheduled := !old(client.closedByUser) && old(client.reconnectAttempts) < MaxReconnectAttempts;
              && (scheduled ==> client.delays == old(client.delays) + [ReconnectDelay(old(client.reconnectAttempts), jitter)]
                                && client.reconnectAttempts == old(client.reconnectAttempts) + 1
                                && client.pendingTimers == old(client.pendingTimers) + 1)
              && (!scheduled ==> client.delays == old(client.delays)
                                 && client.reconnectAttempts == old(client.reconnectAttempts)
                                 && client.pendingTimers == old(client.pendingTimers))
    {
      var e := client.TransportCloses(jitter);
      Handle(e);
    }

    /**
     * A reconnect timer fires and the client connects again, clearing the
     * user-close flag even after a `disconnect`; no handler runs until the new
     * transport reports.
     */
    method ReconnectTimerFires()
      requires Valid() && client != null && client.pendingTimers > 0
      modifies client
      ensures Valid() && client == old(client)
      ensures State() == old(State())
      ensures client.pendingTimers == old(client.pendingTimers) - 1
      ensures client.ws == Some(Connecting) && !client.closedByUser
      ensures client.sessionId == old(client.sessionId) && client.reconnectAttempts == old(client.reconnectAttempts)
      ensures client.sent == old(client.sent) && client.delays == old(client.delays)
    {
      client.ReconnectTimerFires();
    }

    /** `startAnalysis`: forwarded to the client when there is one; the cells do not change. */
    method StartAnalysis(requirement: string, now: int)
      requires Valid()
      modifies client
      ensures Valid() && client == old(client) && State() == old(State())
      ensures client != null && old(client.CanSend()) ==>
                client.sent == old(client.sent) + [Messages.Message(Messages.StartAnalysis, client.sessionId, now,
                                                                   Some(Messages.RequirementPayload(requirement)))]
      ensures client != null && !old(client.CanSend()) ==> client.sent == old(client.sent)
      ensures client != null ==> client.ws == old(client.ws) && client.sessionId == old(client.sessionId)
      ensures client != null ==> client.closedByUser == old(client.closedByUser)
                                 && client.reconnectAttempts == old(client.reconnectAttempts)
                                 && client.pendingTimers == old(client.pendingTimers)
    {
      if client != null {
        client.StartAnalysis(requirement, now);
      }
    }

    /** `answerQuestion`: forwarded to the client when there is one; the cells do not change. */
    method AnswerQuestion(response: string, now: int)
      requires Valid()
      modifies client
      ensures Valid() && client == old(client) && State() == old(State())
      ensures client != null && old(client.CanSend()) ==>
                client.sent == old(client.sent) + [Messages.Message(Messages.UserAnswer, client.sessionId, now,
                                                                   Some(Messages.ResponsePayload(response)))]
      ensures client != null && !old(client.CanSend()) ==> client.sent == old(client.sent)
      ensures client != null ==> client.ws == old(client.ws) && client.sessionId == old(client.sessionId)
      ensures client != null ==> client.closedByUser == old(client.closedByUser)
                                 && client.reconnectAttempts == old(client.reconnectAttempts)
                                 && client.pendingTimers == old(client.pendingTimers)
    {
      if client != null {
        client.AnswerQuestion(response, now);
      }
    }

    /** `disconnect`: forwarded to the client when there is one; the cells do not change. */
    method Disconnect(reason: Option<string>, now: int)
      requires Valid()
      modifies client
      ensures Valid() && client == old(client) && State() == old(State())
      ensures client != null ==> client.closedByUser
      ensures client != null && old(client.ws) == Some(Open) ==>
                client.sent == old(client.sent) + [Messages.Message(Messages.Disconnect, client.sessionId, now,
                                                                   Some(Messages.DisconnectPayload(reason)))]
      ensures client != null && old(client.ws) != Some(Open) ==> client.sent == old(client.sent)
      ensures client != null ==> client.ws == (if old(client.Busy()) then Some(Closing) else old(client.ws))
      ensures client != null ==> client.pendingTimers == old(client.pendingTimers) && client.sessionId == old(client.sessionId)
      ensures client != null ==> client.reconnectAttempts == old(client.reconnectAttempts)
    {
      if client != null {
        client.Disconnect(reason, now);
      }
    }

    /**
     * The cleanup: `disconnect("unmount")`, then the ref is cleared and later calls do nothing.
     * A reconnect timer already scheduled is not cancelled: the released client keeps it.
     */
    method Unmount(now: int)
      requires Valid() && client != null
      modifies this, client
      ensures Valid() && client == null && State() == old(State())
      ensures old(client).Valid() && old(client).closedByUser
      ensures old(client).ws == (if old(client.Busy()) then Some(Closing) else old(client.ws))
      ensures old(client).pendingTimers == old(client.pendingTimers)
      ensures old(client).sessionId == old(client.sessionId)
      ensures old(client.ws) == Some(Open) ==>
                old(client).sent == old(client.sent) + [Messages.Message(Messages.Disconnect, old(client.sessionId), now,
                                                                        Some(Messages.DisconnectPayload(Some("unmount"))))]
    {
      client.Disconnect(Some("unmount"), now);
      client := null;
    }
  }

  /** Open, then acknowledge with a top-level id only: the client answers with the id the hook never shows. */
  method SessionIdScenario()
  {
    var h := new Hook();
    h.TransportOpens(0);
    var ack := Json.Obj(map["type" := Json.Str("connect"), "sessionId" := Json.Str("S1")]);
    TopLevelIdNotShown(h.State(), "S1");
    h.TransportMessage(Some(ack));
    assert h.client.sessionId == Some("S1") && h.sessionId.None?;
    h.AnswerQuestion("Clinician", 1);
    assert h.client.sent[1] == Messages.Message(Messages.UserAnswer, Some("S1"), 1, Some(Messages.ResponsePayload("Clinician")));
  }

  /** After unmount the forwarders reach no client. */
  method UnmountScenario()
  {
    var h := new Hook();
    h.Unmount(0);
    h.StartAnalysis("late", 1);
    assert h.client == null && h.State() == Initial;
  }

  /** Unmounting while a reconnect is scheduled: the timer still fires and the released client connects again. */
  method UnmountWithPendingTimer()
  {
    var h := new Hook();
    h.TransportOpens(0);
    h.TransportCloses(0);
    var c := h.client;
    assert c.pendingTimers == 1;
    h.Unmount(1);
    assert h.client == null && c.closedByUser && c.pendingTimers == 1;
    c.ReconnectTimerFires();
    assert c.ws == Some(WsClient.Connecting) && !c.closedByUser;
  }
}
