/**
 * The wire protocol of the analysis socket: a closed set of eight message
 * tags, the per-tag rule on which messages carry a session id, and the
 * payload records.  `ToJson` gives the object a message is serialised from;
 * `Decode` reads one back, rejecting whatever breaks the per-tag rules.
 */
module Messages {
  import opened Wrappers
  import Json

  datatype MessageType =
    | Connect
    | StartAnalysis
    | UserInput
    | UserAnswer
    | ProgressUpdate
    | Results
    | Error
    | Disconnect

  /** The string each tag travels as in the `type` field. */
  function Tag(t: MessageType): string {
    match t
    case Connect => "connect"
    case StartAnalysis => "start_analysis"
    case UserInput => "user_input"
    case UserAnswer => "user_answer"
    case ProgressUpdate => "progress_update"
    case Results => "results"
    case Error => "error"
    case Disconnect => "disconnect"
  }

  /** Reads a `type` string; a string that is none of the eight tags is unknown. */
  function ParseTag(s: string): (r: Option<MessageType>)
    ensures r.Some? ==> Tag(r.value) == s
    ensures r.None? ==> forall t: MessageType :: Tag(t) != s
  {
    if s == "connect" then Some(Connect)
    else if s == "start_analysis" then Some(StartAnalysis)
    else if s == "user_input" then Some(UserInput)
    else if s == "user_answer" then Some(UserAnswer)
    else if s == "progress_update" then Some(ProgressUpdate)
    else if s == "results" then Some(Results)
    else if s == "error" then Some(Error)
    else if s == "disconnect" then Some(Disconnect)
    else None
  }

  const AllTypes: seq<MessageType> :=
    [Connect, StartAnalysis, UserInput, UserAnswer, ProgressUpdate, Results, Error, Disconnect]

  /** The tag set is closed: exactly eight tags, travelling as eight distinct strings. */
  lemma EightDistinctTags()
    ensures |AllTypes| == 8
    ensures forall t: MessageType :: t in AllTypes
    ensures forall i, j :: 0 <= i < j < |AllTypes| ==> Tag(AllTypes[i]) != Tag(AllTypes[j])
    ensures forall t: MessageType :: ParseTag(Tag(t)) == Some(t)
  {
    forall t: MessageType ensures t in AllTypes {
      match t
      case Connect => assert AllTypes[0] == t;
      case StartAnalysis => assert AllTypes[1] == t;
      case UserInput => assert AllTypes[2] == t;
      case UserAnswer => assert AllTypes[3] == t;
      case ProgressUpdate => assert AllTypes[4] == t;
      case Results => assert AllTypes[5] == t;
      case Error => assert AllTypes[6] == t;
      case Disconnect => assert AllTypes[7] == t;
    }
  }

  /** start_analysis, user_input, user_answer, progress_update and results must carry a session id. */
  predicate SessionIdRequired(t: MessageType) {
    match t
    case StartAnalysis | UserInput | UserAnswer | ProgressUpdate | Results => true
    case Connect | Error | Disconnect => false
  }

  datatype Stage = Initialization | Understanding | Completion

  function StageName(s: Stage): string {
    match s
    case Initialization => "initialization"
    case Understanding => "understanding"
    case Completion => "completion"
  }

  function ParseStage(s: string): (r: Option<Stage>)
    ensures r.Some? ==> StageName(r.value) == s
    ensures r.None? ==> forall st: Stage :: StageName(st) != s
  {
    if s == "initialization" then Some(Initialization)
    else if s == "understanding" then Some(Understanding)
    else if s == "completion" then Some(Completion)
    else None
  }

  /** `progress` is documented as a percentage; nothing on the client enforces it. */
  datatype ProgressPayload = ProgressPayload(stage: Stage, progress: int, message: Option<string>)

  datatype Role = SystemRole | UserRole | AssistantRole

  function RoleName(r: Role): string {
    match r
    case SystemRole => "system"
    case UserRole => "user"
    case AssistantRole => "assistant"
  }

  function ParseRole(s: string): (r: Option<Role>)
    ensures r.Some? ==> RoleName(r.value) == s
    ensures r.None? ==> forall ro: Role :: RoleName(ro) != s
  {
    if s == "system" then Some(SystemRole)
    else if s == "user" then Some(UserRole)
    else if s == "assistant" then Some(AssistantRole)
    else None
  }

  datatype HistoryEntry = HistoryEntry(role: Role, content: string)

  datatype ResultsPayload = ResultsPayload(
    insights: seq<string>,
    conversationHistory: seq<HistoryEntry>,
    visitedUrls: Option<seq<string>>,
    flowChart: Option<string>)

  datatype ErrorPayload = ErrorPayload(
    code: string,
    message: string,
    recoverable: Option<bool>,
    details: Option<Json.Value>)

  datatype Payload =
    | ConnectPayload(clientId: Option<string>, sessionId: Option<string>)
    | RequirementPayload(requirement: string)
    | ResponsePayload(response: string)
    | ProgressPayloadOf(progress: ProgressPayload)
    | ResultsPayloadOf(results: ResultsPayload)
    | ErrorPayloadOf(error: ErrorPayload)
    | DisconnectPayload(reason: Option<string>)

  /** Every message has a timestamp; the session id and the payload are optional at this level. */
  datatype Message = Message(
    kind: MessageType,
    sessionId: Option<string>,
    timestamp: int,
    payload: Option<Payload>)

  /** The payload record each tag declares. */
  predicate PayloadFits(t: MessageType, p: Payload) {
    match t
    case Connect => p.ConnectPayload?
    case StartAnalysis => p.RequirementPayload?
    case UserInput | UserAnswer => p.ResponsePayload?
    case ProgressUpdate => p.ProgressPayloadOf?
    case Results => p.ResultsPayloadOf?
    case Error => p.ErrorPayloadOf?
    case Disconnect => p.DisconnectPayload?
  }

  predicate WellFormed(m: Message) {
    && (SessionIdRequired(m.kind) ==> m.sessionId.Some?)
    && (m.payload.Some? ==> PayloadFits(m.kind, m.payload.value))
  }

  // ---------------------------------------------------------------------
  // The JSON object of a message (undefined fields are omitted, as
  // JSON.stringify omits them).

  function OptStrField(key: string, o: Option<string>): map<string, Json.Value> {
    if o.Some? then map[key := Json.Str(o.value)] else map[]
  }

  function StringsToJson(ss: seq<string>): seq<Json.Value> {
    seq(|ss|, i requires 0 <= i < |ss| => Json.Str(ss[i]))
  }

  function EntryToJson(e: HistoryEntry): Json.Value {
    Json.Obj(map["role" := Json.Str(RoleName(e.role)), "content" := Json.Str(e.content)])
  }

  function EntriesToJson(es: seq<HistoryEntry>): seq<Json.Value> {
    seq(|es|, i requires 0 <= i < |es| => EntryToJson(es[i]))
  }

  function PayloadToJson(p: Payload): Json.Value {
    match p
    case ConnectPayload(c, s) => Json.Obj(OptStrField("clientId", c) + OptStrField("sessionId", s))
    case RequirementPayload(r) => Json.Obj(map["requirement" := Json.Str(r)])
    case ResponsePayload(r) => Json.Obj(map["response" := Json.Str(r)])
    case ProgressPayloadOf(pp) => Json.Obj(ProgressFields(pp))
    case ResultsPayloadOf(rp) => Json.Obj(ResultsFields(rp))
    case ErrorPayloadOf(ep) => Json.Obj(ErrorFields(ep))
    case DisconnectPayload(r) => Json.Obj(OptStrField("reason", r))
  }

  function ProgressFields(pp: ProgressPayload): map<string, Json.Value> {
    map["stage" := Json.Str(StageName(pp.stage)), "progress" := Json.Num(pp.progress)]
    + OptStrField("message", pp.message)
  }

  function ErrorFields(ep: ErrorPayload): map<string, Json.Value> {
    map["code" := Json.Str(ep.code), "message" := Json.Str(ep.message)]
    + (if ep.recoverable.Some? then map["recoverable" := Json.Bool(ep.recoverable.value)] else map[])
    + (if ep.details.Some? then map["details" := ep.details.value] else map[])
  }

  function ResultsFields(rp: ResultsPayload): map<string, Json.Value> {
    map["insights" := Json.Arr(StringsToJson(rp.insights)),
        "conversationHistory" := Json.Arr(EntriesToJson(rp.conversationHistory))]
    + (if rp.visitedUrls.Some? then map["visitedUrls" := Json.Arr(StringsToJson(rp.visitedUrls.value))] else map[])
    + OptStrField("flowChart", rp.flowChart)
  }

  function ToJson(m: Message): Json.Value {
    Json.Obj(map["type" := Json.Str(Tag(m.kind)), "timestamp" := Json.Num(m.timestamp)]
             + OptStrField("sessionId", m.sessionId)
             + (if m.payload.Some? then map["payload" := PayloadToJson(m.payload.value)] else map[]))
  }

  // ---------------------------------------------------------------------
  // Reading a message back.

  /** An optional string field: absent is `Some(None)`, present but not a string is `None`. */
  function OptStr(f: map<string, Json.Value>, key: string): Option<Option<string>> {
    if key !in f then Some(None)
    else if f[key].Str? then Some(Some(f[key].s))
    else None
  }

  function DecodeStrings(items: seq<Json.Value>): (r: Option<seq<string>>)
    ensures r.Some? ==> |r.value| == |items|
  {
    if forall i :: 0 <= i < |items| ==> items[i].Str? then
      Some(seq(|items|, i requires 0 <= i < |items| && items[i].Str? => items[i].s))
    else None
  }

  function DecodeEntry(v: Json.Value): Option<HistoryEntry> {
    if v.Obj? && "role" in v.fields && v.fields["role"].Str? && "content" in v.fields
       && v.fields["content"].Str? && ParseRole(v.fields["role"].s).Some?
    then Some(HistoryEntry(ParseRole(v.fields["role"].s).value, v.fields["content"].s))
    else None
  }

  function DecodeEntries(items: seq<Json.Value>): Option<seq<HistoryEntry>> {
    if forall i :: 0 <= i < |items| ==> DecodeEntry(items[i]).Some? then
      Some(seq(|items|, i requires 0 <= i < |items| && DecodeEntry(items[i]).Some? => DecodeEntry(items[i]).value))
    else None
  }

  function DecodeResults(f: map<string, Json.Value>): Option<ResultsPayload> {
    if "insights" in f && f["insights"].Arr? && DecodeStrings(f["insights"].items).Some?
       && "conversationHistory" in f && f["conversationHistory"].Arr?
       && DecodeEntries(f["conversationHistory"].items).Some?
       && ("visitedUrls" in f ==> f["visitedUrls"].Arr? && DecodeStrings(f["visitedUrls"].items).Some?)
       && OptStr(f, "flowChart").Some?
    then
      Some(ResultsPayload(
        DecodeStrings(f["insights"].items).value,
        DecodeEntries(f["conversationHistory"].items).value,
        if "visitedUrls" in f then Some(DecodeStrings(f["visitedUrls"].items).value) else None,
        OptStr(f, "flowChart").value))
    else None
  }

  function DecodeError(f: map<string, Json.Value>): Option<ErrorPayload> {
    if "code" in f && f["code"].Str? && "message" in f && f["message"].Str?
       && ("recoverable" in f ==> f["recoverable"].Bool?)
    then
      Some(ErrorPayload(f["code"].s, f["message"].s,
        if "recoverable" in f then Some(f["recoverable"].b) else None,
        if "details" in f then Some(f["details"]) else None))
    else None
  }

  /** The payload record of tag `t`, read from its JSON object. */
  function DecodePayload(t: MessageType, v: Json.Value): (r: Option<Payload>)
    ensures r.Some? ==> PayloadFits(t, r.value)
  {
    if !v.Obj? then None
    else
      var f := v.fields;
      match t
      case Connect =>
        if OptStr(f, "clientId").Some? && OptStr(f, "sessionId").Some?
        then Some(ConnectPayload(OptStr(f, "clientId").value, OptStr(f, "sessionId").value)) else None
      case StartAnalysis =>
        if "requirement" in f && f["requirement"].Str? then Some(RequirementPayload(f["requirement"].s)) else None
      case UserInput | UserAnswer =>
        if "response" in f && f["response"].Str? then Some(ResponsePayload(f["response"].s)) else None
      case ProgressUpdate =>
        if "stage" in f && f["stage"].Str? && ParseStage(f["stage"].s).Some?
           && "progress" in f && f["progress"].Num? && OptStr(f, "message").Some?
        then Some(ProgressPayloadOf(ProgressPayload(ParseStage(f["stage"].s).value, f["progress"].n,
                                                    OptStr(f, "message").value)))
        else None
      case Results =>
        if DecodeResults(f).Some? then Some(ResultsPayloadOf(DecodeResults(f).value)) else None
      case Error =>
        if DecodeError(f).Some? then Some(ErrorPayloadOf(DecodeError(f).value)) else None
      case Disconnect =>
        if OptStr(f, "reason").Some? then Some(DisconnectPayload(OptStr(f, "reason").value)) else None
  }

  /** Reads a message object; a missing timestamp, an unknown tag or a missing required session id rejects it. */
  function Decode(v: Json.Value): (r: Option<Message>)
    ensures r.Some? ==> WellFormed(r.value)
    ensures r.Some? ==> v.Obj? && "timestamp" in v.fields && v.fields["timestamp"] == Json.Num(r.value.timestamp)
    ensures r.Some? ==> "type" in v.fields && v.fields["type"] == Json.Str(Tag(r.value.kind))
  {
    if v.Obj? && "type" in v.fields && v.fields["type"].Str? && ParseTag(v.fields["type"].s).Some?
       && "timestamp" in v.fields && v.fields["timestamp"].Num? && OptStr(v.fields, "sessionId").Some?
    then
      var t := ParseTag(v.fields["type"].s).value;
      var sid := OptStr(v.fields, "sessionId").value;
      if SessionIdRequired(t) && sid.None? then None
      else if "payload" !in v.fields then Some(Message(t, sid, v.fields["timestamp"].n, None))
      else
        var p := DecodePayload(t, v.fields["payload"]);
        if p.None? then None else Some(Message(t, sid, v.fields["timestamp"].n, p))
    else None
  }

  lemma DecodeStringsToJson(ss: seq<string>)
    ensures DecodeStrings(StringsToJson(ss)) == Some(ss)
  {
    var items := StringsToJson(ss);
    assert forall i :: 0 <= i < |items| ==> items[i].Str?;
    assert seq(|items|, i requires 0 <= i < |items| && items[i].Str? => items[i].s) == ss;
  }

  lemma DecodeEntriesToJson(es: seq<HistoryEntry>)
    ensures DecodeEntries(EntriesToJson(es)) == Some(es)
  {
    var items := EntriesToJson(es);
    forall i | 0 <= i < |items| ensures DecodeEntry(items[i]) == Some(es[i]) {
      assert ParseRole(RoleName(es[i].role)) == Some(es[i].role) by {
        match es[i].role
        case SystemRole =>
        case UserRole =>
        case AssistantRole =>
      }
    }
    assert seq(|items|, i requires 0 <= i < |items| && DecodeEntry(items[i]).Some? => DecodeEntry(items[i]).value) == es;
  }

  lemma DecodePayloadToJson(t: MessageType, p: Payload)
    requires PayloadFits(t, p)
    ensures DecodePayload(t, PayloadToJson(p)) == Some(p)
  {
    match p
    case ProgressPayloadOf(pp) =>
      assert ParseStage(StageName(pp.stage)) == Some(pp.stage) by {
        match pp.stage
        case Initialization =>
        case Understanding =>
        case Completion =>
      }
    case ResultsPayloadOf(rp) =>
      DecodeResultsFields(rp);
    case ErrorPayloadOf(ep) =>
      DecodeErrorFields(ep);
    case _ =>
  }

  /** The error object reads back as the error record. */
  lemma DecodeErrorFields(ep: ErrorPayload)
    ensures DecodeError(ErrorFields(ep)) == Some(ep)
  {
  }

  /** The results object reads back as the results record. */
  lemma DecodeResultsFields(rp: ResultsPayload)
    ensures DecodeResults(ResultsFields(rp)) == Some(rp)
  {
    DecodeStringsToJson(rp.insights);
    DecodeEntriesToJson(rp.conversationHistory);
    if rp.visitedUrls.Some? {
      DecodeStringsToJson(rp.visitedUrls.value);
    }
    var f := ResultsFields(rp);
    assert f["insights"] == Json.Arr(StringsToJson(rp.insights));
    assert f["conversationHistory"].items == EntriesToJson(rp.conversationHistory);
    assert "visitedUrls" in f <==> rp.visitedUrls.Some?;
    assert rp.visitedUrls.Some? ==> f["visitedUrls"] == Json.Arr(StringsToJson(rp.visitedUrls.value));
    assert OptStr(f, "flowChart") == Some(rp.flowChart);
  }

  /** Serialising a well-formed message and reading it back gives the same message. */
  lemma {:induction false} DecodeToJson(m: Message)
    requires WellFormed(m)
    ensures Decode(ToJson(m)) == Some(m)
  {
    assert ParseTag(Tag(m.kind)) == Some(m.kind) by { EightDistinctTags(); }
    if m.payload.Some? {
      DecodePayloadToJson(m.kind, m.payload.value);
    }
  }

  /** A message whose tag requires a session id is rejected without one. */
  lemma MissingSessionIdRejected(v: Json.Value)
    requires v.Obj? && "type" in v.fields && "sessionId" !in v.fields
    requires v.fields["type"].Str? && ParseTag(v.fields["type"].s).Some?
    requires SessionIdRequired(ParseTag(v.fields["type"].s).value)
    ensures Decode(v) == None
  {
  }
}
