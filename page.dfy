/**
 * The page: which screen is shown (`appState`), the confirmed understanding,
 * the generated test cases, the loading message, the answer dialog, and the
 * error toasts raised so far.  Each handler is one atomic transition; the
 * server actions' settled calls (a reply, or the message of a rejection) and
 * `JSON.parse` are parameters, and the analysis
 * hook is the live object of the hook module.
 */
module Page {
  import opened Wrappers
  import Json
  import Text
  import Actions
  import opened Domain
  import opened AnalysisHook
  import WsClient
  import Messages

  datatype AppState = Home | Input | Understanding | Generating | Results

  /** `{ originalRequirements, summary, flowchartData }`; the values are whatever the page's handlers stored. */
  datatype UnderstandingData = UnderstandingData(
    originalRequirements: Option<Json.Value>,
    summary: Option<Json.Value>,
    flowchartData: Option<Json.Value>)

  /**
   * The page's state cells, and the toasts shown (each toast's description).
   * `testCases` is `None` when the page stored an undefined list: the
   * non-null assertion on the reply's `testCases` checks nothing at run time.
   */
  datatype PageView = PageView(
    appState: AppState,
    understanding: Option<UnderstandingData>,
    testCases: Option<seq<TestCase>>,
    loadingMessage: Option<string>,
    answerText: string,
    questionOpen: bool,
    toasts: seq<Json.Value>)

  const CharLimit := 5000
  const ProcessingAnswer := "Processing your answer..."
  const ConnectingEngine := "Connecting to analysis engine..."
  const AnalyzingRequirements := "Analyzing requirements..."
  const GeneratingTests := "Generating test cases... This may take a moment."
  const FlowchartMissing := "Flowchart data missing from results"
  const ResultsUnparsable := "Failed to parse results from WebSocket."
  const AnalyzeFailed := "Failed to analyze requirements."
  const TestsFailed := "Failed to generate test cases."
  const RequirementsMissing := "Original requirements not found. Please start over."

  /** `canSubmitAnswer`: something besides white space, and within the limit. */
  predicate CanSubmit(answer: string) {
    !Text.Blank(answer) && |answer| <= CharLimit
  }

  /** The spinner: shown while generating or while a loading message is set. */
  predicate Spinner(v: PageView) {
    v.appState == Generating || (v.loadingMessage.Some? && v.loadingMessage.value != "")
  }

  /**
   * The cells after `handleSubmitAnswer`: a valid answer clears the text,
   * closes the dialog and shows the loader; an invalid one changes nothing.
   */
  function SubmitView(v: PageView): (w: PageView)
    ensures CanSubmit(v.answerText) ==> w.appState == Generating && Spinner(w) && w.answerText == "" && !w.questionOpen
    ensures !CanSubmit(v.answerText) ==> w == v
    ensures w.understanding == v.understanding && w.testCases == v.testCases && w.toasts == v.toasts
  {
    if CanSubmit(v.answerText) then
      v.(answerText := "", questionOpen := false, loadingMessage := Some(ProcessingAnswer), appState := Generating)
    else v
  }

  /** `handleFatalError(message)`: a toast, no loading message, back to the input screen. */
  function FatalError(v: PageView, message: Json.Value): (w: PageView)
    ensures w.appState == Input && w.loadingMessage.None? && !Spinner(w)
    ensures w.toasts == v.toasts + [message]
    ensures w.understanding == v.understanding && w.testCases == v.testCases
    ensures w.answerText == v.answerText && w.questionOpen == v.questionOpen
  {
    v.(appState := Input, loadingMessage := None, toasts := v.toasts + [message])
  }

  /**
   * `e.message || fallback` for an error built from `text`: the toast shows
   * the message, and is never empty when the fallback is not.
   */
  function ErrorText(text: string, fallback: string): (r: Json.Value)
    ensures text != "" ==> r == Json.Str(text)
    ensures text == "" ==> r == Json.Str(fallback)
    ensures fallback != "" ==> Json.Truthy(Some(r))
  {
    Json.Str(if text != "" then text else fallback)
  }

  /** `if (result.error) throw new Error(result.error)`: an error field that is a non-empty string. */
  predicate Raises(error: Option<string>) {
    error.Some? && error.value != ""
  }

  /**
   * `fallbackGenerateUnderstanding(requirements)` once the action has settled:
   * `call` is its reply, or the message of the error it was rejected with.
   */
  function Fallback(v: PageView, requirements: string, call: Result<Actions.UnderstandingReply, string>): (w: PageView)
    ensures w.loadingMessage.None? && w.testCases == v.testCases
    ensures w.answerText == v.answerText && w.questionOpen == v.questionOpen
    ensures call.Failure? ==>
              w.appState == Input && w.understanding == v.understanding && w.toasts == v.toasts + [ErrorText(call.error, AnalyzeFailed)]
    ensures call.Success? && Raises(call.value.error) ==>
              w.appState == Input && w.understanding == v.understanding && w.toasts == v.toasts + [Json.Str(call.value.error.value)]
    ensures call.Success? && !Raises(call.value.error) ==>
              && w.appState == Understanding && w.toasts == v.toasts
              && w.understanding == Some(UnderstandingData(Some(Json.Str(requirements)), AsValue(call.value.summary),
                                                           call.value.flowchartData))
  {
    var loading := v.(loadingMessage := Some(AnalyzingRequirements), appState := Generating);
    var settled :=
      if call.Failure? then FatalError(loading, ErrorText(call.error, AnalyzeFailed))
      else if Raises(call.value.error) then FatalError(loading, ErrorText(call.value.error.value, AnalyzeFailed))
      else loading.(understanding := Some(UnderstandingData(Some(Json.Str(requirements)), AsValue(call.value.summary),
                                                            call.value.flowchartData)),
                    appState := Understanding);
    settled.(loadingMessage := None)
  }

  /** `result.summary!` as stored: a present summary is its string, an absent one stays `undefined`. */
  function AsValue(s: Option<string>): (r: Option<Json.Value>)
    ensures r.Some? <==> s.Some?
    ensures s.Some? ==> r == Some(Json.Str(s.value))
  {
    if s.Some? then Some(Json.Str(s.value)) else None
  }

  /** Text holding a `{` with a `}` somewhere after it: what `/\{[\s\S]*\}/` finds. */
  predicate Braced(s: string) {
    exists i, j :: 0 <= i < j < |s| && s[i] == '{' && s[j] == '}'
  }

  /** `e?.content` when it is a string. */
  function Content(e: Json.Value): Option<string> {
    var c := Json.Get(Some(e), "content");
    if c.Some? && c.value.Str? then Some(c.value.s) else None
  }

  /** A history entry whose string content holds a braced blob. */
  predicate Candidate(e: Json.Value) {
    Content(e).Some? && Braced(Content(e).value)
  }

  /** `[...history].reverse().find(...)`: the index of the last candidate, or -1. */
  function LastCandidate(history: seq<Json.Value>): (i: int)
    ensures -1 <= i < |history|
    ensures i == -1 <==> forall k :: 0 <= k < |history| ==> !Candidate(history[k])
    ensures i >= 0 ==> Candidate(history[i]) && forall k :: i < k < |history| ==> !Candidate(history[k])
  {
    if history == [] then -1
    else if Candidate(history[|history| - 1]) then |history| - 1
    else
      assert forall k :: 0 <= k < |history| - 1 ==> history[..|history| - 1][k] == history[k];
      LastCandidate(history[..|history| - 1])
  }

  /**
   * The flowchart text of a results payload: a non-empty top-level
   * `flowChart` string, otherwise the content of the last candidate entry of
   * `conversationHistory`, otherwise nothing.
   */
  function FlowchartText(results: Option<Json.Value>): (r: Option<string>)
    ensures r.Some? ==> r.value != ""
    ensures var top := Json.Get(results, "flowChart");
            top.Some? && top.value.Str? && top.value.s != "" ==> r == Some(top.value.s)
  {
    var top := Json.Get(results, "flowChart");
    if top.Some? && top.value.Str? && top.value.s != "" then Some(top.value.s)
    else
      var history := Json.Get(results, "conversationHistory");
      if history.Some? && history.value.Arr? && LastCandidate(history.value.items) >= 0 then
        Content(history.value.items[LastCandidate(history.value.items)])
      else None
  }

  /** `Array.isArray(results.insights) ? results.insights[0] : ""`; `None` is `undefined`. */
  function Summary(results: Option<Json.Value>): (r: Option<Json.Value>)
    ensures var ins := Json.Get(results, "insights");
            && (!(ins.Some? && ins.value.Arr?) ==> r == Some(Json.Str("")))
            && (ins.Some? && ins.value.Arr? && ins.value.items != [] ==> r == Some(ins.value.items[0]))
            && (ins.Some? && ins.value.Arr? && ins.value.items == [] ==> r.None?)
  {
    var ins := Json.Get(results, "insights");
    if ins.Some? && ins.value.Arr? then (if ins.value.items != [] then Some(ins.value.items[0]) else None)
    else Some(Json.Str(""))
  }

  /** The results effect, for a new `results` value; `parse` is `JSON.parse` with its error message. */
  function ResultsEffect(v: PageView, results: Option<Json.Value>, parse: string -> Result<Json.Value, string>): PageView {
    if !Json.Truthy(results) then v
    else
      var summary := Summary(results);
      match FlowchartText(results)
      case None => FatalError(v, Json.Str(FlowchartMissing))
      case Some(text) =>
        match parse(Actions.Clean(text))
        case Failure(message) => FatalError(v, ErrorText(message, ResultsUnparsable))
        case Success(data) =>
          var prior := if v.understanding.Some? then v.understanding.value.originalRequirements else None;
          v.(understanding := Some(UnderstandingData(Json.Or(prior, summary), summary, Some(data))),
             appState := Understanding, loadingMessage := None)
  }

  /** `progress.message || \`Stage: ${progress.stage} (${progress.progress}%)\``, as the text shown. */
  function ProgressText(progress: Option<Json.Value>): (r: string)
    ensures var m := Json.Get(progress, "message"); m.Some? && m.value.Str? && m.value.s != "" ==> r == m.value.s
    ensures !Json.Truthy(Json.Get(progress, "message")) ==> |r| > 7 && r[..7] == "Stage: "
  {
    var m := Json.Get(progress, "message");
    if Json.Truthy(m) then Json.ToJsString(m)
    else "Stage: " + Json.ToJsString(Json.Get(progress, "stage")) + " ("
         + Json.ToJsString(Json.Get(progress, "progress")) + "%)"
  }

  /** `understandingData?.originalRequirements` is truthy. */
  predicate HasRequirements(v: PageView) {
    v.understanding.Some? && Json.Truthy(v.understanding.value.originalRequirements)
  }

  /**
   * `handleGenerateTests(summary)` once the action has settled: `call` is its
   * reply, or the message of the error it was rejected with.  Without stored
   * requirements the action is not called and `call` plays no part.
   */
  function GenerateTestsView(v: PageView, call: Result<Actions.TestsReply, string>): (w: PageView)
    ensures w.loadingMessage.None? && !Spinner(w) && w.understanding == v.understanding
    ensures w.answerText == v.answerText && w.questionOpen == v.questionOpen
    ensures !HasRequirements(v) ==>
              w.appState == Input && w.testCases == v.testCases && w.toasts == v.toasts + [Json.Str(RequirementsMissing)]
    ensures HasRequirements(v) && call.Failure? ==>
              w.appState == Input && w.testCases == v.testCases && w.toasts == v.toasts + [ErrorText(call.error, TestsFailed)]
    ensures HasRequirements(v) && call.Success? && Raises(call.value.error) ==>
              w.appState == Input && w.testCases == v.testCases && w.toasts == v.toasts + [Json.Str(call.value.error.value)]
    ensures HasRequirements(v) && call.Success? && !Raises(call.value.error) ==>
              && w.appState == Results && w.toasts == v.toasts
              && w.testCases == call.value.testCases
  {
    if !HasRequirements(v) then
      FatalError(v, Json.Str(RequirementsMissing))
    else
      var loading := v.(appState := Generating, loadingMessage := Some(GeneratingTests));
      var settled :=
        if call.Failure? then FatalError(loading, ErrorText(call.error, TestsFailed))
        else if Raises(call.value.error) then FatalError(loading, ErrorText(call.value.error.value, TestsFailed))
        else loading.(testCases := call.value.testCases, appState := Results);
      settled.(loadingMessage := None)
  }

  class App {
    var appState: AppState
    var understanding: Option<UnderstandingData>
    var testCases: Option<seq<TestCase>>
    var loadingMessage: Option<string>
    var answerText: string
    var questionOpen: bool
    var toasts: seq<Json.Value>

    function View(): PageView
      reads this
    {
      PageView(appState, understanding, testCases, loadingMessage, answerText, questionOpen, toasts)
    }

    /** The initial cells: the home screen, nothing loaded, the dialog closed. */
    constructor ()
      ensures View() == PageView(Home, None, Some([]), None, "", false, [])
    {
      appState := Home;
      understanding := None;
      testCases := Some([]);
      loadingMessage := None;
      answerText := "";
      questionOpen := false;
      toasts := [];
    }

    /** The home screen's start button. */
    method Start()
      modifies this
      ensures View() == old(View()).(appState := Input)
    {
      appState := Input;
    }

    /** The question effect: the answer is cleared and the dialog is open exactly when a question is shown. */
    method QuestionChanged(question: Option<string>)
      modifies this
      ensures View() == old(View()).(answerText := "", questionOpen := question.Some? && question.value != "")
    {
      answerText := "";
      questionOpen := question.Some? && question.value != "";
    }

    /**
     * `handleSubmitAnswer`: a valid answer is sent trimmed, the dialog closes
     * and the loader shows; an invalid one changes nothing and sends nothing.
     */
    method SubmitAnswer(h: Hook, now: int)
      requires h.Valid()
      modifies this, h.client
      ensures h.Valid() && h.client == old(h.client) && h.State() == old(h.State())
      ensures View() == SubmitView(old(View()))
      ensures CanSubmit(old(answerText)) && h.client != null && old(h.client.CanSend()) ==>
                h.client.sent == old(h.client.sent) + [Messages.Message(Messages.UserAnswer, h.client.sessionId, now,
                                                                       Some(Messages.ResponsePayload(Text.Trim(old(answerText)))))]
      ensures !CanSubmit(old(answerText)) || (h.client != null && !old(h.client.CanSend())) ==>
                h.client != null ==> h.client.sent == old(h.client.sent)
    {
      if CanSubmit(answerText) {
        h.AnswerQuestion(Text.Trim(answerText), now);
        answerText := "";
        questionOpen := false;
        loadingMessage := Some(ProcessingAnswer);
        appState := Generating;
      }
    }

    method FatalErrorRaised(message: Json.Value)
      modifies this
      ensures View() == FatalError(old(View()), message)
    {
      toasts := toasts + [message];
      loadingMessage := None;
      appState := Input;
    }

    /** The error effect, for a new `error` value of the hook: a truthy one is fatal. */
    method ErrorReported(wsError: Option<Json.Value>)
      modifies this
      ensures Json.Truthy(wsError) ==> View() == FatalError(old(View()), wsError.value)
      ensures !Json.Truthy(wsError) ==> View() == old(View())
    {
      if Json.Truthy(wsError) {
        FatalErrorRaised(wsError.value);
      }
    }

    /** The progress effect, for a new `progress` value of the hook: a truthy one sets the loading message. */
    method ProgressArrived(progress: Option<Json.Value>)
      modifies this
      ensures Json.Truthy(progress) ==> View() == old(View()).(loadingMessage := Some(ProgressText(progress)))
      ensures !Json.Truthy(progress) ==> View() == old(View())
    {
      if Json.Truthy(progress) {
        loadingMessage := Some(ProgressText(progress));
      }
    }

    /**
     * `handleGenerateUnderstanding(requirements)`: with the hook connected the
     * request goes to the hook and the loader shows; otherwise the server
     * action runs (`call` is its reply, or its rejection) and the page settles on it.
     */
    method GenerateUnderstanding(h: Hook, requirements: string, now: int, call: Result<Actions.UnderstandingReply, string>)
      requires h.Valid()
      modifies this, h.client
      ensures h.Valid() && h.client == old(h.client) && h.State() == old(h.State())
      ensures h.connected ==>
                View() == old(View()).(loadingMessage := Some(ConnectingEngine), appState := Generating)
      ensures h.connected && h.client != null && old(h.client.CanSend()) ==>
                h.client.sent == old(h.client.sent) + [Messages.Message(Messages.StartAnalysis, h.client.sessionId, now,
                                                                       Some(Messages.RequirementPayload(requirements)))]
      ensures (h.connected && h.client != null && !old(h.client.CanSend())) || (!h.connected && h.client != null) ==>
                h.client.sent == old(h.client.sent)
      ensures !h.connected ==> View() == Fallback(old(View()), requirements, call)
    {
      if h.connected {
        loadingMessage := Some(ConnectingEngine);
        appState := Generating;
        h.StartAnalysis(requirements, now);
        return;
      }
      loadingMessage := Some(AnalyzingRequirements);
      appState := Generating;
      if call.Failure? {
        FatalErrorRaised(ErrorText(call.error, AnalyzeFailed));
      } else if Raises(call.value.error) {
        FatalErrorRaised(ErrorText(call.value.error.value, AnalyzeFailed));
      } else {
        understanding := Some(UnderstandingData(Some(Json.Str(requirements)), AsValue(call.value.summary), call.value.flowchartData));
        appState := Understanding;
      }
      loadingMessage := None;
    }

    /** The results effect. */
    method ResultsArrived(results: Option<Json.Value>, parse: string -> Result<Json.Value, string>)
      modifies this
      ensures View() == ResultsEffect(old(View()), results, parse)
    {
      if !Json.Truthy(results) {
        return;
      }
      var summary := Summary(results);
      var text := FlowchartText(results);
      if text.None? {
        FatalErrorRaised(Json.Str(FlowchartMissing));
        return;
      }
      var parsed := parse(Actions.Clean(text.value));
      if parsed.Failure? {
        FatalErrorRaised(ErrorText(parsed.error, ResultsUnparsable));
        return;
      }
      var prior := if understanding.Some? then understanding.value.originalRequirements else None;
      understanding := Some(UnderstandingData(Json.Or(prior, summary), summary, Some(parsed.value)));
      appState := Understanding;
      loadingMessage := None;
    }

    /** `handleGenerateTests(summary)`; `call` is the action's reply, or its rejection. */
    method GenerateTests(call: Result<Actions.TestsReply, string>)
      modifies this
      ensures View() == GenerateTestsView(old(View()), call)
    {
      if !HasRequirements(View()) {
        FatalErrorRaised(Json.Str(RequirementsMissing));
        return;
      }
      appState := Generating;
      loadingMessage := Some(GeneratingTests);
      if call.Failure? {
        FatalErrorRaised(ErrorText(call.error, TestsFailed));
      } else if Raises(call.value.error) {
        FatalErrorRaised(ErrorText(call.value.error.value, TestsFailed));
      } else {
        testCases := call.value.testCases;
        appState := Results;
      }
      loadingMessage := None;
    }

    /** `handleStartOver`: back to the input screen with the understanding and the test cases cleared. */
    method StartOver()
      modifies this
      ensures View() == old(View()).(appState := Input, understanding := None, testCases := Some([]))
    {
      appState := Input;
      understanding := None;
      testCases := Some([]);
    }

    /** `handleBackToUnderstanding`: only the screen changes. */
    method BackToUnderstanding()
      modifies this
      ensures View() == old(View()).(appState := Understanding)
    {
      appState := Understanding;
    }

    /** `handleBackToHome`: the home screen with the understanding and the test cases cleared. */
    method BackToHome()
      modifies this
      ensures View() == old(View()).(appState := Home, understanding := None, testCases := Some([]))
    {
      appState := Home;
      understanding := None;
      testCases := Some([]);
    }
  }

  /**
   * An answer can be submitted exactly when trimming leaves something, that
   * is, when some character is not white space, and it is at most 5000
   * characters long.
   */
  lemma CanSubmitIff(answer: string)
    ensures CanSubmit(answer) <==> Text.Trim(answer) != [] && |answer| <= CharLimit
    ensures CanSubmit(answer) <==>
              (exists i :: 0 <= i < |answer| && !Text.IsJsWhitespace(answer[i])) && |answer| <= CharLimit
  {
    Text.BlankIff(answer);
    Text.TrimEmptyIff(answer);
  }

  /** The fallback always ends with the spinner off, on the understanding screen or, after a toast, the input screen. */
  lemma FallbackSettles(v: PageView, requirements: string, call: Result<Actions.UnderstandingReply, string>)
    ensures var w := Fallback(v, requirements, call);
            && !Spinner(w)
            && (w.appState == Understanding || w.appState == Input)
            && (w.appState == Input <==> |w.toasts| == |v.toasts| + 1)
  {
  }

  /** The fallback driven by the action itself: a blank requirement lands on the input screen with the action's message. */
  lemma BlankRequirementsToast(v: PageView, requirements: string, summarize: string -> Option<string>,
                               flowchart: string -> Option<Option<Json.Value>>, parse: string -> Option<Json.Value>)
    requires forall i :: 0 <= i < |requirements| ==> Text.IsJsWhitespace(requirements[i])
    ensures var w := Fallback(v, requirements, Success(Actions.GenerateUnderstanding(requirements, summarize, flowchart, parse)));
            w.appState == Input && w.toasts == v.toasts + [Json.Str(Actions.EmptyRequirements)]
  {
    Actions.BlankRequirementsCallNothing(requirements, summarize, flowchart, parse, summarize, flowchart, parse);
  }

  /**
   * A results payload either moves the page to the understanding screen with
   * the cleaned, parsed flowchart text and the first insight as summary, or
   * raises exactly one toast and returns to input.
   */
  lemma ResultsOutcome(v: PageView, results: Option<Json.Value>, parse: string -> Result<Json.Value, string>)
    requires Json.Truthy(results)
    ensures var w := ResultsEffect(v, results, parse);
            && !Spinner(w)
            && (w.appState == Understanding ==>
                  && FlowchartText(results).Some?
                  && parse(Actions.Clean(FlowchartText(results).value)).Success?
                  && w.understanding.Some?
                  && w.understanding.value.flowchartData == Some(parse(Actions.Clean(FlowchartText(results).value)).value)
                  && w.understanding.value.summary == Summary(results)
                  && w.toasts == v.toasts)
            && (w.appState != Understanding ==> w.appState == Input && |w.toasts| == |v.toasts| + 1)
  {
  }

  /** Without a usable flowchart text the page reports the missing data. */
  lemma ResultsWithoutFlowchart(v: PageView, results: Option<Json.Value>, parse: string -> Result<Json.Value, string>)
    requires Json.Truthy(results) && FlowchartText(results).None?
    ensures ResultsEffect(v, results, parse) == FatalError(v, Json.Str(FlowchartMissing))
  {
  }

  /**
   * When there is no usable top-level string, the text comes from the last
   * history entry carrying a braced blob; later entries carry none.
   */
  lemma FlowchartFromHistory(results: Option<Json.Value>)
    requires var top := Json.Get(results, "flowChart"); !(top.Some? && top.value.Str? && top.value.s != "")
    requires var history := Json.Get(results, "conversationHistory"); history.Some? && history.value.Arr?
    ensures var items := Json.Get(results, "conversationHistory").value.items;
            && (FlowchartText(results).Some? <==> exists k :: 0 <= k < |items| && Candidate(items[k]))
            && (FlowchartText(results).Some? ==>
                  exists k :: 0 <= k < |items| && Candidate(items[k]) && FlowchartText(results) == Content(items[k])
                              && forall l :: k < l < |items| ==> !Candidate(items[l]))
  {
    var items := Json.Get(results, "conversationHistory").value.items;
    var i := LastCandidate(items);
    if i >= 0 {
      assert Candidate(items[i]) && FlowchartText(results) == Content(items[i]);
    }
  }

  /**
   * A progress update as the server types it shows its own message when it
   * has a non-empty one, and otherwise the stage name and the percentage;
   * either way the spinner shows.
   */
  lemma ProgressShown(v: PageView, pp: Messages.ProgressPayload)
    ensures var text := ProgressText(Some(Messages.PayloadToJson(Messages.ProgressPayloadOf(pp))));
            && (pp.message.Some? && pp.message.value != "" ==> text == pp.message.value)
            && (pp.message.None? || pp.message.value == "" ==>
                  text == "Stage: " + Messages.StageName(pp.stage) + " (" + Json.Decimal(pp.progress) + "%)")
            && Spinner(v.(loadingMessage := Some(text)))
  {
    var f := Messages.ProgressFields(pp);
    var j := Some(Json.Obj(f));
    assert Messages.PayloadToJson(Messages.ProgressPayloadOf(pp)) == Json.Obj(f);
    if pp.message.Some? && pp.message.value != "" {
      assert Json.Get(j, "message") == Some(Json.Str(pp.message.value));
    } else {
      assert !Json.Truthy(Json.Get(j, "message"));
      assert Json.Get(j, "stage") == Some(Json.Str(Messages.StageName(pp.stage)));
      assert Json.Get(j, "progress") == Some(Json.Num(pp.progress));
      assert Json.ToJsString(Json.Get(j, "progress")) == Json.Decimal(pp.progress);
    }
  }

  /**
   * Generating tests without stored requirements (none stored, or a falsy
   * value such as "") raises a toast and changes nothing else but the screen,
   * whatever the action would have replied.
   */
  lemma TestsNeedRequirements(v: PageView, call: Result<Actions.TestsReply, string>)
    requires v.understanding.None? || !Json.Truthy(v.understanding.value.originalRequirements)
    ensures GenerateTestsView(v, call) == FatalError(v, Json.Str(RequirementsMissing))
  {
  }

  /** A successful test generation shows the action's test cases on the results screen. */
  lemma TestsShown(v: PageView, cases: seq<TestCase>)
    requires v.understanding.Some? && Json.Truthy(v.understanding.value.originalRequirements)
    ensures var w := GenerateTestsView(v, Success(Actions.TestsReply(Some(cases), None)));
            w.appState == Results && w.testCases == Some(cases) && !Spinner(w)
  {
  }

  /**
   * The page driven by the test action itself: the merged cases reach the
   * results screen; nothing generated, or a failing flow, lands on input with
   * the action's message.
   */
  lemma TestsFromAction(v: PageView, confirmed: string, original: string,
                        generate: string -> Option<Option<seq<Actions.Generated>>>,
                        mapStandards: (seq<string>, string) -> Option<map<string, seq<string>>>)
    requires HasRequirements(v)
    ensures var w := GenerateTestsView(v, Success(Actions.GenerateTests(confirmed, original, generate, mapStandards)));
            && (w.appState == Results <==> Actions.GenerateTests(confirmed, original, generate, mapStandards).testCases.Some?)
            && (w.appState == Results ==>
                  w.testCases == Actions.GenerateTests(confirmed, original, generate, mapStandards).testCases)
            && (generate(confirmed).None? ==> w.appState == Input && w.toasts == v.toasts + [Json.Str(Actions.TestsFailed)])
            && (generate(confirmed) == Some(None) ==> w.appState == Input && w.toasts == v.toasts + [Json.Str(Actions.NoTestCases)])
  {
  }

  /**
   * The page driven by the understanding action itself: when the summary
   * succeeds, the flow yields a `flowchartData` string and its parse succeeds, the understanding screen shows
   * the requirements, the summary and the parsed flowchart.
   */
  lemma UnderstandingFromAction(v: PageView, requirements: string, summarize: string -> Option<string>,
                                flowchart: string -> Option<Option<Json.Value>>, parse: string -> Option<Json.Value>,
                                data: string)
    requires Text.Trim(requirements) != []
    requires summarize(requirements).Some? && flowchart(summarize(requirements).value) == Some(Some(Json.Str(data)))
    requires parse(Actions.Clean(data)).Some?
    ensures var w := Fallback(v, requirements, Success(Actions.GenerateUnderstanding(requirements, summarize, flowchart, parse)));
            && w.appState == Understanding && w.toasts == v.toasts
            && w.understanding == Some(UnderstandingData(Some(Json.Str(requirements)), Some(Json.Str(summarize(requirements).value)),
                                                         parse(Actions.Clean(data))))
  {
  }

  /**
   * A results payload as the server types it: the summary the page stores is
   * its first insight, and `undefined` when there is none.
   */
  lemma SummaryIsFirstInsight(rp: Messages.ResultsPayload)
    ensures Summary(Some(Messages.PayloadToJson(Messages.ResultsPayloadOf(rp))))
            == if rp.insights == [] then None else Some(Json.Str(rp.insights[0]))
  {
    assert Json.Get(Some(Messages.PayloadToJson(Messages.ResultsPayloadOf(rp))), "insights")
           == Some(Json.Arr(Messages.StringsToJson(rp.insights)));
  }

  /**
   * The hook reports `connected` as soon as the transport opens, before the
   * server has acknowledged a session.  Submitting requirements then shows
   * the loader, the client sends nothing, nothing fails and the fallback
   * never runs: the page waits on the loader with no request sent.
   */
  method ConnectedWithoutSession(requirements: string, call: Result<Actions.UnderstandingReply, string>)
  {
    var h := new Hook();
    h.TransportOpens(0);
    assert h.connected && h.client.sessionId.None?;
    var app := new App();
    app.Start();
    app.GenerateUnderstanding(h, requirements, 1, call);
    assert h.client.sent == [WsClient.ConnectMessage(None, 0)];
    assert app.appState == Generating && app.loadingMessage == Some(ConnectingEngine) && Spinner(app.View());
    assert app.understanding.None? && app.toasts == [];
  }
}
