/**
 * The two server actions.  The language-model flows they call and
 * `JSON.parse` are parameters; a parameter returning `None` stands for a call
 * that throws, which lands in the action's outer `catch`.
 */
module Actions {
  import opened Wrappers
  import opened Json
  import Text
  import Domain

  const EmptyRequirements := "Requirements cannot be empty."
  const FlowchartParseFailed := "Failed to parse the flowchart data. The AI model may have returned an invalid format."
  const UnderstandingFailed := "Failed to process requirements. Please try again later."
  const NoTestCases := "No test cases were generated."
  const TestsFailed := "Failed to generate test cases. The AI model may have returned an unexpected format."

  /** `flowchartData.replace(/[\u0000-\u001F\u007F-\u009F]/g, '').trim()`. */
  function Clean(s: string): string {
    Text.Trim(Text.RemoveControls(s))
  }

  /** The cleaned text holds no control character and has no surrounding white space. */
  lemma CleanIsClean(s: string)
    ensures var r := Clean(s);
            && (forall i :: 0 <= i < |r| ==> !Text.IsControl(r[i]))
            && (r != [] ==> !Text.IsJsWhitespace(r[0]) && !Text.IsJsWhitespace(r[|r| - 1]))
  {
    var t := Text.RemoveControls(s);
    var r := Text.Trim(t);
    forall i | 0 <= i < |r| ensures !Text.IsControl(r[i]) {
      assert r[i] == t[Text.TrimOffset(t) + i];
    }
  }

  /** Cleaning twice is cleaning once. */
  lemma CleanIdempotent(s: string)
    ensures Clean(Clean(s)) == Clean(s)
  {
    CleanIsClean(s);
    Text.TrimIdempotent(Text.RemoveControls(s));
  }

  /** The reply of `generateUnderstandingAction`: each field present or absent. */
  datatype UnderstandingReply = UnderstandingReply(
    summary: Option<string>,
    flowchartData: Option<Value>,
    error: Option<string>)

  /**
   * `flowchartData.replace(...)` can only run on a string: `None` when the
   * field is undefined or not a string, and the call throws.
   */
  function TextOf(field: Option<Value>): (t: Option<string>)
    ensures t.Some? <==> field.Some? && field.value.Str?
    ensures t.Some? ==> field == Some(Str(t.value))
  {
    if field.Some? && field.value.Str? then Some(field.value.s) else None
  }

  /**
   * `generateUnderstandingAction(requirements)`.  `summarize` is the
   * summariser; `flowchart` is the flowchart flow, giving the `flowchartData`
   * field of its output (`None` inside when it is undefined), or `None` when
   * the call or the destructuring throws; `parse` is `JSON.parse`.
   */
  function GenerateUnderstanding(requirements: string, summarize: string -> Option<string>,
                                 flowchart: string -> Option<Option<Value>>,
                                 parse: string -> Option<Value>): (r: UnderstandingReply)
    ensures Text.Trim(requirements) == [] ==> r == UnderstandingReply(None, None, Some(EmptyRequirements))
    ensures r.error.None? <==> r.flowchartData.Some?
    ensures r.error.None? ==> r.summary.Some? && r.summary == summarize(requirements)
    ensures r.flowchartData.Some? ==>
              exists data :: flowchart(r.summary.value) == Some(Some(Str(data))) && r.flowchartData == parse(Clean(data))
    ensures r.error == Some(FlowchartParseFailed) ==> r.summary.Some? && r.summary == summarize(requirements)
    ensures r.error == Some(UnderstandingFailed) ==> r.summary.None? && r.flowchartData.None?
    ensures Text.Trim(requirements) != [] && (summarize(requirements).None? || flowchart(summarize(requirements).value).None?)
            ==> r == UnderstandingReply(None, None, Some(UnderstandingFailed))
    ensures Text.Trim(requirements) != [] && summarize(requirements).Some? && flowchart(summarize(requirements).value).Some?
            ==> var summary := summarize(requirements).value;
                var text := TextOf(flowchart(summary).value);
                r == if text.Some? && parse(Clean(text.value)).Some?
                     then UnderstandingReply(Some(summary), parse(Clean(text.value)), None)
                     else UnderstandingReply(Some(summary), None, Some(FlowchartParseFailed))
  {
    if Text.Trim(requirements) == [] then UnderstandingReply(None, None, Some(EmptyRequirements))
    else
      match summarize(requirements)
      case None => UnderstandingReply(None, None, Some(UnderstandingFailed))
      case Some(summary) =>
        match flowchart(summary)
        case None => UnderstandingReply(None, None, Some(UnderstandingFailed))
        case Some(field) =>
          match TextOf(field)
          case None => UnderstandingReply(Some(summary), None, Some(FlowchartParseFailed))
          case Some(data) =>
            match parse(Clean(data))
            case None => UnderstandingReply(Some(summary), None, Some(FlowchartParseFailed))
            case Some(v) => UnderstandingReply(Some(summary), Some(v), None)
  }

  /** Blank requirements are rejected before any collaborator is called: the reply does not depend on them. */
  lemma BlankRequirementsCallNothing(requirements: string,
                                     summarize1: string -> Option<string>, flowchart1: string -> Option<Option<Value>>,
                                     parse1: string -> Option<Value>,
                                     summarize2: string -> Option<string>, flowchart2: string -> Option<Option<Value>>,
                                     parse2: string -> Option<Value>)
    requires forall i :: 0 <= i < |requirements| ==> Text.IsJsWhitespace(requirements[i])
    ensures GenerateUnderstanding(requirements, summarize1, flowchart1, parse1)
            == GenerateUnderstanding(requirements, summarize2, flowchart2, parse2)
            == UnderstandingReply(None, None, Some(EmptyRequirements))
  {
    Text.TrimEmptyIff(requirements);
  }

  /** The flowchart text handed to `JSON.parse` is always clean, whatever the flow returned. */
  lemma ParsedTextIsClean(requirements: string, summarize: string -> Option<string>,
                          flowchart: string -> Option<Option<Value>>, parse: string -> Option<Value>)
    requires GenerateUnderstanding(requirements, summarize, flowchart, parse).flowchartData.Some?
    ensures exists text :: GenerateUnderstanding(requirements, summarize, flowchart, parse).flowchartData == parse(text)
                           && forall i :: 0 <= i < |text| ==> !Text.IsControl(text[i])
  {
    var r := GenerateUnderstanding(requirements, summarize, flowchart, parse);
    var data :| flowchart(r.summary.value) == Some(Some(Str(data))) && r.flowchartData == parse(Clean(data));
    CleanIsClean(data);
  }

  /** A generated test case before its standards are attached. */
  datatype Generated = Generated(id: string, description: string)

  /** The reply of `generateTestsAction`. */
  datatype TestsReply = TestsReply(testCases: Option<seq<Domain.TestCase>>, error: Option<string>)

  /** `testCaseToStandardsMap[description] || []`. */
  function StandardsFor(m: map<string, seq<string>>, description: string): seq<string> {
    if description in m then m[description] else []
  }

  /** `parsedTestCases.map(tc => tc.description)`. */
  function Descriptions(cases: seq<Generated>): (r: seq<string>)
    ensures |r| == |cases|
    ensures forall i :: 0 <= i < |cases| ==> r[i] == cases[i].description
  {
    if cases == [] then [] else Descriptions(cases[..|cases| - 1]) + [cases[|cases| - 1].description]
  }

  /** The final list: one entry per generated case, in order, with its id, description and standards. */
  function Merge(cases: seq<Generated>, m: map<string, seq<string>>): (r: seq<Domain.TestCase>)
    ensures |r| == |cases|
    ensures forall i :: 0 <= i < |cases| ==>
              r[i] == Domain.TestCase(cases[i].id, cases[i].description, StandardsFor(m, cases[i].description))
  {
    if cases == [] then []
    else
      var c := cases[|cases| - 1];
      Merge(cases[..|cases| - 1], m) + [Domain.TestCase(c.id, c.description, StandardsFor(m, c.description))]
  }

  /** Cases with the same description get the same standards. */
  lemma MergeSameDescription(cases: seq<Generated>, m: map<string, seq<string>>, i: nat, j: nat)
    requires i < |cases| && j < |cases| && cases[i].description == cases[j].description
    ensures Merge(cases, m)[i].standards == Merge(cases, m)[j].standards
  {
  }

  /**
   * `generateTestsAction(confirmedUnderstanding, originalRequirements)`.
   * `generate` yields the flow's `testCases` (`None` inside when absent);
   * `mapStandards` is given the descriptions and the requirements.
   */
  function GenerateTests(confirmed: string, original: string,
                         generate: string -> Option<Option<seq<Generated>>>,
                         mapStandards: (seq<string>, string) -> Option<map<string, seq<string>>>): (r: TestsReply)
    ensures r.testCases.Some? <==> r.error.None?
    ensures r.testCases.Some? ==>
              exists cases, m :: generate(confirmed) == Some(Some(cases)) && cases != []
                                 && mapStandards(Descriptions(cases), original) == Some(m)
                                 && r.testCases.value == Merge(cases, m)
    ensures generate(confirmed) == Some(None) || generate(confirmed) == Some(Some([])) ==> r == TestsReply(None, Some(NoTestCases))
    ensures generate(confirmed).None? ==> r == TestsReply(None, Some(TestsFailed))
    ensures generate(confirmed).Some? && generate(confirmed).value.Some? && generate(confirmed).value.value != []
            ==> var cases := generate(confirmed).value.value;
                var mapped := mapStandards(Descriptions(cases), original);
                r == if mapped.Some? then TestsReply(Some(Merge(cases, mapped.value)), None)
                     else TestsReply(None, Some(TestsFailed))
  {
    match generate(confirmed)
    case None => TestsReply(None, Some(TestsFailed))
    case Some(generated) =>
      if generated.None? || generated.value == [] then TestsReply(None, Some(NoTestCases))
      else
        var cases := generated.value;
        match mapStandards(Descriptions(cases), original)
        case None => TestsReply(None, Some(TestsFailed))
        case Some(m) => TestsReply(Some(Merge(cases, m)), None)
  }

  /** With nothing generated, the standards mapper is not consulted: the reply does not depend on it. */
  lemma NoCasesSkipsMapper(confirmed: string, original: string,
                           generate: string -> Option<Option<seq<Generated>>>,
                           map1: (seq<string>, string) -> Option<map<string, seq<string>>>,
                           map2: (seq<string>, string) -> Option<map<string, seq<string>>>)
    requires generate(confirmed) == Some(None) || generate(confirmed) == Some(Some([]))
    ensures GenerateTests(confirmed, original, generate, map1) == GenerateTests(confirmed, original, generate, map2)
  {
  }
}
