/**
 * The flowchart agent: a validator over a parsed graph and a bounded retry
 * loop around two language-model prompts.  The prompts and `JSON.parse` are
 * parameters: `generate` answers the main prompt, `refine` the repair prompt
 * (given the previous output, its issues and the problem), and `parse`
 * yields `None` where `JSON.parse` throws.
 */
module FlowchartFlow {
  import opened Wrappers
  import opened Json
  import Text

  const MaxAttempts: nat := 5

  /**
   * One entry of an issue list.  The list the flow builds holds the text
   * `IssueText` gives; the model keeps the entry's kind and value, so that
   * reasoning about the lists does not unfold `String(v)`.
   */
  datatype Issue =
    | MissingNodes
    | MissingEdges
    | DuplicateId(id: Option<Value>)
    | SourceMissing(source: Option<Value>)
    | TargetMissing(target: Option<Value>)
    | ParseError

  function IssueText(i: Issue): string {
    match i
    case MissingNodes => "Missing or invalid nodes array"
    case MissingEdges => "Missing or invalid edges array"
    case DuplicateId(id) => "Duplicate node id: " + ToJsString(id)
    case SourceMissing(v) => "Edge source missing: " + ToJsString(v)
    case TargetMissing(v) => "Edge target missing: " + ToJsString(v)
    case ParseError => "Invalid JSON parse error"
  }

  /** The texts of an issue list, in order. */
  function IssueTexts(issues: seq<Issue>): (r: seq<string>)
    ensures |r| == |issues|
    ensures forall k :: 0 <= k < |issues| ==> r[k] == IssueText(issues[k])
  {
    if issues == [] then [] else IssueTexts(issues[..|issues| - 1]) + [IssueText(issues[|issues| - 1])]
  }

  predicate IsArray(v: Option<Value>) {
    v.Some? && v.value.Arr?
  }

  /**
   * `v?.forEach(...)` with a callback that reads a field of each element runs
   * without throwing: the value is nullish, or an array none of whose
   * elements is `null`.
   */
  predicate Traversable(v: Option<Value>) {
    Nullish(v) || (v.value.Arr? && NoNulls(v.value.items))
  }

  /** The elements `forEach` visits. */
  function Items(v: Option<Value>): seq<Value> {
    if IsArray(v) then v.value.items else []
  }

  /** `items.map(x => x?.[key])`. */
  function Ids(items: seq<Value>, key: string): (r: seq<Option<Value>>)
    ensures |r| == |items|
    ensures forall j :: 0 <= j < |items| ==> r[j] == Get(Some(items[j]), key)
  {
    if items == [] then [] else Ids(items[..|items| - 1], key) + [Get(Some(items[|items| - 1]), key)]
  }

  /**
   * The ids a `Set` filled with `ids` can report by `has`.  An object or array
   * id is a fresh reference that no later lookup can equal, so it is left out.
   */
  function IdSet(ids: seq<Option<Value>>): set<Option<Value>>
  {
    if ids == [] then {}
    else IdSet(ids[..|ids| - 1]) + (if IsReference(ids[|ids| - 1]) then {} else {ids[|ids| - 1]})
  }

  /** `known.has(x)`: SameValueZero membership. */
  predicate Has(known: set<Option<Value>>, x: Option<Value>) {
    !IsReference(x) && x in known
  }

  /** The `Set` finds exactly the values some id is SameValueZero-equal to. */
  lemma {:induction false} IdSetHas(ids: seq<Option<Value>>, x: Option<Value>)
    ensures Has(IdSet(ids), x) <==> exists i :: 0 <= i < |ids| && SameValueZero(ids[i], x)
  {
    if ids != [] {
      var prefix := ids[..|ids| - 1];
      IdSetHas(prefix, x);
      if Has(IdSet(prefix), x) {
        var i :| 0 <= i < |prefix| && SameValueZero(prefix[i], x);
        assert SameValueZero(ids[i], x);
      }
      if exists i :: 0 <= i < |ids| && SameValueZero(ids[i], x) {
        var i :| 0 <= i < |ids| && SameValueZero(ids[i], x);
        if i < |prefix| {
          assert SameValueZero(prefix[i], x);
        }
      }
    }
  }

  function StructureIssues(nodes: Option<Value>, edges: Option<Value>): seq<Issue> {
    (if IsArray(nodes) then [] else [MissingNodes]) + (if IsArray(edges) then [] else [MissingEdges])
  }

  /** One note per id already in the set when it is met, in node order. */
  function DupIssues(ids: seq<Option<Value>>): seq<Issue>
  {
    if ids == [] then []
    else
      var prefix := ids[..|ids| - 1];
      var x := ids[|ids| - 1];
      DupIssues(prefix) + (if Has(IdSet(prefix), x) then [DuplicateId(x)] else [])
  }

  /** One edge's notes: the source's, then the target's. */
  function EndpointIssues(e: Value, known: set<Option<Value>>): seq<Issue> {
    var source := Get(Some(e), "source");
    var target := Get(Some(e), "target");
    (if Has(known, source) then [] else [SourceMissing(source)])
    + (if Has(known, target) then [] else [TargetMissing(target)])
  }

  /** The edges' notes, in edge order. */
  function EdgeIssues(edges: seq<Value>, known: set<Option<Value>>): (r: seq<Issue>)
  {
    if edges == [] then []
    else EdgeIssues(edges[..|edges| - 1], known) + EndpointIssues(edges[|edges| - 1], known)
  }

  /** `validateFlowchart(json)`; `None` when it throws (a nullish input, a non-array list, a `null` element). */
  function Validation(json: Option<Value>): Option<seq<Issue>>
  {
    if Nullish(json) then None
    else
      var nodes := Get(json, "nodes");
      var edges := Get(json, "edges");
      if !Traversable(nodes) || !Traversable(edges) then None
      else
        var ids := Ids(Items(nodes), "id");
        Some(StructureIssues(nodes, edges) + DupIssues(ids) + EdgeIssues(Items(edges), IdSet(ids)))
  }

  /** A graph the validator accepts: both lists, no `null` element, distinct ids, every endpoint a node id. */
  predicate WellFormedGraph(json: Option<Value>) {
    && json.Some?
    && IsArray(Get(json, "nodes")) && IsArray(Get(json, "edges"))
    && Traversable(Get(json, "nodes")) && Traversable(Get(json, "edges"))
    && var ids := Ids(Items(Get(json, "nodes")), "id");
       var edges := Items(Get(json, "edges"));
       && (forall i, j :: 0 <= i < j < |ids| ==> !SameValueZero(ids[i], ids[j]))
       && (forall k :: 0 <= k < |edges| ==>
             (exists i :: 0 <= i < |ids| && SameValueZero(ids[i], Get(Some(edges[k]), "source")))
             && (exists i :: 0 <= i < |ids| && SameValueZero(ids[i], Get(Some(edges[k]), "target"))))
  }

  lemma {:induction false} DupIssuesEmptyIff(ids: seq<Option<Value>>)
    ensures DupIssues(ids) == [] <==> forall i, j :: 0 <= i < j < |ids| ==> !SameValueZero(ids[i], ids[j])
  {
    if ids != [] {
      var prefix := ids[..|ids| - 1];
      var x := ids[|ids| - 1];
      DupIssuesEmptyIff(prefix);
      IdSetHas(prefix, x);
      if DupIssues(ids) == [] {
        forall i, j | 0 <= i < j < |ids| ensures !SameValueZero(ids[i], ids[j]) {
          if j < |ids| - 1 {
            assert ids[i] == prefix[i] && ids[j] == prefix[j];
          } else {
            assert ids[i] == prefix[i];
          }
        }
      } else if DupIssues(prefix) != [] {
        var i, j :| 0 <= i < j < |prefix| && SameValueZero(prefix[i], prefix[j]);
        assert SameValueZero(ids[i], ids[j]);
      } else {
        var i :| 0 <= i < |prefix| && SameValueZero(prefix[i], x);
        assert SameValueZero(ids[i], ids[|ids| - 1]);
      }
    }
  }

  lemma {:induction false} EdgeIssuesEmptyIff(edges: seq<Value>, known: set<Option<Value>>)
    ensures EdgeIssues(edges, known) == [] <==>
            forall k :: 0 <= k < |edges| ==> Has(known, Get(Some(edges[k]), "source")) && Has(known, Get(Some(edges[k]), "target"))
  {
    if edges != [] {
      var prefix := edges[..|edges| - 1];
      EdgeIssuesEmptyIff(prefix, known);
      if EdgeIssues(edges, known) == [] {
        forall k | 0 <= k < |edges|
          ensures Has(known, Get(Some(edges[k]), "source")) && Has(known, Get(Some(edges[k]), "target"))
        {
          if k < |prefix| {
            assert edges[k] == prefix[k];
          }
        }
      } else if EdgeIssues(prefix, known) != [] {
        var k :| 0 <= k < |prefix| && !(Has(known, Get(Some(prefix[k]), "source")) && Has(known, Get(Some(prefix[k]), "target")));
        assert edges[k] == prefix[k];
      }
    }
  }

  /** The validator reports nothing exactly for a well-formed graph. */
  lemma ValidationEmptyIff(json: Option<Value>)
    ensures Validation(json) == Some([]) <==> WellFormedGraph(json)
  {
    if !Nullish(json) && Traversable(Get(json, "nodes")) && Traversable(Get(json, "edges")) {
      var nodes := Get(json, "nodes");
      var edges := Items(Get(json, "edges"));
      var ids := Ids(Items(nodes), "id");
      DupIssuesEmptyIff(ids);
      EdgeIssuesEmptyIff(edges, IdSet(ids));
      forall x {
        IdSetHas(ids, x);
      }
    }
  }

  /** Number of ids that are references (objects or arrays). */
  function RefCount(ids: seq<Option<Value>>): nat {
    if ids == [] then 0 else RefCount(ids[..|ids| - 1]) + (if IsReference(ids[|ids| - 1]) then 1 else 0)
  }

  /**
   * Every primitive id after its first occurrence yields one duplicate note,
   * so a value occurring k times yields k - 1 notes: the notes, the distinct
   * primitive ids and the reference ids together account for every node.
   */
  lemma {:induction false} DupIssuesCount(ids: seq<Option<Value>>)
    ensures |DupIssues(ids)| + |IdSet(ids)| + RefCount(ids) == |ids|
  {
    if ids != [] {
      var prefix, x := ids[..|ids| - 1], ids[|ids| - 1];
      DupIssuesCount(prefix);
      if IsReference(x) {
        assert IdSet(ids) == IdSet(prefix);
      } else if x in IdSet(prefix) {
        assert IdSet(ids) == IdSet(prefix);
        assert |DupIssues(ids)| == |DupIssues(prefix)| + 1;
      } else {
        assert IdSet(ids) == IdSet(prefix) + {x};
        assert |DupIssues(ids)| == |DupIssues(prefix)|;
      }
    }
  }

  /** No element is `null`, so reading a field of each one does not throw. */
  predicate NoNulls(items: seq<Value>) {
    forall k :: 0 <= k < |items| ==> !items[k].Null?
  }

  lemma NoNullsStep(items: seq<Value>, i: nat)
    requires i < |items| && NoNulls(items[..i]) && !items[i].Null?
    ensures NoNulls(items[..i + 1])
  {
    assert forall k :: 0 <= k < i ==> items[..i + 1][k] == items[..i][k];
  }

  lemma IdsStep(items: seq<Value>, i: nat, key: string)
    requires i < |items|
    ensures Ids(items[..i + 1], key) == Ids(items[..i], key) + [Get(Some(items[i]), key)]
  {
    assert items[..i + 1][..i] == items[..i];
  }

  lemma DupIssuesStep(ids: seq<Option<Value>>, id: Option<Value>)
    ensures IdSet(ids + [id]) == IdSet(ids) + (if IsReference(id) then {} else {id})
    ensures DupIssues(ids + [id]) == DupIssues(ids) + (if Has(IdSet(ids), id) then [DuplicateId(id)] else [])
  {
    assert (ids + [id])[..|ids|] == ids;
  }

  lemma EdgeIssuesStep(items: seq<Value>, i: nat, known: set<Option<Value>>)
    requires i < |items|
    ensures EdgeIssues(items[..i + 1], known) == EdgeIssues(items[..i], known) + EndpointIssues(items[i], known)
  {
    assert items[..i + 1][..i] == items[..i];
  }

  /** The node pass: each id is looked up, noted when already present, then added. */
  method CollectNodeIds(items: seq<Value>)
    returns (ok: bool, nodeIds: set<Option<Value>>, issues: seq<Issue>)
    ensures ok <==> NoNulls(items)
    ensures ok ==> nodeIds == IdSet(Ids(items, "id")) && issues == DupIssues(Ids(items, "id"))
  {
    nodeIds := {};
    issues := [];
    ghost var ids: seq<Option<Value>> := [];
    var i := 0;
    while i < |items|
      invariant 0 <= i <= |items|
      invariant NoNulls(items[..i])
      invariant ids == Ids(items[..i], "id")
      invariant nodeIds == IdSet(ids)
      invariant issues == DupIssues(ids)
    {
      if items[i].Null? {
        assert !NoNulls(items) by { assert items[i].Null?; }
        return false, nodeIds, issues;
      }
      NoNullsStep(items, i);
      var id := Get(Some(items[i]), "id");
      IdsStep(items, i, "id");
      DupIssuesStep(ids, id);
      if Has(nodeIds, id) {
        issues := issues + [DuplicateId(id)];
      }
      if !IsReference(id) {
        nodeIds := nodeIds + {id};
      }
      ids := ids + [id];
      i := i + 1;
    }
    assert items[..i] == items;
    ok := true;
  }

  /** The edge pass: the source, then the target, of each edge is looked up in the node ids. */
  method CheckEdges(items: seq<Value>, nodeIds: set<Option<Value>>)
    returns (ok: bool, issues: seq<Issue>)
    ensures ok <==> NoNulls(items)
    ensures ok ==> issues == EdgeIssues(items, nodeIds)
  {
    issues := [];
    var i := 0;
    while i < |items|
      invariant 0 <= i <= |items|
      invariant NoNulls(items[..i])
      invariant issues == EdgeIssues(items[..i], nodeIds)
    {
      if items[i].Null? {
        assert !NoNulls(items) by { assert items[i].Null?; }
        return false, issues;
      }
      NoNullsStep(items, i);
      EdgeIssuesStep(items, i, nodeIds);
      ghost var prior := issues;
      var source := Get(Some(items[i]), "source");
      ghost var sourcePart: seq<Issue> := [];
      if !Has(nodeIds, source) {
        issues := issues + [SourceMissing(source)];
        sourcePart := [SourceMissing(source)];
      }
      var target := Get(Some(items[i]), "target");
      ghost var targetPart: seq<Issue> := [];
      if !Has(nodeIds, target) {
        issues := issues + [TargetMissing(target)];
        targetPart := [TargetMissing(target)];
      }
      ConcatAssoc(prior, sourcePart, targetPart);
      i := i + 1;
    }
    assert items[..i] == items;
    ok := true;
  }

  lemma ConcatAssoc<T>(a: seq<T>, b: seq<T>, c: seq<T>)
    ensures a + b + c == a + (b + c)
  {
  }

  /** The validator, imperatively: structure checks, then the node pass and the edge pass. */
  method ValidateFlowchart(json: Option<Value>) returns (r: Option<seq<Issue>>)
    ensures r == Validation(json)
  {
    if Nullish(json) {
      return None;
    }
    var nodes := Get(json, "nodes");
    var edges := Get(json, "edges");
    var issues: seq<Issue> := [];
    if !IsArray(nodes) {
      issues := issues + [MissingNodes];
    }
    if !IsArray(edges) {
      issues := issues + [MissingEdges];
    }
    assert issues == StructureIssues(nodes, edges);
    var nodeIds: set<Option<Value>> := {};
    if !Nullish(nodes) {
      if !nodes.value.Arr? {
        return None;
      }
      var ok;
      var dups;
      ok, nodeIds, dups := CollectNodeIds(nodes.value.items);
      if !ok {
        return None;
      }
      issues := issues + dups;
    }
    ghost var ids := Ids(Items(nodes), "id");
    assert nodeIds == IdSet(ids) && issues == StructureIssues(nodes, edges) + DupIssues(ids);
    if !Nullish(edges) {
      if !edges.value.Arr? {
        return None;
      }
      var ok;
      var missing;
      ok, missing := CheckEdges(edges.value.items, nodeIds);
      if !ok {
        return None;
      }
      issues := issues + missing;
    } else {
      assert issues == issues + EdgeIssues(Items(edges), IdSet(ids));
    }
    assert Traversable(nodes) && Traversable(edges);
    assert issues == StructureIssues(nodes, edges) + DupIssues(ids) + EdgeIssues(Items(edges), IdSet(ids));
    return Some(issues);
  }

  lemma ExampleDuplicates(A: Option<Value>, B: Option<Value>)
    requires A == Some(Str("a")) && B == Some(Str("b"))
    ensures IdSet([A, A, B]) == {A, B}
    ensures DupIssues([A, A, B]) == [DuplicateId(A)]
  {
    var s1, s2, s3 := [A], [A, A], [A, A, B];
    assert s1[..0] == [] && s2[..1] == s1 && s3[..2] == s2;
    assert IdSet(s1) == {A} && IdSet(s2) == {A};
    assert DupIssues(s1) == [];
    assert Has(IdSet(s1), A);
    assert DupIssues(s2) == DupIssues(s1) + [DuplicateId(A)];
  }

  lemma ExampleEdges(e: Value, known: set<Option<Value>>)
    requires e == Obj(map["source" := Str("a"), "target" := Str("c")])
    requires known == {Some(Str("a")), Some(Str("b"))}
    ensures EdgeIssues([e], known) == [TargetMissing(Some(Str("c")))]
  {
    assert [e][..0] == [];
    assert Get(Some(e), "source") == Some(Str("a")) && Get(Some(e), "target") == Some(Str("c"));
    assert Some(Str("c")) != Some(Str("a")) && Some(Str("c")) != Some(Str("b"));
  }

  /** Two copies of an id and an edge to an unknown node: one duplicate note, one missing-target note. */
  lemma ValidationExample()
    ensures var a := Obj(map["id" := Str("a")]);
            var b := Obj(map["id" := Str("b")]);
            var e := Obj(map["source" := Str("a"), "target" := Str("c")]);
            Validation(Some(Obj(map["nodes" := Arr([a, a, b]), "edges" := Arr([e])])))
            == Some([DuplicateId(Some(Str("a"))), TargetMissing(Some(Str("c")))])
  {
    var a := Obj(map["id" := Str("a")]);
    var b := Obj(map["id" := Str("b")]);
    var e := Obj(map["source" := Str("a"), "target" := Str("c")]);
    var json := Some(Obj(map["nodes" := Arr([a, a, b]), "edges" := Arr([e])]));
    var A, B := Some(Str("a")), Some(Str("b"));
    assert Get(json, "nodes") == Some(Arr([a, a, b])) && Get(json, "edges") == Some(Arr([e]));
    assert Ids([a, a, b], "id") == [A, A, B];
    assert Traversable(Get(json, "nodes")) && Traversable(Get(json, "edges"));
    assert Items(Get(json, "nodes")) == [a, a, b] && Items(Get(json, "edges")) == [e];
    assert StructureIssues(Get(json, "nodes"), Get(json, "edges")) == [];
    ExampleDuplicates(A, B);
    ExampleEdges(e, {A, B});
    assert Validation(json) == Some([] + DupIssues([A, A, B]) + EdgeIssues([e], IdSet([A, A, B])));
    assert [] + [DuplicateId(A)] + [TargetMissing(Some(Str("c")))] == [DuplicateId(A), TargetMissing(Some(Str("c")))];
  }

  /** The texts of those two notes. */
  lemma ValidationExampleText()
    ensures IssueTexts([DuplicateId(Some(Str("a"))), TargetMissing(Some(Str("c")))])
            == ["Duplicate node id: a", "Edge target missing: c"]
  {
    var issues := [DuplicateId(Some(Str("a"))), TargetMissing(Some(Str("c")))];
    assert issues[..1] == [DuplicateId(Some(Str("a")))] && issues[..1][..0] == [];
    assert IssueText(issues[0]) == "Duplicate node id: " + "a" == "Duplicate node id: a";
    assert IssueText(issues[1]) == "Edge target missing: " + "c" == "Edge target missing: c";
  }

  /** What one attempt's output comes to: the value validated and the issues it leaves. */
  datatype Attempt = Attempt(output: Option<Value>, parsed: Option<Value>, issues: seq<Issue>)

  /**
   * A string output is parsed, anything else is validated as it is; the issues
   * are the validator's list, and a parse failure or a validator throw leaves
   * exactly the parse-error issue.
   */
  function Assess(output: Option<Value>, parse: string -> Option<Value>): (a: Attempt)
    ensures a.output == output
    ensures a.parsed == if output.Some? && output.value.Str? then parse(output.value.s) else output
    ensures output.Some? && output.value.Str? && parse(output.value.s).None? ==> a.issues == [ParseError]
    ensures a.issues == if Validation(a.parsed).Some? then Validation(a.parsed).value else [ParseError]
  {
    var parsed := if output.Some? && output.value.Str? then parse(output.value.s) else output;
    if output.Some? && output.value.Str? && parsed.None? then Attempt(output, None, [ParseError])
    else
      var v := Validation(parsed);
      if v.None? then Attempt(output, parsed, [ParseError]) else Attempt(output, parsed, v.value)
  }

  /** An attempt is accepted (no issues) exactly when the value it validated is a well-formed graph. */
  lemma AssessAccepts(output: Option<Value>, parse: string -> Option<Value>)
    ensures Assess(output, parse).issues == [] <==>
            Assess(output, parse).parsed.Some? && WellFormedGraph(Assess(output, parse).parsed)
  {
    ValidationEmptyIff(Assess(output, parse).parsed);
  }

  /** The `try` block of one attempt: parse a string, validate, and turn a throw into the parse-error issue. */
  method TryAttempt(output: Option<Value>, parse: string -> Option<Value>) returns (parsed: Option<Value>, issues: seq<Issue>)
    ensures Attempt(output, parsed, issues) == Assess(output, parse)
  {
    parsed := output;
    var threw := false;
    if output.Some? && output.value.Str? {
      parsed := parse(output.value.s);
      threw := parsed.None?;
    }
    if !threw {
      var validation := ValidateFlowchart(parsed);
      if validation.Some? {
        issues := validation.value;
      } else {
        threw := true;
      }
    }
    if threw {
      issues := [ParseError];
    }
  }

  /** The note appended after the last attempt. */
  function StopNote(issues: seq<Issue>): string {
    "Agent stopped after 5 attempts with unresolved issues: " + Text.Join(IssueTexts(issues), ", ")
  }

  /** `{...items}`: index keys "0", "1", … */
  function SpreadItems(items: seq<Value>): map<string, Value> {
    if items == [] then map[]
    else SpreadItems(items[..|items| - 1])[Decimal(|items| - 1) := items[|items| - 1]]
  }

  /** The characters of a string as one-character strings (characters, not UTF-16 code units). */
  function Chars(s: string): (r: seq<Value>)
    ensures |r| == |s|
  {
    if s == [] then [] else Chars(s[..|s| - 1]) + [Str([s[|s| - 1]])]
  }

  /** `{...output}`: an object's fields, the index keys of an array or string, nothing for other values. */
  function Spread(output: Option<Value>): map<string, Value> {
    if output.None? then map[]
    else match output.value
      case Obj(fields) => fields
      case Arr(items) => SpreadItems(items)
      case Str(s) => SpreadItems(Chars(s))
      case _ => map[]
  }

  /** `[...(output?.openQuestions || [])]`; `None` when the value is not iterable and spreading throws. */
  function PriorQuestions(output: Option<Value>): Option<seq<Value>> {
    var q := Or(Get(output, "openQuestions"), Some(Arr([])));
    if q.Some? && q.value.Arr? then Some(q.value.items)
    else if q.Some? && q.value.Str? then Some(Chars(q.value.s))
    else None
  }

  /** The best-effort result after the last attempt; `None` when building it throws. */
  function Degraded(output: Option<Value>, issues: seq<Issue>): (r: Option<Value>)
    ensures r.Some? ==> r.value.Obj? && "openQuestions" in r.value.fields
    ensures r.Some? ==> var q := r.value.fields["openQuestions"];
                        q.Arr? && q.items != [] && q.items[|q.items| - 1] == Str(StopNote(issues))
  {
    var prior := PriorQuestions(output);
    if prior.None? then None
    else Some(Obj(Spread(output)["openQuestions" := Arr(prior.value + [Str(StopNote(issues))])]))
  }

  /**
   * An object output keeps every other field, and its open questions come
   * first, in order; an absent or falsy `openQuestions` counts as none, so the
   * note is then the only question.
   */
  lemma DegradedKeepsFields(fields: map<string, Value>, questions: seq<Value>, issues: seq<Issue>)
    requires var q := Get(Some(Obj(fields)), "openQuestions");
             q == Some(Arr(questions)) || (!Truthy(q) && questions == [])
    ensures Degraded(Some(Obj(fields)), issues) == Some(Obj(fields["openQuestions" := Arr(questions + [Str(StopNote(issues))])]))
  {
    var q := Get(Some(Obj(fields)), "openQuestions");
    if q == Some(Arr(questions)) {
      assert Or(q, Some(Arr([]))) == q;
    } else {
      assert Or(q, Some(Arr([]))) == Some(Arr([]));
    }
    assert PriorQuestions(Some(Obj(fields))) == Some(questions);
    assert Spread(Some(Obj(fields))) == fields;
  }

  /** With no output at all the result is just the note. */
  lemma DegradedWithoutOutput(issues: seq<Issue>)
    ensures Degraded(None, issues) == Some(Obj(map["openQuestions" := Arr([Str(StopNote(issues))])]))
    ensures Degraded(Some(Null), issues) == Degraded(None, issues)
  {
    assert [] + [Str(StopNote(issues))] == [Str(StopNote(issues))];
  }

  /** A truthy `openQuestions` that is neither an array nor a string cannot be spread: the flow throws. */
  lemma DegradedThrows(fields: map<string, Value>, issues: seq<Issue>)
    requires "openQuestions" in fields
    requires fields["openQuestions"].Obj? || fields["openQuestions"] == Bool(true)
             || (fields["openQuestions"].Num? && fields["openQuestions"].n != 0)
    ensures Degraded(Some(Obj(fields)), issues).None?
  {
  }

  /**
   * The agent's collaborators: the problem statement, the main prompt, the
   * repair prompt (given the previous output, its issues and the problem) and
   * the assessment of one output.
   */
  datatype Agent = Agent(
    problem: string,
    generate: string -> Option<Value>,
    refine: (Option<Value>, seq<Issue>, string) -> Option<Value>,
    assess: Option<Value> -> Attempt)

  /** The assessment the flow uses: the `try` block around `JSON.parse` and the validator. */
  function Judge(parse: string -> Option<Value>): Option<Value> -> Attempt {
    output => Assess(output, parse)
  }

  /** What the attempt after `k` earlier ones prompts for: the main prompt first, then the repair prompt. */
  function Next(g: Agent, k: nat, output: Option<Value>, issues: seq<Issue>): Option<Value> {
    if k == 0 then g.generate(g.problem) else g.refine(output, issues, g.problem)
  }

  /** The first `n` attempts, in order, each prompted with the previous one's output and issues. */
  function Attempts(g: Agent, n: nat): (h: seq<Attempt>)
    ensures |h| == n
  {
    if n == 0 then []
    else
      var prev := Attempts(g, n - 1);
      var output := if n == 1 then Next(g, 0, None, []) else Next(g, n - 1, prev[n - 2].output, prev[n - 2].issues);
      prev + [g.assess(output)]
  }

  lemma AttemptsStep(g: Agent, k: nat, output: Option<Value>, issues: seq<Issue>)
    requires k >= 1 ==> output == Attempts(g, k)[k - 1].output && issues == Attempts(g, k)[k - 1].issues
    ensures Attempts(g, k + 1) == Attempts(g, k) + [g.assess(Next(g, k, output, issues))]
  {
  }

  /** Each attempt is the assessment of some output. */
  lemma AttemptsLast(g: Agent, n: nat)
    requires n >= 1
    ensures exists output :: Attempts(g, n)[n - 1] == g.assess(output)
  {
    var prev := Attempts(g, n - 1);
    var output := if n == 1 then Next(g, 0, None, []) else Next(g, n - 1, prev[n - 2].output, prev[n - 2].issues);
    assert Attempts(g, n)[n - 1] == g.assess(output);
  }

  /** Every attempt in `h` left issues. */
  predicate AllRejected(h: seq<Attempt>) {
    forall k :: 0 <= k < |h| ==> h[k].issues != []
  }

  lemma RejectedStep(h: seq<Attempt>, a: Attempt)
    requires AllRejected(h) && a.issues != []
    ensures AllRejected(h + [a])
  {
    assert forall k :: 0 <= k < |h| ==> (h + [a])[k] == h[k];
  }

  /** How a run ends: the value returned and the number of attempts made. */
  datatype Run = Run(result: Option<Value>, attempts: nat)

  /**
   * The loop from the start of the attempt after `k` earlier ones, the last of
   * which left `output` and `issues`: prompt, assess, return the parsed graph
   * when no issue is left, and after the fifth attempt return the degraded
   * output.
   */
  function Flow(g: Agent, k: nat, output: Option<Value>, issues: seq<Issue>): Run
    requires k <= MaxAttempts
    decreases MaxAttempts - k
  {
    if k == MaxAttempts then Run(Degraded(output, issues), k)
    else
      var next := Next(g, k, output, issues);
      var a := g.assess(next);
      if a.issues == [] then Run(a.parsed, k + 1)
      else Flow(g, k + 1, a.output, a.issues)
  }

  /** A rejected attempt hands its output and issues to the next one. */
  lemma FlowStep(g: Agent, k: nat, output: Option<Value>, issues: seq<Issue>, next: Option<Value>, a: Attempt)
    requires k < MaxAttempts && next == Next(g, k, output, issues)
    requires a == g.assess(next) && a.issues != []
    ensures Flow(g, k, output, issues) == Flow(g, k + 1, a.output, a.issues)
  {
  }

  /**
   * What a run with history `h` returns: every attempt but the last left
   * issues; a last attempt without issues gives its parsed value; otherwise
   * all five attempts were used and the last output is returned degraded.
   */
  predicate Outcome(h: seq<Attempt>, result: Option<Value>) {
    && 1 <= |h| <= MaxAttempts
    && AllRejected(h[..|h| - 1])
    && var last := h[|h| - 1];
       && (last.issues == [] ==> result == last.parsed)
       && (last.issues != [] ==> |h| == MaxAttempts && result == Degraded(last.output, last.issues))
  }

  /** The first `k` attempts were all rejected and `output` and `issues` are the last one's. */
  predicate Resumable(g: Agent, k: nat, output: Option<Value>, issues: seq<Issue>) {
    var h := Attempts(g, k);
    && k <= MaxAttempts
    && AllRejected(h)
    && (k >= 1 ==> output == h[k - 1].output && issues == h[k - 1].issues)
  }

  lemma FlowStops(g: Agent, output: Option<Value>, issues: seq<Issue>)
    requires Resumable(g, MaxAttempts, output, issues)
    ensures var run := Flow(g, MaxAttempts, output, issues);
            run.attempts == MaxAttempts && Outcome(Attempts(g, run.attempts), run.result)
  {
    var h := Attempts(g, MaxAttempts);
    assert Flow(g, MaxAttempts, output, issues) == Run(Degraded(output, issues), MaxAttempts);
    assert forall j :: 0 <= j < |h| - 1 ==> h[..|h| - 1][j] == h[j];
  }

  lemma FlowAccepts(g: Agent, k: nat, output: Option<Value>, issues: seq<Issue>)
    requires k < MaxAttempts && Resumable(g, k, output, issues)
    requires g.assess(Next(g, k, output, issues)).issues == []
    ensures var run := Flow(g, k, output, issues);
            run.attempts == k + 1 && Outcome(Attempts(g, run.attempts), run.result)
  {
    var h := Attempts(g, k);
    var a := g.assess(Next(g, k, output, issues));
    AttemptsStep(g, k, output, issues);
    assert (h + [a])[..k] == h;
  }

  lemma FlowContinues(g: Agent, k: nat, output: Option<Value>, issues: seq<Issue>)
    requires k < MaxAttempts && Resumable(g, k, output, issues)
    requires g.assess(Next(g, k, output, issues)).issues != []
    ensures var a := g.assess(Next(g, k, output, issues));
            && Resumable(g, k + 1, a.output, a.issues)
            && Flow(g, k, output, issues) == Flow(g, k + 1, a.output, a.issues)
  {
    AttemptsStep(g, k, output, issues);
    RejectedStep(Attempts(g, k), g.assess(Next(g, k, output, issues)));
  }

  /**
   * Continuing after `k` rejected attempts, the run makes at least one more
   * attempt (unless none is left) and ends in the outcome of the history of
   * its own length.
   */
  lemma {:induction false} FlowOutcome(g: Agent, k: nat, output: Option<Value>, issues: seq<Issue>)
    requires Resumable(g, k, output, issues)
    ensures var run := Flow(g, k, output, issues);
            && (k < MaxAttempts ==> k < run.attempts) && run.attempts <= MaxAttempts
            && Outcome(Attempts(g, run.attempts), run.result)
    decreases MaxAttempts - k
  {
    if k == MaxAttempts {
      FlowStops(g, output, issues);
    } else if g.assess(Next(g, k, output, issues)).issues == [] {
      FlowAccepts(g, k, output, issues);
    } else {
      var a := g.assess(Next(g, k, output, issues));
      FlowContinues(g, k, output, issues);
      FlowOutcome(g, k + 1, a.output, a.issues);
    }
  }

  /**
   * The flow with the real assessment: one to five attempts, ending as
   * `Outcome` describes, and a graph returned without issues is well formed.
   */
  lemma GenerateFlowchartOutcome(problem: string, generate: string -> Option<Value>,
                                 refine: (Option<Value>, seq<Issue>, string) -> Option<Value>,
                                 parse: string -> Option<Value>)
    ensures var g := Agent(problem, generate, refine, Judge(parse));
            var run := Flow(g, 0, Some(Null), []);
            var h := Attempts(g, run.attempts);
            && 1 <= run.attempts <= MaxAttempts
            && Outcome(h, run.result)
            && (h[run.attempts - 1].issues == [] ==> run.result.Some? && WellFormedGraph(run.result))
  {
    var g := Agent(problem, generate, refine, Judge(parse));
    FlowOutcome(g, 0, Some(Null), []);
    var n := Flow(g, 0, Some(Null), []).attempts;
    AttemptsLast(g, n);
    var output :| Attempts(g, n)[n - 1] == g.assess(output);
    assert g.assess(output) == Assess(output, parse);
    if Assess(output, parse).issues == [] {
      AssessAccepts(output, parse);
    }
  }

  /**
   * The flow: at most five attempts; the first whose issues are empty returns
   * its parsed graph and ends the loop; after five failures the last output is
   * returned with the stop note appended to its open questions.
   */
  method GenerateFlowchart(problem: string, generate: string -> Option<Value>,
                           refine: (Option<Value>, seq<Issue>, string) -> Option<Value>,
                           parse: string -> Option<Value>)
    returns (result: Option<Value>, ghost attempts: nat)
    ensures result == Flow(Agent(problem, generate, refine, Judge(parse)), 0, Some(Null), []).result
    ensures Run(result, attempts) == Flow(Agent(problem, generate, refine, Judge(parse)), 0, Some(Null), [])
  {
    ghost var g := Agent(problem, generate, refine, Judge(parse));
    var attempt := 0;
    var output: Option<Value> := Some(Null);
    var issues: seq<Issue> := [];
    while attempt < MaxAttempts
      invariant 0 <= attempt <= MaxAttempts
      invariant Flow(g, attempt, output, issues) == Flow(g, 0, Some(Null), [])
    {
      ghost var lastOutput, lastIssues := output, issues;
      attempt := attempt + 1;
      if attempt == 1 {
        output := generate(problem);
      } else {
        output := refine(output, issues, problem);
      }
      var parsed;
      parsed, issues := TryAttempt(output, parse);
      assert g.assess(output) == Attempt(output, parsed, issues);
      if issues == [] {
        return parsed, attempt;
      }
      FlowStep(g, attempt - 1, lastOutput, lastIssues, output, Attempt(output, parsed, issues));
    }
    result := Degraded(output, issues);
    attempts := attempt;
  }
}
