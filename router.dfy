/** The router agent: classify a question as a semantic (RAG), structured (SQL) or hybrid
    query, and for hybrid queries extract structured filters and a residual semantic query.
    The LangGraph workflow is modelled as the composition it compiles to: the classify node,
    the conditional edge, and the extract-filters node. */
module Router {
  import opened Common
  import opened Services

  datatype QueryIntent = Rag | Sql | Hybrid

  /** A QueryFilters dictionary. */
  type Filters = Dict

  /** The record threaded through the graph. `semanticQuery` is `Null` for Python's None;
      after extraction it holds whatever JSON value the model returned for it. */
  datatype RouterState = RouterState(
    question: string,
    intent: Option<QueryIntent>,
    filters: Option<Filters>,
    semanticQuery: Value,
    confidence: real)

  // ---------------------------------------------------------------- classify_intent

  const IntentMap: map<string, QueryIntent> := map["RAG" := Rag, "SQL" := Sql, "HYBRID" := Hybrid]

  /** The label the classifier reply is reduced to: `content.strip().upper()`. */
  function Normalize(reply: string): string {
    Upper(Strip(reply))
  }

  /** classify_intent after the model call: the reply decides intent and confidence. */
  function ClassifyIntent(reply: string): (r: (QueryIntent, real))
    ensures Normalize(reply) == "RAG" ==> r == (Rag, 0.9)
    ensures Normalize(reply) == "SQL" ==> r == (Sql, 0.9)
    ensures Normalize(reply) == "HYBRID" ==> r == (Hybrid, 0.9)
    ensures Normalize(reply) !in {"RAG", "SQL", "HYBRID"} ==> r == (Rag, 0.5)
    ensures r.1 == 0.9 <==> Normalize(reply) in IntentMap
  {
    var result := Normalize(reply);
    var intent := if result in IntentMap then IntentMap[result] else Rag;
    var confidence := if result in IntentMap then 0.9 else 0.5;
    (intent, confidence)
  }

  /** Whitespace around the reply never changes the classification. */
  lemma ClassifyIgnoresPadding(ws1: string, reply: string, ws2: string)
    requires AllSpace(ws1) && AllSpace(ws2)
    ensures ClassifyIntent(ws1 + reply + ws2) == ClassifyIntent(reply)
  {
    StripPadded(ws1, reply, ws2);
  }

  /** Replies that agree up to letter case are classified alike. */
  lemma ClassifyIgnoresCase(reply1: string, reply2: string)
    requires Upper(reply1) == Upper(reply2)
    ensures ClassifyIntent(reply1) == ClassifyIntent(reply2)
  {
    UpperStripCommute(reply1);
    UpperStripCommute(reply2);
  }

  /** "hybrid" with any whitespace around it (" hybrid\n", say) is a hybrid label. */
  lemma ClassifyPaddedLowercase(ws1: string, ws2: string)
    requires AllSpace(ws1) && AllSpace(ws2)
    ensures ClassifyIntent(ws1 + "hybrid" + ws2) == (Hybrid, 0.9)
  {
    var word := "hybrid";
    ClassifyIgnoresPadding(ws1, word, ws2);
    StripUnpadded(word);
    assert Upper(word) == "HYBRID";
  }

  // ---------------------------------------------------------------- extract_filters

  /** The six keys of QueryFilters, in the order extract_filters fills them. */
  const FilterKeys: seq<string> := ["min_price", "max_price", "min_rating", "category", "sort_by", "limit"]

  /** The markdown clean-up of extract_filters: when the (stripped) reply opens a code fence,
      drop its first line, and drop its last line too when that line strips to the fence. */
  function StripJsonFence(content: string): (r: string)
    ensures !StartsWith(content, Fence) ==> r == content
  {
    if StartsWith(content, Fence) then
      var lines := Split(content, '\n');
      Join(DropFenceLines(lines, Strip(Last(lines)) == Fence), "\n")
    else content
  }

  /** A fenced reply loses exactly its fence lines, whatever the opening line carries after
      the fence and however the closing fence is indented. */
  lemma JsonFenceRoundTrip(opening: string, body: string, closer: string)
    requires StartsWith(opening, Fence) && '\n' !in opening
    requires '\n' !in closer && Strip(closer) == Fence
    ensures StripJsonFence(opening + "\n" + body + "\n" + closer) == body
  {
    var content := opening + "\n" + body + "\n" + closer;
    var lines := ClosedLines(opening, body, closer);
    JsonFenceByLines(content, lines);
    DropClosedFence(opening, Split(body, '\n'), closer);
    JoinSplit(body, '\n');
  }

  /** The fenced branch read line by line; the lemmas about fences start from it. */
  lemma JsonFenceByLines(content: string, lines: seq<string>)
    requires StartsWith(content, Fence) && Split(content, '\n') == lines
    ensures StripJsonFence(content) == Join(DropFenceLines(lines, Strip(Last(lines)) == Fence), "\n")
  {
  }

  /** A reply that opens a fence but does not close it loses only its first line. */
  lemma JsonFenceUnclosed(opening: string, body: string)
    requires StartsWith(opening, Fence) && '\n' !in opening
    requires Strip(Last(Split(body, '\n'))) != Fence
    ensures StripJsonFence(opening + "\n" + body) == body
  {
    var lines := OpeningLine(opening, body);
    DropOpenFence(opening, Split(body, '\n'));
    JsonFenceByLines(opening + "\n" + body, lines);
    JoinSplit(body, '\n');
  }

  /** A one-line reply that opens a fence becomes empty. */
  lemma JsonFenceOneLine(content: string)
    requires StartsWith(content, Fence) && '\n' !in content
    ensures StripJsonFence(content) == ""
  {
    SplitNoSeparator(content, '\n');
  }

  /** The text handed to `json.loads`. */
  function FilterContent(reply: string): string {
    StripJsonFence(Strip(reply))
  }

  /** The successful branch of extract_filters on a decoded JSON object `parsed`. */
  function FiltersFromObject(question: string, parsed: Dict): (r: (Filters, Value))
    ensures forall k :: k in r.0 <==> k in FilterKeys
    ensures forall k :: k in FilterKeys ==> r.0[k] == Get(parsed, k)
    ensures "semantic_query" !in parsed ==> r.1 == Str(question)
    ensures "semantic_query" in parsed ==> r.1 == parsed["semantic_query"]
  {
    var semanticQuery := if "semantic_query" in parsed then parsed["semantic_query"] else Str(question);
    var rest := parsed - {"semantic_query"};
    var filters := map k | k in FilterKeys :: Get(rest, k);
    (filters, semanticQuery)
  }

  /** Keys outside QueryFilters and `semantic_query` are ignored. */
  lemma FiltersIgnoreExtraKeys(question: string, parsed1: Dict, parsed2: Dict)
    requires forall k :: k in FilterKeys ==> Get(parsed1, k) == Get(parsed2, k)
    requires Get(parsed1, "semantic_query") == Get(parsed2, "semantic_query")
    requires "semantic_query" in parsed1 <==> "semantic_query" in parsed2
    ensures FiltersFromObject(question, parsed1) == FiltersFromObject(question, parsed2)
  {
    var f1 := FiltersFromObject(question, parsed1).0;
    var f2 := FiltersFromObject(question, parsed2).0;
    assert f1.Keys == f2.Keys;
    forall k | k in f1 ensures f1[k] == f2[k] {
      assert k in FilterKeys;
    }
    assert f1 == f2;
  }

  /** The error `parsed.pop("semantic_query", question)` raises on a JSON value that is not an
      object (a list's `pop` takes at most one argument; other values have no `pop`). */
  function PopError(v: Value): string {
    if v.Arr? then "pop expected at most 1 argument, got 2"
    else
      var typeName :=
        if v.Null? then "NoneType" else if v.Bool? then "bool" else if v.Int? then "int"
        else if v.Real? then "float" else if v.Str? then "str" else "dict";
      "'" + typeName + "' object has no attribute 'pop'"
  }

  /** extract_filters after the model call. `parse` is `json.loads`, None standing for a
      JSONDecodeError, the only error the function catches. */
  function ExtractFilters(question: string, reply: string, parse: string -> Option<Value>): (r: Result<(Filters, Value)>)
    ensures parse(FilterContent(reply)).None? ==> r == Ok((map[], Str(question)))
    ensures parse(FilterContent(reply)).Some? && parse(FilterContent(reply)).value.Obj? ==>
              r == Ok(FiltersFromObject(question, parse(FilterContent(reply)).value.fields))
    ensures parse(FilterContent(reply)).Some? && !parse(FilterContent(reply)).value.Obj? ==> r.Err?
  {
    match parse(FilterContent(reply))
    case None => Ok((map[], Str(question)))
    case Some(parsed) =>
      if parsed.Obj? then Ok(FiltersFromObject(question, parsed.fields)) else Err(PopError(parsed))
  }

  // ---------------------------------------------------------------- nodes and edge

  /** classify_node, given the classifier's reply: only intent and confidence change. */
  function ClassifyNode(state: RouterState, reply: string): (r: RouterState)
    ensures r.question == state.question && r.filters == state.filters
    ensures r.semanticQuery == state.semanticQuery
    ensures r.intent.Some? && (r.intent.value, r.confidence) == ClassifyIntent(reply)
  {
    var (intent, confidence) := ClassifyIntent(reply);
    state.(intent := Some(intent), confidence := confidence)
  }

  /** extract_filters_node, given the extractor's reply: only filters and semantic query change. */
  function ExtractFiltersNode(state: RouterState, reply: string, parse: string -> Option<Value>): (r: Result<RouterState>)
    ensures r.Ok? <==> ExtractFilters(state.question, reply, parse).Ok?
    ensures r.Err? ==> r.error == ExtractFilters(state.question, reply, parse).error
    ensures r.Ok? ==>
              && r.value.question == state.question && r.value.intent == state.intent
              && r.value.confidence == state.confidence
              && r.value.filters == Some(ExtractFilters(state.question, reply, parse).value.0)
              && r.value.semanticQuery == ExtractFilters(state.question, reply, parse).value.1
  {
    match ExtractFilters(state.question, reply, parse)
    case Err(e) => Err(e)
    case Ok((filters, semanticQuery)) => Ok(state.(filters := Some(filters), semanticQuery := semanticQuery))
  }

  datatype Branch = Extract | Done

  /** should_extract_filters. */
  function ShouldExtractFilters(state: RouterState): (b: Branch)
    ensures b == Extract <==> state.intent == Some(Hybrid)
  {
    if state.intent == Some(Hybrid) then Extract else Done
  }

  // ---------------------------------------------------------------- the compiled graph

  datatype Target = ToExtractFilters | ToEnd

  /** A compiled router: where the conditional edge out of "classify" leads for each branch.
      The entry point is always "classify" and "extract_filters" always leads to the end. */
  datatype RouterGraph = RouterGraph(onExtract: Target, onDone: Target)

  /** build_router_graph: "extract" leads to the extractor, "done" to the end. */
  function BuildRouterGraph(): (g: RouterGraph)
    ensures g.onExtract == ToExtractFilters && g.onDone == ToEnd
    ensures forall s: RouterState :: NextTarget(g, ShouldExtractFilters(s))
              == (if s.intent == Some(Hybrid) then ToExtractFilters else ToEnd)
  {
    RouterGraph(ToExtractFilters, ToEnd)
  }

  function NextTarget(g: RouterGraph, b: Branch): Target {
    match b
    case Extract => g.onExtract
    case Done => g.onDone
  }

  /** The state route_query starts from. */
  function InitialState(question: string): RouterState {
    RouterState(question, None, None, Null, 0.0)
  }

  /** `graph.invoke(state)`, the model's replies given by `reply`. */
  function Invoke(g: RouterGraph, state: RouterState, reply: Request -> string, parse: string -> Option<Value>): Result<RouterState> {
    var classified := ClassifyNode(state, reply(IntentRequest(state.question)));
    match NextTarget(g, ShouldExtractFilters(classified))
    case ToExtractFilters => ExtractFiltersNode(classified, reply(FilterRequest(classified.question)), parse)
    case ToEnd => Ok(classified)
  }

  /** route_query as a function of the model's replies. */
  function Route(question: string, reply: Request -> string, parse: string -> Option<Value>): Result<RouterState> {
    Invoke(BuildRouterGraph(), InitialState(question), reply, parse)
  }

  /** The intent the classifier assigns to a question. */
  function RoutedIntent(question: string, reply: Request -> string): QueryIntent {
    ClassifyIntent(reply(IntentRequest(question))).0
  }

  /** The model calls route_query makes, in order. */
  function RouteRequests(question: string, reply: Request -> string): (calls: seq<Request>)
    ensures |calls| >= 1 && calls[0] == IntentRequest(question)
  {
    if RoutedIntent(question, reply) == Hybrid then [IntentRequest(question), FilterRequest(question)]
    else [IntentRequest(question)]
  }

  /** The classifier always runs once; the extractor runs exactly once for a hybrid question
      and never otherwise. */
  lemma ExtractorRunsOnlyForHybrid(question: string, reply: Request -> string)
    ensures multiset(RouteRequests(question, reply))[IntentRequest(question)] == 1
    ensures multiset(RouteRequests(question, reply))[FilterRequest(question)] ==
              if RoutedIntent(question, reply) == Hybrid then 1 else 0
  {
    var rs := RouteRequests(question, reply);
    if RoutedIntent(question, reply) == Hybrid {
      assert rs == [IntentRequest(question)] + [FilterRequest(question)];
    }
  }

  /** A non-hybrid route overwrites only intent and confidence of the initial state. */
  lemma RouteNonHybrid(question: string, reply: Request -> string, parse: string -> Option<Value>)
    requires RoutedIntent(question, reply) != Hybrid
    ensures Route(question, reply, parse).Ok?
    ensures var s := Route(question, reply, parse).value;
      && s.question == question && s.intent == Some(RoutedIntent(question, reply))
      && s.filters.None? && s.semanticQuery == Null
      && (s.confidence == 0.9 || s.confidence == 0.5)
  {
  }

  /** A hybrid route is the classified state with the extractor's output, or the error the
      extractor raised. */
  lemma RouteHybrid(question: string, reply: Request -> string, parse: string -> Option<Value>)
    requires RoutedIntent(question, reply) == Hybrid
    ensures var e := ExtractFilters(question, reply(FilterRequest(question)), parse);
      && (Route(question, reply, parse).Ok? <==> e.Ok?)
      && (e.Err? ==> Route(question, reply, parse) == Err(e.error))
      && (e.Ok? ==>
            Route(question, reply, parse).value == RouterState(question, Some(Hybrid), Some(e.value.0), e.value.1, 0.9))
  {
  }

  /** A hybrid question whose extraction reply is not valid JSON is routed with empty filters
      and the question itself as semantic query. */
  lemma RouteHybridDecodeFailure(question: string, reply: Request -> string, parse: string -> Option<Value>)
    requires RoutedIntent(question, reply) == Hybrid
    requires parse(FilterContent(reply(FilterRequest(question)))).None?
    ensures Route(question, reply, parse) == Ok(RouterState(question, Some(Hybrid), Some(map[]), Str(question), 0.9))
  {
  }

  /** `graph.invoke` on the initial state of a question, making the model calls. */
  method InvokeGraph(g: RouterGraph, question: string, llm: Llm, parse: string -> Option<Value>) returns (r: Result<RouterState>)
    requires g == BuildRouterGraph()
    modifies llm
    ensures r == Route(question, llm.reply, parse)
    ensures llm.log == old(llm.log) + RouteRequests(question, llm.reply)
  {
    var state := InitialState(question);
    var classifierReply := llm.Complete(IntentRequest(state.question));
    state := ClassifyNode(state, classifierReply);
    match NextTarget(g, ShouldExtractFilters(state))
    case ToExtractFilters =>
      var content := llm.Complete(FilterRequest(state.question));
      ConcatAssoc(old(llm.log), [IntentRequest(question)], [FilterRequest(question)]);
      r := ExtractFiltersNode(state, content, parse);
    case ToEnd =>
      r := Ok(state);
  }

  // ---------------------------------------------------------------- get_router / route_query

  /** The module-level `_router_graph` with get_router and route_query. */
  class RouterCache {
    var graph: Option<RouterGraph>
    /** How many times build_router_graph has run. */
    ghost var builds: nat

    ghost predicate Valid()
      reads this
    {
      (graph.None? && builds == 0) || (graph == Some(BuildRouterGraph()) && builds == 1)
    }

    constructor ()
      ensures Valid() && graph.None?
    {
      graph := None;
      builds := 0;
    }

    /** The graph is built on first use and reused afterwards. */
    method GetRouter() returns (g: RouterGraph)
      requires Valid()
      modifies this
      ensures Valid() && graph == Some(g) && g == BuildRouterGraph()
      ensures builds == 1
      ensures old(graph).Some? ==> builds == old(builds) && g == old(graph).value
    {
      if graph.None? {
        graph := Some(BuildRouterGraph());
        builds := builds + 1;
      }
      g := graph.value;
    }

    method RouteQuery(question: string, llm: Llm, parse: string -> Option<Value>) returns (r: Result<RouterState>)
      requires Valid()
      modifies this, llm
      ensures Valid() && graph == Some(BuildRouterGraph()) && builds == 1
      ensures r == Route(question, llm.reply, parse)
      ensures llm.log == old(llm.log) + RouteRequests(question, llm.reply)
    {
      var g := GetRouter();
      r := InvokeGraph(g, question, llm, parse);
    }
  }
}
