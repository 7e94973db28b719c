# Agents of the product-search API, modelled in Dafny

This project models the three agents behind the product-search API of an Amazon-catalogue
assistant:

- **the router** (`router.py`) asks a language model whether a question is a semantic (RAG),
  structured (SQL) or hybrid query. For a hybrid question it asks a second time, to extract
  structured filters (price bounds, minimum rating, category, sort key, limit) and a residual
  semantic query. The LangGraph workflow is modelled as the composition it compiles to:
  the classify node, the conditional edge, the filter-extraction node, and the lazily built,
  cached graph;
- **the SQL agent** (`sql_agent.py`) has the model write a query and strips any markdown
  fence from it. It refuses anything that is not a `SELECT` or that mentions a write keyword,
  runs it, and has the model phrase an answer from the raw rows. `format_sql_results`, which
  lists rows as text, is modelled as well, although the pipeline does not call it. The agent also builds the
  parameterised candidate query the hybrid pipeline uses to turn filters into product IDs
  (ASINs);
- **the hybrid pipeline** (`hybrid.py`) pre-filters the catalogue in PostgreSQL and searches
  Qdrant only among those candidates. It formats the hits together with the filters into a
  context, builds the prompt, and returns the model's answer with the retrieval it used.

The model is split into five files:

- `common.dfy`: Python values and the string built-ins the agents rely on (`str.strip`,
  `str.upper`, `str.split`, `str.join`, `in`, truthiness, `dict.get`).
- `services.dfy`: the external services. The chat model, the database and the vector store
  are classes. Each holds its answers as fixed functions and records every call in a log, so
  contracts can say which calls an operation makes, in which order, and with what arguments.
  A model call is recorded as a `Request` naming the call site and the values it fills into
  that site's prompt. The hybrid answer prompt is a `Prompt` value, and `Hybrid.PromptText`
  gives its exact text. The candidate query is recorded as its predicate and bindings, and
  `SqlAgent.AsinSql` gives its full SQL text.
- `router.dfy`, `sqlagent.dfy`, `hybrid.dfy`: one module per agent.

Two kinds of operation are modelled differently:

- Operations that build text step by step are methods. `format_hybrid_context`,
  `format_sql_results` and the keyword screen have loops. `build_hybrid_prompt` and the
  candidate-query builder are straight-line sequences of `if` steps, as in the source. Each
  method is proved equal to a specification function, and the properties are proved about
  that function.
- Operations that call services are methods whose contracts tie the result and the service
  logs to those functions.

## Model

| member | source | states |
|---|---|---|
| Common.Render | apps/api/src/api/agents/hybrid.py:98-102 | An f-string field shows a string as itself and None as `None` |
| Common.NatToString | apps/api/src/api/agents/hybrid.py:96 | The decimal rendering of a count is a non-empty digit string with no leading zero |
| Common.NatToStringValue | apps/api/src/api/agents/hybrid.py:96 | The digits of the rendering denote the count itself |
| Common.Strip | apps/api/src/api/agents/router.py:107 | `str.strip()` removes leading and trailing whitespace: the result neither starts nor ends with a whitespace character |
| Common.StripPadded | apps/api/src/api/agents/router.py:107 | Whitespace added around a string does not change what `strip()` returns |
| Common.UpperIdempotent | apps/api/src/api/agents/router.py:107 | Upper-casing twice is the same as upper-casing once |
| Common.UpperStripCommute | apps/api/src/api/agents/router.py:107 | Stripping and upper-casing can be done in either order |
| Common.Split | apps/api/src/api/agents/router.py:151 | `str.split("\n")` gives at least one piece, and no piece contains the separator |
| Common.JoinSplit | apps/api/src/api/agents/router.py:151-152 | Joining the pieces of a split with the separator gives back the original text |
| Common.SplitJoin | apps/api/src/api/agents/router.py:151-152 | Splitting a join of separator-free pieces gives back the pieces |
| Common.ContainsAt | apps/api/src/api/agents/sql_agent.py:104 | `w in s` holds whenever `w` sits at some position of `s` |
| Router.ClassifyIntent | apps/api/src/api/agents/router.py:107-119 | The stripped, upper-cased reply `RAG`, `SQL` or `HYBRID` gives that intent with confidence 0.9. Any other reply gives RAG with 0.5. Confidence is 0.9 exactly when the label is in the map |
| Router.ClassifyIgnoresPadding | apps/api/src/api/agents/router.py:107 | Surrounding whitespace in the classifier's reply does not change the classification |
| Router.ClassifyIgnoresCase | apps/api/src/api/agents/router.py:107 | Replies equal up to case classify alike |
| Router.ClassifyPaddedLowercase | apps/api/src/api/agents/router.py:107-117 | `"  hybrid\n"` and the like classify as HYBRID with confidence 0.9 |
| Router.StripJsonFence | apps/api/src/api/agents/router.py:150-152 | A reply that does not open a code fence is passed to the JSON decoder unchanged |
| Router.JsonFenceRoundTrip | apps/api/src/api/agents/router.py:150-152 | A body wrapped in an opening fence line and a closing line that strips to the fence comes out exactly as the body |
| Router.JsonFenceUnclosed | apps/api/src/api/agents/router.py:152 | When the last line is not a fence, only the opening line is dropped |
| Router.JsonFenceOneLine | apps/api/src/api/agents/router.py:150-152 | A one-line fenced reply leaves nothing to decode |
| Router.FiltersFromObject | apps/api/src/api/agents/router.py:156-165 | The filters have exactly the six QueryFilters keys, each read with `get`. The semantic query is the popped value, or the question when the key is absent |
| Router.FiltersIgnoreExtraKeys | apps/api/src/api/agents/router.py:156-164 | Keys outside QueryFilters and `semantic_query` do not affect the result |
| Router.ExtractFilters | apps/api/src/api/agents/router.py:147-167 | Undecodable JSON gives `({}, question)`. A JSON object gives its filters. Any other JSON value raises (the source does not catch the error from `pop`) |
| Router.ClassifyNode | apps/api/src/api/agents/router.py:170-177 | Only intent and confidence change, and they are the classification of the reply |
| Router.ExtractFiltersNode | apps/api/src/api/agents/router.py:180-187 | Fails exactly when extraction fails, with the same error. Otherwise only filters and semantic query change, to the extracted ones |
| Router.BuildRouterGraph | apps/api/src/api/agents/router.py:197-221 | The compiled graph sends a classified state to filter extraction exactly when its intent is HYBRID, and to the end otherwise |
| Router.RouteRequests | apps/api/src/api/agents/router.py:172 | The first model call of every route is the classifier's, on the question |
| Router.ExtractorRunsOnlyForHybrid | apps/api/src/api/agents/router.py:190-219 | The classifier is asked exactly once. The extractor is asked once for a hybrid question and never otherwise |
| Router.RouteNonHybrid | apps/api/src/api/agents/router.py:242-250 | A non-hybrid route succeeds and leaves filters None and the semantic query None. Its confidence is 0.9 or 0.5 |
| Router.RouteHybrid | apps/api/src/api/agents/router.py:180-187 | A hybrid route succeeds exactly when extraction does. It then carries the extracted filters and semantic query with confidence 0.9; otherwise it fails with extraction's error |
| Router.RouteHybridDecodeFailure | apps/api/src/api/agents/router.py:166-167 | A hybrid question whose extraction reply is not JSON routes with empty filters and the question as semantic query |
| Router.InvokeGraph | apps/api/src/api/agents/router.py:250 | Running the compiled graph returns the route and makes exactly the route's model calls, in order |
| Router.RouterCache.constructor | apps/api/src/api/agents/router.py:225 | The cache starts empty |
| Router.RouterCache.GetRouter | apps/api/src/api/agents/router.py:228-233 | The graph is built on first use and the same graph is returned afterwards. It is built exactly once |
| Router.RouterCache.RouteQuery | apps/api/src/api/agents/router.py:237-251 | Returns the route of the question from the initial state, makes exactly the route's model calls, and leaves the graph cached |
| SqlAgent.StripSqlFence | apps/api/src/api/agents/sql_agent.py:82-84 | A query that does not open a code fence is unchanged |
| SqlAgent.CleanSqlUnwraps | apps/api/src/api/agents/sql_agent.py:79-84 | A reply that is a fenced query with whitespace around it comes out as the bare query |
| SqlAgent.SqlFenceRoundTrip | apps/api/src/api/agents/sql_agent.py:82-84 | A query wrapped in a fence closed by an exact fence line comes out as the query |
| SqlAgent.SqlFenceKeepsLastLine | apps/api/src/api/agents/sql_agent.py:84 | A last line that is not exactly the fence is kept, even an indented fence |
| SqlAgent.FirstOccurring | apps/api/src/api/agents/sql_agent.py:102-105 | None exactly when no keyword occurs. Otherwise the first keyword in list order that occurs |
| SqlAgent.Screen | apps/api/src/api/agents/sql_agent.py:98-105 | A query passes exactly when it starts with SELECT and contains no forbidden keyword. A query that does not start with SELECT is refused with "Only SELECT queries are allowed". A SELECT containing a forbidden keyword is refused with "Forbidden SQL operation: " and the first such keyword |
| SqlAgent.FirstWordNamed | apps/api/src/api/agents/sql_agent.py:103-105 | A SELECT is refused naming the first forbidden keyword, in list order, that it contains |
| SqlAgent.SubstringRejects | apps/api/src/api/agents/sql_agent.py:104 | A keyword occurring anywhere, even inside another word, gets the query refused |
| SqlAgent.ForbiddenSubstringRejects | apps/api/src/api/agents/sql_agent.py:98-105 | A query whose upper-cased, stripped text contains INSERT, UPDATE, DELETE, DROP, TRUNCATE, ALTER or CREATE anywhere is refused |
| SqlAgent.ForbiddenWordNamed | apps/api/src/api/agents/sql_agent.py:102-105 | A SELECT is refused naming the first forbidden keyword it contains |
| SqlAgent.VerdictIgnoresCase | apps/api/src/api/agents/sql_agent.py:98 | A statement and its upper-cased form get the same verdict, because the check upper-cases first |
| SqlAgent.FindFirstOccurring | apps/api/src/api/agents/sql_agent.py:103-105 | The loop over the keywords stops at the first one that occurs |
| SqlAgent.CheckSql | apps/api/src/api/agents/sql_agent.py:98-105 | The safety check gives the verdict of the screen |
| SqlAgent.ExecuteSqlQuery | apps/api/src/api/agents/sql_agent.py:94-115 | A refused query never reaches the database. An allowed one is run exactly once |
| SqlAgent.Take | apps/api/src/api/agents/sql_agent.py:133 | `s[:n]`: a prefix of at most n elements, the whole sequence when it is shorter |
| SqlAgent.TitleText | apps/api/src/api/agents/sql_agent.py:133 | A string title is cut to 80 characters. Slicing fails exactly for a value that is neither a string nor a list |
| SqlAgent.TitleLine | apps/api/src/api/agents/sql_agent.py:132-133 | No title line without a title key. It fails exactly when the title cannot be sliced |
| SqlAgent.PriceLine | apps/api/src/api/agents/sql_agent.py:134-135 | The price line is present exactly when the price key is present and truthy |
| SqlAgent.RatingLine | apps/api/src/api/agents/sql_agent.py:136-140 | The rating line is present exactly when the rating key is present |
| SqlAgent.FieldLine | apps/api/src/api/agents/sql_agent.py:141-144 | The category and ID lines are each present exactly when their column is in the row, and start with their label |
| SqlAgent.RowEntry | apps/api/src/api/agents/sql_agent.py:131-145 | An entry starts with its number and fails exactly when its title line does |
| SqlAgent.ListingErrIff | apps/api/src/api/agents/sql_agent.py:130-145 | The listing fails exactly when some entry fails |
| SqlAgent.ListingFirstError | apps/api/src/api/agents/sql_agent.py:130-145 | The error raised is the first failing entry's |
| SqlAgent.SqlResultsText | apps/api/src/api/agents/sql_agent.py:125-128 | No rows give "No products found matching your criteria." Otherwise the text starts with "Found n product(s):" for the number of rows |
| SqlAgent.SqlResultsFailIff | apps/api/src/api/agents/sql_agent.py:122-147 | Formatting fails exactly when some row has a title that cannot be sliced |
| SqlAgent.FormatSqlResults | apps/api/src/api/agents/sql_agent.py:122-147 | The loop appends every entry in order, giving the specified text or the first error |
| SqlAgent.GenerateSqlQuery | apps/api/src/api/agents/sql_agent.py:46-86 | One model call. The reply is stripped and cleaned of its fence |
| SqlAgent.GenerateSqlAnswer | apps/api/src/api/agents/sql_agent.py:155-183 | One model call, shown only the first ten rows |
| SqlAgent.SqlPipeline | apps/api/src/api/agents/sql_agent.py:187-214 | An execution error becomes an "Error executing query: " answer with no rows and no second model call. Otherwise the answer is phrased from the rows and the result count is their number. The query reaches the database exactly when the screen allows it |
| SqlAgent.AsinConditions | apps/api/src/api/agents/sql_agent.py:227-244 | One condition per filter argument that is not None |
| SqlAgent.CategoryPattern | apps/api/src/api/agents/sql_agent.py:244 | A string category becomes the ILIKE pattern `%category%` |
| SqlAgent.AsinParams | apps/api/src/api/agents/sql_agent.py:228-244 | One binding per condition |
| SqlAgent.AsinClausesPaired | apps/api/src/api/agents/sql_agent.py:227-244 | The predicates are those of the filters that are not None, in the order min price, max price, min rating, category. Binding i is the value of predicate i, with `%category%` for the category |
| SqlAgent.AsinBindings | apps/api/src/api/agents/sql_agent.py:254 | The bindings are one per condition, with the limit last |
| SqlAgent.WhereTrueIffNoFilters | apps/api/src/api/agents/sql_agent.py:246 | The predicate is `TRUE` exactly when every filter argument is None |
| SqlAgent.JoinStartsWithFirst | apps/api/src/api/agents/sql_agent.py:246 | A join of one or more conditions starts with the first condition |
| SqlAgent.AsinSqlShowsWhere | apps/api/src/api/agents/sql_agent.py:248-253 | The SQL text starts by selecting distinct parent ASINs from products, and contains `WHERE <predicate> AND parent_asin IS NOT NULL` |
| SqlAgent.BuildAsinQuery | apps/api/src/api/agents/sql_agent.py:227-254 | Builds the specified predicate and bindings |
| SqlAgent.GetAsinsByFilter | apps/api/src/api/agents/sql_agent.py:218-262 | Exactly one database call, with that predicate and those bindings. It returns the column the database gives |
| Hybrid.CandidateBindings | apps/api/src/api/agents/hybrid.py:31-37 | The candidate query always asks for 100 rows, whatever `k` is |
| Hybrid.CandidatesReadFourFields | apps/api/src/api/agents/hybrid.py:31-37 | The candidates depend on min price, max price, min rating and category alone |
| Hybrid.Hits | apps/api/src/api/agents/hybrid.py:69-85 | The four result lists are aligned and have one entry per hit |
| Hybrid.PointsOf | apps/api/src/api/agents/hybrid.py:105-110 | Zipping aligned lists yields one tuple per entry |
| Hybrid.HitsRoundTrip | apps/api/src/api/agents/hybrid.py:74-78 | Splitting hits into lists and zipping them back gives the hits, and the converse |
| Hybrid.Retrieve | apps/api/src/api/agents/hybrid.py:39-86 | No candidates give empty lists and count 0. Otherwise the lists hold exactly the search hits, in order, and the count is the number of candidates |
| Hybrid.ExtractHits | apps/api/src/api/agents/hybrid.py:69-78 | The loop fills the four lists from the hits, position by position |
| Hybrid.RetrieveWithinLimit | apps/api/src/api/agents/hybrid.py:61-66 | When the vector store honours the search limit, a retrieval lists at most `k` hits |
| Hybrid.HybridRetrieve | apps/api/src/api/agents/hybrid.py:17-86 | One candidate query. Then, only when candidates exist, one embedding of the semantic query and one search restricted to the candidates and limited to `k`. It returns the retrieval of those calls, which has at most `k` hits when the store honours the limit |
| Hybrid.ContextHeader | apps/api/src/api/agents/hybrid.py:96-103 | The context starts with "(Filtered from n products" |
| Hybrid.HeaderBareIff | apps/api/src/api/agents/hybrid.py:97-103 | The header names no filter exactly when max price, min rating and category are all falsy |
| Hybrid.HeaderIgnoresMinPrice | apps/api/src/api/agents/hybrid.py:96-103 | The minimum price never appears in the header |
| Hybrid.ZipLength | apps/api/src/api/agents/hybrid.py:105-110 | `zip` stops at the shortest list, which is every list's length when they are aligned |
| Hybrid.ContextEntry | apps/api/src/api/agents/hybrid.py:111-112 | Every entry adds text |
| Hybrid.ContextEntries | apps/api/src/api/agents/hybrid.py:105-112 | One entry per zipped tuple, none of them empty |
| Hybrid.ContextBodyPrefix | apps/api/src/api/agents/hybrid.py:105-112 | Entries appear in list order: the text of the first m entries begins the text of the first n |
| Hybrid.ContextBodyGrows | apps/api/src/api/agents/hybrid.py:105-112 | Each entry makes the text longer: fewer entries give a strictly shorter text |
| Hybrid.ContextText | apps/api/src/api/agents/hybrid.py:93-114 | The formatted context starts with the whole header: the candidate count and every filter segment, closed by `)` |
| Hybrid.ContextListsEveryHit | apps/api/src/api/agents/hybrid.py:105-112 | A retrieval from search hits lists every hit in the context |
| Hybrid.FormatHeader | apps/api/src/api/agents/hybrid.py:96-103 | Growing the header segment by segment gives the specified header |
| Hybrid.AppendEntries | apps/api/src/api/agents/hybrid.py:105-112 | The loop appends the entry of every zipped tuple, in order |
| Hybrid.FormatHybridContext | apps/api/src/api/agents/hybrid.py:93-114 | Gives the specified context |
| Hybrid.PriceRangeUpToOnly | apps/api/src/api/agents/hybrid.py:125-131 | With only a maximum price the range reads "up to $...", because the leading space is stripped |
| Hybrid.FilterSummary | apps/api/src/api/agents/hybrid.py:124-135 | Price, Rating and Category lines, in that order, each present exactly when its filter is truthy |
| Hybrid.NoFiltersIff | apps/api/src/api/agents/hybrid.py:140 | The prompt says "No specific filters" exactly when all four filters are falsy |
| Hybrid.FalsyFilterIsAbsent | apps/api/src/api/agents/hybrid.py:125-135 | A falsy filter value (0, empty string, None) summarises as if the key were missing |
| Hybrid.PromptShowsParts | apps/api/src/api/agents/hybrid.py:137-152 | The prompt text starts with the criteria under their heading, and contains the catalogue context and the question, each under its heading |
| Hybrid.BuildHybridPrompt | apps/api/src/api/agents/hybrid.py:121-154 | Building the criteria line by line gives the specified prompt |
| Hybrid.Resolve | apps/api/src/api/agents/hybrid.py:200-207 | Given filters are used as they are. Otherwise the router's extraction supplies the filters and semantic query, or its error is raised |
| Hybrid.AnswerReportsRetrieval | apps/api/src/api/agents/hybrid.py:226-236 | The response is labelled hybrid and reports the candidate count. Its IDs, descriptions and scores are aligned, one per hit, and empty without candidates |
| Hybrid.HybridGenerate | apps/api/src/api/agents/hybrid.py:162-179 | One model call with the prompt; its reply is the answer |
| Hybrid.ResolveInputs | apps/api/src/api/agents/hybrid.py:200-207 | The fallbacks at the top of the pipeline compute the specified inputs, calling the model only through the router |
| Hybrid.AnswerWith | apps/api/src/api/agents/hybrid.py:209-236 | Retrieval, context, prompt and one answer call, each on the previous step's output |
| Hybrid.HybridPipeline | apps/api/src/api/agents/hybrid.py:183-236 | A router error is raised before any database or vector-store call. Otherwise exactly one candidate query, at most one embedding and one search, and one answer call are made. The response is built from their results |
| Services.Llm.Complete | apps/api/src/api/agents/hybrid.py:165-179 | A model call returns the reply for its request and is logged |
| Services.Database.Run | apps/api/src/api/agents/sql_agent.py:107-115 | Running a query returns the database's rows and is logged |
| Services.Database.RunCandidateQuery | apps/api/src/api/agents/sql_agent.py:256-262 | Running the candidate query returns the first column and is logged |
| Services.VectorSearch.Embed | apps/api/src/api/agents/hybrid.py:49 | An embedding call returns the vector for the text and is logged |
| Services.VectorSearch.QueryPoints | apps/api/src/api/agents/hybrid.py:61-66 | A search returns the hits for query, allowed IDs and limit, and is logged |

Members without a row are helpers, covered by the rows of the members that use them:

- `Common.Upper`, `Common.DropFenceLines`, `Router.ShouldExtractFilters`, `SqlAgent.Execution`, `SqlAgent.RowEntries`, `Hybrid.EmbedCalls`, `Hybrid.SearchCalls`, `Hybrid.Fallback` and `Hybrid.ResolveCalls` are definitions whose contracts spell out their cases. They are upper-casing, `lines[1:-1]`/`lines[1:]`, the router's edge condition, the outcome of `execute_sql_query`, the numbered rows, the embedding and search logs of `hybrid_retrieve`, and the pipeline's fallbacks. What they promise is proved by `UpperIdempotent`, `UpperStripCommute` and `VerdictIgnoresCase`; by `JsonFenceRoundTrip`, `JsonFenceUnclosed` and `SqlFenceRoundTrip`; by `BuildRouterGraph`, `RouteHybrid` and `RouteNonHybrid`; by `ExecuteSqlQuery` and `SqlPipeline`; by `ListingErrIff` and `SqlResultsText`; by `HybridRetrieve`; and by `ResolveInputs` and `HybridPipeline`.
- `Services.VectorSearch.HonoursLimit` is the vector store's promise that a search returns at most `limit` points. `RetrieveWithinLimit` and `HybridRetrieve` use it.

- `Router.InitialState`, `Router.Invoke`, `Router.Route`, `Router.NextTarget` and `Router.RoutedIntent` spell out the compiled graph's run. `RouteQuery`, `InvokeGraph`, `RouteHybrid`, `RouteNonHybrid`, `ExtractorRunsOnlyForHybrid` and `BuildRouterGraph` state what they give.
- `Router.JsonFenceByLines` and `SqlAgent.SqlFenceByLines` read the fenced branch line by line for the fence lemmas.
- `Hybrid.HybridPrompt`, `Hybrid.Criteria`, `Hybrid.PromptText`, `Hybrid.ContextBody` and `Hybrid.Answer` are the specification functions that `BuildHybridPrompt`, `NoFiltersIff`, `PromptShowsParts`, `ContextBodyPrefix`, `AppendEntries`, `AnswerReportsRetrieval` and `AnswerWith` are stated against. The same holds for `Hybrid.Segment`, whose one-step method is `Hybrid.AddSegment`, and for the step method `Hybrid.AddSummaryLine`.
- `SqlAgent.CleanSql`, `SqlAgent.Listing`, `SqlAgent.WhereClause` and `SqlAgent.AsinSql` are specified through `CleanSqlUnwraps`, `GenerateSqlQuery`, `ListingErrIff`, `ListingFirstError`, `WhereTrueIffNoFilters` and `AsinSqlShowsWhere`. `SqlAgent.AppendIf`, `SqlAgent.AddCondition`, `SqlAgent.FilterClauses`, `SqlAgent.PresentClauses`, `SqlAgent.Conditions`, `SqlAgent.Params` and `SqlAgent.KeepClause` serve `BuildAsinQuery` and `AsinClausesPaired`.
- `Common.Get`, `Common.Truthy`, `Common.Join`, `Common.Contains` and `Common.IntToString` are Python's `dict.get`, truthiness, `str.join`, `in` and `str()` of an integer. They are characterised by `FiltersFromObject`, `FalsyFilterIsAbsent`, `JoinSplit`, `ContainsAt` and `Render`. `Common.Concat`, `Common.ConcatPrefix`, `Common.ConcatGrows` and the other prefix and strip lemmas are generic facts the lemmas above are proved from.

## Left out

- The OpenAI, PostgreSQL and Qdrant clients are oracles: fixed functions plus call logs. Their network failures, timeouts and exceptions are not modelled, except where the code branches on them. Those are a database error inside `execute_sql_query`, which `sql_pipeline` catches, and refused queries.
- Connection management (`get_db_connection`, `conn.close()`) and cursor details are left out: they do not affect results.
- LangSmith tracing (`@traceable`, run trees, usage metadata) is left out: it does not affect results.
- The LangGraph engine is not modelled. The compiled graph is modelled by the two nodes it adds, its conditional edge and its plain edge to the end, run in the order the engine runs them.
- Thread safety of the cached router graph is left out, because concurrency is out of scope.
- The prompt templates of the classifier, the filter extractor, the SQL writer and the SQL answer are not spelled out. A request records which template is used and the values filled into it; only the hybrid answer prompt's text is given, by `Hybrid.PromptText`.
- `json.loads` is a parameter (`string -> Option<Value>`), with None standing for `JSONDecodeError`. `json.dumps` of the first ten rows is represented by the rows themselves.
- `str()` of non-string values and the `.2f` format of scores are parameters (`show`, `fixed2`), because float formatting is out of scope. Strings and None are rendered concretely.
- `get_embedding` is an oracle of the vector store; `retrieval_generation.py` is not part of this model.
- The payload of every search hit is assumed to contain `parent_asin`, `description` and `average_rating` (the `KeyError` path is not modelled).
- Common.Upper: maps ASCII letters, dotless i and long s, each to one character. Unicode's other case mappings are not modelled, in particular the ones that change length (`'ß'` to `"SS"`, U+1E97 to `"T"` followed by U+0308). The model's SQL screen therefore allows `"SELECT INSER\u1E97"`, which the source refuses with "Forbidden SQL operation: INSERT", because Python's upper-casing turns it into `"SELECT INSERT\u0308"`.
- Router.ExtractFilters: when the decoded JSON is not an object, the error text of the raised exception is approximated by `PopError`.
- SqlAgent.TitleText: the TypeError messages for titles that cannot be sliced are approximations. A list title is rendered through `show`.
- Hybrid.HybridPipeline: has a precondition that a call without filters routes as HYBRID. For any other intent, line 203 of `hybrid.py` reads `None` out of the route's state, because the key is present. `hybrid_retrieve` then fails on `None.get`. The model does not describe that failure; `Hybrid.Resolve` and `Hybrid.ResolveInputs` carry the same precondition.
- Hybrid.Retrieve: promises no relation between the number of hits and the number of candidates. The code does not ensure one, because several points can share an ASIN and `k` may exceed the candidate count. The bound by `k` is the vector store's promise. It is stated as `Services.VectorSearch.HonoursLimit`, and `Hybrid.RetrieveWithinLimit` and `Hybrid.HybridRetrieve` derive the bound from it. The store is not required to honour it.
- The API endpoints, the chatbot UI and the RAG agent lie outside the three agents and are not part of this model.
