/** The hybrid pipeline: PostgreSQL narrows the catalogue to the products that satisfy the
    structured filters, Qdrant ranks those candidates by similarity to the semantic part of
    the question, and the model answers from a prompt that lists both the filters and the
    ranked products. */
module Hybrid {
  import opened Common
  import opened Services
  import opened Router
  import opened SqlAgent

  // ---------------------------------------------------------------- hybrid_retrieve

  /** How many candidate ASINs the SQL pre-filter asks for, whatever `k` is. */
  const CandidateLimit: int := 100

  /** The predicate of the pre-filter: it reads only the four filter fields, by presence. */
  function CandidateWhere(filters: Dict): string {
    AsinWhere(Get(filters, "min_price") != Null, Get(filters, "max_price") != Null,
                  Get(filters, "min_rating") != Null, Get(filters, "category") != Null)
  }

  /** The bindings of the pre-filter. */
  function CandidateBindings(show: Value -> string, filters: Dict): (ps: seq<Value>)
    ensures |ps| >= 1 && ps[|ps| - 1] == Int(CandidateLimit)
  {
    AsinBindings(show, Get(filters, "min_price"), Get(filters, "max_price"),
                 Get(filters, "min_rating"), Get(filters, "category"), CandidateLimit)
  }

  /** The candidates are chosen by min_price, max_price, min_rating and category alone:
      `sort_by`, `limit` and any other key of the filter record play no part. */
  lemma CandidatesReadFourFields(show: Value -> string, filters1: Dict, filters2: Dict)
    requires Get(filters1, "min_price") == Get(filters2, "min_price")
    requires Get(filters1, "max_price") == Get(filters2, "max_price")
    requires Get(filters1, "min_rating") == Get(filters2, "min_rating")
    requires Get(filters1, "category") == Get(filters2, "category")
    ensures CandidateWhere(filters1) == CandidateWhere(filters2)
    ensures CandidateBindings(show, filters1) == CandidateBindings(show, filters2)
  {
  }

  /** The candidate ASINs the database returns for a filter record. */
  function Candidates(show: Value -> string, fetchColumn: (string, seq<Value>) -> seq<string>, filters: Dict): seq<string> {
    fetchColumn(CandidateWhere(filters), CandidateBindings(show, filters))
  }

  /** The dictionary hybrid_retrieve returns: four parallel lists and the candidate count. */
  datatype Retrieval = Retrieval(
    ids: seq<Value>,
    texts: seq<Value>,
    ratings: seq<Value>,
    scores: seq<real>,
    filterCount: nat)

  function Ids(points: seq<Point>): seq<Value> {
    seq(|points|, i requires 0 <= i < |points| => points[i].parentAsin)
  }

  function Texts(points: seq<Point>): seq<Value> {
    seq(|points|, i requires 0 <= i < |points| => points[i].description)
  }

  function Ratings(points: seq<Point>): seq<Value> {
    seq(|points|, i requires 0 <= i < |points| => points[i].averageRating)
  }

  function Scores(points: seq<Point>): seq<real> {
    seq(|points|, i requires 0 <= i < |points| => points[i].score)
  }

  /** The four lists are index-aligned. */
  predicate Aligned(r: Retrieval) {
    |r.texts| == |r.ids| && |r.ratings| == |r.ids| && |r.scores| == |r.ids|
  }

  /** The retrieval built from the search hits, in search order. */
  function Hits(points: seq<Point>, filterCount: nat): (r: Retrieval)
    ensures Aligned(r) && |r.ids| == |points| && r.filterCount == filterCount
  {
    Retrieval(Ids(points), Texts(points), Ratings(points), Scores(points), filterCount)
  }

  /** The points an aligned retrieval lists, entry i read from position i of each list. */
  function PointsOf(r: Retrieval): (points: seq<Point>)
    requires Aligned(r)
    ensures |points| == |r.ids|
  {
    seq(|r.ids|, i requires 0 <= i < |r.ids| => Point(r.ids[i], r.texts[i], r.ratings[i], r.scores[i]))
  }

  /** Entry i of every list comes from the same hit, so zipping the lists gives the hits
      back, and splitting the zipped hits gives the lists back. */
  lemma HitsRoundTrip(points: seq<Point>, r: Retrieval)
    requires Aligned(r)
    ensures PointsOf(Hits(points, 0)) == points
    ensures Hits(PointsOf(r), r.filterCount) == r
  {
    var zipped := PointsOf(Hits(points, 0));
    assert forall i | 0 <= i < |points| :: zipped[i] == points[i];
    var split := Hits(PointsOf(r), r.filterCount);
    assert split.ids == r.ids && split.texts == r.texts;
    assert split.ratings == r.ratings && split.scores == r.scores;
  }

  /** hybrid_retrieve after the calls: nothing found when there are no candidates, else the
      hits of the restricted search, counted against the candidates. */
  function Retrieve(asins: seq<string>, points: seq<Point>): (r: Retrieval)
    ensures Aligned(r) && r.filterCount == |asins|
    ensures asins == [] ==> r.ids == [] && r.texts == [] && r.ratings == [] && r.scores == []
    ensures asins != [] ==> PointsOf(r) == points
  {
    if asins == [] then Retrieval([], [], [], [], 0)
    else HitsRoundTrip(points, Hits(points, |asins|)); Hits(points, |asins|)
  }

  /** A store that honours the search limit never yields more than `k` hits. */
  lemma RetrieveWithinLimit(vs: VectorSearch, query: Vector, asins: seq<string>, k: int)
    requires vs.HonoursLimit() && 0 <= k
    ensures |Retrieve(asins, vs.queryPoints(query, asins, k)).ids| <= k
  {
    var points := vs.queryPoints(query, asins, k);
    assert |points| <= k;
    if asins != [] {
      assert |PointsOf(Retrieve(asins, points))| == |points|;
    }
  }

  /** The embedding calls hybrid_retrieve makes: none when there are no candidates. */
  function EmbedCalls(asins: seq<string>, semanticQuery: Value): (calls: seq<Value>)
    ensures |calls| <= 1 && (calls == [] <==> asins == [])
    ensures asins != [] ==> calls == [semanticQuery]
  {
    if asins == [] then [] else [semanticQuery]
  }

  /** The searches it makes: at most one, limited to `k` and restricted to the candidates. */
  function SearchCalls(asins: seq<string>, query: Vector, k: int): (calls: seq<Search>)
    ensures |calls| <= 1 && (calls == [] <==> asins == [])
    ensures calls != [] ==> calls[0].allowed == asins && calls[0].limit == k
  {
    if asins == [] then [] else [Search(query, asins, k)]
  }

  /** The loop over `results.points`: four lists grown side by side. */
  method ExtractHits(points: seq<Point>) returns (ids: seq<Value>, texts: seq<Value>, ratings: seq<Value>, scores: seq<real>)
    ensures ids == Ids(points) && texts == Texts(points)
    ensures ratings == Ratings(points) && scores == Scores(points)
  {
    ids, texts, ratings, scores := [], [], [], [];
    for i := 0 to |points|
      invariant |ids| == i && |texts| == i && |ratings| == i && |scores| == i
      invariant forall j :: 0 <= j < i ==> ids[j] == points[j].parentAsin
      invariant forall j :: 0 <= j < i ==> texts[j] == points[j].description
      invariant forall j :: 0 <= j < i ==> ratings[j] == points[j].averageRating
      invariant forall j :: 0 <= j < i ==> scores[j] == points[j].score
    {
      ids := ids + [points[i].parentAsin];
      texts := texts + [points[i].description];
      ratings := ratings + [points[i].averageRating];
      scores := scores + [points[i].score];
    }
  }

  /** hybrid_retrieve: pre-filter in SQL, then search only when there are candidates. */
  method HybridRetrieve(semanticQuery: Value, filters: Dict, k: int, db: Database, vs: VectorSearch, show: Value -> string)
    returns (r: Retrieval)
    modifies db, vs
    ensures var asins := Candidates(show, db.fetchColumn, filters);
      && r == Retrieve(asins, vs.queryPoints(vs.embed(semanticQuery), asins, k))
      && db.log == old(db.log) + [CandidateQuery(CandidateWhere(filters), CandidateBindings(show, filters))]
      && vs.embedded == old(vs.embedded) + EmbedCalls(asins, semanticQuery)
      && vs.searches == old(vs.searches) + SearchCalls(asins, vs.embed(semanticQuery), k)
    ensures vs.HonoursLimit() && 0 <= k ==> |r.ids| <= k
  {
    var asins := GetAsinsByFilter(db, show, Get(filters, "min_price"), Get(filters, "max_price"),
                                  Get(filters, "min_rating"), Get(filters, "category"), CandidateLimit);
    if asins == [] {
      r := Retrieval([], [], [], [], 0);
      return;
    }
    var query := vs.Embed(semanticQuery);
    var points := vs.QueryPoints(query, asins, k);
    var ids, texts, ratings, scores := ExtractHits(points);
    r := Retrieval(ids, texts, ratings, scores, |asins|);
  }

  // ---------------------------------------------------------------- format_hybrid_context

  /** `text` when the condition holds, nothing otherwise. */
  function Segment(present: bool, text: string): (r: string)
    ensures present ==> r == text
    ensures !present ==> r == ""
  {
    if present then text else ""
  }

  /** One `if ...: formatted += text` step. */
  method AddSegment(formatted: string, present: bool, text: string) returns (formatted': string)
    ensures formatted' == formatted + Segment(present, text)
  {
    formatted' := formatted;
    if present {
      formatted' := formatted' + text;
    }
  }

  function HeaderStart(filterCount: nat): string {
    "(Filtered from " + NatToString(filterCount) + " products"
  }

  /** The shown filters: max price, min rating and category, each only when truthy. */
  function HeaderSegments(show: Value -> string, filters: Dict): string {
    Segment(Truthy(Get(filters, "max_price")), ", max price: $" + Render(show, Get(filters, "max_price")))
    + Segment(Truthy(Get(filters, "min_rating")), ", min rating: " + Render(show, Get(filters, "min_rating")))
    + Segment(Truthy(Get(filters, "category")), ", category: " + Render(show, Get(filters, "category")))
  }

  /** The first paragraph of the context. */
  function ContextHeader(show: Value -> string, filterCount: nat, filters: Dict): (r: string)
    ensures StartsWith(r, HeaderStart(filterCount))
  {
    var r := HeaderStart(filterCount) + HeaderSegments(show, filters) + ")\n\n";
    assert r[..|HeaderStart(filterCount)|] == HeaderStart(filterCount);
    r
  }

  /** The header names no filter exactly when none of max price, min rating and category is
      truthy; a zero or empty value is not shown. */
  lemma HeaderBareIff(show: Value -> string, filterCount: nat, filters: Dict)
    ensures (ContextHeader(show, filterCount, filters) == HeaderStart(filterCount) + ")\n\n")
              <==> (!Truthy(Get(filters, "max_price")) && !Truthy(Get(filters, "min_rating"))
                    && !Truthy(Get(filters, "category")))
  {
    var segments := HeaderSegments(show, filters);
    if segments != "" {
      assert |ContextHeader(show, filterCount, filters)| > |HeaderStart(filterCount) + ")\n\n"|;
    }
  }

  /** The minimum price is never shown in the header. */
  lemma HeaderIgnoresMinPrice(show: Value -> string, filterCount: nat, filters: Dict, minPrice: Value)
    ensures ContextHeader(show, filterCount, filters["min_price" := minPrice]) == ContextHeader(show, filterCount, filters)
  {
    var updated := filters["min_price" := minPrice];
    assert Get(updated, "max_price") == Get(filters, "max_price");
    assert Get(updated, "min_rating") == Get(filters, "min_rating");
    assert Get(updated, "category") == Get(filters, "category");
  }

  /** How many entries `zip` yields: the length of the shortest list. */
  function ZipLength(r: Retrieval): (n: nat)
    ensures n <= |r.ids| && n <= |r.texts| && n <= |r.ratings| && n <= |r.scores|
    ensures n == |r.ids| || n == |r.texts| || n == |r.ratings| || n == |r.scores|
    ensures Aligned(r) ==> n == |r.ids|
  {
    var a := if |r.ids| <= |r.texts| then |r.ids| else |r.texts|;
    var b := if |r.ratings| <= |r.scores| then |r.ratings| else |r.scores|;
    if a <= b then a else b
  }

  /** The first line of an entry; `fixed2` stands for the `.2f` format of a score. */
  function EntryIdLine(show: Value -> string, fixed2: real -> string, id: Value, rating: Value, score: real): string {
    "- ID: " + Render(show, id) + ", rating: " + Render(show, rating) + ", relevance: " + fixed2(score) + "\n"
  }

  function EntryDescriptionLine(show: Value -> string, chunk: Value): string {
    "  Description: " + Render(show, chunk) + "\n\n"
  }

  /** The entry of the i-th zipped tuple: its ID line and its description line. */
  function ContextEntry(show: Value -> string, fixed2: real -> string, r: Retrieval, i: nat): (e: string)
    requires i < ZipLength(r)
    ensures |e| > 0
  {
    EntryIdLine(show, fixed2, r.ids[i], r.ratings[i], r.scores[i]) + EntryDescriptionLine(show, r.texts[i])
  }

  /** The entry of every zipped tuple, in list order. */
  function ContextEntries(show: Value -> string, fixed2: real -> string, r: Retrieval): (es: seq<string>)
    ensures |es| == ZipLength(r)
    ensures forall i :: 0 <= i < |es| ==> |es[i]| > 0
  {
    seq(ZipLength(r), i requires 0 <= i < ZipLength(r) => ContextEntry(show, fixed2, r, i))
  }

  /** The first `n` zipped entries, in list order. */
  function ContextBody(show: Value -> string, fixed2: real -> string, r: Retrieval, n: nat): string
    requires n <= ZipLength(r)
  {
    Concat(ContextEntries(show, fixed2, r)[..n])
  }

  /** Entries are emitted in order: the body of the first m entries begins the body of the
      first n. */
  lemma ContextBodyPrefix(show: Value -> string, fixed2: real -> string, r: Retrieval, m: nat, n: nat)
    requires m <= n <= ZipLength(r)
    ensures StartsWith(ContextBody(show, fixed2, r, n), ContextBody(show, fixed2, r, m))
  {
    ConcatPrefix(ContextEntries(show, fixed2, r), m, n);
  }

  /** Every entry adds text: the body of the first m entries is shorter than that of the
      first n whenever m < n. */
  lemma ContextBodyGrows(show: Value -> string, fixed2: real -> string, r: Retrieval, m: nat, n: nat)
    requires m < n <= ZipLength(r)
    ensures |ContextBody(show, fixed2, r, m)| < |ContextBody(show, fixed2, r, n)|
  {
    ConcatGrows(ContextEntries(show, fixed2, r), m, n);
  }

  /** format_hybrid_context. */
  function ContextText(show: Value -> string, fixed2: real -> string, r: Retrieval, filters: Dict): (text: string)
    ensures StartsWith(text, HeaderStart(r.filterCount))
    ensures StartsWith(text, ContextHeader(show, r.filterCount, filters))
  {
    var header := ContextHeader(show, r.filterCount, filters);
    var text := header + ContextBody(show, fixed2, r, ZipLength(r));
    assert text[..|HeaderStart(r.filterCount)|] == header[..|HeaderStart(r.filterCount)|];
    assert text[..|header|] == header;
    text
  }

  /** A retrieval built from hits lists every hit: the zip stops at the last hit. */
  lemma ContextListsEveryHit(show: Value -> string, fixed2: real -> string, asins: seq<string>, points: seq<Point>)
    requires asins != []
    ensures ZipLength(Retrieve(asins, points)) == |points|
  {
  }

  /** The header part of format_hybrid_context, growing the text segment by segment. */
  method FormatHeader(show: Value -> string, filterCount: nat, filters: Dict) returns (header: string)
    ensures header == ContextHeader(show, filterCount, filters)
  {
    var maxPrice := Segment(Truthy(Get(filters, "max_price")), ", max price: $" + Render(show, Get(filters, "max_price")));
    var minRating := Segment(Truthy(Get(filters, "min_rating")), ", min rating: " + Render(show, Get(filters, "min_rating")));
    var category := Segment(Truthy(Get(filters, "category")), ", category: " + Render(show, Get(filters, "category")));
    header := HeaderStart(filterCount);
    header := AddSegment(header, Truthy(Get(filters, "max_price")), ", max price: $" + Render(show, Get(filters, "max_price")));
    header := AddSegment(header, Truthy(Get(filters, "min_rating")), ", min rating: " + Render(show, Get(filters, "min_rating")));
    header := AddSegment(header, Truthy(Get(filters, "category")), ", category: " + Render(show, Get(filters, "category")));
    ConcatAssoc(HeaderStart(filterCount), maxPrice, minRating);
    ConcatAssoc(HeaderStart(filterCount), maxPrice + minRating, category);
    assert header == HeaderStart(filterCount) + HeaderSegments(show, filters);
    header := header + ")\n\n";
  }

  /** The two appends for the i-th zipped tuple: its ID line, then its description line. */
  method AppendEntry(show: Value -> string, fixed2: real -> string, context: Retrieval, i: nat, formatted: string)
    returns (formatted': string)
    requires i < ZipLength(context)
    ensures formatted' == formatted + ContextEntry(show, fixed2, context, i)
  {
    var idLine := EntryIdLine(show, fixed2, context.ids[i], context.ratings[i], context.scores[i]);
    var descriptionLine := EntryDescriptionLine(show, context.texts[i]);
    formatted' := formatted + idLine;
    formatted' := formatted' + descriptionLine;
    ConcatAssoc(formatted, idLine, descriptionLine);
  }

  /** The loop of format_hybrid_context: the entry of every zipped tuple, in order, appended
      to the text so far. */
  method AppendEntries(show: Value -> string, fixed2: real -> string, context: Retrieval, prefix: string)
    returns (formatted: string)
    ensures formatted == prefix + ContextBody(show, fixed2, context, ZipLength(context))
  {
    formatted := prefix;
    var n := ZipLength(context);
    for i := 0 to n
      invariant formatted == prefix + ContextBody(show, fixed2, context, i)
    {
      ghost var entries := ContextEntries(show, fixed2, context);
      ghost var body := ContextBody(show, fixed2, context, i);
      formatted := AppendEntry(show, fixed2, context, i, formatted);
      ConcatAssoc(prefix, body, ContextEntry(show, fixed2, context, i));
      assert entries[..i + 1][..i] == entries[..i];
    }
  }

  /** format_hybrid_context: the header, then one entry per zipped tuple. */
  method FormatHybridContext(show: Value -> string, fixed2: real -> string, context: Retrieval, filters: Dict)
    returns (formatted: string)
    ensures formatted == ContextText(show, fixed2, context, filters)
  {
    var header := FormatHeader(show, context.filterCount, filters);
    formatted := AppendEntries(show, fixed2, context, header);
  }

  // ---------------------------------------------------------------- build_hybrid_prompt

  /** The price part of the criteria, stripped of surrounding whitespace. */
  function PriceRange(show: Value -> string, filters: Dict): string {
    Strip(Segment(Truthy(Get(filters, "min_price")), "from $" + Render(show, Get(filters, "min_price")))
          + Segment(Truthy(Get(filters, "max_price")), " up to $" + Render(show, Get(filters, "max_price"))))
  }

  /** With only a maximum price the range reads "up to $...": the separating space is stripped. */
  lemma PriceRangeUpToOnly(show: Value -> string, filters: Dict)
    requires !Truthy(Get(filters, "min_price")) && Truthy(Get(filters, "max_price"))
    ensures PriceRange(show, filters) == Strip("up to $" + Render(show, Get(filters, "max_price")))
  {
    var rest := "up to $" + Render(show, Get(filters, "max_price"));
    var segment := " up to $" + Render(show, Get(filters, "max_price"));
    assert segment == " " + rest + "";
    StripPadded(" ", rest, "");
    var fromPart := Segment(Truthy(Get(filters, "min_price")), "from $" + Render(show, Get(filters, "min_price")));
    var upToPart := Segment(Truthy(Get(filters, "max_price")), segment);
    assert fromPart + upToPart == segment;
    assert PriceRange(show, filters) == Strip(fromPart + upToPart);
  }

  function PriceSummary(show: Value -> string, filters: Dict): string {
    "Price: " + PriceRange(show, filters)
  }

  function RatingSummary(show: Value -> string, filters: Dict): string {
    "Rating: " + Render(show, Get(filters, "min_rating")) + "+ stars"
  }

  function CategorySummary(show: Value -> string, filters: Dict): string {
    "Category: " + Render(show, Get(filters, "category"))
  }

  predicate HasPrice(filters: Dict) {
    Truthy(Get(filters, "min_price")) || Truthy(Get(filters, "max_price"))
  }

  /** The criteria lines: Price, then Rating, then Category, each only when its filter is
      truthy, so that a zero bound or an empty category counts as absent. */
  function FilterSummary(show: Value -> string, filters: Dict): (lines: seq<string>)
    ensures |lines| == (if HasPrice(filters) then 1 else 0) + (if Truthy(Get(filters, "min_rating")) then 1 else 0)
                       + (if Truthy(Get(filters, "category")) then 1 else 0)
    ensures HasPrice(filters) ==> lines[0] == PriceSummary(show, filters)
    ensures Truthy(Get(filters, "min_rating")) ==>
              lines[if HasPrice(filters) then 1 else 0] == RatingSummary(show, filters)
    ensures Truthy(Get(filters, "category")) ==> lines[|lines| - 1] == CategorySummary(show, filters)
  {
    var lines := AppendIf([], HasPrice(filters), PriceSummary(show, filters));
    var lines := AppendIf(lines, Truthy(Get(filters, "min_rating")), RatingSummary(show, filters));
    AppendIf(lines, Truthy(Get(filters, "category")), CategorySummary(show, filters))
  }

  const NoFilters: string := "No specific filters"

  /** The criteria paragraph of the prompt. */
  function Criteria(lines: seq<string>): string {
    if lines != [] then Join(lines, "\n") else NoFilters
  }

  /** The prompt says "No specific filters" exactly when none of the four filters is truthy. */
  lemma NoFiltersIff(show: Value -> string, filters: Dict)
    ensures (Criteria(FilterSummary(show, filters)) == NoFilters)
              <==> (!Truthy(Get(filters, "min_price")) && !Truthy(Get(filters, "max_price"))
                    && !Truthy(Get(filters, "min_rating")) && !Truthy(Get(filters, "category")))
  {
    var lines := FilterSummary(show, filters);
    if lines != [] {
      JoinStartsWithFirst(lines, "\n");
      assert lines[0][0] != 'N';
    }
  }

  /** A value that is not truthy counts as no filter at all. */
  lemma FalsyFilterIsAbsent(show: Value -> string, filters: Dict, key: string, v: Value)
    requires !Truthy(v)
    ensures FilterSummary(show, filters[key := v]) == FilterSummary(show, filters - {key})
  {
    var updated := filters[key := v];
    var removed := filters - {key};
    assert Truthy(Get(updated, "min_price")) == Truthy(Get(removed, "min_price"));
    assert Truthy(Get(updated, "max_price")) == Truthy(Get(removed, "max_price"));
    assert Truthy(Get(updated, "min_rating")) == Truthy(Get(removed, "min_rating"));
    assert Truthy(Get(updated, "category")) == Truthy(Get(removed, "category"));
    if Truthy(Get(updated, "min_price")) {
      assert Get(updated, "min_price") == Get(removed, "min_price");
    }
    if Truthy(Get(updated, "max_price")) {
      assert Get(updated, "max_price") == Get(removed, "max_price");
    }
    if Truthy(Get(updated, "min_rating")) {
      assert Get(updated, "min_rating") == Get(removed, "min_rating");
    }
    if Truthy(Get(updated, "category")) {
      assert Get(updated, "category") == Get(removed, "category");
    }
  }

  const PromptIntro: string :=
    "You are a shopping assistant helping customers find products.\n\n"
    + "The user is looking for products with these criteria:\n"
  const CatalogIntro: string := "\n\nHere are the matching products from our catalog:\n\n"
  const QuestionIntro: string := "\n\nUser question: "
  const Instructions: string :=
    "\n\nInstructions:\n"
    + "- Recommend the best matching products based on both the filters and the user's needs\n"
    + "- Mention specific prices and ratings when available\n"
    + "- If the results are limited, acknowledge the filtering criteria\n"
    + "- Be helpful and conversational"

  /** The text of a prompt: the fixed template around its three parts. */
  function PromptText(p: Prompt): string {
    (PromptIntro + p.criteria) + (CatalogIntro + p.context) + (QuestionIntro + p.question) + Instructions
  }

  /** The prompt opens with the criteria, then shows the catalogue context and the user's
      question, each after its heading. */
  lemma PromptShowsParts(p: Prompt)
    ensures StartsWith(PromptText(p), PromptIntro + p.criteria)
    ensures Contains(PromptText(p), CatalogIntro + p.context)
    ensures Contains(PromptText(p), QuestionIntro + p.question)
  {
    var first, second, third := PromptIntro + p.criteria, CatalogIntro + p.context, QuestionIntro + p.question;
    assert first[..|first|] == first;
    StartsWithExtend(first, first, second);
    StartsWithExtend(first + second, first, third);
    StartsWithExtend(first + second + third, first, Instructions);
    ConcatAssoc(first + second, third, Instructions);
    ContainsPart(first, second, third + Instructions);
    ContainsPart(first + second, third, Instructions);
  }

  /** build_hybrid_prompt. */
  function HybridPrompt(show: Value -> string, context: string, question: string, filters: Dict): Prompt {
    Prompt(Criteria(FilterSummary(show, filters)), context, question)
  }

  /** One `if ...: filter_summary.append(line)` step. */
  method AddSummaryLine(lines: seq<string>, present: bool, line: string) returns (lines': seq<string>)
    ensures lines' == AppendIf(lines, present, line)
  {
    lines' := lines;
    if present {
      lines' := lines' + [line];
    }
  }

  /** build_hybrid_prompt, appending the criteria as it goes. */
  method BuildHybridPrompt(show: Value -> string, formattedContext: string, question: string, filters: Dict)
    returns (prompt: Prompt)
    ensures prompt == HybridPrompt(show, formattedContext, question, filters)
  {
    var summary: seq<string> := [];
    if HasPrice(filters) {
      var priceRange := "";
      priceRange := AddSegment(priceRange, Truthy(Get(filters, "min_price")), "from $" + Render(show, Get(filters, "min_price")));
      ghost var fromPart := Segment(Truthy(Get(filters, "min_price")), "from $" + Render(show, Get(filters, "min_price")));
      assert priceRange == fromPart;
      priceRange := AddSegment(priceRange, Truthy(Get(filters, "max_price")), " up to $" + Render(show, Get(filters, "max_price")));
      assert priceRange == fromPart + Segment(Truthy(Get(filters, "max_price")), " up to $" + Render(show, Get(filters, "max_price")));
      assert Strip(priceRange) == PriceRange(show, filters);
      summary := summary + [PriceSummary(show, filters)];
    }
    assert summary == AppendIf([], HasPrice(filters), PriceSummary(show, filters));
    summary := AddSummaryLine(summary, Truthy(Get(filters, "min_rating")), RatingSummary(show, filters));
    summary := AddSummaryLine(summary, Truthy(Get(filters, "category")), CategorySummary(show, filters));
    assert summary == FilterSummary(show, filters);
    var criteria := if summary != [] then Join(summary, "\n") else NoFilters;
    assert criteria == Criteria(FilterSummary(show, filters));
    prompt := Prompt(criteria, formattedContext, question);
  }

  // ---------------------------------------------------------------- hybrid_pipeline

  /** The dictionary hybrid_pipeline returns. */
  datatype HybridResponse = HybridResponse(
    answer: string,
    question: string,
    intent: string,
    filters: Dict,
    semanticQuery: Value,
    retrievedIds: seq<Value>,
    retrievedContext: seq<Value>,
    similarityScores: seq<real>,
    filterCount: nat)

  /** The semantic query used for retrieval: the question stands in for a missing one. */
  function Fallback(question: string, semanticQuery: Value): (v: Value)
    ensures semanticQuery.Null? ==> v == Str(question)
    ensures !semanticQuery.Null? ==> v == semanticQuery
  {
    if semanticQuery.Null? then Str(question) else semanticQuery
  }

  /** The model calls made before retrieval: the router's, and only when no filters are given. */
  function ResolveCalls(question: string, filters: Option<Dict>, reply: Request -> string): (calls: seq<Request>)
    ensures filters.Some? ==> calls == []
    ensures filters.None? ==> calls == RouteRequests(question, reply)
  {
    if filters.None? then RouteRequests(question, reply) else []
  }

  /** The filters and semantic query the pipeline retrieves with, or the router's error. When
      no filters are given, the question must route as hybrid: for any other intent the
      router's state holds None under "filters", which hybrid_retrieve cannot read. */
  function Resolve(question: string, filters: Option<Dict>, semanticQuery: Value, reply: Request -> string,
                   parse: string -> Option<Value>): (r: Result<(Dict, Value)>)
    requires filters.None? ==> RoutedIntent(question, reply) == Hybrid
    ensures filters.Some? ==> r == Ok((filters.value, Fallback(question, semanticQuery)))
    ensures filters.None? ==>
              var e := ExtractFilters(question, reply(FilterRequest(question)), parse);
              && (r.Ok? <==> e.Ok?)
              && (r.Err? ==> r.error == e.error)
              && (r.Ok? ==> r.value == (e.value.0, Fallback(question, e.value.1)))
  {
    if filters.Some? then Ok((filters.value, Fallback(question, semanticQuery)))
    else
      var routed := Route(question, reply, parse);
      RouteHybrid(question, reply, parse);
      if routed.Err? then Err(routed.error)
      else Ok((routed.value.filters.value, Fallback(question, routed.value.semanticQuery)))
  }

  /** The prompt of the answer call for the given filters, semantic query and retrieval. */
  function AnswerPrompt(show: Value -> string, fixed2: real -> string, question: string, filters: Dict, context: Retrieval): Prompt {
    HybridPrompt(show, ContextText(show, fixed2, context, filters), question, filters)
  }

  /** The response for a retrieval: always a hybrid answer, reporting the retrieval as is. */
  function Answer(show: Value -> string, fixed2: real -> string, reply: Request -> string, question: string,
                  filters: Dict, semanticQuery: Value, context: Retrieval): HybridResponse
  {
    var prompt := AnswerPrompt(show, fixed2, question, filters, context);
    HybridResponse(reply(HybridAnswerRequest(prompt)), question, "hybrid", filters, semanticQuery,
                   context.ids, context.texts, context.scores, context.filterCount)
  }

  /** The response is always labelled hybrid, its candidate count is the number of
      candidates, and it carries as many identifiers, descriptions and scores as search hits,
      none at all when there were no candidates. */
  lemma AnswerReportsRetrieval(show: Value -> string, fixed2: real -> string, reply: Request -> string,
                               question: string, filters: Dict, semanticQuery: Value,
                               asins: seq<string>, points: seq<Point>)
    ensures var r := Answer(show, fixed2, reply, question, filters, semanticQuery, Retrieve(asins, points));
      && r.intent == "hybrid" && r.filterCount == |asins|
      && |r.retrievedContext| == |r.retrievedIds| && |r.similarityScores| == |r.retrievedIds|
      && |r.retrievedIds| == (if asins == [] then 0 else |points|)
  {
  }

  /** hybrid_generate. */
  method HybridGenerate(prompt: Prompt, llm: Llm) returns (answer: string)
    modifies llm
    ensures answer == llm.reply(HybridAnswerRequest(prompt))
    ensures llm.log == old(llm.log) + [HybridAnswerRequest(prompt)]
  {
    answer := llm.Complete(HybridAnswerRequest(prompt));
  }

  /** The fallbacks at the top of hybrid_pipeline. */
  method ResolveInputs(question: string, filters: Option<Dict>, semanticQuery: Value, router: RouterCache,
                       llm: Llm, parse: string -> Option<Value>)
    returns (r: Result<(Dict, Value)>)
    requires router.Valid()
    requires filters.None? ==> RoutedIntent(question, llm.reply) == Hybrid
    modifies router, llm
    ensures router.Valid()
    ensures filters.Some? ==> router.graph == old(router.graph)
    ensures r == Resolve(question, filters, semanticQuery, llm.reply, parse)
    ensures llm.log == old(llm.log) + ResolveCalls(question, filters, llm.reply)
  {
    var f := filters;
    var s := semanticQuery;
    if f.None? {
      var routed := router.RouteQuery(question, llm, parse);
      RouteHybrid(question, llm.reply, parse);
      if routed.Err? {
        r := Err(routed.error);
        return;
      }
      f := routed.value.filters;
      s := routed.value.semanticQuery;
    }
    if s.Null? {
      s := Str(question);
    }
    r := Ok((f.value, s));
  }

  /** Retrieval, context, prompt and answer for resolved inputs. */
  method AnswerWith(question: string, filters: Dict, semanticQuery: Value, topK: int, llm: Llm, db: Database,
                    vs: VectorSearch, show: Value -> string, fixed2: real -> string)
    returns (r: HybridResponse)
    modifies llm, db, vs
    ensures var asins := Candidates(show, db.fetchColumn, filters);
      var context := Retrieve(asins, vs.queryPoints(vs.embed(semanticQuery), asins, topK));
      && r == Answer(show, fixed2, llm.reply, question, filters, semanticQuery, context)
      && llm.log == old(llm.log) + [HybridAnswerRequest(AnswerPrompt(show, fixed2, question, filters, context))]
      && db.log == old(db.log) + [CandidateQuery(CandidateWhere(filters), CandidateBindings(show, filters))]
      && vs.embedded == old(vs.embedded) + EmbedCalls(asins, semanticQuery)
      && vs.searches == old(vs.searches) + SearchCalls(asins, vs.embed(semanticQuery), topK)
  {
    var context := HybridRetrieve(semanticQuery, filters, topK, db, vs, show);
    var formattedContext := FormatHybridContext(show, fixed2, context, filters);
    var prompt := BuildHybridPrompt(show, formattedContext, question, filters);
    var answer := HybridGenerate(prompt, llm);
    r := HybridResponse(answer, question, "hybrid", filters, semanticQuery, context.ids, context.texts,
                        context.scores, context.filterCount);
  }

  /** hybrid_pipeline. `filters` None stands for a call without filters and `semanticQuery`
      Null for one without a semantic query. */
  method HybridPipeline(question: string, filters: Option<Dict>, semanticQuery: Value, topK: int,
                        router: RouterCache, llm: Llm, db: Database, vs: VectorSearch,
                        show: Value -> string, fixed2: real -> string, parse: string -> Option<Value>)
    returns (r: Result<HybridResponse>)
    requires router.Valid()
    requires filters.None? ==> RoutedIntent(question, llm.reply) == Hybrid
    modifies router, llm, db, vs
    ensures router.Valid()
    ensures var inputs := Resolve(question, filters, semanticQuery, llm.reply, parse);
      && (inputs.Err? ==>
            && r == Err(inputs.error)
            && llm.log == old(llm.log) + ResolveCalls(question, filters, llm.reply)
            && db.log == old(db.log) && vs.embedded == old(vs.embedded) && vs.searches == old(vs.searches))
      && (inputs.Ok? ==>
            var (f, s) := inputs.value;
            var asins := Candidates(show, db.fetchColumn, f);
            var context := Retrieve(asins, vs.queryPoints(vs.embed(s), asins, topK));
            && r == Ok(Answer(show, fixed2, llm.reply, question, f, s, context))
            && llm.log == old(llm.log) + ResolveCalls(question, filters, llm.reply)
                            + [HybridAnswerRequest(AnswerPrompt(show, fixed2, question, f, context))]
            && db.log == old(db.log) + [CandidateQuery(CandidateWhere(f), CandidateBindings(show, f))]
            && vs.embedded == old(vs.embedded) + EmbedCalls(asins, s)
            && vs.searches == old(vs.searches) + SearchCalls(asins, vs.embed(s), topK))
  {
    var inputs := ResolveInputs(question, filters, semanticQuery, router, llm, parse);
    if inputs.Err? {
      r := Err(inputs.error);
      return;
    }
    var response := AnswerWith(question, inputs.value.0, inputs.value.1, topK, llm, db, vs, show, fixed2);
    r := Ok(response);
  }
}
