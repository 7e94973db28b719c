/** The SQL agent: turn a question into a read-only query, vet it, run it, and phrase the
    result; plus the filter-to-candidates query the hybrid pipeline relies on. */
module SqlAgent {
  import opened Common
  import opened Services

  // ---------------------------------------------------------------- generate_sql_query

  /** The markdown clean-up of generate_sql_query: like the router's, except that the last
      line is dropped only when it is exactly the fence (it is not stripped first). */
  function StripSqlFence(sql: string): (r: string)
    ensures !StartsWith(sql, Fence) ==> r == sql
  {
    if StartsWith(sql, Fence) then
      var lines := Split(sql, '\n');
      Join(DropFenceLines(lines, Last(lines) == Fence), "\n")
    else sql
  }

  /** generate_sql_query after the model call. */
  function CleanSql(reply: string): string {
    StripSqlFence(Strip(reply))
  }

  /** A fenced query with whitespace around it comes out as the bare query. */
  lemma CleanSqlUnwraps(ws1: string, opening: string, body: string, ws2: string)
    requires AllSpace(ws1) && AllSpace(ws2)
    requires StartsWith(opening, Fence) && '\n' !in opening
    ensures CleanSql(ws1 + (opening + "\n" + body + "\n" + Fence) + ws2) == body
  {
    var fenced := opening + "\n" + body + "\n" + Fence;
    StripPadded(ws1, fenced, ws2);
    assert fenced[0] == opening[0] == '`';
    assert fenced[|fenced| - 1] == '`';
    StripUnpadded(fenced);
    SqlFenceRoundTrip(opening, body);
  }

  /** The fenced branch read line by line; the lemmas about fences start from it. */
  lemma SqlFenceByLines(sql: string, lines: seq<string>)
    requires StartsWith(sql, Fence) && Split(sql, '\n') == lines
    ensures StripSqlFence(sql) == Join(DropFenceLines(lines, Last(lines) == Fence), "\n")
  {
  }

  /** A query wrapped in a fence whose last line is exactly the fence comes out unwrapped. */
  lemma SqlFenceRoundTrip(opening: string, body: string)
    requires StartsWith(opening, Fence) && '\n' !in opening
    ensures StripSqlFence(opening + "\n" + body + "\n" + Fence) == body
  {
    var sql := opening + "\n" + body + "\n" + Fence;
    var lines := ClosedLines(opening, body, Fence);
    SqlFenceByLines(sql, lines);
    DropClosedFence(opening, Split(body, '\n'), Fence);
    JoinSplit(body, '\n');
  }

  /** Any other last line is kept, an indented closing fence included (the router's
      clean-up would drop that one). */
  lemma SqlFenceKeepsLastLine(opening: string, body: string)
    requires StartsWith(opening, Fence) && '\n' !in opening
    requires Last(Split(body, '\n')) != Fence
    ensures StripSqlFence(opening + "\n" + body) == body
  {
    var lines := OpeningLine(opening, body);
    DropOpenFence(opening, Split(body, '\n'));
    SqlFenceByLines(opening + "\n" + body, lines);
    JoinSplit(body, '\n');
  }

  // ---------------------------------------------------------------- execute_sql_query

  /** The write operations the safety check refuses, in the order it looks for them. */
  const Forbidden: seq<string> := ["INSERT", "UPDATE", "DELETE", "DROP", "TRUNCATE", "ALTER", "CREATE"]

  datatype Verdict = Allowed | Rejected(reason: string)

  /** The first of `words` that occurs in `text`. */
  function FirstOccurring(text: string, words: seq<string>): (r: Option<nat>)
    ensures r.None? <==> forall j :: 0 <= j < |words| ==> !Contains(text, words[j])
    ensures r.Some? ==> r.value < |words| && Contains(text, words[r.value])
    ensures r.Some? ==> forall j :: 0 <= j < r.value ==> !Contains(text, words[j])
  {
    if words == [] then None
    else if Contains(text, words[0]) then Some(0)
    else match FirstOccurring(text, words[1..])
      case None => None
      case Some(i) => Some(i + 1)
  }

  /** The text the safety check inspects: `sql.upper().strip()`. */
  function SqlUpper(sql: string): string {
    Strip(Upper(sql))
  }

  /** The safety check on an upper-cased, stripped statement against a list of refused
      words: it must start with SELECT and contain none of them. */
  function Screen(sqlUpper: string, words: seq<string>): (v: Verdict)
    ensures v == Allowed <==>
              StartsWith(sqlUpper, "SELECT") && forall j :: 0 <= j < |words| ==> !Contains(sqlUpper, words[j])
    ensures !StartsWith(sqlUpper, "SELECT") ==> v == Rejected("Only SELECT queries are allowed")
  {
    if !StartsWith(sqlUpper, "SELECT") then Rejected("Only SELECT queries are allowed")
    else
      var first := FirstOccurring(sqlUpper, words);
      if first.None? then Allowed
      else Rejected("Forbidden SQL operation: " + words[first.value])
  }

  /** A SELECT that contains a refused word is rejected, and the message names the first such
      word in the list's order. */
  lemma {:induction false} FirstWordNamed(sqlUpper: string, words: seq<string>, i: nat)
    requires StartsWith(sqlUpper, "SELECT")
    requires i < |words| && Contains(sqlUpper, words[i])
    requires forall j :: 0 <= j < i ==> !Contains(sqlUpper, words[j])
    ensures Screen(sqlUpper, words) == Rejected("Forbidden SQL operation: " + words[i])
  {
    var first := FirstOccurring(sqlUpper, words);
    assert first == Some(i);
  }

  /** What the safety check of execute_sql_query decides. */
  function SqlVerdict(sql: string): Verdict {
    Screen(SqlUpper(sql), Forbidden)
  }

  /** The screen ignores case: a statement and its upper-cased form get the same verdict. */
  lemma VerdictIgnoresCase(sql: string)
    ensures SqlVerdict(Upper(sql)) == SqlVerdict(sql)
  {
    UpperIdempotent(sql);
  }

  /** The test is on substrings, not on keywords: a refused word anywhere in the text
      rejects the statement. */
  lemma {:induction false} SubstringRejects(sqlUpper: string, words: seq<string>, i: nat, k: nat)
    requires i < |words|
    requires k + |words[i]| <= |sqlUpper| && sqlUpper[k..k + |words[i]|] == words[i]
    ensures Screen(sqlUpper, words).Rejected?
  {
    ContainsAt(sqlUpper, words[i], k);
  }

  /** A forbidden word anywhere in the upper-cased statement, even inside an identifier such
      as `created_at`, makes execute_sql_query refuse it. */
  lemma ForbiddenSubstringRejects(sql: string, i: nat, k: nat)
    requires i < |Forbidden|
    requires k + |Forbidden[i]| <= |SqlUpper(sql)| && SqlUpper(sql)[k..k + |Forbidden[i]|] == Forbidden[i]
    ensures SqlVerdict(sql).Rejected?
  {
    SubstringRejects(SqlUpper(sql), Forbidden, i, k);
  }

  /** The refusal names the first forbidden word of the list that occurs, not the first in
      the statement. */
  lemma ForbiddenWordNamed(sql: string, i: nat)
    requires StartsWith(SqlUpper(sql), "SELECT")
    requires i < |Forbidden| && Contains(SqlUpper(sql), Forbidden[i])
    requires forall j :: 0 <= j < i ==> !Contains(SqlUpper(sql), Forbidden[j])
    ensures SqlVerdict(sql) == Rejected("Forbidden SQL operation: " + Forbidden[i])
  {
    FirstWordNamed(SqlUpper(sql), Forbidden, i);
  }

  /** The scan of the forbidden-word loop: the index of the first word of `words` that
      occurs in `text`, stopping at the first hit. */
  method FindFirstOccurring(text: string, words: seq<string>) returns (found: Option<nat>)
    ensures found == FirstOccurring(text, words)
  {
    for i := 0 to |words|
      invariant forall j :: 0 <= j < i ==> !Contains(text, words[j])
    {
      if Contains(text, words[i]) {
        assert FirstOccurring(text, words) == Some(i);
        return Some(i);
      }
    }
    found := None;
  }

  /** The safety check of execute_sql_query. */
  method CheckSql(sql: string) returns (v: Verdict)
    ensures v == SqlVerdict(sql)
  {
    var sqlUpper := SqlUpper(sql);
    if !StartsWith(sqlUpper, "SELECT") {
      return Rejected("Only SELECT queries are allowed");
    }
    var found := FindFirstOccurring(sqlUpper, Forbidden);
    if found.Some? {
      return Rejected("Forbidden SQL operation: " + Forbidden[found.value]);
    }
    v := Allowed;
  }

  /** execute_sql_query as a function of the database's answers. */
  function Execution(sql: string, fetchRows: string -> Result<seq<Dict>>): (r: Result<seq<Dict>>)
    ensures SqlVerdict(sql).Rejected? ==> r == Err(SqlVerdict(sql).reason)
    ensures SqlVerdict(sql).Allowed? ==> r == fetchRows(sql)
  {
    var verdict := SqlVerdict(sql);
    if verdict.Rejected? then Err(verdict.reason) else fetchRows(sql)
  }

  /** execute_sql_query: a rejected statement never reaches the database. */
  method ExecuteSqlQuery(sql: string, db: Database) returns (r: Result<seq<Dict>>)
    modifies db
    ensures r == Execution(sql, db.fetchRows)
    ensures SqlVerdict(sql).Rejected? ==> db.log == old(db.log)
    ensures SqlVerdict(sql).Allowed? ==> db.log == old(db.log) + [Query(sql)]
  {
    var verdict := CheckSql(sql);
    if verdict.Rejected? {
      r := Err(verdict.reason);
    } else {
      r := db.Run(sql);
    }
  }

  // ---------------------------------------------------------------- format_sql_results

  const NoProducts: string := "No products found matching your criteria."

  /** `s[:n]`. */
  function Take<T>(s: seq<T>, n: nat): (r: seq<T>)
    ensures |r| <= n && |r| <= |s| && r == s[..|r|]
    ensures |s| <= n ==> r == s
    ensures |s| >= n ==> |r| == n
  {
    if |s| <= n then s else s[..n]
  }

  /** `row['title'][:80]`, rendered; slicing a value that is neither a string nor a list
      raises a TypeError. */
  function TitleText(show: Value -> string, title: Value): (r: Result<string>)
    ensures title.Str? ==> r == Ok(Take(title.s, 80))
    ensures r.Err? <==> !title.Str? && !title.Arr?
  {
    match title
    case Str(s) => Ok(Take(s, 80))
    case Arr(items) => Ok(show(Arr(Take(items, 80))))
    case Obj(_) => Err("unhashable type: 'slice'")
    case Null => Err("'NoneType' object is not subscriptable")
    case Bool(_) => Err("'bool' object is not subscriptable")
    case Int(_) => Err("'int' object is not subscriptable")
    case Real(_) => Err("'float' object is not subscriptable")
  }

  /** The bold title line, present when the row has a title. */
  function TitleLine(show: Value -> string, row: Dict): (r: Result<string>)
    ensures "title" !in row ==> r == Ok("")
    ensures r.Err? <==> "title" in row && TitleText(show, row["title"]).Err?
  {
    if "title" !in row then Ok("")
    else
      var t := TitleText(show, row["title"]);
      if t.Err? then Err(t.error) else Ok("**" + t.value + "**\n")
  }

  /** The price line appears only for a truthy price: a zero or missing price is not shown. */
  function PriceLine(show: Value -> string, row: Dict): (r: string)
    ensures r != "" <==> "price" in row && Truthy(row["price"])
  {
    if "price" in row && Truthy(row["price"]) then "   Price: $" + Render(show, row["price"]) + "\n" else ""
  }

  /** The rating line, with the review count when the row has one. */
  function RatingLine(show: Value -> string, row: Dict): (r: string)
    ensures r != "" <==> "average_rating" in row
  {
    if "average_rating" in row then
      "   Rating: " + Render(show, row["average_rating"]) + "/5"
      + (if "rating_number" in row then " (" + Render(show, row["rating_number"]) + " reviews)" else "")
      + "\n"
    else ""
  }

  /** A labelled detail line, present exactly when the row has the column: the category
      line (`main_category`) and the ID line (`parent_asin`). */
  function FieldLine(show: Value -> string, row: Dict, column: string, caption: string): (r: string)
    ensures r != "" <==> column in row
    ensures column in row ==> StartsWith(r, "   " + caption + ": ")
  {
    if column in row then
      var prefix := "   " + caption + ": ";
      var r := prefix + Render(show, row[column]) + "\n";
      assert r[..|prefix|] == prefix;
      r
    else ""
  }

  /** The entry of row number `n`: the number, the title, the detail lines and a blank line. */
  function RowEntry(show: Value -> string, n: nat, row: Dict): (r: Result<string>)
    ensures r.Err? <==> TitleLine(show, row).Err?
    ensures r.Ok? ==> StartsWith(r.value, NatToString(n) + ". ")
  {
    var title := TitleLine(show, row);
    if title.Err? then Err(title.error)
    else
      var prefix := NatToString(n) + ". ";
      var entry := prefix + (title.value + PriceLine(show, row) + RatingLine(show, row)
                             + FieldLine(show, row, "main_category", "Category")
                             + FieldLine(show, row, "parent_asin", "ID") + "\n");
      assert entry[..|prefix|] == prefix;
      Ok(entry)
  }

  /** The entries of `rows`, numbered from 1 as `enumerate(results, 1)` numbers them. */
  function RowEntries(show: Value -> string, rows: seq<Dict>): (es: seq<Result<string>>)
    ensures |es| == |rows|
    ensures forall i :: 0 <= i < |rows| ==> es[i] == RowEntry(show, i + 1, rows[i])
  {
    seq(|rows|, i requires 0 <= i < |rows| => RowEntry(show, i + 1, rows[i]))
  }

  /** The text of the first `n` entries one after another, or the first error among them. */
  function Listing(entries: seq<Result<string>>, n: nat): Result<string>
    requires n <= |entries|
  {
    if n == 0 then Ok("")
    else
      var front := Listing(entries, n - 1);
      if front.Err? then front
      else if entries[n - 1].Err? then entries[n - 1]
      else Ok(front.value + entries[n - 1].value)
  }

  /** A listing fails exactly when one of its entries is an error. */
  lemma {:induction false} ListingErrIff(entries: seq<Result<string>>, n: nat)
    requires n <= |entries|
    ensures Listing(entries, n).Err? <==> exists i :: 0 <= i < n && entries[i].Err?
  {
    if n > 0 {
      ListingErrIff(entries, n - 1);
    }
  }

  /** Once a listing has failed at an entry, it fails with that entry's error however many
      entries follow. */
  lemma {:induction false} ListingFirstError(entries: seq<Result<string>>, k: nat, n: nat)
    requires 0 < k <= n <= |entries|
    requires Listing(entries, k - 1).Ok? && entries[k - 1].Err?
    ensures Listing(entries, n) == entries[k - 1]
  {
    if k < n {
      ListingFirstError(entries, k, n - 1);
    }
  }

  function ResultsHeader(n: nat): string {
    "Found " + NatToString(n) + " product(s):\n\n"
  }

  /** format_sql_results. */
  function SqlResultsText(show: Value -> string, rows: seq<Dict>): (r: Result<string>)
    ensures rows == [] ==> r == Ok(NoProducts)
    ensures rows != [] && r.Ok? ==> StartsWith(r.value, ResultsHeader(|rows|))
  {
    if rows == [] then Ok(NoProducts)
    else
      var body := Listing(RowEntries(show, rows), |rows|);
      if body.Err? then body
      else
        var text := ResultsHeader(|rows|) + body.value;
        assert text[..|ResultsHeader(|rows|)|] == ResultsHeader(|rows|);
        Ok(text)
  }

  /** Formatting fails exactly when some row has a title that cannot be sliced. */
  lemma SqlResultsFailIff(show: Value -> string, rows: seq<Dict>)
    ensures SqlResultsText(show, rows).Err? <==>
              exists i :: 0 <= i < |rows| && "title" in rows[i] && TitleText(show, rows[i]["title"]).Err?
  {
    var entries := RowEntries(show, rows);
    ListingErrIff(entries, |rows|);
    if exists i :: 0 <= i < |rows| && "title" in rows[i] && TitleText(show, rows[i]["title"]).Err? {
      var i :| 0 <= i < |rows| && "title" in rows[i] && TitleText(show, rows[i]["title"]).Err?;
      assert entries[i].Err?;
    }
  }

  /** format_sql_results, accumulating the entries in an enumerate loop. */
  method FormatSqlResults(show: Value -> string, rows: seq<Dict>) returns (r: Result<string>)
    ensures r == SqlResultsText(show, rows)
  {
    if rows == [] {
      return Ok(NoProducts);
    }
    ghost var entries := RowEntries(show, rows);
    var formatted := ResultsHeader(|rows|);
    for i := 0 to |rows|
      invariant Listing(entries, i).Ok?
      invariant formatted == ResultsHeader(|rows|) + Listing(entries, i).value
    {
      var entry := RowEntry(show, i + 1, rows[i]);
      assert entry == entries[i];
      if entry.Err? {
        ListingFirstError(entries, i + 1, |rows|);
        return entry;
      }
      ConcatAssoc(ResultsHeader(|rows|), Listing(entries, i).value, entry.value);
      formatted := formatted + entry.value;
    }
    r := Ok(formatted);
  }

  // ---------------------------------------------------------------- sql_pipeline

  datatype SqlResponse =
    | SqlFailed(answer: string, question: string, sqlQuery: string, results: seq<Dict>, error: string)
    | SqlAnswered(answer: string, question: string, sqlQuery: string, results: seq<Dict>, resultCount: nat)

  /** generate_sql_query: one model call, then the clean-up. */
  method GenerateSqlQuery(question: string, llm: Llm) returns (sql: string)
    modifies llm
    ensures sql == CleanSql(llm.reply(SqlRequest(question)))
    ensures llm.log == old(llm.log) + [SqlRequest(question)]
  {
    var reply := llm.Complete(SqlRequest(question));
    sql := CleanSql(reply);
  }

  /** generate_sql_answer: the model sees the question and only the first ten rows. */
  method GenerateSqlAnswer(question: string, rows: seq<Dict>, llm: Llm) returns (answer: string)
    modifies llm
    ensures answer == llm.reply(SqlAnswerRequest(question, Take(rows, 10)))
    ensures llm.log == old(llm.log) + [SqlAnswerRequest(question, Take(rows, 10))]
  {
    answer := llm.Complete(SqlAnswerRequest(question, Take(rows, 10)));
  }

  /** sql_pipeline: generate, vet and run a query; phrase the rows, or report the error. The
      answer is phrased from the first ten rows only; a failed query asks for no answer. */
  method SqlPipeline(question: string, llm: Llm, db: Database) returns (r: SqlResponse)
    modifies llm, db
    ensures var sql := CleanSql(llm.reply(SqlRequest(question)));
      var results := Execution(sql, db.fetchRows);
      && r.question == question && r.sqlQuery == sql
      && db.log == old(db.log) + (if SqlVerdict(sql).Allowed? then [Query(sql)] else [])
      && (results.Err? ==>
            && r == SqlFailed("Error executing query: " + results.error, question, sql, [], results.error)
            && llm.log == old(llm.log) + [SqlRequest(question)])
      && (results.Ok? ==>
            && r == SqlAnswered(llm.reply(SqlAnswerRequest(question, Take(results.value, 10))),
                                question, sql, results.value, |results.value|)
            && llm.log == old(llm.log) + [SqlRequest(question)] + [SqlAnswerRequest(question, Take(results.value, 10))])
  {
    var sql := GenerateSqlQuery(question, llm);
    var results := ExecuteSqlQuery(sql, db);
    if results.Err? {
      r := SqlFailed("Error executing query: " + results.error, question, sql, [], results.error);
    } else {
      var answer := GenerateSqlAnswer(question, results.value, llm);
      r := SqlAnswered(answer, question, sql, results.value, |results.value|);
    }
  }

  // ---------------------------------------------------------------- get_asins_by_filter

  /** `xs.append(x)` when `present`. */
  function AppendIf<T>(xs: seq<T>, present: bool, x: T): (r: seq<T>)
    ensures present ==> r == xs + [x]
    ensures !present ==> r == xs
  {
    if present then xs + [x] else xs
  }

  const MinPriceCondition: string := "price >= %s"
  const MaxPriceCondition: string := "price <= %s"
  const MinRatingCondition: string := "average_rating >= %s"
  const CategoryCondition: string := "main_category ILIKE %s"

  /** The predicates of the candidate query: one per filter argument that is not None, in
      the order min_price, max_price, min_rating, category. Only presence matters, so a zero
      price or an empty category still adds its predicate. */
  function AsinConditions(hasMinPrice: bool, hasMaxPrice: bool, hasMinRating: bool, hasCategory: bool): (cs: seq<string>)
    ensures |cs| == (if hasMinPrice then 1 else 0) + (if hasMaxPrice then 1 else 0)
                    + (if hasMinRating then 1 else 0) + (if hasCategory then 1 else 0)
  {
    var cs := AppendIf([], hasMinPrice, MinPriceCondition);
    var cs := AppendIf(cs, hasMaxPrice, MaxPriceCondition);
    var cs := AppendIf(cs, hasMinRating, MinRatingCondition);
    AppendIf(cs, hasCategory, CategoryCondition)
  }

  /** The ILIKE pattern for a category: any name containing it, case-insensitively. */
  function CategoryPattern(show: Value -> string, category: Value): (p: Value)
    ensures category.Str? ==> p == Str("%" + category.s + "%")
  {
    Str("%" + Render(show, category) + "%")
  }

  /** The values bound to the predicates' placeholders, in the same order; the category is
      bound as a substring pattern. */
  function AsinParams(show: Value -> string, minPrice: Value, maxPrice: Value, minRating: Value, category: Value): (ps: seq<Value>)
    ensures |ps| == |AsinConditions(minPrice != Null, maxPrice != Null, minRating != Null, category != Null)|
  {
    var ps := AppendIf([], minPrice != Null, minPrice);
    var ps := AppendIf(ps, maxPrice != Null, maxPrice);
    var ps := AppendIf(ps, minRating != Null, minRating);
    AppendIf(ps, category != Null, CategoryPattern(show, category))
  }

  /** One `if <arg> is not None:` step of get_asins_by_filter: the argument tested, the
      predicate it adds and the value it binds. */
  datatype FilterClause = FilterClause(arg: Value, condition: string, param: Value)

  /** The four optional filters in the order the code tests them. */
  function FilterClauses(show: Value -> string, minPrice: Value, maxPrice: Value, minRating: Value, category: Value): seq<FilterClause> {
    [FilterClause(minPrice, MinPriceCondition, minPrice),
     FilterClause(maxPrice, MaxPriceCondition, maxPrice),
     FilterClause(minRating, MinRatingCondition, minRating),
     FilterClause(category, CategoryCondition, CategoryPattern(show, category))]
  }

  /** The clauses whose argument is not None, in their original order. */
  function PresentClauses(clauses: seq<FilterClause>): (r: seq<FilterClause>)
    ensures |r| <= |clauses|
    ensures forall i :: 0 <= i < |r| ==> r[i] in clauses && r[i].arg != Null
  {
    if clauses == [] then []
    else
      var front := clauses[..|clauses| - 1];
      var last := clauses[|clauses| - 1];
      assert forall c :: c in front ==> c in clauses;
      AppendIf(PresentClauses(front), last.arg != Null, last)
  }

  function Conditions(clauses: seq<FilterClause>): seq<string> {
    seq(|clauses|, i requires 0 <= i < |clauses| => clauses[i].condition)
  }

  function Params(clauses: seq<FilterClause>): seq<Value> {
    seq(|clauses|, i requires 0 <= i < |clauses| => clauses[i].param)
  }

  /** Keeping a clause keeps its predicate and its binding. */
  lemma KeepClause(present: seq<FilterClause>, keep: bool, c: FilterClause)
    ensures Conditions(AppendIf(present, keep, c)) == AppendIf(Conditions(present), keep, c.condition)
    ensures Params(AppendIf(present, keep, c)) == AppendIf(Params(present), keep, c.param)
  {
  }

  /** The predicates are those of the present filters, in the order min_price, max_price,
      min_rating, category, and binding i is the value of predicate i. */
  lemma AsinClausesPaired(show: Value -> string, minPrice: Value, maxPrice: Value, minRating: Value, category: Value)
    ensures var present := PresentClauses(FilterClauses(show, minPrice, maxPrice, minRating, category));
      && AsinConditions(minPrice != Null, maxPrice != Null, minRating != Null, category != Null) == Conditions(present)
      && AsinParams(show, minPrice, maxPrice, minRating, category) == Params(present)
  {
    var clauses := FilterClauses(show, minPrice, maxPrice, minRating, category);
    var p1 := PresentClauses(clauses[..1]);
    var p2 := PresentClauses(clauses[..2]);
    var p3 := PresentClauses(clauses[..3]);
    var p4 := PresentClauses(clauses);
    assert clauses[..1][..0] == [];
    assert p1 == AppendIf([], minPrice != Null, clauses[0]);
    assert clauses[..2][..1] == clauses[..1];
    assert p2 == AppendIf(p1, maxPrice != Null, clauses[1]);
    assert clauses[..3][..2] == clauses[..2];
    assert p3 == AppendIf(p2, minRating != Null, clauses[2]);
    assert clauses[..3] == clauses[..|clauses| - 1];
    assert p4 == AppendIf(p3, category != Null, clauses[3]);
    KeepClause([], minPrice != Null, clauses[0]);
    KeepClause(p1, maxPrice != Null, clauses[1]);
    KeepClause(p2, minRating != Null, clauses[2]);
    KeepClause(p3, category != Null, clauses[3]);
    assert Conditions([]) == [] && Params([]) == [];
  }

  /** The WHERE predicate: the conditions joined with AND, or TRUE when there are none. */
  function WhereClause(conditions: seq<string>): string {
    if conditions == [] then "TRUE" else Join(conditions, " AND ")
  }

  const AsinSelect: string := "\n        SELECT DISTINCT parent_asin\n        FROM products\n        "
  const AsinLimit: string := "\n        LIMIT %s\n    "

  /** The text of the candidate query around its predicate. */
  function AsinSql(whereClause: string): string {
    AsinSelect + ("WHERE " + whereClause + " AND parent_asin IS NOT NULL") + AsinLimit
  }

  /** The SQL text selects parent ASINs under the predicate and excludes rows without one. */
  lemma AsinSqlShowsWhere(whereClause: string)
    ensures StartsWith(AsinSql(whereClause), AsinSelect)
    ensures Contains(AsinSql(whereClause), "WHERE " + whereClause + " AND parent_asin IS NOT NULL")
  {
    var middle := "WHERE " + whereClause + " AND parent_asin IS NOT NULL";
    assert AsinSql(whereClause)[..|AsinSelect|] == AsinSelect;
    ContainsPart(AsinSelect, middle, AsinLimit);
  }

  /** The predicate get_asins_by_filter sends. It depends only on which filters are present,
      never on their values, so a zero bound filters like any other. */
  function AsinWhere(hasMinPrice: bool, hasMaxPrice: bool, hasMinRating: bool, hasCategory: bool): string {
    WhereClause(AsinConditions(hasMinPrice, hasMaxPrice, hasMinRating, hasCategory))
  }

  /** The parameters it binds: one per predicate, in order, and the limit last. */
  function AsinBindings(show: Value -> string, minPrice: Value, maxPrice: Value, minRating: Value, category: Value, limit: int): (ps: seq<Value>)
    ensures |ps| == |AsinConditions(minPrice != Null, maxPrice != Null, minRating != Null, category != Null)| + 1
    ensures ps[|ps| - 1] == Int(limit)
  {
    AsinParams(show, minPrice, maxPrice, minRating, category) + [Int(limit)]
  }

  /** The predicate is TRUE exactly when every filter argument is None. */
  lemma WhereTrueIffNoFilters(hasMinPrice: bool, hasMaxPrice: bool, hasMinRating: bool, hasCategory: bool)
    ensures (WhereClause(AsinConditions(hasMinPrice, hasMaxPrice, hasMinRating, hasCategory)) == "TRUE")
              <==> (!hasMinPrice && !hasMaxPrice && !hasMinRating && !hasCategory)
  {
    var cs := AsinConditions(hasMinPrice, hasMaxPrice, hasMinRating, hasCategory);
    if cs != [] {
      JoinStartsWithFirst(cs, " AND ");
      assert cs[0][0] != 'T';
    }
  }

  lemma JoinStartsWithFirst(parts: seq<string>, sep: string)
    requires |parts| >= 1
    ensures StartsWith(Join(parts, sep), parts[0])
  {
    var j := Join(parts, sep);
    if |parts| > 1 {
      assert j == parts[0] + (sep + Join(parts[1..], sep));
    }
    assert j[..|parts[0]|] == parts[0];
  }

  /** One `if x is not None:` step of get_asins_by_filter: append the predicate and its
      parameter when the argument is present. */
  method AddCondition(conditions: seq<string>, params: seq<Value>, arg: Value, condition: string, param: Value)
    returns (conditions': seq<string>, params': seq<Value>)
    ensures conditions' == AppendIf(conditions, arg != Null, condition)
    ensures params' == AppendIf(params, arg != Null, param)
  {
    conditions', params' := conditions, params;
    if arg != Null {
      conditions' := conditions' + [condition];
      params' := params' + [param];
    }
  }

  /** The condition and parameter builder of get_asins_by_filter, appending as it goes. */
  method BuildAsinQuery(show: Value -> string, minPrice: Value, maxPrice: Value, minRating: Value, category: Value, limit: int)
    returns (whereClause: string, params: seq<Value>)
    ensures whereClause == AsinWhere(minPrice != Null, maxPrice != Null, minRating != Null, category != Null)
    ensures params == AsinBindings(show, minPrice, maxPrice, minRating, category, limit)
  {
    var conditions: seq<string> := [];
    params := [];
    conditions, params := AddCondition(conditions, params, minPrice, MinPriceCondition, minPrice);
    conditions, params := AddCondition(conditions, params, maxPrice, MaxPriceCondition, maxPrice);
    conditions, params := AddCondition(conditions, params, minRating, MinRatingCondition, minRating);
    conditions, params := AddCondition(conditions, params, category, CategoryCondition, CategoryPattern(show, category));
    whereClause := if conditions != [] then Join(conditions, " AND ") else "TRUE";
    params := params + [Int(limit)];
  }

  /** get_asins_by_filter: run the candidate query and return the first column. */
  method GetAsinsByFilter(db: Database, show: Value -> string, minPrice: Value, maxPrice: Value, minRating: Value, category: Value, limit: int)
    returns (asins: seq<string>)
    modifies db
    ensures var whereClause := AsinWhere(minPrice != Null, maxPrice != Null, minRating != Null, category != Null);
      var params := AsinBindings(show, minPrice, maxPrice, minRating, category, limit);
      asins == db.fetchColumn(whereClause, params) && db.log == old(db.log) + [CandidateQuery(whereClause, params)]
  {
    var whereClause, params := BuildAsinQuery(show, minPrice, maxPrice, minRating, category, limit);
    asins := db.RunCandidateQuery(whereClause, params);
  }
}
