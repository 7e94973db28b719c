/** The external services the agents call: the chat-completion model, PostgreSQL, and the
    embedding model together with the Qdrant collection. Each is an object whose answers are a
    fixed function of the request (an oracle) and which records every request it receives, so
    that the agents' contracts can say which calls were made and which were not. */
module Services {
  import opened Common

  /** The prompt of the hybrid answer, as the three texts build_hybrid_prompt fills into its
      fixed template: the criteria paragraph, the formatted context and the question. The
      text itself is Hybrid.PromptText of this value. */
  datatype Prompt = Prompt(criteria: string, context: string, question: string)

  /** A chat-completion request, named by the call site that issues it and carrying the
      values that call site fills into its fixed prompt template. */
  datatype Request =
    | IntentRequest(question: string)                  // classify_intent
    | FilterRequest(question: string)                  // extract_filters
    | SqlRequest(question: string)                     // generate_sql_query
    | SqlAnswerRequest(question: string, rows: seq<Dict>) // generate_sql_answer, first ten rows
    | HybridAnswerRequest(prompt: Prompt)              // hybrid_generate

  class Llm {
    /** The text of `response.choices[0].message.content` for each request. */
    const reply: Request -> string
    /** Every request sent so far, oldest first. */
    var log: seq<Request>

    constructor (reply: Request -> string)
      ensures this.reply == reply && log == []
    {
      this.reply := reply;
      log := [];
    }

    method Complete(req: Request) returns (text: string)
      modifies this
      ensures text == reply(req)
      ensures log == old(log) + [req]
    {
      text := reply(req);
      log := log + [req];
    }
  }

  /** A statement sent to the database, each on a connection of its own: a query given as
      text, or the candidate query of get_asins_by_filter, carried as the WHERE predicate it
      fills into its fixed text (SqlAgent.AsinSql gives that text) and the values it binds. */
  datatype Statement = Query(sql: string) | CandidateQuery(whereClause: string, params: seq<Value>)

  class Database {
    /** `cursor.fetchall()` of a statement run through a dictionary cursor, or the error the
        driver raises (connection, syntax or execution). */
    const fetchRows: string -> Result<seq<Dict>>
    /** The first column of every row of the candidate query with this predicate and these
        bindings. */
    const fetchColumn: (string, seq<Value>) -> seq<string>
    var log: seq<Statement>

    constructor (fetchRows: string -> Result<seq<Dict>>, fetchColumn: (string, seq<Value>) -> seq<string>)
      ensures this.fetchRows == fetchRows && this.fetchColumn == fetchColumn && log == []
    {
      this.fetchRows := fetchRows;
      this.fetchColumn := fetchColumn;
      log := [];
    }

    method Run(sql: string) returns (r: Result<seq<Dict>>)
      modifies this
      ensures r == fetchRows(sql)
      ensures log == old(log) + [Query(sql)]
    {
      r := fetchRows(sql);
      log := log + [Query(sql)];
    }

    method RunCandidateQuery(whereClause: string, params: seq<Value>) returns (column: seq<string>)
      modifies this
      ensures column == fetchColumn(whereClause, params)
      ensures log == old(log) + [CandidateQuery(whereClause, params)]
    {
      column := fetchColumn(whereClause, params);
      log := log + [CandidateQuery(whereClause, params)];
    }
  }

  type Vector = seq<real>

  /** A scored point of the collection, with the payload fields the pipeline reads. */
  datatype Point = Point(parentAsin: Value, description: Value, averageRating: Value, score: real)

  /** A similarity search: query vector, the `parent_asin` values it is restricted to, limit. */
  datatype Search = Search(query: Vector, allowed: seq<string>, limit: int)

  class VectorSearch {
    /** get_embedding. */
    const embed: Value -> Vector
    /** `query_points(...).points`, best match first. */
    const queryPoints: (Vector, seq<string>, int) -> seq<Point>
    var embedded: seq<Value>
    var searches: seq<Search>

    constructor (embed: Value -> Vector, queryPoints: (Vector, seq<string>, int) -> seq<Point>)
      ensures this.embed == embed && this.queryPoints == queryPoints
      ensures embedded == [] && searches == []
    {
      this.embed := embed;
      this.queryPoints := queryPoints;
      embedded := [];
      searches := [];
    }

    /** The store's promise about `limit`: a search returns at most that many points. */
    ghost predicate HonoursLimit() {
      forall q, a, k :: 0 <= k ==> |queryPoints(q, a, k)| <= k
    }

    method Embed(text: Value) returns (v: Vector)
      modifies this
      ensures v == embed(text)
      ensures embedded == old(embedded) + [text] && searches == old(searches)
    {
      v := embed(text);
      embedded := embedded + [text];
    }

    method QueryPoints(query: Vector, allowed: seq<string>, limit: int) returns (points: seq<Point>)
      modifies this
      ensures points == queryPoints(query, allowed, limit)
      ensures searches == old(searches) + [Search(query, allowed, limit)] && embedded == old(embedded)
    {
      points := queryPoints(query, allowed, limit);
      searches := searches + [Search(query, allowed, limit)];
    }
  }
}
