/** The indexer `AcademicVannaTrainer`: texts are stored as points of one
    Qdrant collection, each under the md5 digest of its content string,
    together with an embedding of that content. Qdrant is a map from
    collection names to collections, a collection a map from point ids to
    points; md5 is a function the trainer is given, and every answer of the
    embedding service or of PostgreSQL is a parameter of the call that
    receives it. */
module VannaSetup {
  import opened Wrappers
  import DG = DataGenerator
  import Digits

  // ---------------------------------------------------------------------
  // the vector store

  datatype Distance = Cosine | Euclid | Dot | Manhattan

  /** A stored point: its vector and its payload. */
  datatype Point = Point(vector: seq<real>, payload: map<string, string>)

  /** A collection: the configuration of its vectors and its points by id. */
  datatype Collection = Collection(size: nat, distance: Distance, points: map<string, Point>)

  /** The dimension of a Gemini embedding. */
  const EmbeddingSize: nat := 768

  /** The Qdrant server. `reachable` says whether it answers: every request
      to a server that does not answer raises. */
  class QdrantStore {
    var collections: map<string, Collection>
    var reachable: bool

    constructor (collections: map<string, Collection>, reachable: bool)
      ensures this.collections == collections && this.reachable == reachable
    {
      this.collections := collections;
      this.reachable := reachable;
    }
  }

  /** `_create_collection` on a server that answers: a collection of that
      name is created (768-dimensional, cosine) only when none exists; an
      existing one is used as it is, whatever its configuration. */
  function WithCollection(cols: map<string, Collection>, name: string): (r: map<string, Collection>)
    ensures r.Keys == cols.Keys + {name}
    ensures forall n :: n in cols ==> r[n] == cols[n]
    ensures name !in cols ==> r[name] == Collection(EmbeddingSize, Cosine, map[])
  {
    if name in cols then cols else cols[name := Collection(EmbeddingSize, Cosine, map[])]
  }

  /** Creating a collection a second time changes nothing. */
  lemma CreateCollectionIdempotent(cols: map<string, Collection>, name: string)
    ensures WithCollection(WithCollection(cols, name), name) == WithCollection(cols, name)
  {
  }

  /** `qdrant_client.upsert` of one point into an existing collection: the
      point with that id is replaced, or added when there is none. */
  function Upserted(cols: map<string, Collection>, name: string, id: string, p: Point): (r: map<string, Collection>)
    requires name in cols
    ensures r.Keys == cols.Keys
    ensures forall n :: n in cols && n != name ==> r[n] == cols[n]
    ensures r[name].size == cols[name].size && r[name].distance == cols[name].distance
    ensures r[name].points.Keys == cols[name].points.Keys + {id}
    ensures r[name].points[id] == p
    ensures forall k :: k in cols[name].points && k != id ==> r[name].points[k] == cols[name].points[k]
  {
    cols[name := cols[name].(points := cols[name].points[id := p])]
  }

  // ---------------------------------------------------------------------
  // content strings

  const QuestionPrefix := "Question: "
  const SqlSeparator := "\nSQL: "
  const SchemaPrefix := "Schema: "

  /** What `add_question_sql` embeds and hashes. */
  function QuestionContent(question: string, sql: string): string {
    QuestionPrefix + question + SqlSeparator + sql
  }

  /** What `add_schema_info` embeds and hashes. */
  function SchemaContent(name: string, description: string): string {
    SchemaPrefix + name + "\n" + description
  }

  /** The position of the first line break of `s`, or `|s|` when there is none. */
  function LineEnd(s: string): (k: nat)
    ensures k <= |s|
    ensures forall j :: 0 <= j < k ==> s[j] != '\n'
    ensures k < |s| ==> s[k] == '\n'
  {
    if s == [] || s[0] == '\n' then 0 else 1 + LineEnd(s[1..])
  }

  lemma {:induction false} LineEndOfLine(line: string, rest: string)
    requires forall j :: 0 <= j < |line| ==> line[j] != '\n'
    requires |rest| > 0 && rest[0] == '\n'
    ensures LineEnd(line + rest) == |line|
  {
    if line != [] {
      assert (line + rest)[1..] == line[1..] + rest;
      LineEndOfLine(line[1..], rest);
    }
  }

  /** Reads a question and its SQL back out of a stored content string:
      the question is the first line after the prefix. */
  function ParseQuestionContent(content: string): Option<(string, string)> {
    var p := |QuestionPrefix|;
    if |content| < p || content[..p] != QuestionPrefix then None
    else
      var rest := content[p..];
      var k := LineEnd(rest);
      if k + |SqlSeparator| <= |rest| && rest[k..k + |SqlSeparator|] == SqlSeparator
      then Some((rest[..k], rest[k + |SqlSeparator|..]))
      else None
  }

  /** Reads a schema name and its description back out of a stored content string. */
  function ParseSchemaContent(content: string): Option<(string, string)> {
    var p := |SchemaPrefix|;
    if |content| < p || content[..p] != SchemaPrefix then None
    else
      var rest := content[p..];
      var k := LineEnd(rest);
      if k < |rest| then Some((rest[..k], rest[k + 1..])) else None
  }

  /** A question without a line break is recovered from the content,
      and so is the SQL that follows it. */
  lemma QuestionContentRoundTrip(question: string, sql: string)
    requires forall j :: 0 <= j < |question| ==> question[j] != '\n'
    ensures ParseQuestionContent(QuestionContent(question, sql)) == Some((question, sql))
  {
    var content := QuestionContent(question, sql);
    var rest := question + SqlSeparator + sql;
    assert content == QuestionPrefix + rest;
    assert content[..|QuestionPrefix|] == QuestionPrefix;
    assert content[|QuestionPrefix|..] == rest;
    assert rest == question + (SqlSeparator + sql);
    LineEndOfLine(question, SqlSeparator + sql);
    assert rest[..|question|] == question;
    assert rest[|question|..|question| + |SqlSeparator|] == SqlSeparator;
    assert rest[|question| + |SqlSeparator|..] == sql;
  }

  /** A schema name without a line break is recovered from the content,
      and so is the description. */
  lemma SchemaContentRoundTrip(name: string, description: string)
    requires forall j :: 0 <= j < |name| ==> name[j] != '\n'
    ensures ParseSchemaContent(SchemaContent(name, description)) == Some((name, description))
  {
    var content := SchemaContent(name, description);
    var rest := name + "\n" + description;
    assert content == SchemaPrefix + rest;
    assert content[..|SchemaPrefix|] == SchemaPrefix;
    assert content[|SchemaPrefix|..] == rest;
    assert rest == name + ("\n" + description);
    LineEndOfLine(name, "\n" + description);
    assert rest[..|name|] == name;
    assert rest[|name| + 1..] == description;
  }

  /** Hence two pairs whose questions have no line break share a content
      string only when they are the same pair. */
  lemma QuestionContentInjective(q1: string, s1: string, q2: string, s2: string)
    requires forall j :: 0 <= j < |q1| ==> q1[j] != '\n'
    requires forall j :: 0 <= j < |q2| ==> q2[j] != '\n'
    requires QuestionContent(q1, s1) == QuestionContent(q2, s2)
    ensures q1 == q2 && s1 == s2
  {
    QuestionContentRoundTrip(q1, s1);
    QuestionContentRoundTrip(q2, s2);
  }

  /** With a line break in the question two different pairs can share a
      content string, and the second one added replaces the first. */
  lemma QuestionContentCollision()
    ensures QuestionContent("a\nSQL: b", "c") == QuestionContent("a", "b\nSQL: c")
  {
  }

  /** A question's content never equals a schema's: the prefixes differ. */
  lemma ContentKindsDiffer(question: string, sql: string, name: string, description: string)
    ensures QuestionContent(question, sql) != SchemaContent(name, description)
  {
    assert QuestionContent(question, sql)[1] == 'u';
    assert SchemaContent(name, description)[1] == 'c';
  }

  // ---------------------------------------------------------------------
  // adding points

  /** A content string and the payload stored with it. */
  datatype Entry = Entry(content: string, payload: map<string, string>)

  function QuestionEntry(question: string, sql: string): Entry {
    var content := QuestionContent(question, sql);
    Entry(content, map["question" := question, "sql" := sql, "type" := "question_sql", "content" := content])
  }

  function SchemaEntry(name: string, description: string): Entry {
    var content := SchemaContent(name, description);
    Entry(content, map["schema_name" := name, "schema_description" := description, "type" := "schema", "content" := content])
  }

  const FailedEmbedding := "Failed to generate embedding"
  const AddError := "Error"

  /** `generate_embedding`: the service's vector, or the empty list when
      the call raised. */
  function Embedding(response: Result<seq<real>>): (e: seq<real>)
    ensures e == [] <==> response.Failure? || response.value == []
  {
    match response
    case Success(v) => v
    case Failure(_) => []
  }

  /** Whether an add reaches the upsert and the upsert goes through. */
  predicate Stored(cols: map<string, Collection>, reachable: bool, name: string, response: Result<seq<real>>) {
    Embedding(response) != [] && reachable && name in cols
  }

  /** The collections after one `add_question_sql` or `add_schema_info`:
      with no embedding nothing is sent; an upsert that raises (server
      unreachable, collection missing) is caught and changes nothing;
      otherwise the point is stored under the digest of its content. */
  function AfterAdd(cols: map<string, Collection>, reachable: bool, name: string, md5: string -> string,
                    entry: Entry, response: Result<seq<real>>): (r: map<string, Collection>)
    ensures r.Keys == cols.Keys
    ensures forall n :: n in cols && n != name ==> r[n] == cols[n]
    ensures !Stored(cols, reachable, name, response) ==> r == cols
    ensures Stored(cols, reachable, name, response) ==>
      && r[name].points.Keys == cols[name].points.Keys + {md5(entry.content)}
      && r[name].points[md5(entry.content)] == Point(Embedding(response), entry.payload)
      && r[name].size == cols[name].size && r[name].distance == cols[name].distance
  {
    if Stored(cols, reachable, name, response)
    then Upserted(cols, name, md5(entry.content), Point(Embedding(response), entry.payload))
    else cols
  }

  /** What the add returns: the point id on success, otherwise the two
      failure strings of the source. */
  function AddReply(cols: map<string, Collection>, reachable: bool, name: string, md5: string -> string,
                    entry: Entry, response: Result<seq<real>>): (reply: string)
    ensures Embedding(response) == [] ==> reply == FailedEmbedding
    ensures Embedding(response) != [] && !Stored(cols, reachable, name, response) ==> reply == AddError
    ensures Stored(cols, reachable, name, response) ==> reply == md5(entry.content)
  {
    if Embedding(response) == [] then FailedEmbedding
    else if !Stored(cols, reachable, name, response) then AddError
    else md5(entry.content)
  }

  /** Adding the same entry again, whatever the second embedding, leaves
      the collection as if only the later add with an embedding had run:
      one point per content string. */
  lemma AddAgainReplaces(cols: map<string, Collection>, reachable: bool, name: string, md5: string -> string,
                         entry: Entry, first: Result<seq<real>>, second: Result<seq<real>>)
    ensures var once := AfterAdd(cols, reachable, name, md5, entry, first);
      && (Embedding(second) != [] ==> AfterAdd(once, reachable, name, md5, entry, second) == AfterAdd(cols, reachable, name, md5, entry, second))
      && (Embedding(second) == [] ==> AfterAdd(once, reachable, name, md5, entry, second) == once)
  {
    var once := AfterAdd(cols, reachable, name, md5, entry, first);
    if Stored(cols, reachable, name, second) {
      var id := md5(entry.content);
      var twice := AfterAdd(once, reachable, name, md5, entry, second);
      var direct := AfterAdd(cols, reachable, name, md5, entry, second);
      assert twice[name].points == direct[name].points;
      assert twice[name] == direct[name];
      assert twice == direct;
    }
  }

  /** Re-adding an identical pair with the same embedding changes nothing
      and returns the same id. */
  lemma AddIdempotent(cols: map<string, Collection>, reachable: bool, name: string, md5: string -> string,
                      entry: Entry, response: Result<seq<real>>)
    ensures var once := AfterAdd(cols, reachable, name, md5, entry, response);
      && AfterAdd(once, reachable, name, md5, entry, response) == once
      && AddReply(once, reachable, name, md5, entry, response) == AddReply(cols, reachable, name, md5, entry, response)
  {
    AddAgainReplaces(cols, reachable, name, md5, entry, response, response);
  }

  /** A successful add grows the collection by one point exactly when its
      id is new, and by none when it replaces a point. */
  lemma AddPointCount(cols: map<string, Collection>, reachable: bool, name: string, md5: string -> string,
                      entry: Entry, response: Result<seq<real>>)
    requires Stored(cols, reachable, name, response)
    ensures var r := AfterAdd(cols, reachable, name, md5, entry, response);
      |r[name].points| == |cols[name].points| + (if md5(entry.content) in cols[name].points then 0 else 1)
  {
    var r := AfterAdd(cols, reachable, name, md5, entry, response);
    var id := md5(entry.content);
    if id in cols[name].points {
      assert r[name].points.Keys == cols[name].points.Keys;
    } else {
      assert r[name].points.Keys == cols[name].points.Keys + {id};
    }
  }

  /** The collections after a sequence of adds, in order. */
  function AfterAdds(cols: map<string, Collection>, reachable: bool, name: string, md5: string -> string,
                     entries: seq<Entry>, responses: seq<Result<seq<real>>>): (r: map<string, Collection>)
    requires |entries| == |responses|
    decreases |entries|
  {
    if entries == [] then cols
    else
      var n := |entries| - 1;
      AfterAdd(AfterAdds(cols, reachable, name, md5, entries[..n], responses[..n]), reachable, name, md5, entries[n], responses[n])
  }

  /** Adds never remove anything: the collections keep their names and
      configuration, and every point id present before is present after. */
  lemma {:induction false} AddsKeepPoints(cols: map<string, Collection>, reachable: bool, name: string,
                                          md5: string -> string, entries: seq<Entry>, responses: seq<Result<seq<real>>>)
    requires |entries| == |responses|
    ensures var r := AfterAdds(cols, reachable, name, md5, entries, responses);
      && r.Keys == cols.Keys
      && (forall n :: n in cols && n != name ==> r[n] == cols[n])
      && (name in cols ==> r[name].size == cols[name].size && r[name].distance == cols[name].distance
                           && cols[name].points.Keys <= r[name].points.Keys)
    decreases |entries|
  {
    if entries != [] {
      var n := |entries| - 1;
      AddsKeepPoints(cols, reachable, name, md5, entries[..n], responses[..n]);
    }
  }

  /** After a sequence of adds to a reachable server holding the
      collection, every entry that got an embedding has a point under the
      digest of its content; with no embedding at all, nothing changed. */
  lemma {:induction false} AddsStoreEmbedded(cols: map<string, Collection>, reachable: bool, name: string,
                                             md5: string -> string, entries: seq<Entry>, responses: seq<Result<seq<real>>>)
    requires |entries| == |responses| && reachable && name in cols
    ensures var r := AfterAdds(cols, reachable, name, md5, entries, responses);
      name in r && forall j :: 0 <= j < |entries| && Embedding(responses[j]) != [] ==> md5(entries[j].content) in r[name].points
    ensures (forall j :: 0 <= j < |responses| ==> Embedding(responses[j]) == []) ==>
      AfterAdds(cols, reachable, name, md5, entries, responses) == cols
    decreases |entries|
  {
    if entries != [] {
      var n := |entries| - 1;
      var before := AfterAdds(cols, reachable, name, md5, entries[..n], responses[..n]);
      AddsStoreEmbedded(cols, reachable, name, md5, entries[..n], responses[..n]);
      AddsKeepPoints(cols, reachable, name, md5, entries[..n], responses[..n]);
      forall j | 0 <= j < |entries| && Embedding(responses[j]) != []
        ensures md5(entries[j].content) in AfterAdds(cols, reachable, name, md5, entries, responses)[name].points
      {
        if j < n {
          assert entries[..n][j] == entries[j] && responses[..n][j] == responses[j];
        }
      }
      if forall j :: 0 <= j < |responses| ==> Embedding(responses[j]) == [] {
        assert forall j :: 0 <= j < n ==> responses[..n][j] == responses[j];
        assert Embedding(responses[n]) == [];
      }
    }
  }

  // ---------------------------------------------------------------------
  // SQL

  /** A `pandas` frame: its column names and rows. */
  datatype Frame = Frame(columns: seq<string>, rows: seq<seq<string>>)

  const EmptyFrame := Frame([], [])

  /** `run_sql`: the frame the database returned, or an empty frame when
      the query raised. */
  function RunSql(sql: string, response: Result<Frame>): (df: Frame)
    ensures response.Failure? ==> df == EmptyFrame
    ensures response.Success? ==> df == response.value
  {
    if response.Success? then response.value else EmptyFrame
  }

  /** `test_query`: the frame is never missing and a length is never
      negative, so the smoke test passes for every query, a query that
      raised included. */
  function TestQuery(question: string, sql: string, response: Result<Frame>): (passed: bool)
    ensures passed
    ensures response.Failure? ==> RunSql(sql, response) == EmptyFrame
  {
    var result := RunSql(sql, response);
    |result.rows| >= 0
  }

  // ---------------------------------------------------------------------
  // statistics

  datatype CollectionStats = CollectionStats(collectionName: string, totalPoints: nat, vectorSize: nat, distance: Distance)

  /** `get_collection_stats`: `None` stands for the empty dict returned
      when the lookup raises (server unreachable, no such collection). */
  function StatsOf(cols: map<string, Collection>, reachable: bool, name: string): (s: Option<CollectionStats>)
    ensures s.None? <==> !reachable || name !in cols
    ensures s.Some? ==> s.value.collectionName == name && s.value.totalPoints == |cols[name].points|
  {
    if reachable && name in cols
    then Some(CollectionStats(name, |cols[name].points|, cols[name].size, cols[name].distance))
    else None
  }

  /** A collection created by `_create_collection` reports 768 dimensions,
      cosine distance and no points until something is added. */
  lemma StatsOfCreated(cols: map<string, Collection>, name: string)
    requires name !in cols
    ensures StatsOf(WithCollection(cols, name), true, name) == Some(CollectionStats(name, 0, EmbeddingSize, Cosine))
  {
  }

  /** The reported point count grows by one for each add of a new id. */
  lemma StatsTrackAdds(cols: map<string, Collection>, name: string, md5: string -> string,
                       entry: Entry, response: Result<seq<real>>)
    requires Stored(cols, true, name, response) && md5(entry.content) !in cols[name].points
    ensures StatsOf(AfterAdd(cols, true, name, md5, entry, response), true, name).value.totalPoints
      == StatsOf(cols, true, name).value.totalPoints + 1
  {
    AddPointCount(cols, true, name, md5, entry, response);
  }

  // ---------------------------------------------------------------------
  // calling the indexer by name

  /** The methods the class body of `AcademicVannaTrainer` defines
      (vanna_setup.py:17-203). The instance attributes `__init__` sets and
      the names inherited from `object` are not listed: no trainer calls
      them, and `Dispatchable` keeps them out of every call. */
  const Methods: set<string> := {"__init__", "_create_collection", "_connect_postgres", "generate_embedding",
                                 "add_question_sql", "add_schema_info", "run_sql", "test_query", "get_collection_stats"}

  /** The two methods that add a text; each takes two strings after `self`. */
  const AddMethods: set<string> := {"add_question_sql", "add_schema_info"}

  /** The names the domain trainers call on the indexer: the two adding
      methods, and `add_documentation`, which the class does not define. */
  predicate Dispatchable(name: string) {
    name in AddMethods || name == "add_documentation"
  }

  /** The positional parameters of an adding method, `self` left out. */
  function Parameters(name: string): (ps: seq<string>)
    ensures |ps| == 2
  {
    if name == "add_question_sql" then ["question", "sql"] else ["schema_name", "schema_description"]
  }

  function Quoted(p: string): string {
    "'" + p + "'"
  }

  /** The TypeError of a call with `given` positional arguments, `self`
      counted, to a method that takes three. */
  function TooManyArguments(name: string, given: nat): string {
    name + "() takes 3 positional arguments but " + Digits.Decimal(given) + " were given"
  }

  /** The TypeError of a call that leaves out the parameters `missing`. */
  function MissingArguments(name: string, missing: seq<string>): string
    requires |missing| == 1 || |missing| == 2
  {
    if |missing| == 1
    then name + "() missing 1 required positional argument: " + Quoted(missing[0])
    else name + "() missing 2 required positional arguments: " + Quoted(missing[0]) + " and " + Quoted(missing[1])
  }

  /** The AttributeError of a name the class does not define. */
  function NoAttribute(name: string): string {
    "'AcademicVannaTrainer' object has no attribute " + Quoted(name)
  }

  /** What Python raises for `trainer.<name>(*args)` with `argc` arguments
      before any line of the method runs: the attribute lookup fails, or
      the arguments do not match the two parameters. */
  function CallError(name: string, argc: nat): (e: Option<string>)
    requires Dispatchable(name)
  {
    if name !in Methods then Some(NoAttribute(name))
    else if argc > 2 then Some(TooManyArguments(name, argc + 1))
    else if argc < 2 then Some(MissingArguments(name, Parameters(name)[argc..]))
    else None
  }

  /** A call goes through exactly when it names an adding method and
      passes it two arguments; otherwise the exception names the method. */
  lemma CallErrorCases(name: string, argc: nat)
    requires Dispatchable(name)
    ensures CallError(name, argc).None? <==> name in AddMethods && argc == 2
    ensures name !in Methods ==> CallError(name, argc) == Some(NoAttribute(name))
    ensures name in AddMethods && argc != 2 ==> CallError(name, argc).value[..|name|] == name
  {
    if name == "add_documentation" {
      AddDocumentationUndefined(argc);
      assert name !in AddMethods;
    } else {
      AddMethodCall(name, argc);
    }
  }

  /** An adding method is defined, and a wrong argument count raises a
      TypeError that starts with the method's name. */
  lemma AddMethodCall(name: string, argc: nat)
    requires name in AddMethods
    ensures name in Methods && Dispatchable(name)
    ensures CallError(name, argc).None? <==> argc == 2
    ensures argc != 2 ==> CallError(name, argc).value[..|name|] == name
  {
    assert name in Methods;
    if argc > 2 {
      assert CallError(name, argc) == Some(TooManyArguments(name, argc + 1));
      TypeErrorNamesMethod(name, argc + 1, []);
    } else if argc < 2 {
      assert CallError(name, argc) == Some(MissingArguments(name, Parameters(name)[argc..]));
      TypeErrorNamesMethod(name, 0, Parameters(name)[argc..]);
    }
  }

  /** Both TypeError texts start with the method's name. */
  lemma TypeErrorNamesMethod(name: string, given: nat, missing: seq<string>)
    requires |missing| <= 2
    ensures TooManyArguments(name, given)[..|name|] == name
    ensures |missing| >= 1 ==> MissingArguments(name, missing)[..|name|] == name
  {
    assert TooManyArguments(name, given) == name + ("() takes 3 positional arguments but " + Digits.Decimal(given) + " were given");
    if |missing| == 1 {
      assert MissingArguments(name, missing) == name + ("() missing 1 required positional argument: " + Quoted(missing[0]));
    } else if |missing| == 2 {
      assert MissingArguments(name, missing) == name + ("() missing 2 required positional arguments: " + Quoted(missing[0])
                                                        + " and " + Quoted(missing[1]));
    }
  }

  /** The indexer has no `add_documentation`: a call to it raises
      whatever its arguments. */
  lemma AddDocumentationUndefined(argc: nat)
    ensures "add_documentation" !in Methods
    ensures CallError("add_documentation", argc) == Some(NoAttribute("add_documentation"))
  {
    var n := "add_documentation";
    assert |n| == 17 && n[0] == 'a';
    assert "_connect_postgres"[0] == '_';
  }

  /** The entry an adding method builds from its two arguments. */
  function CallEntry(name: string, args: seq<string>): Entry
    requires |args| == 2
  {
    if name == "add_question_sql" then QuestionEntry(args[0], args[1]) else SchemaEntry(args[0], args[1])
  }

  // ---------------------------------------------------------------------
  // the trainer

  const MissingKeyError := "GEMINI_API_KEY environment variable is required"
  /** Stand-ins for the exceptions the Qdrant client and SQLAlchemy raise,
      which the source re-raises unchanged; their texts are not the source's. */
  const QdrantError := "Qdrant request failed"
  const DatabaseError := "Database connection failed"

  /** `not os.getenv('GEMINI_API_KEY')`: unset or empty. */
  predicate ApiKeyMissing(env: map<string, string>) {
    "GEMINI_API_KEY" !in env || env["GEMINI_API_KEY"] == ""
  }

  class AcademicVannaTrainer {
    const collectionName: string
    const store: QdrantStore
    const md5: string -> string
    const apiKey: string
    const qdrantUrl: string
    const qdrantApiKey: string
    /** The URL `_connect_postgres` gives `create_engine`. */
    const dbUrl: string

    constructor (env: map<string, string>, collectionName: string, store: QdrantStore, md5: string -> string)
      ensures this.collectionName == collectionName && this.store == store && this.md5 == md5
      ensures apiKey == DG.Getenv(env, "GEMINI_API_KEY", "")
      ensures qdrantUrl == DG.Getenv(env, "QDRANT_URL", "http://qdrant:6333")
      ensures qdrantApiKey == DG.Getenv(env, "QDRANT_API_KEY", "qdrant123")
      ensures dbUrl == DG.ConnectionUrl(env)
    {
      this.collectionName := collectionName;
      this.store := store;
      this.md5 := md5;
      apiKey := DG.Getenv(env, "GEMINI_API_KEY", "");
      qdrantUrl := DG.Getenv(env, "QDRANT_URL", "http://qdrant:6333");
      qdrantApiKey := DG.Getenv(env, "QDRANT_API_KEY", "qdrant123");
      dbUrl := DG.ConnectionUrl(env);
    }

    /** `__init__`: a missing API key is reported before the server is
        touched; then the collection is created if absent, then the
        database is connected (`postgresUp`: whether `SELECT 1` goes
        through). A database failure leaves the collection created. */
    static method Create(env: map<string, string>, collectionName: string, store: QdrantStore,
                         md5: string -> string, postgresUp: bool)
      returns (r: Result<AcademicVannaTrainer>)
      modifies store`collections
      ensures ApiKeyMissing(env) ==> r == Failure(MissingKeyError) && store.collections == old(store.collections)
      ensures !ApiKeyMissing(env) && !store.reachable ==> r == Failure(QdrantError) && store.collections == old(store.collections)
      ensures !ApiKeyMissing(env) && store.reachable ==>
        && store.collections == WithCollection(old(store.collections), collectionName)
        && (r.Success? <==> postgresUp)
        && (!postgresUp ==> r == Failure(DatabaseError))
      ensures r.Success? ==>
        && fresh(r.value) && r.value.store == store && r.value.collectionName == collectionName
        && r.value.md5 == md5 && r.value.dbUrl == DG.ConnectionUrl(env)
    {
      if ApiKeyMissing(env) {
        return Failure(MissingKeyError);
      }
      var t := new AcademicVannaTrainer(env, collectionName, store, md5);
      var created := t.CreateCollection();
      if created.Fail? {
        return Failure(created.error);
      }
      if !postgresUp {
        return Failure(DatabaseError);
      }
      r := Success(t);
    }

    /** `_create_collection`; an unreachable server makes it raise. */
    method CreateCollection() returns (outcome: Outcome)
      modifies store`collections
      ensures outcome == (if store.reachable then Pass else Fail(QdrantError))
      ensures store.collections == if store.reachable then WithCollection(old(store.collections), collectionName) else old(store.collections)
    {
      if !store.reachable {
        return Fail(QdrantError);
      }
      if collectionName !in store.collections {
        store.collections := store.collections[collectionName := Collection(EmbeddingSize, Cosine, map[])];
      }
      outcome := Pass;
    }

    /** The steps `add_question_sql` and `add_schema_info` share. */
    method Add(entry: Entry, response: Result<seq<real>>) returns (reply: string)
      modifies store`collections
      ensures reply == AddReply(old(store.collections), store.reachable, collectionName, md5, entry, response)
      ensures store.collections == AfterAdd(old(store.collections), store.reachable, collectionName, md5, entry, response)
    {
      var embedding := Embedding(response);
      if embedding == [] {
        return FailedEmbedding;
      }
      if !store.reachable || collectionName !in store.collections {
        return AddError;
      }
      var id := md5(entry.content);
      store.collections := Upserted(store.collections, collectionName, id, Point(embedding, entry.payload));
      reply := id;
    }

    /** `add_question_sql`, `response` being the embedding service's answer. */
    method AddQuestionSql(question: string, sql: string, response: Result<seq<real>>) returns (reply: string)
      modifies store`collections
      ensures reply == AddReply(old(store.collections), store.reachable, collectionName, md5, QuestionEntry(question, sql), response)
      ensures store.collections == AfterAdd(old(store.collections), store.reachable, collectionName, md5, QuestionEntry(question, sql), response)
    {
      reply := Add(QuestionEntry(question, sql), response);
    }

    /** `add_schema_info`. */
    method AddSchemaInfo(name: string, description: string, response: Result<seq<real>>) returns (reply: string)
      modifies store`collections
      ensures reply == AddReply(old(store.collections), store.reachable, collectionName, md5, SchemaEntry(name, description), response)
      ensures store.collections == AfterAdd(old(store.collections), store.reachable, collectionName, md5, SchemaEntry(name, description), response)
    {
      reply := Add(SchemaEntry(name, description), response);
    }

    /** `trainer.<name>(*args)`: an exception raised by the call itself
        leaves the store as it was; a call that goes through is the add it
        names, and its reply is returned. */
    method Invoke(name: string, args: seq<string>, response: Result<seq<real>>) returns (r: Result<string>)
      requires Dispatchable(name)
      modifies store`collections
      ensures CallError(name, |args|).Some? ==>
        r == Failure(CallError(name, |args|).value) && store.collections == old(store.collections)
      ensures CallError(name, |args|).None? ==>
        && r == Success(AddReply(old(store.collections), store.reachable, collectionName, md5, CallEntry(name, args), response))
        && store.collections == AfterAdd(old(store.collections), store.reachable, collectionName, md5, CallEntry(name, args), response)
    {
      if name !in Methods {
        return Failure(NoAttribute(name));
      }
      if |args| > 2 {
        return Failure(TooManyArguments(name, |args| + 1));
      }
      if |args| < 2 {
        return Failure(MissingArguments(name, Parameters(name)[|args|..]));
      }
      var reply;
      if name == "add_question_sql" {
        reply := AddQuestionSql(args[0], args[1], response);
      } else {
        reply := AddSchemaInfo(args[0], args[1], response);
      }
      r := Success(reply);
    }

    /** `get_collection_stats`. */
    method GetCollectionStats() returns (s: Option<CollectionStats>)
      ensures s == StatsOf(store.collections, store.reachable, collectionName)
      ensures s.None? <==> !store.reachable || collectionName !in store.collections
    {
      if !store.reachable || collectionName !in store.collections {
        return None;
      }
      var c := store.collections[collectionName];
      s := Some(CollectionStats(collectionName, |c.points|, c.size, c.distance));
    }
  }
}
