/** The hand-written pieces that `custom_openapi` writes into the OpenAPI
    document: the `servers` entry, the three schemas of the Components Object
    and the three path items of the Paths Object, with the properties each of
    them is meant to have. */
module OpenApiFragments {
  import opened Json

  /** The host of the real API, which the documentation points clients to. */
  const OfficialApiUrl: string := "https://api.pullpush.io"

  const CommentSearchPath: string := "/reddit/search/comment/"
  const SubmissionSearchPath: string := "/reddit/search/submission/"
  const CommentIdsPath: string := "/reddit/comment/ids/"

  /** The value written to `servers`: one entry, the official API. */
  function Servers(): Json
  {
    JArr([JObj(map["url" := JStr(OfficialApiUrl)])])
  }

  // ---------------------------------------------------------------------
  // The record models, as their field declarations give them
  // ---------------------------------------------------------------------

  /** The declared type of a model field. */
  datatype FieldType =
    | StrField
    | IntField
    | DictField
    | ModelRef(model: string)
    | ListOf(elem: FieldType)
    | UnionOf(alts: seq<FieldType>)

  /** Field names and types of the `Comment` model. */
  function CommentModel(): map<string, FieldType>
  {
    map[
      "author" := StrField,
      "body" := StrField,
      "created_utc" := IntField,
      "id" := StrField,
      "link_id" := StrField,
      "score" := IntField,
      "subreddit" := StrField
    ]
  }

  /** Field names and types of the `Submission` model. */
  function SubmissionModel(): map<string, FieldType>
  {
    map[
      "author" := StrField,
      "title" := StrField,
      "selftext" := StrField,
      "created_utc" := IntField,
      "id" := StrField,
      "score" := IntField,
      "num_comments" := IntField,
      "subreddit" := StrField
    ]
  }

  /** Field names and types of the `APIResponse` model. */
  function ApiResponseModel(): map<string, FieldType>
  {
    map[
      "data" := ListOf(UnionOf([ModelRef("Comment"), ModelRef("Submission"), StrField])),
      "metadata" := DictField
    ]
  }

  /** `{"type": name}` */
  function Typed(name: string): Json
  {
    JObj(map["type" := JStr(name)])
  }

  /** The JSON Schema of one field type, each model type given by reference. */
  function TypeSchema(t: FieldType): Json
  {
    match t
    case StrField => Typed("string")
    case IntField => Typed("integer")
    case DictField => Typed("object")
    case ModelRef(name) => JObj(map["$ref" := JStr(SchemaRefPrefix + name)])
    case ListOf(elem) => JObj(map["type" := JStr("array"), "items" := TypeSchema(elem)])
    case UnionOf(alts) =>
      JObj(map["oneOf" := JArr(seq(|alts|, i requires 0 <= i < |alts| => TypeSchema(alts[i])))])
  }

  /** Every model that `t` refers to is one of `names`. */
  predicate RefersOnlyTo(t: FieldType, names: set<string>)
  {
    match t
    case ModelRef(name) => name in names
    case ListOf(elem) => RefersOnlyTo(elem, names)
    case UnionOf(alts) => forall i :: 0 <= i < |alts| ==> RefersOnlyTo(alts[i], names)
    case _ => true
  }

  /** The object schema of a model: one property per field. */
  function RecordSchema(fields: map<string, FieldType>): Json
  {
    JObj(map[
      "type" := JStr("object"),
      "properties" := JObj(map k | k in fields :: TypeSchema(fields[k]))
    ])
  }

  /** The `properties` of an object schema. */
  function PropertiesOf(schema: Json): map<string, Json>
  {
    match At(schema, ["properties"])
    case Some(JObj(props)) => props
    case _ => map[]
  }

  // ---------------------------------------------------------------------
  // The three schemas of the Components Object
  // ---------------------------------------------------------------------

  function CommentSchema(): Json
  {
    JObj(map[
      "type" := JStr("object"),
      "properties" := JObj(map[
        "author" := Typed("string"),
        "body" := Typed("string"),
        "created_utc" := Typed("integer"),
        "id" := Typed("string"),
        "link_id" := Typed("string"),
        "score" := Typed("integer"),
        "subreddit" := Typed("string")
      ])
    ])
  }

  function SubmissionSchema(): Json
  {
    JObj(map[
      "type" := JStr("object"),
      "properties" := JObj(map[
        "author" := Typed("string"),
        "title" := Typed("string"),
        "selftext" := Typed("string"),
        "created_utc" := Typed("integer"),
        "id" := Typed("string"),
        "score" := Typed("integer"),
        "num_comments" := Typed("integer"),
        "subreddit" := Typed("string")
      ])
    ])
  }

  function ApiResponseSchema(): Json
  {
    JObj(map[
      "type" := JStr("object"),
      "properties" := JObj(map[
        "data" := JObj(map[
          "type" := JStr("array"),
          "items" := JObj(map[
            "oneOf" := JArr([
              JObj(map["$ref" := JStr("#/components/schemas/Comment")]),
              JObj(map["$ref" := JStr("#/components/schemas/Submission")]),
              Typed("string")
            ])
          ])
        ]),
        "metadata" := Typed("object")
      ])
    ])
  }

  /** The schemas written into `components.schemas`, by name. */
  function HandSchemas(): map<string, Json>
  {
    map[
      "Comment" := CommentSchema(),
      "Submission" := SubmissionSchema(),
      "APIResponse" := ApiResponseSchema()
    ]
  }

  // ---------------------------------------------------------------------
  // The three path items of the Paths Object
  // ---------------------------------------------------------------------

  /** The single response every documented operation declares. */
  function ApiResponseOk(): Json
  {
    JObj(map[
      "200" := JObj(map[
        "description" := JStr("Successful Response"),
        "content" := JObj(map[
          "application/json" := JObj(map[
            "schema" := JObj(map["$ref" := JStr("#/components/schemas/APIResponse")])
          ])
        ])
      ])
    ])
  }

  /** A query parameter of an operation, as the operations describe it. */
  datatype QueryParameter = QueryParameter(name: string, required: bool, schema: Json, description: string)

  /** The Parameter Object of a query parameter; `required` is written only
      when it is true, as the operations here do. */
  function ParamJson(p: QueryParameter): Json
  {
    var fields := map[
      "name" := JStr(p.name),
      "in" := JStr("query"),
      "schema" := p.schema,
      "description" := JStr(p.description)
    ];
    JObj(if p.required then fields["required" := JBool(true)] else fields)
  }

  function ParamsJson(ps: seq<QueryParameter>): seq<Json>
  {
    seq(|ps|, i requires 0 <= i < |ps| => ParamJson(ps[i]))
  }

  function SearchCommentsParameters(): seq<QueryParameter>
  {
    [
      QueryParameter("q", true, Typed("string"), "Search term"),
      QueryParameter("subreddit", false, Typed("string"), "Restrict to a specific subreddit"),
      QueryParameter("author", false, Typed("string"), "Restrict to a specific author"),
      QueryParameter("size", false,
                 JObj(map["type" := JStr("integer"), "default" := JInt(100), "maximum" := JInt(100)]),
                 "Number of results to return"),
      QueryParameter("sort", false,
                 JObj(map["type" := JStr("string"), "default" := JStr("desc"),
                          "enum" := JArr([JStr("asc"), JStr("desc")])]),
                 "Sort order"),
      QueryParameter("after", false, Typed("string"), "Return results after this date"),
      QueryParameter("before", false, Typed("string"), "Return results before this date")
    ]
  }

  function SearchSubmissionsParameters(): seq<QueryParameter>
  {
    [
      QueryParameter("q", true, Typed("string"), "Search term"),
      QueryParameter("subreddit", false, Typed("string"), "Restrict to a specific subreddit"),
      QueryParameter("author", false, Typed("string"), "Restrict to a specific author"),
      QueryParameter("size", false,
                 JObj(map["type" := JStr("integer"), "default" := JInt(100), "maximum" := JInt(100)]),
                 "Number of results to return"),
      QueryParameter("sort", false,
                 JObj(map["type" := JStr("string"), "default" := JStr("desc"),
                          "enum" := JArr([JStr("asc"), JStr("desc")])]),
                 "Sort order"),
      QueryParameter("after", false, Typed("string"), "Return results after this date"),
      QueryParameter("before", false, Typed("string"), "Return results before this date")
    ]
  }

  function CommentIdsParameters(): seq<QueryParameter>
  {
    [
      QueryParameter("link_id", true, Typed("string"), "ID of the submission")
    ]
  }

  function SearchCommentsPathItem(): Json
  {
    JObj(map[
      "get" := JObj(map[
        "summary" := JStr("Search Comments"),
        "operationId" := JStr("search_comments"),
        "parameters" := JArr(ParamsJson(SearchCommentsParameters())),
        "responses" := ApiResponseOk()
      ])
    ])
  }

  function SearchSubmissionsPathItem(): Json
  {
    JObj(map[
      "get" := JObj(map[
        "summary" := JStr("Search Submissions"),
        "operationId" := JStr("search_submissions"),
        "parameters" := JArr(ParamsJson(SearchSubmissionsParameters())),
        "responses" := ApiResponseOk()
      ])
    ])
  }

  function CommentIdsPathItem(): Json
  {
    JObj(map[
      "get" := JObj(map[
        "summary" := JStr("Get Comment IDs"),
        "operationId" := JStr("get_comment_ids"),
        "parameters" := JArr(ParamsJson(CommentIdsParameters())),
        "responses" := ApiResponseOk()
      ])
    ])
  }

  /** The path items written into `paths`, by path. */
  function HandPaths(): map<string, Json>
  {
    map[
      CommentSearchPath := SearchCommentsPathItem(),
      SubmissionSearchPath := SearchSubmissionsPathItem(),
      CommentIdsPath := CommentIdsPathItem()
    ]
  }

  // ---------------------------------------------------------------------
  // Reading a path item
  // ---------------------------------------------------------------------

  /** The parameter list of a path item's `get` operation. */
  function Parameters(item: Json): seq<Json>
  {
    match At(item, ["get", "parameters"])
    case Some(JArr(ps)) => ps
    case _ => []
  }

  function ParamName(p: Json): string
  {
    match Member(p, "name")
    case Some(JStr(n)) => n
    case _ => ""
  }

  predicate InQuery(p: Json)
  {
    Member(p, "in") == Some(JStr("query"))
  }

  /** OpenAPI treats a parameter without `required` as optional. */
  predicate Required(p: Json)
  {
    Member(p, "required") == Some(JBool(true))
  }

  /** The schema of a parameter (`null` when it has none). */
  function ParamSchema(p: Json): Json
  {
    match Member(p, "schema")
    case Some(schema) => schema
    case None => JNull
  }

  /** A schema's `default` obeys the schema's own `maximum` and `enum`, where given. */
  predicate DefaultAllowed(schema: Json)
  {
    match Member(schema, "default")
    case None => true
    case Some(d) =>
      && (match Member(schema, "maximum")
          case Some(JInt(max)) => d.JInt? && d.i <= max
          case _ => true)
      && (match Member(schema, "enum")
          case Some(JArr(allowed)) => d in allowed
          case _ => true)
  }

  /** The item documents one operation, `get`, with one response, `200`,
      whose JSON body is the `APIResponse` schema. */
  predicate GetReturningApiResponse(item: Json)
  {
    && item.JObj? && item.fields.Keys == {"get"}
    && (match At(item, ["get", "responses"])
        case Some(JObj(codes)) => codes.Keys == {"200"}
        case _ => false)
    && At(item, ["get", "responses", "200", "content", "application/json", "schema"])
       == Some(JObj(map["$ref" := JStr(SchemaRefPrefix + "APIResponse")]))
  }

  /** The query parameters documented for each search operation: in order
      `q`, `subreddit`, `author`, `size`, `sort`, `after`, `before`; only `q`
      required; `size` an integer defaulting to its maximum 100, `sort` a
      string defaulting to `desc` out of `asc` and `desc`, the rest strings;
      every default allowed by its own schema. */
  predicate SearchParameterList(ps: seq<QueryParameter>)
  {
    && |ps| == 7
    && ps[0].name == "q" && ps[1].name == "subreddit" && ps[2].name == "author"
    && ps[3].name == "size" && ps[4].name == "sort"
    && ps[5].name == "after" && ps[6].name == "before"
    && (forall i :: 0 <= i < |ps| ==> (ps[i].required <==> ps[i].name == "q"))
    && (forall i :: 0 <= i < |ps| ==> DefaultAllowed(ps[i].schema))
    && (forall i :: 0 <= i < |ps| ==>
          Member(ps[i].schema, "type") == Some(JStr(if ps[i].name == "size" then "integer" else "string")))
    && Member(ps[3].schema, "default") == Some(JInt(100))
    && Member(ps[3].schema, "maximum") == Some(JInt(100))
    && Member(ps[4].schema, "default") == Some(JStr("desc"))
    && Member(ps[4].schema, "enum") == Some(JArr([JStr("asc"), JStr("desc")]))
  }

  // ---------------------------------------------------------------------
  // What the fragments promise
  // ---------------------------------------------------------------------

  /** A record schema has one property per model field, with that field's type. */
  lemma RecordSchemaProperties(fields: map<string, FieldType>)
    ensures PropertiesOf(RecordSchema(fields)).Keys == fields.Keys
    ensures |PropertiesOf(RecordSchema(fields))| == |fields|
    ensures forall k :: k in fields ==> PropertiesOf(RecordSchema(fields))[k] == TypeSchema(fields[k])
  {
    var props := PropertiesOf(RecordSchema(fields));
    assert |props| == |props.Keys|;
  }

  /** The `Comment` schema describes exactly the fields of the `Comment`
      model, seven of them, each with its declared type. */
  lemma CommentSchemaMatchesModel()
    ensures CommentSchema() == RecordSchema(CommentModel())
  {
    var declared := map k | k in CommentModel() :: TypeSchema(CommentModel()[k]);
    var written := CommentSchema().fields["properties"].fields;
    assert declared.Keys == written.Keys;
    forall k | k in written ensures declared[k] == written[k] { }
    assert declared == written;
  }

  /** The `Submission` schema describes exactly the fields of the
      `Submission` model, eight of them, each with its declared type. */
  lemma SubmissionSchemaMatchesModel()
    ensures SubmissionSchema() == RecordSchema(SubmissionModel())
  {
    var declared := map k | k in SubmissionModel() :: TypeSchema(SubmissionModel()[k]);
    var written := SubmissionSchema().fields["properties"].fields;
    assert declared.Keys == written.Keys;
    forall k | k in written ensures declared[k] == written[k] { }
    assert declared == written;
  }

  /** The `Comment` schema has seven properties, each typed as the model declares. */
  lemma CommentSchemaProperties()
    ensures |PropertiesOf(CommentSchema())| == 7
    ensures forall f :: f in CommentModel() ==> PropertiesOf(CommentSchema())[f] == TypeSchema(CommentModel()[f])
  {
    assert |CommentModel()| == 7;
    CommentSchemaMatchesModel();
    RecordSchemaProperties(CommentModel());
  }

  /** The `Submission` schema has eight properties, each typed as the model declares. */
  lemma SubmissionSchemaProperties()
    ensures |PropertiesOf(SubmissionSchema())| == 8
    ensures forall f :: f in SubmissionModel() ==> PropertiesOf(SubmissionSchema())[f] == TypeSchema(SubmissionModel()[f])
  {
    assert |SubmissionModel()| == 8;
    SubmissionSchemaMatchesModel();
    RecordSchemaProperties(SubmissionModel());
  }

  /** The `APIResponse` schema describes the `APIResponse` model: `data` an
      array whose items are one of Comment, Submission or a plain string,
      `metadata` an open object. */
  lemma ApiResponseSchemaMatchesModel()
    ensures ApiResponseSchema() == RecordSchema(ApiResponseModel())
  {
    var alts := [ModelRef("Comment"), ModelRef("Submission"), StrField];
    var oneOf := seq(|alts|, i requires 0 <= i < |alts| => TypeSchema(alts[i]));
    assert SchemaRefPrefix + "Comment" == "#/components/schemas/Comment";
    assert SchemaRefPrefix + "Submission" == "#/components/schemas/Submission";
    assert oneOf == [TypeSchema(alts[0]), TypeSchema(alts[1]), TypeSchema(alts[2])];
    var declared := map k | k in ApiResponseModel() :: TypeSchema(ApiResponseModel()[k]);
    var written := ApiResponseSchema().fields["properties"].fields;
    assert declared.Keys == written.Keys;
    assert declared == written;
  }

  /** The Parameter Object of a query parameter reads back as that parameter. */
  lemma ParamJsonReadsBack(p: QueryParameter)
    ensures ParamName(ParamJson(p)) == p.name
    ensures InQuery(ParamJson(p))
    ensures Required(ParamJson(p)) == p.required
    ensures ParamSchema(ParamJson(p)) == p.schema
    ensures ParamJson(p).JObj? &&
            ParamJson(p).fields.Keys == {"name", "in", "schema", "description"} + (if p.required then {"required"} else {})
  {
  }

  /** The `parameters` of each path item are its parameter list, in order. */
  lemma PathItemParameters()
    ensures Parameters(SearchCommentsPathItem()) == ParamsJson(SearchCommentsParameters())
    ensures Parameters(SearchSubmissionsPathItem()) == ParamsJson(SearchSubmissionsParameters())
    ensures Parameters(CommentIdsPathItem()) == ParamsJson(CommentIdsParameters())
  {
  }

  /** Both search operations document the same seven query parameters. */
  lemma SearchOperationsParameters()
    ensures SearchParameterList(SearchCommentsParameters())
    ensures SearchSubmissionsParameters() == SearchCommentsParameters()
  {
  }

  /** The comment-ids operation takes one parameter, the required string
      parameter `link_id`. */
  lemma CommentIdsParameterIsLinkId()
    ensures |CommentIdsParameters()| == 1
    ensures CommentIdsParameters()[0].name == "link_id"
    ensures CommentIdsParameters()[0].required
    ensures Member(CommentIdsParameters()[0].schema, "type") == Some(JStr("string"))
  {
  }

  /** Read from the document itself: each search path item lists seven
      query parameters, of which only `q` is required; the comment-ids item
      lists one, the required `link_id`. */
  lemma PathItemQueryParameters()
    ensures |Parameters(SearchCommentsPathItem())| == 7
    ensures forall i :: 0 <= i < 7 ==>
              InQuery(Parameters(SearchCommentsPathItem())[i]) &&
              (Required(Parameters(SearchCommentsPathItem())[i]) <==> ParamName(Parameters(SearchCommentsPathItem())[i]) == "q")
    ensures Parameters(SearchSubmissionsPathItem()) == Parameters(SearchCommentsPathItem())
    ensures |Parameters(CommentIdsPathItem())| == 1
    ensures InQuery(Parameters(CommentIdsPathItem())[0]) && Required(Parameters(CommentIdsPathItem())[0])
    ensures ParamName(Parameters(CommentIdsPathItem())[0]) == "link_id"
  {
    PathItemParameters();
    SearchOperationsParameters();
    CommentIdsParameterIsLinkId();
    var ps := SearchCommentsParameters();
    forall i | 0 <= i < 7
      ensures InQuery(ParamsJson(ps)[i])
      ensures Required(ParamsJson(ps)[i]) <==> ParamName(ParamsJson(ps)[i]) == "q"
    {
      ParamJsonReadsBack(ps[i]);
    }
    ParamJsonReadsBack(CommentIdsParameters()[0]);
  }

  /** Each documented path is a GET answering 200 with an `APIResponse`. */
  lemma PathItemsAnswerWithApiResponse()
    ensures forall p :: p in HandPaths() ==> GetReturningApiResponse(HandPaths()[p])
  {
    PathItemAnswersWithApiResponse("Search Comments", "search_comments", SearchCommentsParameters());
    PathItemAnswersWithApiResponse("Search Submissions", "search_submissions", SearchSubmissionsParameters());
    PathItemAnswersWithApiResponse("Get Comment IDs", "get_comment_ids", CommentIdsParameters());
  }

  /** A path item shaped like the three hand-written ones is a GET answering
      200 with an `APIResponse`, whatever its parameters. */
  lemma PathItemAnswersWithApiResponse(summary: string, operationId: string, ps: seq<QueryParameter>)
    ensures GetReturningApiResponse(JObj(map["get" := JObj(map[
              "summary" := JStr(summary),
              "operationId" := JStr(operationId),
              "parameters" := JArr(ParamsJson(ps)),
              "responses" := ApiResponseOk()])]))
  {
    assert SchemaRefPrefix + "APIResponse" == "#/components/schemas/APIResponse";
  }

  /** The schema of a field type refers only to the schemas of the models
      the type refers to. */
  lemma {:induction false} TypeSchemaRefsWithin(t: FieldType, names: set<string>)
    requires RefersOnlyTo(t, names)
    ensures RefsWithin(TypeSchema(t), RefTargets(names))
  {
    match t
    case ModelRef(name) =>
    case ListOf(elem) =>
      TypeSchemaRefsWithin(elem, names);
    case UnionOf(alts) =>
      var oneOf := seq(|alts|, i requires 0 <= i < |alts| => TypeSchema(alts[i]));
      forall i | 0 <= i < |alts| ensures RefsWithin(oneOf[i], RefTargets(names)) {
        TypeSchemaRefsWithin(alts[i], names);
      }
      assert RefsWithin(JArr(oneOf), RefTargets(names));
    case _ =>
  }

  /** The schema of a model refers only to the models its fields refer to. */
  lemma RecordSchemaRefsWithin(fields: map<string, FieldType>, names: set<string>)
    requires forall k :: k in fields ==> RefersOnlyTo(fields[k], names)
    ensures RefsWithin(RecordSchema(fields), RefTargets(names))
  {
    var props := map k | k in fields :: TypeSchema(fields[k]);
    forall k | k in props ensures RefsWithin(props[k], RefTargets(names)) {
      TypeSchemaRefsWithin(fields[k], names);
    }
    assert RefsWithin(JObj(props), RefTargets(names));
  }

  /** A parameter refers to the schemas its own schema refers to. */
  lemma ParamsJsonRefsWithin(ps: seq<QueryParameter>, targets: set<string>)
    requires forall i :: 0 <= i < |ps| ==> RefsWithin(ps[i].schema, targets)
    ensures RefsWithin(JArr(ParamsJson(ps)), targets)
  {
    forall i | 0 <= i < |ps| ensures RefsWithin(ParamJson(ps[i]), targets) {
      var p := ps[i];
      var fields := map["name" := JStr(p.name), "in" := JStr("query"), "schema" := p.schema,
                        "description" := JStr(p.description)];
      assert RefsWithin(JObj(fields), targets);
      RefsWithinUpdate(fields, "required", JBool(true), targets);
    }
  }

  lemma CommentSchemaRefsWithin(names: set<string>)
    ensures RefsWithin(CommentSchema(), RefTargets(names))
  {
    CommentSchemaMatchesModel();
    RecordSchemaRefsWithin(CommentModel(), names);
  }

  lemma SubmissionSchemaRefsWithin(names: set<string>)
    ensures RefsWithin(SubmissionSchema(), RefTargets(names))
  {
    SubmissionSchemaMatchesModel();
    RecordSchemaRefsWithin(SubmissionModel(), names);
  }

  lemma ApiResponseSchemaRefsWithin(names: set<string>)
    requires "Comment" in names && "Submission" in names
    ensures RefsWithin(ApiResponseSchema(), RefTargets(names))
  {
    ApiResponseSchemaMatchesModel();
    assert RefersOnlyTo(ApiResponseModel()["data"], names);
    RecordSchemaRefsWithin(ApiResponseModel(), names);
  }

  /** Every `$ref` in the hand-written schemas names one of the
      hand-written schemas. */
  lemma HandSchemasRefsClosed()
    ensures forall n :: n in HandSchemas() ==> RefsWithin(HandSchemas()[n], RefTargets(HandSchemas().Keys))
  {
    var names := HandSchemas().Keys;
    CommentSchemaRefsWithin(names);
    SubmissionSchemaRefsWithin(names);
    ApiResponseSchemaRefsWithin(names);
  }

  /** A path item whose parameters carry no references refers only to the
      `APIResponse` schema. */
  lemma PathItemRefsWithin(summary: string, operationId: string, ps: seq<QueryParameter>, targets: set<string>)
    requires forall i :: 0 <= i < |ps| ==> RefsWithin(ps[i].schema, targets)
    requires SchemaRefPrefix + "APIResponse" in targets
    ensures RefsWithin(JObj(map["get" := JObj(map[
              "summary" := JStr(summary),
              "operationId" := JStr(operationId),
              "parameters" := JArr(ParamsJson(ps)),
              "responses" := ApiResponseOk()])]), targets)
  {
    assert SchemaRefPrefix + "APIResponse" == "#/components/schemas/APIResponse";
    var ref := JObj(map["$ref" := JStr("#/components/schemas/APIResponse")]);
    assert RefsWithin(ref, targets);
    var media := JObj(map["schema" := ref]);
    assert RefsWithin(media, targets);
    var content := JObj(map["application/json" := media]);
    assert RefsWithin(content, targets);
    var ok := JObj(map["description" := JStr("Successful Response"), "content" := content]);
    assert RefsWithin(ok, targets);
    assert RefsWithin(ApiResponseOk(), targets);
    ParamsJsonRefsWithin(ps, targets);
  }

  /** The schemas of the search parameters hold no `$ref`. */
  lemma SearchParametersRefsWithin(targets: set<string>)
    ensures forall i :: 0 <= i < |SearchCommentsParameters()| ==>
              RefsWithin(SearchCommentsParameters()[i].schema, targets)
  {
    var ps := SearchCommentsParameters();
    assert |ps| == 7;
    assert RefsWithin(ps[0].schema, targets);
    assert RefsWithin(ps[1].schema, targets);
    assert RefsWithin(ps[2].schema, targets);
    assert RefsWithin(ps[3].schema, targets);
    assert RefsWithin(ps[4].schema, targets);
    assert RefsWithin(ps[5].schema, targets);
    assert RefsWithin(ps[6].schema, targets);
  }

  /** The `$ref`s of each path item name the `APIResponse` schema. */
  lemma SearchCommentsRefsWithin(targets: set<string>)
    requires SchemaRefPrefix + "APIResponse" in targets
    ensures RefsWithin(SearchCommentsPathItem(), targets)
  {
    SearchParametersRefsWithin(targets);
    PathItemRefsWithin("Search Comments", "search_comments", SearchCommentsParameters(), targets);
  }

  lemma SearchSubmissionsRefsWithin(targets: set<string>)
    requires SchemaRefPrefix + "APIResponse" in targets
    ensures RefsWithin(SearchSubmissionsPathItem(), targets)
  {
    SearchParametersRefsWithin(targets);
    SearchOperationsParameters();
    PathItemRefsWithin("Search Submissions", "search_submissions", SearchSubmissionsParameters(), targets);
  }

  lemma CommentIdsRefsWithin(targets: set<string>)
    requires SchemaRefPrefix + "APIResponse" in targets
    ensures RefsWithin(CommentIdsPathItem(), targets)
  {
    PathItemRefsWithin("Get Comment IDs", "get_comment_ids", CommentIdsParameters(), targets);
  }

  /** Every `$ref` in the hand-written path items names one of the
      hand-written schemas. */
  lemma HandPathsRefsClosed()
    ensures forall p :: p in HandPaths() ==> RefsWithin(HandPaths()[p], RefTargets(HandSchemas().Keys))
  {
    var targets := RefTargets(HandSchemas().Keys);
    assert "APIResponse" in HandSchemas();
    SearchCommentsRefsWithin(targets);
    SearchSubmissionsRefsWithin(targets);
    CommentIdsRefsWithin(targets);
  }

  /** Everything the builder writes refers only to the hand-written schemas,
      so it stays within any target set that names them. */
  lemma HandFragmentsRefsWithin(targets: set<string>)
    requires RefTargets(HandSchemas().Keys) <= targets
    ensures RefsWithin(Servers(), targets)
    ensures RefsWithin(JObj(HandSchemas()), targets)
    ensures RefsWithin(JObj(HandPaths()), targets)
  {
    HandSchemasRefsClosed();
    HandPathsRefsClosed();
    var hand := RefTargets(HandSchemas().Keys);
    forall n | n in HandSchemas() ensures RefsWithin(HandSchemas()[n], targets) {
      RefsWithinMonotonic(HandSchemas()[n], hand, targets);
    }
    forall p | p in HandPaths() ensures RefsWithin(HandPaths()[p], targets) {
      RefsWithinMonotonic(HandPaths()[p], hand, targets);
    }
  }
}
