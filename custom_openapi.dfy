/** The document builder of the PullPush documentation server: it takes the
    OpenAPI document the web framework derives from the declared routes,
    points `servers` at the official API, writes the hand-made schemas into
    `components.schemas` and the hand-made path items into `paths`, and
    caches the result on the application object. */
module PullPushApi {
  import opened Json
  import opened OpenApiFragments

  /** A top-level OpenAPI document: a JSON object. */
  type Document = map<string, Json>

  /** The exceptions the builder raises on a base document it cannot edit. */
  datatype BuildError =
    | KeyError(key: string)       // a top-level key read that is not there
    | TypeError(at: seq<string>)  // a key read or written on a value at this path that is not an object

  datatype Result<+T> = Ok(value: T) | Err(error: BuildError)

  /** `key` is absent from `m` or holds an object. */
  predicate ObjectOrAbsent(m: map<string, Json>, key: string)
  {
    key !in m || m[key].JObj?
  }

  /** The fields of the object under `key`; empty when there is none. */
  function ObjectAt(m: map<string, Json>, key: string): map<string, Json>
  {
    if key in m && m[key].JObj? then m[key].fields else map[]
  }

  function ComponentsOf(doc: Document): map<string, Json>
  {
    ObjectAt(doc, "components")
  }

  function SchemasOf(doc: Document): map<string, Json>
  {
    ObjectAt(ComponentsOf(doc), "schemas")
  }

  function PathsOf(doc: Document): map<string, Json>
  {
    ObjectAt(doc, "paths")
  }

  /** The base documents the builder completes without raising: `components`
      and `components.schemas` are created when missing but must be objects
      when present, and `paths` must already be an object, since it is
      indexed without being created first. */
  predicate Buildable(base: Document)
  {
    && ObjectOrAbsent(base, "components")
    && ObjectOrAbsent(ComponentsOf(base), "schemas")
    && "paths" in base && base["paths"].JObj?
  }

  /** The document the builder produces from `base`, or the exception it
      raises. Hand-written entries win over entries of `base` with the same
      key; every other entry of `base` is kept. */
  function Build(base: Document): (r: Result<Document>)
    ensures r.Ok? <==> Buildable(base)
    ensures !ObjectOrAbsent(base, "components") ==> r == Err(TypeError(["components"]))
    ensures ObjectOrAbsent(base, "components") && !ObjectOrAbsent(ComponentsOf(base), "schemas") ==>
              r == Err(TypeError(["components", "schemas"]))
    ensures ObjectOrAbsent(base, "components") && ObjectOrAbsent(ComponentsOf(base), "schemas") && "paths" !in base ==>
              r == Err(KeyError("paths"))
    ensures ObjectOrAbsent(base, "components") && ObjectOrAbsent(ComponentsOf(base), "schemas") &&
            "paths" in base && !base["paths"].JObj? ==>
              r == Err(TypeError(["paths"]))
  {
    if !ObjectOrAbsent(base, "components") then Err(TypeError(["components"]))
    else
      var components := ComponentsOf(base);
      if !ObjectOrAbsent(components, "schemas") then Err(TypeError(["components", "schemas"]))
      else if "paths" !in base then Err(KeyError("paths"))
      else if !base["paths"].JObj? then Err(TypeError(["paths"]))
      else
        var schemas := ObjectAt(components, "schemas") + HandSchemas();
        var paths := base["paths"].fields + HandPaths();
        Ok(base["servers" := Servers()]
               ["components" := JObj(components["schemas" := JObj(schemas)])]
               ["paths" := JObj(paths)])
  }

  /** After a build, `servers` is the official API alone, `components` and
      `paths` are objects, and every other top-level entry is untouched. */
  lemma BuildTopLevel(base: Document)
    requires Build(base).Ok?
    ensures Build(base).value.Keys == base.Keys + {"servers", "components", "paths"}
    ensures Build(base).value["servers"] == JArr([JObj(map["url" := JStr(OfficialApiUrl)])])
    ensures Build(base).value["components"].JObj? && Build(base).value["paths"].JObj?
    ensures forall k :: k in base && k != "servers" && k != "components" && k != "paths" ==>
              Build(base).value[k] == base[k]
  {
  }

  /** After a build, `components.schemas` is an object holding the three
      hand-written schemas; every other schema and component is untouched. */
  lemma BuildSchemas(base: Document)
    requires Build(base).Ok?
    ensures "schemas" in ComponentsOf(Build(base).value) && ComponentsOf(Build(base).value)["schemas"].JObj?
    ensures ComponentsOf(Build(base).value).Keys == ComponentsOf(base).Keys + {"schemas"}
    ensures forall k :: k in ComponentsOf(base) && k != "schemas" ==>
              ComponentsOf(Build(base).value)[k] == ComponentsOf(base)[k]
    ensures SchemasOf(Build(base).value).Keys == SchemasOf(base).Keys + {"Comment", "Submission", "APIResponse"}
    ensures forall n :: n in HandSchemas() ==> SchemasOf(Build(base).value)[n] == HandSchemas()[n]
    ensures forall n :: n in SchemasOf(base) && n !in HandSchemas() ==>
              SchemasOf(Build(base).value)[n] == SchemasOf(base)[n]
  {
  }

  /** After a build, `paths` holds the three hand-written path items; every
      other path is untouched. */
  lemma BuildPaths(base: Document)
    requires Build(base).Ok?
    ensures PathsOf(Build(base).value).Keys == PathsOf(base).Keys + {CommentSearchPath, SubmissionSearchPath, CommentIdsPath}
    ensures forall p :: p in HandPaths() ==> PathsOf(Build(base).value)[p] == HandPaths()[p]
    ensures forall p :: p in PathsOf(base) && p !in HandPaths() ==>
              PathsOf(Build(base).value)[p] == PathsOf(base)[p]
  {
  }

  /** Every `$ref` of the document names a schema of its own
      `components.schemas`. */
  predicate RefsClosed(doc: Document)
  {
    RefsWithin(JObj(doc), RefTargets(SchemasOf(doc).Keys))
  }

  /** Every `$ref` the builder writes names a schema of the built document,
      whatever the base held. */
  lemma WrittenRefsResolve(base: Document)
    requires Build(base).Ok?
    ensures forall n :: n in HandSchemas() ==>
              RefsWithin(SchemasOf(Build(base).value)[n], RefTargets(SchemasOf(Build(base).value).Keys))
    ensures forall p :: p in HandPaths() ==>
              RefsWithin(PathsOf(Build(base).value)[p], RefTargets(SchemasOf(Build(base).value).Keys))
  {
    var doc := Build(base).value;
    BuildSchemas(base);
    BuildPaths(base);
    HandSchemasRefsClosed();
    HandPathsRefsClosed();
    var targets := RefTargets(SchemasOf(doc).Keys);
    assert RefTargets(HandSchemas().Keys) <= targets;
    forall n | n in HandSchemas() ensures RefsWithin(SchemasOf(doc)[n], targets) {
      RefsWithinMonotonic(HandSchemas()[n], RefTargets(HandSchemas().Keys), targets);
    }
    forall p | p in HandPaths() ensures RefsWithin(PathsOf(doc)[p], targets) {
      RefsWithinMonotonic(HandPaths()[p], RefTargets(HandSchemas().Keys), targets);
    }
  }

  /** The builder adds no reference outside a target set that already
      covers the base and the hand-written schemas. */
  lemma BuildRefsWithin(base: Document, targets: set<string>)
    requires Build(base).Ok? && RefsWithin(JObj(base), targets)
    requires RefTargets(HandSchemas().Keys) <= targets
    ensures RefsWithin(JObj(Build(base).value), targets)
  {
    HandFragmentsRefsWithin(targets);
    var components := ComponentsOf(base);
    var schemas := SchemasOf(base);
    var paths := base["paths"].fields;
    assert RefsWithin(JObj(components), targets) by {
      if "components" in base { assert base["components"] == JObj(components); }
    }
    assert RefsWithin(JObj(schemas), targets) by {
      if "schemas" in components { assert components["schemas"] == JObj(schemas); }
    }
    assert RefsWithin(base["paths"], targets);
    RefsWithinUnion(schemas, HandSchemas(), targets);
    RefsWithinUpdate(components, "schemas", JObj(schemas + HandSchemas()), targets);
    RefsWithinUnion(paths, HandPaths(), targets);
    var withServers := base["servers" := Servers()];
    RefsWithinUpdate(base, "servers", Servers(), targets);
    var withComponents := withServers["components" := JObj(components["schemas" := JObj(schemas + HandSchemas())])];
    RefsWithinUpdate(withServers, "components", JObj(components["schemas" := JObj(schemas + HandSchemas())]), targets);
    RefsWithinUpdate(withComponents, "paths", JObj(paths + HandPaths()), targets);
    assert Build(base).value == withComponents["paths" := JObj(paths + HandPaths())];
  }

  /** A base document whose references all resolve is built into a document
      whose references all resolve. */
  lemma BuildKeepsRefsClosed(base: Document)
    requires Build(base).Ok? && RefsClosed(base)
    ensures RefsClosed(Build(base).value)
  {
    BuildSchemas(base);
    var targets := RefTargets(SchemasOf(Build(base).value).Keys);
    RefsWithinMonotonic(JObj(base), RefTargets(SchemasOf(base).Keys), targets);
    BuildRefsWithin(base, targets);
  }

  /** With every route hidden from the schema, the framework's document has
      an empty `paths` and no `components`; the build then holds exactly the
      hand-written schemas and path items. */
  lemma HiddenRoutesDocument(base: Document)
    requires "components" !in base && "paths" in base && base["paths"] == JObj(map[])
    ensures Build(base).Ok?
    ensures Build(base).value.Keys == base.Keys + {"servers", "components"}
    ensures ComponentsOf(Build(base).value).Keys == {"schemas"}
    ensures SchemasOf(Build(base).value) == HandSchemas()
    ensures PathsOf(Build(base).value) == HandPaths()
  {
    assert Buildable(base);
    assert ComponentsOf(base) == map[];
    assert ObjectAt(map[], "schemas") == map[];
    assert map[] + HandSchemas() == HandSchemas();
    assert base["paths"].fields == map[];
    assert map[] + HandPaths() == HandPaths();
  }

  /** With every route hidden and no `$ref` in the framework's document,
      every reference of the build names one of its schemas. */
  lemma HiddenRoutesRefsClosed(base: Document)
    requires "components" !in base && "paths" in base && base["paths"] == JObj(map[])
    requires RefsWithin(JObj(base), {})
    ensures Build(base).Ok? && RefsClosed(Build(base).value)
  {
    assert Buildable(base);
    assert SchemasOf(base) == map[];
    assert RefTargets(SchemasOf(base).Keys) == {};
    BuildKeepsRefsClosed(base);
  }

  /** The cache-miss path of the handler: edits the framework's document
      step by step, in the source's order, raising where the source raises;
      the outcome is exactly `Build(base)`. */
  method BuildInPlace(base: Document) returns (r: Result<Document>)
    ensures r == Build(base)
  {
    var doc := base;

    doc := doc["servers" := Servers()];

    if "components" !in doc {
      doc := doc["components" := JObj(map[])];
    }
    if !doc["components"].JObj? {
      return Err(TypeError(["components"]));
    }
    var components := doc["components"].fields;
    if "schemas" !in components {
      components := components["schemas" := JObj(map[])];
      doc := doc["components" := JObj(components)];
    }
    if !components["schemas"].JObj? {
      return Err(TypeError(["components", "schemas"]));
    }

    var schemas := components["schemas"].fields;
    assert schemas == SchemasOf(base);
    schemas := schemas["Comment" := CommentSchema()];
    schemas := schemas["Submission" := SubmissionSchema()];
    schemas := schemas["APIResponse" := ApiResponseSchema()];
    UpdatesAreUnion(SchemasOf(base), "Comment", CommentSchema(), "Submission", SubmissionSchema(),
                    "APIResponse", ApiResponseSchema());
    components := components["schemas" := JObj(schemas)];
    assert components == ComponentsOf(base)["schemas" := JObj(SchemasOf(base) + HandSchemas())];
    doc := doc["components" := JObj(components)];

    if "paths" !in doc {
      return Err(KeyError("paths"));
    }
    if !doc["paths"].JObj? {
      return Err(TypeError(["paths"]));
    }
    var paths := doc["paths"].fields;
    paths := paths[CommentSearchPath := SearchCommentsPathItem()];
    paths := paths[SubmissionSearchPath := SearchSubmissionsPathItem()];
    paths := paths[CommentIdsPath := CommentIdsPathItem()];
    UpdatesAreUnion(PathsOf(base), CommentSearchPath, SearchCommentsPathItem(),
                    SubmissionSearchPath, SearchSubmissionsPathItem(), CommentIdsPath, CommentIdsPathItem());
    doc := doc["paths" := JObj(paths)];
    assert doc == Build(base).value;
    r := Ok(doc);
  }

  /** Three assignments in a row merge a three-entry object, later keys winning. */
  lemma UpdatesAreUnion(m: map<string, Json>, k1: string, v1: Json, k2: string, v2: Json, k3: string, v3: Json)
    ensures m[k1 := v1][k2 := v2][k3 := v3] == m + map[k1 := v1, k2 := v2, k3 := v3]
  {
  }

  /** The application object, which keeps the built document. */
  class App {
    /** The cached document; `None` until the first successful build. */
    var openapiSchema: Option<Document>

    constructor ()
      ensures openapiSchema == None
    {
      openapiSchema := None;
    }

    /** The cache test is a truth test on the cached value, so an empty
        document counts as not cached, like `None`. */
    predicate HasCachedSchema()
      reads this
    {
      openapiSchema.Some? && |openapiSchema.value| > 0
    }

    /** Answers a request for the OpenAPI document. `base` is what the
        framework derives from the routes; it is consulted only when nothing
        is cached. */
    method CustomOpenapi(base: Document) returns (r: Result<Document>)
      modifies this
      ensures old(HasCachedSchema()) ==> r == Ok(old(openapiSchema).value) && openapiSchema == old(openapiSchema)
      ensures !old(HasCachedSchema()) ==> r == Build(base)
      ensures !old(HasCachedSchema()) && r.Err? ==> openapiSchema == old(openapiSchema)
      ensures r.Ok? ==> openapiSchema == Some(r.value) && HasCachedSchema()
    {
      if HasCachedSchema() {
        return Ok(openapiSchema.value);
      }
      r := BuildInPlace(base);
      if r.Ok? {
        BuildTopLevel(base);
        openapiSchema := Some(r.value);
      }
    }
  }
  /** Two requests in a row: once a document has been built, the second
      request is answered with the same document, whatever `base` it is
      offered. */
  method ServeTwice(app: App, first: Document, second: Document) returns (r1: Result<Document>, r2: Result<Document>)
    modifies app
    ensures old(app.HasCachedSchema()) ==> r1 == Ok(old(app.openapiSchema).value)
    ensures !old(app.HasCachedSchema()) ==> r1 == Build(first)
    ensures r1.Ok? ==> r2 == r1 && app.openapiSchema == Some(r1.value)
  {
    r1 := app.CustomOpenapi(first);
    r2 := app.CustomOpenapi(second);
  }
}
