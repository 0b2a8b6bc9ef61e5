# PullPush API documentation server: the OpenAPI document builder

The PullPush documentation server is a FastAPI application. It serves
interactive documentation for the PullPush Reddit API but answers no API
request itself. Its four routes are hidden from the generated schema. The
application's `openapi` hook is replaced by `custom_openapi`, which does the
following:

- takes the document the framework derives from the routes (`get_openapi`);
- sets `servers` to the single official API host, `https://api.pullpush.io`;
- creates `components` and `components.schemas` when they are missing;
- writes the schemas `Comment`, `Submission` and `APIResponse`;
- writes the `GET` path items for `/reddit/search/comment/`,
  `/reddit/search/submission/` and `/reddit/comment/ids/`;
- caches the document on the application object and returns it.

The model has three modules:

- `Json` (`json.dfy`): JSON values with objects as maps, path lookup, and the
  predicate `RefsWithin`, which says that every `$ref` string in a value is
  one of a given set.
- `OpenApiFragments` (`fragments.dfy`): the hand-written pieces, written as
  the literals the builder writes. It also holds an independent reference
  definition: the field declarations of the three record models as
  `map<string, FieldType>`, and `RecordSchema`/`TypeSchema`, which turn a
  model into the object schema it should have. The lemmas prove that each
  literal is the schema of its model. The lemmas also state what the
  parameter lists and responses promise, and that every `$ref` written names
  a written schema.
- `PullPushApi` (`custom_openapi.dfy`):
  - `Build`, a pure specification of one build, including the exceptions it
    raises;
  - lemmas about what a build keeps, adds and replaces;
  - the method `BuildInPlace`, which performs the build step by step, as
    the handler does on a cache miss, and is proved against `Build`;
  - the class `App`, whose field `openapiSchema` is the cache. Its method
    `CustomOpenapi` answers from the cache or runs `BuildInPlace` and
    caches a successful result.

The framework's document is a parameter `base` of type `map<string, Json>`,
since `get_openapi` always returns a dictionary. The builder indexes into
`base` without checking it, so malformed input is modelled as the exception
Python would raise, not as a precondition:

- `components` present but not an object: `TypeError`.
- `components.schemas` present but not an object: `TypeError`.
- `paths` missing: `KeyError`. `paths` is indexed but never created.
- `paths` present but not an object: `TypeError`.

The Python source reaches `TypeError` by different routes in these places,
and the model merges them into one error per place. For a number or `None`,
the membership test `"schemas" in ...` raises at once. For a string or a list,
the membership test is a substring or element test and does not raise. The
`TypeError` then comes from the item assignment at line 74 or from the
indexing at line 77, whichever the test leads to.

The code keeps every schema and path that `base` already held, apart from
the three it overwrites. It also keeps every other top-level entry. A
description of the service as holding "exactly" these three schemas and
three paths is therefore true only of the document the framework produces
for this application, where every route is hidden. The model follows the
code: `BuildSchemas` and `BuildPaths` state the general behaviour, and
`HiddenRoutesDocument` states the "exactly three" case under its
assumptions.

The cache test in the handler is Python truthiness. A cached empty
dictionary therefore counts as not cached. `App.HasCachedSchema` states
this, and a built document is never empty because it always holds
`servers`.

## Model

| member | source | states |
|---|---|---|
| PullPushApi.Build | pullpushapi.py:68-179 | A build succeeds exactly when `components` and `components.schemas` are objects or absent and `paths` is present and an object. Otherwise it fails in source order: `TypeError` at `components`, then `TypeError` at `components.schemas`, then `KeyError("paths")` when `paths` is missing, then `TypeError` at `paths` when it is not an object. |
| PullPushApi.BuildTopLevel | pullpushapi.py:68-74 | The built document's keys are those of the base plus `servers`, `components` and `paths`. `servers` is one entry whose `url` is the official API host, replacing whatever was there. `components` and `paths` are objects. Every other top-level entry is unchanged. |
| PullPushApi.BuildSchemas | pullpushapi.py:70-119 | `components.schemas` is an object whose names are the base's plus `Comment`, `Submission` and `APIResponse`. The three hold the hand-written schemas and override the base's schemas of the same name. Every other schema and every other component is unchanged. |
| PullPushApi.BuildPaths | pullpushapi.py:121-179 | `paths` holds the base's paths plus the three documented ones. The three hold the hand-written path items. Every other path is unchanged. |
| PullPushApi.WrittenRefsResolve | pullpushapi.py:104-179 | Whatever the base held, every `$ref` inside a schema or path item the builder writes names a schema present in the built document. |
| PullPushApi.BuildRefsWithin | pullpushapi.py:68-179 | A build adds no `$ref` outside any target set that already covers the base's references and the three written schemas. |
| PullPushApi.BuildKeepsRefsClosed | pullpushapi.py:68-179 | If every `$ref` of the base names one of its own schemas, then every `$ref` of the built document names one of its own schemas. |
| PullPushApi.HiddenRoutesDocument | pullpushapi.py:61-179 | The framework's document has an empty `paths` and no `components` because all routes are hidden. For such a document the build succeeds and adds exactly `servers` and `components`. `components` holds only `schemas`. The schemas are exactly the three written ones, and the paths are exactly the three written ones. |
| PullPushApi.HiddenRoutesRefsClosed | pullpushapi.py:61-179 | When, in addition, that document holds no `$ref`, every reference in the built document resolves to one of its schemas. |
| PullPushApi.BuildInPlace | pullpushapi.py:61-179 | Editing the framework's document in the source's order gives exactly `Build(base)`. It sets `servers`, creates `components` and `schemas` when they are missing, writes the three schemas and then the three path items, and raises at the first key that is not an object or, for `paths`, is missing. |
| PullPushApi.App.HasCachedSchema | pullpushapi.py:59 | The cache test: a document is cached when one is stored and it is non-empty, since an empty dictionary is false in Python. |
| PullPushApi.App.constructor | pullpushapi.py:7-11 | A new application has no cached document. |
| PullPushApi.App.CustomOpenapi | pullpushapi.py:58-182 | On a non-empty cached document, it returns that document unchanged and leaves the cache alone. Otherwise it returns exactly `Build(base)`. A successful build is cached, and the cache then counts as filled. A raised exception leaves the cache as it was. |
| PullPushApi.ServeTwice | pullpushapi.py:59-60 | Once a request has produced a document, the next request returns the same document whatever the framework would now derive, and the cache still holds it. |
| OpenApiFragments.Servers | pullpushapi.py:68 | The `servers` value: a one-entry list whose `url` is the official API host `OfficialApiUrl`, `https://api.pullpush.io` (line 13). It has no contract of its own; `BuildTopLevel` states it. |
| OpenApiFragments.CommentModel | pullpushapi.py:15-22 | The `Comment` model's field declarations: seven fields with their types. It is the reference that `CommentSchemaMatchesModel` checks against. |
| OpenApiFragments.SubmissionModel | pullpushapi.py:24-32 | The `Submission` model's field declarations: eight fields with their types. |
| OpenApiFragments.ApiResponseModel | pullpushapi.py:34-36 | The `APIResponse` model's field declarations: `data`, a list of the union of `Comment`, `Submission` and string; and `metadata`, a dictionary. |
| OpenApiFragments.CommentSchema | pullpushapi.py:77-88 | The `Comment` schema literal as the builder writes it. Its properties are stated by `CommentSchemaMatchesModel` and `CommentSchemaProperties`. |
| OpenApiFragments.SubmissionSchema | pullpushapi.py:90-102 | The `Submission` schema literal as written. Its properties are stated by `SubmissionSchemaMatchesModel` and `SubmissionSchemaProperties`. |
| OpenApiFragments.ApiResponseSchema | pullpushapi.py:104-119 | The `APIResponse` schema literal as written. Its properties are stated by `ApiResponseSchemaMatchesModel`. |
| OpenApiFragments.ApiResponseOk | pullpushapi.py:134-139 | The `responses` value shared by all three operations (also lines 156-161 and 172-177): one `200` response, "Successful Response", whose JSON body is a `$ref` to `APIResponse`. `PathItemsAnswerWithApiResponse` states this. |
| OpenApiFragments.ParamJson | pullpushapi.py:126-132 | The Parameter Object written for one query parameter. `ParamJsonReadsBack` states its shape. |
| OpenApiFragments.SearchCommentsParameters | pullpushapi.py:125-133 | The seven parameters of the comment search, as written. `SearchOperationsParameters` states their properties. |
| OpenApiFragments.SearchSubmissionsParameters | pullpushapi.py:147-155 | The seven parameters of the submission search, written out separately as in the source. `SearchOperationsParameters` proves them equal to the comment search's. |
| OpenApiFragments.CommentIdsParameters | pullpushapi.py:169-171 | The one parameter of the comment-ids operation. `CommentIdsParameterIsLinkId` states it. |
| OpenApiFragments.SearchCommentsPathItem | pullpushapi.py:121-141 | The path item for `/reddit/search/comment/`: `get` with summary "Search Comments", operation id `search_comments`, its parameters and the shared response. |
| OpenApiFragments.SearchSubmissionsPathItem | pullpushapi.py:143-163 | The path item for `/reddit/search/submission/`: summary "Search Submissions", operation id `search_submissions`. |
| OpenApiFragments.CommentIdsPathItem | pullpushapi.py:165-179 | The path item for `/reddit/comment/ids/`: summary "Get Comment IDs", operation id `get_comment_ids`. |
| OpenApiFragments.RecordSchemaProperties | pullpushapi.py:15-36 | The schema of a record model has exactly one property per model field, as many properties as fields, and each property is its field's type schema. |
| OpenApiFragments.CommentSchemaMatchesModel | pullpushapi.py:77-88 | The written `Comment` schema equals the schema derived from the `Comment` model's field declarations (lines 15-22). |
| OpenApiFragments.SubmissionSchemaMatchesModel | pullpushapi.py:90-102 | The written `Submission` schema equals the schema derived from the `Submission` model's field declarations (lines 24-32). |
| OpenApiFragments.CommentSchemaProperties | pullpushapi.py:77-88 | The `Comment` schema has seven properties, each typed as the model declares it. |
| OpenApiFragments.SubmissionSchemaProperties | pullpushapi.py:90-102 | The `Submission` schema has eight properties, each typed as the model declares it. |
| OpenApiFragments.ApiResponseSchemaMatchesModel | pullpushapi.py:104-119 | The written `APIResponse` schema equals the schema derived from the model (lines 34-36). `data` is an array whose items are one of `Comment`, `Submission` or a string, and `metadata` is an object. |
| OpenApiFragments.TypeSchemaRefsWithin | pullpushapi.py:107-115 | The schema of a field type holds `$ref`s only to the models the type mentions. |
| OpenApiFragments.HandSchemasRefsClosed | pullpushapi.py:104-119 | Every `$ref` in the three written schemas names one of the three. |
| OpenApiFragments.HandPathsRefsClosed | pullpushapi.py:121-179 | Every `$ref` in the three written path items names one of the written schemas. |
| OpenApiFragments.HandFragmentsRefsWithin | pullpushapi.py:68-179 | `servers`, the written schemas and the written path items refer only to targets that cover the written schemas. |
| OpenApiFragments.ParamJsonReadsBack | pullpushapi.py:126-132 | The Parameter Object written for a query parameter reads back as that parameter's name, location `query`, required flag and schema. Its keys are exactly `name`, `in`, `schema` and `description`, plus `required` only when the parameter is required, as in the source. |
| OpenApiFragments.PathItemParameters | pullpushapi.py:121-179 | Each path item's `get.parameters` is its parameter list, in order. |
| OpenApiFragments.SearchOperationsParameters | pullpushapi.py:125-155 | Both search operations document the same seven query parameters, in the order `q`, `subreddit`, `author`, `size`, `sort`, `after`, `before`. Only `q` is required. `size` is an integer with default 100 and maximum 100. `sort` is a string with default `desc` and values `asc` and `desc`. The others are strings. Every default is allowed by its own schema. |
| OpenApiFragments.PathItemQueryParameters | pullpushapi.py:125-171 | Read from the path items themselves: each search item lists seven query parameters, and a parameter is required exactly when it is `q`. The two search items have equal parameter lists. The comment-ids item lists one required query parameter, `link_id`. |
| OpenApiFragments.CommentIdsParameterIsLinkId | pullpushapi.py:169-171 | The comment-ids operation takes one parameter: the required string `link_id`. |
| OpenApiFragments.PathItemsAnswerWithApiResponse | pullpushapi.py:121-179 | Each written path item has the single operation `get`, with the single response `200`, whose JSON body is a `$ref` to `APIResponse`. |
| OpenApiFragments.PathItemAnswersWithApiResponse | pullpushapi.py:134-139 | Any path item of the written shape answers `200` with an `APIResponse`, whatever its summary, operation id and parameters. |

## Left out

- `get_openapi` is not modelled. Its result is the parameter `base`. The handler calls it only on a cache miss, whereas the model always receives `base` and ignores it on a hit.
- The four route handlers are not modelled. They redirect to `/docs` or raise HTTP 501, are hidden from the schema, and do not touch the document.
- Application construction beyond the empty cache is not modelled: the title, description and version, the assignment of the `openapi` hook, and the `uvicorn` entry point.
- Concurrent requests are not modelled. The handler has no locking, and the model treats each request as one atomic step.
- Key order and serialisation are not modelled. Objects are maps, so the order in which Python inserts keys is not represented, and neither is the JSON text.
- Floating-point JSON values do not occur in the document and are not part of the `Json` type.
- Aliasing is not modelled. The handler returns the cached dictionary itself, so a caller that mutates the result mutates the cache. The model returns values.
- PullPushApi.App.CustomOpenapi: the model does not show the partial mutation Python leaves in the framework's dictionary before raising. For example, `servers` is already set when `paths` turns out to be missing. That dictionary is fresh on every call and is discarded when the handler raises, so the effect cannot be observed.
