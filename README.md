# koact route-tree compiler, modelled in Dafny

koact turns a directory of route files into a koa-router middleware. The
function `routesOfPath` walks one directory. It does the following:

- It loads the directory's `META` module. That module supplies router-wide
  middleware (`pre`), plugins and documentation fields.
- It skips entries whose name starts with `_`.
- It mounts each sub-directory at `/<name>`, with every `#` turned into `:`,
  after compiling that sub-directory recursively.
- It compiles each file named `METHOD#Display name.ext`. The file's module
  is run through its plugins: its own, then the META plugins nearest
  first, then the list passed at the top. The result becomes a route at `/`
  whose middleware chain is the definition's `pre` list, plus a multipart
  body parser for `post`, and ends in a validating handler.
- It collects one documentation summary per endpoint. A directory with a
  META serves the summaries gathered below it at `/api.doc` and passes none
  upward. A directory without one passes them on to its parent.

`koact` calls `routesOfPath` on the root. It passes no parent path and a
default list of resolvable extensions.

The model replaces the filesystem and `require` with an input tree (`Dir`).
In that tree, each directory holds the outcome of loading its META and its
entries in listing order, and each file holds its loaded module.
Middlewares, plugins, schemas and handlers are opaque identifiers. What a
plugin does is a function the caller supplies, and so are schema validation
and the handler's behaviour.

The model has these parts:

- `Compiler.RoutesOfPath` is the compiler as the source writes it: a loop
  over the listing that updates a router object, the summary memo, the
  sub-document list and the plugin list. It is proved to compute the
  functional specification `Compiler.CompileDir`, which folds
  `Compiler.EntryStep` (the `forEach` callback for one entry) over the
  listing.
- `RouteTreeSpec` gives a flat reference for a whole tree. Its "sites" are
  every visible file below a directory, each with the chain of META loads
  above it and its mount path. The main theorem,
  `RouteTreeSpec.CompileMatchesSites`, states three things for any tree:
  - the compiled endpoint routes are exactly the routes of the accepted
    sites, in depth-first listing order;
  - the summaries passed upward are exactly those of the accepted sites
    with no META on their path;
  - the error log has one line per file whose method the router does not
    know.
- `Scenarios` works through the example tree under `test/routes`: how its
  file names are classified, and the middleware chains its root META's
  plugin gives the two root endpoints.
- `Request` models the final middleware of an endpoint route: the
  multipart merge, the three validations, the handler and the response
  validation.

## Model

| member | source | states |
|---|---|---|
| Text.ReplaceHash | src/index.ts:78 | every `#` of a directory name becomes `:`, every other character is kept, and the result holds no `#` |
| Text.MountSegment | src/index.ts:78 | the mount segment is `/` followed by the name with `#` replaced by `:`, one character longer than the name and free of `#` |
| Text.SplitHash | src/index.ts:93 | `split('#')` yields at least one segment and no segment holds a `#` |
| Text.JoinSplit | src/index.ts:93 | joining the segments of `split('#')` with `#` gives back the name |
| Text.SplitJoin | src/index.ts:93 | splitting a `#`-join of `#`-free segments gives back the segments |
| Text.MethodToken | src/index.ts:93 | the method token is the whole name or the part before its first `#`, and holds no `#` |
| Text.DisplayName | src/index.ts:93 | the display name is absent exactly when the name has no `#`; otherwise it is the second `#`-segment: it starts right after the `#` that ends the method token and runs to the next `#` or to the end of the name, and holds no `#` |
| Text.HashNameParts | src/index.ts:93 | a name `a#b` with `#`-free parts has method token `a` and display name `b` |
| Text.ToUpperAt | src/index.ts:94 | `ToUpper`: upper-casing keeps the length and maps each character on its own |
| Text.ToLowerAt | src/index.ts:97 | `ToLower`: lower-casing keeps the length and maps each character on its own |
| Text.LowerOfUpper | src/index.ts:94-97 | lower-casing the upper-cased token is lower-casing the token |
| Text.UpperMatchesWord | src/index.ts:94-97 | against an upper-case word, the token upper-cases to the word exactly when it lower-cases to the word's lower case |
| Text.LastDot | src/index.ts:86 | the index found is of a `.`, with none after it, and there is none exactly when the name holds no `.` |
| Text.ParsePath | src/index.ts:86 | name and extension concatenate to the entry name; the extension is empty exactly when the name is `..` or has no `.` after its first character; otherwise it starts with its only `.` and the name is not empty |
| Text.ParseJoined | src/index.ts:86 | parsing a non-empty name followed by a one-dot extension gives back the name and the extension |
| Definitions.LoadMeta | src/index.ts:56-67 | META is present exactly when loading does not throw; a module without `default` is an empty META; otherwise `pre` and the plugins are the module's, and the served fields are the module's other fields with their values, only `pre` and `plugins` removed |
| Definitions.LoadApi | src/index.ts:98-100 | a module without `default` is the empty definition with no plugins; otherwise the plugins and every named part of the definition are the module's, and the remaining fields keep all their keys and values except `plugins` |
| Plugins.ApplyConcat | src/index.ts:101-107 | `ApplyPlugins`: reducing over a concatenated plugin list runs the first list, then the second on its output |
| Plugins.ApplyLast | src/index.ts:101-107 | `ApplyPlugins`: the last plugin receives what all earlier plugins produced |
| Plugins.Inherit | src/index.ts:62 | the list handed to entries is the META's plugins before the inherited list, or the inherited list alone without META |
| Plugins.EndpointPluginOrder | src/index.ts:99-107 | an endpoint's definition is its module run through its own plugins, then its directory's META plugins, then the inherited ones |
| Routing.Prefixed | src/index.ts:83 | mounting keeps the sub-router's layers in order, each with the prefix prepended to its path |
| Routing.UseLayers | src/index.ts:61 | `router.use(...pre)` adds one router-wide layer per middleware, in order |
| Routing.PrefixedConcat | src/index.ts:83 | mounting a concatenation mounts each part |
| Routing.PrefixedTwice | src/index.ts:79-83 | mounting under `q` inside a router mounted under `p` is mounting under `p + q` |
| Routing.Router.constructor | src/index.ts:45 | a new router has no layers |
| Routing.Router.Use | src/index.ts:61 | `use` appends the middleware layers and changes nothing else |
| Routing.Router.Mount | src/index.ts:83 | mounting appends the sub-router's prefixed layers and changes nothing else |
| Routing.Router.Register | src/index.ts:138 | a verb method appends exactly one route with the given chain and final step |
| Compiler.Pres | src/index.ts:124 | the pre chain holds one step per `pre` middleware, in order |
| Compiler.CompileFile | src/index.ts:86-154 | one file entry changes the router's stack, the memo and the log exactly as the file step of `CompileDir` does |
| Compiler.RoutesOfPath | src/index.ts:44-181 | the loop leaves the router's stack, memo, doc link and log equal to `CompileDir` of the directory |
| RouteTreeSpec.Lift | src/index.ts:79-84 | a sub-directory's sites, seen from the parent, gain the parent's META first in their chain and the mount segment at the front of their path |
| RouteTreeSpec.LiftedSiteDef | src/index.ts:62-107 | a lifted site's definition is the one compiled inside the sub-directory with the parent's META plugins before the inherited list |
| RouteTreeSpec.LiftedSite | src/index.ts:79-83 | a lifted site's route is its sub-directory route mounted under the segment |
| RouteTreeSpec.LiftedSummary | src/index.ts:79-123 | a lifted site's summary is the one pushed inside the sub-directory, unchanged on its way up |
| RouteTreeSpec.SummariesSkipOwn | src/index.ts:161-175 | a directory with META passes no summaries of its sites upward; one without META passes the same summaries as the walk gathered |
| RouteTreeSpec.FileStepIsSite | src/index.ts:86-154 | `FileStep`: a file entry adds exactly its site's route, summary and logged error to the stack, the memo and the log |
| RouteTreeSpec.FileAgrees | src/index.ts:86-154 | after a visible file entry the state still agrees with the sites listed so far, the file's site appended |
| RouteTreeSpec.SubDirAgrees | src/index.ts:77-84 | `MountStep`: after mounting a compiled sub-directory the state agrees with the earlier sites followed by the sub-directory's sites, lifted |
| RouteTreeSpec.EntryAgrees | src/index.ts:72-156 | `EntryStep`: every kind of listing entry, a `_` one included, keeps the state in agreement with the sites listed so far |
| RouteTreeSpec.WalkStep | src/index.ts:72-156 | one more entry of the listing keeps the entry loop's invariant |
| RouteTreeSpec.WalkMatchesSites | src/index.ts:72-156 | `Walk`: after any prefix of the listing, the endpoint routes, memo and log agree with the sites of that prefix |
| RouteTreeSpec.CompileMatchesSites | src/index.ts:44-181 | `CompileDir`: a compiled directory's endpoint routes, upward memo and log are exactly those of its sites, in depth-first listing order |
| RouteTreeSpec.DocPageLists | src/index.ts:161-169 | with META, the router's last layer serves a doc page listing the summaries of all accepted sites below the directory with no nearer META |
| CompilerFacts.RouterMethodsUpper | src/index.ts:95 | every method in the router's list is an upper-case ASCII word |
| CompilerFacts.RouterMethodsLower | src/index.ts:95-97 | the router's methods lower-case to `head`, `options`, `get`, `put`, `patch`, `post`, `delete` |
| CompilerFacts.VerbOfToken | src/index.ts:94-97 | an accepted token lower-cases to one of those verbs, and to `post` exactly when it upper-cases to `POST` |
| CompilerFacts.AcceptedVerb | src/index.ts:86-97 | `Classify`: an accepted file's verb is a lower-case router method, is `post` exactly for `POST`, and its token is the `#`-free start of the file name |
| CompilerFacts.ClassifyNamed | src/index.ts:86-95 | `Classify`: a file `a#b.ext` with a resolvable extension is an endpoint with token `a` and name `b` when the router knows `a` in upper case, and is reported otherwise |
| CompilerFacts.PreChainShape | src/index.ts:124-127 | `PreChain`: the pre chain is the `pre` list followed by the body parser for `post` and by nothing for any other verb; the parser never appears earlier |
| CompilerFacts.SummaryFields | src/index.ts:114-123 | `Summary`: a summary holds the four examples under keys no extra field can take; extra fields override `name`, `method` and `path` and appear unchanged |
| CompilerFacts.CompileDirDoc | src/index.ts:161-180 | `Finish`: a doc is returned exactly when META loads, at `parent + "/api.doc"`, with an empty memo upward and a last route serving the gathered memo; without META the walk's layers and memo are returned as they are |
| CompilerFacts.EntrySubDocs | src/index.ts:79-82 | one entry adds to `subDocs` the doc link of a visible sub-directory with META, and nothing otherwise |
| CompilerFacts.HiddenEntrySkipped | src/index.ts:73-75 | `IsHidden`: an entry is hidden exactly when its name starts with `_`; a hidden entry, file or directory, leaves the state as it was and has no site; a visible file is compiled by the file step as a site of its own |
| CompilerFacts.NotAllowedNames | src/index.ts:153 | `NotAllowed`: the logged error is `Method [`, the token, `] is not allowed. ` and the entry name, in that order |
| CompilerFacts.NotAllowedInjective | src/index.ts:153 | for one entry, two logged errors are equal exactly when their tokens are |
| CompilerFacts.PathNameBelowMount | src/index.ts:96 | `PathName`: the reported path is never empty and is the parent path when there is one; only the top call reports `/`, and below a mount it is the full mounted path |
| CompilerFacts.WalkKeepsPrologue | src/index.ts:58-84 | the entry loop only appends to the router: the META's `use` layers stay at the bottom of the stack |
| CompilerFacts.MetaUseFirst | src/index.ts:58-61 | `Start`: a directory whose META loads has that META's `pre` middleware, in order, as the first layers of its router |
| CompilerFacts.SubMetaMounted | src/index.ts:58-83 | `MountStep`: a visible sub-directory's META middleware appears in the parent's stack right after the layers already there, each under the sub-directory's mount segment |
| CompilerFacts.WalkSubDocs | src/index.ts:80-82 | `subDocs` lists, in listing order, one link per visible sub-directory with a META, pointing at its doc page |
| CompilerFacts.ChainPluginsNearestFirst | src/index.ts:62 | a META one level further down contributes its plugins before all the ones above it |
| CompilerFacts.SitePluginOrder | src/index.ts:99-107 | `Enhance`: an endpoint's definition is its module through its own plugins, then the META plugins nearest first, then the top-level list, each seeing the same `{ method, name, path }` |
| CompilerFacts.SitesHashFree | src/index.ts:78-79 | no mount path below a directory holds a `#` |
| CompilerFacts.ExpectedRoutesFrom | src/index.ts:95-138 | every expected route is the route of some accepted site |
| CompilerFacts.EndpointRoutesWellFormed | src/index.ts:78-138 | every endpoint route of a compiled directory has a lower-case router verb and a `#`-free path ending in `/` |
| Koact.Koact | src/index.ts:183-189 | `koact` returns the root compilation's layers and log; its endpoint routes are those of all accepted files of the tree; its log names every file with an unknown method; with a root META its last layer serves the root doc page |
| Koact.ResolvesDefault | src/index.ts:185-188 | `Resolves`: without a `resolves` option exactly the `.js`, `.ts` and `.node` files are resolvable; a given list is used as it is |
| Scenarios.ParamDirectory | src/index.ts:78 | the `#id` directory is mounted as `/:id` |
| Scenarios.GatewayFile | src/index.ts:86-97 | `GET#Gateway.ts` is an endpoint with method token `GET` and name `Gateway` |
| Scenarios.MetaFileSkipped | src/index.ts:90-92 | `META.ts` is never an endpoint |
| Scenarios.VersionedFileRejected | src/index.ts:93-95 | `GET.v2#Get a user.ts` has method token `GET.v2`, which the router does not know, so it is only reported |
| Scenarios.TestPostFile | src/index.ts:86-97 | `POST#Test post.ts` is an endpoint with method token `POST` and name `Test post` |
| Scenarios.DirPluginChain | test/routes/META.ts:5-15 | `AppendDirMw`: under the example root META's plugin, which appends a middleware to `pre` and creates the list when missing, an accepted file's chain is its own `pre` (or none) then that middleware, then the body parser for `POST` |
| Scenarios.GatewayChain | src/index.ts:98-127 | `GET#Gateway.ts`, whose own `pre` holds one middleware, gets the chain `[its own middleware, the directory's middleware]` and no body parser |
| Scenarios.TestPostChain | src/index.ts:98-127 | `POST#Test post.ts`, with no `pre`, gets the chain `[the directory's middleware, body parser]` |
| Scenarios.RootWalk | src/index.ts:72-156 | the entry loop over the two example endpoints registers the gateway route, then the post route, with those chains |
| Scenarios.RootChains | src/index.ts:44-181 | a root that lists only `GET#Gateway.ts` and `POST#Test post.ts`, under the example root's META, has as its stack the two endpoint routes with those chains, then the doc page |
| Scenarios.RootPluginChains | test/routes/META.ts:3-16 | a root that lists only the two fixture modules as written, under the example root's META, gets those two chains |
| Scenarios.NamedPreIgnored | src/index.ts:56-67 | a META module with only a named `pre` export is present but empty: no middleware is used, a doc page is served and no summary goes upward |
| Request.OrEmpty | src/index.ts:146-148 | the `{}` default is always truthy, is `v` when `v` is truthy and `{}` otherwise |
| Request.MergeMultipart | src/index.ts:139-144 | the merge throws a `TypeError` exactly when the body is `undefined` or `null`, and otherwise yields an object |
| Request.Context.constructor | src/index.ts:138 | a request context holds the content type, params, query and body it was made from, with no response body yet |
| Request.HandleRequest | src/index.ts:138-151 | the handler leaves the request body and response as `Serve` says, and on an exception leaves `ctx.body` as it was |
| Request.MergeFilesWin | src/index.ts:140-143 | the merged body has the keys of fields and files, files winning on a shared key, other values kept |
| Request.MergeWithoutParts | src/index.ts:140-143 | a parsed body without `fields` and `files` merges to `{}` |
| Request.NonMultipartUntouched | src/index.ts:139 | `Serve`, `EffectiveBody` and `IsMultipart`: a non-multipart request body is passed through untouched |
| Request.MultipartContentTypes | src/index.ts:139 | `IsMultipart`: the content-type test matches the `multipart` prefix only: a form upload with a boundary is multipart, `application/json` and `text/multipart` are not |
| Request.UnparsedMultipartThrows | src/index.ts:139-143 | `EffectiveBody` and `IsMultipart`: a multipart request whose body nobody parsed ends in a `TypeError` |
| Request.FirstFailureWins | src/index.ts:129-148 | `Respond` and `Validate`: the first of params, query and body to fail validation decides the error, tagged with that phase's name |
| Request.HandlerSeesValidated | src/index.ts:145-150 | `CallHandler`: with all three inputs valid, the handler gets the validated values with falsy ones replaced by `{}`; its own failure passes untagged and its result is validated under `ResValidationError` |
| Request.DefaultHandler | src/index.ts:101 | `CallHandler`'s default: without a handler the response is `undefined`, validated as the response |
| Request.RespondFailures | src/index.ts:129-150 | once the body is merged, an error is a validation error with one of the four tags or the handler's own, never a `TypeError` |
| Request.FailureKinds | src/index.ts:129-150 | `Serve`: every tagged error carries one of the four phase names, and a `TypeError` arises only from a multipart request without a body |

## Left out

- Reading directories, `fs.statSync` and `require` are replaced by the input tree. Listing order is taken as given.
- Endpoint loading is not modelled as failing. In the source, a `require` of an endpoint file that throws, or a plugin that throws, aborts the whole compilation. The model loads every endpoint module and treats every plugin as a total function.
- koa-router internals are not modelled: path matching, `allowedMethods`, `routes()` and the execution of middleware. The router is the ordered stack of layers it is given. Mounting a sub-router is modelled as prepending the prefix to each path, so the normalisation koa-router applies to a trailing `/` is not modelled.
- schema.io is not modelled. Validation is a function the caller supplies, and `example()` is an opaque value.
- koa-body is not modelled. The body parser is an opaque step; the request body it produces is an input of `Request`.
- Console output is not modelled as I/O. `console.error` becomes the log that `Compiler.CompileDir` and `Koact.Koact` return.
- `ToUpper`/`ToLower` map only ASCII letters. JavaScript's full Unicode case mapping is not modelled.
- Koact.Resolves: an `options` object with an explicit `resolves: undefined` is not modelled. The key is either absent (defaults apply) or holds a list.
- Compiler.CompileFile: the body parser is appended to a copy of the `pre` list. The source pushes onto the definition's own array, so a `pre` array shared between endpoints by a plugin would gather one parser per `post` endpoint. That aliasing is not modelled.
- Request.HandleRequest: the handler's `ctx` and `next` arguments, and its asynchrony, are not modelled. The handler is a function of params, query and body that returns a value or fails. Values are reduced to `undefined`, `null`, opaque primitives with a truthiness, and objects; spreading a primitive string into the multipart merge is not modelled.
- API versions, an HTTP 501 reply, doc-secret gating and a `PUT` body parser do not exist in `src/index.ts`; `test/index.ts` passes a `docSecret` option that `koact` never reads. The model follows the code:
  - a name such as `GET.v2#...` simply fails the method check (`Scenarios.VersionedFileRejected`);
  - the body parser is added for `post` only;
  - a META's plugins are placed before the inherited list (src/index.ts:62).
