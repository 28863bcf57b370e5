/** The data the route-tree compiler reads and produces.

    The filesystem and `require` are replaced by an input tree: a directory
    holds the outcome of loading its `META` module and its entries in
    listing order; a file holds the `default` export of its module.
    Middlewares, plugins, schema declarations and handlers are opaque
    identities; what a plugin does is a function supplied by the caller. */
module Definitions {
  import opened Wrappers

  type Middleware = nat
  type PluginId = nat
  type SchemaDecl = nat
  type HandlerId = nat

  /** A value held in a definition's or a META's remaining fields, or in an
      endpoint summary. */
  datatype Value =
    | Undefined
    | Str(s: string)
    | Example(schema: Option<SchemaDecl>)   // `new Schema(decl).example()`
    | Opaque(id: nat)

  type Fields = map<string, Value>

  /** The keys `routesOfPath` destructures out of an enhanced definition. */
  const DefinitionKeys: set<string> := {"params", "query", "body", "res", "handler", "pre"}

  /** What is left of a definition after destructuring: `...others`. */
  type Extras = m: Fields | m.Keys !! DefinitionKeys witness map[]

  /** `IAPIBase`: an endpoint definition as plugins receive and return it.
      `pre` stays absent (`None`) until the destructuring after the last
      plugin turns it into the empty list, so a plugin can tell a missing
      `pre` from an empty one. */
  datatype ApiDef = ApiDef(
    params: Option<SchemaDecl>,
    query: Option<SchemaDecl>,
    body: Option<SchemaDecl>,
    res: Option<SchemaDecl>,
    handler: Option<HandlerId>,
    pre: Option<seq<Middleware>>,
    others: Extras)

  const EmptyDef := ApiDef(None, None, None, None, None, None, map[])

  /** The `default` export of an endpoint file (`IAPI`): its own plugins
      (`api.plugins || []`) and the rest of the object. */
  datatype ApiModule = ApiModule(plugins: seq<PluginId>, def: ApiDef)

  /** `{ method, name, path }`, the second argument of every plugin. */
  datatype PluginInfo = PluginInfo(verb: string, name: Option<string>, path: string)

  /** What a plugin does to a definition. */
  type PluginSemantics = (PluginId, ApiDef, PluginInfo) -> ApiDef

  /** The `default` export of a META module (`IMeta`): `pre` (absent is
      empty), `plugins` (`others.plugins || []`) and its other keys. */
  datatype MetaModule = MetaModule(pre: seq<Middleware>, plugins: seq<PluginId>, fields: Fields)

  /** The outcome of `require(<dir>/META)`: it throws (no such module, or
      any other load error), or it yields a module whose `default` export
      may be missing. */
  datatype MetaLoad = LoadFails | Loaded(default: Option<MetaModule>)

  /** A loaded META: the middleware the directory's router uses, the plugins
      it contributes, and the record served as `meta` (`IMetaBase`). */
  datatype Meta = Meta(pre: seq<Middleware>, plugins: seq<PluginId>, base: Fields)

  /** A directory and its entries in `readdirSync` order. */
  datatype Dir = Dir(meta: MetaLoad, entries: seq<Entry>)

  datatype Entry =
    | SubDir(link: string, dir: Dir)
    | File(link: string, loaded: Option<ApiModule>)

  /** The META block of `routesOfPath`: `default || {}`, `pre` split off by
      destructuring, `plugins` deleted; any exception makes META absent. */
  function LoadMeta(m: MetaLoad): (r: Option<Meta>)
    ensures r.Some? <==> m.Loaded?
    ensures m == Loaded(None) ==> r == Some(Meta([], [], map[]))
    ensures r.Some? ==> "pre" !in r.value.base && "plugins" !in r.value.base
    ensures m.Loaded? && m.default.Some? ==>
      var mm := m.default.value;
      r.value.pre == mm.pre && r.value.plugins == mm.plugins &&
      r.value.base.Keys == mm.fields.Keys - {"pre", "plugins"} &&
      forall k :: k in r.value.base ==> r.value.base[k] == mm.fields[k]
  {
    match m
    case LoadFails => None
    case Loaded(None) => Some(Meta([], [], map[]))
    case Loaded(Some(mm)) => Some(Meta(mm.pre, mm.plugins, mm.fields - {"pre", "plugins"}))
  }

  /** `require(fullLink).default || {}` with its `plugins` read and then
      deleted from the object. */
  function LoadApi(m: Option<ApiModule>): (r: ApiModule)
    ensures "plugins" !in r.def.others
    ensures m.None? ==> r == ApiModule([], EmptyDef)
    ensures m.Some? ==> r.plugins == m.value.plugins && r.def.(others := m.value.def.others) == m.value.def
    ensures m.Some? ==>
      r.def.others.Keys == m.value.def.others.Keys - {"plugins"} &&
      forall k :: k in r.def.others ==> r.def.others[k] == m.value.def.others[k]
  {
    match m
    case None => ApiModule([], EmptyDef)
    case Some(am) => ApiModule(am.plugins, am.def.(others := am.def.others - {"plugins"}))
  }

  // ---------------------------------------------------------------------------
  // What the compiler produces

  /** The validation and handler step of an endpoint route. A missing
      handler is the default `async () => undefined`. */
  datatype Endpoint = Endpoint(
    params: Option<SchemaDecl>,
    query: Option<SchemaDecl>,
    body: Option<SchemaDecl>,
    res: Option<SchemaDecl>,
    handler: Option<HandlerId>)

  /** A middleware placed before a route's final step. */
  datatype Step = Pre(mw: Middleware) | BodyParser   // `bodyParser({ multipart: true })`

  /** `{ meta, path }`: where a directory's documentation is served. */
  datatype DocLink = DocLink(meta: Fields, path: string)

  /** The body of `GET /api.doc`: `{ meta, apis, subDocs }`. */
  datatype DocBody = DocBody(meta: Fields, apis: seq<Fields>, subDocs: seq<DocLink>)

  datatype Final = Handle(endpoint: Endpoint) | ServeDoc(doc: DocBody)

  /** One entry of a router's stack. Paths are relative to the router;
      mounting a router under a prefix prepends the prefix. */
  datatype Layer =
    | Use(path: string, mw: Middleware)
    | Route(verb: string, path: string, chain: seq<Step>, final: Final)
}
