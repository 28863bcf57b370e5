/** `routesOfPath`: the recursive route-tree compiler.

    `CompileDir` and `Walk` say what one call computes: `Walk(d, n, ...)` is
    the state after the first `n` entries of the listing, `CompileDir` adds
    the META prologue and the documentation epilogue. `RoutesOfPath` is the
    compiler as the source writes it, a loop over the listing that updates a
    router, the memo, the sub-document list and the plugin list, and it is
    proved to compute `CompileDir`. */
module Compiler {
  import opened Wrappers
  import opened Text
  import opened Definitions
  import opened Plugins
  import opened Routing

  /** koa-router's default `router.methods`. */
  const RouterMethods: seq<string> := ["HEAD", "OPTIONS", "GET", "PUT", "PATCH", "POST", "DELETE"]

  /** How a file entry that is not `_`-prefixed is treated. */
  datatype FileKind =
    | NotResolvable                                       // extension not in `options.resolves`
    | MetaFile                                            // base name `META`
    | BadMethod(token: string)                            // method check fails: an error is logged
    | EndpointFile(token: string, name: Option<string>)   // compiled into a route

  function Classify(link: string, resolves: seq<string>): FileKind {
    var (name, ext) := ParsePath(link);
    if ext !in resolves then NotResolvable
    else if name == "META" then MetaFile
    else
      var token := MethodToken(name);
      if ToUpper(token) in RouterMethods then EndpointFile(token, DisplayName(name))
      else BadMethod(token)
  }

  /** `console.error` for a file whose method is not allowed. */
  function NotAllowed(token: string, link: string): string {
    "Method [" + token + "] is not allowed. " + link
  }

  /** `parent || '/'`: the path endpoints report to plugins and in summaries. */
  function PathName(parent: string): string {
    if parent == "" then "/" else parent
  }

  function NameValue(n: Option<string>): Value {
    if n.Some? then Str(n.value) else Undefined
  }

  /** The endpoint summary pushed to the memo: name, lower-case method, path
      and the four schema examples, then the definition's remaining fields
      spread over them. */
  function Summary(name: Option<string>, lmethod: string, pathname: string, def: ApiDef): Fields {
    map["name" := NameValue(name), "method" := Str(lmethod), "path" := Str(pathname),
        "params" := Example(def.params), "query" := Example(def.query),
        "body" := Example(def.body), "res" := Example(def.res)]
    + def.others
  }

  function Pres(mws: seq<Middleware>): (r: seq<Step>)
    ensures |r| == |mws| && forall i :: 0 <= i < |mws| ==> r[i] == Pre(mws[i])
  {
    seq(|mws|, i requires 0 <= i < |mws| => Pre(mws[i]))
  }

  /** The middleware before an endpoint's handler: its `pre` list (`pre = []`
      when the definition has none), with the multipart body parser
      appended for `post`. */
  function PreChain(pre: seq<Middleware>, lmethod: string): seq<Step> {
    Pres(pre) + (if lmethod == "post" then [BodyParser] else [])
  }

  function EndpointOf(def: ApiDef): Endpoint {
    Endpoint(def.params, def.query, def.body, def.res, def.handler)
  }

  /** The definition an endpoint is compiled from. */
  function Enhance(loaded: Option<ApiModule>, plugins: seq<PluginId>, info: PluginInfo, run: PluginSemantics): ApiDef {
    var api := LoadApi(loaded);
    ApplyPlugins(api.plugins + plugins, api.def, info, run)
  }

  /** The state threaded through the entry loop. */
  datatype Acc = Acc(layers: seq<Layer>, memo: seq<Fields>, subDocs: seq<DocLink>, diags: seq<string>)

  /** What one call returns: the router's stack, the memo passed upward, the
      doc link, and the errors logged (in logging order). */
  datatype Compiled = Compiled(layers: seq<Layer>, memo: seq<Fields>, doc: Option<DocLink>, diags: seq<string>)

  function Start(meta: Option<Meta>): Acc {
    Acc(if meta.Some? then UseLayers(meta.value.pre) else [], [], [], [])
  }

  /** A compiled sub-directory mounted under `seg`. */
  function MountStep(acc: Acc, seg: string, c: Compiled): Acc {
    Acc(acc.layers + Prefixed(seg, c.layers),
        acc.memo + c.memo,
        acc.subDocs + (if c.doc.Some? then [c.doc.value] else []),
        acc.diags + c.diags)
  }

  /** One file entry. */
  function FileStep(acc: Acc, link: string, loaded: Option<ApiModule>, plugins: seq<PluginId>,
                    parent: string, resolves: seq<string>, run: PluginSemantics): Acc
  {
    match Classify(link, resolves)
    case NotResolvable => acc
    case MetaFile => acc
    case BadMethod(token) => acc.(diags := acc.diags + [NotAllowed(token, link)])
    case EndpointFile(token, name) =>
      var pathname := PathName(parent);
      var lmethod := ToLower(token);
      var def := Enhance(loaded, plugins, PluginInfo(ToUpper(token), name, pathname), run);
      acc.(layers := acc.layers + [Route(lmethod, "/", PreChain(def.pre.GetOr([]), lmethod), Handle(EndpointOf(def)))],
           memo := acc.memo + [Summary(name, lmethod, pathname, def)])
  }

  /** The `forEach` callback for one listing entry: a `_` entry is
      skipped, a sub-directory is compiled and mounted, a file is compiled
      in place. `plugins` is the list after META. */
  function EntryStep(acc: Acc, e: Entry, plugins: seq<PluginId>, parent: string, resolves: seq<string>, run: PluginSemantics): Acc
    decreases e, 2
  {
    if IsHidden(e.link) then acc
    else match e
      case SubDir(link, sub) =>
        var seg := MountSegment(link);
        MountStep(acc, seg, CompileDir(sub, plugins, parent + seg, resolves, run))
      case File(link, loaded) =>
        FileStep(acc, link, loaded, plugins, parent, resolves, run)
  }

  /** The state after the first `n` entries; `plugins` is the list after META. */
  function Walk(d: Dir, n: nat, plugins: seq<PluginId>, parent: string, resolves: seq<string>, run: PluginSemantics): Acc
    requires n <= |d.entries|
    decreases d, 0, n
  {
    if n == 0 then Start(LoadMeta(d.meta))
    else EntryStep(Walk(d, n - 1, plugins, parent, resolves, run), d.entries[n - 1], plugins, parent, resolves, run)
  }

  /** The documentation epilogue: with META, serve `/api.doc` and pass an
      empty memo upward; without, pass the memo upward unchanged. */
  function Finish(meta: Option<Meta>, acc: Acc, parent: string): Compiled {
    if meta.Some? then
      Compiled(acc.layers + [Route("get", "/api.doc", [], ServeDoc(DocBody(meta.value.base, acc.memo, acc.subDocs)))],
               [], Some(DocLink(meta.value.base, parent + "/api.doc")), acc.diags)
    else Compiled(acc.layers, acc.memo, None, acc.diags)
  }

  /** `routesOfPath(dir, plugins, parent, options)` as a function. */
  function CompileDir(d: Dir, plugins: seq<PluginId>, parent: string, resolves: seq<string>, run: PluginSemantics): Compiled
    decreases d, 1
  {
    var meta := LoadMeta(d.meta);
    Finish(meta, Walk(d, |d.entries|, Inherit(meta, plugins), parent, resolves, run), parent)
  }

  /** The loop body for a file entry: register the endpoint, or log the
      method error, or skip the file. */
  method CompileFile(router: Router, memo: seq<Fields>, diags: seq<string>, link: string, loaded: Option<ApiModule>,
                     plugins: seq<PluginId>, parent: string, resolves: seq<string>, run: PluginSemantics)
    returns (memo': seq<Fields>, diags': seq<string>)
    modifies router
    ensures var a := FileStep(Acc(old(router.stack), memo, [], diags), link, loaded, plugins, parent, resolves, run);
      router.stack == a.layers && memo' == a.memo && diags' == a.diags
  {
    memo', diags' := memo, diags;
    var (name, ext) := ParsePath(link);
    if ext in resolves && name != "META" {
      var token := MethodToken(name);
      var apiName := DisplayName(name);
      var umethod := ToUpper(token);
      if umethod in RouterMethods {
        assert Classify(link, resolves) == EndpointFile(token, apiName);
        var pathname := PathName(parent);
        var lmethod := ToLower(token);
        var api := LoadApi(loaded);
        var def := ApplyPlugins(api.plugins + plugins, api.def, PluginInfo(umethod, apiName, pathname), run);
        memo' := memo' + [Summary(apiName, lmethod, pathname, def)];
        var preMiddleware := Pres(def.pre.GetOr([]));
        if lmethod == "post" {
          preMiddleware := preMiddleware + [BodyParser];
        }
        assert preMiddleware == PreChain(def.pre.GetOr([]), lmethod);
        router.Register(lmethod, "/", preMiddleware, Handle(EndpointOf(def)));
      } else {
        assert Classify(link, resolves) == BadMethod(token);
        diags' := diags' + [NotAllowed(token, link)];
      }
    } else {
      assert Classify(link, resolves).NotResolvable? || Classify(link, resolves).MetaFile?;
    }
  }

  /** `routesOfPath`, statement by statement. */
  method RoutesOfPath(d: Dir, plugins: seq<PluginId>, parent: string, resolves: seq<string>, run: PluginSemantics)
    returns (router: Router, memo: seq<Fields>, doc: Option<DocLink>, diags: seq<string>)
    decreases d
    ensures fresh(router)
    ensures Compiled(router.stack, memo, doc, diags) == CompileDir(d, plugins, parent, resolves, run)
  {
    router := new Router();
    memo := [];
    diags := [];
    var inherited := plugins;
    var meta := LoadMeta(d.meta);
    if meta.Some? {
      router.Use(meta.value.pre);
      inherited := meta.value.plugins + inherited;
    }
    var subDocs: seq<DocLink> := [];
    var i := 0;
    while i < |d.entries|
      invariant i <= |d.entries|
      invariant inherited == Inherit(meta, plugins)
      invariant Acc(router.stack, memo, subDocs, diags) == Walk(d, i, inherited, parent, resolves, run)
    {
      var e := d.entries[i];
      ghost var before := Acc(router.stack, memo, subDocs, diags);
      if !IsHidden(e.link) {
        match e
        case SubDir(link, sub) =>
          var p := MountSegment(link);
          var subRouter, subMemo, subDoc, subDiags := RoutesOfPath(sub, inherited, parent + p, resolves, run);
          if subDoc.Some? {
            subDocs := subDocs + [subDoc.value];
          }
          router.Mount(p, subRouter.stack);
          memo := memo + subMemo;
          diags := diags + subDiags;
          assert Acc(router.stack, memo, subDocs, diags) == EntryStep(before, e, inherited, parent, resolves, run);
        case File(link, loaded) =>
          memo, diags := CompileFile(router, memo, diags, link, loaded, inherited, parent, resolves, run);
          assert Acc(router.stack, memo, subDocs, diags) == EntryStep(before, e, inherited, parent, resolves, run);
      }
      assert Walk(d, i + 1, inherited, parent, resolves, run) == Acc(router.stack, memo, subDocs, diags);
      i := i + 1;
    }
    if meta.Some? {
      var memoCopy := memo;
      router.Register("get", "/api.doc", [], ServeDoc(DocBody(meta.value.base, memoCopy, subDocs)));
      memo := [];
      doc := Some(DocLink(meta.value.base, parent + "/api.doc"));
    } else {
      doc := None;
    }
  }
}
