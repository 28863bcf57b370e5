/** The example tree shipped with the project, file by file: what the
    compiler does with each name in it under the default options. */
module Scenarios {
  import opened Wrappers
  import opened Text
  import opened Definitions
  import opened Plugins
  import opened Compiler
  import opened Koact
  import opened CompilerFacts

  /** `GET#Gateway.ts` is served as `GET /` named `Gateway`. */
  lemma GatewayFile()
    ensures Classify(GatewayLink, DefaultResolves) == EndpointFile("GET", Some("Gateway"))
  {
    GetIsMethod();
    ClassifyNamed("GET", "Gateway", ".ts", DefaultResolves);
  }

  lemma GetIsMethod()
    ensures ToUpper("GET") == RouterMethods[2]
  {
    assert ToUpper("GET") == "GET";
  }

  /** `META.ts` is read as the directory's META, never as an endpoint. */
  lemma MetaFileSkipped()
    ensures Classify("META.ts", DefaultResolves) == MetaFile
  {
    ParseJoined("META", ".ts");
    assert "META" + ".ts" == "META.ts";
  }

  /** `GET.v2#Get a user.ts`: the method token is `GET.v2`, which the router
      does not know, so the file is only reported. */
  lemma VersionedFileRejected()
    ensures Classify("GET.v2" + "#" + "Get a user" + ".ts", DefaultResolves) == BadMethod("GET.v2")
  {
    ClassifyNamed("GET.v2", "Get a user", ".ts", DefaultResolves);
    ToUpperAt("GET.v2");
    assert ToUpper("GET.v2")[3] == '.';
    RouterMethodsUpper();
  }

  /** The `#id` directory is mounted as the path parameter `/:id`. */
  lemma ParamDirectory()
    ensures MountSegment("#id") == "/:id"
  {
  }

  /** A META module with only a named `pre` export and no `default`, as
      in the `v1` directory: the META is present but empty, so no
      middleware is used, the directory still serves its doc page, and it
      passes no summaries upward. */
  lemma NamedPreIgnored(es: seq<Entry>, plugins: seq<PluginId>, parent: string, resolves: seq<string>, run: PluginSemantics)
    ensures var d := Dir(Loaded(None), es);
      var c := CompileDir(d, plugins, parent, resolves, run);
      Walk(d, 0, plugins, parent, resolves, run) == Acc([], [], [], []) &&
      c.doc == Some(DocLink(map[], parent + "/api.doc")) && c.memo == []
  {
    CompileDirDoc(Dir(Loaded(None), es), plugins, parent, resolves, run);
  }

  // ---------------------------------------------------------------------------
  // The root of the example tree: its META plugin appends a middleware to
  // every endpoint's `pre`, creating the list when the endpoint has none.

  const DirMw: Middleware := 1     // the middleware the root META's plugin appends
  const FileMw: Middleware := 2    // `GET#Gateway.ts`'s own `pre` middleware
  const DirPlugin: PluginId := 0

  const GatewayLink: string := "GET" + "#" + "Gateway" + ".ts"
  const TestPostLink: string := "POST" + "#" + "Test post" + ".ts"

  /** The root META's plugin: `if (!api.pre) api.pre = []; api.pre.push(...)`. */
  function AppendDirMw(p: PluginId, def: ApiDef, info: PluginInfo): ApiDef {
    def.(pre := Some(def.pre.GetOr([]) + [DirMw]))
  }

  /** `GET#Gateway.ts`: a query and a response schema, a handler and its own `pre`. */
  function Gateway(query: SchemaDecl, res: SchemaDecl, h: HandlerId): ApiModule {
    ApiModule([], ApiDef(None, Some(query), None, Some(res), Some(h), Some([FileMw]), map[]))
  }

  /** `POST#Test post.ts`: a body schema and a handler, no `pre`. */
  function TestPost(body: SchemaDecl, h: HandlerId): ApiModule {
    ApiModule([], ApiDef(None, None, Some(body), None, Some(h), None, map[]))
  }

  function RootMeta(fields: Fields): MetaLoad {
    Loaded(Some(MetaModule([], [DirPlugin], fields)))
  }

  /** Under the root META's plugin, an accepted file without plugins of its
      own gets its `pre` list (or none) followed by the directory's
      middleware, then the body parser for `POST`. */
  lemma DirPluginChain(acc: Acc, link: string, g: ApiModule, token: string, name: Option<string>)
    requires Classify(link, DefaultResolves) == EndpointFile(token, name)
    requires g.plugins == []
    ensures var a := FileStep(acc, link, Some(g), [DirPlugin], "", DefaultResolves, AppendDirMw);
      |a.layers| == |acc.layers| + 1 && a.layers[..|acc.layers|] == acc.layers &&
      a.layers[|acc.layers|].Route? &&
      a.layers[|acc.layers|].chain == Pres(g.def.pre.GetOr([]) + [DirMw]) + (if ToUpper(token) == "POST" then [BodyParser] else [])
  {
    var info := PluginInfo(ToUpper(token), name, PathName(""));
    var api := LoadApi(Some(g));
    assert api.plugins + [DirPlugin] == [] + [DirPlugin];
    ApplyLast([], DirPlugin, api.def, info, AppendDirMw);
    assert Enhance(Some(g), [DirPlugin], info, AppendDirMw).pre == Some(g.def.pre.GetOr([]) + [DirMw]);
    VerbOfToken(token);
  }

  /** The gateway keeps its own middleware first and gets the directory's after it. */
  lemma GatewayChain(acc: Acc, link: string, g: ApiModule)
    requires link == GatewayLink
    requires g.plugins == [] && g.def.pre == Some([FileMw])
    ensures var a := FileStep(acc, link, Some(g), [DirPlugin], "", DefaultResolves, AppendDirMw);
      |a.layers| == |acc.layers| + 1 && a.layers[..|acc.layers|] == acc.layers &&
      a.layers[|acc.layers|].Route? && a.layers[|acc.layers|].chain == [Pre(FileMw), Pre(DirMw)]
  {
    GatewayFile();
    GetIsNotPost();
    DirPluginChain(acc, link, g, "GET", Some("Gateway"));
    PresTwo(FileMw, DirMw);
  }

  lemma PresTwo(a: Middleware, b: Middleware)
    ensures Pres([a] + [b]) + [] == [Pre(a), Pre(b)]
  {
    var ps := Pres([a] + [b]);
    assert ps[0] == Pre(a) && ps[1] == Pre(b);
  }

  lemma PresOne(a: Middleware)
    ensures Pres([] + [a]) + [BodyParser] == [Pre(a), BodyParser]
  {
    var ps := Pres([] + [a]);
    assert ps[0] == Pre(a);
  }

  lemma GetIsNotPost()
    ensures ToUpper("GET") != "POST"
  {
    GetIsMethod();
    assert |RouterMethods[2]| != |"POST"|;
  }

  /** The post endpoint has no `pre` of its own: the plugin creates the list
      with the directory's middleware, and the body parser follows it. */
  lemma TestPostChain(acc: Acc, link: string, t: ApiModule)
    requires link == TestPostLink
    requires t.plugins == [] && t.def.pre.None?
    ensures var a := FileStep(acc, link, Some(t), [DirPlugin], "", DefaultResolves, AppendDirMw);
      |a.layers| == |acc.layers| + 1 && a.layers[..|acc.layers|] == acc.layers &&
      a.layers[|acc.layers|].Route? && a.layers[|acc.layers|].chain == [Pre(DirMw), BodyParser]
  {
    TestPostFile();
    DirPluginChain(acc, link, t, "POST", Some("Test post"));
    PresOne(DirMw);
  }

  /** `POST#Test post.ts` is served as `POST /` named `Test post`. */
  lemma TestPostFile()
    ensures ToUpper("POST") == "POST"
    ensures Classify(TestPostLink, DefaultResolves) == EndpointFile("POST", Some("Test post"))
  {
    assert ToUpper("POST") == "POST";
    ClassifyNamed("POST", "Test post", ".ts", DefaultResolves);
    assert RouterMethods[5] == "POST";
  }

  /** A visible file entry is compiled by the file step. */
  lemma VisibleFileStep(acc: Acc, e: Entry, plugins: seq<PluginId>, parent: string, resolves: seq<string>, run: PluginSemantics)
    requires e.File? && !IsHidden(e.link)
    ensures EntryStep(acc, e, plugins, parent, resolves, run) == FileStep(acc, e.link, e.loaded, plugins, parent, resolves, run)
  {
  }

  /** The entry loop over the gateway and the post endpoint, under the root
      META's plugin: the gateway's route with `[file, dir]` middleware, then
      the post route with `[dir, body parser]`. */
  lemma RootWalk(d: Dir, fields: Fields, g: ApiModule, t: ApiModule)
    requires d.meta == RootMeta(fields)
    requires d.entries == [File(GatewayLink, Some(g)), File(TestPostLink, Some(t))]
    requires g.plugins == [] && g.def.pre == Some([FileMw])
    requires t.plugins == [] && t.def.pre.None?
    ensures var w := Walk(d, 2, [DirPlugin], "", DefaultResolves, AppendDirMw);
      |w.layers| == 2 &&
      w.layers[0].Route? && w.layers[0].chain == [Pre(FileMw), Pre(DirMw)] &&
      w.layers[1].Route? && w.layers[1].chain == [Pre(DirMw), BodyParser]
  {
    var w0 := Walk(d, 0, [DirPlugin], "", DefaultResolves, AppendDirMw);
    assert w0.layers == [];
    var w1 := Walk(d, 1, [DirPlugin], "", DefaultResolves, AppendDirMw);
    assert GatewayLink[0] == 'G';
    VisibleFileStep(w0, d.entries[0], [DirPlugin], "", DefaultResolves, AppendDirMw);
    GatewayChain(w0, d.entries[0].link, g);
    assert TestPostLink[0] == 'P';
    VisibleFileStep(w1, d.entries[1], [DirPlugin], "", DefaultResolves, AppendDirMw);
    TestPostChain(w1, d.entries[1].link, t);
  }

  /** A root listing only `GET#Gateway.ts` and `POST#Test post.ts` under
      the example root's META: the META uses no middleware of its own, so
      the stack is the two endpoint routes followed by the doc page. The
      example tree's sub-directories, which add mounted layers, are not in
      this listing. */
  lemma RootChains(d: Dir, fields: Fields, g: ApiModule, t: ApiModule)
    requires d.meta == RootMeta(fields)
    requires d.entries == [File(GatewayLink, Some(g)), File(TestPostLink, Some(t))]
    requires g.plugins == [] && g.def.pre == Some([FileMw])
    requires t.plugins == [] && t.def.pre.None?
    ensures var c := CompileDir(d, [], "", DefaultResolves, AppendDirMw);
      |c.layers| == 3 &&
      c.layers[0].Route? && c.layers[0].chain == [Pre(FileMw), Pre(DirMw)] &&
      c.layers[1].Route? && c.layers[1].chain == [Pre(DirMw), BodyParser] &&
      c.layers[2].Route? && c.layers[2].final.ServeDoc?
  {
    assert Inherit(LoadMeta(d.meta), []) == [DirPlugin];
    RootWalk(d, fields, g, t);
  }

  /** A root listing only `GET#Gateway.ts` and `POST#Test post.ts`, with
      the two fixture modules as written, under the example root's META. */
  lemma RootPluginChains(fields: Fields, query: SchemaDecl, res: SchemaDecl, body: SchemaDecl, h1: HandlerId, h2: HandlerId)
    ensures var d := Dir(RootMeta(fields), [File(GatewayLink, Some(Gateway(query, res, h1))),
                                            File(TestPostLink, Some(TestPost(body, h2)))]);
      var c := CompileDir(d, [], "", DefaultResolves, AppendDirMw);
      |c.layers| == 3 && c.layers[0].Route? && c.layers[0].chain == [Pre(FileMw), Pre(DirMw)] &&
      c.layers[1].Route? && c.layers[1].chain == [Pre(DirMw), BodyParser]
  {
    var d := Dir(RootMeta(fields), [File(GatewayLink, Some(Gateway(query, res, h1))),
                                    File(TestPostLink, Some(TestPost(body, h2)))]);
    RootChains(d, fields, Gateway(query, res, h1), TestPost(body, h2));
  }
}
