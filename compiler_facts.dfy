/** Properties of single steps of the compiler and of the whole walk
    beyond the route/summary correspondence of `RouteTreeSpec`. */
module CompilerFacts {
  import opened Wrappers
  import opened Text
  import opened Definitions
  import opened Plugins
  import opened Routing
  import opened Compiler
  import opened RouteTreeSpec

  /** The router's methods in lower case, index for index. */
  const LowerVerbs: seq<string> := ["head", "options", "get", "put", "patch", "post", "delete"]

  /** A word lower-cases to `l` when its characters do, one by one. */
  lemma LowerWord(w: string, l: string)
    requires |w| == |l| && forall j :: 0 <= j < |w| ==> LowerChar(w[j]) == l[j]
    ensures ToLower(w) == l
  {
    ToLowerAt(w);
  }

  /** Every router method is an upper-case ASCII word. */
  lemma RouterMethodsUpper()
    ensures forall i :: 0 <= i < |RouterMethods| ==> IsUpperWord(RouterMethods[i])
  {
    forall i, j | 0 <= i < |RouterMethods| && 0 <= j < |RouterMethods[i]|
      ensures 'A' <= RouterMethods[i][j] <= 'Z'
    {
    }
  }

  lemma LowerVerbsFirst()
    ensures ToLower("HEAD") == "head" && ToLower("OPTIONS") == "options"
    ensures ToLower("GET") == "get" && ToLower("PUT") == "put"
  {
    LowerWord("HEAD", "head");
    LowerWord("OPTIONS", "options");
    LowerWord("GET", "get");
    LowerWord("PUT", "put");
  }

  lemma LowerVerbsLast()
    ensures ToLower("PATCH") == "patch" && ToLower("POST") == "post" && ToLower("DELETE") == "delete"
  {
    LowerWord("PATCH", "patch");
    LowerWord("POST", "post");
    LowerWord("DELETE", "delete");
  }

  /** The router's methods lower-case to `LowerVerbs`, index for index. */
  lemma RouterMethodsLower()
    ensures |RouterMethods| == |LowerVerbs|
    ensures forall i :: 0 <= i < |RouterMethods| ==> ToLower(RouterMethods[i]) == LowerVerbs[i]
  {
    LowerVerbsFirst();
    LowerVerbsLast();
  }

  /** A token the router accepts lower-cases to one of its verbs, and to
      `post` exactly when it upper-cases to `POST`. */
  lemma VerbOfToken(token: string)
    requires ToUpper(token) in RouterMethods
    ensures ToLower(token) in LowerVerbs
    ensures ToLower(token) == "post" <==> ToUpper(token) == "POST"
  {
    var w := ToUpper(token);
    RouterMethodsUpper();
    RouterMethodsLower();
    var i :| 0 <= i < |RouterMethods| && RouterMethods[i] == w;
    UpperMatchesWord(token, w);
    assert ToLower(token) == LowerVerbs[i];
    UpperMatchesWord(token, RouterMethods[5]);
  }

  /** An accepted file's route verb is a router method in lower case; the
      verb is `post` exactly when the upper-cased token is `POST`; and the
      token is the `#`-free start of the file name. */
  lemma AcceptedVerb(link: string, resolves: seq<string>)
    requires Classify(link, resolves).EndpointFile?
    ensures var token := Classify(link, resolves).token;
      ToLower(token) in LowerVerbs &&
      (ToLower(token) == "post" <==> ToUpper(token) == "POST") &&
      '#' !in token && |token| <= |link| && link[..|token|] == token
  {
    var (name, ext) := ParsePath(link);
    var token := MethodToken(name);
    assert Classify(link, resolves).token == token;
    VerbOfToken(token);
    assert link[..|name|] == name;
    assert link[..|token|] == name[..|token|];
  }

  /** A file `a#b.ext`, with `#`-free parts and a resolvable one-dot
      extension, is an endpoint with method token `a` and display name `b`
      when the router knows `a` in upper case, and is reported otherwise. */
  lemma ClassifyNamed(a: string, b: string, ext: string, resolves: seq<string>)
    requires '#' !in a && '#' !in b
    requires ext != [] && ext[0] == '.' && forall i :: 0 < i < |ext| ==> ext[i] != '.'
    requires ext in resolves
    ensures Classify(a + "#" + b + ext, resolves)
      == if ToUpper(a) in RouterMethods then EndpointFile(a, Some(b)) else BadMethod(a)
  {
    var name := a + "#" + b;
    assert (name + ext)[|a|] == '#';
    ParseJoined(name, ext);
    HashNameParts(a, b);
    assert name != "META" by {
      assert name[|a|] == '#';
    }
  }

  /** The pre chain is the endpoint's `pre` list with the body parser after
      it for `post` and for no other verb. */
  lemma PreChainShape(pre: seq<Middleware>, lmethod: string)
    ensures var c := PreChain(pre, lmethod);
      c[..|pre|] == Pres(pre) && BodyParser !in c[..|pre|] &&
      (lmethod == "post" ==> c == Pres(pre) + [BodyParser]) &&
      (lmethod != "post" ==> c == Pres(pre))
  {
    var c := PreChain(pre, lmethod);
    assert c[..|pre|] == Pres(pre);
    assert forall i :: 0 <= i < |pre| ==> Pres(pre)[i] != BodyParser;
  }

  /** A summary holds the four examples under their own keys, which no
      extra field can override; extra fields override `name`, `method` and
      `path` and appear unchanged. */
  lemma SummaryFields(name: Option<string>, lmethod: string, pathname: string, def: ApiDef)
    ensures var r := Summary(name, lmethod, pathname, def);
      r.Keys == {"name", "method", "path", "params", "query", "body", "res"} + def.others.Keys &&
      r["params"] == Example(def.params) && r["query"] == Example(def.query) &&
      r["body"] == Example(def.body) && r["res"] == Example(def.res) &&
      r["name"] == (if "name" in def.others then def.others["name"] else NameValue(name)) &&
      r["method"] == (if "method" in def.others then def.others["method"] else Str(lmethod)) &&
      r["path"] == (if "path" in def.others then def.others["path"] else Str(pathname)) &&
      (forall k :: k in def.others ==> r[k] == def.others[k])
  {
    assert "params" !in def.others && "query" !in def.others && "body" !in def.others && "res" !in def.others;
  }

  /** A directory returns a doc exactly when its META loads; then the doc
      points at `parent + "/api.doc"`, the last layer serves the memo the
      walk gathered, and the memo returned upward is empty. Without META
      the walk's layers and memo are returned as they are. */
  lemma CompileDirDoc(d: Dir, plugins: seq<PluginId>, parent: string, resolves: seq<string>, run: PluginSemantics)
    ensures var c := CompileDir(d, plugins, parent, resolves, run);
      var w := Walk(d, |d.entries|, Inherit(LoadMeta(d.meta), plugins), parent, resolves, run);
      (c.doc.Some? <==> d.meta.Loaded?) &&
      (d.meta.Loaded? ==>
         c.doc == Some(DocLink(LoadMeta(d.meta).value.base, parent + "/api.doc")) && c.memo == [] &&
         c.layers == w.layers + [Route("get", "/api.doc", [], ServeDoc(DocBody(c.doc.value.meta, w.memo, w.subDocs)))]) &&
      (d.meta.LoadFails? ==> c.memo == w.memo && c.layers == w.layers) &&
      c.diags == w.diags
  {
  }

  /** The doc link a listing entry contributes to `subDocs`. */
  function ChildDoc(e: Entry, parent: string): seq<DocLink> {
    if !IsHidden(e.link) && e.SubDir? && e.dir.meta.Loaded? then
      [DocLink(LoadMeta(e.dir.meta).value.base, parent + MountSegment(e.link) + "/api.doc")]
    else []
  }

  function ChildDocs(es: seq<Entry>, parent: string): seq<DocLink> {
    if es == [] then [] else ChildDocs(es[..|es| - 1], parent) + ChildDoc(es[|es| - 1], parent)
  }

  /** `subDocs` lists, in listing order, one link for each visible
      sub-directory with a META, pointing at that directory's doc page. */
  lemma {:induction false} WalkSubDocs(d: Dir, n: nat, plugins: seq<PluginId>, parent: string,
                                       resolves: seq<string>, run: PluginSemantics)
    requires n <= |d.entries|
    ensures Walk(d, n, plugins, parent, resolves, run).subDocs == ChildDocs(d.entries[..n], parent)
  {
    if n > 0 {
      var m := n - 1;
      var e := d.entries[m];
      var acc := Walk(d, m, plugins, parent, resolves, run);
      WalkSubDocs(d, m, plugins, parent, resolves, run);
      assert d.entries[..n][..m] == d.entries[..m];
      EntrySubDocs(acc, e, plugins, parent, resolves, run);
    }
  }

  /** One entry adds its own doc link, if any, to `subDocs`. */
  lemma EntrySubDocs(acc: Acc, e: Entry, plugins: seq<PluginId>, parent: string, resolves: seq<string>, run: PluginSemantics)
    ensures EntryStep(acc, e, plugins, parent, resolves, run).subDocs == acc.subDocs + ChildDoc(e, parent)
  {
    if !IsHidden(e.link) && e.SubDir? {
      var seg := MountSegment(e.link);
      CompileDirDoc(e.dir, plugins, parent + seg, resolves, run);
      assert parent + seg + "/api.doc" == (parent + seg) + "/api.doc";
    }
  }

  /** An entry only appends to the router's stack. */
  lemma EntryExtends(acc: Acc, e: Entry, plugins: seq<PluginId>, parent: string, resolves: seq<string>, run: PluginSemantics)
    ensures acc.layers <= EntryStep(acc, e, plugins, parent, resolves, run).layers
  {
  }

  /** The layers the META prologue puts first stay first through the walk. */
  lemma {:induction false} WalkKeepsPrologue(d: Dir, n: nat, plugins: seq<PluginId>, parent: string,
                                             resolves: seq<string>, run: PluginSemantics)
    requires n <= |d.entries|
    ensures Start(LoadMeta(d.meta)).layers <= Walk(d, n, plugins, parent, resolves, run).layers
  {
    if n > 0 {
      var m := n - 1;
      WalkKeepsPrologue(d, m, plugins, parent, resolves, run);
      EntryExtends(Walk(d, m, plugins, parent, resolves, run), d.entries[m], plugins, parent, resolves, run);
    }
  }

  /** `router.use(...pre)`: a directory whose META loads starts its stack
      with one router-wide layer per `pre` middleware, in order, before any
      route or mounted sub-router. */
  lemma MetaUseFirst(d: Dir, plugins: seq<PluginId>, parent: string, resolves: seq<string>, run: PluginSemantics)
    requires d.meta.Loaded?
    ensures var pre := LoadMeta(d.meta).value.pre;
      var c := CompileDir(d, plugins, parent, resolves, run);
      |pre| <= |c.layers| && c.layers[..|pre|] == UseLayers(pre)
  {
    var meta := LoadMeta(d.meta);
    WalkKeepsPrologue(d, |d.entries|, Inherit(meta, plugins), parent, resolves, run);
  }

  /** A mounted sub-directory with a META contributes its `pre` middleware
      to the parent's stack, right where its layers begin, as router-wide
      layers under its mount segment. */
  lemma SubMetaMounted(acc: Acc, e: Entry, plugins: seq<PluginId>, parent: string, resolves: seq<string>, run: PluginSemantics)
    requires !IsHidden(e.link) && e.SubDir? && e.dir.meta.Loaded?
    ensures var seg := MountSegment(e.link);
      var pre := LoadMeta(e.dir.meta).value.pre;
      var a := EntryStep(acc, e, plugins, parent, resolves, run);
      |acc.layers| + |pre| <= |a.layers| &&
      forall i :: 0 <= i < |pre| ==> a.layers[|acc.layers| + i] == Use(seg, pre[i])
  {
    var seg := MountSegment(e.link);
    var pre := LoadMeta(e.dir.meta).value.pre;
    var c := CompileDir(e.dir, plugins, parent + seg, resolves, run);
    MetaUseFirst(e.dir, plugins, parent + seg, resolves, run);
    var a := EntryStep(acc, e, plugins, parent, resolves, run);
    assert a.layers == acc.layers + Prefixed(seg, c.layers);
    forall i | 0 <= i < |pre| ensures a.layers[|acc.layers| + i] == Use(seg, pre[i]) {
      assert c.layers[i] == c.layers[..|pre|][i];
      assert seg + "" == seg;
    }
  }

  /** A `_`-prefixed entry, file or directory, changes nothing: no layer,
      summary, doc link or error, and no site; any other entry is compiled. */
  lemma HiddenEntrySkipped(acc: Acc, e: Entry, m: MetaLoad, plugins: seq<PluginId>, parent: string,
                           resolves: seq<string>, run: PluginSemantics)
    ensures IsHidden(e.link) <==> |e.link| > 0 && e.link[0] == '_'
    ensures IsHidden(e.link) ==> EntryStep(acc, e, plugins, parent, resolves, run) == acc && EntrySites(m, e) == []
    ensures !IsHidden(e.link) && e.File? ==>
      EntryStep(acc, e, plugins, parent, resolves, run) == FileStep(acc, e.link, e.loaded, plugins, parent, resolves, run) &&
      EntrySites(m, e) == [Site(e.link, e.loaded, [m], "")]
  {
  }

  /** The error logged for a rejected method names the token between the
      brackets and ends with the entry's name, so both can be read back. */
  lemma NotAllowedNames(token: string, link: string)
    ensures var msg := NotAllowed(token, link);
      |msg| == 26 + |token| + |link| &&
      msg[..8] == "Method [" && msg[8..8 + |token|] == token &&
      msg[8 + |token|..|msg| - |link|] == "] is not allowed. " &&
      msg[|msg| - |link|..] == link
  {
    var msg := NotAllowed(token, link);
    assert msg == ("Method [" + token) + ("] is not allowed. " + link);
  }

  /** For one entry, the logged error determines the rejected token. */
  lemma NotAllowedInjective(t1: string, t2: string, link: string)
    ensures NotAllowed(t1, link) == NotAllowed(t2, link) <==> t1 == t2
  {
    if NotAllowed(t1, link) == NotAllowed(t2, link) {
      NotAllowedNames(t1, link);
      NotAllowedNames(t2, link);
    }
  }

  /** Only endpoints of the directory compiled with no parent path report
      `/`; below any mount the reported path is the full mounted path,
      which starts with the mount's `/`. */
  lemma PathNameBelowMount(parent: string, link: string, rel: string)
    ensures PathName(parent) != "" && (parent != "" ==> PathName(parent) == parent)
    ensures var p := parent + MountSegment(link) + rel;
      PathName(p) == p && |parent| < |p| && p[|parent|] == '/'
  {
    var p := parent + MountSegment(link) + rel;
    assert p[|parent|] == MountSegment(link)[0];
  }

  /** Adding a META at the bottom of a path puts its plugins first. */
  lemma {:induction false} ChainPluginsNearestFirst(metas: seq<MetaLoad>, m: MetaLoad)
    ensures ChainPlugins(metas + [m]) == MetaPlugins(LoadMeta(m)) + ChainPlugins(metas)
  {
    if metas == [] {
      assert [m][1..] == [];
    } else {
      assert (metas + [m])[1..] == metas[1..] + [m];
      ChainPluginsNearestFirst(metas[1..], m);
    }
  }

  /** An accepted file's definition is its module run through its own
      plugins, then the META plugins nearest first, then the top-level list,
      every plugin seeing the same `{ method, name, path }`. */
  lemma SitePluginOrder(s: Site, parent: string, plugins: seq<PluginId>, resolves: seq<string>, run: PluginSemantics)
    requires Accepted(s, resolves)
    ensures var k := Classify(s.link, resolves);
      var info := PluginInfo(ToUpper(k.token), k.name, PathName(parent + s.rel));
      var api := LoadApi(s.loaded);
      SiteDef(s, parent, plugins, resolves, run)
        == ApplyPlugins(plugins, ApplyPlugins(ChainPlugins(s.metas), ApplyPlugins(api.plugins, api.def, info, run), info, run), info, run)
  {
    var k := Classify(s.link, resolves);
    var info := PluginInfo(ToUpper(k.token), k.name, PathName(parent + s.rel));
    var api := LoadApi(s.loaded);
    AppendAssoc(api.plugins, ChainPlugins(s.metas), plugins);
    ApplyConcat(api.plugins + ChainPlugins(s.metas), plugins, api.def, info, run);
    ApplyConcat(api.plugins, ChainPlugins(s.metas), api.def, info, run);
  }

  /** Mount paths carry no `#`: each segment had every `#` replaced. */
  lemma {:induction false} SitesHashFree(d: Dir, n: nat)
    requires n <= |d.entries|
    ensures forall s :: s in SitesUpTo(d, n) ==> '#' !in s.rel
    decreases d, 0, n
  {
    if n > 0 {
      var m := n - 1;
      SitesHashFree(d, m);
      var e := d.entries[m];
      assert SitesUpTo(d, n) == SitesUpTo(d, m) + EntrySites(d.meta, e);
      if !IsHidden(e.link) && e.SubDir? {
        SitesHashFree(e.dir, |e.dir.entries|);
        var seg := MountSegment(e.link);
        forall t | t in Lift(d.meta, seg, Sites(e.dir)) ensures '#' !in t.rel {
          var i :| 0 <= i < |Sites(e.dir)| && Lift(d.meta, seg, Sites(e.dir))[i] == t;
          assert Sites(e.dir)[i] in Sites(e.dir);
        }
      }
    }
  }

  /** Every expected route is the route of an accepted site. */
  lemma {:induction false} ExpectedRoutesFrom(ss: seq<Site>, parent: string, plugins: seq<PluginId>,
                                              resolves: seq<string>, run: PluginSemantics)
    ensures forall l :: l in ExpectedRoutes(ss, parent, plugins, resolves, run) ==>
      exists s :: s in ss && Accepted(s, resolves) && l == SiteRoute(s, parent, plugins, resolves, run)
  {
    if ss != [] {
      ExpectedRoutesFrom(ss[1..], parent, plugins, resolves, run);
      forall l | l in ExpectedRoutes(ss, parent, plugins, resolves, run)
        ensures exists s :: s in ss && Accepted(s, resolves) && l == SiteRoute(s, parent, plugins, resolves, run)
      {
        assert ExpectedRoutes(ss, parent, plugins, resolves, run)
            == RoutesOf(ss[0], parent, plugins, resolves, run) + ExpectedRoutes(ss[1..], parent, plugins, resolves, run);
        if l in RoutesOf(ss[0], parent, plugins, resolves, run) {
          assert ss[0] in ss;
        } else {
          var s :| s in ss[1..] && Accepted(s, resolves) && l == SiteRoute(s, parent, plugins, resolves, run);
          assert s in ss;
        }
      }
    }
  }

  /** Every endpoint route of a compiled directory is registered under a
      lower-case router method, at a path relative to the directory that
      ends in `/` and holds no `#`. */
  lemma EndpointRoutesWellFormed(d: Dir, plugins: seq<PluginId>, parent: string, resolves: seq<string>, run: PluginSemantics)
    ensures forall l :: l in EndpointRoutes(CompileDir(d, plugins, parent, resolves, run).layers) ==>
      l.Route? && l.final.Handle? && l.verb in LowerVerbs &&
      '#' !in l.path && |l.path| > 0 && l.path[|l.path| - 1] == '/'
  {
    CompileMatchesSites(d, plugins, parent, resolves, run);
    ExpectedRoutesFrom(Sites(d), parent, plugins, resolves, run);
    SitesHashFree(d, |d.entries|);
    forall l | l in EndpointRoutes(CompileDir(d, plugins, parent, resolves, run).layers)
      ensures l.Route? && l.final.Handle? && l.verb in LowerVerbs &&
              '#' !in l.path && |l.path| > 0 && l.path[|l.path| - 1] == '/'
    {
      var s :| s in Sites(d) && Accepted(s, resolves) && l == SiteRoute(s, parent, plugins, resolves, run);
      AcceptedVerb(s.link, resolves);
    }
  }
}
