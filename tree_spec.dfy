/** A flat reference for what the compiler produces from a whole tree.

    `Sites(d)` lists, in depth-first listing order, every file the walk
    visits below `d` (nothing under a `_` entry), each with the META loads
    of the directories from `d` down to the one holding it and the mount
    path from `d` to that directory. From a site alone the route and the
    summary an accepted file must produce can be written down: its plugins
    are its own, then the META plugins nearest first, then the list given
    at the top. The theorem `CompileMatchesSites` says the compiler's
    endpoint routes and its summaries are exactly these. */
module RouteTreeSpec {
  import opened Wrappers
  import opened Text
  import opened Definitions
  import opened Plugins
  import opened Routing
  import opened Compiler

  /** A file below a directory: `metas` runs from that directory down to the
      holding one, `rel` is the mount path from the first to the last. */
  datatype Site = Site(link: string, loaded: Option<ApiModule>, metas: seq<MetaLoad>, rel: string)

  /** The sites of a sub-directory, as seen from its parent. */
  function Lift(m: MetaLoad, seg: string, ss: seq<Site>): (r: seq<Site>)
    ensures |r| == |ss|
    ensures forall i :: 0 <= i < |ss| ==> r[i] == ss[i].(metas := [m] + ss[i].metas, rel := seg + ss[i].rel)
  {
    seq(|ss|, i requires 0 <= i < |ss| => ss[i].(metas := [m] + ss[i].metas, rel := seg + ss[i].rel))
  }

  /** The sites one listing entry of a directory whose META load is `m`
      contributes: none for a `_` entry, a sub-directory's own sites lifted
      under its mount segment, a file as a site of its own. */
  function EntrySites(m: MetaLoad, e: Entry): seq<Site>
    decreases e, 2
  {
    if IsHidden(e.link) then []
    else match e
      case SubDir(link, sub) => Lift(m, MountSegment(link), Sites(sub))
      case File(link, loaded) => [Site(link, loaded, [m], "")]
  }

  /** The sites among the first `n` entries of `d`. */
  function SitesUpTo(d: Dir, n: nat): seq<Site>
    requires n <= |d.entries|
    decreases d, 0, n
  {
    if n == 0 then [] else SitesUpTo(d, n - 1) + EntrySites(d.meta, d.entries[n - 1])
  }

  function Sites(d: Dir): seq<Site>
    decreases d, 1
  {
    SitesUpTo(d, |d.entries|)
  }

  /** The META plugins along a path, nearest directory first. */
  function ChainPlugins(metas: seq<MetaLoad>): seq<PluginId> {
    if metas == [] then [] else ChainPlugins(metas[1..]) + MetaPlugins(LoadMeta(metas[0]))
  }

  predicate Accepted(s: Site, resolves: seq<string>) {
    Classify(s.link, resolves).EndpointFile?
  }

  /** The definition an accepted site is compiled from, when the walk starts
      at `parent` with `plugins`. */
  function SiteDef(s: Site, parent: string, plugins: seq<PluginId>, resolves: seq<string>, run: PluginSemantics): ApiDef
    requires Accepted(s, resolves)
  {
    var k := Classify(s.link, resolves);
    Enhance(s.loaded, ChainPlugins(s.metas) + plugins, PluginInfo(ToUpper(k.token), k.name, PathName(parent + s.rel)), run)
  }

  /** The route an accepted site is registered as, relative to the walk's root. */
  function SiteRoute(s: Site, parent: string, plugins: seq<PluginId>, resolves: seq<string>, run: PluginSemantics): Layer
    requires Accepted(s, resolves)
  {
    var lmethod := ToLower(Classify(s.link, resolves).token);
    var def := SiteDef(s, parent, plugins, resolves, run);
    Route(lmethod, s.rel + "/", PreChain(def.pre.GetOr([]), lmethod), Handle(EndpointOf(def)))
  }

  /** The summary an accepted site contributes. */
  function SiteSummary(s: Site, parent: string, plugins: seq<PluginId>, resolves: seq<string>, run: PluginSemantics): Fields
    requires Accepted(s, resolves)
  {
    var k := Classify(s.link, resolves);
    Summary(k.name, ToLower(k.token), PathName(parent + s.rel), SiteDef(s, parent, plugins, resolves, run))
  }

  /** The route an accepted site yields, none for any other. */
  function RoutesOf(s: Site, parent: string, plugins: seq<PluginId>, resolves: seq<string>, run: PluginSemantics): seq<Layer> {
    if Accepted(s, resolves) then [SiteRoute(s, parent, plugins, resolves, run)] else []
  }

  /** No META loads in `metas` from index `skip` on. */
  predicate Unclaimed(metas: seq<MetaLoad>, skip: nat) {
    forall i :: skip <= i < |metas| ==> metas[i].LoadFails?
  }

  /** The summary an accepted site with no META at `skip` or below yields. */
  function SummariesOf(s: Site, skip: nat, parent: string, plugins: seq<PluginId>,
                       resolves: seq<string>, run: PluginSemantics): seq<Fields> {
    if Accepted(s, resolves) && Unclaimed(s.metas, skip) then [SiteSummary(s, parent, plugins, resolves, run)] else []
  }

  /** `f` applied to every element, the results concatenated. */
  function FlatMap<A, B>(xs: seq<A>, f: A -> seq<B>): seq<B> {
    if xs == [] then [] else f(xs[0]) + FlatMap(xs[1..], f)
  }

  function RoutesFn(parent: string, plugins: seq<PluginId>, resolves: seq<string>, run: PluginSemantics): Site -> seq<Layer> {
    s => RoutesOf(s, parent, plugins, resolves, run)
  }

  function SummariesFn(skip: nat, parent: string, plugins: seq<PluginId>, resolves: seq<string>, run: PluginSemantics): Site -> seq<Fields> {
    s => SummariesOf(s, skip, parent, plugins, resolves, run)
  }

  /** The routes the accepted sites yield, in order. */
  function ExpectedRoutes(ss: seq<Site>, parent: string, plugins: seq<PluginId>, resolves: seq<string>, run: PluginSemantics): seq<Layer> {
    if ss == [] then [] else RoutesOf(ss[0], parent, plugins, resolves, run) + ExpectedRoutes(ss[1..], parent, plugins, resolves, run)
  }

  /** The summaries of the accepted sites with no META at `skip` or below, in order. */
  function ExpectedSummaries(ss: seq<Site>, skip: nat, parent: string, plugins: seq<PluginId>,
                             resolves: seq<string>, run: PluginSemantics): seq<Fields> {
    if ss == [] then []
    else SummariesOf(ss[0], skip, parent, plugins, resolves, run) + ExpectedSummaries(ss[1..], skip, parent, plugins, resolves, run)
  }

  /** The error an entry with a method not in the router's list logs. */
  function DiagsOf(s: Site, resolves: seq<string>): seq<string> {
    match Classify(s.link, resolves)
    case BadMethod(token) => [NotAllowed(token, s.link)]
    case _ => []
  }

  function DiagsFn(resolves: seq<string>): Site -> seq<string> {
    s => DiagsOf(s, resolves)
  }

  /** The errors the sites log, in order. */
  function ExpectedDiags(ss: seq<Site>, resolves: seq<string>): seq<string> {
    if ss == [] then [] else DiagsOf(ss[0], resolves) + ExpectedDiags(ss[1..], resolves)
  }

  function EndpointRoute(l: Layer): seq<Layer> {
    if l.Route? && l.final.Handle? then [l] else []
  }

  /** The endpoint routes of a stack, in order. */
  function EndpointRoutes(ls: seq<Layer>): seq<Layer> {
    FlatMap(ls, EndpointRoute)
  }

  // ---------------------------------------------------------------------------
  // Lemmas about the reference

  lemma {:induction false} FlatMapConcat<A, B>(a: seq<A>, b: seq<A>, f: A -> seq<B>)
    ensures FlatMap(a + b, f) == FlatMap(a, f) + FlatMap(b, f)
  {
    if a != [] {
      assert (a + b)[0] == a[0] && (a + b)[1..] == a[1..] + b;
      FlatMapConcat(a[1..], b, f);
    } else {
      assert a + b == b;
    }
  }

  lemma {:induction false} ExpectedRoutesIsFlatMap(ss: seq<Site>, parent: string, plugins: seq<PluginId>,
                                                   resolves: seq<string>, run: PluginSemantics)
    ensures ExpectedRoutes(ss, parent, plugins, resolves, run) == FlatMap(ss, RoutesFn(parent, plugins, resolves, run))
  {
    if ss != [] {
      ExpectedRoutesIsFlatMap(ss[1..], parent, plugins, resolves, run);
    }
  }

  lemma {:induction false} ExpectedSummariesIsFlatMap(ss: seq<Site>, skip: nat, parent: string, plugins: seq<PluginId>,
                                                      resolves: seq<string>, run: PluginSemantics)
    ensures ExpectedSummaries(ss, skip, parent, plugins, resolves, run) == FlatMap(ss, SummariesFn(skip, parent, plugins, resolves, run))
  {
    if ss != [] {
      ExpectedSummariesIsFlatMap(ss[1..], skip, parent, plugins, resolves, run);
    }
  }

  lemma {:induction false} ExpectedDiagsIsFlatMap(ss: seq<Site>, resolves: seq<string>)
    ensures ExpectedDiags(ss, resolves) == FlatMap(ss, DiagsFn(resolves))
  {
    if ss != [] {
      ExpectedDiagsIsFlatMap(ss[1..], resolves);
    }
  }

  lemma ExpectedConcat(a: seq<Site>, b: seq<Site>, skip: nat, parent: string, plugins: seq<PluginId>,
                       resolves: seq<string>, run: PluginSemantics)
    ensures ExpectedRoutes(a + b, parent, plugins, resolves, run)
         == ExpectedRoutes(a, parent, plugins, resolves, run) + ExpectedRoutes(b, parent, plugins, resolves, run)
    ensures ExpectedSummaries(a + b, skip, parent, plugins, resolves, run)
         == ExpectedSummaries(a, skip, parent, plugins, resolves, run) + ExpectedSummaries(b, skip, parent, plugins, resolves, run)
    ensures ExpectedDiags(a + b, resolves) == ExpectedDiags(a, resolves) + ExpectedDiags(b, resolves)
  {
    ExpectedRoutesIsFlatMap(a + b, parent, plugins, resolves, run);
    ExpectedRoutesIsFlatMap(a, parent, plugins, resolves, run);
    ExpectedRoutesIsFlatMap(b, parent, plugins, resolves, run);
    FlatMapConcat(a, b, RoutesFn(parent, plugins, resolves, run));
    ExpectedSummariesIsFlatMap(a + b, skip, parent, plugins, resolves, run);
    ExpectedSummariesIsFlatMap(a, skip, parent, plugins, resolves, run);
    ExpectedSummariesIsFlatMap(b, skip, parent, plugins, resolves, run);
    FlatMapConcat(a, b, SummariesFn(skip, parent, plugins, resolves, run));
    ExpectedDiagsIsFlatMap(a + b, resolves);
    ExpectedDiagsIsFlatMap(a, resolves);
    ExpectedDiagsIsFlatMap(b, resolves);
    FlatMapConcat(a, b, DiagsFn(resolves));
  }

  lemma {:induction false} FlatMapLift<B>(m: MetaLoad, seg: string, ss: seq<Site>, f: Site -> seq<B>, g: Site -> seq<B>)
    requires forall i :: 0 <= i < |ss| ==> f(Lift(m, seg, ss)[i]) == g(ss[i])
    ensures FlatMap(Lift(m, seg, ss), f) == FlatMap(ss, g)
  {
    if ss != [] {
      assert Lift(m, seg, ss)[1..] == Lift(m, seg, ss[1..]);
      FlatMapLift(m, seg, ss[1..], f, g);
    }
  }

  lemma {:induction false} FlatMapLiftPrefixed(m: MetaLoad, seg: string, ss: seq<Site>, f: Site -> seq<Layer>, g: Site -> seq<Layer>)
    requires forall i :: 0 <= i < |ss| ==> f(Lift(m, seg, ss)[i]) == Prefixed(seg, g(ss[i]))
    ensures FlatMap(Lift(m, seg, ss), f) == Prefixed(seg, FlatMap(ss, g))
  {
    if ss != [] {
      assert Lift(m, seg, ss)[1..] == Lift(m, seg, ss[1..]);
      FlatMapLiftPrefixed(m, seg, ss[1..], f, g);
      PrefixedConcat(seg, g(ss[0]), FlatMap(ss[1..], g));
    }
  }

  lemma {:induction false} EndpointRoutesPrefixed(seg: string, ls: seq<Layer>)
    ensures EndpointRoutes(Prefixed(seg, ls)) == Prefixed(seg, EndpointRoutes(ls))
  {
    if ls != [] {
      assert Prefixed(seg, ls)[1..] == Prefixed(seg, ls[1..]);
      EndpointRoutesPrefixed(seg, ls[1..]);
      PrefixedConcat(seg, EndpointRoute(ls[0]), EndpointRoutes(ls[1..]));
    }
  }

  lemma {:induction false} EndpointRoutesOfUses(mws: seq<Middleware>)
    ensures EndpointRoutes(UseLayers(mws)) == []
  {
    if mws != [] {
      assert UseLayers(mws)[1..] == UseLayers(mws[1..]);
      EndpointRoutesOfUses(mws[1..]);
    }
  }

  /** Seen from the parent, a site one level down has the parent's META
      plugins after its own chain, and its path gains the mount segment. */
  lemma LiftedSiteDef(s: Site, m: MetaLoad, seg: string, parent: string, plugins: seq<PluginId>,
                      resolves: seq<string>, run: PluginSemantics)
    requires Accepted(s, resolves)
    ensures var t := s.(metas := [m] + s.metas, rel := seg + s.rel);
      Accepted(t, resolves) &&
      SiteDef(t, parent, plugins, resolves, run) == SiteDef(s, parent + seg, MetaPlugins(LoadMeta(m)) + plugins, resolves, run)
  {
    var t := s.(metas := [m] + s.metas, rel := seg + s.rel);
    assert t.metas[1..] == s.metas;
    AppendAssoc(ChainPlugins(s.metas), MetaPlugins(LoadMeta(m)), plugins);
    AppendAssoc(parent, seg, s.rel);
  }

  /** The lifted site's route is its route mounted under the segment. */
  lemma LiftedSite(s: Site, m: MetaLoad, seg: string, parent: string, plugins: seq<PluginId>,
                   resolves: seq<string>, run: PluginSemantics)
    requires Accepted(s, resolves)
    ensures var t := s.(metas := [m] + s.metas, rel := seg + s.rel);
      Accepted(t, resolves) &&
      SiteRoute(t, parent, plugins, resolves, run)
        == PrefixLayer(seg, SiteRoute(s, parent + seg, MetaPlugins(LoadMeta(m)) + plugins, resolves, run))
  {
    var t := s.(metas := [m] + s.metas, rel := seg + s.rel);
    LiftedSiteDef(s, m, seg, parent, plugins, resolves, run);
    assert t.rel + "/" == seg + (s.rel + "/");
  }

  /** The lifted site's summary is the one compiled inside the sub-directory. */
  lemma LiftedSummary(s: Site, m: MetaLoad, seg: string, parent: string, plugins: seq<PluginId>,
                      resolves: seq<string>, run: PluginSemantics)
    requires Accepted(s, resolves)
    ensures var t := s.(metas := [m] + s.metas, rel := seg + s.rel);
      Accepted(t, resolves) &&
      SiteSummary(t, parent, plugins, resolves, run)
        == SiteSummary(s, parent + seg, MetaPlugins(LoadMeta(m)) + plugins, resolves, run)
  {
    var t := s.(metas := [m] + s.metas, rel := seg + s.rel);
    LiftedSiteDef(s, m, seg, parent, plugins, resolves, run);
    AppendAssoc(parent, seg, s.rel);
  }

  lemma ExpectedRoutesLift(m: MetaLoad, seg: string, ss: seq<Site>, parent: string,
                           plugins: seq<PluginId>, resolves: seq<string>, run: PluginSemantics)
    ensures ExpectedRoutes(Lift(m, seg, ss), parent, plugins, resolves, run)
         == Prefixed(seg, ExpectedRoutes(ss, parent + seg, MetaPlugins(LoadMeta(m)) + plugins, resolves, run))
  {
    var f := RoutesFn(parent, plugins, resolves, run);
    var g := RoutesFn(parent + seg, MetaPlugins(LoadMeta(m)) + plugins, resolves, run);
    forall i | 0 <= i < |ss| ensures f(Lift(m, seg, ss)[i]) == Prefixed(seg, g(ss[i])) {
      if Accepted(ss[i], resolves) {
        LiftedSite(ss[i], m, seg, parent, plugins, resolves, run);
      }
    }
    FlatMapLiftPrefixed(m, seg, ss, f, g);
    ExpectedRoutesIsFlatMap(Lift(m, seg, ss), parent, plugins, resolves, run);
    ExpectedRoutesIsFlatMap(ss, parent + seg, MetaPlugins(LoadMeta(m)) + plugins, resolves, run);
  }

  lemma ExpectedSummariesLift(m: MetaLoad, seg: string, ss: seq<Site>, parent: string,
                              plugins: seq<PluginId>, resolves: seq<string>, run: PluginSemantics)
    ensures ExpectedSummaries(Lift(m, seg, ss), 1, parent, plugins, resolves, run)
         == ExpectedSummaries(ss, 0, parent + seg, MetaPlugins(LoadMeta(m)) + plugins, resolves, run)
  {
    var f := SummariesFn(1, parent, plugins, resolves, run);
    var g := SummariesFn(0, parent + seg, MetaPlugins(LoadMeta(m)) + plugins, resolves, run);
    forall i | 0 <= i < |ss| ensures f(Lift(m, seg, ss)[i]) == g(ss[i]) {
      var t := Lift(m, seg, ss)[i];
      assert Unclaimed(t.metas, 1) == Unclaimed(ss[i].metas, 0) by {
        forall j | 0 <= j < |ss[i].metas| ensures t.metas[j + 1] == ss[i].metas[j] {}
      }
      if Accepted(ss[i], resolves) {
        LiftedSummary(ss[i], m, seg, parent, plugins, resolves, run);
      }
    }
    FlatMapLift(m, seg, ss, f, g);
    ExpectedSummariesIsFlatMap(Lift(m, seg, ss), 1, parent, plugins, resolves, run);
    ExpectedSummariesIsFlatMap(ss, 0, parent + seg, MetaPlugins(LoadMeta(m)) + plugins, resolves, run);
  }

  lemma ExpectedDiagsLift(m: MetaLoad, seg: string, ss: seq<Site>, resolves: seq<string>)
    ensures ExpectedDiags(Lift(m, seg, ss), resolves) == ExpectedDiags(ss, resolves)
  {
    FlatMapLift(m, seg, ss, DiagsFn(resolves), DiagsFn(resolves));
    ExpectedDiagsIsFlatMap(Lift(m, seg, ss), resolves);
    ExpectedDiagsIsFlatMap(ss, resolves);
  }

  /** Every site below `d` starts its META path at `d`. */
  lemma {:induction false} SitesStartAt(d: Dir, n: nat)
    requires n <= |d.entries|
    ensures forall s :: s in SitesUpTo(d, n) ==> |s.metas| >= 1 && s.metas[0] == d.meta
    decreases d, 0, n
  {
    if n > 0 {
      var m := n - 1;
      SitesStartAt(d, m);
      var e := d.entries[m];
      assert SitesUpTo(d, n) == SitesUpTo(d, m) + EntrySites(d.meta, e);
    }
  }

  /** The summaries a directory passes upward: none when it has a META
      (each of its sites is claimed by it), and otherwise those its own
      entry of the path does not claim. */
  lemma {:induction false} SummariesSkipOwn(ss: seq<Site>, m: MetaLoad, parent: string, plugins: seq<PluginId>,
                                            resolves: seq<string>, run: PluginSemantics)
    requires forall s :: s in ss ==> |s.metas| >= 1 && s.metas[0] == m
    ensures m.LoadFails? ==> (ExpectedSummaries(ss, 0, parent, plugins, resolves, run)
                              == ExpectedSummaries(ss, 1, parent, plugins, resolves, run))
    ensures m.Loaded? ==> ExpectedSummaries(ss, 0, parent, plugins, resolves, run) == []
  {
    if ss != [] {
      assert ss[0] in ss;
      assert forall s :: s in ss[1..] ==> s in ss;
      SummariesSkipOwn(ss[1..], m, parent, plugins, resolves, run);
    }
  }

  // ---------------------------------------------------------------------------
  // The theorem

  /** A stack, a memo and a log agree with a list of sites. */
  ghost predicate Agrees(layers: seq<Layer>, memo: seq<Fields>, diags: seq<string>, ss: seq<Site>, skip: nat,
                         parent: string, plugins: seq<PluginId>, resolves: seq<string>, run: PluginSemantics) {
    EndpointRoutes(layers) == ExpectedRoutes(ss, parent, plugins, resolves, run) &&
    memo == ExpectedSummaries(ss, skip, parent, plugins, resolves, run) &&
    diags == ExpectedDiags(ss, resolves)
  }

  /** The invariant of the entry loop, for the first `n` entries. */
  ghost predicate WalkInvariant(d: Dir, n: nat, plugins: seq<PluginId>, parent: string,
                                resolves: seq<string>, run: PluginSemantics)
    requires n <= |d.entries|
  {
    var acc := Walk(d, n, Inherit(LoadMeta(d.meta), plugins), parent, resolves, run);
    Agrees(acc.layers, acc.memo, acc.diags, SitesUpTo(d, n), 1, parent, plugins, resolves, run)
  }

  /** What `CompileMatchesSites` states of a directory. */
  ghost predicate CompileAgrees(d: Dir, plugins: seq<PluginId>, parent: string, resolves: seq<string>, run: PluginSemantics) {
    var c := CompileDir(d, plugins, parent, resolves, run);
    Agrees(c.layers, c.memo, c.diags, Sites(d), 0, parent, plugins, resolves, run)
  }

  lemma WalkStartInvariant(d: Dir, plugins: seq<PluginId>, parent: string, resolves: seq<string>, run: PluginSemantics)
    ensures WalkInvariant(d, 0, plugins, parent, resolves, run)
  {
    var meta := LoadMeta(d.meta);
    if meta.Some? {
      EndpointRoutesOfUses(meta.value.pre);
    }
  }

  /** A visible sub-directory entry: its sites, lifted, follow the earlier ones. */
  lemma SubDirAgrees(acc: Acc, prev: seq<Site>, m: MetaLoad, link: string, sub: Dir, plugins: seq<PluginId>,
                     parent: string, resolves: seq<string>, run: PluginSemantics)
    requires Agrees(acc.layers, acc.memo, acc.diags, prev, 1, parent, plugins, resolves, run)
    requires CompileAgrees(sub, Inherit(LoadMeta(m), plugins), parent + MountSegment(link), resolves, run)
    ensures var seg := MountSegment(link);
      var a := MountStep(acc, seg, CompileDir(sub, Inherit(LoadMeta(m), plugins), parent + seg, resolves, run));
      Agrees(a.layers, a.memo, a.diags, prev + Lift(m, seg, Sites(sub)), 1, parent, plugins, resolves, run)
  {
    var inh := Inherit(LoadMeta(m), plugins);
    var seg := MountSegment(link);
    var c := CompileDir(sub, inh, parent + seg, resolves, run);
    var lifted := Lift(m, seg, Sites(sub));
    FlatMapConcat(acc.layers, Prefixed(seg, c.layers), EndpointRoute);
    EndpointRoutesPrefixed(seg, c.layers);
    ExpectedConcat(prev, lifted, 1, parent, plugins, resolves, run);
    ExpectedRoutesLift(m, seg, Sites(sub), parent, plugins, resolves, run);
    ExpectedSummariesLift(m, seg, Sites(sub), parent, plugins, resolves, run);
    SitesStartAt(sub, |sub.entries|);
    SummariesSkipOwn(Sites(sub), sub.meta, parent + seg, inh, resolves, run);
    ExpectedDiagsLift(m, seg, Sites(sub), resolves);
  }

  /** An accepted file of the directory holding it is compiled from its
      site's definition. */
  lemma FileStepAccepted(acc: Acc, s: Site, inh: seq<PluginId>, parent: string, plugins: seq<PluginId>,
                         resolves: seq<string>, run: PluginSemantics)
    requires |s.metas| == 1 && s.rel == ""
    requires inh == MetaPlugins(LoadMeta(s.metas[0])) + plugins
    requires Accepted(s, resolves)
    ensures var a := FileStep(acc, s.link, s.loaded, inh, parent, resolves, run);
      a.layers == acc.layers + [SiteRoute(s, parent, plugins, resolves, run)] &&
      a.memo == acc.memo + [SiteSummary(s, parent, plugins, resolves, run)] &&
      a.diags == acc.diags
  {
    var k := Classify(s.link, resolves);
    var info := PluginInfo(ToUpper(k.token), k.name, PathName(parent));
    assert s.metas[1..] == [];
    assert ChainPlugins(s.metas) == MetaPlugins(LoadMeta(s.metas[0]));
    assert parent + s.rel == parent && s.rel + "/" == "/";
    assert SiteDef(s, parent, plugins, resolves, run) == Enhance(s.loaded, ChainPlugins(s.metas) + plugins, info, run);
  }

  /** A file entry of the directory holding it adds exactly its site's route and summary. */
  lemma FileStepIsSite(acc: Acc, s: Site, inh: seq<PluginId>, parent: string, plugins: seq<PluginId>,
                       resolves: seq<string>, run: PluginSemantics)
    requires |s.metas| == 1 && s.rel == ""
    requires inh == MetaPlugins(LoadMeta(s.metas[0])) + plugins
    ensures var a := FileStep(acc, s.link, s.loaded, inh, parent, resolves, run);
      a.layers == acc.layers + RoutesOf(s, parent, plugins, resolves, run) &&
      a.memo == acc.memo + SummariesOf(s, 1, parent, plugins, resolves, run) &&
      a.diags == acc.diags + DiagsOf(s, resolves)
  {
    assert Unclaimed(s.metas, 1);
    if Accepted(s, resolves) {
      FileStepAccepted(acc, s, inh, parent, plugins, resolves, run);
    }
  }

  lemma EndpointRoutesOfSite(s: Site, parent: string, plugins: seq<PluginId>, resolves: seq<string>, run: PluginSemantics)
    ensures EndpointRoutes(RoutesOf(s, parent, plugins, resolves, run)) == RoutesOf(s, parent, plugins, resolves, run)
  {
    var r := RoutesOf(s, parent, plugins, resolves, run);
    if r != [] {
      assert r[0].Route? && r[0].final.Handle?;
      assert EndpointRoute(r[0]) == [r[0]];
      assert r[1..] == [];
      assert FlatMap(r[1..], EndpointRoute) == [];
    }
  }

  lemma ExpectedSingle(s: Site, skip: nat, parent: string, plugins: seq<PluginId>,
                        resolves: seq<string>, run: PluginSemantics)
    ensures ExpectedRoutes([s], parent, plugins, resolves, run) == RoutesOf(s, parent, plugins, resolves, run)
    ensures ExpectedSummaries([s], skip, parent, plugins, resolves, run) == SummariesOf(s, skip, parent, plugins, resolves, run)
    ensures ExpectedDiags([s], resolves) == DiagsOf(s, resolves)
  {
    assert [s][1..] == [];
  }

  /** A visible file entry: its site follows the earlier ones. */
  lemma FileAgrees(acc: Acc, prev: seq<Site>, m: MetaLoad, link: string, loaded: Option<ApiModule>,
                   plugins: seq<PluginId>, parent: string, resolves: seq<string>, run: PluginSemantics)
    requires Agrees(acc.layers, acc.memo, acc.diags, prev, 1, parent, plugins, resolves, run)
    ensures var a := FileStep(acc, link, loaded, Inherit(LoadMeta(m), plugins), parent, resolves, run);
      Agrees(a.layers, a.memo, a.diags, prev + [Site(link, loaded, [m], "")], 1, parent, plugins, resolves, run)
  {
    var inh := Inherit(LoadMeta(m), plugins);
    var s := Site(link, loaded, [m], "");
    var routes := RoutesOf(s, parent, plugins, resolves, run);
    ExpectedSingle(s, 1, parent, plugins, resolves, run);
    ExpectedConcat(prev, [s], 1, parent, plugins, resolves, run);
    FileStepIsSite(acc, s, inh, parent, plugins, resolves, run);
    FlatMapConcat(acc.layers, routes, EndpointRoute);
    EndpointRoutesOfSite(s, parent, plugins, resolves, run);
  }

  /** One step of the entry loop keeps the compiler's state in agreement
      with the sites listed so far. */
  lemma EntryAgrees(acc: Acc, prev: seq<Site>, m: MetaLoad, e: Entry, plugins: seq<PluginId>,
                    parent: string, resolves: seq<string>, run: PluginSemantics)
    requires Agrees(acc.layers, acc.memo, acc.diags, prev, 1, parent, plugins, resolves, run)
    requires !IsHidden(e.link) && e.SubDir? ==>
      CompileAgrees(e.dir, Inherit(LoadMeta(m), plugins), parent + MountSegment(e.link), resolves, run)
    ensures var a := EntryStep(acc, e, Inherit(LoadMeta(m), plugins), parent, resolves, run);
      Agrees(a.layers, a.memo, a.diags, prev + EntrySites(m, e), 1, parent, plugins, resolves, run)
  {
    if IsHidden(e.link) {
      assert prev + EntrySites(m, e) == prev;
    } else if e.SubDir? {
      SubDirAgrees(acc, prev, m, e.link, e.dir, plugins, parent, resolves, run);
    } else {
      FileAgrees(acc, prev, m, e.link, e.loaded, plugins, parent, resolves, run);
    }
  }

  /** The entry loop keeps `WalkInvariant`. */
  lemma {:induction false} WalkMatchesSites(d: Dir, n: nat, plugins: seq<PluginId>, parent: string,
                                            resolves: seq<string>, run: PluginSemantics)
    requires n <= |d.entries|
    ensures WalkInvariant(d, n, plugins, parent, resolves, run)
    decreases d, 0, n
  {
    if n == 0 {
      WalkStartInvariant(d, plugins, parent, resolves, run);
    } else {
      var m := n - 1;
      var e := d.entries[m];
      WalkMatchesSites(d, m, plugins, parent, resolves, run);
      if !IsHidden(e.link) && e.SubDir? {
        CompileMatchesSites(e.dir, Inherit(LoadMeta(d.meta), plugins), parent + MountSegment(e.link), resolves, run);
      }
      WalkStep(d, m, n, plugins, parent, resolves, run);
    }
  }

  /** The `n`-th entry keeps `WalkInvariant`, given what the compiler
      yields for it when it is a visible sub-directory. */
  lemma WalkStep(d: Dir, m: nat, n: nat, plugins: seq<PluginId>, parent: string, resolves: seq<string>, run: PluginSemantics)
    requires n == m + 1 <= |d.entries|
    requires WalkInvariant(d, m, plugins, parent, resolves, run)
    requires var e := d.entries[m];
      !IsHidden(e.link) && e.SubDir? ==>
      CompileAgrees(e.dir, Inherit(LoadMeta(d.meta), plugins), parent + MountSegment(e.link), resolves, run)
    ensures WalkInvariant(d, n, plugins, parent, resolves, run)
  {
    var e := d.entries[m];
    var inh := Inherit(LoadMeta(d.meta), plugins);
    var acc := Walk(d, m, inh, parent, resolves, run);
    EntryAgrees(acc, SitesUpTo(d, m), d.meta, e, plugins, parent, resolves, run);
    assert Walk(d, n, inh, parent, resolves, run) == EntryStep(acc, e, inh, parent, resolves, run);
    assert SitesUpTo(d, n) == SitesUpTo(d, m) + EntrySites(d.meta, e);
  }

  /** The compiler's endpoint routes are the accepted sites' routes, in
      listing order, and the memo it passes upward holds the summaries of
      the accepted sites with no META on their path: none at all when the
      directory itself has a META. */
  lemma {:induction false} CompileMatchesSites(d: Dir, plugins: seq<PluginId>, parent: string,
                                               resolves: seq<string>, run: PluginSemantics)
    ensures CompileAgrees(d, plugins, parent, resolves, run)
    decreases d, 1
  {
    var meta := LoadMeta(d.meta);
    var acc := Walk(d, |d.entries|, Inherit(meta, plugins), parent, resolves, run);
    WalkMatchesSites(d, |d.entries|, plugins, parent, resolves, run);
    SitesStartAt(d, |d.entries|);
    SummariesSkipOwn(Sites(d), d.meta, parent, plugins, resolves, run);
    if meta.Some? {
      var doc := Route("get", "/api.doc", [], ServeDoc(DocBody(meta.value.base, acc.memo, acc.subDocs)));
      FlatMapConcat(acc.layers, [doc], EndpointRoute);
    }
  }

  /** With META, the directory's `/api.doc` page, the last layer of its
      router, lists the summaries of the accepted sites whose nearest META
      directory it is. */
  lemma DocPageLists(d: Dir, plugins: seq<PluginId>, parent: string, resolves: seq<string>, run: PluginSemantics)
    requires d.meta.Loaded?
    ensures var c := CompileDir(d, plugins, parent, resolves, run);
      c.layers != [] && c.layers[|c.layers| - 1].Route? &&
      c.layers[|c.layers| - 1].final.ServeDoc? &&
      c.layers[|c.layers| - 1].final.doc.apis == ExpectedSummaries(Sites(d), 1, parent, plugins, resolves, run)
  {
    WalkMatchesSites(d, |d.entries|, plugins, parent, resolves, run);
  }
}
