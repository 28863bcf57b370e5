/** `koact(routesPath, plugins, options)`: the exported entry point. It
    compiles the tree from its root, with no parent path, the top-level
    plugin list (absent is empty), and the options over the default list
    of resolvable extensions; it returns the root router's routes. */
module Koact {
  import opened Wrappers
  import opened Text
  import opened Definitions
  import opened Routing
  import opened Compiler
  import opened RouteTreeSpec

  /** The extensions resolved when the options name none. */
  const DefaultResolves: seq<string> := [".js", ".ts", ".node"]

  /** `IOptions`: `resolves` is absent (`None`) or given. */
  datatype Options = Options(resolves: Option<seq<string>>)

  /** `{ resolves: [...defaults], ...options }`: a `resolves` key in the
      options replaces the defaults, otherwise the defaults stand. */
  function Resolves(o: Options): seq<string> {
    o.resolves.GetOr(DefaultResolves)
  }

  /** With no `resolves` option, exactly the files ending in `.js`, `.ts`
      or `.node` are resolvable; a given list is used as it is. */
  lemma ResolvesDefault(o: Options, link: string)
    ensures o.resolves.None? ==>
      (Classify(link, Resolves(o)).NotResolvable? <==> ParsePath(link).1 !in [".js", ".ts", ".node"])
    ensures o.resolves.Some? ==>
      (Classify(link, Resolves(o)).NotResolvable? <==> ParsePath(link).1 !in o.resolves.value)
  {
  }

  /** `koact(...)`: the root router's layers and the errors logged while
      compiling. The endpoint routes are those of the accepted files of the
      whole tree, in depth-first listing order; the log holds one line per
      file whose method the router does not know; with a root META the last
      layer serves the root's documentation page. */
  method Koact(d: Dir, plugins: Option<seq<PluginId>>, options: Options, run: PluginSemantics)
    returns (routes: seq<Layer>, log: seq<string>)
    ensures var c := CompileDir(d, plugins.GetOr([]), "", Resolves(options), run);
      routes == c.layers && log == c.diags
    ensures EndpointRoutes(routes) == ExpectedRoutes(Sites(d), "", plugins.GetOr([]), Resolves(options), run)
    ensures log == ExpectedDiags(Sites(d), Resolves(options))
    ensures d.meta.Loaded? ==>
      routes != [] && routes[|routes| - 1].Route? && routes[|routes| - 1].path == "/api.doc" &&
      routes[|routes| - 1].final.ServeDoc? &&
      routes[|routes| - 1].final.doc.apis == ExpectedSummaries(Sites(d), 1, "", plugins.GetOr([]), Resolves(options), run)
  {
    var resolves := Resolves(options);
    var top := plugins.GetOr([]);
    var router, memo, doc, diags := RoutesOfPath(d, top, "", resolves, run);
    routes, log := router.stack, diags;
    CompileMatchesSites(d, top, "", resolves, run);
    if d.meta.Loaded? {
      DocPageLists(d, top, "", resolves, run);
    }
  }
}
