/** Plugin application: `[...apiPlugins, ...plugins].reduce(...)` and the
    reassignment `plugins = [...metaPlugins, ...plugins]` after a META loads. */
module Plugins {
  import opened Wrappers
  import opened Definitions

  /** Plugins applied left to right, each receiving the previous output and
      the same `{ method, name, path }`. */
  function ApplyPlugins(ps: seq<PluginId>, def: ApiDef, info: PluginInfo, run: PluginSemantics): ApiDef
    decreases |ps|
  {
    if ps == [] then def else ApplyPlugins(ps[1..], run(ps[0], def, info), info, run)
  }

  /** Applying a concatenation applies the first list, then the second to its output. */
  lemma {:induction false} ApplyConcat(a: seq<PluginId>, b: seq<PluginId>, def: ApiDef, info: PluginInfo, run: PluginSemantics)
    ensures ApplyPlugins(a + b, def, info, run) == ApplyPlugins(b, ApplyPlugins(a, def, info, run), info, run)
  {
    if a != [] {
      assert (a + b)[0] == a[0] && (a + b)[1..] == a[1..] + b;
      ApplyConcat(a[1..], b, run(a[0], def, info), info, run);
    } else {
      assert a + b == b;
    }
  }

  /** The last plugin receives what all earlier plugins produced. */
  lemma ApplyLast(a: seq<PluginId>, p: PluginId, def: ApiDef, info: PluginInfo, run: PluginSemantics)
    ensures ApplyPlugins(a + [p], def, info, run) == run(p, ApplyPlugins(a, def, info, run), info)
  {
    ApplyConcat(a, [p], def, info, run);
    assert [p][1..] == [];
  }

  /** The plugins META contributes, or none when META is absent. */
  function MetaPlugins(meta: Option<Meta>): seq<PluginId> {
    if meta.Some? then meta.value.plugins else []
  }

  /** The plugin list a directory hands to its entries: its own META's
      plugins before the list it inherited. */
  function Inherit(meta: Option<Meta>, plugins: seq<PluginId>): (r: seq<PluginId>)
    ensures r == MetaPlugins(meta) + plugins
  {
    if meta.Some? then meta.value.plugins + plugins else plugins
  }

  /** Three-level order for one endpoint: its own plugins run first, then
      its directory's META plugins, then the inherited ones. */
  lemma EndpointPluginOrder(local: seq<PluginId>, meta: Option<Meta>, inherited: seq<PluginId>,
                            def: ApiDef, info: PluginInfo, run: PluginSemantics)
    ensures ApplyPlugins(local + Inherit(meta, inherited), def, info, run)
         == ApplyPlugins(inherited, ApplyPlugins(MetaPlugins(meta), ApplyPlugins(local, def, info, run), info, run), info, run)
  {
    ApplyConcat(local, MetaPlugins(meta) + inherited, def, info, run);
    ApplyConcat(MetaPlugins(meta), inherited, ApplyPlugins(local, def, info, run), info, run);
  }
}
