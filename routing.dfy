/** The part of a koa-router instance the compiler drives: a stack of
    layers that `use`, the verb methods and mounting append to. */
module Routing {
  import opened Definitions

  /** A layer as seen through a mount under `prefix`. */
  function PrefixLayer(prefix: string, l: Layer): Layer {
    match l
    case Use(path, mw) => Use(prefix + path, mw)
    case Route(verb, path, chain, final) => Route(verb, prefix + path, chain, final)
  }

  /** `router.use(prefix, sub.routes())`: the sub-router's layers, in order,
      with `prefix` prepended to each path. */
  function Prefixed(prefix: string, ls: seq<Layer>): (r: seq<Layer>)
    ensures |r| == |ls|
    ensures forall i :: 0 <= i < |ls| ==> r[i] == PrefixLayer(prefix, ls[i])
  {
    seq(|ls|, i requires 0 <= i < |ls| => PrefixLayer(prefix, ls[i]))
  }

  /** One `Use` layer per middleware, for the whole router. The path is
      kept empty so that mounting yields exactly the prefix; koa-router
      records `/` here, a difference that only the trailing-`/`
      normalisation, which is not modelled, could observe. */
  function UseLayers(mws: seq<Middleware>): (r: seq<Layer>)
    ensures |r| == |mws|
    ensures forall i :: 0 <= i < |mws| ==> r[i] == Use("", mws[i])
  {
    seq(|mws|, i requires 0 <= i < |mws| => Use("", mws[i]))
  }

  lemma PrefixedConcat(prefix: string, a: seq<Layer>, b: seq<Layer>)
    ensures Prefixed(prefix, a + b) == Prefixed(prefix, a) + Prefixed(prefix, b)
  {
  }

  /** Mounting twice is mounting once under the joined prefix. */
  lemma PrefixedTwice(p: string, q: string, ls: seq<Layer>)
    ensures Prefixed(p, Prefixed(q, ls)) == Prefixed(p + q, ls)
  {
    forall i | 0 <= i < |ls|
      ensures Prefixed(p, Prefixed(q, ls))[i] == Prefixed(p + q, ls)[i]
    {
      assert p + (q + ls[i].path) == (p + q) + ls[i].path;
    }
  }

  class Router {
    var stack: seq<Layer>

    constructor ()
      ensures stack == []
    {
      stack := [];
    }

    /** `router.use(...mws)`. */
    method Use(mws: seq<Middleware>)
      modifies this
      ensures stack == old(stack) + UseLayers(mws)
    {
      stack := stack + UseLayers(mws);
    }

    /** `router.use(prefix, sub.routes(), ...)`. */
    method Mount(prefix: string, layers: seq<Layer>)
      modifies this
      ensures stack == old(stack) + Prefixed(prefix, layers)
    {
      stack := stack + Prefixed(prefix, layers);
    }

    /** `router[verb](path, ...chain, final)`. */
    method Register(verb: string, path: string, chain: seq<Step>, final: Final)
      modifies this
      ensures stack == old(stack) + [Route(verb, path, chain, final)]
    {
      stack := stack + [Route(verb, path, chain, final)];
    }
  }
}
