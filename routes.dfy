/** The route table that a web application exposes, and the test that decides
    whether one of its routes is worth probing (ping.ts, lines 3-14). */
module Routes {

  /** A request handler, seen only from outside: an identity standing for the
      function object, and the number of formal parameters it declares
      (JavaScript's `Function.length`). The prober never calls it. */
  datatype Handler = Handler(id: nat, paramCount: nat)

  /** One registered endpoint: its path, its HTTP method (`verb`, since
      `method` is a Dafny keyword) and its handler. */
  datatype Route = Route(path: string, verb: string, handler: Handler)

  /** Routes mounted under this prefix are the synthetic padding routes. */
  const NoisyPrefix: string := "/noisy-routes"

  /** JavaScript's `String.prototype.startsWith` without a position argument:
      a plain character prefix test, with no notion of path segments. */
  predicate StartsWith(s: string, prefix: string)
  {
    |prefix| <= |s| && s[..|prefix|] == prefix
  }

  /** The handler declares exactly one formal parameter. */
  predicate IsRouteHandler(r: Route)
  {
    r.handler.paramCount == 1
  }

  /** The path lies under the noisy prefix. */
  predicate IsNoisyRoute(r: Route)
  {
    StartsWith(r.path, NoisyPrefix)
  }

  /** The filter applied to each route of the table: both tests must pass. */
  predicate IsPingable(r: Route)
  {
    IsRouteHandler(r) && !IsNoisyRoute(r)
  }

  /** `StartsWith` is the same as "the string is the prefix followed by
      something", in both directions. */
  lemma StartsWithIsPrefixConcat(s: string, prefix: string)
    ensures StartsWith(s, prefix) <==> exists rest :: s == prefix + rest
  {
    if StartsWith(s, prefix) {
      var rest := s[|prefix|..];
      assert s == prefix + rest;
    }
    if exists rest :: s == prefix + rest {
      var rest :| s == prefix + rest;
      assert s[..|prefix|] == prefix;
    }
  }

  /** Any path that extends the noisy prefix is excluded, whatever follows it,
      and whatever the handler's arity. */
  lemma NoisyExtensionExcluded(rest: string, m: string, h: Handler)
    ensures !IsPingable(Route(NoisyPrefix + rest, m, h))
  {
  }

  /** The test is a raw prefix test: "/noisy-routesX" and "/noisy-routes/3" are
      excluded, while "/noisy" (shorter than the prefix) and "/text" are kept
      when the handler takes one parameter. */
  lemma PrefixIsNotSegmentAware(h: Handler, m: string)
    requires h.paramCount == 1
    ensures !IsPingable(Route("/noisy-routesX", m, h))
    ensures !IsPingable(Route("/noisy-routes/3", m, h))
    ensures IsPingable(Route("/noisy", m, h))
    ensures IsPingable(Route("/text", m, h))
  {
  }
}
