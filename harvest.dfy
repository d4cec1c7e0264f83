/** The harvest of ping.ts (lines 10-23): a `reduce` over the application's
    route table that pushes onto an accumulator every route whose handler
    takes exactly one parameter and whose path is not under the noisy
    prefix. */
module Harvester {
  import opened Routes

  /** The harvested table: the pingable routes of `table`, in table order,
      each one as it stands in the table. */
  function Harvest(table: seq<Route>): seq<Route>
  {
    if table == [] then []
    else (if IsPingable(table[0]) then [table[0]] else []) + Harvest(table[1..])
  }

  /** The harvest as ping.ts performs it: one pass over the table, growing the
      accumulator `routes` by one freshly built record per route that passes
      both tests. */
  method HarvestRoutes(table: seq<Route>) returns (routes: seq<Route>)
    ensures routes == Harvest(table)
  {
    routes := [];
    for i := 0 to |table|
      invariant routes == Harvest(table[..i])
    {
      var r := table[i];
      var isRouteHandler := r.handler.paramCount == 1;
      var isNoisyRoutes := StartsWith(r.path, NoisyPrefix);
      if isRouteHandler && !isNoisyRoutes {
        routes := routes + [Route(r.path, r.verb, r.handler)];
      }
      assert table[..i + 1] == table[..i] + [r];
      HarvestAppend(table[..i], [r]);
    }
    assert table[..|table|] == table;
  }

  /** Harvesting is done route by route: the harvest of two tables laid end
      to end is the two harvests laid end to end. */
  lemma {:induction false} HarvestAppend(a: seq<Route>, b: seq<Route>)
    ensures Harvest(a + b) == Harvest(a) + Harvest(b)
  {
    if a == [] {
      assert a + b == b;
    } else {
      assert (a + b)[1..] == a[1..] + b;
      HarvestAppend(a[1..], b);
    }
  }

  /** Soundness and completeness: a route is in the harvest exactly when it
      is in the table, its handler declares one parameter and its path does
      not start with "/noisy-routes". */
  lemma {:induction false} HarvestMembership(table: seq<Route>, r: Route)
    ensures r in Harvest(table) <==>
      r in table && r.handler.paramCount == 1 && !StartsWith(r.path, NoisyPrefix)
  {
    if table != [] {
      HarvestMembership(table[1..], r);
      assert table == [table[0]] + table[1..];
    }
  }

  /** Duplicates are not merged: a pingable route occurs in the harvest as
      many times as in the table, any other route not at all. */
  lemma {:induction false} HarvestMultiplicity(table: seq<Route>, r: Route)
    ensures multiset(Harvest(table))[r] == if IsPingable(r) then multiset(table)[r] else 0
  {
    if table != [] {
      HarvestMultiplicity(table[1..], r);
      assert table == [table[0]] + table[1..];
    }
  }

  /** `s` can be obtained from `t` by deleting elements, without reordering. */
  predicate IsSubsequence(s: seq<Route>, t: seq<Route>)
    decreases |t|
  {
    if s == [] then true
    else if t == [] then false
    else (s[0] == t[0] && IsSubsequence(s[1..], t[1..])) || IsSubsequence(s, t[1..])
  }

  /** The harvest keeps the relative order of the table: it is a
      subsequence of it. */
  lemma {:induction false} HarvestIsSubsequence(table: seq<Route>)
    ensures IsSubsequence(Harvest(table), table)
  {
    if table != [] {
      HarvestIsSubsequence(table[1..]);
      if IsPingable(table[0]) {
        assert Harvest(table)[1..] == Harvest(table[1..]);
      } else {
        assert Harvest(table) == Harvest(table[1..]);
      }
    }
  }

  /** The number of pingable routes in a table, counted as the reduce sees
      them: from the first route to the last. */
  function CountPingable(table: seq<Route>): nat
  {
    if table == [] then 0
    else CountPingable(table[..|table| - 1]) + (if IsPingable(table[|table| - 1]) then 1 else 0)
  }

  /** Counting is done route by route, like harvesting. */
  lemma {:induction false} CountPingableAppend(a: seq<Route>, b: seq<Route>)
    ensures CountPingable(a + b) == CountPingable(a) + CountPingable(b)
    decreases |b|
  {
    if b == [] {
      assert a + b == a;
    } else {
      assert (a + b)[..|a + b| - 1] == a + b[..|b| - 1];
      CountPingableAppend(a, b[..|b| - 1]);
    }
  }

  /** The harvest holds as many routes as the table holds pingable ones. */
  lemma {:induction false} HarvestLength(table: seq<Route>)
    ensures |Harvest(table)| == CountPingable(table) <= |table|
  {
    if table != [] {
      HarvestLength(table[1..]);
      assert table == [table[0]] + table[1..];
      CountPingableAppend([table[0]], table[1..]);
      assert [table[0]][..0] == [];
    }
  }

  /** Where each route lands: the pingable route at position `j` of the table
      is copied, unchanged, to position "number of pingable routes before
      `j`" of the harvest. With HarvestLength this fixes every slot of the
      harvest. */
  lemma HarvestRank(table: seq<Route>, j: nat)
    requires j < |table| && IsPingable(table[j])
    ensures CountPingable(table[..j]) < |Harvest(table)|
    ensures Harvest(table)[CountPingable(table[..j])] == table[j]
  {
    var before, rest := table[..j], table[j + 1..];
    assert table == before + ([table[j]] + rest);
    HarvestAppend(before, [table[j]] + rest);
    HarvestAppend([table[j]], rest);
    HarvestLength(before);
    assert Harvest([table[j]]) == [table[j]];
  }

  /** An empty harvest means that no route of the table passes both tests,
      and conversely; in particular the empty table harvests to nothing. */
  lemma {:induction false} HarvestEmpty(table: seq<Route>)
    ensures Harvest(table) == [] <==> forall r | r in table :: !IsPingable(r)
  {
    if table != [] {
      HarvestEmpty(table[1..]);
      assert table == [table[0]] + table[1..];
    }
  }

  /** A table whose every route passes both tests is harvested whole. */
  lemma {:induction false} HarvestKeepsPingableTable(table: seq<Route>)
    requires forall r | r in table :: IsPingable(r)
    ensures Harvest(table) == table
  {
    if table != [] {
      HarvestKeepsPingableTable(table[1..]);
    }
  }

  /** Harvesting the harvest changes nothing. */
  lemma HarvestIdempotent(table: seq<Route>)
    ensures Harvest(Harvest(table)) == Harvest(table)
  {
    forall r | r in Harvest(table) ensures IsPingable(r) {
      HarvestMembership(table, r);
    }
    HarvestKeepsPingableTable(Harvest(table));
  }

  /** Routes mounted under the noisy prefix (the 25 numbered routes of the
      noisy sub-application) add nothing to the harvest, whatever their
      arity. */
  lemma NoisyMountAddsNothing(table: seq<Route>, mounted: seq<Route>)
    requires forall r | r in mounted :: StartsWith(r.path, NoisyPrefix)
    ensures Harvest(table + mounted) == Harvest(table)
  {
    HarvestAppend(table, mounted);
    HarvestEmpty(mounted);
  }

  /** Two registrations of the same path and method (the demo service
      registers "/fetch/sequential" twice) both survive the harvest, in their
      order, when their handlers take one parameter. */
  lemma RepeatedRegistrationKeptTwice(path: string, verb: string, first: Handler, second: Handler, between: Route)
    requires first.paramCount == 1 && second.paramCount == 1 && !StartsWith(path, NoisyPrefix)
    requires !IsPingable(between)
    ensures Harvest([Route(path, verb, first), between, Route(path, verb, second)])
         == [Route(path, verb, first), Route(path, verb, second)]
  {
    var table := [Route(path, verb, first), between, Route(path, verb, second)];
    assert table[1..][1..] == [Route(path, verb, second)];
    assert Harvest(table[1..][1..]) == [Route(path, verb, second)] + Harvest([]);
    assert Harvest(table[1..]) == Harvest(table[1..][1..]);
  }

  /** A small table: a one-parameter "/text" route is kept, a one-parameter
      "/noisy-routes/3" route and a two-parameter "/json" route are not. */
  lemma SmallTableHarvest(one: Handler, two: Handler)
    requires one.paramCount == 1 && two.paramCount == 2
    ensures Harvest([Route("/text", "GET", one), Route("/noisy-routes/3", "GET", one), Route("/json", "GET", two)])
         == [Route("/text", "GET", one)]
  {
    PrefixIsNotSegmentAware(one, "GET");
    var table := [Route("/text", "GET", one), Route("/noisy-routes/3", "GET", one), Route("/json", "GET", two)];
    assert table[1..][1..] == [Route("/json", "GET", two)];
    assert Harvest(table[1..][1..]) == Harvest([]);
    assert Harvest(table[1..]) == Harvest(table[1..][1..]);
  }
}
