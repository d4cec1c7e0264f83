/** The probe loop of ping.ts (lines 25-46): for each harvested route, in
    order, one awaited request to the base URL followed by the route's path,
    using the route's method; a response status or a caught error is logged
    and the loop goes on. */
module Prober {
  import opened Routes
  import opened Harvester

  /** The base URL hard-coded in ping.ts. */
  const BaseUrl: string := "http://localhost:8787"

  /** An outgoing request: the target URL and the HTTP method, with no body
      and no headers. */
  datatype Request = Request(url: string, verb: string)

  /** What one awaited `fetch` gives: a response, whatever its status (a 4xx
      or 5xx is not an error here), or a thrown transport error. */
  datatype Outcome = Status(code: nat) | Failure(error: string)

  /** One logged probe: the route's path, the request issued for it and what
      came back; `Status` is the `console.log` line, `Failure` the
      `console.error` line. */
  datatype Entry = Entry(path: string, request: Request, outcome: Outcome)

  /** The network, seen from the prober: the outcome of the request issued
      as the `n`-th of the run (counting from 0). Any succession of outcomes
      over a run can be written this way, including different outcomes for
      two identical requests. */
  type Network = (nat, Request) -> Outcome

  /** The request for one route: the URL is the base URL and the path glued
      together, with no encoding and no substitution of placeholders, so the
      path can be read back off the URL; the method is the route's. */
  function Target(baseUrl: string, route: Route): (req: Request)
    ensures StartsWith(req.url, baseUrl) && req.url[|baseUrl|..] == route.path
    ensures req.verb == route.verb
  {
    Request(baseUrl + route.path, route.verb)
  }

  /** One call of `pingRoute`, issued as the `n`-th request of the run: the
      outcome, success or caught failure, becomes the logged entry and never
      escapes. */
  function PingRoute(route: Route, baseUrl: string, n: nat, net: Network): Entry
  {
    var req := Target(baseUrl, route);
    match net(n, req)
    case Status(code) => Entry(route.path, req, Status(code))
    case Failure(error) => Entry(route.path, req, Failure(error))
  }

  /** The log of probing `routes` in order, the first of them being the
      `n`-th request of the run. */
  function ProbeTrace(routes: seq<Route>, baseUrl: string, net: Network, n: nat): seq<Entry>
  {
    if routes == [] then []
    else [PingRoute(routes[0], baseUrl, n, net)] + ProbeTrace(routes[1..], baseUrl, net, n + 1)
  }

  /** The trace, slot by slot: one entry per route, the `i`-th entry for the
      `i`-th route and the `n + i`-th request, logging that route's path,
      the request for it and the network's answer to that request. */
  lemma {:induction false} ProbeTraceAt(routes: seq<Route>, baseUrl: string, net: Network, n: nat)
    ensures |ProbeTrace(routes, baseUrl, net, n)| == |routes|
    ensures forall i | 0 <= i < |routes| ::
      var e := ProbeTrace(routes, baseUrl, net, n)[i];
      e.path == routes[i].path &&
      e.request == Request(baseUrl + routes[i].path, routes[i].verb) &&
      e.outcome == net(n + i, e.request)
  {
    if routes != [] {
      ProbeTraceAt(routes[1..], baseUrl, net, n + 1);
      var t := ProbeTrace(routes, baseUrl, net, n);
      forall i | 0 <= i < |routes|
        ensures t[i].path == routes[i].path
        ensures t[i].request == Request(baseUrl + routes[i].path, routes[i].verb)
        ensures t[i].outcome == net(n + i, t[i].request)
      {
        if i > 0 {
          assert t[i] == ProbeTrace(routes[1..], baseUrl, net, n + 1)[i - 1];
        }
      }
    }
  }

  /** `pingAllRoutes`: a sequential loop that awaits one probe per route and
      appends its entry to the log. Every route is attempted exactly once, in
      order, whatever the outcomes of the routes before it. */
  method PingAllRoutes(routes: seq<Route>, baseUrl: string, net: Network) returns (log: seq<Entry>)
    ensures |log| == |routes|
    ensures forall i | 0 <= i < |routes| :: log[i] == PingRoute(routes[i], baseUrl, i, net)
    ensures log == ProbeTrace(routes, baseUrl, net, 0)
  {
    log := [];
    for i := 0 to |routes|
      invariant |log| == i
      invariant forall k | 0 <= k < i :: log[k] == PingRoute(routes[k], baseUrl, k, net)
    {
      var entry := PingRoute(routes[i], baseUrl, i, net);
      log := log + [entry];
    }
    ProbeTraceAt(routes, baseUrl, net, 0);
  }

  /** A failure on one request touches only that request's entry: two
      networks that answer alike except at request `k` give traces that
      agree everywhere except at slot `k`. */
  lemma FailureIsIsolated(routes: seq<Route>, baseUrl: string, net1: Network, net2: Network, k: nat)
    requires forall n: nat, req: Request | n != k :: net1(n, req) == net2(n, req)
    ensures |ProbeTrace(routes, baseUrl, net1, 0)| == |ProbeTrace(routes, baseUrl, net2, 0)| == |routes|
    ensures forall i | 0 <= i < |routes| && i != k ::
      ProbeTrace(routes, baseUrl, net1, 0)[i] == ProbeTrace(routes, baseUrl, net2, 0)[i]
  {
    ProbeTraceAt(routes, baseUrl, net1, 0);
    ProbeTraceAt(routes, baseUrl, net2, 0);
  }

  /** With a base URL that nothing answers, every probe fails, yet every route
      is still attempted and logged, in order. */
  lemma UnreachableHostStillProbesAll(routes: seq<Route>, baseUrl: string, net: Network)
    requires forall n: nat, req: Request :: net(n, req).Failure?
    ensures |ProbeTrace(routes, baseUrl, net, 0)| == |routes|
    ensures forall i | 0 <= i < |routes| ::
      ProbeTrace(routes, baseUrl, net, 0)[i].path == routes[i].path &&
      ProbeTrace(routes, baseUrl, net, 0)[i].outcome.Failure?
  {
    ProbeTraceAt(routes, baseUrl, net, 0);
  }

  /** The whole script: harvest the application's route table, then probe
      the harvested routes one after the other against the fixed base URL. */
  method Run(table: seq<Route>, net: Network) returns (log: seq<Entry>)
    ensures log == ProbeTrace(Harvest(table), BaseUrl, net, 0)
    ensures |log| == CountPingable(table)
    ensures forall e | e in log ::
      !StartsWith(e.path, NoisyPrefix) && e.request.url == BaseUrl + e.path
    ensures table == [] ==> log == []
  {
    var routes := HarvestRoutes(table);
    log := PingAllRoutes(routes, BaseUrl, net);
    HarvestLength(table);
    forall e | e in log
      ensures !StartsWith(e.path, NoisyPrefix) && e.request.url == BaseUrl + e.path
    {
      var i :| 0 <= i < |log| && log[i] == e;
      HarvestMembership(table, routes[i]);
    }
  }
}
