# Route harvester and prober

A model of `ping.ts`, the health-check script of a small demonstration web
service. The script reads the application's route table (a sequence of
`{path, method, handler}` records), keeps the routes whose handler declares
exactly one parameter and whose path does not start with `/noisy-routes`, and
then sends one request per kept route to `http://localhost:8787` followed by
the route's path, one after the other. It logs the status of each response or
the error it caught, and never stops early.

- `routes.dfy` (module `Routes`): the `Route` and `Handler` records, the
  `StartsWith` prefix test and the filter predicate `IsPingable`.
- `harvest.dfy` (module `Harvester`): the specification function `Harvest`,
  the loop `HarvestRoutes` that grows the accumulator as the `reduce` does,
  and the properties of the harvest.
- `probe.dfy` (module `Prober`): requests, outcomes and log entries, the
  target URL, one probe (`PingRoute`), the log of a run (`ProbeTrace`), the
  sequential loop `PingAllRoutes` and the whole script `Run`.

The network is a parameter, `Network = (nat, Request) -> Outcome`. It gives
the outcome of the request sent as the n-th of the run: a `Status(code)` for
any response, whatever the code, or a `Failure(error)` for a thrown transport
error. The console output is modelled as the returned sequence of log entries.
The route field `method` is called `verb` in the model, because `method` is a
Dafny keyword.

## Model

| member | source | states |
|---|---|---|
| Routes.StartsWithIsPrefixConcat | ping.ts:12 | the path test holds exactly when the path is `/noisy-routes` followed by some string, in both directions |
| Routes.NoisyExtensionExcluded | ping.ts:12-14 | a route whose path is `/noisy-routes` followed by anything is never pingable, whatever its handler's arity |
| Routes.PrefixIsNotSegmentAware | ping.ts:12 | the test is a raw character prefix: `/noisy-routesX` and `/noisy-routes/3` are excluded, `/noisy` and `/text` are kept with a one-parameter handler |
| Harvester.HarvestRoutes | ping.ts:10-23 | the reduce loop, pushing a record with the same path, method and handler for each route that passes both tests, returns exactly the harvest of the table |
| Harvester.HarvestAppend | ping.ts:10-23 | the harvest of two tables laid end to end is the two harvests laid end to end; the filter decides each route on its own |
| Harvester.HarvestMembership | ping.ts:11-20 | a route is in the harvest if and only if it is in the table, its handler has exactly one parameter and its path does not start with `/noisy-routes` (soundness and completeness) |
| Harvester.HarvestMultiplicity | ping.ts:14-20 | duplicates are kept: a pingable route occurs in the harvest as often as in the table, any other route never |
| Harvester.HarvestIsSubsequence | ping.ts:10-23 | the harvest is a subsequence of the table, so the relative order of routes is preserved |
| Harvester.HarvestLength | ping.ts:10-23 | the harvest holds as many routes as the table holds pingable routes, and no more than the table |
| Harvester.CountPingableAppend | ping.ts:10-23 | the number of pingable routes of two tables laid end to end is the sum of their counts |
| Harvester.HarvestRank | ping.ts:15-19 | the pingable route at position j of the table appears unchanged in the harvest at the position given by the number of pingable routes before j |
| Harvester.HarvestEmpty | ping.ts:11-23 | the harvest is empty if and only if no route of the table passes both tests; the empty table gives the empty harvest |
| Harvester.HarvestKeepsPingableTable | ping.ts:11-14 | a table whose every route passes both tests is harvested whole |
| Harvester.HarvestIdempotent | ping.ts:10-23 | harvesting the harvest again gives the same sequence |
| Harvester.NoisyMountAddsNothing | ping.ts:12-14 | appending routes mounted under `/noisy-routes` to a table does not change its harvest, whatever their arity |
| Harvester.RepeatedRegistrationKeptTwice | src/index.ts:80-101 | two registrations of the same path and method with one-parameter handlers both survive, in order, with an excluded route between them |
| Harvester.SmallTableHarvest | ping.ts:11-14 | of a one-parameter `/text`, a one-parameter `/noisy-routes/3` and a two-parameter `/json` route, only `/text` is kept |
| Prober.Target | ping.ts:30-32 | the request URL starts with the base URL and the rest of it is exactly the route's path, unencoded; the method is the route's |
| Prober.ProbeTraceAt | ping.ts:28-44 | the log has one entry per route; entry i logs route i's path, the request to base URL plus that path with route i's method, and the network's answer to request i |
| Prober.PingAllRoutes | ping.ts:40-44 | the sequential loop attempts every route exactly once, in order, and logs one entry per route, the i-th being the probe of route i as the i-th request |
| Prober.FailureIsIsolated | ping.ts:29-37 | changing the network's answer to request k, for instance into a failure, changes only entry k of the log; every other route is still probed and logged the same |
| Prober.UnreachableHostStillProbesAll | ping.ts:35-37 | when every request fails, every route is still attempted and logged, in order, each with a failure |
| Prober.Run | ping.ts:10-46 | the whole script logs exactly the probes of the harvested routes against `http://localhost:8787`, as many as there are pingable routes, none of them under `/noisy-routes`, each to the base URL plus the logged path; an empty table gives an empty log |

## Left out

- Real network I/O, `async`/`await` scheduling and the absence of a timeout: the network is a parameter that always answers, so a request that hangs forever is not modelled.
- Console output text: the `Response from …` and `Error pinging …` lines are modelled as log entries (path, request, outcome), not as rendered strings.
- JavaScript `Function.length` details (default and rest parameters) and the arity of the middleware registered at src/index.ts:15: a handler's parameter count is a given natural number.
- How the framework builds the route table: route registration, the mounting of the noisy sub-application at src/index.ts:17 and its path joining, the endpoint bodies, the database and external fetches in src/index.ts and src/noisy-routes.ts. Tables are inputs; routes under the noisy prefix appear only through `NoisyMountAddsNothing` and the sample tables.
- Response bodies: the commented-out `response.json()` at ping.ts:33 is not modelled; only the status code is kept.
