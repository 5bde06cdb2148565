# Load-balancer demo: a Dafny model of its dispatching and bookkeeping

This project models three small cores of a Node.js load-balancing demo and proves properties of them.

- **Network balancer** (`NetworkBalancer`, `network_balancer.dfy`). Requests are spread over a fixed registry of machines (`a`, `b`, `c`). The threshold is `MAX = 250`, and a persistent cursor `lastIdx` drives a round-robin loop. Each request reads one queue-depth sample per machine. It then makes one try per machine, starting after the cursor. Each try pipes the request to the candidate when the candidate's depth is below `MAX`. `Dispatcher` is a class holding the cursor. `Dispatcher.Dispatch` is the loop exactly as written. The `Gate` parameter picks which eligibility test it runs: `WholeObject` is the test as written, `PerMachine` is the intended one.
- **Credit-score service** (`CreditScores`, `credit_scores.dfy`). A middleware counts every request, `/health` answers `{ healthy: true }`, and `/:ssn` keeps one credit report per SSN in a key/value store:
  - it rejects a malformed SSN with 400;
  - on a hit it appends one event, recalculates and writes the report back;
  - if the cached text is unreadable it deletes the key and answers 500;
  - on a miss it caches a fresh report.

  The store is a `map`. `ServeScore` is the pure specification of one request. `CreditScoreService.Handle` is the imperative handler, proved against it.
- **Load tester** (`LoadTest`, `load_test.dfy`):
  - SSNs are built digit by digit from `Math.random` draws;
  - each request index gets one entry in the `responses` record;
  - a `reduce` fold computes total time, successes and errors, and a SUCCESS/FAILURE verdict follows;
  - a health check is retried up to `maxRetries` times.

`wrappers.dfy` holds the `Option` type the modules share.

The code itself shows three places where what it does differs from what it was evidently meant to do. The model follows the code:
- `sent` is declared at src/network_balancer/src/index.ts:34 and tested in the loop guard at :37, but never assigned. So the loop always makes one try per machine and pipes the request to every eligible machine.
- The snapshot is typed `string | null` per machine (:27), and the true branch of the test parses `currentQueues[curMachine]` (:42). Both show a per-machine test was meant. But the test at :41 applies `typeof` to the whole snapshot object, so every machine gets `MAX` and is refused.
- The worker exit handler logs "going to respawn" (src/balancer/src/index.ts:15) but forks nothing.

The two balancer discrepancies are recorded under "## Findings", with the as-written behaviour and a corrected version. A third finding concerns the load tester's health check.

## Model

| member | source | states |
|---|---|---|
| `NetworkBalancer.QueueDepth` | src/network_balancer/src/index.ts:41-43 | Defines the `currentQueue` of a candidate: `MAX` under the test as written; under the per-machine test the candidate's parsed sample, or `MAX` when it is missing. |
| `NetworkBalancer.Eligible` | src/network_balancer/src/index.ts:45 | Defines the gate: a depth strictly below `MAX`. |
| `NetworkBalancer.ThresholdBoundary` | src/network_balancer/src/index.ts:43-45 | The gate is strict: depth 250 (`MAX`) is refused and 249 is accepted. |
| `NetworkBalancer.MissingSampleFailsClosed` | src/network_balancer/src/index.ts:41-43 | A machine whose sample is `null` gets depth `MAX`, so it is never eligible under either gate. |
| `NetworkBalancer.TryIndex` | src/network_balancer/src/index.ts:39 | The candidate index `curIdx` of every try lies in `[0, n)`. |
| `NetworkBalancer.CandidateAt` | src/network_balancer/src/index.ts:39-50 | Try `j` of a request whose cursor starts at `lastIdx` looks at index `(lastIdx + j + 1) mod n`: the rotation `(lastIdx+1) mod n, …, (lastIdx+n) mod n`. |
| `NetworkBalancer.Candidates` | src/network_balancer/src/index.ts:37-50 | The candidate indices of `k` tries: `k` of them, each below the machine count. |
| `NetworkBalancer.RotationDistinct` | src/network_balancer/src/index.ts:37-50 | The `n` tries of one request look at pairwise distinct indices. So no machine is tried twice. |
| `NetworkBalancer.RotationCovers` | src/network_balancer/src/index.ts:37-50 | Every machine index is the candidate of some try among the `n` tries of one request. |
| `NetworkBalancer.RotationRepeats` | src/network_balancer/src/index.ts:34-51 | A cursor advanced by `n` gives the identical candidate order. As written, every request starts its rotation at the same machine. |
| `NetworkBalancer.Piped` | src/network_balancer/src/index.ts:37-51 | The machines the first `k` tries pipe to, in try order. Each try pipes at most once, so there are at most `k` of them. |
| `NetworkBalancer.PipedMembership` | src/network_balancer/src/index.ts:37-51 | A machine is piped to in the first `k` tries iff one of those tries looked at it and it passed the gate. |
| `NetworkBalancer.PipedAreEligible` | src/network_balancer/src/index.ts:45-47 | Every machine piped to is in the registry and has a depth below `MAX`. |
| `NetworkBalancer.PipedPrefix` | src/network_balancer/src/index.ts:37-51 | Later tries only extend the list of machines piped to: the list after `k` tries is a prefix of the list after `k'` tries. |
| `NetworkBalancer.PipedAreExactlyEligible` | src/network_balancer/src/index.ts:27-51 | Under the per-machine gate, one request pipes to exactly the registry machines whose sample is present and below 250. |
| `NetworkBalancer.WholeObjectGateNeverPipes` | src/network_balancer/src/index.ts:41-45 | Under the test as written (`typeof` of the whole snapshot), no machine is ever piped to, for any snapshot. |
| `NetworkBalancer.AllEligiblePipesToAll` | src/network_balancer/src/index.ts:34-51 | Because `sent` stays `false`, a request whose machines are all below `MAX` is piped to every machine once, in rotation order. |
| `NetworkBalancer.DeployedFirstRequest` | src/network_balancer/src/index.ts:7-51 | For the deployed registry `a, b, c` with `lastIdx = 0`, the tries look at `b`, `c`, `a`. With samples `a: 10, b: 260, c: 5`, the per-machine test pipes to `c` then `a`. The test as written pipes to nobody. |
| `NetworkBalancer.Dispatcher.constructor` | src/network_balancer/src/index.ts:7-14 | A dispatcher starts with the given non-empty registry and `lastIdx = 0`. |
| `NetworkBalancer.Dispatcher.Dispatch` | src/network_balancer/src/index.ts:26-51 | The handler makes exactly `n` tries and `lastIdx` grows by exactly `n`, so `lastIdx mod n` is unchanged. The tried indices are the rotation from the cursor, and the machines piped to are the gated rotation `Piped`. The snapshot is a value taken before the loop. |
| `NetworkBalancer.Dispatcher.DispatchOnce` | src/network_balancer/src/index.ts:34-51 | The corrected loop pipes to at most one machine: the first eligible one in rotation order, or none when `Piped` is empty. The cursor stops on that machine, or advances by `n` when no machine is eligible. |
| `CreditScores.CreateInitialCreditScore` | src/services/credit_scores/src/utils.ts:46-58 | A fresh report has no events, the drawn age, and one score for each of Equifax, Transunion and Experian. |
| `CreditScores.RecalculateScore` | src/services/credit_scores/src/utils.ts:61-78 | It throws (`None`) exactly when the report has no bureaus: `averageScores` then reduces an empty array. Otherwise every bureau is rescored, the bureau names stay the same, and through the spread the events and the age are kept. |
| `CreditScores.ValidSsn` | src/services/credit_scores/src/index.ts:39 | Defines the SSN check: not empty and exactly 8 characters long. |
| `CreditScores.IsHit` | src/services/credit_scores/src/index.ts:46-48 | Defines a hit: the key is present and its cached string is truthy, that is, not empty. |
| `CreditScores.HitThrows` | src/services/credit_scores/src/index.ts:49-70 | Defines which cached entries make the `try` block throw: text that does not parse as a report, or a report with no bureaus, whose average reduces an empty array (src/services/credit_scores/src/utils.ts:38-41). |
| `CreditScores.ServeScore` | src/services/credit_scores/src/index.ts:37-78 | <ul><li>An empty or non-8-character SSN, and only that, yields 400 with the store untouched.</li><li>A miss (absent or empty-string entry) caches and returns a report with no events and the three bureaus.</li><li>A hit whose `try` block does not throw stores and returns the old events plus exactly the new event, with the age and the bureau names kept.</li><li>A hit whose `try` block throws (unparsable text, or a report with no bureaus), and only that, deletes the key and yields 500.</li><li>No key other than `ssn` changes.</li></ul> |
| `CreditScores.ServeAll` | src/services/credit_scores/src/index.ts:37-78 | Over a sequence of `/:ssn` requests for one SSN, no other key of the store changes. |
| `CreditScores.Events` | src/services/credit_scores/src/index.ts:52-53 | The events the successive requests draw, in request order. |
| `CreditScores.RepeatedRequestsAccumulateEvents` | src/services/credit_scores/src/index.ts:46-77 | After `k` requests for a new valid SSN, the cached report holds the events of requests 2..k in order. It keeps the age drawn by the first request and the three bureaus. |
| `CreditScores.AccumulateFrom` | src/services/credit_scores/src/index.ts:48-57 | Start from a cached report that has bureaus. Each further request appends its own event and keeps the age and the bureau names, so no later request throws. |
| `CreditScores.CreditScoreService.constructor` | src/services/credit_scores/src/index.ts:21-23 | A worker starts with its store and `requestNumber = 0`. |
| `CreditScores.CreditScoreService.Handle` | src/services/credit_scores/src/index.ts:23-37 | `requestNumber` rises by exactly one for every request, `/health` included. `/health` answers `{ healthy: true }` and leaves the store alone. `/:ssn` behaves as `ServeScore`. |
| `CreditScores.CreditScoreService.ScoreRoute` | src/services/credit_scores/src/index.ts:37-78 | The imperative route (validate, get, push, set, or del) leaves the response and the store that `ServeScore` specifies. |
| `LoadTest.CreateSingleDigit` | src/utils/load_test.ts:34-35 | A draw in `[0, 1)` gives the digit `floor(10r)`, which lies in `[0, 9]`. |
| `LoadTest.DigitChar` | src/utils/load_test.ts:42 | Appending a digit to the string adds the one character `'0' + d`. |
| `LoadTest.CreateSSN` | src/utils/load_test.ts:37-46 | The SSN has exactly 8 characters. Character `i` is the digit of draw `i`. The SSN passes the service's length check. |
| `LoadTest.Record` | src/utils/load_test.ts:67-89 | Defines the entry of one request: on a response `success = true`, the data and its time; on an error `success = false`, a `null` response and its time. |
| `LoadTest.Recorded` | src/utils/load_test.ts:92-96 | Defines the entries a load test writes: one per request index `0..load-1`, each its own request's entry. |
| `LoadTest.ObjectValues` | src/utils/load_test.ts:99 | Defines `Object.values` of a record keyed exactly `0..count-1`: the entries in ascending key order. |
| `LoadTest.LoadTester.constructor` | src/utils/load_test.ts:60 | The record starts empty. |
| `LoadTest.LoadTester.RunRequest` | src/utils/load_test.ts:67-90 | A request writes its own index's entry and no other. |
| `LoadTest.LoadTester.RunLoadTest` | src/utils/load_test.ts:92-96 | The loop issues `max(load, 0)` requests. The record gains exactly the entries `Recorded(outcomes, load)`. |
| `LoadTest.Tally` | src/utils/load_test.ts:99-107 | Defines the reducer: it adds the response's time, and one success or one error by the response's flag. Its contract: successes plus errors rise by exactly one. |
| `LoadTest.Reduce` | src/utils/load_test.ts:99-112 | The fold starts from zeros. Its successes and errors are non-negative and add up to the number of recorded responses. |
| `LoadTest.ReduceTotals` | src/utils/load_test.ts:99-112 | The folded `totalTime` is the sum of the recorded times. `successes` is the number of successful entries, and `errors` the rest. |
| `LoadTest.SuccessCountFull` | src/utils/load_test.ts:100-101 | The success count is at most the number of entries. It equals that number iff every entry succeeded. |
| `LoadTest.Judge` | src/utils/load_test.ts:116 | Defines the verdict: SUCCESS when there are no errors and the success count equals `load`, FAILURE otherwise. |
| `LoadTest.LoadTestSucceedsIffAllResolved` | src/utils/load_test.ts:116-128 | The SUCCESS branch (`errors == 0 && successes == load`) is taken iff `load >= 0` and every request got a response. |
| `LoadTest.AttemptBound` | src/utils/load_test.ts:157-173 | The number of attempts the recursion allows: `maxRetries - retries + 1` while `retries < maxRetries`, and 1 otherwise. |
| `LoadTest.RunHealthTest` | src/utils/load_test.ts:157-173 | <ul><li>It ends ready at the first attempt that succeeds, after at most `AttemptBound` attempts.</li><li>It throws iff every allowed attempt fails.</li><li>The error it throws names the `retries` of the last allowed attempt, `retries + AttemptBound - 1`: `maxRetries` when the call starts below `maxRetries`, and the starting `retries` otherwise.</li></ul> |
| `LoadTest.DefaultHealthTestBound` | src/utils/load_test.ts:157 | With the defaults, at most 4 attempts are made. It throws iff all four fail. |
| `LoadTest.Settles` | src/utils/load_test.ts:142-155 | Defines whether the race of `pingService` settles without rejecting: any answer passes (the `healthy` flag is never read), a failed request does not, and a timeout passes unless the delay rejects. |
| `LoadTest.Settled` | src/utils/load_test.ts:142-155 | Defines the attempt results of a sequence of pings: `Settles` of each ping, in order. |
| `LoadTest.TimedOutPingPasses` | src/utils/load_test.ts:142-166 | As written, a first ping that times out ends the health check as ready after one attempt. |
| `LoadTest.RejectingDelayNeedsAnswer` | src/utils/load_test.ts:142-173 | With a delay that rejects on timeout, the check passes iff one of its four pings got an answer, and it ends at an answered ping. |

## Findings

| source | as written | input that shows it | evidently intended | confidence | as-written member | corrected member |
|---|---|---|---|---|---|---|
| src/network_balancer/src/index.ts:41-43 | `typeof currentQueues === 'string'` tests the whole snapshot object, which is never a string. So every candidate gets `MAX` and none is eligible. | any snapshot, e.g. `{a: "0", b: "0", c: "0"}`: nothing is piped | test the candidate's own sample, `typeof currentQueues[curMachine] === 'string'`, with `null` falling back to `MAX` | high (not executed) | `NetworkBalancer.WholeObjectGateNeverPipes` | `NetworkBalancer.PipedAreExactlyEligible` |
| src/utils/load_test.ts:142-155 | `pingService` races the health request against `delay()`, whose `err` defaults to `false`. So the race resolves after one second even when the service never answers. | a service that accepts connections but does not answer within a second: the first attempt passes | race against `delay(1000, true)`, so a timeout rejects and the attempt is retried | medium (not executed) | `LoadTest.TimedOutPingPasses` | `LoadTest.RejectingDelayNeedsAnswer` |
| src/network_balancer/src/index.ts:34-51 | `sent` is never set to `true`. So the loop always makes all `n` tries and pipes the request to every eligible machine. | per-machine gate with samples `{a: "0", b: "0", c: "0"}`: the request is piped to `b`, `c` and `a` | set `sent = true` after `req.pipe`, so the request goes to the first eligible machine only | high (not executed) | `NetworkBalancer.AllEligiblePipesToAll` | `NetworkBalancer.Dispatcher.DispatchOnce` |

## Left out

- The process supervisor (`src/balancer/src/index.ts`, `src/cpu_balancer/src/index.ts`) is not part of this model. It is `cluster.fork` plumbing, and its exit handler only logs: nothing respawns.
- Express routing, listening and response sending are left out. So are Redis I/O, `req.pipe`, the placeholder `networkedMachineURLS`, and console or chalk output. The store is a map, and a queue snapshot is a parameter.
- `parseInt` and `JSON.parse`/`JSON.stringify` are abstracted. A sample is `Some(d)` when the string parses to the integer `d`. `null`, a missing key, and a string that parses to NaN are all `None`; NaN is never below `MAX`, so this loses nothing. A cached entry is either the JSON text of a report or unreadable text.
- The `/` handler never uses its response object (src/network_balancer/src/index.ts:26), so no reply is ever sent, whether or not the request is piped. The model returns only the list of targets piped to, which may be empty.
- The concurrency of the async handlers is left out. In the balancer the loop contains no `await`, so each request's cursor updates happen together. In the credit service, two requests may interleave between `get` and `set`; the model runs requests one after another.
- Dispatcher.Dispatch: `lastIdx` and `requestNumber` are JavaScript numbers. The model uses unbounded naturals, so precision loss beyond 2^53 is not modelled.
- CreditScores.ServeScore: a failed Redis `set` inside the `try` would also reach the delete-and-500 branch. Store failures are not modelled.
- The internals of `createCreditEvent`, `genBureauScores`, `averageScores` and `recalculateScore` are left out: they use floating point and `Math.random`. The new event, each bureau's new score, the new average, the initial scores and the initial age arrive as the `Draws` parameter. What is modelled: the bureau names the helpers keep, that the spread keeps events and age, and that averaging no bureaus throws.
- CreditScores.ServeScore: the event and score fields stand for opaque values. `createCreditEvent` indexes past its arrays (src/services/credit_scores/src/utils.ts:25, :28), so a real event can carry an `undefined` type and a NaN impact. The scores that follow are then NaN. `JSON.stringify` writes NaN as `null` and drops `undefined` keys. Those values and their JSON round trip are not modelled, and a `ReportJson` entry stands for text that parses to an object of the report's shape.
- CreditScores.ValidSsn: JavaScript's `length` counts UTF-16 code units. The model counts characters, which differ only for characters outside the Basic Multilingual Plane.
- The load tester's argument parsing, axios, `Date.now`, `setTimeout`, `Promise.race`/`Promise.all` and `process.exit` are left out. Each request's outcome and elapsed time, each random draw and each ping outcome are inputs.
- The average response time `totalTime / load` is a floating-point division and is not modelled.
- LoadTest.CreateSingleDigit: `Math.random()` and the multiplication by 10 are taken as exact reals, not IEEE doubles.
- `main`, which runs the health check and then the load test, is not modelled as a member. Its two steps are `RunHealthTest` and `LoadTester.RunLoadTest`.
- The commented-out machine registration at src/network_balancer/src/index.ts:53-58 is never executed and is not modelled.
