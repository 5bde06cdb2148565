/**
 * The bookkeeping of the load-testing client: random SSNs for the request
 * paths, one recorded response per request, the fold that counts successes
 * and errors and sums response times, the SUCCESS/FAILURE verdict, and the
 * bounded retry of the health check that precedes the test.
 *
 * HTTP calls, clocks and timers are abstracted: each request's outcome and
 * elapsed time, each `Math.random` draw and each health ping's outcome are
 * inputs.
 */
module LoadTest {
  import opened Wrappers
  import CreditScores

  // ---------------------------------------------------------------------
  // SSNs

  /** `Math.floor(Math.random() * 10)` for a draw `r` of `Math.random`, which lies in [0, 1). */
  function CreateSingleDigit(r: real): (d: int)
    requires 0.0 <= r < 1.0
    ensures 0 <= d <= 9
    ensures d as real <= r * 10.0 < d as real + 1.0
  {
    (r * 10.0).Floor
  }

  /** The one character a digit becomes when it is appended to a string. */
  function DigitChar(d: int): (c: char)
    requires 0 <= d <= 9
    ensures '0' <= c <= '9' && c as int - '0' as int == d
  {
    ('0' as int + d) as char
  }

  predicate IsDigits(s: string) {
    forall i :: 0 <= i < |s| ==> '0' <= s[i] <= '9'
  }

  /**
   * Builds the eight-digit SSN from the first eight draws. The result always
   * passes the service's SSN check.
   */
  method CreateSSN(draws: seq<real>) returns (ssn: string)
    requires |draws| >= 8
    requires forall i :: 0 <= i < 8 ==> 0.0 <= draws[i] < 1.0
    ensures |ssn| == 8 && IsDigits(ssn)
    ensures forall i :: 0 <= i < 8 ==> ssn[i] == DigitChar(CreateSingleDigit(draws[i]))
    ensures CreditScores.ValidSsn(ssn)
  {
    ssn := "";
    var i := 0;
    while i < 8
      invariant 0 <= i <= 8
      invariant |ssn| == i
      invariant forall j :: 0 <= j < i ==> ssn[j] == DigitChar(CreateSingleDigit(draws[j]))
    {
      ssn := ssn + [DigitChar(CreateSingleDigit(draws[i]))];
      i := i + 1;
    }
  }

  // ---------------------------------------------------------------------
  // Recording responses

  /** How one request settled: its response body, or an error; with the elapsed milliseconds. */
  datatype RequestOutcome = Resolved(data: string, elapsed: int) | Failed(elapsed: int)

  datatype ResponseMetrics = ResponseMetrics(time: int, response: Option<string>, success: bool)

  /** The entry `runRequest` writes: the `then` branch on a response, the `catch` branch on an error. */
  function Record(outcome: RequestOutcome): ResponseMetrics {
    match outcome
    case Resolved(data, elapsed) => ResponseMetrics(elapsed, Some(data), true)
    case Failed(elapsed) => ResponseMetrics(elapsed, None, false)
  }

  /** The entries a load test of `load` requests writes: one per request index. */
  function Recorded(outcomes: seq<RequestOutcome>, load: int): map<int, ResponseMetrics>
    requires load <= |outcomes|
  {
    map i | 0 <= i < load :: Record(outcomes[i])
  }

  /** `Object.values` of a record whose keys are exactly `0 .. count - 1`: the values in key order. */
  function ObjectValues(responses: map<int, ResponseMetrics>, count: nat): seq<ResponseMetrics>
    requires forall i :: i in responses <==> 0 <= i < count
  {
    seq(count, i requires 0 <= i < count => responses[i])
  }

  /** The client's shared `responses` record. */
  class LoadTester {
    var responses: map<int, ResponseMetrics>

    constructor ()
      ensures responses == map[]
    {
      responses := map[];
    }

    /** One request settling: it writes its own entry and no other. */
    method RunRequest(requestNum: int, outcome: RequestOutcome)
      modifies this
      ensures responses == old(responses)[requestNum := Record(outcome)]
    {
      responses := responses[requestNum := Record(outcome)];
    }

    /** Issues requests `0 .. load - 1`; once all have settled, each has written its entry. */
    method RunLoadTest(load: int, outcomes: seq<RequestOutcome>) returns (issued: nat)
      requires load <= |outcomes|
      modifies this
      ensures issued == if load < 0 then 0 else load
      ensures responses == old(responses) + Recorded(outcomes, load)
    {
      issued := 0;
      var i := 0;
      while i < load
        invariant 0 <= i <= (if load < 0 then 0 else load)
        invariant issued == i
        invariant responses == old(responses) + Recorded(outcomes, i)
      {
        RunRequest(i, outcomes[i]);
        issued := issued + 1;
        i := i + 1;
      }
    }
  }

  // ---------------------------------------------------------------------
  // Folding the results

  datatype Metrics = Metrics(totalTime: int, successes: int, errors: int)

  /** The reducer of `processResults`: one response adds its time and exactly one success or one error. */
  function Tally(results: Metrics, response: ResponseMetrics): (r: Metrics)
    ensures r.successes + r.errors == results.successes + results.errors + 1
  {
    Metrics(results.totalTime + response.time,
            results.successes + (if response.success then 1 else 0),
            results.errors + (if response.success then 0 else 1))
  }

  /** `values.reduce(Tally, {totalTime: 0, successes: 0, errors: 0})`, folding from the left. */
  function Reduce(values: seq<ResponseMetrics>): (m: Metrics)
    ensures m.successes >= 0 && m.errors >= 0
    ensures m.successes + m.errors == |values|
  {
    if values == [] then Metrics(0, 0, 0)
    else Tally(Reduce(values[..|values| - 1]), values[|values| - 1])
  }

  /** Reference count of successful responses. */
  function SuccessCount(values: seq<ResponseMetrics>): nat {
    if values == [] then 0 else (if values[0].success then 1 else 0) + SuccessCount(values[1..])
  }

  /** Reference sum of the recorded times. */
  function TimeSum(values: seq<ResponseMetrics>): int {
    if values == [] then 0 else values[0].time + TimeSum(values[1..])
  }

  lemma {:induction false} SuccessCountSnoc(values: seq<ResponseMetrics>, x: ResponseMetrics)
    ensures SuccessCount(values + [x]) == SuccessCount(values) + (if x.success then 1 else 0)
    ensures TimeSum(values + [x]) == TimeSum(values) + x.time
  {
    if values != [] {
      assert (values + [x])[1..] == values[1..] + [x];
      SuccessCountSnoc(values[1..], x);
    }
  }

  /**
   * The fold computes the sum of the recorded times, the number of successes
   * and the number of errors, starting from all zeros.
   */
  lemma {:induction false} ReduceTotals(values: seq<ResponseMetrics>)
    ensures Reduce(values) == Metrics(TimeSum(values), SuccessCount(values), |values| - SuccessCount(values))
  {
    if values != [] {
      var init := values[..|values| - 1];
      ReduceTotals(init);
      assert init + [values[|values| - 1]] == values;
      SuccessCountSnoc(init, values[|values| - 1]);
    }
  }

  /** All responses succeeded exactly when every one of them counts as a success. */
  lemma {:induction false} SuccessCountFull(values: seq<ResponseMetrics>)
    ensures SuccessCount(values) <= |values|
    ensures SuccessCount(values) == |values| <==> forall i :: 0 <= i < |values| ==> values[i].success
  {
    if values != [] {
      SuccessCountFull(values[1..]);
      assert forall i :: 1 <= i < |values| ==> values[i] == values[1..][i - 1];
    }
  }

  datatype Verdict = Success | Failure

  /** `!metrics.errors && metrics.successes === load`. */
  function Judge(metrics: Metrics, load: int): Verdict {
    if metrics.errors == 0 && metrics.successes == load then Success else Failure
  }

  /**
   * End to end: a load test of `load` requests reports SUCCESS exactly when
   * `load` is not negative and every request received a response.
   */
  lemma LoadTestSucceedsIffAllResolved(outcomes: seq<RequestOutcome>, load: int)
    requires load <= |outcomes|
    ensures var count := if load < 0 then 0 else load;
      Judge(Reduce(ObjectValues(Recorded(outcomes, load), count)), load) == Success <==>
      load >= 0 && forall i :: 0 <= i < load ==> outcomes[i].Resolved?
  {
    var count := if load < 0 then 0 else load;
    var values := ObjectValues(Recorded(outcomes, load), count);
    ReduceTotals(values);
    SuccessCountFull(values);
    if load >= 0 && forall i :: 0 <= i < load ==> outcomes[i].Resolved? {
      assert forall i :: 0 <= i < |values| ==> values[i].success;
    }
    if load >= 0 && Judge(Reduce(values), load) == Success {
      forall i | 0 <= i < load
        ensures outcomes[i].Resolved?
      {
        assert values[i].success;
      }
    }
  }

  // ---------------------------------------------------------------------
  // Health check with retries

  /** How the health check ends: ready after some attempts, or the error naming the retry count. */
  datatype HealthResult = Ready(attempts: nat) | Aborted(retries: nat)

  /** The most attempts a health check starting at `retries` can make. */
  function AttemptBound(retries: nat, maxRetries: nat): (b: nat)
    ensures b >= 1
  {
    if retries < maxRetries then maxRetries - retries + 1 else 1
  }

  /**
   * `runHealthTest(retries, maxRetries)`: attempt `j` (counting from 0) runs
   * with `retries + j` and passes when `pings[j]` is `true`, that is, when
   * the ping's race settles without rejecting (see `Settles`). A failed
   * attempt recurses with `retries + 1` while `retries < maxRetries`, and
   * throws otherwise.
   */
  function RunHealthTest(retries: nat, maxRetries: nat, pings: seq<bool>): (r: HealthResult)
    requires |pings| >= AttemptBound(retries, maxRetries)
    ensures r.Ready? ==>
      1 <= r.attempts <= AttemptBound(retries, maxRetries) &&
      pings[r.attempts - 1] && forall j :: 0 <= j < r.attempts - 1 ==> !pings[j]
    ensures r.Aborted? <==> forall j :: 0 <= j < AttemptBound(retries, maxRetries) ==> !pings[j]
    ensures r.Aborted? ==> r.retries == if retries < maxRetries then maxRetries else retries
    // the last allowed attempt, number `AttemptBound - 1`, runs with `retries + AttemptBound - 1`
    ensures r.Aborted? ==> r.retries == retries + AttemptBound(retries, maxRetries) - 1
    decreases if retries < maxRetries then maxRetries - retries else 0
  {
    if pings[0] then Ready(1)
    else if retries < maxRetries then
      match RunHealthTest(retries + 1, maxRetries, pings[1..])
      case Ready(a) => Ready(a + 1)
      case Aborted(n) => Aborted(n)
    else Aborted(retries)
  }

  /** With the defaults (`retries = 0`, `maxRetries = 3`) the check makes at most four attempts. */
  lemma DefaultHealthTestBound(pings: seq<bool>)
    requires |pings| >= 4
    ensures RunHealthTest(0, 3, pings).Ready? ==> RunHealthTest(0, 3, pings).attempts <= 4
    ensures RunHealthTest(0, 3, pings).Aborted? <==> !pings[0] && !pings[1] && !pings[2] && !pings[3]
  {
  }

  /** How one health ping ends: the health request answered, the request failed, or a second passed first. */
  datatype Ping = Answered(healthy: bool) | RequestFailed | TimedOut

  /**
   * What the delay raced against the health request does when its second is
   * up. As written `delay()` is called with `err = false`, so it resolves.
   */
  datatype DelayOutcome = ResolvesOnTimeout | RejectsOnTimeout

  /**
   * Whether the race of `pingService` settles without rejecting. The
   * `healthy` flag of an answer is never inspected, so any answer passes;
   * a timeout passes too unless the delay rejects.
   */
  predicate Settles(ping: Ping, delay: DelayOutcome) {
    match ping
    case Answered(_) => true
    case RequestFailed => false
    case TimedOut => delay == ResolvesOnTimeout
  }

  /** The attempt results of a sequence of pings. */
  function Settled(pings: seq<Ping>, delay: DelayOutcome): seq<bool> {
    seq(|pings|, j requires 0 <= j < |pings| => Settles(pings[j], delay))
  }

  /**
   * As written, a service that never answers within the second still passes
   * the health check, at the first attempt.
   */
  lemma TimedOutPingPasses(pings: seq<Ping>)
    requires |pings| >= 4 && pings[0] == TimedOut
    ensures RunHealthTest(0, 3, Settled(pings, ResolvesOnTimeout)) == Ready(1)
  {
  }

  /**
   * With a delay that rejects on timeout, the health check passes exactly when
   * one of its four attempts got an answer, and it ends at the first answer.
   */
  lemma RejectingDelayNeedsAnswer(pings: seq<Ping>)
    requires |pings| >= 4
    ensures var r := RunHealthTest(0, 3, Settled(pings, RejectsOnTimeout));
      (r.Ready? <==> exists j :: 0 <= j < 4 && pings[j].Answered?) &&
      (r.Ready? ==> pings[r.attempts - 1].Answered?)
  {
  }
}
