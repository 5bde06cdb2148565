/**
 * The credit-score service: a request counter and the `/:ssn` handler, which
 * keeps one credit report per SSN in a key/value store.
 *
 * The store is a map from SSN to what was cached under it. Everything the
 * service draws from `Math.random` or computes in floating point arrives as
 * a `Draws` parameter: the new credit event, each bureau's recalculated
 * score, the recalculated average, the initial scores and the initial age.
 * The helper functions are modelled by the keys and fields they keep and by
 * the one case in which they throw.
 */
module CreditScores {
  import opened Wrappers

  datatype CreditEventType = Inquiry | Loan | Delinquency

  datatype CreditEvent = CreditEvent(kind: CreditEventType, impact: int)

  /** A cached report: the rounded average, the per-bureau scores, the event history and the credit age. */
  datatype CreditReport = CreditReport(average: int, bureau: map<string, real>, events: seq<CreditEvent>, age: int)

  /** The three bureaus a fresh report is scored by. */
  const BureauNames: set<string> := {"Equifax", "Transunion", "Experian"}

  /** The drawn scores of a fresh report and their rounded average. */
  datatype InitialScores = InitialScores(equifax: real, transunion: real, experian: real, average: int)

  /**
   * The values one `/:ssn` request draws at random. `rescore(name, old)` is
   * the new score of bureau `name` whose old score is `old`, and
   * `rescoredAverage` the rounded average of the new scores.
   */
  datatype Draws = Draws(event: CreditEvent, rescore: (string, real) -> real, rescoredAverage: int,
                         initial: InitialScores, initialAge: int)

  /**
   * What the store holds under a key. `ReportJson` is text that `JSON.parse`
   * turns into an object of the report's shape; `Unparsable` is any other
   * text, on which `JSON.parse` or the use of its result throws.
   */
  datatype Stored = ReportJson(report: CreditReport) | Unparsable(raw: string)

  type Store = map<string, Stored>

  datatype Response =
    | HealthStatus(healthy: bool)
    | Scored(report: CreditReport)
    | BadRequest(message: string)
    | ServerError(message: string)

  function StatusCode(r: Response): int {
    match r
    case BadRequest(_) => 400
    case ServerError(_) => 500
    case _ => 200
  }

  const InvalidSsnMessage := "Cannot provide a credit score without a valid 8 digit SSN."
  const UnparsableMessage := "Could not parse the credit score using the string in the redis cache. Going to delete it. Please try again later!"

  /** A fresh report: one score per bureau, the drawn age, and no events yet. */
  function CreateInitialCreditScore(scores: InitialScores, age: int): (r: CreditReport)
    ensures r.events == [] && r.age == age && r.average == scores.average
    ensures r.bureau.Keys == BureauNames
  {
    var bureau := map["Equifax" := scores.equifax, "Transunion" := scores.transunion, "Experian" := scores.experian];
    CreditReport(scores.average, bureau, [], age)
  }

  /**
   * `recalculateScore`: every bureau of the report is rescored, the spread
   * keeps the events and the age, and the average of the new scores is taken.
   * That average throws when there are no bureaus (`reduce` of an empty
   * array without an initial value), which is the `None` result.
   */
  function RecalculateScore(report: CreditReport, rescore: (string, real) -> real, average: int): (r: Option<CreditReport>)
    ensures r.None? <==> report.bureau == map[]
    ensures r.Some? ==> r.value.events == report.events && r.value.age == report.age && r.value.average == average
    ensures r.Some? ==> r.value.bureau.Keys == report.bureau.Keys
    ensures r.Some? ==> forall k :: k in report.bureau ==> r.value.bureau[k] == rescore(k, report.bureau[k])
  {
    if report.bureau == map[] then None
    else
      var bureau := map k | k in report.bureau :: rescore(k, report.bureau[k]);
      Some(report.(average := average, bureau := bureau))
  }

  /** The request's SSN passes `!ssn || ssn.length !== 8` unrejected. */
  predicate ValidSsn(ssn: string) {
    !(|ssn| == 0 || |ssn| != 8)
  }

  /** Whether the cached string is truthy: present and not the empty string. */
  predicate IsHit(store: Store, ssn: string) {
    ssn in store && store[ssn] != Unparsable("")
  }

  /**
   * Whether the `try` block throws on a cached entry: the text does not
   * parse to a report, or the report has no bureau scores to average.
   */
  predicate HitThrows(cached: Stored) {
    cached.Unparsable? || cached.report.bureau == map[]
  }

  /** The response and the new store of one `/:ssn` request. */
  datatype Served = Served(response: Response, store: Store)

  function ServeScore(store: Store, ssn: string, draws: Draws): (s: Served)
    // a malformed SSN is refused and the store is untouched
    ensures StatusCode(s.response) == 400 <==> !ValidSsn(ssn)
    ensures !ValidSsn(ssn) ==> s == Served(BadRequest(InvalidSsnMessage), store)
    // a miss caches a fresh report with no events and returns it
    ensures ValidSsn(ssn) && !IsHit(store, ssn) ==>
      s.response.Scored? && s.response.report.events == [] &&
      s.response.report.age == draws.initialAge && s.response.report.bureau.Keys == BureauNames &&
      s.store == store[ssn := ReportJson(s.response.report)]
    // a hit that does not throw gains exactly the drawn event, keeps its age and bureaus, and is written back
    ensures ValidSsn(ssn) && IsHit(store, ssn) && !HitThrows(store[ssn]) ==>
      s.response.Scored? &&
      s.response.report.events == store[ssn].report.events + [draws.event] &&
      s.response.report.age == store[ssn].report.age &&
      s.response.report.bureau.Keys == store[ssn].report.bureau.Keys &&
      s.store == store[ssn := ReportJson(s.response.report)]
    // a hit that throws is deleted and answered with 500
    ensures StatusCode(s.response) == 500 <==> ValidSsn(ssn) && IsHit(store, ssn) && HitThrows(store[ssn])
    ensures StatusCode(s.response) == 500 ==> s == Served(ServerError(UnparsableMessage), store - {ssn})
    // no other key is read or written
    ensures forall k :: k != ssn ==> (k in s.store <==> k in store)
    ensures forall k :: k != ssn && k in store ==> s.store[k] == store[k]
  {
    if !ValidSsn(ssn) then
      Served(BadRequest(InvalidSsnMessage), store)
    else if IsHit(store, ssn) then
      match store[ssn]
      case ReportJson(cached) =>
        var withEvent := cached.(events := cached.events + [draws.event]);
        (match RecalculateScore(withEvent, draws.rescore, draws.rescoredAverage)
         case Some(rescored) => Served(Scored(rescored), store[ssn := ReportJson(rescored)])
         case None => Served(ServerError(UnparsableMessage), store - {ssn}))
      case Unparsable(_) =>
        Served(ServerError(UnparsableMessage), store - {ssn})
    else
      var initial := CreateInitialCreditScore(draws.initial, draws.initialAge);
      Served(Scored(initial), store[ssn := ReportJson(initial)])
  }

  /** The store after a sequence of `/:ssn` requests for one SSN, one per element of `draws`. */
  function ServeAll(store: Store, ssn: string, draws: seq<Draws>): (r: Store)
    ensures forall k :: k != ssn ==> (k in r <==> k in store)
    ensures forall k :: k != ssn && k in store ==> r[k] == store[k]
    decreases |draws|
  {
    if draws == [] then store
    else ServeAll(ServeScore(store, ssn, draws[0]).store, ssn, draws[1..])
  }

  /** The drawn events, in request order. */
  function Events(draws: seq<Draws>): (r: seq<CreditEvent>)
    ensures |r| == |draws|
    ensures forall i :: 0 <= i < |draws| ==> r[i] == draws[i].event
  {
    if draws == [] then [] else [draws[0].event] + Events(draws[1..])
  }

  /**
   * A valid SSN seen for the first time is written with no events and the
   * three bureaus, and each later request appends exactly its own event, so
   * after `k` requests the cached history holds the events of requests
   * 2 .. k, in order, and the age drawn by the first request is kept.
   */
  lemma {:induction false} RepeatedRequestsAccumulateEvents(store: Store, ssn: string, draws: seq<Draws>)
    requires ValidSsn(ssn) && !IsHit(store, ssn) && |draws| > 0
    ensures ssn in ServeAll(store, ssn, draws)
    ensures var cached := ServeAll(store, ssn, draws)[ssn];
      cached.ReportJson? && cached.report.events == Events(draws[1..]) &&
      cached.report.age == draws[0].initialAge && cached.report.bureau.Keys == BureauNames
  {
    var first := ServeScore(store, ssn, draws[0]).store;
    AccumulateFrom(first, ssn, first[ssn].report, draws[1..]);
    assert first[ssn].report.events == [];
    assert Events(draws[1..]) == first[ssn].report.events + Events(draws[1..]);
  }

  /**
   * Starting from a cached report with bureau scores, each further request
   * appends its own event; the age and the set of bureaus never change, so
   * no later request throws.
   */
  lemma {:induction false} AccumulateFrom(store: Store, ssn: string, r: CreditReport, draws: seq<Draws>)
    requires ValidSsn(ssn) && ssn in store && store[ssn] == ReportJson(r) && r.bureau != map[]
    ensures ssn in ServeAll(store, ssn, draws)
    ensures var cached := ServeAll(store, ssn, draws)[ssn];
      cached.ReportJson? && cached.report.events == r.events + Events(draws) &&
      cached.report.age == r.age && cached.report.bureau.Keys == r.bureau.Keys
    decreases |draws|
  {
    if draws != [] {
      var next := ServeScore(store, ssn, draws[0]).store;
      assert !HitThrows(store[ssn]);
      assert next[ssn].report.bureau.Keys == r.bureau.Keys;
      AccumulateFrom(next, ssn, next[ssn].report, draws[1..]);
      assert r.events + Events(draws) == (r.events + [draws[0].event]) + Events(draws[1..]);
    }
  }

  datatype Request = HealthCheck | CreditScore(ssn: string)

  /** One worker of the service: its store connection and its request counter. */
  class CreditScoreService {
    var store: Store
    var requestNumber: nat

    constructor (store: Store)
      ensures this.store == store && requestNumber == 0
    {
      this.store := store;
      requestNumber := 0;
    }

    /**
     * The service as a whole: the counting middleware runs for every request,
     * then `/health` or `/:ssn` answers it.
     */
    method Handle(req: Request, draws: Draws) returns (resp: Response)
      modifies this
      ensures requestNumber == old(requestNumber) + 1
      ensures req.HealthCheck? ==> resp == HealthStatus(true) && store == old(store)
      ensures req.CreditScore? ==> Served(resp, store) == ServeScore(old(store), req.ssn, draws)
    {
      requestNumber := requestNumber + 1;
      match req
      case HealthCheck =>
        resp := HealthStatus(true);
      case CreditScore(ssn) =>
        resp := ScoreRoute(ssn, draws);
    }

    /**
     * The `/:ssn` route: validate, read the cached entry, then append and
     * write back, delete when the `try` block throws, or create.
     */
    method ScoreRoute(ssn: string, draws: Draws) returns (resp: Response)
      modifies this`store
      ensures Served(resp, store) == ServeScore(old(store), ssn, draws)
    {
      if |ssn| == 0 || |ssn| != 8 {
        resp := BadRequest(InvalidSsnMessage);
        return;
      }
      if ssn in store && store[ssn] != Unparsable("") {
        match store[ssn]
        case ReportJson(creditScore) =>
          var newEvent := draws.event;
          creditScore := creditScore.(events := creditScore.events + [newEvent]);
          var recalculated := RecalculateScore(creditScore, draws.rescore, draws.rescoredAverage);
          if recalculated.None? {
            store := store - {ssn};
            resp := ServerError(UnparsableMessage);
            return;
          }
          creditScore := recalculated.value;
          store := store[ssn := ReportJson(creditScore)];
          resp := Scored(creditScore);
          return;
        case Unparsable(_) =>
          store := store - {ssn};
          resp := ServerError(UnparsableMessage);
          return;
      }
      var creditScore := CreateInitialCreditScore(draws.initial, draws.initialAge);
      store := store[ssn := ReportJson(creditScore)];
      resp := Scored(creditScore);
    }
  }
}
