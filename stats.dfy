/**
 * The client's counters (`events_received`, `analysis_executed`, `errors`,
 * `last_execution`) and what one scan request does to them.  The request
 * itself is not modelled: its outcome is an input.
 */
module ClientStats {
  import opened Wrappers

  datatype Stats = Stats(
    eventsReceived: nat,
    analysisExecuted: nat,
    errors: nat,
    lastExecution: Option<int>)

  const INITIAL_STATS := Stats(0, 0, 0, None)

  /** Which HTTP library is importable: the async client or the urllib fallback. */
  datatype Backend = Aiohttp | Urllib

  /** A response with its status; an exception from sending the request or
      reading its body; or an exception from building the request, before
      anything is sent (the urllib `Request` of a scan URL without a scheme,
      say). */
  datatype PostOutcome = Responded(status: int) | Raised | NotSent

  const HTTP_OK := 200

  predicate Succeeded(o: PostOutcome) { o == Responded(HTTP_OK) }

  /** An exception that escapes to the outer handler: the async client has no
      handler of its own, and the urllib fallback builds its request outside
      the inner handler. */
  predicate ReachesOuterHandler(b: Backend, o: PostOutcome)
  {
    o.NotSent? || (b == Aiohttp && o.Raised?)
  }

  /** Per-outcome table of how many scans and errors one request records. */
  function ExecutedDelta(o: PostOutcome): nat
  {
    if Succeeded(o) then 1 else 0
  }

  function ErrorDelta(b: Backend, o: PostOutcome): nat
  {
    match b
    case Aiohttp => if Succeeded(o) then 0 else 1
    case Urllib => if o.Responded? && !Succeeded(o) then 2 else 1
  }

  /** The counters after one request sent at time `now`. */
  function AfterExecution(s: Stats, b: Backend, o: PostOutcome, now: int): Stats
  {
    Stats(
      s.eventsReceived,
      s.analysisExecuted + ExecutedDelta(o),
      s.errors + ErrorDelta(b, o),
      if ReachesOuterHandler(b, o) then s.lastExecution else Some(now))
  }

  /** Async client: a 200 response counts one scan and no error; anything
      else counts one error and no scan. */
  lemma AiohttpRecordsOneOutcome(s: Stats, o: PostOutcome, now: int)
    ensures var r := AfterExecution(s, Aiohttp, o, now);
            && (Succeeded(o) ==> r.analysisExecuted == s.analysisExecuted + 1 && r.errors == s.errors)
            && (!Succeeded(o) ==> r.analysisExecuted == s.analysisExecuted && r.errors == s.errors + 1)
  {
  }

  /** urllib fallback: an error is counted on every request, so a success
      counts both a scan and an error, and a non-200 response two errors.  A
      request that could not be built counts one error and leaves the
      timestamp alone. */
  lemma UrllibAlwaysCountsAnError(s: Stats, o: PostOutcome, now: int)
    ensures var r := AfterExecution(s, Urllib, o, now);
            && r.errors >= s.errors + 1
            && (Succeeded(o) ==> r.analysisExecuted == s.analysisExecuted + 1 && r.errors == s.errors + 1)
            && (o.Responded? && !Succeeded(o) ==> r.errors == s.errors + 2)
            && (o.Raised? ==> r.analysisExecuted == s.analysisExecuted && r.errors == s.errors + 1)
            && (o.NotSent? ==> r.analysisExecuted == s.analysisExecuted && r.errors == s.errors + 1
                               && r.lastExecution == s.lastExecution)
  {
  }

  /** Every request is recorded somewhere, never touches `events_received`,
      and stamps `last_execution` unless the outer handler caught it. */
  lemma ExecutionIsRecorded(s: Stats, b: Backend, o: PostOutcome, now: int)
    ensures var r := AfterExecution(s, b, o, now);
            && r.analysisExecuted + r.errors > s.analysisExecuted + s.errors
            && r.eventsReceived == s.eventsReceived
            && (r.lastExecution == Some(now) <==> !ReachesOuterHandler(b, o) || s.lastExecution == Some(now))
  {
  }
}
