/**
 * The Globalping client: one POST that creates a measurement, then a poll
 * loop that sleeps with capped exponential backoff between status fetches.
 * The network is an oracle: `post` answers the creation request and
 * `poll(k)` answers the k-th status fetch of the measurement (k from 0).
 * Each sleep and fetch is recorded in a log of `Fetch` values.
 */
module Globalping {
  import opened Wrappers
  import opened Text

  const API_BASE := "https://api.globalping.io/v1"
  const INITIAL_DELAY := 1000
  const MAX_DELAY := 5000
  const MAX_ATTEMPTS := 20
  const IN_PROGRESS := "in-progress"
  const JOB_FAILED := "failed"

  datatype LocationFilter = LocationFilter(country: Option<string>, continent: Option<string>, city: Option<string>, tags: Option<seq<string>>)

  /** The request body; `timeout` is the `options.timeout` the checker sends. */
  datatype Request = Request(kind: string, target: string, locations: seq<LocationFilter>, timeout: Option<int>)

  datatype Probe = Probe(country: string, city: string, continent: string, tags: seq<string>)
  datatype Timings = Timings(total: int, firstByte: int, download: int)
  datatype ProbeOutcome = ProbeOutcome(status: string, statusCode: Option<int>, timings: Option<Timings>, rawError: Option<string>)
  datatype ProbeResult = ProbeResult(probe: Probe, result: ProbeOutcome)

  /** `GlobalpingResponse`: status is "in-progress", "completed" or "failed". */
  datatype Response = Response(id: string, status: string, kind: string, target: string, results: Option<seq<ProbeResult>>)

  /** What the creation POST answers: an ok response with its body, or the status and text of a non-ok one. */
  datatype PostReply = PostOk(data: Response) | PostNotOk(status: int, text: string)
  /** What a status fetch answers: an ok response with its body, or the status of a non-ok one. */
  datatype PollReply = PollOk(data: Response) | PollNotOk(status: int)

  datatype Post = Post(url: string, body: Request)
  /** One poll round: the sleep before it, then a GET of `url`. */
  datatype Fetch = Fetch(url: string, waited: nat)

  /** The errors the client throws, with their messages. */
  datatype Error =
    | ApiError(status: int, body: string)
    | PollFailed(status: int)
    | TimedOut(id: string, attempts: nat)
  {
    function Message(): (msg: string)
      ensures ApiError? ==> msg == "Globalping API error: " + IntToString(status) + " " + body
      ensures PollFailed? ==> msg == "Poll failed: " + IntToString(status)
      ensures TimedOut? ==> msg == "Measurement " + id + " timed out after " + NatToString(attempts) + " polls"
    {
      match this
      case ApiError(s, b) => "Globalping API error: " + IntToString(s) + " " + b
      case PollFailed(s) => "Poll failed: " + IntToString(s)
      case TimedOut(i, n) => "Measurement " + i + " timed out after " + NatToString(n) + " polls"
    }
  }

  /** The exhaustion error reads "Measurement <id> timed out after 20 polls". */
  lemma TimeoutMessage(id: string)
    ensures TimedOut(id, MAX_ATTEMPTS).Message() == "Measurement " + id + " timed out after " + "20" + " polls"
  {
    assert NatToString(20) == NatToString(2) + [DigitChar(0)];
  }

  function PostUrl(): string { API_BASE + "/measurements" }
  function PollUrl(id: string): string { API_BASE + "/measurements/" + id }

  /**
   * The sleep before poll round `k`: 1000, 1500, 2250 and 3375 ms, then
   * 5000 ms from the fifth round on (`DelayRecurrence` shows it is the
   * capped one-and-a-half growth the loop computes).
   */
  function Delay(k: nat): (d: nat)
    ensures INITIAL_DELAY <= d <= MAX_DELAY
  {
    if k == 0 then 1000
    else if k == 1 then 1500
    else if k == 2 then 2250
    else if k == 3 then 3375
    else 5000
  }

  /**
   * `Math.min(delay * 1.5, maxDelay)`. All values before the cap are whole,
   * so `* 3 / 2` is the source's `* 1.5` exactly.
   */
  function NextDelay(delay: nat): (d: nat)
    ensures delay <= MAX_DELAY ==> delay <= d <= MAX_DELAY
  {
    if delay * 3 / 2 < MAX_DELAY then delay * 3 / 2 else MAX_DELAY
  }

  /** The schedule starts at `initialDelay` and each sleep is the capped growth of the one before. */
  lemma DelayRecurrence(k: nat)
    ensures Delay(0) == INITIAL_DELAY
    ensures Delay(k + 1) == NextDelay(Delay(k))
  {
  }

  /** The delay never shrinks. */
  lemma DelayMonotone(j: nat, k: nat)
    requires j <= k
    ensures Delay(j) <= Delay(k)
  {
  }

  /** The total sleep over the first `n` rounds. */
  function TotalDelay(n: nat): nat {
    if n == 0 then 0 else TotalDelay(n - 1) + Delay(n - 1)
  }

  /** From the fifth round on, each round adds 5000 ms to the 8125 ms of the first four. */
  lemma {:induction false} TotalDelayClosedForm(n: nat)
    requires n >= 4
    ensures TotalDelay(n) == 8125 + 5000 * (n - 4)
  {
    if n > 4 {
      TotalDelayClosedForm(n - 1);
    }
  }

  /** Twenty rounds sleep 88125 ms in all, and fewer rounds sleep less. */
  lemma {:induction false} TotalDelayBound(n: nat)
    requires n <= MAX_ATTEMPTS
    ensures TotalDelay(n) <= TotalDelay(MAX_ATTEMPTS) == 88125
  {
    TotalDelayClosedForm(MAX_ATTEMPTS);
    if n < MAX_ATTEMPTS {
      TotalDelayGrows(n, MAX_ATTEMPTS);
    }
  }

  lemma {:induction false} TotalDelayGrows(j: nat, k: nat)
    requires j <= k
    ensures TotalDelay(j) <= TotalDelay(k)
  {
    if j < k {
      TotalDelayGrows(j, k - 1);
    }
  }

  /** `createMeasurement`: the one POST and its answer, the id of the created measurement or the API error. */
  function CreateMeasurement(reply: PostReply): (r: Result<string, Error>)
    ensures reply.PostOk? <==> r.Ok?
    ensures r.Ok? ==> r.value == reply.data.id
    ensures r.Err? ==> r.error.Message() == "Globalping API error: " + IntToString(reply.status) + " " + reply.text
  {
    match reply
    case PostOk(data) => Ok(data.id)
    case PostNotOk(status, text) => Err(ApiError(status, text))
  }

  /** The first `n` poll rounds: round `k` sleeps `Delay(k)`, then fetches the status URL of `id`. */
  function Rounds(id: string, n: nat): (log: seq<Fetch>)
    ensures |log| == n
  {
    if n == 0 then [] else Rounds(id, n - 1) + [Fetch(PollUrl(id), Delay(n - 1))]
  }

  /** The answer to a poll round is terminal when it is not ok or not in progress. */
  predicate Terminal(reply: PollReply) {
    reply.PollNotOk? || reply.data.status != IN_PROGRESS
  }

  /**
   * What `pollMeasurement(id)` does against `poll`: between one and twenty
   * rounds, round `k` sleeping `Delay(k)` and then fetching the status URL;
   * every round but the last answered "in-progress"; the last one decides:
   * its non-ok status fails the call, its body (completed or failed) is
   * returned unchanged, and twenty in-progress answers time out.
   */
  predicate PolledAsSpecified(id: string, poll: nat -> PollReply, r: Result<Response, Error>, log: seq<Fetch>) {
    && 1 <= |log| <= MAX_ATTEMPTS
    && log == Rounds(id, |log|)
    && (forall k | 0 <= k < |log| - 1 :: !Terminal(poll(k)))
    && var last := poll(|log| - 1);
       && (last.PollNotOk? ==> r == Err(PollFailed(last.status)))
       && (last.PollOk? && last.data.status != IN_PROGRESS ==> r == Ok(last.data))
       && (!Terminal(last) ==> |log| == MAX_ATTEMPTS && r == Err(TimedOut(id, MAX_ATTEMPTS)))
  }

  /** `pollMeasurement(id)`: the backoff loop. */
  method PollMeasurement(id: string, poll: nat -> PollReply) returns (r: Result<Response, Error>, log: seq<Fetch>)
    ensures PolledAsSpecified(id, poll, r, log)
  {
    var delay := INITIAL_DELAY;
    log := [];
    var attempt := 0;
    while attempt < MAX_ATTEMPTS
      invariant 0 <= attempt <= MAX_ATTEMPTS
      invariant delay == Delay(attempt)
      invariant log == Rounds(id, attempt)
      invariant forall k | 0 <= k < attempt :: !Terminal(poll(k))
    {
      log := log + [Fetch(PollUrl(id), delay)];
      var reply := poll(attempt);
      if reply.PollNotOk? {
        return Err(PollFailed(reply.status)), log;
      }
      if reply.data.status != IN_PROGRESS {
        return Ok(reply.data), log;
      }
      DelayRecurrence(attempt);
      delay := NextDelay(delay);
      attempt := attempt + 1;
    }
    r := Err(TimedOut(id, MAX_ATTEMPTS));
  }

  /** The poll specification leaves nothing open: one outcome and one log per oracle. */
  lemma PolledDeterminate(id: string, poll: nat -> PollReply,
                          r1: Result<Response, Error>, log1: seq<Fetch>, r2: Result<Response, Error>, log2: seq<Fetch>)
    requires PolledAsSpecified(id, poll, r1, log1)
    requires PolledAsSpecified(id, poll, r2, log2)
    ensures r1 == r2 && log1 == log2
  {
  }

  /**
   * The outcome in terms of the oracle alone: the call times out exactly
   * when none of the first twenty answers is terminal, and otherwise
   * returns or fails with the answer of its last round.
   */
  lemma PollOutcome(id: string, poll: nat -> PollReply, r: Result<Response, Error>, log: seq<Fetch>)
    requires PolledAsSpecified(id, poll, r, log)
    ensures r == Err(TimedOut(id, MAX_ATTEMPTS)) <==> forall k | 0 <= k < MAX_ATTEMPTS :: !Terminal(poll(k))
    ensures r.Ok? ==> r.value.status != IN_PROGRESS && poll(|log| - 1) == PollOk(r.value)
    ensures r.Err? && r.error.PollFailed? ==> poll(|log| - 1) == PollNotOk(r.error.status)
  {
    var last := poll(|log| - 1);
    if r == Err(TimedOut(id, MAX_ATTEMPTS)) {
      assert !Terminal(last);
      forall k | 0 <= k < MAX_ATTEMPTS ensures !Terminal(poll(k)) {
        if k < |log| - 1 {
        }
      }
    }
  }

  /** The checker's view: the sum of the sleeps recorded in a log. */
  function Waited(log: seq<Fetch>): nat {
    if log == [] then 0 else Waited(log[..|log| - 1]) + log[|log| - 1].waited
  }

  /** However the provider answers, the poll loop sleeps at most 88125 ms before it returns or throws. */
  lemma PollSleepBound(id: string, poll: nat -> PollReply, r: Result<Response, Error>, log: seq<Fetch>)
    requires PolledAsSpecified(id, poll, r, log)
    ensures Waited(log) == TotalDelay(|log|) <= 88125
  {
    WaitedIsTotal(id, |log|);
    TotalDelayBound(|log|);
  }

  lemma {:induction false} WaitedIsTotal(id: string, n: nat)
    ensures Waited(Rounds(id, n)) == TotalDelay(n)
  {
    if n > 0 {
      WaitedIsTotal(id, n - 1);
      assert Rounds(id, n)[..n - 1] == Rounds(id, n - 1);
    }
  }

  /**
   * A reference definition of the poll outcome, round by round from round
   * `k`: a non-ok answer fails, a terminal body is returned, an in-progress
   * body moves on to the next round, and past round twenty the call times out.
   */
  function PollFrom(id: string, poll: nat -> PollReply, k: nat): (r: Result<Response, Error>)
    ensures r.Ok? ==> r.value.status != IN_PROGRESS
    ensures r.Err? ==> r.error.PollFailed? || r.error == TimedOut(id, MAX_ATTEMPTS)
    decreases MAX_ATTEMPTS - k
  {
    if k >= MAX_ATTEMPTS then Err(TimedOut(id, MAX_ATTEMPTS))
    else match poll(k)
      case PollNotOk(status) => Err(PollFailed(status))
      case PollOk(data) => if data.status != IN_PROGRESS then Ok(data) else PollFrom(id, poll, k + 1)
  }

  /** The loop's outcome is the reference outcome from round 0. */
  lemma PolledMatchesReference(id: string, poll: nat -> PollReply, r: Result<Response, Error>, log: seq<Fetch>)
    requires PolledAsSpecified(id, poll, r, log)
    ensures r == PollFrom(id, poll, 0)
  {
    var last := |log| - 1;
    if Terminal(poll(last)) {
      assert r == PollFrom(id, poll, last);
    } else {
      assert r == PollFrom(id, poll, last + 1);
      assert PollFrom(id, poll, last) == PollFrom(id, poll, last + 1);
    }
    SkipInProgress(id, poll, 0, last);
  }

  /** In-progress rounds do not change the reference outcome. */
  lemma {:induction false} SkipInProgress(id: string, poll: nat -> PollReply, j: nat, k: nat)
    requires j <= k < MAX_ATTEMPTS
    requires forall i | j <= i < k :: !Terminal(poll(i))
    ensures PollFrom(id, poll, j) == PollFrom(id, poll, k)
    decreases k - j
  {
    if j < k {
      SkipInProgress(id, poll, j + 1, k);
      assert !Terminal(poll(j));
    }
  }

  /** The outcome of `runMeasurement` as a function of the oracles. */
  function RunResult(request: Request, post: Request -> PostReply, poll: string -> nat -> PollReply): (r: Result<Response, Error>)
    ensures post(request).PostNotOk? ==> r.Err? && r.error.ApiError?
    ensures r.Ok? ==> r.value.status != IN_PROGRESS
    ensures r.Err? && r.error.TimedOut? ==> post(request).PostOk? && r.error == TimedOut(post(request).data.id, MAX_ATTEMPTS)
  {
    match CreateMeasurement(post(request))
    case Err(e) => Err(e)
    case Ok(id) => PollFrom(id, poll(id), 0)
  }

  /**
   * `runMeasurement(request)`: exactly one POST to the creation URL; on an
   * API error no poll round at all; otherwise the polling of exactly the id
   * the POST returned.
   */
  method RunMeasurement(request: Request, post: Request -> PostReply, poll: string -> nat -> PollReply)
    returns (r: Result<Response, Error>, posts: seq<Post>, log: seq<Fetch>)
    ensures posts == [Post(PostUrl(), request)]
    ensures post(request).PostNotOk? ==> r == Err(ApiError(post(request).status, post(request).text)) && log == []
    ensures post(request).PostOk? ==> PolledAsSpecified(post(request).data.id, poll(post(request).data.id), r, log)
    ensures r == RunResult(request, post, poll)
  {
    posts := [Post(PostUrl(), request)];
    var created := CreateMeasurement(post(request));
    if created.Err? {
      return Err(created.error), posts, [];
    }
    r, log := PollMeasurement(created.value, poll(created.value));
    PolledMatchesReference(created.value, poll(created.value), r, log);
  }
}
