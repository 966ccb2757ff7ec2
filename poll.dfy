/** The poller: GETs the session resource until it leaves "processing" or the attempts run out. */
module Poll {
  import opened Wrappers
  import opened Errors
  import opened Session

  /** What the server gives for a GET it has no scripted answer for: nothing, as for an unreachable host. */
  const Unanswered := SendFailed("no response")

  /** The answer to the i-th GET (counting from 0) of the session resource. */
  function Reply(replies: seq<Exchange>, i: nat): Exchange
  {
    if i < |replies| then replies[i] else Unanswered
  }

  /** One poll attempt either goes on polling or stops with the poller's outcome. */
  datatype Step = Continue | Stop(outcome: Result<SubmitSession, Error>)

  /**
   * One poll attempt: only a 200 response whose session record decodes with status
   * "processing" goes on; everything else stops, and no stop is "attempts exhausted".
   */
  function PollStep(x: Exchange): (s: Step)
    ensures s.Continue? <==>
              x.Received? && x.response.code == StatusOK && SessionFromResponse(x.response).Ok? &&
              SessionFromResponse(x.response).value.status == StatusProcessing
    ensures s.Stop? ==> s.outcome != Err(PollingExhausted)
    ensures s.Stop? && s.outcome.Ok? ==>
              x.Received? && x.response.code == StatusOK && x.response.body.Decoded? &&
              s.outcome.value == x.response.body.session && s.outcome.value.status == StatusSuccess
    ensures x.SendFailed? ==> s == Stop(Err(FetchFailed(x.cause)))
    ensures x.Received? && x.response.code != StatusOK ==> s == Stop(Err(FetchUnexpectedStatus(x.response.status)))
    ensures x.Received? && x.response.code == StatusOK && SessionFromResponse(x.response).Err? ==>
              s == Stop(SessionFromResponse(x.response))
    ensures x.Received? && x.response.code == StatusOK && SessionFromResponse(x.response).Ok? &&
            SessionFromResponse(x.response).value.status != StatusProcessing ==>
              s == Stop(Conclude(SessionFromResponse(x.response).value))
  {
    match x
    case SendFailed(c) => Stop(Err(FetchFailed(c)))
    case Received(res) =>
      if res.code != StatusOK then Stop(Err(FetchUnexpectedStatus(res.status)))
      else match SessionFromResponse(res)
        case Err(e) => Stop(Err(e))
        case Ok(j) => if j.status == StatusProcessing then Continue else Stop(Conclude(j))
  }

  /** Whether the answer to a GET keeps the poller polling. */
  predicate Continues(x: Exchange)
  {
    PollStep(x).Continue?
  }

  /** The poller's outcome and how many GETs it issued. */
  datatype Polled = Polled(outcome: Result<SubmitSession, Error>, gets: nat)

  /** The number of GETs the attempt counter allows: attempts 1 up to, but not including, maxAttempts. */
  function Budget(maxAttempts: int): nat
  {
    if maxAttempts > 1 then maxAttempts - 1 else 0
  }

  /**
   * Polling from attempt number `attempt` on, attempt a reading the a-th answer; never more
   * GETs than attempts left, and at least one whenever an attempt is left.
   */
  function PollFrom(replies: seq<Exchange>, attempt: int, maxAttempts: int): (p: Polled)
    requires attempt >= 1
    ensures p.gets <= Budget(maxAttempts - attempt + 1)
    ensures attempt < maxAttempts ==> p.gets >= 1
    ensures p.outcome.Ok? ==> p.outcome.value.status == StatusSuccess
    decreases maxAttempts - attempt
  {
    if attempt >= maxAttempts then Polled(Err(PollingExhausted), 0)
    else match PollStep(Reply(replies, attempt - 1))
      case Continue =>
        var rest := PollFrom(replies, attempt + 1, maxAttempts);
        Polled(rest.outcome, rest.gets + 1)
      case Stop(o) => Polled(o, 1)
  }

  /** The GETs of the session resource the poller issues, n of them. */
  function Gets(uri: string, n: nat): (rs: seq<Request>)
    ensures |rs| == n && forall i :: 0 <= i < n ==> rs[i] == Get(uri)
  {
    seq(n, _ => Get(uri))
  }

  /**
   * GETs `uri` once per attempt, attempts numbered 1 up to but excluding maxAttempts, the
   * server answering the GETs in the order of `replies`; returns the outcome and the
   * requests issued.
   */
  method PollForSubmissionCompletion(uri: string, replies: seq<Exchange>, maxAttempts: int)
    returns (outcome: Result<SubmitSession, Error>, requests: seq<Request>)
    ensures outcome == PollFrom(replies, 1, maxAttempts).outcome
    ensures requests == Gets(uri, PollFrom(replies, 1, maxAttempts).gets)
  {
    requests := [];
    var attempt := 1;
    while attempt < maxAttempts
      invariant 1 <= attempt && (attempt <= maxAttempts || attempt == 1)
      invariant requests == Gets(uri, attempt - 1)
      invariant PollFrom(replies, 1, maxAttempts).outcome == PollFrom(replies, attempt, maxAttempts).outcome
      invariant PollFrom(replies, 1, maxAttempts).gets == PollFrom(replies, attempt, maxAttempts).gets + attempt - 1
      decreases maxAttempts - attempt
    {
      var x := Reply(replies, attempt - 1);
      requests := requests + [Get(uri)];
      if x.SendFailed? {
        return Err(FetchFailed(x.cause)), requests;
      }
      var res := x.response;
      if res.code != StatusOK {
        return Err(FetchUnexpectedStatus(res.status)), requests;
      }
      var j := SessionFromResponse(res);
      if j.Err? {
        return Err(j.error), requests;
      }
      match StatusOf(j.value.status) {
        case Success =>
          return Ok(j.value), requests;
        case Failed =>
          return Err(SubmissionFailed(j.value.failureReason)), requests;
        case Processing =>
          // the Go code sleeps for one poll period here
        case Other(s) =>
          return Err(UnexpectedState(s, StatusOK)), requests;
      }
      attempt := attempt + 1;
    }
    outcome := Err(PollingExhausted);
  }

  /**
   * Polling ends with "attempts exhausted" exactly when every answer it may read keeps it
   * polling, and then it has issued one GET per attempt left.
   */
  lemma {:induction false} PollExhaustedIff(replies: seq<Exchange>, attempt: int, maxAttempts: int)
    requires attempt >= 1
    ensures PollFrom(replies, attempt, maxAttempts).outcome == Err(PollingExhausted) <==>
              forall i :: attempt - 1 <= i < maxAttempts - 1 ==> Continues(Reply(replies, i))
    ensures PollFrom(replies, attempt, maxAttempts).outcome == Err(PollingExhausted) ==>
              PollFrom(replies, attempt, maxAttempts).gets == Budget(maxAttempts - attempt + 1)
    decreases maxAttempts - attempt
  {
    if attempt < maxAttempts {
      PollExhaustedIff(replies, attempt + 1, maxAttempts);
    }
  }

  /**
   * When the answers keep the poller polling up to the k-th (counting from 0) and the k-th
   * stops it, within the budget, polling ends with the k-th answer's outcome after k + 1 GETs
   * in all (counting from attempt 1).
   */
  lemma {:induction false} PollStopsAtFirstTerminal(replies: seq<Exchange>, attempt: int, maxAttempts: int, k: int)
    requires 1 <= attempt && attempt - 1 <= k < maxAttempts - 1
    requires forall i :: attempt - 1 <= i < k ==> Continues(Reply(replies, i))
    requires !Continues(Reply(replies, k))
    ensures PollFrom(replies, attempt, maxAttempts) == Polled(PollStep(Reply(replies, k)).outcome, k - attempt + 2)
    decreases k - attempt
  {
    if attempt - 1 < k {
      PollStopsAtFirstTerminal(replies, attempt + 1, maxAttempts, k);
    }
  }
}
