/**
 * What one submission does, as a function of the configuration and of the server's answers:
 * the outcome Run returns and the requests it issues, in order.
 */
module Protocol {
  import opened Wrappers
  import opened Errors
  import opened Session
  import opened Poll

  /** The outcome of a submission and the requests it issued. */
  datatype Submission = Submission(outcome: Result<SubmitSession, Error>, requests: seq<Request>)

  /** The configuration is usable exactly when it names a submit endpoint. */
  function Check(submitURI: string): (err: Option<Error>)
    ensures err.Some? <==> submitURI == ""
    ensures err.Some? ==> err.value == NoEndpoint
  {
    if submitURI == "" then Some(NoEndpoint) else None
  }

  /**
   * The session resource the poller takes over, when the answer to the POST hands over to
   * it: a 201 whose session record decodes with status "processing" and which carries a
   * Location.
   */
  function Handover(post: Exchange): (loc: Option<string>)
    ensures loc.Some? <==>
              post.Received? && post.response.code == StatusCreated &&
              SessionFromResponse(post.response).Ok? &&
              SessionFromResponse(post.response).value.status == StatusProcessing &&
              post.response.location.Ok?
    ensures loc.Some? ==> loc.value == post.response.location.value
  {
    if post.Received? && post.response.code == StatusCreated then
      match SessionFromResponse(post.response)
      case Ok(j) =>
        if j.status == StatusProcessing && post.response.location.Ok? then Some(post.response.location.value)
        else None
      case Err(_) => None
    else None
  }

  /**
   * Everything Run does after the POST was issued, given the POST's answer: the outcome and
   * the requests that follow the POST. Only a hand-over to the poller issues further requests:
   * its GETs and then, when asked for, one DELETE of the session resource; the poller's outcome
   * is returned as it is.
   */
  function Answer(post: Exchange, deleteSession: bool, polls: seq<Exchange>, maxAttempts: int): (r: Submission)
    ensures post.SendFailed? ==> r == Submission(Err(SubmitRequestFailed(post.cause)), [])
    ensures post.Received? && post.response.code != StatusOK && post.response.code != StatusCreated ==>
              r == Submission(Err(UnexpectedResponseCode(post.response.code)), [])
    ensures post.Received? && (post.response.code == StatusOK || post.response.code == StatusCreated) &&
            SessionFromResponse(post.response).Err? ==>
              r == Submission(SessionFromResponse(post.response), [])
    ensures post.Received? && post.response.code == StatusOK && SessionFromResponse(post.response).Ok? ==>
              r == Submission(Conclude(SessionFromResponse(post.response).value), [])
    ensures post.Received? && post.response.code == StatusCreated && SessionFromResponse(post.response).Ok? &&
            SessionFromResponse(post.response).value.status != StatusProcessing ==>
              r == Submission(Err(UnexpectedState(SessionFromResponse(post.response).value.status, StatusCreated)), [])
    ensures post.Received? && post.response.code == StatusCreated && SessionFromResponse(post.response).Ok? &&
            SessionFromResponse(post.response).value.status == StatusProcessing && post.response.location.Err? ==>
              r == Submission(Err(NoSessionLocation(post.response.location.error)), [])
    ensures r.outcome.Ok? ==> r.outcome.value.status == StatusSuccess
    ensures Handover(post).None? ==> r.requests == []
    ensures Handover(post).Some? ==>
              var loc, p := Handover(post).value, PollFrom(polls, 1, maxAttempts);
              r.outcome == p.outcome &&
              r.requests == Gets(loc, p.gets) + (if deleteSession then [Delete(loc)] else [])
  {
    match post
    case SendFailed(c) => Submission(Err(SubmitRequestFailed(c)), [])
    case Received(res) =>
      if res.code != StatusOK && res.code != StatusCreated then
        Submission(Err(UnexpectedResponseCode(res.code)), [])
      else match SessionFromResponse(res)
        case Err(e) => Submission(Err(e), [])
        case Ok(j) =>
          if res.code == StatusOK then Submission(Conclude(j), [])
          else if j.status != StatusProcessing then Submission(Err(UnexpectedState(j.status, StatusCreated)), [])
          else match res.location
            case Err(c) => Submission(Err(NoSessionLocation(c)), [])
            case Ok(loc) =>
              var p := PollFrom(polls, 1, maxAttempts);
              Submission(p.outcome, Gets(loc, p.gets) + if deleteSession then [Delete(loc)] else [])
  }

  /**
   * One submission: a configuration without endpoint, or whose client cannot be set up
   * (`setup`), fails before any request; otherwise the payload is POSTed once to the submit
   * URI, declaring its media type and accepting session records, and the answer decides the
   * rest.
   */
  function Submit(
    submitURI: string, deleteSession: bool, setup: Option<Error>,
    payload: seq<bv8>, mediaType: string,
    post: Exchange, polls: seq<Exchange>, maxAttempts: int): (r: Submission)
    ensures submitURI == "" ==> r == Submission(Err(NoEndpoint), [])
    ensures submitURI != "" && setup.Some? ==> r == Submission(Err(setup.value), [])
    ensures submitURI != "" && setup.None? ==>
              |r.requests| >= 1 && r.requests[0] == Post(submitURI, payload, mediaType, SessionMediaType)
    ensures submitURI != "" && setup.None? ==>
              var a := Answer(post, deleteSession, polls, maxAttempts);
              r.outcome == a.outcome && r.requests == [Post(submitURI, payload, mediaType, SessionMediaType)] + a.requests
    ensures r.outcome.Ok? ==> r.outcome.value.status == StatusSuccess
  {
    if Check(submitURI).Some? then Submission(Err(NoEndpoint), [])
    else if setup.Some? then Submission(Err(setup.value), [])
    else
      var after := Answer(post, deleteSession, polls, maxAttempts);
      Submission(after.outcome, [Post(submitURI, payload, mediaType, SessionMediaType)] + after.requests)
  }

  /** Whether a submission succeeded or failed, and how, never depends on the DELETE. */
  lemma DeleteNeverChangesOutcome(
    submitURI: string, setup: Option<Error>, payload: seq<bv8>, mediaType: string,
    post: Exchange, polls: seq<Exchange>, maxAttempts: int)
    ensures var with := Submit(submitURI, true, setup, payload, mediaType, post, polls, maxAttempts);
            var without := Submit(submitURI, false, setup, payload, mediaType, post, polls, maxAttempts);
            with.outcome == without.outcome &&
            with.requests == without.requests + (if submitURI != "" && setup.None? && Handover(post).Some?
                                                 then [Delete(Handover(post).value)] else [])
  {
  }

  /**
   * A submission issues at most one GET per poll attempt: every GET comes right after the
   * POST, at positions 1 up to the budget of MaxAttempts - 1, and only after a hand-over.
   */
  lemma AtMostBudgetGets(
    submitURI: string, deleteSession: bool, setup: Option<Error>, payload: seq<bv8>, mediaType: string,
    post: Exchange, polls: seq<Exchange>, maxAttempts: int)
    ensures var r := Submit(submitURI, deleteSession, setup, payload, mediaType, post, polls, maxAttempts);
            forall i :: 0 <= i < |r.requests| && r.requests[i].Get? ==>
              Handover(post).Some? && r.requests[i] == Get(Handover(post).value) && 1 <= i <= Budget(maxAttempts)
  {
    var r := Submit(submitURI, deleteSession, setup, payload, mediaType, post, polls, maxAttempts);
    if submitURI != "" && setup.None? && Handover(post).Some? {
      var loc, p := Handover(post).value, PollFrom(polls, 1, maxAttempts);
      var tail := if deleteSession then [Delete(loc)] else [];
      assert r.requests == [Post(submitURI, payload, mediaType, SessionMediaType)] + Gets(loc, p.gets) + tail;
    }
  }

  /**
   * When the POST hands over, exactly one DELETE is issued if and only if the configuration
   * asks for it, it is the last request, and it names the session resource that was polled.
   */
  lemma DeleteExactlyOnce(
    submitURI: string, deleteSession: bool, payload: seq<bv8>, mediaType: string,
    post: Exchange, polls: seq<Exchange>, maxAttempts: int)
    requires submitURI != "" && Handover(post).Some?
    ensures var r := Submit(submitURI, deleteSession, None, payload, mediaType, post, polls, maxAttempts);
            var deletes := set i | 0 <= i < |r.requests| && r.requests[i].Delete?;
            (deleteSession ==> deletes == {|r.requests| - 1} && r.requests[|r.requests| - 1] == Delete(Handover(post).value)) &&
            (!deleteSession ==> deletes == {})
  {
    var r := Submit(submitURI, deleteSession, None, payload, mediaType, post, polls, maxAttempts);
    var loc, p := Handover(post).value, PollFrom(polls, 1, maxAttempts);
    var tail := if deleteSession then [Delete(loc)] else [];
    assert r.requests == [Post(submitURI, payload, mediaType, SessionMediaType)] + Gets(loc, p.gets) + tail;
    var deletes := set i | 0 <= i < |r.requests| && r.requests[i].Delete?;
    if deleteSession {
      assert |r.requests| - 1 in deletes;
    }
  }

  /**
   * The asynchronous flow the client's tests run: a 201 "processing" answer with a Location,
   * then k GETs answered "processing" and one answered "success" before the budget runs out,
   * returns that success record after k + 1 GETs.
   */
  lemma AsyncSuccess(
    submitURI: string, deleteSession: bool, payload: seq<bv8>, mediaType: string,
    post: Exchange, polls: seq<Exchange>, maxAttempts: int, k: nat)
    requires submitURI != "" && Handover(post).Some?
    requires k < maxAttempts - 1
    requires forall i :: 0 <= i < k ==> Continues(Reply(polls, i))
    requires var x := Reply(polls, k);
             x.Received? && x.response.code == StatusOK && SessionFromResponse(x.response).Ok? &&
             SessionFromResponse(x.response).value.status == StatusSuccess
    ensures var r := Submit(submitURI, deleteSession, None, payload, mediaType, post, polls, maxAttempts);
            var loc := Handover(post).value;
            r.outcome == SessionFromResponse(Reply(polls, k).response) &&
            r.requests == [Post(submitURI, payload, mediaType, SessionMediaType)] + Gets(loc, k + 1) +
                          (if deleteSession then [Delete(loc)] else [])
  {
    PollStopsAtFirstTerminal(polls, 1, maxAttempts, k);
  }

  /**
   * When every answer the poller may read says "processing", the submission fails with
   * "attempts exhausted" after MaxAttempts - 1 GETs.
   */
  lemma AsyncExhausted(
    submitURI: string, deleteSession: bool, payload: seq<bv8>, mediaType: string,
    post: Exchange, polls: seq<Exchange>, maxAttempts: int)
    requires submitURI != "" && Handover(post).Some?
    requires forall i :: 0 <= i < maxAttempts - 1 ==> Continues(Reply(polls, i))
    ensures var r := Submit(submitURI, deleteSession, None, payload, mediaType, post, polls, maxAttempts);
            var loc := Handover(post).value;
            r.outcome == Err(PollingExhausted) &&
            r.requests == [Post(submitURI, payload, mediaType, SessionMediaType)] + Gets(loc, Budget(maxAttempts)) +
                          (if deleteSession then [Delete(loc)] else [])
  {
    PollExhaustedIff(polls, 1, maxAttempts);
  }
}
