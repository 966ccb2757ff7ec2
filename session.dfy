/** The provisioning session record, the HTTP exchanges that carry it, and its decoder. */
module Session {
  import opened Wrappers
  import opened Errors

  /** The media type of a session record. */
  const SessionMediaType := "application/vnd.veraison.provisioning-session+json"

  /** The status strings the server reports. */
  const StatusSuccess := "success"
  const StatusFailed := "failed"
  const StatusProcessing := "processing"

  const StatusOK := 200
  const StatusCreated := 201

  /** The server's view of one submission, as decoded from a response body. */
  datatype SubmitSession = SubmitSession(status: string, expiry: string, failureReason: Option<string>)

  /** The status string read as one of the three known states, or any other string kept verbatim. */
  datatype Status = Success | Failed | Processing | Other(name: string)
  {
    function Name(): string
    {
      match this
      case Success => StatusSuccess
      case Failed => StatusFailed
      case Processing => StatusProcessing
      case Other(s) => s
    }
  }

  /** Classifies a status string; the classification loses nothing of the string. */
  function StatusOf(s: string): (st: Status)
    ensures st.Name() == s
    ensures st.Other? <==> s != StatusSuccess && s != StatusFailed && s != StatusProcessing
  {
    if s == StatusSuccess then Success
    else if s == StatusFailed then Failed
    else if s == StatusProcessing then Processing
    else Other(s)
  }

  /** What parsing a response body as JSON into a session record yields. */
  datatype Body = Decoded(session: SubmitSession) | Undecodable(cause: string)

  /**
   * The features of an HTTP response the client looks at: the code and its status line,
   * the declared content length (-1 when unknown), the Content-Type header ("" when absent),
   * the outcome of decoding the body, and the Location header resolved against the submit URI.
   */
  datatype Response = Response(
    code: int,
    status: string,
    contentLength: int,
    contentType: string,
    body: Body,
    location: Result<string, string>)

  /** What sending one request gives: a response, or an error before any response arrived. */
  datatype Exchange = SendFailed(cause: string) | Received(response: Response)

  /** A request the client issues. */
  datatype Request =
    | Post(uri: string, payload: seq<bv8>, mediaType: string, accept: string)
    | Get(uri: string)
    | Delete(uri: string)

  /**
   * Reads the session record out of a response: an empty body is refused first, whatever
   * the content type; then a content type other than the session media type, even when the
   * body would decode; then a body that does not decode.
   */
  function SessionFromResponse(res: Response): (r: Result<SubmitSession, Error>)
    ensures res.contentLength == 0 ==> r == Err(EmptyBody)
    ensures res.contentLength != 0 && res.contentType != SessionMediaType ==>
              r == Err(UnexpectedContentType(res.contentType))
    ensures r.Ok? <==> res.contentLength != 0 && res.contentType == SessionMediaType && res.body.Decoded?
    ensures r.Ok? ==> r.value == res.body.session
    ensures res.contentLength != 0 && res.contentType == SessionMediaType && res.body.Undecodable? ==>
              r == Err(DecodeFailure(res.body.cause))
  {
    if res.contentLength == 0 then Err(EmptyBody)
    else if res.contentType != SessionMediaType then Err(UnexpectedContentType(res.contentType))
    else match res.body
      case Undecodable(c) => Err(DecodeFailure(c))
      case Decoded(j) => Ok(j)
  }

  /**
   * The outcome of a session record in a 200 response when "processing" is not expected:
   * the record itself on success, the failure reason on failure, and otherwise an error
   * naming the status.
   */
  function Conclude(j: SubmitSession): (r: Result<SubmitSession, Error>)
    ensures r.Ok? <==> j.status == StatusSuccess
    ensures r.Ok? ==> r.value == j
    ensures j.status == StatusFailed ==> r == Err(SubmissionFailed(j.failureReason))
    ensures j.status != StatusSuccess && j.status != StatusFailed ==> r == Err(UnexpectedState(j.status, StatusOK))
  {
    match StatusOf(j.status)
    case Success => Ok(j)
    case Failed => Err(SubmissionFailed(j.failureReason))
    case _ => Err(UnexpectedState(j.status, StatusOK))
  }
}
