/**
 * The endorsement-submission client: the configuration object with its setters, the lazy
 * choice of HTTP client, and Run.
 */
module Provisioning {
  import opened Wrappers
  import opened Errors
  import opened Session
  import opened Poll
  import opened Protocol

  /** The identity of an injected authenticator; what it puts in the Authorization header is not modelled. */
  datatype Authenticator = Authenticator(id: nat)

  /** The three HTTP clients the configuration can build. */
  datatype Transport =
    | Plain                                 // plain HTTP
    | InsecureTLS                           // TLS without verifying the server certificate
    | VerifiedTLS(caCerts: seq<string>)     // TLS trusting the system CAs and the given CA certificate files

  /** What parsing a candidate submit URI yields: an error, or its scheme and whether it is absolute. */
  datatype UriParse = Malformed(cause: string) | Parsed(scheme: string, absolute: bool)

  /** The client a configuration builds: plain unless TLS is on, then insecure or verifying as asked. */
  function TransportFor(useTLS: bool, isInsecure: bool, caCerts: seq<string>): (t: Transport)
    ensures t == Plain <==> !useTLS
    ensures t == InsecureTLS <==> useTLS && isInsecure
    ensures t.VerifiedTLS? <==> useTLS && !isInsecure
    ensures t.VerifiedTLS? ==> t.caCerts == caCerts
  {
    if !useTLS then Plain
    else if isInsecure then InsecureTLS
    else VerifiedTLS(caCerts)
  }

  /**
   * Whether getting a client ready fails: only when there is none yet and the verifying TLS
   * client has to be built, and loading its CA certificates fails (`certsError`).
   */
  function ClientSetup(hasClient: bool, useTLS: bool, isInsecure: bool, certsError: Option<string>): (err: Option<Error>)
    ensures err.Some? <==> !hasClient && useTLS && !isInsecure && certsError.Some?
    ensures err.Some? ==> err.value == TransportSetup(certsError.value)
  {
    if hasClient || !useTLS || isInsecure then None
    else match certsError
      case Some(c) => Some(TransportSetup(c))
      case None => None
  }

  /** An HTTP client: its transport is fixed when it is built, its authenticator can be replaced. */
  class Client {
    var auth: Option<Authenticator>
    const transport: Transport

    constructor (auth: Option<Authenticator>, transport: Transport)
      ensures this.auth == auth && this.transport == transport
    {
      this.auth := auth;
      this.transport := transport;
    }
  }

  /** The context of one endorsement-submission API session. */
  class SubmitConfig {
    var caCerts: seq<string>       // CA certificate files trusted besides the system's
    var client: Client?            // the HTTP client, built on first use when absent
    var submitURI: string          // the submit endpoint
    var auth: Option<Authenticator>
    var deleteSession: bool        // DELETE the session resource once polling is over
    var useTLS: bool
    var isInsecure: bool           // skip server certificate verification (with TLS only)

    /** The zero configuration. */
    constructor ()
      ensures caCerts == [] && client == null && submitURI == "" && auth == None
      ensures !deleteSession && !useTLS && !isInsecure
    {
      caCerts, client, submitURI, auth := [], null, "", None;
      deleteSession, useTLS, isInsecure := false, false, false;
    }

    /** A field-by-field copy, sharing the client: what a value receiver gets. */
    constructor Copy(other: SubmitConfig)
      ensures caCerts == other.caCerts && client == other.client && submitURI == other.submitURI
      ensures auth == other.auth && deleteSession == other.deleteSession
      ensures useTLS == other.useTLS && isInsecure == other.isInsecure
    {
      caCerts, client, submitURI, auth := other.caCerts, other.client, other.submitURI, other.auth;
      deleteSession, useTLS, isInsecure := other.deleteSession, other.useTLS, other.isInsecure;
    }

    /**
     * Installs a client; refuses nil and then changes nothing. A configured authenticator
     * replaces the client's own.
     */
    method SetClient(c: Client?) returns (err: Option<Error>)
      modifies this, c
      ensures c == null ==> err == Some(NoClientSupplied) && unchanged(this)
      ensures c != null ==> err == None && client == c
      ensures c != null ==> c.auth == if old(auth).Some? then old(auth) else old(c.auth)
      ensures caCerts == old(caCerts) && submitURI == old(submitURI) && auth == old(auth)
      ensures deleteSession == old(deleteSession) && useTLS == old(useTLS) && isInsecure == old(isInsecure)
    {
      if c == null {
        return Some(NoClientSupplied);
      }
      if auth.Some? {
        c.auth := auth;
      }
      client := c;
      return None;
    }

    /**
     * Sets the submit endpoint from a URI whose parse is `parsed`: a malformed or relative URI
     * is refused and changes nothing; otherwise TLS is used exactly for the "https" scheme.
     */
    method SetSubmitURI(uri: string, parsed: UriParse) returns (err: Option<Error>)
      modifies this
      ensures parsed.Malformed? ==> err == Some(MalformedURI(parsed.cause)) && unchanged(this)
      ensures parsed.Parsed? && !parsed.absolute ==> err == Some(NotAbsolute) && unchanged(this)
      ensures parsed.Parsed? && parsed.absolute ==>
                err == None && submitURI == uri && useTLS == (parsed.scheme == "https")
      ensures caCerts == old(caCerts) && client == old(client) && auth == old(auth)
      ensures deleteSession == old(deleteSession) && isInsecure == old(isInsecure)
    {
      match parsed
      case Malformed(c) =>
        return Some(MalformedURI(c));
      case Parsed(scheme, absolute) =>
        if !absolute {
          return Some(NotAbsolute);
        }
        useTLS := scheme == "https";
        submitURI := uri;
        return None;
    }

    /** Asks for the session resource to be deleted once polling is over, or not. */
    method SetDeleteSession(session: bool)
      modifies this
      ensures deleteSession == session
      ensures caCerts == old(caCerts) && client == old(client) && submitURI == old(submitURI)
      ensures auth == old(auth) && useTLS == old(useTLS) && isInsecure == old(isInsecure)
    {
      deleteSession := session;
    }

    /** Sets the authenticator, and passes it on to the client when there is one. */
    method SetAuth(a: Option<Authenticator>)
      modifies this, client
      ensures auth == a && client == old(client)
      ensures client != null ==> client.auth == a
      ensures caCerts == old(caCerts) && submitURI == old(submitURI)
      ensures deleteSession == old(deleteSession) && useTLS == old(useTLS) && isInsecure == old(isInsecure)
    {
      auth := a;
      if client != null {
        client.auth := auth;
      }
    }

    /** Allows or forbids TLS without server certificate verification. */
    method SetIsInsecure(val: bool)
      modifies this
      ensures isInsecure == val
      ensures caCerts == old(caCerts) && client == old(client) && submitURI == old(submitURI)
      ensures auth == old(auth) && deleteSession == old(deleteSession) && useTLS == old(useTLS)
    {
      isInsecure := val;
    }

    /** Sets the CA certificate files trusted besides the system's. */
    method SetCerts(paths: seq<string>)
      modifies this
      ensures caCerts == paths
      ensures client == old(client) && submitURI == old(submitURI) && auth == old(auth)
      ensures deleteSession == old(deleteSession) && useTLS == old(useTLS) && isInsecure == old(isInsecure)
    {
      caCerts := paths;
    }

    /**
     * Makes sure there is a client: an existing one is kept as it is; otherwise a new one
     * carrying the configured authenticator is built with the transport the flags select.
     * Building the verifying TLS client fails when its CA certificates cannot be loaded
     * (`certsError`), and then there is still no client.
     */
    method InitClient(certsError: Option<string>) returns (err: Option<Error>)
      modifies this
      ensures err == ClientSetup(old(client) != null, useTLS, isInsecure, certsError)
      ensures old(client) != null ==> client == old(client)
      ensures old(client) == null && err.None? ==>
                client != null && fresh(client) &&
                client.transport == TransportFor(useTLS, isInsecure, caCerts) && client.auth == auth
      ensures err.Some? ==> client == null
      ensures caCerts == old(caCerts) && submitURI == old(submitURI) && auth == old(auth)
      ensures deleteSession == old(deleteSession) && useTLS == old(useTLS) && isInsecure == old(isInsecure)
    {
      if client != null {
        return None;
      }
      if !useTLS {
        client := new Client(auth, Plain);
        return None;
      }
      if isInsecure {
        client := new Client(auth, InsecureTLS);
        return None;
      }
      match certsError
      case Some(c) =>
        return Some(TransportSetup(c));
      case None =>
        client := new Client(auth, VerifiedTLS(caCerts));
        return None;
    }

    /**
     * Submits an endorsement of the given media type. Works on a copy of the configuration,
     * so the caller's configuration is never changed, not even by building the client. The
     * server answers the POST with `post` and the poll GETs in the order of `polls`; building
     * a verifying TLS client fails with `certsError`; `maxAttempts` is the poll budget.
     */
    method Run(
      endorsement: seq<bv8>, mediaType: string, certsError: Option<string>,
      post: Exchange, polls: seq<Exchange>, maxAttempts: int)
      returns (session: Result<SubmitSession, Error>, requests: seq<Request>)
      ensures Submission(session, requests) ==
              Submit(submitURI, deleteSession, ClientSetup(client != null, useTLS, isInsecure, certsError),
                     endorsement, mediaType, post, polls, maxAttempts)
    {
      var cfg := new SubmitConfig.Copy(this);
      var err := Check(cfg.submitURI);
      if err.Some? {
        return Err(err.value), [];
      }
      err := cfg.InitClient(certsError);
      if err.Some? {
        return Err(err.value), [];
      }
      requests := [Post(cfg.submitURI, endorsement, mediaType, SessionMediaType)];
      if post.SendFailed? {
        return Err(SubmitRequestFailed(post.cause)), requests;
      }
      var res := post.response;
      if res.code != StatusOK && res.code != StatusCreated {
        return Err(UnexpectedResponseCode(res.code)), requests;
      }
      var j := SessionFromResponse(res);
      if j.Err? {
        return Err(j.error), requests;
      }
      if res.code == StatusOK {
        match StatusOf(j.value.status)
        case Success =>
          return Ok(j.value), requests;
        case Failed =>
          return Err(SubmissionFailed(j.value.failureReason)), requests;
        case _ =>
          return Err(UnexpectedState(j.value.status, StatusOK)), requests;
      }
      if j.value.status != StatusProcessing {
        return Err(UnexpectedState(j.value.status, StatusCreated)), requests;
      }
      if res.location.Err? {
        return Err(NoSessionLocation(res.location.error)), requests;
      }
      var sessionURI := res.location.value;
      var gets;
      session, gets := PollForSubmissionCompletion(sessionURI, polls, maxAttempts);
      requests := requests + gets;
      if cfg.deleteSession {
        // best effort: a failed DELETE is only logged
        requests := requests + [Delete(sessionURI)];
      }
    }
  }

  /**
   * The client choices and setter effects the client's tests exercise, derived from the
   * contracts alone: the transports built for an http URI, an https URI and an https URI with
   * insecure connections allowed, and the error for a relative URI.
   */
  method ConfigurationScenarios(a: Authenticator)
    returns (plain: Transport, verified: Transport, insecure: Transport, relative: Option<Error>)
    ensures plain == Plain && verified == VerifiedTLS([]) && insecure == InsecureTLS
    ensures relative == Some(NotAbsolute)
  {
    var cfg := new SubmitConfig();
    var e := cfg.SetSubmitURI("http://veraison.example/endorsement-provisioning/v1/submit", Parsed("http", true));
    e := cfg.InitClient(None);
    plain := cfg.client.transport;

    var tls := new SubmitConfig();
    e := tls.SetSubmitURI("https://veraison.example/endorsement-provisioning/v1/submit", Parsed("https", true));
    e := tls.InitClient(None);
    verified := tls.client.transport;

    var skip := new SubmitConfig();
    e := skip.SetSubmitURI("https://veraison.example/endorsement-provisioning/v1/submit", Parsed("https", true));
    skip.SetIsInsecure(true);
    e := skip.InitClient(None);
    insecure := skip.client.transport;

    var rel := new SubmitConfig();
    relative := rel.SetSubmitURI("veraison.example/endorsement-provisioning/v1/submit", Parsed("", false));
    assert rel.submitURI == "" && !rel.useTLS;

    cfg.SetDeleteSession(true);
    cfg.SetAuth(Some(a));
    assert cfg.deleteSession && cfg.auth == Some(a) && cfg.client.auth == Some(a);
    cfg.SetCerts(["/test/path1", "/test/path2"]);
    assert cfg.caCerts == ["/test/path1", "/test/path2"] && cfg.deleteSession;

    e := cfg.SetClient(null);
    assert e == Some(NoClientSupplied) && cfg.client != null;
  }

  /** Run on the zero configuration fails with "no API endpoint" before any request. */
  method RunWithoutEndpoint(endorsement: seq<bv8>, post: Exchange, polls: seq<Exchange>)
    returns (session: Result<SubmitSession, Error>, requests: seq<Request>)
    ensures session == Err(NoEndpoint) && requests == []
  {
    var cfg := new SubmitConfig();
    session, requests := cfg.Run(endorsement, "application/corim+cbor", None, post, polls, 3);
  }
}
