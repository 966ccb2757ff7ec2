# Endorsement-submission client, modelled in Dafny

This project models the endorsement-submission client of the Veraison API client
(`provisioning/provisioning.go`). A caller configures a `SubmitConfig` (submit endpoint,
HTTP client, authenticator, TLS options, whether to delete the session afterwards) and calls
`Run` with an endorsement and its media type. `Run` POSTs the endorsement to the submit
endpoint and reads the provisioning-session record in the answer. A 200 answer settles the
submission at once. A 201 answer with status `processing` hands over to a poller, which GETs
the session resource named by the `Location` header until its status leaves `processing` or
the attempt budget runs out. Afterwards `Run` optionally DELETEs the session resource, best
effort.

Modules, one per file:

- `Wrappers` (`wrappers.dfy`): `Option` and `Result` (`Ok`/`Err`), standing for Go's nil
  pointers and `(value, error)` pairs.
- `Errors` (`errors.dfy`): one constructor per error the client returns, and `Message`, the
  exact text of each (including `%d` printing of codes).
- `Session` (`session.dfy`): the session record `SubmitSession`, the classification of its
  status string, the abstract HTTP response (code, status line, content length, content type,
  decode outcome of the body, resolved `Location`), the requests the client issues, the
  decoder `SessionFromResponse` and `Conclude` (what a record in a 200 answer means).
- `Poll` (`poll.dfy`): one poll attempt (`PollStep`), the poller as a function (`PollFrom`)
  and as the counted loop of the Go code (`PollForSubmissionCompletion`), and lemmas on when it
  stops.
- `Protocol` (`protocol.dfy`): `Check`, and `Submit`: the outcome of `Run` and the requests
  it issues, as a function of the configuration and of the server's answers, with lemmas on
  the DELETE and on the number of GETs.
- `Provisioning` (`provisioning.dfy`): the `Client` and `SubmitConfig` classes, the setters,
  `InitClient` and `Run`, proved to behave as `Submit` says.

The server is modelled by its answers: one `Exchange` for the POST (a response, or a failure
to send it) and a sequence of them for the GETs, consumed one per attempt. A GET past the end
of that sequence fails to send, as with an unreachable host. The poll budget `MaxAttempts`
is a parameter. The attempt counter runs from 1 while below `MaxAttempts`, so at most
`MaxAttempts - 1` GETs are issued; the model keeps that bound as the code has it.

`Run` has a value receiver in the Go code, so the client it may build lazily is built on a
copy. The model's `Run` copies the configuration (`SubmitConfig.Copy`), calls `InitClient`
on the copy, and has no `modifies` clause: the caller's configuration is provably untouched.

## Model

| member | source | states |
|---|---|---|
| `Errors.Message` | provisioning/provisioning.go:134-138 | a "submission failed" message starts with that text and is exactly that text if and only if no failure reason is present; otherwise ": reason" follows |
| `Errors.ResponseCodeMessage` | provisioning/provisioning.go:117-119 | the message for an unexpected POST code starts with "unexpected HTTP response code " and its tail reads back as the code |
| `Errors.NotFoundMessage` | provisioning/provisioning_test.go:86-107 | a 404 answer to the POST gives "unexpected HTTP response code 404" |
| `Errors.UnexpectedStateMessage` | provisioning/provisioning_test.go:156-165 | status "whatever" in a 200 answer gives `unexpected session state "whatever" in 200 response` |
| `Session.StatusOf` | provisioning/provisioning.go:189-202 | a status string is read as success, failed, processing or any other string, and the reading gives back the string unchanged |
| `Session.SessionFromResponse` | provisioning/provisioning.go:216-235 | a zero content length gives "empty body" whatever the content type; otherwise a content type other than the session media type is refused even when the body decodes; the record is returned if and only if the length is non-zero, the type matches and the body decodes |
| `Session.Conclude` | provisioning/provisioning.go:130-141 | a record in a 200 answer is returned if and only if its status is "success"; "failed" gives the submission failure with the record's reason; any other status, "processing" included, is an unexpected state in a 200 response |
| `Poll.PollStep` | provisioning/provisioning.go:175-202 | one attempt goes on if and only if the GET was answered 200 with a decodable session record of status "processing"; a send failure or a non-200 answer stops with its own error, a decode failure stops with the decoder's error, and any other decoded status stops with `Conclude`'s outcome: the record for "success", the reason for "failed", an unexpected state otherwise |
| `Poll.PollFrom` | provisioning/provisioning.go:174-205 | polling from an attempt issues at most one GET per attempt left, at least one when any is left, and succeeds only with a "success" record |
| `Poll.PollForSubmissionCompletion` | provisioning/provisioning.go:171-206 | the counted loop returns the outcome `PollFrom` gives from attempt 1 and has issued exactly that many GETs of the session URI |
| `Poll.PollExhaustedIff` | provisioning/provisioning.go:174-205 | polling ends in "attempts exhausted" if and only if every answer it may read says "processing", and it then has issued `MaxAttempts - 1` GETs |
| `Poll.PollStopsAtFirstTerminal` | provisioning/provisioning.go:174-202 | polling stops at the first answer that is not "processing", with that answer's outcome, after as many GETs as answers read |
| `Protocol.Check` | provisioning/provisioning.go:208-214 | the configuration fails with "no API endpoint" if and only if the submit URI is empty |
| `Protocol.Handover` | provisioning/provisioning.go:143-152 | the poller takes over if and only if the POST was answered 201 with a decodable "processing" record and a usable Location, and it polls that Location |
| `Protocol.Answer` | provisioning/provisioning.go:113-163 | a send failure, a code other than 200 and 201, a decode failure, a 200 record, a 201 record not "processing" and a 201 "processing" record without Location each give their error (or the 200 record's conclusion) with no further request; after a hand-over the poller's outcome is returned unchanged and the requests are its GETs followed by one DELETE exactly when asked for |
| `Protocol.Submit` | provisioning/provisioning.go:96-164 | an empty submit URI fails with "no API endpoint" and a failing client setup with its error, both before any request; otherwise the outcome is `Answer`'s and the requests are one POST of the payload, with its media type and accepting session records, followed by `Answer`'s requests; a returned record always has status "success" |
| `Protocol.DeleteNeverChangesOutcome` | provisioning/provisioning.go:154-163 | the outcome is the same with and without the DELETE; the requests differ only by one trailing DELETE after a hand-over |
| `Protocol.AtMostBudgetGets` | provisioning/provisioning.go:154-205 | every GET a submission issues comes after a hand-over, names the session resource and sits at positions 1 to `MaxAttempts - 1` |
| `Protocol.DeleteExactlyOnce` | provisioning/provisioning.go:156-161 | after a hand-over, exactly one DELETE, the last request, of the polled resource, is issued if and only if the configuration asks for it |
| `Protocol.AsyncSuccess` | provisioning/provisioning_test.go:250-300 | a 201 hand-over followed by k "processing" answers and a "success" answer within the budget returns that record after k + 1 GETs |
| `Protocol.AsyncExhausted` | provisioning/provisioning.go:174-205 | a 201 hand-over whose every poll answer is "processing" fails with "attempts exhausted" after `MaxAttempts - 1` GETs |
| `Provisioning.TransportFor` | provisioning/provisioning.go:242-256 | the plain client exactly when TLS is off, the insecure TLS client exactly when TLS is on and insecure is allowed, otherwise the verifying TLS client with the configured CA certificates |
| `Provisioning.ClientSetup` | provisioning/provisioning.go:237-257 | getting a client ready fails if and only if none exists, TLS is on, insecure is off and the CA certificates cannot be loaded, with that loading error |
| `Provisioning.SubmitConfig.constructor` | provisioning/provisioning.go:30-39 | the zero configuration: no URI, no client, no authenticator, all flags off |
| `Provisioning.SubmitConfig.Copy` | provisioning/provisioning.go:96 | the value-receiver copy has every field of the original and shares its client |
| `Provisioning.SubmitConfig.SetClient` | provisioning/provisioning.go:42-53 | nil is refused with "no client supplied" and nothing changes; otherwise the client is installed and takes the configured authenticator when one is set; no other field changes |
| `Provisioning.SubmitConfig.SetSubmitURI` | provisioning/provisioning.go:56-67 | a malformed or relative URI is refused and nothing changes; otherwise the URI is set and TLS is on exactly for the "https" scheme; no other field changes |
| `Provisioning.SubmitConfig.SetDeleteSession` | provisioning/provisioning.go:70-72 | sets the delete flag and nothing else |
| `Provisioning.SubmitConfig.SetAuth` | provisioning/provisioning.go:75-80 | sets the authenticator, writes it through to an existing client, and changes nothing else |
| `Provisioning.SubmitConfig.SetIsInsecure` | provisioning/provisioning.go:83-85 | sets the insecure flag and nothing else |
| `Provisioning.SubmitConfig.SetCerts` | provisioning/provisioning.go:88-90 | sets the CA certificate paths and nothing else |
| `Provisioning.SubmitConfig.InitClient` | provisioning/provisioning.go:237-257 | an existing client is kept; otherwise a fresh client with the configured authenticator and the transport `TransportFor` selects, unless the verifying TLS client fails to load its certificates, which leaves no client |
| `Provisioning.ConfigurationScenarios` | provisioning/provisioning_test.go:495-530 | returns, derived from the setter and `InitClient` contracts alone, the transports built: an http URI gives the plain client, https the verifying TLS client, https with insecure allowed the insecure TLS client; a relative URI is refused and changes nothing; the setters set their fields and `SetAuth` reaches the client; `SetClient(nil)` is refused and keeps the client |
| `Provisioning.RunWithoutEndpoint` | provisioning/provisioning_test.go:68-76 | from `Run`'s contract alone: on the zero configuration `Run` fails with "no API endpoint" and issues no request |
| `Provisioning.SubmitConfig.Run` | provisioning/provisioning.go:96-164 | returns the outcome and issues the requests `Submit` gives for the configuration and the server's answers, without changing the caller's configuration |

## Left out

- The HTTP transport itself (the POST, GET and DELETE of the `common` package): requests are
  recorded, and their answers are inputs. A network or DNS failure is one "send failed" answer.
- The answer to the DELETE: the client only logs a failure, so the model does not read it.
- The logging (`log.Printf`) and the sleep of one poll period between attempts.
- The `common` package's constants and helpers are not part of this model: the status strings
  "success", "failed" and "processing" are taken from the tests; `MaxAttempts` is a parameter.
- JSON decoding of the body, `url.Parse` with `IsAbs`, and the resolution of the `Location`
  header are library calls: their outcomes are inputs (`Body`, `UriParse`, `Response.location`).
- The construction of the three HTTP clients, including reading CA certificate files: the model
  records which one is chosen and takes the failure of the verifying TLS client as an input. On
  that failure the model leaves the configuration without a client.
- What the authenticator adds to a request; only which authenticator a client holds is modelled.
- Errors.Message: Go's `%q` escapes special characters; the model puts the string between plain
  double quotes. Errors wrapped with `%w` are modelled by the wrapped error's text.
- The payload's bytes are carried in the POST request and never inspected, as in the Go code.
