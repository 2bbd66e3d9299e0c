/** The call to the flight-data provider. The network exchange itself is a
    parameter: `Reply` is what the provider (or the transport) answered. The
    model keeps only the decisions the client makes around that exchange:
    refusing to send without a usable credential, and turning a non-success
    status into an error whose message carries the status and raw body. */
module Upstream {
  import opened Wrappers
  import opened Common
  import opened Text

  const PLACEHOLDER_KEY := "your_api_key_here"
  const NOT_CONFIGURED := "SKYSCANNER_API_KEY not configured"
  const STATUS_PREFIX := "Skyscanner API "

  /** The provider's answer: a status, its raw body text and the parsed
      JSON body; or a transport failure (the `fetch` promise rejected). */
  datatype Reply<P> = Reply(status: nat, text: string, json: P)
                    | Unreachable(message: string)

  datatype FetchError =
    | NotConfigured
    | HttpFailure(status: nat, body: string)
    | Transport(message: string)

  /** `response.ok`: a 2xx status. */
  predicate IsOk(status: nat) {
    200 <= status <= 299
  }

  /** The credential is present, non-empty and not the placeholder. */
  predicate Configured(apiKey: Option<string>) {
    Truthy(apiKey) && apiKey.value != PLACEHOLDER_KEY
  }

  /** Only the serverless client checks the credential before sending; the
      Express server sends whatever it has. */
  predicate Sends(d: Deployment, apiKey: Option<string>) {
    d == ExpressServer || Configured(apiKey)
  }

  /** `err.message` of each failure. */
  function Message(e: FetchError): (m: string)
    ensures e.NotConfigured? ==> m == NOT_CONFIGURED
    ensures e.Transport? ==> m == e.message
    ensures e.HttpFailure? ==>
              |m| > |STATUS_PREFIX| + |e.body| && m[..|STATUS_PREFIX|] == STATUS_PREFIX && m[|m| - |e.body|..] == e.body
  {
    match e
    case NotConfigured => NOT_CONFIGURED
    case HttpFailure(status, body) => STATUS_PREFIX + NatToString(status) + ": " + body
    case Transport(message) => message
  }

  /** `skyscannerFetch` of either deployment. */
  function Fetch<P>(d: Deployment, apiKey: Option<string>, reply: Reply<P>): (r: Result<P, FetchError>)
    ensures !Sends(d, apiKey) ==> r == Failure(NotConfigured)
    ensures r.Success? <==> Sends(d, apiKey) && reply.Reply? && IsOk(reply.status)
    ensures r.Success? ==> r.value == reply.json
    ensures Sends(d, apiKey) && reply.Reply? && !IsOk(reply.status) ==>
              r == Failure(HttpFailure(reply.status, reply.text))
    ensures Sends(d, apiKey) && reply.Unreachable? ==> r == Failure(Transport(reply.message))
  {
    if !Sends(d, apiKey) then Failure(NotConfigured)
    else
      match reply
      case Unreachable(message) => Failure(Transport(message))
      case Reply(status, text, json) =>
        if IsOk(status) then Success(json) else Failure(HttpFailure(status, text))
  }

  /** Without a usable credential the serverless client fails the same way
      whatever the provider would have answered: no request is made. */
  lemma UnconfiguredNeverSends<P>(apiKey: Option<string>, a: Reply<P>, b: Reply<P>)
    requires apiKey.None? || apiKey == Some("") || apiKey == Some(PLACEHOLDER_KEY)
    ensures Fetch(Serverless, apiKey, a) == Fetch(Serverless, apiKey, b) == Failure(NotConfigured)
  {
  }

  /** The Express server has no such check: a missing credential still
      reaches the provider, and its answer decides the outcome. */
  lemma ExpressSendsUnconfigured<P>(json: P)
    ensures Fetch(ExpressServer, None, Reply(200, "", json)) == Success(json)
    ensures Fetch(ExpressServer, None, Reply(401, "unauthorized", json)) == Failure(HttpFailure(401, "unauthorized"))
  {
  }

  /** The message of an HTTP failure lets the reader recover both the status
      and the raw body. */
  lemma {:induction false} HttpFailureMessageCarriesDetail(status: nat, body: string)
    ensures var m := Message(HttpFailure(status, body));
            && |m| >= |STATUS_PREFIX| + |body|
            && m[..|STATUS_PREFIX|] == STATUS_PREFIX
            && m[|m| - |body|..] == body
            && AllDigits(Split(m[|STATUS_PREFIX|..], ':')[0])
            && ParseNat(Split(m[|STATUS_PREFIX|..], ':')[0]) == status
  {
    var digits := NatToString(status);
    var m := Message(HttpFailure(status, body));
    assert m == STATUS_PREFIX + (digits + [':'] + (" " + body));
    assert m[|STATUS_PREFIX|..] == digits + [':'] + (" " + body);
    DigitsAvoid(digits, ':');
    SplitAtFirstSeparator(digits, " " + body, ':');
    ParseNatToString(status);
  }
}
