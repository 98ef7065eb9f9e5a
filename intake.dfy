/** The lead-intake endpoint: one stateless POST that gates on the request's
    country, validates the three lead fields and the server configuration,
    composes a notification message and turns the email provider's answer
    into an HTTP response. */
module Intake {
  import opened Common

  /** The provider's result payload; the endpoint only echoes it. */
  type Payload = string

  /** The three fields destructured from the JSON body; a field the body does
      not carry (or carries as null) is `None`. */
  datatype Fields = Fields(name: Option<string>, email: Option<string>, propertyAddress: Option<string>)

  /** What reading the body yields. `Unparsable`: the body is not JSON, so
      reading it throws. `JsonNull`: the body is the JSON value null, and
      destructuring it throws. Any other JSON value destructures into
      `Record` (a non-object gives three absent fields). */
  datatype Body = Unparsable | JsonNull | Record(fields: Fields)

  /** The parts of a request the endpoint looks at: the country header
      (`None` when the proxy did not set it) and the body. */
  datatype Request = Request(country: Option<string>, body: Body)

  /** The two environment values read at request time. */
  datatype Env = Env(apiKey: Option<string>, recipient: Option<string>)

  /** What the provider's send does with a message: it reports data, it
      reports an error carrying a message, or the call itself throws. */
  datatype SendOutcome = Delivered(data: Payload) | Rejected(message: string) | SendThrew

  /** The message handed to the provider; `content` is what the email
      template is built from. */
  datatype Message = Message(from: string, to: seq<string>, subject: string, replyTo: string, content: Lead)

  datatype ResponseBody = ErrorBody(error: string) | SuccessBody(data: Payload)
  datatype Response = Response(status: nat, body: ResponseBody)

  /** The response, and the message the endpoint handed to the provider
      (`None` when the provider was never reached). */
  datatype Handled = Handled(response: Response, sent: Option<Message>)

  const Sender := "Real Estate Agent Intake <onboarding@resend.dev>"
  const SubjectPrefix := "New Interest in "
  const AccessDenied := "Access denied. US IP addresses only."
  const MissingFields := "Missing required fields"
  const ConfigurationError := "Server configuration error"
  const InternalError := "Internal server error"

  /** Status codes of RFC 9110: 200 (section 15.3.1), 400 (section 15.5.1),
      403 (section 15.5.4), 500 (section 15.6.1). */
  const Ok := 200
  const BadRequest := 400
  const Forbidden := 403
  const ServerError := 500

  /** The geographic gate blocks a present, non-empty country other than
      exactly "US"; an absent or empty header passes. */
  predicate Blocked(country: Option<string>) {
    Truthy(country) && country.value != "US"
  }

  /** The required-field check: all three fields truthy; no trimming, no
      format check. */
  predicate Complete(f: Fields) {
    Truthy(f.name) && Truthy(f.email) && Truthy(f.propertyAddress)
  }

  predicate Configured(env: Env) {
    Truthy(env.apiKey) && Truthy(env.recipient)
  }

  function Reject(status: nat, error: string): Handled {
    Handled(Response(status, ErrorBody(error)), None)
  }

  /** The subject line names the property. */
  function Subject(propertyAddress: string): string {
    SubjectPrefix + propertyAddress
  }

  /** Reads the property back out of a subject line built by `Subject`. */
  function AddressOf(subject: string): Option<string> {
    if |SubjectPrefix| <= |subject| && subject[..|SubjectPrefix|] == SubjectPrefix
    then Some(subject[|SubjectPrefix|..])
    else None
  }

  /** The message for a valid lead: fixed sender, the configured recipient,
      replies going to the submitter. */
  function Compose(lead: Lead, recipient: string): Message {
    Message(Sender, [recipient], Subject(lead.propertyAddress), lead.email, lead)
  }

  /** The response for the provider's answer. */
  function Answer(outcome: SendOutcome): (r: Response)
    ensures r.status == Ok <==> outcome.Delivered?
    ensures outcome.Delivered? ==> r.body == SuccessBody(outcome.data)
    ensures outcome.Rejected? ==> r.body == ErrorBody(outcome.message)
    ensures outcome.SendThrew? ==> r.body == ErrorBody(InternalError)
  {
    match outcome
    case Delivered(data) => Response(Ok, SuccessBody(data))
    case Rejected(message) => Response(ServerError, ErrorBody(message))
    case SendThrew => Response(ServerError, ErrorBody(InternalError))
  }

  /** The POST handler. `outcome` is what the provider would answer to the
      message; it is consulted only when a message is sent. */
  function Post(req: Request, env: Env, outcome: SendOutcome): (r: Handled)
    ensures r.sent.Some? <==>
              !Blocked(req.country) && req.body.Record? && Complete(req.body.fields) && Configured(env)
    ensures r.response.status == Ok <==> r.sent.Some? && outcome.Delivered?
    ensures r.response.status in {Ok, BadRequest, Forbidden, ServerError}
  {
    if Blocked(req.country) then Reject(Forbidden, AccessDenied)
    else match req.body
      case Unparsable => Reject(ServerError, InternalError)
      case JsonNull => Reject(ServerError, InternalError)
      case Record(f) =>
        if !Complete(f) then Reject(BadRequest, MissingFields)
        else if !Truthy(env.apiKey) then Reject(ServerError, ConfigurationError)
        else if !Truthy(env.recipient) then Reject(ServerError, ConfigurationError)
        else
          var message := Compose(Lead(f.name.value, f.email.value, f.propertyAddress.value), env.recipient.value);
          Handled(Answer(outcome), Some(message))
  }

  // ---------------------------------------------------------------------
  // An independent statement of the order of checks: every check a request
  // fails, listed in the order the handler runs them, and the rejection
  // each one produces.

  datatype Check = GeoGate | BodyRead | RequiredFields | ApiKey | Recipient

  function Failures(req: Request, env: Env): seq<Check> {
    (if Blocked(req.country) then [GeoGate] else [])
    + (if !req.body.Record? then [BodyRead] else [])
    + (if req.body.Record? && !Complete(req.body.fields) then [RequiredFields] else [])
    + (if !Truthy(env.apiKey) then [ApiKey] else [])
    + (if !Truthy(env.recipient) then [Recipient] else [])
  }

  function Rejection(c: Check): Handled {
    match c
    case GeoGate => Reject(Forbidden, AccessDenied)
    case BodyRead => Reject(ServerError, InternalError)
    case RequiredFields => Reject(BadRequest, MissingFields)
    case ApiKey => Reject(ServerError, ConfigurationError)
    case Recipient => Reject(ServerError, ConfigurationError)
  }

  /** A request that fails any check gets the rejection of the earliest one
      and reaches no provider; one that fails none sends the composed message
      and answers with the provider's result. */
  lemma FirstFailureDecides(req: Request, env: Env, outcome: SendOutcome)
    ensures Failures(req, env) != [] ==> Post(req, env, outcome) == Rejection(Failures(req, env)[0])
    ensures Failures(req, env) == [] ==>
              var f := req.body.fields;
              Post(req, env, outcome)
                == Handled(Answer(outcome),
                           Some(Compose(Lead(f.name.value, f.email.value, f.propertyAddress.value), env.recipient.value)))
  {
  }

  // ---------------------------------------------------------------------
  // One lemma per branch of the handler.

  /** A non-US country is refused before the body is read, whatever the
      body, the configuration and the provider would do. */
  lemma NonUsDenied(country: string, body: Body, env: Env, outcome: SendOutcome)
    requires country != "" && country != "US"
    ensures Post(Request(Some(country), body), env, outcome) == Reject(Forbidden, AccessDenied)
  {
  }

  /** An absent header and an empty one pass the gate exactly as "US" does. */
  lemma AbsentCountryActsAsUs(body: Body, env: Env, outcome: SendOutcome)
    ensures Post(Request(None, body), env, outcome) == Post(Request(Some("US"), body), env, outcome)
    ensures Post(Request(Some(""), body), env, outcome) == Post(Request(Some("US"), body), env, outcome)
  {
  }

  /** Once past the gate, a missing or empty field gets 400 and no send. */
  lemma IncompleteRejected(country: Option<string>, f: Fields, env: Env, outcome: SendOutcome)
    requires !Blocked(country) && !Complete(f)
    ensures Post(Request(country, Record(f)), env, outcome) == Reject(BadRequest, MissingFields)
  {
  }

  /** Every non-empty string passes the field check, including whitespace:
      there is no trimming and no format check. */
  lemma NonEmptyAccepted(name: string, email: string, propertyAddress: string)
    ensures Complete(Fields(Some(name), Some(email), Some(propertyAddress)))
            <==> name != "" && email != "" && propertyAddress != ""
  {
  }

  /** Valid fields with either environment value unset or empty get the same
      500 and no send. */
  lemma UnconfiguredRejected(country: Option<string>, f: Fields, env: Env, outcome: SendOutcome)
    requires !Blocked(country) && Complete(f) && !Configured(env)
    ensures Post(Request(country, Record(f)), env, outcome) == Reject(ServerError, ConfigurationError)
  {
  }

  /** A body that cannot be read or destructured lands in the catch-all. */
  lemma UnreadableBodyIsInternalError(country: Option<string>, body: Body, env: Env, outcome: SendOutcome)
    requires !Blocked(country) && !body.Record?
    ensures Post(Request(country, body), env, outcome) == Reject(ServerError, InternalError)
  {
  }

  /** The message actually sent: fixed sender, the recipient as a one-element
      list, the property in the subject, replies to the submitter, and the
      template built from exactly the submitted fields. */
  lemma SentMessageShape(req: Request, env: Env, outcome: SendOutcome)
    requires Post(req, env, outcome).sent.Some?
    ensures var m := Post(req, env, outcome).sent.value;
            var f := req.body.fields;
            && m.from == Sender
            && m.to == [env.recipient.value]
            && AddressOf(m.subject) == Some(f.propertyAddress.value)
            && m.replyTo == f.email.value
            && m.content == Lead(f.name.value, f.email.value, f.propertyAddress.value)
  {
  }

  /** The subject line gives back the property it was built from. */
  lemma SubjectRoundTrip(propertyAddress: string)
    ensures AddressOf(Subject(propertyAddress)) == Some(propertyAddress)
  {
  }

  /** When a message is sent, the response is exactly the provider's answer:
      200 echoing its data, or 500 with its error message. */
  lemma ProviderAnswerPropagates(req: Request, env: Env, outcome: SendOutcome)
    requires Post(req, env, outcome).sent.Some?
    ensures outcome.Delivered? ==> Post(req, env, outcome).response == Response(Ok, SuccessBody(outcome.data))
    ensures outcome.Rejected? ==> Post(req, env, outcome).response == Response(ServerError, ErrorBody(outcome.message))
    ensures outcome.SendThrew? ==> Post(req, env, outcome).response == Response(ServerError, ErrorBody(InternalError))
  {
  }

  /** A rejected request does not depend on the provider, so repeating it
      yields the same response every time, and no send is ever attempted. */
  lemma RejectionIsStable(req: Request, env: Env, o1: SendOutcome, o2: SendOutcome)
    requires Post(req, env, o1).sent.None?
    ensures Post(req, env, o2) == Post(req, env, o1)
  {
  }

  /** The example lead from a US address, fully configured, delivered. */
  lemma UsLeadDelivered(env: Env, data: Payload)
    requires Configured(env)
    ensures var body := Record(Fields(Some("Jane Doe"), Some("jane@example.com"), Some("123 Main St")));
            Post(Request(Some("US"), body), env, Delivered(data)).response == Response(Ok, SuccessBody(data))
  {
  }

  /** The same lead from a Canadian address is refused and nothing is sent. */
  lemma CanadianLeadDenied(env: Env, outcome: SendOutcome)
    ensures var body := Record(Fields(Some("Jane Doe"), Some("jane@example.com"), Some("123 Main St")));
            Post(Request(Some("CA"), body), env, outcome) == Reject(Forbidden, AccessDenied)
  {
  }
}
