/** The page's submit and the endpoint together: the form the page sends is
    the body the endpoint reads, and the endpoint's response is what the
    page's handler sees. */
module Pipeline {
  import opened Common
  import opened Intake
  import opened Home

  /** The draft as the endpoint destructures it: three present strings. */
  function FieldsOf(lead: Lead): Fields {
    Fields(Some(lead.name), Some(lead.email), Some(lead.propertyAddress))
  }

  /** The request the page sends: the draft serialised as its body. */
  function RequestOf(country: Option<string>, lead: Lead): Request {
    Request(country, Record(FieldsOf(lead)))
  }

  /** What the handler reads off a response: `ok` for a 2xx status, and the
      `error` field of the parsed body (absent in a success body). */
  function FetchOf(r: Response): (f: FetchResult)
    ensures f.Responded? && (f.ok <==> 200 <= r.status <= 299)
    ensures f.error.Some? <==> r.body.ErrorBody?
  {
    Responded(200 <= r.status <= 299, if r.body.ErrorBody? then Some(r.body.error) else None)
  }

  /** A submit through the endpoint: the form is cleared exactly when the
      endpoint answered 200, which happens exactly when the gate, the fields,
      the configuration and the provider all agree; the other form never
      changes; the message sent carries the draft; and the toast shows the
      endpoint's error, or the fallback when that error is empty. */
  lemma SubmitThroughEndpoint(s: PageState, kind: FormKind, country: Option<string>, env: Env, outcome: SendOutcome)
    ensures var lead := FormOf(s, kind);
            var h := Post(RequestOf(country, lead), env, outcome);
            var t := Step(s, Submit(kind, FetchOf(h.response)));
            && (h.response.status == Ok <==> !Blocked(country) && Complete(FieldsOf(lead)) && Configured(env) && outcome.Delivered?)
            && FormOf(t, kind) == (if h.response.status == Ok then EmptyLead else lead)
            && FormOf(t, Other(kind)) == FormOf(s, Other(kind))
            && !t.isSubmitting
            && (h.sent.Some? ==> h.sent.value.content == lead && h.sent.value.replyTo == lead.email)
            && t.notice == Some(
                 if h.response.status == Ok then Success(SentNotice)
                 else if h.response.body.error != "" then Failure(h.response.body.error)
                 else Failure(HttpFallback))
  {
  }

  /** The page shows the endpoint's fixed messages for each rejection. */
  lemma RejectionsReachTheToast(s: PageState, kind: FormKind, country: Option<string>, env: Env, outcome: SendOutcome)
    ensures var lead := FormOf(s, kind);
            var t := Step(s, Submit(kind, FetchOf(Post(RequestOf(country, lead), env, outcome).response)));
            && (Blocked(country) ==> t.notice == Some(Failure(AccessDenied)))
            && (!Blocked(country) && !Complete(FieldsOf(lead)) ==> t.notice == Some(Failure(MissingFields)))
            && (!Blocked(country) && Complete(FieldsOf(lead)) && !Configured(env) ==> t.notice == Some(Failure(ConfigurationError)))
  {
  }

  /** A provider error with an empty message reaches the page as the HTTP
      fallback, since an empty error is falsy. */
  lemma EmptyProviderErrorFallsBack(s: PageState, kind: FormKind, country: Option<string>, env: Env)
    requires !Blocked(country) && Complete(FieldsOf(FormOf(s, kind))) && Configured(env)
    ensures var lead := FormOf(s, kind);
            var t := Step(s, Submit(kind, FetchOf(Post(RequestOf(country, lead), env, Rejected("")).response)));
            t.notice == Some(Failure(HttpFallback)) && FormOf(t, kind) == lead
  {
  }
}
