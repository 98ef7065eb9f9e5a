# Lead intake for a real-estate agent's site, in Dafny

This project models the only logic a real-estate agent's marketing site has:
its lead-intake pipeline. A visitor fills in one of two lead forms (the hero
form and the contact form). The page posts the draft to an email endpoint.
The endpoint applies a geographic gate on the proxy's country header. It
checks the three required fields and the two environment values the email
provider needs. It then composes a notification message, hands it to the
provider, and maps the provider's answer to an HTTP response. The page turns
that response into a toast, and clears the form on success.

Modules:

- `Common` (`common.dfy`): `Option`, JavaScript truthiness of an optional
  string (`Truthy`), and the `Lead` record.
- `Intake` (`intake.dfy`): the POST handler of `app/api/email/route.ts` as a
  pure function `Post(request, env, outcome)`. It returns the response and the
  message handed to the provider, or `None` when the provider was never
  reached. The provider is an input `outcome` (`Delivered(data)`,
  `Rejected(message)` or `SendThrew`), consulted only when a message is sent.
  `Failures` lists, in the handler's order, every check a request fails; it is
  an independent statement of the order of checks.
- `Home` (`home.dfy`): the state and handlers of the `Home` component of
  `app/page.tsx`. `PageState` holds every field the handlers update. Each
  handler is a function on it, collected in `Step`, and `Run` applies a
  sequence of handlers. The class `Page` holds the same state as fields. Its
  methods are the handlers, each proved to move `State()` exactly as `Step`
  says and to keep `Valid()`, which says the body is scroll-locked exactly
  while the mobile menu is open. The four class-string selectors are
  functions of `activePage` and `navbarScrolled`.
- `Pipeline` (`pipeline.dfy`): the two sides together. The page's draft
  becomes the endpoint's request, and the endpoint's response becomes the
  page's fetch result.

Status codes are those of RFC 9110: 200 (section 15.3.1), 400 (section
15.5.1), 403 (section 15.5.4) and 500 (section 15.6.1).

Details of the code the model keeps:

- The 400 message is `Missing required fields`, with no trailing period.
- An empty country header is falsy, so it passes the gate like an absent one.
- The page decides success by the response's `ok` flag alone. It does not
  look for a `success` field in the payload.
- One `isSubmitting` flag is shared by both forms and disables both submit
  buttons. The forms are otherwise independent.

## Model

| member | source | states |
|---|---|---|
| `Intake.Post` | app/api/email/route.ts:8-73 | A message is sent iff the gate passes, the body is a record, all three fields are truthy and both environment values are set; the status is 200 iff a message was sent and the provider delivered it; the status is always one of 200, 400, 403, 500 |
| `Intake.FirstFailureDecides` | app/api/email/route.ts:18-58 | Checks run geo, body read, fields, API key, recipient: a request failing any of them gets the rejection of the earliest and no send; one failing none sends the composed message and answers with the provider's result |
| `Intake.NonUsDenied` | app/api/email/route.ts:18-23 | A present, non-empty country other than exactly "US" gets 403 "Access denied. US IP addresses only." for every body, configuration and provider, with no send |
| `Intake.AbsentCountryActsAsUs` | app/api/email/route.ts:11-18 | An absent header and an empty header give exactly the result "US" gives |
| `Intake.IncompleteRejected` | app/api/email/route.ts:29-34 | Past the gate, a missing or empty field gets 400 "Missing required fields" and no send |
| `Intake.NonEmptyAccepted` | app/api/email/route.ts:29 | Three present strings pass the field check iff none is empty; whitespace-only values pass |
| `Intake.UnconfiguredRejected` | app/api/email/route.ts:36-50 | Valid fields with the API key or the recipient unset or empty get 500 "Server configuration error" and no send |
| `Intake.UnreadableBodyIsInternalError` | app/api/email/route.ts:25-26 | Past the gate, a body that is not JSON or is JSON null gets 500 "Internal server error" and no send |
| `Intake.SentMessageShape` | app/api/email/route.ts:52-58 | A sent message has the fixed sender, `to` = [recipient], a subject from which the property address reads back, `replyTo` = the submitted email, and the template content built from exactly the three fields |
| `Intake.SubjectRoundTrip` | app/api/email/route.ts:55 | The subject "New Interest in " + address gives the address back |
| `Intake.Answer` | app/api/email/route.ts:60-72 | Status 200 iff the provider delivered; a delivery echoes its data; a provider error gives its message; a throwing send gives "Internal server error" |
| `Intake.ProviderAnswerPropagates` | app/api/email/route.ts:60-65 | When a message is sent, the response is 200 with the provider's data or 500 with the provider's error message |
| `Intake.RejectionIsStable` | app/api/email/route.ts:66-72 | A request that sends nothing gets the same response whatever the provider would do, so repeating it yields the same classification |
| `Intake.UsLeadDelivered` | app/api/email/route.ts:18-65 | The example lead from "US", fully configured and delivered, gets 200 with the provider's data |
| `Intake.CanadianLeadDenied` | app/api/email/route.ts:18-23 | The same lead from "CA" gets 403 and nothing is sent |
| `Home.WithField` | app/page.tsx:288-316 | The updated lead has the new value in the edited field and the old value in the other two |
| `Home.EditChangesOneField` | app/page.tsx:515-538 | An onChange (hero form at lines 288-316, contact form here) replaces one field of one form; the other two fields, the other form and every other part of the state are unchanged |
| `Home.NoticeFor` | app/page.tsx:37-43 | The toast is a success exactly when the response came back with `ok` set |
| `Home.SubmitFlag` | app/page.tsx:24-46 | The shared flag is up while the request is outstanding and down after the handler, on every path |
| `Home.SuccessResetsSubmittedForm` | app/page.tsx:37-41 | An ok response resets only the submitted form to three empty strings and shows "Message sent successfully!" |
| `Home.FailureKeepsForms` | app/page.tsx:37-43 | A failed submit leaves both forms unchanged and shows the failure path's message |
| `Home.FailureMessages` | app/page.tsx:37-43 | A non-ok response shows its non-empty error, else "Something went wrong"; a thrown Error shows its message; any other thrown value shows "Failed to send message" |
| `Home.ToggleLocksScroll` | app/page.tsx:99-106 | Toggling negates the menu state and sets the body overflow to "hidden" exactly when the menu is now open, else ""; toggling twice from a consistent state restores it |
| `Home.CloseIsIdempotent` | app/page.tsx:108-111 | Closing leaves the menu closed and the overflow "", and closing twice is closing once |
| `Home.PastHero` | app/page.tsx:76-86 | The scroll predicate holds iff the page is not "home" or scrollY > innerHeight - 80 |
| `Home.ScrollSetsNavbar` | app/page.tsx:76-97 | After the scroll handler, `navbarScrolled` is that predicate; navigating to the current page changes nothing |
| `Home.NavClasses` | app/page.tsx:113-116 | The navbar takes its transparent variant iff the page is "home" and not scrolled, else the solid one |
| `Home.InnerMenuTextColor` | app/page.tsx:119 | The dark variant iff scrolled or not on "home", else the light one |
| `Home.InnerMenuCtaClass` | app/page.tsx:121-123 | The dark variant iff scrolled or not on "home", else the light one |
| `Home.MobileToggleColor` | app/page.tsx:126 | The dark variant iff scrolled or not on "home", else the light one |
| `Home.SelectorsAgree` | app/page.tsx:113-126 | The navbar is transparent exactly when each of the other three selectors takes its light variant |
| `Home.StepKeepsMenuLock` | app/page.tsx:99-111 | Every handler keeps the body scroll-locked exactly while the mobile menu is open |
| `Home.RunKeepsMenuLock` | app/page.tsx:99-111 | The same holds after any sequence of handlers |
| `Home.RunEndsIdle` | app/page.tsx:20-46 | Starting idle, no submit is in flight after any sequence of complete handlers |
| `Home.RunLeavesOtherForm` | app/page.tsx:18-19 | Handlers that neither edit nor submit a form leave that form unchanged, over any sequence |
| `Home.Page.constructor` | app/page.tsx:13-20 | The component starts on "home" with both forms empty, idle, the menu closed, the navbar transparent and the body unlocked |
| `Home.Page.OnChange` | app/page.tsx:288-316 | The new state is the old one with one form field replaced (contact form at lines 515-538) |
| `Home.Page.StartSubmit` | app/page.tsx:22-26 | Raises the shared flag and returns the hero draft for "hero" and the contact draft otherwise; nothing else changes |
| `Home.Page.Settle` | app/page.tsx:35-46 | The new state is the result of `Settled`: the toast chosen by the response, the submitted form reset on success only, the flag lowered |
| `Home.Page.HandleFormSubmit` | app/page.tsx:22-47 | The whole submit moves the state as one `Submit` step and returns the chosen draft |
| `Home.Page.HandleNavigation` | app/page.tsx:94-97 | Sets the active page and changes nothing else |
| `Home.Page.ToggleMobileMenu` | app/page.tsx:99-106 | Moves the state as `Toggled` and keeps the scroll-lock invariant |
| `Home.Page.CloseMobileMenu` | app/page.tsx:108-111 | Moves the state as `Closed` and keeps the scroll-lock invariant |
| `Home.Page.HandleScroll` | app/page.tsx:76-86 | Sets `navbarScrolled` to the scroll predicate and changes nothing else |
| `Pipeline.FetchOf` | app/page.tsx:29-37 | The page sees `ok` iff the status is 2xx, and an `error` field exactly when the endpoint sent an error body |
| `Pipeline.SubmitThroughEndpoint` | app/page.tsx:22-47 | A submit through the endpoint clears the form iff the endpoint answered 200, which happens iff the gate passes, the draft is complete, the configuration is set and the provider delivers; the other form never changes; the sent message carries the draft; the toast shows the endpoint's error, or "Something went wrong" when it is empty |
| `Pipeline.RejectionsReachTheToast` | app/api/email/route.ts:18-50 | The page's error toast shows the endpoint's access-denied, missing-fields and configuration messages for those rejections |
| `Pipeline.EmptyProviderErrorFallsBack` | app/api/email/route.ts:60-63 | A provider error with an empty message reaches the page as "Something went wrong", and the form is kept |

## Left out

- Sending the email, reading the body and building the response are framework and network I/O. The provider's send is the input `SendOutcome`. The parsed body is the input `Body`. The response is the `Response` record.
- The email template (`app/templates/InterestedCustomerEmail.tsx`) is a document built from the three fields. The message carries the `Lead` it is built from, not the markup.
- The page layout (`app/layout.tsx`) is static metadata and script mounting, and is not part of this model.
- The provider's `data` is an opaque string in the model, because the endpoint only echoes it.
- Body field values that are JSON but not strings are not modelled. The model takes each field as a string or absent.
- A provider error whose `message` is undefined is not modelled. The model gives every provider error a string message.
- The error logs and the toasts themselves are side-channel output. The model records only the chosen toast text, in `notice`.
- The effect wiring is browser plumbing and is left out: the scroll listener, the call to the scroll handler when the page changes, the `IntersectionObserver` animations and the "js-active" class. So `Home.Page.HandleNavigation` sets only the active page. The scroll handler that the page change then triggers is a separate `HandleScroll` call.
- `window.scrollTo` in the navigation handler is a browser call, and the model leaves it out.
- Overlapping submissions across the request's suspension point are left out. Each `Submit` step is atomic. `StartSubmit` and `Settle` can be called apart, but no lemma reasons about edits made in between.
- Scroll position and window height are integers in the model, not floating-point numbers.
- `Home.Page.HandleFormSubmit`, `Pipeline.RejectionsReachTheToast`: the browser's own form-input validation is markup and is not modelled. Every input is `required` and the email inputs are `type="email"`, so a browser does not submit a draft with an empty field or a malformed email. The model submits any draft. Its missing-fields toast is reached only when that validation is bypassed.
- The country header lookup is taken as already done. The request carries the header or lacks it.
