/** The page controller: the two lead forms, the shared submitting flag, the
    active page, the mobile menu with its scroll lock, and the navbar state,
    together with the handlers that update them and the selectors that read
    them. */
module Home {
  import opened Common

  datatype FormKind = Hero | Contact
  datatype Field = Name | Email | PropertyAddress

  /** How the request of a submit ends, as the handler sees it: a response
      whose `ok` flag and parsed `error` field it reads, or a thrown value,
      which is an `Error` with a message or something else. */
  datatype FetchResult =
    | Responded(ok: bool, error: Option<string>)
    | Thrown(isError: bool, message: string)

  /** The toast shown for a submit. */
  datatype Notice = Success(text: string) | Failure(text: string)

  const SentNotice := "Message sent successfully!"
  const HttpFallback := "Something went wrong"
  const ThrownFallback := "Failed to send message"

  const HomePage := "home"
  /** The navbar turns solid within this many pixels of the hero's end. */
  const NavbarHeight := 80

  /** Every piece of state the handlers update; `bodyOverflow` is the
      document body's overflow style and `notice` the last toast shown. */
  datatype PageState = PageState(
    heroForm: Lead,
    contactForm: Lead,
    isSubmitting: bool,
    activePage: string,
    mobileMenuOpen: bool,
    navbarScrolled: bool,
    bodyOverflow: string,
    notice: Option<Notice>)

  const Initial := PageState(EmptyLead, EmptyLead, false, HomePage, false, false, "", None)

  function Other(kind: FormKind): FormKind {
    if kind == Hero then Contact else Hero
  }

  function FieldOf(lead: Lead, field: Field): string {
    match field
    case Name => lead.name
    case Email => lead.email
    case PropertyAddress => lead.propertyAddress
  }

  /** A lead with one field replaced. */
  function WithField(lead: Lead, field: Field, value: string): (r: Lead)
    ensures FieldOf(r, field) == value
    ensures forall g: Field :: g != field ==> FieldOf(r, g) == FieldOf(lead, g)
  {
    match field
    case Name => lead.(name := value)
    case Email => lead.(email := value)
    case PropertyAddress => lead.(propertyAddress := value)
  }

  function FormOf(s: PageState, kind: FormKind): Lead {
    if kind == Hero then s.heroForm else s.contactForm
  }

  function WithForm(s: PageState, kind: FormKind, lead: Lead): (r: PageState)
    ensures FormOf(r, kind) == lead && FormOf(r, Other(kind)) == FormOf(s, Other(kind))
  {
    if kind == Hero then s.(heroForm := lead) else s.(contactForm := lead)
  }

  // ---------------------------------------------------------------------
  // Each handler as a function of the state it runs in.

  /** A field's onChange: the form becomes a copy of itself with one field
      replaced. */
  function Edited(s: PageState, kind: FormKind, field: Field, value: string): PageState {
    WithForm(s, kind, WithField(FormOf(s, kind), field, value))
  }

  /** The first half of a submit, up to the request: the shared flag goes up. */
  function Started(s: PageState): PageState {
    s.(isSubmitting := true)
  }

  /** The message of the error toast for a failed submit. */
  function FailureText(result: FetchResult): string
    requires !(result.Responded? && result.ok)
  {
    match result
    case Responded(_, error) => if Truthy(error) then error.value else HttpFallback
    case Thrown(isError, message) => if isError then message else ThrownFallback
  }

  /** The toast for a finished submit: success is decided by `ok` alone. */
  function NoticeFor(result: FetchResult): (n: Notice)
    ensures n.Success? <==> result.Responded? && result.ok
  {
    if result.Responded? && result.ok then Success(SentNotice) else Failure(FailureText(result))
  }

  /** The second half of a submit, after the request: on success the
      submitted form is reset; on every path the flag goes down. */
  function Settled(s: PageState, kind: FormKind, result: FetchResult): PageState {
    var t := if result.Responded? && result.ok then WithForm(s, kind, EmptyLead) else s;
    t.(isSubmitting := false, notice := Some(NoticeFor(result)))
  }

  function Navigated(s: PageState, page: string): PageState {
    s.(activePage := page)
  }

  function Toggled(s: PageState): PageState {
    s.(mobileMenuOpen := !s.mobileMenuOpen, bodyOverflow := if !s.mobileMenuOpen then "hidden" else "")
  }

  function Closed(s: PageState): PageState {
    s.(mobileMenuOpen := false, bodyOverflow := "")
  }

  /** The scroll handler's comparison: on the home page the navbar is solid
      once the window has scrolled past the hero; elsewhere always. */
  function PastHero(activePage: string, scrollY: int, innerHeight: int): (b: bool)
    ensures b <==> activePage != HomePage || scrollY > innerHeight - NavbarHeight
  {
    if activePage == HomePage then scrollY > innerHeight - NavbarHeight else true
  }

  function Scrolled(s: PageState, scrollY: int, innerHeight: int): PageState {
    s.(navbarScrolled := PastHero(s.activePage, scrollY, innerHeight))
  }

  /** One handler run to completion. */
  datatype Event =
    | Edit(kind: FormKind, field: Field, value: string)
    | Submit(kind: FormKind, result: FetchResult)
    | Navigate(page: string)
    | ToggleMenu
    | CloseMenu
    | Scroll(scrollY: int, innerHeight: int)

  function Step(s: PageState, e: Event): PageState {
    match e
    case Edit(kind, field, value) => Edited(s, kind, field, value)
    case Submit(kind, result) => Settled(Started(s), kind, result)
    case Navigate(page) => Navigated(s, page)
    case ToggleMenu => Toggled(s)
    case CloseMenu => Closed(s)
    case Scroll(scrollY, innerHeight) => Scrolled(s, scrollY, innerHeight)
  }

  /** The state after a sequence of handlers, one after another. */
  function Run(s: PageState, events: seq<Event>): PageState
    decreases |events|
  {
    if events == [] then s else Run(Step(s, events[0]), events[1..])
  }

  /** The body is scroll-locked exactly while the mobile menu is open. */
  predicate MenuLocksScroll(s: PageState) {
    s.bodyOverflow == if s.mobileMenuOpen then "hidden" else ""
  }

  /** Whether an event can change the given form. */
  predicate Touches(e: Event, kind: FormKind) {
    (e.Edit? && e.kind == kind) || (e.Submit? && e.kind == kind)
  }

  // ---------------------------------------------------------------------
  // The derived class strings. All four depend only on whether the page is
  // the home page and the navbar is still over the hero.

  predicate OverHero(activePage: string, navbarScrolled: bool) {
    activePage == HomePage && !navbarScrolled
  }

  const NavTransparent := "text-white border-transparent"
  const NavSolid := "bg-white/90 backdrop-blur-md border-brand-border text-brand-black"
  const MenuTextDark := "text-brand-black/90"
  const MenuTextLight := "text-white/90"
  const MenuCtaDark := "bg-brand-black text-white hover:bg-brand-gray border-brand-black"
  const MenuCtaLight := "bg-white/10 backdrop-blur-md border-white/20 text-white hover:bg-white hover:text-brand-black"
  const ToggleDark := "text-brand-black"
  const ToggleLight := "text-white"

  function NavClasses(activePage: string, navbarScrolled: bool): (r: string)
    ensures r == NavTransparent <==> OverHero(activePage, navbarScrolled)
    ensures r == NavTransparent || r == NavSolid
  {
    if activePage == HomePage && !navbarScrolled then NavTransparent else NavSolid
  }

  function InnerMenuTextColor(activePage: string, navbarScrolled: bool): (r: string)
    ensures r == MenuTextDark <==> !OverHero(activePage, navbarScrolled)
    ensures r == MenuTextDark || r == MenuTextLight
  {
    if navbarScrolled || activePage != HomePage then MenuTextDark else MenuTextLight
  }

  function InnerMenuCtaClass(activePage: string, navbarScrolled: bool): (r: string)
    ensures r == MenuCtaDark <==> !OverHero(activePage, navbarScrolled)
    ensures r == MenuCtaDark || r == MenuCtaLight
  {
    if navbarScrolled || activePage != HomePage then MenuCtaDark else MenuCtaLight
  }

  function MobileToggleColor(activePage: string, navbarScrolled: bool): (r: string)
    ensures r == ToggleDark <==> !OverHero(activePage, navbarScrolled)
    ensures r == ToggleDark || r == ToggleLight
  {
    if navbarScrolled || activePage != HomePage then ToggleDark else ToggleLight
  }

  /** The four selectors switch together: the navbar is transparent exactly
      when the other three take their light variant. */
  lemma SelectorsAgree(activePage: string, navbarScrolled: bool)
    ensures NavClasses(activePage, navbarScrolled) == NavTransparent
            <==> InnerMenuTextColor(activePage, navbarScrolled) == MenuTextLight
    ensures NavClasses(activePage, navbarScrolled) == NavTransparent
            <==> InnerMenuCtaClass(activePage, navbarScrolled) == MenuCtaLight
    ensures NavClasses(activePage, navbarScrolled) == NavTransparent
            <==> MobileToggleColor(activePage, navbarScrolled) == ToggleLight
  {
  }

  // ---------------------------------------------------------------------
  // Properties of single handlers.

  /** An onChange replaces exactly one field of exactly one form. */
  lemma EditChangesOneField(s: PageState, kind: FormKind, field: Field, value: string)
    ensures var t := Step(s, Edit(kind, field, value));
            && FieldOf(FormOf(t, kind), field) == value
            && (forall g: Field :: g != field ==> FieldOf(FormOf(t, kind), g) == FieldOf(FormOf(s, kind), g))
            && FormOf(t, Other(kind)) == FormOf(s, Other(kind))
            && t.(heroForm := s.heroForm, contactForm := s.contactForm) == s
  {
  }

  /** While the request is outstanding the flag is up; after the handler it
      is down, whatever the request did. */
  lemma SubmitFlag(s: PageState, kind: FormKind, result: FetchResult)
    ensures Started(s).isSubmitting
    ensures !Step(s, Submit(kind, result)).isSubmitting
  {
  }

  /** A successful submit resets only the submitted form and shows the
      success toast. */
  lemma SuccessResetsSubmittedForm(s: PageState, kind: FormKind, error: Option<string>)
    ensures var t := Step(s, Submit(kind, Responded(true, error)));
            && FormOf(t, kind) == EmptyLead
            && FormOf(t, Other(kind)) == FormOf(s, Other(kind))
            && t.notice == Some(Success(SentNotice))
  {
  }

  /** A failed submit keeps both forms and shows the error chosen by the
      failure path. */
  lemma FailureKeepsForms(s: PageState, kind: FormKind, result: FetchResult)
    requires !(result.Responded? && result.ok)
    ensures var t := Step(s, Submit(kind, result));
            && t.heroForm == s.heroForm && t.contactForm == s.contactForm
            && t.notice == Some(Failure(FailureText(result)))
  {
  }

  /** The three failure messages: the server's error when it is non-empty,
      otherwise the HTTP fallback; a thrown Error's message, otherwise the
      thrown-value fallback. */
  lemma FailureMessages(result: FetchResult)
    requires !(result.Responded? && result.ok)
    ensures (result.Responded? && result.error.Some? && result.error.value != "")
              ==> FailureText(result) == result.error.value
    ensures (result.Responded? && (result.error.None? || result.error.value == ""))
              ==> FailureText(result) == HttpFallback
    ensures result.Thrown? && result.isError ==> FailureText(result) == result.message
    ensures result.Thrown? && !result.isError ==> FailureText(result) == ThrownFallback
  {
  }

  /** Toggling opens or closes the menu and locks the body scroll exactly
      when it opens; toggling twice restores a consistent state. */
  lemma ToggleLocksScroll(s: PageState)
    ensures Toggled(s).mobileMenuOpen == !s.mobileMenuOpen
    ensures Toggled(s).bodyOverflow == (if Toggled(s).mobileMenuOpen then "hidden" else "")
    ensures MenuLocksScroll(s) ==> Toggled(Toggled(s)) == s
  {
  }

  /** Closing always leaves the menu closed and the body unlocked, and
      closing again changes nothing. */
  lemma CloseIsIdempotent(s: PageState)
    ensures !Closed(s).mobileMenuOpen && Closed(s).bodyOverflow == ""
    ensures Closed(Closed(s)) == Closed(s)
  {
  }

  /** After the scroll handler, the navbar is solid exactly off the home
      page or past the hero. */
  lemma ScrollSetsNavbar(s: PageState, scrollY: int, innerHeight: int)
    ensures Step(s, Scroll(scrollY, innerHeight)).navbarScrolled
            == (s.activePage != HomePage || scrollY > innerHeight - NavbarHeight)
    ensures Step(s, Navigate(s.activePage)) == s
  {
  }

  // ---------------------------------------------------------------------
  // Properties of any sequence of handlers.

  /** Every handler keeps the scroll lock in step with the menu. */
  lemma StepKeepsMenuLock(s: PageState, e: Event)
    requires MenuLocksScroll(s)
    ensures MenuLocksScroll(Step(s, e))
  {
  }

  lemma {:induction false} RunKeepsMenuLock(s: PageState, events: seq<Event>)
    requires MenuLocksScroll(s)
    ensures MenuLocksScroll(Run(s, events))
    decreases |events|
  {
    if events != [] {
      StepKeepsMenuLock(s, events[0]);
      RunKeepsMenuLock(Step(s, events[0]), events[1..]);
    }
  }

  /** Between handlers no submit is in flight: starting idle, the page is
      idle after any sequence of handlers. */
  lemma {:induction false} RunEndsIdle(s: PageState, events: seq<Event>)
    requires !s.isSubmitting
    ensures !Run(s, events).isSubmitting
    decreases |events|
  {
    if events != [] {
      RunEndsIdle(Step(s, events[0]), events[1..]);
    }
  }

  /** The two forms are independent: handlers that do not target a form
      leave it as it was. */
  lemma {:induction false} RunLeavesOtherForm(s: PageState, events: seq<Event>, kind: FormKind)
    requires forall i :: 0 <= i < |events| ==> !Touches(events[i], kind)
    ensures FormOf(Run(s, events), kind) == FormOf(s, kind)
    decreases |events|
  {
    if events != [] {
      assert !Touches(events[0], kind);
      RunLeavesOtherForm(Step(s, events[0]), events[1..], kind);
    }
  }

  // ---------------------------------------------------------------------
  // The component itself: its state as fields, its handlers as methods.

  class Page {
    var heroForm: Lead
    var contactForm: Lead
    var isSubmitting: bool
    var activePage: string
    var mobileMenuOpen: bool
    var navbarScrolled: bool
    var bodyOverflow: string
    var notice: Option<Notice>

    ghost function State(): PageState
      reads this
    {
      PageState(heroForm, contactForm, isSubmitting, activePage, mobileMenuOpen, navbarScrolled, bodyOverflow, notice)
    }

    ghost predicate Valid()
      reads this
    {
      MenuLocksScroll(State())
    }

    constructor ()
      ensures Valid() && State() == Initial
    {
      heroForm, contactForm := EmptyLead, EmptyLead;
      isSubmitting := false;
      activePage := HomePage;
      mobileMenuOpen, navbarScrolled := false, false;
      bodyOverflow := "";
      notice := None;
    }

    method OnChange(kind: FormKind, field: Field, value: string)
      requires Valid()
      modifies this
      ensures Valid() && State() == Step(old(State()), Edit(kind, field, value))
    {
      var lead := if kind == Hero then heroForm else contactForm;
      match field {
        case Name => lead := lead.(name := value);
        case Email => lead := lead.(email := value);
        case PropertyAddress => lead := lead.(propertyAddress := value);
      }
      if kind == Hero {
        heroForm := lead;
      } else {
        contactForm := lead;
      }
    }

    /** Raises the shared flag and captures the form to send. */
    method StartSubmit(kind: FormKind) returns (payload: Lead)
      requires Valid()
      modifies this
      ensures Valid() && State() == Started(old(State()))
      ensures payload == FormOf(old(State()), kind)
    {
      isSubmitting := true;
      payload := if kind == Hero then heroForm else contactForm;
    }

    /** Handles the request's result and lowers the flag. */
    method Settle(kind: FormKind, result: FetchResult)
      requires Valid()
      modifies this
      ensures Valid() && State() == Settled(old(State()), kind, result)
    {
      if result.Responded? && result.ok {
        notice := Some(Success(SentNotice));
        if kind == Hero {
          heroForm := EmptyLead;
        } else {
          contactForm := EmptyLead;
        }
      } else {
        var text := FailureText(result);
        notice := Some(Failure(text));
      }
      isSubmitting := false;
    }

    /** A whole submit, with the request's result given. */
    method HandleFormSubmit(kind: FormKind, result: FetchResult) returns (payload: Lead)
      requires Valid()
      modifies this
      ensures Valid() && State() == Step(old(State()), Submit(kind, result))
      ensures payload == FormOf(old(State()), kind)
    {
      payload := StartSubmit(kind);
      Settle(kind, result);
    }

    method HandleNavigation(page: string)
      requires Valid()
      modifies this
      ensures Valid() && State() == Step(old(State()), Navigate(page))
    {
      activePage := page;
    }

    method ToggleMobileMenu()
      requires Valid()
      modifies this
      ensures Valid() && State() == Step(old(State()), ToggleMenu)
    {
      var wasOpen := mobileMenuOpen;
      mobileMenuOpen := !wasOpen;
      if !wasOpen {
        bodyOverflow := "hidden";
      } else {
        bodyOverflow := "";
      }
    }

    method CloseMobileMenu()
      requires Valid()
      modifies this
      ensures Valid() && State() == Step(old(State()), CloseMenu)
    {
      mobileMenuOpen := false;
      bodyOverflow := "";
    }

    method HandleScroll(scrollY: int, innerHeight: int)
      requires Valid()
      modifies this
      ensures Valid() && State() == Step(old(State()), Scroll(scrollY, innerHeight))
    {
      if activePage == HomePage {
        if scrollY > innerHeight - NavbarHeight {
          navbarScrolled := true;
        } else {
          navbarScrolled := false;
        }
      } else {
        navbarScrolled := true;
      }
    }
  }
}
