/** The top-level view and role state of the site (App.tsx; src/App.tsx has the
    same state and handlers).

    `ShellState` is the state the handlers write; each handler is a transition
    function on it, and `Step` dispatches the user-interface events to them.
    `Enabled` over-approximates the events the settled page offers: the
    home-page buttons exist only on the home view, the login and sign-up form
    callbacks only while that form is shown, the Navbar's link to the admin view
    only for an admin; every other Navbar event is offered in every state.
    `Page` widens this to the exit animation, during which a view that was left
    still takes clicks. The class `App` holds the state as fields (and the views
    shown so far, as a ghost field) and has one method per handler, each proved
    to perform its transition. */
module Shell {

  datatype View = HomeView | PortalView | AdminView | FunnelView | LoginView | SignUpView

  /** UserRole from types.ts. */
  datatype Role = Admin | Client | Guest

  /** The views the Navbar can ask for. */
  datatype NavTarget = NavHome | NavPortal | NavAdmin | NavFunnel

  datatype ShellState = ShellState(view: View, role: Role, loginTarget: Role, darkMode: bool, contactSubmitted: bool)

  /** The initial values of the five state variables. */
  const Initial: ShellState := ShellState(HomeView, Guest, Guest, true, false)

  /** The login and sign-up forms are only shown for a client or an admin login. */
  predicate Inv(s: ShellState)
  {
    (s.view == LoginView || s.view == SignUpView) ==> (s.loginTarget == Client || s.loginTarget == Admin)
  }

  // ---- The handlers, as transitions ----

  /** toggleTheme */
  function ThemeToggled(s: ShellState): ShellState
  {
    s.(darkMode := !s.darkMode)
  }

  /** handleLogout, given the answer to the confirmation dialog. */
  function LoggedOut(s: ShellState, confirmed: bool): ShellState
  {
    if confirmed then s.(role := Guest, view := HomeView) else s
  }

  /** initiateLogin(target) */
  function LoginInitiated(s: ShellState, target: Role): ShellState
  {
    s.(loginTarget := target, view := LoginView)
  }

  /** handleLoginSuccess */
  function LoginSucceeded(s: ShellState): ShellState
  {
    s.(role := s.loginTarget, view := if s.loginTarget == Admin then AdminView else PortalView)
  }

  /** handleSignUpSuccess */
  function SignUpSucceeded(s: ShellState): ShellState
  {
    s.(role := Client, view := PortalView)
  }

  /** scrollToSection: leaves for the home view first when elsewhere (the scroll itself is left out). */
  function ScrolledToSection(s: ShellState): ShellState
  {
    if s.view != HomeView then s.(view := HomeView) else s
  }

  /** handleHomeClick (the window scroll is left out). */
  function HomeClicked(s: ShellState): ShellState
  {
    if s.view == HomeView then s else s.(view := HomeView)
  }

  /** setCurrentView(v), as the inline callbacks call it. */
  function ViewSet(s: ShellState, v: View): ShellState
  {
    s.(view := v)
  }

  /** The Navbar's onNavigate callback. */
  function Navigated(s: ShellState, to: NavTarget): ShellState
  {
    match to
    case NavHome => HomeClicked(s)
    case NavPortal => LoginInitiated(s, Client)
    case NavAdmin => ViewSet(s, AdminView)
    case NavFunnel => ViewSet(s, FunnelView)
  }

  /** handleContactSubmit (the form's own inputs are not state here). */
  function ContactSubmitted(s: ShellState): ShellState
  {
    s.(contactSubmitted := true)
  }

  /** The timer that handleContactSubmit starts, when it fires. */
  function ContactReset(s: ShellState): ShellState
  {
    s.(contactSubmitted := false)
  }

  // ---- Events ----

  datatype Event =
    | ThemeClick                 // Navbar theme toggle
    | LogoutClick(confirmed: bool)
    | ProfileClick(target: Role) // "Client Profile" / "Admin Profile" on the home view
    | LoginSuccess               // LoginForm onSuccess (fired by its timer)
    | SignUpSuccess              // SignUpForm onSuccess (fired by its timer)
    | SectionClick               // Navbar services/contact links
    | ExploreClick               // home view "Explore Dossier" button
    | HomeClick                  // Navbar logo
    | NavClick(to: NavTarget)    // Navbar onNavigate
    | FunnelButton               // home view "Start Your Project" / "Get Started"
    | ContactSubmit              // home view contact form
    | ContactTimeout             // the contact-form reset timer
    | FunnelDone                 // SalesFunnel onComplete
    | LoginBack | SignUpLink     // LoginForm onBack / onSignUpClick
    | SignUpBack | LoginLink     // SignUpForm onBack / onLoginClick

  /** The events the settled page can raise in state `s`, over-approximated for the
      Navbar: it offers logout, the portal link and the HOME target in every state. */
  predicate Enabled(s: ShellState, e: Event)
  {
    match e
    case ProfileClick(t) => s.view == HomeView && (t == Client || t == Admin)
    case FunnelButton => s.view == HomeView
    case ContactSubmit => s.view == HomeView
    case ExploreClick => s.view == HomeView
    case NavClick(to) => to == NavAdmin ==> s.role == Admin
    case FunnelDone => s.view == FunnelView
    case LoginBack => s.view == LoginView
    case SignUpLink => s.view == LoginView
    case SignUpBack => s.view == SignUpView
    case LoginLink => s.view == SignUpView
    case _ => true
  }

  function Step(s: ShellState, e: Event): ShellState
  {
    match e
    case ThemeClick => ThemeToggled(s)
    case LogoutClick(confirmed) => LoggedOut(s, confirmed)
    case ProfileClick(t) => LoginInitiated(s, t)
    case LoginSuccess => LoginSucceeded(s)
    case SignUpSuccess => SignUpSucceeded(s)
    case SectionClick => ScrolledToSection(s)
    case ExploreClick => s
    case HomeClick => HomeClicked(s)
    case NavClick(to) => Navigated(s, to)
    case FunnelButton => ViewSet(s, FunnelView)
    case ContactSubmit => ContactSubmitted(s)
    case ContactTimeout => ContactReset(s)
    case FunnelDone => ViewSet(s, HomeView)
    case LoginBack => ViewSet(s, HomeView)
    case SignUpLink => ViewSet(s, SignUpView)
    case SignUpBack => ViewSet(s, HomeView)
    case LoginLink => ViewSet(s, LoginView)
  }

  /** The state after a sequence of events. */
  function Run(s: ShellState, trace: seq<Event>): ShellState
    decreases |trace|
  {
    if trace == [] then s else Run(Step(s, trace[0]), trace[1..])
  }

  /** Every event of the sequence is offered by the state it occurs in. */
  predicate Allowed(s: ShellState, trace: seq<Event>)
    decreases |trace|
  {
    trace == [] || (Enabled(s, trace[0]) && Allowed(Step(s, trace[0]), trace[1..]))
  }

  // ---- Properties of the handlers ----

  lemma InitialState()
    ensures Initial.view == HomeView && Initial.role == Guest && Initial.loginTarget == Guest
    ensures Initial.darkMode && !Initial.contactSubmitted && Inv(Initial)
  {
  }

  /** Toggling the theme twice restores it, and toggling changes nothing else. */
  lemma ThemeToggleInvolution(s: ShellState)
    ensures ThemeToggled(ThemeToggled(s)) == s
    ensures ThemeToggled(s).darkMode != s.darkMode && ThemeToggled(s).(darkMode := s.darkMode) == s
  {
  }

  /** A confirmed logout returns a guest to the home view; a declined one changes nothing. */
  lemma LogoutEffect(s: ShellState, confirmed: bool)
    ensures confirmed ==> LoggedOut(s, true).role == Guest && LoggedOut(s, true).view == HomeView
    ensures confirmed ==> LoggedOut(s, true).(role := s.role, view := s.view) == s
    ensures !confirmed ==> LoggedOut(s, confirmed) == s
  {
  }

  /** Initiating a login records the target and shows the login form, keeping the role. */
  lemma LoginInitiatedEffect(s: ShellState, t: Role)
    ensures var r := LoginInitiated(s, t);
      r.loginTarget == t && r.view == LoginView && r.role == s.role
      && r.darkMode == s.darkMode && r.contactSubmitted == s.contactSubmitted
  {
  }

  /** A successful login takes the role that was targeted; only an admin login opens the admin view. */
  lemma LoginSuccessRouting(s: ShellState)
    ensures var r := LoginSucceeded(s);
      r.role == s.loginTarget && (r.view == AdminView <==> s.loginTarget == Admin)
      && (s.loginTarget != Admin ==> r.view == PortalView)
      && r.loginTarget == s.loginTarget && r.darkMode == s.darkMode
  {
  }

  /** A successful sign-up always makes a client on the portal view, whatever the login target. */
  lemma SignUpSuccessEffect(s: ShellState)
    ensures SignUpSucceeded(s).role == Client && SignUpSucceeded(s).view == PortalView
    ensures SignUpSucceeded(s).loginTarget == s.loginTarget
  {
  }

  /** The home link and the section links always leave the home view showing and touch nothing else. */
  lemma HomeLinksShowHome(s: ShellState)
    ensures HomeClicked(s) == s.(view := HomeView)
    ensures ScrolledToSection(s) == s.(view := HomeView)
  {
  }

  /** The home page's Explore button calls `scrollToSection` as captured by the
      home render, which saw the view HOME: it only scrolls, so it changes no
      state, even when pressed on a home page that is animating out. */
  lemma ExploreChangesNothing(p: Page)
    requires PageInv(p) && Offered(p, ExploreClick)
    ensures PageStep(p, ExploreClick) == p
    ensures p.state.view == HomeView ==> Step(p.state, ExploreClick) == ScrolledToSection(p.state)
  {
  }

  /** Navbar routing: HOME is the home click; PORTAL goes to the client login even
      for someone already logged in; the other views are set directly. */
  lemma NavbarRouting(s: ShellState)
    ensures Navigated(s, NavHome) == HomeClicked(s)
    ensures Navigated(s, NavPortal) == s.(view := LoginView, loginTarget := Client)
    ensures Navigated(s, NavAdmin) == s.(view := AdminView)
    ensures Navigated(s, NavFunnel) == s.(view := FunnelView)
  {
  }

  /** Finishing the lead funnel returns to the home view. */
  lemma FunnelCompletionGoesHome(s: ShellState)
    ensures Step(s, FunnelDone) == s.(view := HomeView)
  {
  }

  // ---- Reachability ----

  /** Any offered event keeps the invariant. */
  lemma StepPreservesInv(s: ShellState, e: Event)
    requires Inv(s) && Enabled(s, e)
    ensures Inv(Step(s, e))
  {
  }

  /** Without the callers' restriction the invariant would fail: a guest login target opens the login form. */
  lemma GuestLoginBreaksInv()
    ensures !Inv(LoginInitiated(Initial, Guest))
  {
  }

  /** The sign-up form is entered only from the login form, by its sign-up link. */
  lemma SignUpEnteredOnlyFromLogin(s: ShellState, e: Event)
    requires Enabled(s, e) && s.view != SignUpView && Step(s, e).view == SignUpView
    ensures s.view == LoginView && e == SignUpLink
  {
  }

  /** The login form is entered by a login initiated for a client or an admin, or from the sign-up form with the target unchanged. */
  lemma LoginEnteredWithTarget(s: ShellState, e: Event)
    requires Enabled(s, e) && s.view != LoginView && Step(s, e).view == LoginView
    ensures || (e.ProfileClick? && Step(s, e).loginTarget == e.target && e.target != Guest)
            || (e == NavClick(NavPortal) && Step(s, e).loginTarget == Client)
            || (e == LoginLink && s.view == SignUpView && Step(s, e).loginTarget == s.loginTarget)
  {
  }

  lemma {:induction false} RunPreservesInv(s: ShellState, trace: seq<Event>)
    requires Inv(s) && Allowed(s, trace)
    ensures Inv(Run(s, trace))
    decreases |trace|
  {
    if trace != [] {
      StepPreservesInv(s, trace[0]);
      RunPreservesInv(Step(s, trace[0]), trace[1..]);
    }
  }

  /** In every reachable state, the login and sign-up views have a client or admin login target. */
  lemma ReachableLoginViewsHaveTarget(trace: seq<Event>)
    requires Allowed(Initial, trace)
    ensures var r := Run(Initial, trace);
      (r.view == LoginView || r.view == SignUpView) ==> (r.loginTarget == Client || r.loginTarget == Admin)
  {
    RunPreservesInv(Initial, trace);
  }

  // ---- Views still on screen while they animate out ----

  /** The view switch animates: a view that is left stays mounted, its callbacks
      live, until its exit animation ends. `Page` over-approximates what is
      mounted by every view shown so far. */
  datatype Page = Page(state: ShellState, shown: set<View>)

  /** Which events the page can raise when the components of every view in
      `p.shown` may still be mounted. */
  predicate Offered(p: Page, e: Event)
  {
    match e
    case ProfileClick(t) => HomeView in p.shown && (t == Client || t == Admin)
    case FunnelButton => HomeView in p.shown
    case ContactSubmit => HomeView in p.shown
    case ExploreClick => HomeView in p.shown
    case NavClick(to) => to == NavAdmin ==> p.state.role == Admin
    case FunnelDone => FunnelView in p.shown
    case LoginBack => LoginView in p.shown
    case SignUpLink => LoginView in p.shown
    case SignUpBack => SignUpView in p.shown
    case LoginLink => SignUpView in p.shown
    case _ => true
  }

  function PageStep(p: Page, e: Event): Page
  {
    var s := Step(p.state, e);
    Page(s, p.shown + {s.view})
  }

  function PageRun(p: Page, trace: seq<Event>): Page
    decreases |trace|
  {
    if trace == [] then p else PageRun(PageStep(p, trace[0]), trace[1..])
  }

  predicate PageAllowed(p: Page, trace: seq<Event>)
    decreases |trace|
  {
    trace == [] || (Offered(p, trace[0]) && PageAllowed(PageStep(p, trace[0]), trace[1..]))
  }

  /** The page as it loads: the home view, nothing else shown yet. */
  const InitialPage: Page := Page(Initial, {HomeView})

  /** Once the login or sign-up form has been shown, the login target is a client
      or an admin for good; together with `Inv` this covers the forms' callbacks
      fired while they animate out. */
  predicate PageInv(p: Page)
  {
    && p.state.view in p.shown
    && Inv(p.state)
    && ((LoginView in p.shown || SignUpView in p.shown) ==> (p.state.loginTarget == Client || p.state.loginTarget == Admin))
  }

  /** Everything the settled page offers is offered while views animate out. */
  lemma EnabledIsOffered(p: Page, e: Event)
    requires p.state.view in p.shown && Enabled(p.state, e)
    ensures Offered(p, e)
  {
  }

  lemma PageStepPreservesInv(p: Page, e: Event)
    requires PageInv(p) && Offered(p, e)
    ensures PageInv(PageStep(p, e))
  {
  }

  lemma {:induction false} PageRunPreservesInv(p: Page, trace: seq<Event>)
    requires PageInv(p) && PageAllowed(p, trace)
    ensures PageInv(PageRun(p, trace))
    decreases |trace|
  {
    if trace != [] {
      PageStepPreservesInv(p, trace[0]);
      PageRunPreservesInv(PageStep(p, trace[0]), trace[1..]);
    }
  }

  /** The login and sign-up views have a client or admin login target in every
      reachable state, even when callbacks of views that are animating out fire. */
  lemma ReachableLoginViewsHaveTargetDuringExit(trace: seq<Event>)
    requires PageAllowed(InitialPage, trace)
    ensures var r := PageRun(InitialPage, trace).state;
      (r.view == LoginView || r.view == SignUpView) ==> (r.loginTarget == Client || r.loginTarget == Admin)
  {
    PageRunPreservesInv(InitialPage, trace);
  }

  /** With views animating out, the sign-up form is still entered only by the
      login form's sign-up link, once the login form has been shown. */
  lemma SignUpEnteredOnlyByLoginLink(p: Page, e: Event)
    requires Offered(p, e) && p.state.view != SignUpView && PageStep(p, e).state.view == SignUpView
    ensures e == SignUpLink && LoginView in p.shown
  {
  }

  /** With views animating out, the login form is entered by a client or admin
      login, or by the sign-up form's login link with the target unchanged. */
  lemma LoginEnteredWithTargetDuringExit(p: Page, e: Event)
    requires Offered(p, e) && p.state.view != LoginView && PageStep(p, e).state.view == LoginView
    ensures || (e.ProfileClick? && PageStep(p, e).state.loginTarget == e.target && e.target != Guest)
            || (e == NavClick(NavPortal) && PageStep(p, e).state.loginTarget == Client)
            || (e == LoginLink && SignUpView in p.shown && PageStep(p, e).state.loginTarget == p.state.loginTarget)
  {
  }

  /** During the exit window the sign-up form can be entered from the home view:
      open the client login, go back, and press the leaving form's sign-up link. */
  lemma SignUpFromHomeDuringExit()
    ensures var p := PageRun(InitialPage, [ProfileClick(Client), LoginBack]);
      && PageAllowed(InitialPage, [ProfileClick(Client), LoginBack, SignUpLink])
      && p.state.view == HomeView && !Enabled(p.state, SignUpLink)
      && PageStep(p, SignUpLink).state.view == SignUpView
  {
    var p1 := PageStep(InitialPage, ProfileClick(Client));
    var p2 := PageStep(p1, LoginBack);
    assert p2.state.view == HomeView && LoginView in p2.shown;
    assert PageAllowed(p2, [SignUpLink]);
    assert [ProfileClick(Client), LoginBack, SignUpLink][1..] == [LoginBack, SignUpLink];
    assert [LoginBack, SignUpLink][1..] == [SignUpLink];
    assert [ProfileClick(Client), LoginBack][1..] == [LoginBack];
  }

  // ---- The component state, updated in place ----

  /** The App component: its state variables and event handlers. `shown`
      records the views shown so far, whose components may still be mounted and
      raise their callbacks while they animate out; so a callback method needs
      only that its component has been shown, not that its view is current. */
  class App {
    var currentView: View
    var role: Role
    var loginTarget: Role
    var contactSubmitted: bool
    var isDarkMode: bool
    ghost var shown: set<View>

    function State(): ShellState
      reads this
    {
      ShellState(currentView, role, loginTarget, isDarkMode, contactSubmitted)
    }

    ghost function Screen(): Page
      reads this
    {
      Page(State(), shown)
    }

    ghost predicate Valid()
      reads this
    {
      PageInv(Screen())
    }

    constructor ()
      ensures State() == Initial && shown == {HomeView} && Valid()
    {
      currentView := HomeView;
      role := Guest;
      loginTarget := Guest;
      contactSubmitted := false;
      isDarkMode := true;
      shown := {HomeView};
    }

    method ToggleTheme()
      requires Valid()
      modifies this
      ensures Valid() && Screen() == PageStep(old(Screen()), ThemeClick)
      ensures State() == ThemeToggled(old(State()))
    {
      isDarkMode := !isDarkMode;
    }

    /** `confirmed` is the answer to the confirmation dialog. */
    method HandleLogout(confirmed: bool)
      requires Valid()
      modifies this
      ensures Valid() && Screen() == PageStep(old(Screen()), LogoutClick(confirmed))
      ensures State() == LoggedOut(old(State()), confirmed)
    {
      if confirmed {
        role := Guest;
        currentView := HomeView;
        shown := shown + {HomeView};
      }
    }

    /** Keeps the invariant exactly when the target is a client or an admin. */
    method InitiateLogin(target: Role)
      requires Valid()
      modifies this
      ensures State() == LoginInitiated(old(State()), target) && shown == old(shown) + {LoginView}
      ensures Valid() <==> target != Guest
    {
      loginTarget := target;
      currentView := LoginView;
      shown := shown + {LoginView};
    }

    method HandleLoginSuccess()
      requires Valid()
      modifies this
      ensures Valid() && Screen() == PageStep(old(Screen()), LoginSuccess)
      ensures State() == LoginSucceeded(old(State()))
    {
      role := loginTarget;
      currentView := if loginTarget == Admin then AdminView else PortalView;
      shown := shown + {currentView};
    }

    method HandleSignUpSuccess()
      requires Valid()
      modifies this
      ensures Valid() && Screen() == PageStep(old(Screen()), SignUpSuccess)
      ensures State() == SignUpSucceeded(old(State()))
    {
      role := Client;
      currentView := PortalView;
      shown := shown + {PortalView};
    }

    /** `id` names the section to scroll to; the scroll itself is left out. */
    method ScrollToSection(id: string)
      requires Valid()
      modifies this
      ensures Valid() && Screen() == PageStep(old(Screen()), SectionClick)
      ensures State() == ScrolledToSection(old(State()))
    {
      if currentView != HomeView {
        currentView := HomeView;
        shown := shown + {HomeView};
      }
    }

    method HandleHomeClick()
      requires Valid()
      modifies this
      ensures Valid() && Screen() == PageStep(old(Screen()), HomeClick)
      ensures State() == HomeClicked(old(State()))
    {
      if currentView != HomeView {
        currentView := HomeView;
        shown := shown + {HomeView};
      }
    }

    /** The Navbar's onNavigate; the admin link is only shown to an admin. */
    method OnNavigate(to: NavTarget)
      requires Valid() && Offered(Screen(), NavClick(to))
      modifies this
      ensures Valid() && Screen() == PageStep(old(Screen()), NavClick(to))
      ensures State() == Navigated(old(State()), to)
    {
      if to == NavHome {
        HandleHomeClick();
      } else if to == NavPortal {
        InitiateLogin(Client);
      } else if to == NavAdmin {
        currentView := AdminView;
        shown := shown + {AdminView};
      } else {
        currentView := FunnelView;
        shown := shown + {FunnelView};
      }
    }

    /** The two profile buttons of the home view, live while it is shown or leaving. */
    method ProfileButton(target: Role)
      requires Valid() && (target == Client || target == Admin)
      modifies this
      ensures Valid() && Screen() == PageStep(old(Screen()), ProfileClick(target))
      ensures State() == LoginInitiated(old(State()), target)
    {
      InitiateLogin(target);
    }

    /** The home view's buttons into the lead funnel. */
    method OpenFunnel()
      requires Valid()
      modifies this
      ensures Valid() && Screen() == PageStep(old(Screen()), FunnelButton)
      ensures State() == ViewSet(old(State()), FunnelView)
    {
      currentView := FunnelView;
      shown := shown + {FunnelView};
    }

    /** The home page's Explore button, from the home page on screen or leaving. */
    method ExploreButton()
      requires Valid()
      modifies this
      ensures Valid() && Screen() == PageStep(old(Screen()), ExploreClick)
      ensures State() == old(State())
    {
    }

    method HandleContactSubmit()
      requires Valid()
      modifies this
      ensures Valid() && Screen() == PageStep(old(Screen()), ContactSubmit)
      ensures State() == ContactSubmitted(old(State()))
    {
      contactSubmitted := true;
    }

    /** The contact-form reset timer firing. */
    method ContactTimerFired()
      requires Valid()
      modifies this
      ensures Valid() && Screen() == PageStep(old(Screen()), ContactTimeout)
      ensures State() == ContactReset(old(State()))
    {
      contactSubmitted := false;
    }

    /** SalesFunnel's onComplete, from the funnel on screen or one animating out. */
    method FunnelComplete()
      requires Valid()
      modifies this
      ensures Valid() && Screen() == PageStep(old(Screen()), FunnelDone)
      ensures State() == ViewSet(old(State()), HomeView)
    {
      currentView := HomeView;
      shown := shown + {HomeView};
    }

    /** LoginForm's onBack. */
    method LoginFormBack()
      requires Valid()
      modifies this
      ensures Valid() && Screen() == PageStep(old(Screen()), LoginBack)
      ensures State() == ViewSet(old(State()), HomeView)
    {
      currentView := HomeView;
      shown := shown + {HomeView};
    }

    /** LoginForm's onSignUpClick: the login form has been shown, and may be leaving. */
    method OpenSignUp()
      requires Valid() && LoginView in shown
      modifies this
      ensures Valid() && Screen() == PageStep(old(Screen()), SignUpLink)
      ensures State() == ViewSet(old(State()), SignUpView)
    {
      currentView := SignUpView;
      shown := shown + {SignUpView};
    }

    /** SignUpForm's onBack. */
    method SignUpFormBack()
      requires Valid()
      modifies this
      ensures Valid() && Screen() == PageStep(old(Screen()), SignUpBack)
      ensures State() == ViewSet(old(State()), HomeView)
    {
      currentView := HomeView;
      shown := shown + {HomeView};
    }

    /** SignUpForm's onLoginClick: the sign-up form has been shown, and may be leaving. */
    method OpenLogin()
      requires Valid() && SignUpView in shown
      modifies this
      ensures Valid() && Screen() == PageStep(old(Screen()), LoginLink)
      ensures State() == ViewSet(old(State()), LoginView)
    {
      currentView := LoginView;
      shown := shown + {LoginView};
    }
  }
}
