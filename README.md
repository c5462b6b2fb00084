# Jetfuel site: contact relay, view state and lead funnel

A Dafny model of the three pieces of logic in the agency's marketing site:

- **The contact relay endpoint** (`api/contact.ts`). Modules `Escape` (escape.dfy) and `Contact` (contact.dfy).
  - The serverless handler is a fixed chain of guards with early returns, in this order: the request method, then the three required fields, then the Gmail credentials.
  - After the guards it composes one mail message, hands it to the transport once, and maps the transport's answer to a status code.
  - `Contact.Handle` is the whole decision as a function of three inputs: the request, the environment values, and the transport's answer.
  - `Contact.Handler` is the imperative handler. It writes a response object (`Contact.Response`) and sends through a transport object (`Contact.Mailer`). Its contract ties the status code, the JSON payload and the transport's outbox to `Handle`.
  - `escapeHtml` is modelled exactly as written: five global replacements, in order. It is proved equal to a per-character substitution, proved to leave no raw `<`, `>`, `"` or `'`, and proved to lose no information: `Escape.Unescape` undoes it.
- **The top-level view/role state machine** (`App.tsx`; `src/App.tsx` holds the same state and handlers at the same lines). Module `Shell` (shell.dfy).
  - Each handler is a transition on `ShellState`, and `Step` dispatches user-interface events to the handlers.
  - `Enabled` over-approximates the events the settled page offers in a given state: a view's own buttons exist only while that view is shown, and the admin link only for an admin. The Navbar events are otherwise offered in every state, which is more than the Navbar renders (see "## Left out").
  - The view switch animates, and a view that is left keeps taking clicks until its exit animation ends. `Shell.Page` models this by letting the callbacks of every view shown so far fire. A leaving view's callbacks are those of its last render; of the ones the model covers, only the home page's Explore button reads state (the view, which it saw as HOME), and it is modelled as changing nothing.
  - The invariant "the login and sign-up views always have a client or admin login target" is proved for every sequence of offered events from the initial state, both for the settled page and for the page with views animating out.
  - The class `Shell.App` keeps the five state variables as fields, plus a ghost record of the views shown so far. It has one method per handler, each proved to perform its transition on the state and the matching `Shell.PageStep`. A view's callback method does not require its view to be current, since a leaving view still takes clicks. Only the sign-up and login links require that their form has been shown. Every method keeps the invariant except `InitiateLogin` with a GUEST target, which no button of the page passes.
- **The lead funnel** (`components/SalesFunnel.tsx`). Module `Funnel` (funnel.dfy).
  - The class `Funnel.SalesFunnel` keeps the step counter (always within 1..4) and the form record (`formData`).
  - Choosing an option writes exactly one field and moves forward one step. The back button moves back one step.
  - The progress label is `Math.round((step / 4) * 100)`, proved equal to `25 * step`.

Inputs from outside the code are parameters:
- The HTTP request's method and JSON body.
- The four environment variables. Each is an `Option<string>`, where None means unset.
- The mail transport's answer: delivered, or rejected with an error text.
- The answer to the logout confirmation dialog.
- Which event the user triggers next.

A field is "present" with JavaScript's truthiness: it is set and is not the empty string.

Three facts about the relay that the model keeps exactly:
- Missing credentials answer with status 500, the same code as a failed send.
- Field, credential and `CONTACT_TO`/`CONTACT_FROM` checks use truthiness, so an empty string counts as missing.
- The recipient falls back to the fixed address `jetfuelcreatives@gmail.com` when `CONTACT_TO` is unset or empty.

## Model

| member | source | states |
|---|---|---|
| Escape.ReplaceAll | api/contact.ts:62-67 | definition of one global `.replace(/c/g, r)` pass; its properties are the three lemmas below |
| Escape.EscapeHtml | api/contact.ts:61-68 | definition of `escapeHtml`: the five passes in source order, `&` first; its properties are the `EscapeHtml…` lemmas below |
| Escape.ReplaceAllConcat | api/contact.ts:62-67 | a global one-character `replace` distributes over concatenation |
| Escape.ReplaceAllAbsent | api/contact.ts:62-67 | a `replace` pass leaves text without its character unchanged |
| Escape.ReplaceAllRemoves | api/contact.ts:62-67 | after a pass whose replacement lacks the character, no occurrence of it is left |
| Escape.EscapeChar | api/contact.ts:63-67 | exactly the five special characters change; each becomes an entity starting with `&` |
| Escape.EscapeHtmlConcat | api/contact.ts:61-68 | escaping a concatenation is the concatenation of the escaped parts |
| Escape.EscapeHtmlSingle | api/contact.ts:63-67 | on one character the five ordered passes give that character's entity (the `&` pass runs first, so no inserted entity is escaped again) |
| Escape.EscapeHtmlIsPerCharacter | api/contact.ts:61-68 | the chain of five replacements equals the per-character substitution `&`→`&amp;`, `<`→`&lt;`, `>`→`&gt;`, `"`→`&quot;`, `'`→`&#039;` |
| Escape.EscapeHtmlPlainText | api/contact.ts:61-68 | a string with none of the five characters is returned unchanged |
| Escape.EscapeHtmlLength | api/contact.ts:61-68 | the output is at least three characters longer per special character; the length is unchanged exactly when there is nothing to escape |
| Escape.EscapeHtmlEscaped | api/contact.ts:61-68 | the output has no `<`, `>`, `"` or `'`, and every `&` in it starts one of the five entities |
| Escape.UnescapeEscapeHtml | api/contact.ts:61-68 | decoding the five entities recovers the input, so escaping loses nothing |
| Escape.EscapeHtmlIdempotentOnlyOnPlainText | api/contact.ts:61-68 | escaping twice equals escaping once exactly when the input has no special character |
| Contact.Truthy | api/contact.ts:20 | definition of JavaScript truthiness on an optional string: present and not empty; the same test is used at lines 27-28, 30, 45 and 49 |
| Contact.FieldsOf | api/contact.ts:18 | definition of `req.body` or the empty object, destructured into four optional fields |
| Contact.HasRequiredFields | api/contact.ts:20 | definition of the required-field guard: name, email and message all truthy; see `Contact.Handle` and `Contact.FieldsCheckedBeforeConfiguration` |
| Contact.Configured | api/contact.ts:30 | definition of the credentials guard: GMAIL_USER and GMAIL_PASS both truthy; see `Contact.Handle` |
| Contact.Accepted | api/contact.ts:12-34 | definition of "every guard passes"; `Contact.Handle` sends a message exactly when it holds |
| Contact.Or | api/contact.ts:27-28 | definition of JavaScript's logical-or default on an optional string; with a non-empty fallback the result is never empty |
| Contact.SubjectLine | api/contact.ts:45 | definition of the subject line; stated on the sent mail by `Contact.ComposedSubject` |
| Contact.TextBody | api/contact.ts:46 | definition of the plain-text body; see `Contact.TextBodyEndsWithMessage` |
| Contact.Paragraph | api/contact.ts:47-49 | definition of one labelled paragraph with an escaped value; see `Contact.ParagraphTags` |
| Contact.MessageHtml | api/contact.ts:50 | definition of the message paragraph's content: escaped, then newlines to `<br/>`; see `Contact.MessageHtmlIsPerCharacter` |
| Contact.HtmlBody | api/contact.ts:47-50 | definition of the HTML body; see `Contact.HtmlBodyTags`, `Contact.HtmlBodyEntitySafe` and `Contact.SubjectParagraphPlacement` |
| Contact.ComposeMail | api/contact.ts:41-51 | definition of the mail options built once every guard has passed; stated through `Contact.Handle` and `Contact.ComposedSubject` |
| Contact.Handle | api/contact.ts:11-59 | non-POST gives 405 "Method not allowed" with no send. A missing or empty name, email or message gives 400 "Missing required fields: name, email, message" with no send. Missing GMAIL_USER or GMAIL_PASS gives 500 "Email not configured" with no send. A message reaches the transport exactly when all guards pass. Delivery gives 200 `{ok:true}`; a rejection gives 500 "Failed to send message". The message's replyTo is the submitted email, `to` is CONTACT_TO or the default address, and `from` is CONTACT_FROM or GMAIL_USER |
| Contact.ResponseTable | api/contact.ts:12-58 | every outcome is one of the five status/payload pairs the endpoint can write |
| Contact.TransportErrorNotLeaked | api/contact.ts:53-58 | two transport rejections with different error texts produce identical outcomes |
| Contact.MethodCheckedFirst | api/contact.ts:12-15 | for any non-POST request the body, the environment and the transport do not affect the outcome |
| Contact.FieldsCheckedBeforeConfiguration | api/contact.ts:20-34 | a POST missing a required field is refused identically under every configuration and transport |
| Contact.ComposedSubject | api/contact.ts:41-51 | a sent message's subject is "Website Contact: " + subject when a subject was given, else "Website Contact from " + name; its text and HTML bodies are built from the submitted fields |
| Contact.TextBodyEndsWithMessage | api/contact.ts:46 | the plain-text body ends with the message exactly as submitted (unescaped) |
| Contact.SubjectParagraphPlacement | api/contact.ts:47-50 | the HTML body with a subject is the body without one plus the escaped Subject paragraph right after the Email paragraph; without a subject there is no such paragraph |
| Contact.MessageHtmlIsPerCharacter | api/contact.ts:50 | escaping the message then replacing `\n` by `<br/>` is one per-character map: `\n`→`<br/>`, special characters→entities |
| Contact.MessageHtmlHasNoNewline | api/contact.ts:50 | no raw newline remains in the message paragraph |
| Contact.MessageEachTags | api/contact.ts:50 | in the message paragraph every `<` belongs to a `<br/>` written for a newline: their number is the number of newlines |
| Contact.ParagraphTags | api/contact.ts:47-49 | a labelled paragraph holds exactly the four `<` of its markup, none from the escaped value |
| Contact.MessageBlockTags | api/contact.ts:50 | the rule and message paragraph hold three `<` of markup plus one per newline of the message |
| Contact.HtmlBodyTags | api/contact.ts:47-50 | the HTML body holds exactly 11 `<` of markup, 4 more with a Subject paragraph, and one per newline of the message: whatever is typed into name, email and subject, no tag of the submitter's reaches the body |
| Contact.HtmlBodyEntitySafe | api/contact.ts:47-50 | whatever the fields contain, the HTML body has no quote characters and every `&` in it starts an entity |
| Contact.Response.Status | api/contact.ts:13 | `res.status(code)` sets the status and keeps the payload |
| Contact.Response.Json | api/contact.ts:13 | `.json(reply)` sets the payload and keeps the status |
| Contact.Mailer.SendMail | api/contact.ts:53 | `sendMail` appends the message to the transport's outbox and returns the service's answer |
| Contact.Handler | api/contact.ts:11-59 | the handler's written status and payload are `Handle`'s; the outbox grows by the one composed message exactly when `Handle` sends one, and by nothing otherwise |
| Shell.ThemeToggled | App.tsx:37 | definition of `toggleTheme`; see `Shell.ThemeToggleInvolution` |
| Shell.LoggedOut | App.tsx:39-44 | definition of `handleLogout` given the dialog's answer; see `Shell.LogoutEffect` |
| Shell.LoginInitiated | App.tsx:46-49 | definition of `initiateLogin`; see `Shell.LoginInitiatedEffect` and `Shell.GuestLoginBreaksInv` |
| Shell.LoginSucceeded | App.tsx:51-54 | definition of `handleLoginSuccess`; see `Shell.LoginSuccessRouting` |
| Shell.SignUpSucceeded | App.tsx:56-59 | definition of `handleSignUpSuccess`; see `Shell.SignUpSuccessEffect` |
| Shell.ScrolledToSection | App.tsx:61-72 | definition of `scrollToSection`'s effect on the view; see `Shell.HomeLinksShowHome` |
| Shell.HomeClicked | App.tsx:74-81 | definition of `handleHomeClick`'s effect on the view; see `Shell.HomeLinksShowHome` |
| Shell.ViewSet | App.tsx:504-516 | definition of the inline `setCurrentView` callbacks |
| Shell.Navigated | App.tsx:482-486 | definition of the Navbar's `onNavigate`; see `Shell.NavbarRouting` |
| Shell.ContactSubmitted | App.tsx:83-85 | definition of `handleContactSubmit`'s state change |
| Shell.ContactReset | App.tsx:86 | definition of the 5-second reset callback's state change |
| Shell.Step | App.tsx:482-519 | definition of which handler each user-interface event runs; see `Shell.StepPreservesInv` |
| Shell.Enabled | App.tsx:482-519 | definition of the events the settled page offers (an over-approximation for the Navbar); see `Shell.StepPreservesInv` and `Shell.EnabledIsOffered` |
| Shell.InitialState | App.tsx:23-27 | the initial state is view HOME, role GUEST, login target GUEST, dark mode on, contact not submitted, and it satisfies the invariant |
| Shell.ThemeToggleInvolution | App.tsx:37 | toggling flips the theme flag only; toggling twice restores the state |
| Shell.LogoutEffect | App.tsx:39-44 | a confirmed logout sets role GUEST and view HOME, changing nothing else; a declined one changes nothing |
| Shell.LoginInitiatedEffect | App.tsx:46-49 | initiating a login sets the login target and the LOGIN view and keeps the role and other fields |
| Shell.LoginSuccessRouting | App.tsx:51-54 | login success sets the role to the login target; the view becomes ADMIN exactly for an admin target, PORTAL otherwise |
| Shell.SignUpSuccessEffect | App.tsx:56-59 | sign-up success always sets role CLIENT and view PORTAL |
| Shell.HomeLinksShowHome | App.tsx:61-81 | handleHomeClick and scrollToSection always leave the view at HOME and change nothing else |
| Shell.NavbarRouting | App.tsx:482-486 | Navbar HOME acts as handleHomeClick; PORTAL always goes to LOGIN with target CLIENT, even when logged in; ADMIN and FUNNEL are set directly |
| Shell.FunnelCompletionGoesHome | App.tsx:504 | the funnel's completion returns to HOME and changes nothing else |
| Shell.StepPreservesInv | App.tsx:482-519 | every event that the settled page offers in a state keeps the invariant on the login/sign-up views |
| Shell.GuestLoginBreaksInv | App.tsx:46-49 | initiateLogin itself does not guard its target: a GUEST target would break the invariant, which rests on its callers |
| Shell.SignUpEnteredOnlyFromLogin | App.tsx:505-519 | the SIGNUP view is entered only from LOGIN, by the login form's sign-up link |
| Shell.LoginEnteredWithTarget | App.tsx:505-519 | LOGIN is entered only in three ways: a home-page profile button with a CLIENT or ADMIN target (lines 192-193), the Navbar portal link with target CLIENT (line 484), or the sign-up form's login link with the target unchanged (line 516) |
| Shell.RunPreservesInv | App.tsx:23-87 | from a state satisfying the invariant, every sequence of offered events keeps it |
| Shell.ReachableLoginViewsHaveTarget | App.tsx:505-519 | in every state reachable from the initial one, view LOGIN or SIGNUP implies login target CLIENT or ADMIN |
| Shell.Offered | App.tsx:494-519 | definition of the events the page can raise while views animate out: those of every view shown so far, plus the Navbar's; see `Shell.PageStepPreservesInv` |
| Shell.PageStep | App.tsx:494-519 | definition of one event on the page: the handler's transition, and the new view added to the views shown; see `Shell.PageStepPreservesInv` |
| Shell.ExploreChangesNothing | App.tsx:125-130 | the home page's Explore button changes no state, also on a home page that is animating out, because its `scrollToSection` saw the view HOME; on the home page on screen this agrees with `scrollToSection` |
| Shell.EnabledIsOffered | App.tsx:494-519 | every event the settled page offers is also offered while views animate out |
| Shell.PageStepPreservesInv | App.tsx:494-519 | with the callbacks of every view shown so far live, each event keeps the invariant, and the login target stays CLIENT or ADMIN once a login or sign-up form has been shown |
| Shell.PageRunPreservesInv | App.tsx:494-519 | the same for every sequence of such events |
| Shell.ReachableLoginViewsHaveTargetDuringExit | App.tsx:494-519 | even with callbacks of views that are animating out, view LOGIN or SIGNUP implies login target CLIENT or ADMIN in every reachable state |
| Shell.SignUpEnteredOnlyByLoginLink | App.tsx:505-511 | with views animating out, SIGNUP is entered only by the login form's sign-up link, and only once the login form has been shown |
| Shell.LoginEnteredWithTargetDuringExit | App.tsx:494-519 | with views animating out, LOGIN is still entered only by a CLIENT/ADMIN profile button, the Navbar portal link with target CLIENT, or the sign-up form's login link with the target unchanged |
| Shell.SignUpFromHomeDuringExit | App.tsx:494-510 | a concrete trace (client login, back, then the leaving form's sign-up link) enters SIGNUP from HOME, which the settled page does not offer |
| Shell.App.constructor | src/App.tsx:23-27 | the component starts in the initial state, with only the home view shown |
| Shell.App.ToggleTheme | src/App.tsx:37 | performs the theme toggle |
| Shell.App.HandleLogout | src/App.tsx:39-44 | performs the logout for the given confirmation answer |
| Shell.App.InitiateLogin | src/App.tsx:46-49 | performs initiateLogin; the invariant holds afterwards exactly when the target is not GUEST |
| Shell.App.HandleLoginSuccess | src/App.tsx:51-54 | performs the login-success routing |
| Shell.App.HandleSignUpSuccess | src/App.tsx:56-59 | performs the sign-up success |
| Shell.App.ScrollToSection | src/App.tsx:61-72 | moves to HOME when elsewhere, otherwise changes nothing |
| Shell.App.HandleHomeClick | src/App.tsx:74-81 | moves to HOME when elsewhere, otherwise changes nothing |
| Shell.App.ExploreButton | App.tsx:125-130 | the home page's Explore button keeps the whole state and the invariant, from the home page on screen or leaving |
| Shell.App.HandleContactSubmit | src/App.tsx:83-85 | marks the contact form as submitted, from any view (the home page may be leaving), and keeps the invariant |
| Shell.App.ContactTimerFired | src/App.tsx:86 | the reset timer clears the submitted mark |
| Shell.App.OnNavigate | App.tsx:482-486 | performs Navbar routing by calling the home-click and initiate-login handlers |
| Shell.App.ProfileButton | App.tsx:192-193 | the home page's profile buttons initiate a CLIENT or ADMIN login from any view (the home page may be leaving) and keep the invariant |
| Shell.App.OpenFunnel | App.tsx:118-119 | the home page's start buttons open the FUNNEL view from any view (the home page may be leaving) |
| Shell.App.FunnelComplete | App.tsx:504 | the funnel's onComplete sets view HOME, also when the funnel is leaving |
| Shell.App.LoginFormBack | App.tsx:508 | the login form's back button sets view HOME, also when the form is leaving |
| Shell.App.OpenSignUp | App.tsx:510 | the login form's sign-up link sets view SIGNUP and keeps the login target and the invariant; it needs only that the login form has been shown, so it may be leaving |
| Shell.App.SignUpFormBack | App.tsx:515 | the sign-up form's back button sets view HOME, also when the form is leaving |
| Shell.App.OpenLogin | App.tsx:516 | the sign-up form's login link sets view LOGIN and keeps the login target and the invariant; it needs only that the sign-up form has been shown, so it may be leaving |
| Funnel.StepKey | components/SalesFunnel.tsx:71 | definition of the field an option button of each step writes; see `Funnel.StepKeysDistinct` |
| Funnel.Round | components/SalesFunnel.tsx:42 | definition of `Math.round` on an exact real: the nearest integer, halves rounded up |
| Funnel.ProgressPercent | components/SalesFunnel.tsx:42 | definition of the progress label `Math.round((step / 4) * 100)`; see `Funnel.ProgressIsQuarterSteps` |
| Funnel.ProgressIsQuarterSteps | components/SalesFunnel.tsx:42 | the rounded progress percentage equals 25 × step, so it lies within 25..100 |
| Funnel.StepsTable | components/SalesFunnel.tsx:19-24 | four steps: three option steps with 4, 4 and 3 options, then the contact-details form |
| Funnel.StepKeysDistinct | components/SalesFunnel.tsx:71 | steps 1, 2 and 3 write the fields type, budget and timeline: three different fields of the record |
| Funnel.SalesFunnel.constructor | components/SalesFunnel.tsx:10-17 | the funnel starts at step 1 with every form field empty |
| Funnel.SalesFunnel.Current | components/SalesFunnel.tsx:64 | `steps[step - 1]` is always in bounds, and it is an option step exactly before step 4 |
| Funnel.SalesFunnel.HandleOptionSelect | components/SalesFunnel.tsx:26-29 | sets `formData[key]` to the value, keeps every other field, and moves the step forward by exactly one below step 4 and not at step 4; the step stays within 1..4 |
| Funnel.SalesFunnel.ChooseOption | components/SalesFunnel.tsx:68-71 | pressing an option of a step below 4 writes that option into the step's own field and moves to the next step |
| Funnel.SalesFunnel.GoBack | components/SalesFunnel.tsx:114-116 | the back button, shown only above step 1, moves back exactly one step and keeps the record |
| Funnel.SalesFunnel.EditName | components/SalesFunnel.tsx:88 | typing a name rewrites only the name field and keeps the step |
| Funnel.SalesFunnel.EditEmail | components/SalesFunnel.tsx:98 | typing an email rewrites only the email field and keeps the step |
| Funnel.SalesFunnel.HandleSubmit | components/SalesFunnel.tsx:31-34 | submitting the details form calls onComplete, which returns the app to HOME and keeps its invariant, also when the funnel is leaving |

## Left out

- Transport construction (`nodemailer.createTransport` with the Gmail service and credentials, api/contact.ts:36-39) is folded into `Contact.Mailer`: the model does not capture authentication, and does not capture `createTransport` itself throwing.
- Logging (`console.error`, api/contact.ts:31 and 56): no state is observable from it.
- Request and response objects: only the request method and body, and the response status and JSON payload, are modelled.
- Environment reads: `process.env` values are the `Env` parameter.
- Non-string JSON field values (numbers, booleans, objects) and `String(unsafe)` coercion: the fields are modelled as optional strings.
- Browser APIs are left out: the DOM theme class effect (App.tsx:29-35), `scrollIntoView` and `window.scrollTo`. Only their effect on the view is modelled.
- The confirmation dialog: `window.confirm` is a boolean argument. The Navbar asks once before calling `onLogout` (components/Navbar.tsx:27-31) and `handleLogout` asks again; the model takes the answer of the second dialog.
- Timers: the scroll delay and the mock login/sign-up latencies are not modelled. Their callbacks are events that may occur in any state. The model reads the current login target, not the one captured when the login form was submitted.
- The contact form's 5-second reset (App.tsx:86) is the event `ContactTimeout`, with no clock.
- Rendering, styling and animation (all JSX, Tailwind classes, framer-motion). The exit animation's 0.4-second window is modelled only through what stays mounted: `Shell.Page` lets every view shown so far raise its callbacks, with no clock.
- Shell.SignUpEnteredOnlyFromLogin and Shell.LoginEnteredWithTarget hold for the settled page (`Enabled`) only. During a view's exit animation (App.tsx:494-500) the leaving form's links still fire, so SIGNUP can be entered from HOME (`Shell.SignUpFromHomeDuringExit`). `Shell.SignUpEnteredOnlyByLoginLink` and `Shell.LoginEnteredWithTargetDuringExit` state what still holds then.
- Escape.EscapeHtmlLength: `|s|` counts Unicode scalar values, not JavaScript's UTF-16 code units. The five escaped characters are ASCII, so the per-character statements carry over, but the lengths are not JavaScript's `length`.
- Navbar events in `Shell.Enabled` and `Shell.Offered` are over-approximated. Logout is offered to a guest, though its button exists only for a non-guest (components/Navbar.tsx:110-133). The PORTAL target is offered to an admin, whose button asks for ADMIN (components/Navbar.tsx:122). The HOME target is offered, though the Navbar's home links call `onHomeClick` and never `onNavigate('HOME')` (components/Navbar.tsx:42, 69). Every safety lemma holds for the larger set, so it holds for the real one too.
- Funnel.SalesFunnel.ChooseOption, HandleOptionSelect, EditName, EditEmail and HandleSubmit model a press on the step panel on screen, read with the current `step` and `formData`. The step panel animates out when the step changes (components/SalesFunnel.tsx:54-61), and a leaving panel's buttons keep the `step` and `formData` of its own render. So a second press on the leaving step-1 panel writes `type` over that render's record and sets the step to 2 again, rather than advancing it. Such presses are not modelled, and "moves forward one step" holds only for the panel on screen. The 1..4 bound holds either way.
- Callbacks of a leaving view are the closures of its last render. The model runs them against the current state. For the home page's Explore button this is captured exactly (`Shell.ExploreChangesNothing`). For the login form's `onSuccess`, which reads the login target, see the timers line above. The other leaving-view callbacks read no state.
- Browser form validation: the `required` and `type="email"` attributes on the funnel's details form and the home contact form.
- The funnel's lifetime: entering the FUNNEL view mounts a fresh funnel at step 1. `Funnel.SalesFunnel` is a separate object, and its link to the app is the `onComplete` call in `HandleSubmit`.
- Funnel.ProgressIsQuarterSteps: `Math.round` is modelled on exact reals rather than IEEE doubles. For steps 1..4 the double computation is exact, so nothing is lost.
- services/gemini.ts and the chat in components/ClientPortal.tsx: a pass-through to a hosted language-model API.
- components/ContactForm.tsx: a `fetch` wrapper with loading and error flags.
- components/LoginForm.tsx and components/SignUpForm.tsx internals: timer-driven mocks that always succeed, plus a one-line password-equality check.
- components/AdminDashboard.tsx, components/Navbar.tsx rendering, and the fixtures in constants.ts: presentational.
