# Two-factor page: a Dafny model

This project models the logic in the code-behind of the two-factor
authentication page (`TwoFactorPage`) of a password-manager mobile client. The
Xamarin wiring is dropped. What remains is three small deterministic pieces:

- **The pushed-token guard and broadcast handler** (`PushedToken`,
  `TwoFactorPage.OnBroadcast`). While the page is appearing it subscribes to the
  broadcaster under the key `TwoFactorPage` and handles two commands.
  `gotYubiKeyOTP` carries a YubiKey one-time password. The password is stored
  and submitted at once, but only when the YubiKey method is active and the
  payload passes a fixed format check. `resumeYubiKey` re-sends
  `listenYubiKeyOTP(true)` when the YubiKey method is active.
- **The page as a state machine** (`TwoFactorPage`, `PageProperties`). One page
  state plus one event gives the next state and the effects issued, in order.
  The events are appearing, disappearing, back-press, a delivered broadcast, the
  five buttons (each gated by `DoOnce()`), and two view-model changes (switching
  method, editing the token). The effects are subscribe and unsubscribe calls,
  listener messages, and calls into the view model and navigation. `Run` applies
  a sequence of events (generic in `Traces`).
- **The post-authentication router** (`PostAuthRouter.Route`). It is a
  first-match choice among the add/edit page, the autofill cipher list and the
  tabs page. The fallback reads the stored previous-page record once and
  removes it if it was there.

The view model's boolean method flags are one closed `Method` datatype;
`YubikeyMethod` and `TotpMethod` are derived from it. `DoOnce()` of the base
page is a `granted` flag on each button event. Calls into the view model
(`Init`, `SubmitAsync`, `AnotherMethodAsync`, `SendEmailAsync`) are effects
whose internals are not modelled. A `Submit` effect records the view model's
token at the moment of the call.

Assumptions about collaborators whose code is not part of this model:
- The broadcaster delivers a message only while the page is subscribed.
- Subscribing again under the same key replaces the registration instead of
  adding a second one, so subscription is a single boolean.
- Handlers run synchronously, one event at a time.

## Behaviour worth noting (the model follows the code)

- **Token check.** Only the ASCII space is refused inside a pushed token
  (`Contains(" ")`), not white space in general. A 44-character token that
  contains a tab but is not blank is accepted (`PushedToken.TabInsideTokenAccepted`).
- **Teardown polarity.**
  - `OnDisappearing` sends `listenYubiKeyOTP(false)` and unsubscribes only when
    the method is not YubiKey.
  - `OnBackButtonPressed` does the same only when it is YubiKey.
  - The asymmetry is kept literally, and is a suspected defect.
  - Its consequences are proved rather than fixed. Back-press followed by the
    disappearing it causes always tears down exactly once
    (`BackThenDisappearTearsDownOnce`). With YubiKey active, disappearing keeps
    the subscription, and tokens pushed afterwards are still submitted
    (`YubiKeyDisappearKeepsSubscription`). Closing a YubiKey page with the close
    button leaves the subscription in place (`CloseOnYubiKeyKeepsSubscription`).
- **Appearing and the listener.** Appearing subscribes whatever the method. It
  never sends `listenYubiKeyOTP(true)` itself.
- **Method switch (a modelling choice).** The page itself has no method-switch
  code; the switch happens inside the view model (`AnotherMethodAsync`). In this
  model, `MethodChanged` issues no effect and keeps the token. Anything the view
  model does on a switch is not modelled. After a switch away from YubiKey, the
  page's own guard ignores pushed tokens, because it reads the current method
  (`SwitchAwayIgnoresPushes`).
- **Repeated submissions (a modelling choice).** `SubmitAsync` is opaque here.
  Anything it does to suppress a second submission is not modelled. On the
  page's side, the continue button is gated by `DoOnce()`. Pushed tokens are not
  deduplicated: two accepted pushes each submit (`RepeatedPushesEachSubmit`).
  Submits never outnumber granted continues plus pushed tokens
  (`SubmitsBoundedByTriggers`).

## Model

| member | source | states |
|---|---|---|
| PushedToken.AllWhiteSpace | src/App/Pages/Accounts/TwoFactorPage.xaml.cs:66 | the blank test is true iff every character is .NET white space (so also for the empty string) |
| PushedToken.ContainsSpace | src/App/Pages/Accounts/TwoFactorPage.xaml.cs:67 | `Contains(" ")` is true iff some position holds the space character |
| PushedToken.Accepts | src/App/Pages/Accounts/TwoFactorPage.xaml.cs:66-67 | a payload passes the format check iff it is non-null, exactly 44 characters, has no space, and has at least one non-white-space character |
| PushedToken.StrictTokenAccepted | src/App/Pages/Accounts/TwoFactorPage.xaml.cs:66-67 | every 44-character token with no white space at all is accepted |
| PushedToken.RejectionReasons | src/App/Pages/Accounts/TwoFactorPage.xaml.cs:66-67 | a rejected non-null token is blank, or of the wrong length, or holds a space |
| PushedToken.TabInsideTokenAccepted | src/App/Pages/Accounts/TwoFactorPage.xaml.cs:67 | a 44-character token holding a tab is accepted: only the space is refused |
| PushedToken.BlankNeverAccepted | src/App/Pages/Accounts/TwoFactorPage.xaml.cs:66 | null or blank payloads are rejected whatever their length |
| TwoFactorPage.NewPage | src/App/Pages/Accounts/TwoFactorPage.xaml.cs:20 | a new page starts neither inited nor subscribed |
| TwoFactorPage.PushedTokenHandling | src/App/Pages/Accounts/TwoFactorPage.xaml.cs:63-75 | an accepted push stores the token and issues exactly one submit of that token; a rejected push changes no state and issues nothing |
| TwoFactorPage.OtherCommandHandling | src/App/Pages/Accounts/TwoFactorPage.xaml.cs:76-82 | `resumeYubiKey` sends `listenYubiKeyOTP(true)` iff the method is YubiKey; other commands do nothing; neither changes state |
| TwoFactorPage.AppearingSubscribesThenInits | src/App/Pages/Accounts/TwoFactorPage.xaml.cs:58-97 | every appearing first subscribes once under the page key; init runs iff not inited yet; focus is requested iff also TOTP |
| TwoFactorPage.TeardownGuardsAreComplementary | src/App/Pages/Accounts/TwoFactorPage.xaml.cs:100-117 | disappearing tears down iff the method is not YubiKey, back-press iff it is; back-press returns the base result; nothing but the subscription changes |
| TwoFactorPage.ButtonsNeedDoOnce | src/App/Pages/Accounts/TwoFactorPage.xaml.cs:119-160 | each button acts only when `DoOnce()` grants it and changes no state; resend asks for `(true, true)`; try-again also needs YubiKey |
| TwoFactorPage.StepStateFacts | src/App/Pages/Accounts/TwoFactorPage.xaml.cs:85-87 | `_inited` becomes true on appearing and never goes back; only the view model changes the method; only back-press returns a value |
| TwoFactorPage.StepUsesPageKey | src/App/Pages/Accounts/TwoFactorPage.xaml.cs:61-114 | every broadcaster call of a step uses the key `TwoFactorPage` |
| TwoFactorPage.StepListensOnlyOnYubiKey | src/App/Pages/Accounts/TwoFactorPage.xaml.cs:76-160 | the only message sent is the listener switch, and it is switched on only under YubiKey |
| TwoFactorPage.StepSubmitSources | src/App/Pages/Accounts/TwoFactorPage.xaml.cs:63-124 | a submit comes only from a granted continue (current token) or an accepted push delivered while subscribed (the token just stored) |
| PageProperties.StepInitCount | src/App/Pages/Accounts/TwoFactorPage.xaml.cs:85-97 | one step issues the init once exactly on the first appearing |
| PageProperties.InitedAfterRun | src/App/Pages/Accounts/TwoFactorPage.xaml.cs:85-87 | after any run, the page is inited iff it was before or some event was an appearing |
| PageProperties.InitRunsAtMostOnce | src/App/Pages/Accounts/TwoFactorPage.xaml.cs:85-97 | over any event sequence the init runs once if the page was not inited and appears, never otherwise |
| PageProperties.PageLifetimeInitOnce | src/App/Pages/Accounts/TwoFactorPage.xaml.cs:85-97 | from construction, the init runs exactly once iff the page ever appears |
| PageProperties.SubscriptionKeyIsFixed | src/App/Pages/Accounts/TwoFactorPage.xaml.cs:61-114 | every subscribe or unsubscribe over any run uses the single key `TwoFactorPage` |
| PageProperties.StepSubmits | src/App/Pages/Accounts/TwoFactorPage.xaml.cs:63-124 | one step issues at most one submit, and only for a granted continue or a `gotYubiKeyOTP` broadcast |
| PageProperties.SubmitsBoundedByTriggers | src/App/Pages/Accounts/TwoFactorPage.xaml.cs:63-124 | over any run, submits never outnumber granted continues plus pushed-token broadcasts |
| PageProperties.IgnoredWhileUnsubscribed | src/App/Pages/Accounts/TwoFactorPage.xaml.cs:61-83 | a page that is not subscribed ignores every broadcast: no state change, no effect |
| PageProperties.AppearingResubscribes | src/App/Pages/Accounts/TwoFactorPage.xaml.cs:58-61 | after any history, appearing leaves the page subscribed and inited |
| PageProperties.StepWithoutYubiKey | src/App/Pages/Accounts/TwoFactorPage.xaml.cs:66-160 | without YubiKey a step never switches the listener on and submits only on a granted continue |
| PageProperties.NoYubiKeyNoPushedSubmit | src/App/Pages/Accounts/TwoFactorPage.xaml.cs:66-160 | a page never on YubiKey never switches the listener on, and submits at most once per granted continue |
| PageProperties.BackThenDisappearTearsDownOnce | src/App/Pages/Accounts/TwoFactorPage.xaml.cs:100-117 | back-press then disappearing ends unsubscribed, with exactly one stop message and one unsubscribe, for every method |
| PageProperties.YubiKeyDisappearKeepsSubscription | src/App/Pages/Accounts/TwoFactorPage.xaml.cs:100-108 | under YubiKey, disappearing keeps the subscription and a valid token pushed afterwards is still submitted |
| PageProperties.CloseOnYubiKeyKeepsSubscription | src/App/Pages/Accounts/TwoFactorPage.xaml.cs:100-149 | closing a subscribed YubiKey page pops the modal and leaves the subscription in place |
| PageProperties.RepeatedPushesEachSubmit | src/App/Pages/Accounts/TwoFactorPage.xaml.cs:63-74 | two accepted pushes of the same token on a subscribed YubiKey page issue two submits: pushes are not deduplicated |
| PageProperties.SwitchAwayIgnoresPushes | src/App/Pages/Accounts/TwoFactorPage.xaml.cs:66 | after switching away from YubiKey, a pushed token issues nothing |
| PostAuthRouter.Lookup | src/App/Pages/Accounts/TwoFactorPage.xaml.cs:177 | reading the previous-page key gives the stored record, or null when absent |
| PostAuthRouter.Route | src/App/Pages/Accounts/TwoFactorPage.xaml.cs:162-183 | autofill with save type goes to add/edit, else a URI goes to the autofill list, both without storage calls; else one read, a removal iff found, and tabs with (options, record) |
| PostAuthRouter.SaveTypeBeatsUri | src/App/Pages/Accounts/TwoFactorPage.xaml.cs:166-170 | with the autofill flag and a save type, any URI whatever routes to add/edit without touching storage |
| PostAuthRouter.StorageTouchedOnlyOnFallback | src/App/Pages/Accounts/TwoFactorPage.xaml.cs:164-181 | storage is read iff the destination is tabs, and read first; removal happens iff a record was found; no other key is affected |
| PostAuthRouter.PreviousPageReadOnce | src/App/Pages/Accounts/TwoFactorPage.xaml.cs:177-181 | after a fallback, routing again finds no record, removes nothing and leaves storage unchanged |

## Left out

- Xamarin view plumbing is not modelled: `InitializeComponent`, `SetActivityIndicator`, the toolbar add/remove helpers (`AddContinueButton`, `RemoveContinueButton`, the Android cancel item), `DuoWebView`, and the mechanics of `RequestFocus` and `LoadOnAppearedAsync`. They are view-layer code; the init callback is taken to run during the first appearing.
- `ServiceContainer.Resolve` and the concrete broadcaster, messaging and storage services are left out. They are foreign code, and they appear only as effects and a key-value map.
- `Device.BeginInvokeOnMainThread` and the `async void` handlers are left out. The push handler's deferred store-and-submit is applied at once, in order, and concurrency is not modelled.
- View-model internals are left out: `Init`, `SubmitAsync`, `AnotherMethodAsync`, `SendEmailAsync`, how providers map to the `YubikeyMethod`/`TotpMethod` flags, and the implementation of `DoOnce()`. The view model's code is outside this model. The `MethodChanged` and `TokenEdited` events stand for the view model changing those fields.
- The wiring of `TwoFactorAction` to the router (line 32) is not modelled. `Route` is modelled on its own, and actual navigation and page construction become a `Destination` value.
- A broadcast `Data` that is not a string makes the cast throw. It is not modelled: payloads are a string or null.
- Token length is counted in Unicode scalar values, not UTF-16 code units. The two agree for YubiKey OTPs, which are ASCII.
- `Constants.PreviousPageKey` is not part of this model, so its value `"previousPage"` is assumed. No property depends on it.
- The save-type enum is carried as its numeric value. Fields of the app options that the router does not read are left out.
- This model has no token clearing on method switch, no submission-in-flight guard, and no check that drops a late submit result after dismissal, because the page's code has none of them.
- TwoFactorPage.AppearingSubscribesThenInits: `Init()` is taken to leave the method and token unchanged. The source reads `TotpMethod` after the opaque `Init()` call (line 91), but the model decides focus on the method held before the first appearing.
