/**
 The code-behind of the two-factor page as a state machine. A page state plus
 one page event gives the next state and the effects the handler issues, in
 order: broadcaster subscribe and unsubscribe calls, messages sent to the
 hardware-key listener, and calls into the view model, which this model does
 not look inside.

 The collaborators are abstract. The broadcaster delivers a message only while
 the page is subscribed, and subscribing again under the same key replaces the
 registration instead of adding a second one. `DoOnce()` of the base page is
 the `granted` flag of each button event. Handlers run synchronously and in
 order, with no interleaving.
 */
module TwoFactorPage {
  import opened Wrappers
  import PushedToken
  import Traces

  /** The active two-factor provider. It replaces the view model's boolean
      flags, so they cannot contradict each other. `Totp` is whatever provider
      the view model reports through `TotpMethod`. */
  datatype Method = Totp | Email | YubiKey | Duo | OtherMethod

  /** The view model's `YubikeyMethod` flag. */
  predicate YubikeyMethod(m: Method) {
    m.YubiKey?
  }

  /** The view model's `TotpMethod` flag. */
  predicate TotpMethod(m: Method) {
    m.Totp?
  }

  /** `nameof(TwoFactorPage)`: the one key the page subscribes under. */
  const PageKey: string := "TwoFactorPage"
  /** Broadcast command that carries a pushed OTP. */
  const GotOtpCommand: string := "gotYubiKeyOTP"
  /** Broadcast command asking the page to restart the hardware-key listener. */
  const ResumeCommand: string := "resumeYubiKey"
  /** Message that switches the hardware-key listener on or off. */
  const ListenCommand: string := "listenYubiKeyOTP"

  /** A broadcast message. `data` is the payload cast to a string; `None` is null. */
  datatype Message = Message(command: string, data: Option<string>)

  /** What a handler does that can be seen from outside the page. */
  datatype Effect =
    | Subscribe(key: string)                      // broadcaster subscription
    | Unsubscribe(key: string)                    // broadcaster unsubscription
    | Send(command: string, enabled: bool)        // messaging service send
    | InitViewModel                               // view model Init()
    | FocusTotpEntry                              // RequestFocus on the code field
    | Submit(token: string)                       // view model SubmitAsync(), with its Token at the time
    | AnotherMethod                               // view model AnotherMethodAsync()
    | SendEmail(first: bool, second: bool)        // view model SendEmailAsync(first, second)
    | PopModal                                    // navigation PopModalAsync()

  /** The page's own state together with the two view-model fields it reads or
      writes. `subscribed` is the broadcaster's view of the page's key. */
  datatype PageState = PageState(provider: Method, token: string, inited: bool, subscribed: bool)

  /** A freshly constructed page: not inited, not subscribed, no token yet. */
  function NewPage(m: Method): (s: PageState)
    ensures s.provider == m && !s.inited && !s.subscribed
  {
    PageState(m, "", false, false)
  }

  /** Everything that can happen to the page. Button events carry the answer
      `DoOnce()` gave; `BackPressed` carries what the base page's handler
      returns. `MethodChanged` and `TokenEdited` stand for the view model
      changing its provider or its token (a method switch, typing into the code
      field); they issue no effects of their own. */
  datatype Event =
    | Appearing
    | Disappearing
    | BackPressed(baseResult: bool)
    | Broadcast(message: Message)
    | ContinueClicked(granted: bool)
    | MethodsClicked(granted: bool)
    | ResendEmailClicked(granted: bool)
    | CloseClicked(granted: bool)
    | TryAgainClicked(granted: bool)
    | MethodChanged(newMethod: Method)
    | TokenEdited(newToken: string)

  /** The next state, the effects in issue order, and the handler's return
      value (only the back-button handler returns one). */
  datatype Outcome = Outcome(next: PageState, effects: seq<Effect>, returned: Option<bool>)

  /** The teardown pair: stop the hardware-key listener, then unsubscribe. */
  const Teardown: seq<Effect> := [Send(ListenCommand, false), Unsubscribe(PageKey)]

  /** The full guard on a pushed token: YubiKey active and a well-formed payload. */
  predicate AcceptsPushedToken(m: Method, data: Option<string>) {
    YubikeyMethod(m) && PushedToken.Accepts(data)
  }

  /** An effect is a broadcaster call. */
  predicate IsSubscription(e: Effect) {
    e.Subscribe? || e.Unsubscribe?
  }

  /** The subscription handler installed by `OnAppearing`, applied to one
      delivered message. The token is stored before the submit is issued, so
      the submit carries the stored token. */
  function OnBroadcast(s: PageState, msg: Message): Outcome {
    if msg.command == GotOtpCommand then
      if YubikeyMethod(s.provider) && !PushedToken.IsNullOrWhiteSpace(msg.data)
         && |msg.data.value| == PushedToken.OtpLength && !PushedToken.ContainsSpace(msg.data.value)
      then
        var s' := s.(token := msg.data.value);
        Outcome(s', [Submit(s'.token)], None)
      else
        Outcome(s, [], None)
    else if msg.command == ResumeCommand then
      if YubikeyMethod(s.provider) then Outcome(s, [Send(ListenCommand, true)], None)
      else Outcome(s, [], None)
    else
      Outcome(s, [], None)
  }

  /** A delivered `gotYubiKeyOTP` is submitted once, with the stored token equal
      to the pushed one, exactly when the full guard holds; otherwise nothing
      changes and nothing is issued. */
  lemma PushedTokenHandling(s: PageState, data: Option<string>)
    ensures AcceptsPushedToken(s.provider, data) ==>
              OnBroadcast(s, Message(GotOtpCommand, data)) == Outcome(s.(token := data.value), [Submit(data.value)], None)
    ensures !AcceptsPushedToken(s.provider, data) ==>
              OnBroadcast(s, Message(GotOtpCommand, data)) == Outcome(s, [], None)
  {
  }

  /** A delivered `resumeYubiKey` restarts the listener iff the method is
      YubiKey; any command other than the two handled ones does nothing. */
  lemma OtherCommandHandling(s: PageState, msg: Message)
    requires msg.command != GotOtpCommand
    ensures OnBroadcast(s, msg).next == s && OnBroadcast(s, msg).returned.None?
    ensures msg.command == ResumeCommand ==>
              OnBroadcast(s, msg).effects == (if YubikeyMethod(s.provider) then [Send(ListenCommand, true)] else [])
    ensures msg.command != ResumeCommand ==> OnBroadcast(s, msg).effects == []
  {
  }

  /** `OnAppearing`: subscribe under the page key every time, then run the
      one-time init (view-model init, and focus on the code field for TOTP). */
  function OnAppearing(s: PageState): Outcome {
    var init :=
      if !s.inited then [InitViewModel] + (if TotpMethod(s.provider) then [FocusTotpEntry] else [])
      else [];
    Outcome(s.(inited := true, subscribed := true), [Subscribe(PageKey)] + init, None)
  }

  /** Every appearing subscribes first, whatever the method; the init runs only
      on a page not yet inited, and focus is requested only for TOTP. */
  lemma AppearingSubscribesThenInits(s: PageState)
    ensures OnAppearing(s).next == s.(inited := true, subscribed := true)
    ensures OnAppearing(s).returned.None?
    ensures |OnAppearing(s).effects| > 0 && OnAppearing(s).effects[0] == Subscribe(PageKey)
    ensures Subscribe(PageKey) !in OnAppearing(s).effects[1..]
    ensures InitViewModel in OnAppearing(s).effects <==> !s.inited
    ensures FocusTotpEntry in OnAppearing(s).effects <==> !s.inited && TotpMethod(s.provider)
  {
  }

  /** `OnDisappearing`: tear down only when the method is NOT YubiKey. */
  function OnDisappearing(s: PageState): Outcome {
    if !YubikeyMethod(s.provider) then Outcome(s.(subscribed := false), Teardown, None)
    else Outcome(s, [], None)
  }

  /** `OnBackButtonPressed`: tear down only when the method IS YubiKey, and
      return whatever the base page returns. */
  function OnBackButtonPressed(s: PageState, baseResult: bool): Outcome {
    if YubikeyMethod(s.provider) then Outcome(s.(subscribed := false), Teardown, Some(baseResult))
    else Outcome(s, [], Some(baseResult))
  }

  /** The two teardown guards are complementary: disappearing tears down
      exactly for the methods back-press leaves alone. Back-press always
      returns the base result. */
  lemma TeardownGuardsAreComplementary(s: PageState, baseResult: bool)
    ensures OnDisappearing(s).returned.None?
    ensures OnBackButtonPressed(s, baseResult).returned == Some(baseResult)
    ensures OnDisappearing(s).effects == (if YubikeyMethod(s.provider) then [] else Teardown)
    ensures OnBackButtonPressed(s, baseResult).effects == (if YubikeyMethod(s.provider) then Teardown else [])
    ensures OnDisappearing(s).next.subscribed <==> s.subscribed && YubikeyMethod(s.provider)
    ensures OnBackButtonPressed(s, baseResult).next.subscribed <==> s.subscribed && !YubikeyMethod(s.provider)
    ensures OnDisappearing(s).next.(subscribed := s.subscribed) == s
    ensures OnBackButtonPressed(s, baseResult).next.(subscribed := s.subscribed) == s
  {
  }

  /** A button handler whose whole body is `if (DoOnce()) action;`. */
  function Gated(s: PageState, granted: bool, action: Effect): Outcome {
    Outcome(s, if granted then [action] else [], None)
  }

  /** `TryAgain_Clicked`: restart the listener when granted and on YubiKey. */
  function OnTryAgain(s: PageState, granted: bool): Outcome {
    if granted && YubikeyMethod(s.provider) then Outcome(s, [Send(ListenCommand, true)], None)
    else Outcome(s, [], None)
  }

  /** One event applied to the page. A broadcast reaches the handler only
      while the page is subscribed. */
  function Step(s: PageState, ev: Event): Outcome {
    match ev
    case Appearing => OnAppearing(s)
    case Disappearing => OnDisappearing(s)
    case BackPressed(b) => OnBackButtonPressed(s, b)
    case Broadcast(msg) => if s.subscribed then OnBroadcast(s, msg) else Outcome(s, [], None)
    case ContinueClicked(g) => Gated(s, g, Submit(s.token))
    case MethodsClicked(g) => Gated(s, g, AnotherMethod)
    case ResendEmailClicked(g) => Gated(s, g, SendEmail(true, true))
    case CloseClicked(g) => Gated(s, g, PopModal)
    case TryAgainClicked(g) => OnTryAgain(s, g)
    case MethodChanged(m) => Outcome(s.(provider := m), [], None)
    case TokenEdited(t) => Outcome(s.(token := t), [], None)
  }

  /** The button events: each does its one action only when `DoOnce()` grants
      it, and none of them changes the page state. Try-again additionally
      needs the YubiKey method. */
  lemma ButtonsNeedDoOnce(s: PageState, granted: bool)
    ensures Step(s, ContinueClicked(granted)) == Outcome(s, if granted then [Submit(s.token)] else [], None)
    ensures Step(s, MethodsClicked(granted)) == Outcome(s, if granted then [AnotherMethod] else [], None)
    ensures Step(s, ResendEmailClicked(granted)) == Outcome(s, if granted then [SendEmail(true, true)] else [], None)
    ensures Step(s, CloseClicked(granted)) == Outcome(s, if granted then [PopModal] else [], None)
    ensures Step(s, TryAgainClicked(granted)) ==
              Outcome(s, if granted && YubikeyMethod(s.provider) then [Send(ListenCommand, true)] else [], None)
  {
  }

  /** The state part of a step: `_inited` becomes true on appearing and is
      never reset, the method changes only when the view model switches it,
      only the back-button handler returns a value, and at most three effects
      are issued. */
  lemma StepStateFacts(s: PageState, ev: Event)
    ensures Step(s, ev).next.inited == (s.inited || ev.Appearing?)
    ensures Step(s, ev).next.provider == (if ev.MethodChanged? then ev.newMethod else s.provider)
    ensures Step(s, ev).returned.Some? <==> ev.BackPressed?
    ensures |Step(s, ev).effects| <= 3
  {
  }

  /** Every broadcaster call a step makes uses the page key. */
  lemma StepUsesPageKey(s: PageState, ev: Event)
    ensures forall e :: e in Step(s, ev).effects && IsSubscription(e) ==> e.key == PageKey
  {
  }

  /** The only message a step sends is the listener switch, and it is switched
      on only while the method is YubiKey. */
  lemma StepListensOnlyOnYubiKey(s: PageState, ev: Event)
    ensures forall e :: e in Step(s, ev).effects && e.Send? ==>
              e.command == ListenCommand && (e.enabled ==> YubikeyMethod(s.provider))
  {
  }

  /** A submit comes only from a granted continue, carrying the current token,
      or from an accepted push delivered to a subscribed page, carrying the
      token it just stored. */
  lemma StepSubmitSources(s: PageState, ev: Event)
    ensures forall e :: e in Step(s, ev).effects && e.Submit? ==>
              || (ev == ContinueClicked(true) && e.token == s.token)
              || (ev.Broadcast? && s.subscribed && ev.message.command == GotOtpCommand
                  && AcceptsPushedToken(s.provider, ev.message.data) && e.token == Step(s, ev).next.token)
  {
  }

  /** `Step` in the shape runs are built from. */
  function StepTrace(s: PageState, ev: Event): Traces.Trace<PageState, Effect> {
    var o := Step(s, ev);
    Traces.Trace(o.next, o.effects)
  }

  /** The state reached and every effect issued over a sequence of events. */
  function Run(s: PageState, evs: seq<Event>): Traces.Trace<PageState, Effect> {
    Traces.Run(StepTrace, s, evs)
  }
}
