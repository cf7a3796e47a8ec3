/**
 Properties of the two-factor page over whole sequences of events: the
 one-time init, the single subscription key, where submits come from, what a
 page that is not subscribed does with broadcasts, and how the asymmetric
 teardown guards of `OnDisappearing` and `OnBackButtonPressed` combine.
 */
module PageProperties {
  import opened Wrappers
  import PushedToken
  import Traces
  import opened TwoFactorPage

  /** Number of occurrences of `x` in `xs`. */
  function Count<T(==)>(xs: seq<T>, x: T): (n: nat)
    ensures n <= |xs|
    ensures n == 0 <==> x !in xs
  {
    if |xs| == 0 then 0 else (if xs[0] == x then 1 else 0) + Count(xs[1..], x)
  }

  /** Number of `Submit` effects, whatever token they carry. */
  function Submits(effs: seq<Effect>): (n: nat)
    ensures n <= |effs|
    ensures n == 0 <==> forall e :: e in effs ==> !e.Submit?
  {
    if |effs| == 0 then 0 else (if effs[0].Submit? then 1 else 0) + Submits(effs[1..])
  }

  /** An event that can issue a submit: a granted continue, or a
      `gotYubiKeyOTP` broadcast. */
  predicate SubmitTrigger(ev: Event) {
    ev == ContinueClicked(true) || (ev.Broadcast? && ev.message.command == GotOtpCommand)
  }

  /** Number of submit triggers in `evs`. */
  function Triggers(evs: seq<Event>): (n: nat)
    ensures n <= |evs|
  {
    if |evs| == 0 then 0 else (if SubmitTrigger(evs[0]) then 1 else 0) + Triggers(evs[1..])
  }

  lemma {:induction false} CountAppend<T>(a: seq<T>, b: seq<T>, x: T)
    ensures Count(a + b, x) == Count(a, x) + Count(b, x)
    decreases |a|
  {
    if |a| == 0 {
      assert a + b == b;
    } else {
      assert (a + b)[1..] == a[1..] + b;
      CountAppend(a[1..], b, x);
    }
  }

  lemma {:induction false} SubmitsAppend(a: seq<Effect>, b: seq<Effect>)
    ensures Submits(a + b) == Submits(a) + Submits(b)
    decreases |a|
  {
    if |a| == 0 {
      assert a + b == b;
    } else {
      assert (a + b)[1..] == a[1..] + b;
      SubmitsAppend(a[1..], b);
    }
  }

  /** `Traces.RunCons` for the page: a non-empty run is the first step, then the rest. */
  lemma RunCons(s: PageState, evs: seq<Event>)
    requires |evs| > 0
    ensures Run(s, evs).final == Run(Step(s, evs[0]).next, evs[1..]).final
    ensures Run(s, evs).effects == Step(s, evs[0]).effects + Run(Step(s, evs[0]).next, evs[1..]).effects
  {
    Traces.RunCons(StepTrace, s, evs);
  }

  /** One step issues the view-model init exactly when it is the first appearing. */
  lemma StepInitCount(s: PageState, ev: Event)
    ensures Count(Step(s, ev).effects, InitViewModel) == (if ev.Appearing? && !s.inited then 1 else 0)
  {
    var effs := Step(s, ev).effects;
    if ev.Appearing? && !s.inited {
      assert effs[0] == Subscribe(PageKey) && effs[1] == InitViewModel;
      assert forall i :: 2 <= i < |effs| ==> effs[i] == FocusTotpEntry;
      assert Count(effs[2..], InitViewModel) == 0;
      assert effs[1..][1..] == effs[2..];
    } else {
      assert InitViewModel !in effs;
    }
  }

  /** `_inited` goes from false to true on the first appearing and is never
      reset afterwards. */
  lemma {:induction false} InitedAfterRun(s: PageState, evs: seq<Event>)
    ensures Run(s, evs).final.inited <==> s.inited || Appearing in evs
    decreases |evs|
  {
    if |evs| > 0 {
      RunCons(s, evs);
      StepStateFacts(s, evs[0]);
      InitedAfterRun(Step(s, evs[0]).next, evs[1..]);
      assert evs == [evs[0]] + evs[1..];
    }
  }

  /** Over any sequence of events, the view-model init runs once if the page
      was not inited and appears at least once, and never otherwise. */
  lemma {:induction false} InitRunsAtMostOnce(s: PageState, evs: seq<Event>)
    ensures Count(Run(s, evs).effects, InitViewModel) == (if !s.inited && Appearing in evs then 1 else 0)
    decreases |evs|
  {
    if |evs| > 0 {
      var o := Step(s, evs[0]);
      RunCons(s, evs);
      StepInitCount(s, evs[0]);
      StepStateFacts(s, evs[0]);
      InitRunsAtMostOnce(o.next, evs[1..]);
      CountAppend(o.effects, Run(o.next, evs[1..]).effects, InitViewModel);
      assert evs == [evs[0]] + evs[1..];
    }
  }

  /** Over the whole life of a page, from construction on, the view-model init
      runs exactly once if the page ever appears and never otherwise. */
  lemma PageLifetimeInitOnce(m: Method, evs: seq<Event>)
    ensures Count(Run(NewPage(m), evs).effects, InitViewModel) == (if Appearing in evs then 1 else 0)
    ensures Run(NewPage(m), evs).final.inited <==> Appearing in evs
  {
    InitRunsAtMostOnce(NewPage(m), evs);
    InitedAfterRun(NewPage(m), evs);
  }

  /** Every broadcaster call the page ever makes uses the single key
      `nameof(TwoFactorPage)`. */
  lemma {:induction false} SubscriptionKeyIsFixed(s: PageState, evs: seq<Event>)
    ensures forall e :: e in Run(s, evs).effects && IsSubscription(e) ==> e.key == PageKey
    decreases |evs|
  {
    if |evs| > 0 {
      var o := Step(s, evs[0]);
      RunCons(s, evs);
      StepUsesPageKey(s, evs[0]);
      SubscriptionKeyIsFixed(o.next, evs[1..]);
    }
  }

  /** One step issues at most one submit, and only on a submit trigger. */
  lemma StepSubmits(s: PageState, ev: Event)
    ensures Submits(Step(s, ev).effects) <= (if SubmitTrigger(ev) then 1 else 0)
  {
  }

  /** Over any sequence of events, the page submits at most once per granted
      continue or pushed-token broadcast. */
  lemma {:induction false} SubmitsBoundedByTriggers(s: PageState, evs: seq<Event>)
    ensures Submits(Run(s, evs).effects) <= Triggers(evs)
    decreases |evs|
  {
    if |evs| > 0 {
      var o := Step(s, evs[0]);
      RunCons(s, evs);
      StepSubmits(s, evs[0]);
      SubmitsBoundedByTriggers(o.next, evs[1..]);
      SubmitsAppend(o.effects, Run(o.next, evs[1..]).effects);
    }
  }

  /** A page that is not subscribed ignores every broadcast: nothing changes
      and nothing is issued. */
  lemma {:induction false} IgnoredWhileUnsubscribed(s: PageState, evs: seq<Event>)
    requires !s.subscribed
    requires forall i :: 0 <= i < |evs| ==> evs[i].Broadcast?
    ensures Run(s, evs) == Traces.Trace(s, [])
    decreases |evs|
  {
    if |evs| > 0 {
      RunCons(s, evs);
      assert Step(s, evs[0]) == Outcome(s, [], None);
      IgnoredWhileUnsubscribed(s, evs[1..]);
    }
  }

  /** Whatever happened before, appearing leaves the page subscribed and inited. */
  lemma AppearingResubscribes(s: PageState, evs: seq<Event>)
    ensures Run(s, evs + [Appearing]).final.subscribed
    ensures Run(s, evs + [Appearing]).final.inited
  {
    Traces.RunAppend(StepTrace, s, evs, [Appearing]);
    Traces.RunSingle(StepTrace, Run(s, evs).final, Appearing);
  }

  /** Without the YubiKey method, a step never switches the listener on and
      submits only on a granted continue. */
  lemma StepWithoutYubiKey(s: PageState, ev: Event)
    requires !YubikeyMethod(s.provider)
    ensures Send(ListenCommand, true) !in Step(s, ev).effects
    ensures Submits(Step(s, ev).effects) <= (if ev == ContinueClicked(true) then 1 else 0)
  {
  }

  /** On a page that never runs the YubiKey method, the listener is never
      switched on and every submit comes from a granted continue. */
  lemma {:induction false} NoYubiKeyNoPushedSubmit(s: PageState, evs: seq<Event>)
    requires !YubikeyMethod(s.provider)
    requires forall i :: 0 <= i < |evs| ==> evs[i] != MethodChanged(YubiKey)
    ensures Send(ListenCommand, true) !in Run(s, evs).effects
    ensures Submits(Run(s, evs).effects) <= Count(evs, ContinueClicked(true))
    decreases |evs|
  {
    if |evs| > 0 {
      var o := Step(s, evs[0]);
      var rest := Run(o.next, evs[1..]);
      RunCons(s, evs);
      StepWithoutYubiKey(s, evs[0]);
      StepStateFacts(s, evs[0]);
      NoYubiKeyNoPushedSubmit(o.next, evs[1..]);
      SubmitsAppend(o.effects, rest.effects);
      assert evs == [evs[0]] + evs[1..];
      CountAppend([evs[0]], evs[1..], ContinueClicked(true));
    }
  }

  /** Back-press followed by the disappearing that the pop causes always ends
      unsubscribed, with exactly one stop message and one unsubscribe, for
      every method: the two guards are complementary. */
  lemma BackThenDisappearTearsDownOnce(s: PageState, b: bool)
    ensures !Run(s, [BackPressed(b), Disappearing]).final.subscribed
    ensures Run(s, [BackPressed(b), Disappearing]).effects == Teardown
  {
    Traces.RunPair(StepTrace, s, BackPressed(b), Disappearing);
  }

  /** With YubiKey active, disappearing leaves the subscription in place: a
      valid token pushed afterwards is still submitted. */
  lemma YubiKeyDisappearKeepsSubscription(s: PageState, t: string)
    requires s.subscribed && YubikeyMethod(s.provider)
    requires PushedToken.Accepts(Some(t))
    ensures Run(s, [Disappearing, Broadcast(Message(GotOtpCommand, Some(t)))]).effects == [Submit(t)]
    ensures Run(s, [Disappearing, Broadcast(Message(GotOtpCommand, Some(t)))]).final.subscribed
  {
    Traces.RunPair(StepTrace, s, Disappearing, Broadcast(Message(GotOtpCommand, Some(t))));
    assert Step(s, Disappearing) == Outcome(s, [], None);
    PushedTokenHandling(s, Some(t));
  }

  /** Closing a subscribed YubiKey page through the close button pops the
      modal, and the disappearing that follows tears nothing down: the
      subscription outlives the page. */
  lemma CloseOnYubiKeyKeepsSubscription(s: PageState)
    requires s.subscribed && YubikeyMethod(s.provider)
    ensures Run(s, [CloseClicked(true), Disappearing]) == Traces.Trace(s, [PopModal])
  {
  }

  /** Pushed tokens are not deduplicated: the same accepted token pushed twice
      to a subscribed YubiKey page is submitted twice. */
  lemma RepeatedPushesEachSubmit(s: PageState, t: string)
    requires s.subscribed && YubikeyMethod(s.provider)
    requires PushedToken.Accepts(Some(t))
    ensures Run(s, [Broadcast(Message(GotOtpCommand, Some(t))), Broadcast(Message(GotOtpCommand, Some(t)))]).effects
            == [Submit(t), Submit(t)]
  {
    var push := Broadcast(Message(GotOtpCommand, Some(t)));
    Traces.RunPair(StepTrace, s, push, push);
    PushedTokenHandling(s, Some(t));
    PushedTokenHandling(s.(token := t), Some(t));
  }

  /** After the view model switches away from YubiKey, a pushed token is no
      longer submitted, although no stop message was sent. */
  lemma SwitchAwayIgnoresPushes(s: PageState, m: Method, data: Option<string>)
    requires !YubikeyMethod(m)
    ensures Run(s, [MethodChanged(m), Broadcast(Message(GotOtpCommand, data))]).effects == []
  {
    Traces.RunPair(StepTrace, s, MethodChanged(m), Broadcast(Message(GotOtpCommand, data)));
    PushedTokenHandling(s.(provider := m), data);
  }
}
