/** The revision built around one `Adapter` class shared by all formats
    (Adapter.swift with Banner.swift, Interstitial.swift, Rewarded.swift). The
    host's load completion is stored before the bid payload is checked, and no
    terminal partner callback ever empties the slot: a repeated callback delivers
    again. Banners take their size class from closed bands but their frame from
    half-open ones.
 */
module SharedAdapter {
  import opened Common
  import BannerSize

  /** One adapter object: its request, the host-side PartnerAd wrapper (around a
      nil ad until a load creates one), the weakly held host delegate, and the
      stored load and show completions. `replacedAdAttached` records that a load
      replaced an ad that still had this adapter as its delegate: the partner can
      still call back through that ad. `init` ignores the adapter it is given. */
  datatype Session = Session(
    request: LegacyRequest,
    partnerAd: Option<PartnerAd>,
    delegate: Option<DelegateId>,
    loadCompletion: Option<Token>,
    showCompletion: Option<Token>,
    replacedAdAttached: bool)

  datatype Input =
    | HostLoad(token: Token)
    | HostShow(token: Token)
    | HostInvalidate(token: Token)
    | Partner(event: PartnerEvent)
    | ValidityChanged(valid: bool)
    | DelegateReleased

  function Init(request: LegacyRequest, delegate: DelegateId): (s: Session)
    ensures s.request == request && s.delegate == Some(delegate)
    ensures s.partnerAd.None? && s.loadCompletion.None? && s.showCompletion.None?
    ensures !Listening(s)
    ensures Invariant(s)
  {
    Session(request, None, Some(delegate), None, None, false)
  }

  /** The current partner ad has this adapter as its delegate. */
  predicate Attached(s: Session) {
    s.partnerAd.Some? && s.partnerAd.value.delegateAttached
  }

  /** Some partner ad this adapter created still has it as its delegate, so the
      partner SDK can call it back. */
  predicate Listening(s: Session) {
    Attached(s) || s.replacedAdAttached
  }

  /** What every reachable session satisfies: an ad exists only when the request
      carries a bid payload, it is of the class the format is served by and has a
      layout exactly when it is a banner, and an earlier ad can only have been
      replaced by a current one. `request` is a `let`, so a session without a bid
      payload never creates an ad and is never called back. */
  predicate Invariant(s: Session) {
    && (s.partnerAd.Some? ==>
          && HasBidPayload(s.request)
          && s.partnerAd.value.kind == KindFor(s.request.format)
          && (s.partnerAd.value.layout.Some? <==> s.request.format == Banner))
    && (s.replacedAdAttached ==> s.partnerAd.Some?)
  }

  /** A new partner ad: banners get this revision's layout, whose frame can
      disagree with its size class. */
  function NewAd(r: LegacyRequest): (a: PartnerAd)
    ensures a.kind == KindFor(r.format) && !a.valid && a.delegateAttached
    ensures a.layout.Some? <==> r.format == Banner
    ensures a.layout.Some? ==> (BannerSize.Consistent(a.layout.value) <==> r.height != Some(249.0))
  {
    if r.format == Banner then
      BannerSize.LayoutConsistentExceptSharedAt249(BannerSize.SharedAdapterRev, r.height);
      PartnerAd(AdView, false, true, Some(BannerSize.LayoutFor(BannerSize.SharedAdapterRev, r.height)))
    else
      PartnerAd(KindFor(r.format), false, true, None)
  }

  /** `load(viewController:completion:)` and the format's loader. The completion
      is stored first, so it stays pending even when the missing bid payload makes
      the loader fail at once with a plain load failure; in that case no ad is
      created. Otherwise a new ad of the format's class replaces the PartnerAd and
      the partner is asked to load exactly the bid payload. */
  function Load(s: Session, token: Token): (r: Step<Session>)
    ensures r.state.request == s.request && r.state.delegate == s.delegate
    ensures r.state.showCompletion == s.showCompletion
    ensures r.state.loadCompletion == Some(token)
    ensures !HasBidPayload(s.request) ==>
              && r.state == s.(loadCompletion := Some(token))
              && r.out == [Completed(token, LoadPhase, Failed(LoadFailure(None)))]
    ensures HasBidPayload(s.request) ==>
              && r.state.partnerAd == Some(NewAd(s.request))
              && Attached(r.state)
              && (r.state.replacedAdAttached <==> Listening(s))
              && r.out == [Called(LoadWithBidPayload(KindFor(s.request.format), s.request.adm.value))]
  {
    var stored := s.(loadCompletion := Some(token));
    if !HasBidPayload(s.request) then
      Step(stored, [Completed(token, LoadPhase, Failed(LoadFailure(None)))])
    else
      var ad := NewAd(s.request);
      Step(stored.(partnerAd := Some(ad), replacedAdAttached := Listening(s)),
           [Called(LoadWithBidPayload(ad.kind, BidPayload(s.request)))])
  }

  /** The PartnerAd wraps an ad of the class the request's format is served by. */
  predicate HoldsOwnKind(s: Session) {
    s.partnerAd.Some? && s.partnerAd.value.kind == KindFor(s.request.format)
  }

  /** `show(viewController:completion:)`: the completion is stored and receives
      exactly one result. A banner succeeds at once with the PartnerAd. A
      fullscreen ad is presented and succeeds exactly when the PartnerAd wraps a
      valid ad of the format's class; otherwise `showFailure`, without presenting. */
  function Show(s: Session, token: Token): (r: Step<Session>)
    ensures r.state == s.(showCompletion := Some(token))
    ensures Deliveries(r.out, token, ShowPhase) == 1
    ensures s.request.format == Banner ==> r.out == [Completed(token, ShowPhase, Succeeded(WrapAd(s.partnerAd)))]
    ensures s.request.format != Banner && HoldsOwnKind(s) && s.partnerAd.value.valid ==>
              r.out == [Called(Present(s.partnerAd.value.kind)), Completed(token, ShowPhase, Succeeded(WrapAd(s.partnerAd)))]
    ensures s.request.format != Banner && !(HoldsOwnKind(s) && s.partnerAd.value.valid) ==>
              r.out == [Completed(token, ShowPhase, Failed(ShowFailure))]
    ensures AnyPresent(r.out) <==> s.request.format != Banner && HoldsOwnKind(s) && s.partnerAd.value.valid
  {
    var stored := s.(showCompletion := Some(token));
    if s.request.format == Banner then
      Step(stored, [Completed(token, ShowPhase, Succeeded(WrapAd(s.partnerAd)))])
    else if HoldsOwnKind(s) && s.partnerAd.value.valid then
      var out := [Called(Present(s.partnerAd.value.kind)), Completed(token, ShowPhase, Succeeded(WrapAd(s.partnerAd)))];
      assert out[0].Called? && out[0].call.Present?;
      Step(stored, out)
    else
      Step(stored, [Completed(token, ShowPhase, Failed(ShowFailure))])
  }

  /** `invalidate(completion:)` and the format's destroyer: it succeeds exactly
      when the PartnerAd wraps an ad of the format's class, and then only detaches
      that ad's delegate; the ad stays in the PartnerAd. Otherwise
      `invalidateFailure` and nothing changes. */
  function Invalidate(s: Session, token: Token): (r: Step<Session>)
    ensures r.state.request == s.request && r.state.delegate == s.delegate
    ensures r.state.loadCompletion == s.loadCompletion && r.state.showCompletion == s.showCompletion
    ensures r.state.partnerAd.Some? <==> s.partnerAd.Some?
    ensures r.state.replacedAdAttached == s.replacedAdAttached
    ensures HoldsOwnKind(s) ==>
              && r.state.partnerAd == Some(s.partnerAd.value.(delegateAttached := false))
              && !Attached(r.state)
              && r.out == [Completed(token, InvalidatePhase, Succeeded(WrapAd(s.partnerAd)))]
    ensures !HoldsOwnKind(s) ==>
              r.state == s && r.out == [Completed(token, InvalidatePhase, Failed(InvalidateFailure))]
  {
    if HoldsOwnKind(s) then
      var detached := s.partnerAd.value.(delegateAttached := false);
      Step(s.(partnerAd := Some(detached)), [Completed(token, InvalidatePhase, Succeeded(WrapAd(Some(detached))))])
    else
      Step(s, [Completed(token, InvalidatePhase, Failed(InvalidateFailure))])
  }

  /** Forward to the host delegate if it is alive; otherwise drop the event silently. */
  function Forward(s: Session, event: HostEvent): (r: Step<Session>)
    ensures r.state == s
    ensures s.delegate.Some? ==> r.out == [Forwarded(s.delegate.value, event)]
    ensures s.delegate.None? ==> r.out == []
  {
    match s.delegate
    case Some(d) => Step(s, [Forwarded(d, event)])
    case None => Step(s, [])
  }

  /** The partner delegate callbacks. They reach the adapter only while some ad
      it created still has it as delegate, and no callback changes the session: a
      terminal load callback calls whatever completion is stored (and nothing
      when none is), impressions, clicks and closes are forwarded to the host
      delegate, `videoComplete` forwards a zero reward with an empty label, and
      `willClose` and the server-reward callbacks do nothing. */
  function OnPartner(s: Session, e: PartnerEvent): (r: Step<Session>)
    ensures r.state == s
    ensures !Listening(s) ==> r.out == []
    ensures !Declares(s.request.format, e) ==> r.out == []
    ensures e.DidLoad? && Listening(s) && s.loadCompletion.Some? ==>
              r.out == [Completed(s.loadCompletion.value, LoadPhase, Succeeded(WrapAd(s.partnerAd)))]
    ensures e.DidFail? && Listening(s) && s.loadCompletion.Some? ==>
              r.out == [Completed(s.loadCompletion.value, LoadPhase, Failed(LoadFailure(Some(e.error))))]
    ensures s.loadCompletion.None? ==> forall i :: 0 <= i < |r.out| ==> !r.out[i].Completed?
    ensures e == WillLogImpression && Listening(s) ==> r.out == Forward(s, DidTrackImpression).out
    ensures e == DidClickAd && Listening(s) ==> r.out == Forward(s, DidClick).out
    ensures e == DidClose && Listening(s) && s.request.format != Banner ==> r.out == Forward(s, DidDismiss).out
    ensures e == VideoComplete && Listening(s) && Declares(s.request.format, e) ==>
              r.out == Forward(s, DidReward(Some(Reward(0, "")))).out
    ensures s.delegate.None? && !(e.DidLoad? || e.DidFail?) ==> r.out == []
    ensures e in {WillClose, ServerRewardSucceeded, ServerRewardFailed} ==> r.out == []
  {
    if !Declares(s.request.format, e) || !Listening(s) then Step(s, [])
    else
      match e
      case DidLoad =>
        Step(s, if s.loadCompletion.Some? then [Completed(s.loadCompletion.value, LoadPhase, Succeeded(WrapAd(s.partnerAd)))] else [])
      case DidFail(pe) =>
        Step(s, if s.loadCompletion.Some? then [Completed(s.loadCompletion.value, LoadPhase, Failed(LoadFailure(Some(pe))))] else [])
      case WillLogImpression => Forward(s, DidTrackImpression)
      case DidClickAd => Forward(s, DidClick)
      case DidClose => Forward(s, DidDismiss)
      case WillClose => Step(s, [])
      case VideoComplete => Forward(s, DidReward(Some(Reward(0, ""))))
      case ServerRewardSucceeded => Step(s, [])
      case ServerRewardFailed => Step(s, [])
  }

  function Apply(s: Session, i: Input): (r: Step<Session>)
    ensures r.state.request == s.request
  {
    match i
    case HostLoad(t) => Load(s, t)
    case HostShow(t) => Show(s, t)
    case HostInvalidate(t) => Invalidate(s, t)
    case Partner(e) => OnPartner(s, e)
    case ValidityChanged(v) =>
      Step(if s.partnerAd.Some? then s.(partnerAd := Some(s.partnerAd.value.(valid := v))) else s, [])
    case DelegateReleased => Step(s.(delegate := None), [])
  }

  function Run(s: Session, inputs: seq<Input>): (r: Step<Session>)
    ensures r.state.request == s.request
    decreases |inputs|
  {
    if inputs == [] then Step(s, [])
    else
      var first := Apply(s, inputs[0]);
      var rest := Run(first.state, inputs[1..]);
      Step(rest.state, first.out + rest.out)
  }

  /** Every step keeps the session invariant. */
  lemma ApplyKeepsInvariant(s: Session, i: Input)
    requires Invariant(s)
    ensures Invariant(Apply(s, i).state)
  {
  }

  lemma {:induction false} RunKeepsInvariant(s: Session, inputs: seq<Input>)
    requires Invariant(s)
    ensures Invariant(Run(s, inputs).state)
    decreases |inputs|
  {
    if inputs != [] {
      ApplyKeepsInvariant(s, inputs[0]);
      RunKeepsInvariant(Apply(s, inputs[0]).state, inputs[1..]);
    }
  }

  /** The number of host loads for `t` in an input sequence. */
  function LoadsOf(inputs: seq<Input>, t: Token): nat {
    if inputs == [] then 0
    else (if inputs[0] == HostLoad(t) then 1 else 0) + LoadsOf(inputs[1..], t)
  }

  /** Without a bid payload no ad ever exists, so no partner callback arrives. */
  lemma NoPayloadNoCallbacks(s: Session, e: PartnerEvent)
    requires Invariant(s) && !HasBidPayload(s.request)
    ensures !Listening(s)
    ensures OnPartner(s, e) == Step(s, [])
  {
  }

  /** Without a bid payload one input answers a load completion `t` exactly when
      it is a load for `t`, which fails at once. */
  lemma NoPayloadApplyDeliveries(s: Session, i: Input, t: Token)
    requires Invariant(s) && !HasBidPayload(s.request)
    ensures LoadDeliveries(Apply(s, i).out, t) == (if i == HostLoad(t) then 1 else 0)
  {
    match i
    case HostLoad(t') =>
    case HostShow(t') =>
      assert Deliveries(Apply(s, i).out, t, LoadPhase) == 0;
    case HostInvalidate(t') =>
    case Partner(e) => NoPayloadNoCallbacks(s, e);
    case ValidityChanged(v) =>
    case DelegateReleased =>
  }

  /** Without a bid payload, over any run the load completions are answered only
      by the loads themselves, each exactly once. */
  lemma {:induction false} NoPayloadRunDeliveries(s: Session, inputs: seq<Input>, t: Token)
    requires Invariant(s) && !HasBidPayload(s.request)
    ensures LoadDeliveries(Run(s, inputs).out, t) == LoadsOf(inputs, t)
    decreases |inputs|
  {
    if inputs != [] {
      var first := Apply(s, inputs[0]);
      NoPayloadApplyDeliveries(s, inputs[0], t);
      ApplyKeepsInvariant(s, inputs[0]);
      NoPayloadRunDeliveries(first.state, inputs[1..], t);
      LoadDeliveriesAppend(first.out, Run(first.state, inputs[1..]).out, t);
    }
  }

  /** `n` copies of one partner callback. */
  function Repeat(e: PartnerEvent, n: nat): (es: seq<Input>)
    ensures |es| == n && forall i :: 0 <= i < n ==> es[i] == Partner(e)
  {
    if n == 0 then [] else [Partner(e)] + Repeat(e, n - 1)
  }

  /** With a load completion stored, every repetition of a terminal partner
      callback delivers to it again: `n` callbacks, `n` deliveries. */
  lemma {:induction false} TerminalCallbackRedelivers(s: Session, e: PartnerEvent, n: nat)
    requires Listening(s) && s.loadCompletion.Some?
    requires e.DidLoad? || e.DidFail?
    ensures LoadDeliveries(Run(s, Repeat(e, n)).out, s.loadCompletion.value) == n
    ensures Run(s, Repeat(e, n)).state == s
  {
    if n > 0 {
      var t := s.loadCompletion.value;
      var es := Repeat(e, n);
      assert es[0] == Partner(e);
      assert es[1..] == Repeat(e, n - 1);
      var first := OnPartner(s, e);
      TerminalCallbackRedelivers(s, e, n - 1);
      LoadDeliveriesAppend(first.out, Run(s, Repeat(e, n - 1)).out, t);
    }
  }

  /** A successful load followed by two `didLoad` callbacks reports success to the
      same completion twice. */
  lemma DuplicateDidLoadDeliversTwice(s: Session, t: Token)
    requires HasBidPayload(s.request)
    ensures LoadDeliveries(Run(s, [HostLoad(t), Partner(DidLoad), Partner(DidLoad)]).out, t) == 2
  {
    var inputs := [HostLoad(t), Partner(DidLoad), Partner(DidLoad)];
    var s1 := Load(s, t).state;
    assert inputs[1..] == Repeat(DidLoad, 2);
    TerminalCallbackRedelivers(s1, DidLoad, 2);
    LoadDeliveriesAppend(Load(s, t).out, Run(s1, inputs[1..]).out, t);
  }

  /** A load without a bid payload fails at once and its completion stays stored,
      yet no later input but another load for the same token ever calls it. */
  lemma EmptyMarkupStaysPending(s: Session, t: Token, inputs: seq<Input>)
    requires Invariant(s) && !HasBidPayload(s.request)
    ensures Load(s, t).state.loadCompletion == Some(t)
    ensures LoadDeliveries(Load(s, t).out, t) == 1
    ensures LoadsOf(inputs, t) == 0 ==> LoadDeliveries(Run(Load(s, t).state, inputs).out, t) == 0
  {
    ApplyKeepsInvariant(s, HostLoad(t));
    NoPayloadRunDeliveries(Load(s, t).state, inputs, t);
  }

  /** Invalidating detaches the current ad, so when no earlier ad is still
      attached no partner callback reaches the adapter afterwards, although the
      load completion stays stored. */
  lemma InvalidateSilencesCallbacks(s: Session, t: Token, e: PartnerEvent)
    requires HoldsOwnKind(s) && !s.replacedAdAttached
    ensures Invalidate(s, t).state.loadCompletion == s.loadCompletion
    ensures OnPartner(Invalidate(s, t).state, e).out == []
  {
  }

  /** A second load replaces the ad without detaching the first one, so after
      invalidating the second a `didLoad` from the first still reaches the
      second load's completion. */
  lemma ReplacedAdStillCallsBack(s: Session, t1: Token, t2: Token, t3: Token)
    requires HasBidPayload(s.request)
    ensures var s3 := Invalidate(Load(Load(s, t1).state, t2).state, t3).state;
            && !Attached(s3)
            && LoadDeliveries(OnPartner(s3, DidLoad).out, t2) == 1
  {
  }

  /** Invalidating leaves the ad in place, so a show afterwards still presents it
      when the partner still reports it valid. */
  lemma ShowAfterInvalidateStillPresents(s: Session, t1: Token, t2: Token)
    requires s.request.format != Banner
    requires HoldsOwnKind(s) && s.partnerAd.value.valid
    ensures Invalidate(s, t1).out == [Completed(t1, InvalidatePhase, Succeeded(WrapAd(s.partnerAd)))]
    ensures AnyPresent(Show(Invalidate(s, t1).state, t2).out)
  {
  }
}
