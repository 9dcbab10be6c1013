/** The middle revision: one MetaAudienceNetworkAdAdapter per load request, with
    the formats in extensions. `load` installs a wrapper around the host's
    completion that empties the slot before calling through, so whichever path
    delivers a load result, the slot is empty afterwards.
 */
module AdAdapter {
  import opened Common
  import BannerSize

  /** One ad adapter: the immutable adapter and request, the host-side PartnerAd
      wrapper (a placeholder around a nil ad until a load creates one), the weakly
      held host delegate, and the pending (self-clearing) load completion. */
  datatype Session = Session(
    adapter: AdapterId,
    request: LegacyRequest,
    partnerAd: Option<PartnerAd>,
    delegate: Option<DelegateId>,
    loadCompletion: Option<Token>)

  datatype Input =
    | HostLoad(token: Token)
    | HostShow(token: Token)
    | Partner(event: PartnerEvent)
    | ValidityChanged(valid: bool)
    | DelegateReleased

  /** `init(adapter:request:partnerAdDelegate:)`: before any load the PartnerAd
      wraps a nil ad and nothing is pending. */
  function Init(adapter: AdapterId, request: LegacyRequest, delegate: DelegateId): (s: Session)
    ensures s.adapter == adapter && s.request == request && s.delegate == Some(delegate)
    ensures s.partnerAd.None? && s.loadCompletion.None?
    ensures Invariant(s)
  {
    Session(adapter, request, None, Some(delegate), None)
  }

  /** The ad is of the request's class, attached, consistently laid out, and only
      exists past the gate; a pending completion implies an ad. */
  ghost predicate Invariant(s: Session) {
    && (s.partnerAd.Some? ==>
          && s.partnerAd.value.kind == KindFor(s.request.format)
          && s.partnerAd.value.delegateAttached
          && HasBidPayload(s.request)
          && (s.partnerAd.value.layout.Some? <==> s.request.format == Banner)
          && (s.partnerAd.value.layout.Some? ==> BannerSize.Consistent(s.partnerAd.value.layout.value)))
    && (s.loadCompletion.Some? ==> s.partnerAd.Some?)
  }

  /** A new partner ad for the request, laid out with this revision's closed bands. */
  function NewAd(r: LegacyRequest): (a: PartnerAd)
    ensures a.kind == KindFor(r.format) && !a.valid && a.delegateAttached
    ensures a.layout.Some? <==> r.format == Banner
    ensures a.layout.Some? ==> BannerSize.Consistent(a.layout.value)
  {
    if r.format == Banner then
      BannerSize.LayoutConsistentExceptSharedAt249(BannerSize.AdAdapterRev, r.height);
      PartnerAd(AdView, false, true, Some(BannerSize.LayoutFor(BannerSize.AdAdapterRev, r.height)))
    else
      PartnerAd(KindFor(r.format), false, true, None)
  }

  /** Calls the pending wrapper, if any: the slot is emptied and the host's
      completion receives the result; with nothing pending, `loadIgnored` is logged. */
  function Deliver(s: Session, result: HostResult): (r: Step<Session>)
    ensures r.state == s.(loadCompletion := None)
    ensures s.loadCompletion.Some? ==> r.out == [Completed(s.loadCompletion.value, LoadPhase, result)]
    ensures s.loadCompletion.None? ==> r.out == [Logged(LoadResultIgnored)]
  {
    match s.loadCompletion
    case Some(t) => Step(s.(loadCompletion := None), [Completed(t, LoadPhase, result)])
    case None => Step(s, [Logged(LoadResultIgnored)])
  }

  /** `load(with:completion:)` followed by the format's loader. The wrapper for
      `token` replaces whatever was pending. Without a bid payload it is called at
      once with `noBidPayload` and so leaves nothing pending, and the PartnerAd is
      untouched; otherwise a new ad of the format's class replaces the PartnerAd
      and the partner is asked to load exactly the bid payload. */
  function Load(s: Session, token: Token): (r: Step<Session>)
    ensures r.state.adapter == s.adapter && r.state.request == s.request && r.state.delegate == s.delegate
    ensures !HasBidPayload(s.request) ==>
              && r.state == s.(loadCompletion := None)
              && r.out == [Completed(token, LoadPhase, Failed(NoBidPayload))]
    ensures HasBidPayload(s.request) ==>
              && r.state.loadCompletion == Some(token)
              && r.state.partnerAd == Some(NewAd(s.request))
              && r.out == [Called(LoadWithBidPayload(KindFor(s.request.format), s.request.adm.value))]
  {
    var wrapped := s.(loadCompletion := Some(token));
    if !HasBidPayload(s.request) then
      Deliver(wrapped, Failed(NoBidPayload))
    else
      var ad := NewAd(s.request);
      Step(wrapped.(partnerAd := Some(ad)), [Called(LoadWithBidPayload(ad.kind, BidPayload(s.request)))])
  }

  /** `showInterstitialAd` / `showRewardedAd`: present and succeed with the
      PartnerAd when it wraps a valid ad of the expected class; `showFailure`
      when it wraps nothing, another class, or an invalid ad. */
  function ShowFullscreen(s: Session, kind: AdKind): (r: (HostResult, seq<Output>))
    ensures r.0.Succeeded? <==> s.partnerAd.Some? && s.partnerAd.value.kind == kind && s.partnerAd.value.valid
    ensures r.0.Failed? ==> r.0.error == ShowFailure && r.1 == []
    ensures r.0.Succeeded? ==> r.0.payload == WrapAd(s.partnerAd) && r.1 == [Called(Present(kind))]
  {
    if s.partnerAd.Some? && s.partnerAd.value.kind == kind then
      if s.partnerAd.value.valid then (Succeeded(WrapAd(s.partnerAd)), [Called(Present(kind))])
      else (Failed(ShowFailure), [])
    else (Failed(ShowFailure), [])
  }

  /** The PartnerAd wraps a valid ad of the class the request's format is served by. */
  predicate ShowsFor(s: Session) {
    s.partnerAd.Some? && s.partnerAd.value.kind == KindFor(s.request.format) && s.partnerAd.value.valid
  }

  /** `show(with:completion:)`: the completion receives exactly one result, the
      show result of the format's helper; a banner succeeds at once with the
      current PartnerAd. Nothing in the session changes. */
  function Show(s: Session, token: Token): (r: Step<Session>)
    ensures r.state == s
    ensures Deliveries(r.out, token, ShowPhase) == 1
    ensures |r.out| > 0 && r.out[|r.out| - 1].Completed? && r.out[|r.out| - 1].token == token
    ensures s.request.format == Banner ==> r.out == [Completed(token, ShowPhase, Succeeded(WrapAd(s.partnerAd)))]
    ensures s.request.format != Banner ==>
              (r.out[|r.out| - 1].result.Succeeded? <==> ShowsFor(s))
    ensures s.request.format != Banner && ShowsFor(s) ==>
              r.out == [Called(Present(KindFor(s.request.format))), Completed(token, ShowPhase, Succeeded(WrapAd(s.partnerAd)))]
    ensures s.request.format != Banner && !ShowsFor(s) ==>
              r.out == [Completed(token, ShowPhase, Failed(ShowFailure))]
    ensures AnyPresent(r.out) <==> s.request.format != Banner && ShowsFor(s)
  {
    if s.request.format == Banner then
      Step(s, [Completed(token, ShowPhase, Succeeded(WrapAd(s.partnerAd)))])
    else
      var (result, calls) := ShowFullscreen(s, KindFor(s.request.format));
      var out := calls + [Completed(token, ShowPhase, result)];
      assert result.Succeeded? ==> out[0].Called? && out[0].call.Present?;
      Step(s, out)
  }

  /** The partner delegate callbacks of the session's format. Terminal load
      callbacks go through the self-clearing wrapper; `videoComplete` forwards a
      zero reward with an empty label; `willClose` and the server-reward
      callbacks only log. */
  function OnPartner(s: Session, e: PartnerEvent): (r: Step<Session>)
    ensures r.state.adapter == s.adapter && r.state.request == s.request
    ensures r.state.delegate == s.delegate && r.state.partnerAd == s.partnerAd
    ensures !(e.DidLoad? || e.DidFail?) ==> r.state == s
    ensures Declares(s.request.format, e) && (e.DidLoad? || e.DidFail?) ==> r.state.loadCompletion.None?
    ensures e.DidLoad? && s.loadCompletion.Some? ==>
              r.out == [Completed(s.loadCompletion.value, LoadPhase, Succeeded(WrapAd(s.partnerAd)))]
    ensures e.DidFail? && s.loadCompletion.Some? ==>
              r.out == [Completed(s.loadCompletion.value, LoadPhase, Failed(LoadFailure(Some(e.error))))]
    ensures (e.DidLoad? || e.DidFail?) && s.loadCompletion.None? ==> r.out == [Logged(LoadResultIgnored)]
    ensures AnyForwarded(r.out) ==> s.delegate.Some?
    ensures e == WillLogImpression ==> r.out == Notify(s.delegate, DidTrackImpression)
    ensures e == DidClickAd ==> r.out == Notify(s.delegate, DidClick)
    ensures e == DidClose && s.request.format != Banner ==> r.out == Notify(s.delegate, DidDismiss)
    ensures e == VideoComplete && Declares(s.request.format, e) ==> r.out == Notify(s.delegate, DidReward(Some(Reward(0, ""))))
    ensures e == WillClose && s.request.format != Banner ==>
              r.out == [Logged(Note)]
    ensures (e == ServerRewardSucceeded || e == ServerRewardFailed) && s.request.format == Rewarded ==>
              r.out == [Logged(Note)]
    ensures !Declares(s.request.format, e) ==> r == Step(s, [])
  {
    if !Declares(s.request.format, e) then Step(s, [])
    else
      match e
      case DidLoad => Deliver(s, Succeeded(WrapAd(s.partnerAd)))
      case DidFail(pe) => Deliver(s, Failed(LoadFailure(Some(pe))))
      case WillLogImpression => Step(s, Notify(s.delegate, DidTrackImpression))
      case DidClickAd => Step(s, Notify(s.delegate, DidClick))
      case DidClose => Step(s, Notify(s.delegate, DidDismiss))
      case WillClose => Step(s, [Logged(Note)])
      case VideoComplete => Step(s, Notify(s.delegate, DidReward(Some(Reward(0, "")))))
      case ServerRewardSucceeded => Step(s, [Logged(Note)])
      case ServerRewardFailed => Step(s, [Logged(Note)])
  }

  function Apply(s: Session, i: Input): (r: Step<Session>)
    ensures r.state.adapter == s.adapter && r.state.request == s.request
  {
    match i
    case HostLoad(t) => Load(s, t)
    case HostShow(t) => Show(s, t)
    case Partner(e) => OnPartner(s, e)
    case ValidityChanged(v) =>
      Step(if s.partnerAd.Some? then s.(partnerAd := Some(s.partnerAd.value.(valid := v))) else s, [])
    case DelegateReleased => Step(s.(delegate := None), [])
  }

  function Run(s: Session, inputs: seq<Input>): (r: Step<Session>)
    ensures r.state.adapter == s.adapter && r.state.request == s.request
    decreases |inputs|
  {
    if inputs == [] then Step(s, [])
    else
      var first := Apply(s, inputs[0]);
      var rest := Run(first.state, inputs[1..]);
      Step(rest.state, first.out + rest.out)
  }

  lemma ApplyKeepsInvariant(s: Session, i: Input)
    requires Invariant(s)
    ensures Invariant(Apply(s, i).state)
  {
  }

  lemma {:induction false} RunKeepsInvariant(s: Session, inputs: seq<Input>)
    requires Invariant(s)
    ensures Invariant(Run(s, inputs).state)
    decreases |inputs|
  {
    if inputs != [] {
      ApplyKeepsInvariant(s, inputs[0]);
      RunKeepsInvariant(Apply(s, inputs[0]).state, inputs[1..]);
    }
  }

  function Pending(s: Session, t: Token): nat {
    if s.loadCompletion == Some(t) then 1 else 0
  }

  function LoadsOf(inputs: seq<Input>, t: Token): nat {
    if inputs == [] then 0
    else (if inputs[0] == HostLoad(t) then 1 else 0) + LoadsOf(inputs[1..], t)
  }

  lemma ApplyDeliveryBudget(s: Session, i: Input, t: Token)
    ensures LoadDeliveries(Apply(s, i).out, t) + Pending(Apply(s, i).state, t)
         <= Pending(s, t) + (if i == HostLoad(t) then 1 else 0)
  {
  }

  lemma {:induction false} RunDeliveryBudget(s: Session, inputs: seq<Input>, t: Token)
    ensures LoadDeliveries(Run(s, inputs).out, t) + Pending(Run(s, inputs).state, t)
         <= Pending(s, t) + LoadsOf(inputs, t)
    decreases |inputs|
  {
    if inputs != [] {
      var first := Apply(s, inputs[0]);
      ApplyDeliveryBudget(s, inputs[0], t);
      RunDeliveryBudget(first.state, inputs[1..], t);
      LoadDeliveriesAppend(first.out, Run(first.state, inputs[1..]).out, t);
    }
  }

  /** Each load delivers at most once, whatever the partner SDK does. */
  lemma DeliveredAtMostOnce(s: Session, inputs: seq<Input>, t: Token)
    requires s.loadCompletion != Some(t)
    requires LoadsOf(inputs, t) <= 1
    ensures LoadDeliveries(Run(s, inputs).out, t) <= 1
  {
    RunDeliveryBudget(s, inputs, t);
  }

  /** A second load replaces the pending wrapper: whatever follows, unless it
      hands the first completion to another load, never calls the first. */
  lemma SecondLoadDropsFirst(s: Session, t1: Token, t2: Token, rest: seq<Input>)
    requires HasBidPayload(s.request)
    requires t1 != t2
    requires LoadsOf(rest, t1) == 0
    ensures LoadDeliveries(Run(s, [HostLoad(t1), HostLoad(t2)] + rest).out, t1) == 0
  {
    var inputs := [HostLoad(t1), HostLoad(t2)] + rest;
    assert inputs[0] == HostLoad(t1);
    assert inputs[1..][0] == HostLoad(t2);
    assert inputs[1..][1..] == rest;
    var r1 := Load(s, t1);
    var r2 := Load(r1.state, t2);
    RunDeliveryBudget(r2.state, rest, t1);
    LoadDeliveriesAppend(r2.out, Run(r2.state, rest).out, t1);
    LoadDeliveriesAppend(r1.out, r2.out + Run(r2.state, rest).out, t1);
  }
}
