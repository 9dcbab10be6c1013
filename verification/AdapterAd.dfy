/** The newest revision: one session object per load request
    (MetaAudienceNetworkAdapterAd) with a subclass per format that owns the
    partner ad object. A load completion is stored in a slot that every terminal
    partner callback empties, so each load result reaches the host at most once.
 */
module AdapterAd {
  import opened Common
  import BannerSize

  /** One ad session: the immutable adapter and request, the weakly held host
      delegate, the pending load completion, and the partner ad object. */
  datatype Session = Session(
    adapter: AdapterId,
    request: Request,
    delegate: Option<DelegateId>,
    loadCompletion: Option<Token>,
    ad: Option<PartnerAd>)

  /** What can happen to a session: the host loads or shows, the partner SDK calls
      back or changes its validity flag, or the weak delegate is released. */
  datatype Input =
    | HostLoad(token: Token)
    | HostShow(token: Token)
    | Partner(event: PartnerEvent)
    | ValidityChanged(valid: bool)
    | DelegateReleased

  /** `init(adapter:request:delegate:)`: the session holds what it was given and
      nothing else, in particular no pending completion and no ad. */
  function Init(adapter: AdapterId, request: Request, delegate: DelegateId): (s: Session)
    ensures s.adapter == adapter && s.request == request && s.delegate == Some(delegate)
    ensures s.loadCompletion.None? && s.ad.None?
    ensures Invariant(s)
  {
    Session(adapter, request, Some(delegate), None, None)
  }

  /** What every reachable session satisfies: the ad is of the request's class,
      attached to the adapter, laid out consistently when it is a banner, and
      exists only past the bid payload gate; a pending completion implies an ad. */
  ghost predicate Invariant(s: Session) {
    && (s.ad.Some? ==>
          && s.ad.value.kind == KindFor(s.request.format)
          && s.ad.value.delegateAttached
          && HasBidPayload(s.request)
          && (s.ad.value.layout.Some? <==> s.request.format == Banner)
          && (s.ad.value.layout.Some? ==> BannerSize.Consistent(s.ad.value.layout.value)))
    && (s.loadCompletion.Some? ==> s.ad.Some?)
  }

  /** The error a missing bid payload is reported with. */
  function MarkupError(f: Format): ErrorKind {
    if f == RewardedInterstitial then LoadFailureInvalidAdMarkup else NoBidPayload
  }

  /** A freshly constructed partner ad for the request: of the format's class, not
      yet valid, with the adapter as its delegate, and for banners the layout this
      revision computes. */
  function NewAd(r: Request): (a: PartnerAd)
    ensures a.kind == KindFor(r.format) && !a.valid && a.delegateAttached
    ensures a.layout.Some? <==> r.format == Banner
    ensures a.layout.Some? ==> BannerSize.Consistent(a.layout.value)
  {
    if r.format == Banner then
      BannerSize.LayoutConsistentExceptSharedAt249(BannerSize.AdapterAdRev, r.height);
      PartnerAd(AdView, false, true, Some(BannerSize.LayoutFor(BannerSize.AdapterAdRev, r.height)))
    else
      PartnerAd(KindFor(r.format), false, true, None)
  }

  /** `load(with:completion:)` of every format. Without a bid payload the
      completion fails at once and the session is left exactly as it was;
      otherwise the completion becomes pending, a new ad replaces any earlier one
      and the partner is asked to load exactly the bid payload. */
  function Load(s: Session, token: Token): (r: Step<Session>)
    ensures !HasBidPayload(s.request) ==>
              && r.state == s
              && r.out == [Completed(token, LoadPhase, Failed(MarkupError(s.request.format)))]
    ensures HasBidPayload(s.request) ==>
              && r.state == s.(loadCompletion := Some(token), ad := Some(NewAd(s.request)))
              && r.out == [Called(LoadWithBidPayload(KindFor(s.request.format), s.request.adm.value))]
    ensures LoadDeliveries(r.out, token) == (if HasBidPayload(s.request) then 0 else 1)
  {
    if !HasBidPayload(s.request) then
      Step(s, [Completed(token, LoadPhase, Failed(MarkupError(s.request.format)))])
    else
      var ad := NewAd(s.request);
      Step(s.(loadCompletion := Some(token), ad := Some(ad)),
           [Called(LoadWithBidPayload(ad.kind, BidPayload(s.request)))])
  }

  /** `show(with:completion:)`. Nothing changes in the session. A banner's show
      does nothing at all. A fullscreen show presents exactly when an ad exists
      and is valid, and then succeeds; otherwise it fails without presenting,
      interstitial and rewarded distinguishing a missing ad from an invalid one,
      rewarded interstitial reporting one not-ready error for both. */
  function Show(s: Session, token: Token): (r: Step<Session>)
    ensures r.state == s
    ensures s.request.format == Banner ==> r.out == []
    ensures s.request.format != Banner ==>
              && AnyPresent(r.out) == (s.ad.Some? && s.ad.value.valid)
              && |r.out| > 0
              && r.out[|r.out| - 1].Completed? && r.out[|r.out| - 1].token == token
              && r.out[|r.out| - 1].phase == ShowPhase
              && (r.out[|r.out| - 1].result.Succeeded? <==> s.ad.Some? && s.ad.value.valid)
    ensures s.request.format in {Interstitial, Rewarded} && s.ad.None? ==>
              r.out == [Completed(token, ShowPhase, Failed(NoAdReadyToShow))]
    ensures s.request.format in {Interstitial, Rewarded} && s.ad.Some? && !s.ad.value.valid ==>
              r.out == [Completed(token, ShowPhase, Failed(ShowFailure))]
    ensures s.request.format == RewardedInterstitial && !(s.ad.Some? && s.ad.value.valid) ==>
              r.out == [Completed(token, ShowPhase, Failed(ShowFailureAdNotReady))]
    ensures s.request.format != Banner && s.ad.Some? && s.ad.value.valid ==>
              r.out == [Called(Present(s.ad.value.kind)), Completed(token, ShowPhase, Succeeded(EmptyDetails))]
  {
    match s.request.format
    case Banner => Step(s, [])
    case RewardedInterstitial =>
      if s.ad.Some? && s.ad.value.valid then
        Presented(s, token)
      else
        Step(s, [Completed(token, ShowPhase, Failed(ShowFailureAdNotReady))])
    case _ =>
      if s.ad.None? then
        Step(s, [Completed(token, ShowPhase, Failed(NoAdReadyToShow))])
      else if !s.ad.value.valid then
        Step(s, [Completed(token, ShowPhase, Failed(ShowFailure))])
      else
        Presented(s, token)
  }

  /** A valid ad is presented and the show succeeds with empty details. */
  function Presented(s: Session, token: Token): (r: Step<Session>)
    requires s.ad.Some?
    ensures r.state == s && AnyPresent(r.out)
  {
    var out := [Called(Present(s.ad.value.kind)), Completed(token, ShowPhase, Succeeded(EmptyDetails))];
    assert out[0].Called? && out[0].call.Present?;
    Step(s, out)
  }

  /** A terminal load callback: the pending completion, if any, receives the
      result and the slot is emptied; with nothing pending only the ignored
      result is logged. Nothing else changes. */
  function Terminal(s: Session, result: HostResult): (r: Step<Session>)
    ensures r.state == s.(loadCompletion := None)
    ensures s.loadCompletion.Some? ==> r.out == [Completed(s.loadCompletion.value, LoadPhase, result)]
    ensures s.loadCompletion.None? ==> r.out == [Logged(LoadResultIgnored)]
  {
    match s.loadCompletion
    case Some(t) => Step(s.(loadCompletion := None), [Completed(t, LoadPhase, result)])
    case None => Step(s, [Logged(LoadResultIgnored)])
  }

  /** The partner delegate callbacks of the session's format. A callback the
      format's protocol does not declare never arrives and changes nothing. */
  function OnPartner(s: Session, e: PartnerEvent): (r: Step<Session>)
    ensures r.state.adapter == s.adapter && r.state.request == s.request
    ensures r.state.delegate == s.delegate && r.state.ad == s.ad
    ensures !(e.DidLoad? || e.DidFail?) ==> r.state == s
    ensures Declares(s.request.format, e) && (e.DidLoad? || e.DidFail?) ==> r.state.loadCompletion.None?
    ensures s.request.format == RewardedInterstitial && e.DidFail? && s.loadCompletion.Some? ==>
              r.out == [Completed(s.loadCompletion.value, LoadPhase, Failed(PartnerFailure(e.error)))]
    ensures s.request.format != RewardedInterstitial && e.DidFail? && s.loadCompletion.Some? ==>
              r.out == [Completed(s.loadCompletion.value, LoadPhase, Failed(LoadFailure(Some(e.error))))]
    ensures e.DidLoad? && s.loadCompletion.Some? ==>
              r.out == [Completed(s.loadCompletion.value, LoadPhase, Succeeded(EmptyDetails))]
    ensures (e.DidLoad? || e.DidFail?) && s.loadCompletion.None? ==> r.out == [Logged(LoadResultIgnored)]
    ensures AnyForwarded(r.out) ==> s.delegate.Some?
    ensures e == WillLogImpression ==> r.out == Notify(s.delegate, DidTrackImpression)
    ensures e == DidClickAd ==> r.out == Notify(s.delegate, DidClick)
    ensures e == DidClose && s.request.format != Banner ==> r.out == Notify(s.delegate, DidDismiss)
    ensures e == VideoComplete && Declares(s.request.format, e) ==> r.out == Notify(s.delegate, DidReward(None))
    ensures e == WillClose && s.request.format != Banner ==>
              r.out == [Logged(if s.request.format == Interstitial then Note else DelegateCallIgnored)]
    ensures (e == ServerRewardSucceeded || e == ServerRewardFailed) && s.request.format == Rewarded ==>
              r.out == [Logged(DelegateCallIgnored)]
    ensures !Declares(s.request.format, e) ==> r == Step(s, [])
  {
    if !Declares(s.request.format, e) then Step(s, [])
    else
      match e
      case DidLoad => Terminal(s, Succeeded(EmptyDetails))
      case DidFail(pe) =>
        Terminal(s, Failed(if s.request.format == RewardedInterstitial then PartnerFailure(pe) else LoadFailure(Some(pe))))
      case WillLogImpression => Step(s, Notify(s.delegate, DidTrackImpression))
      case DidClickAd => Step(s, Notify(s.delegate, DidClick))
      case DidClose => Step(s, Notify(s.delegate, DidDismiss))
      case WillClose => Step(s, [Logged(if s.request.format == Interstitial then Note else DelegateCallIgnored)])
      case VideoComplete => Step(s, Notify(s.delegate, DidReward(None)))
      case ServerRewardSucceeded => Step(s, [Logged(DelegateCallIgnored)])
      case ServerRewardFailed => Step(s, [Logged(DelegateCallIgnored)])
  }

  /** `inlineView`: the banner's ad view, and nothing for fullscreen formats. */
  function InlineView(s: Session): (v: Option<PartnerAd>)
    ensures v.Some? <==> s.request.format == Banner && s.ad.Some?
    ensures v.Some? ==> v == s.ad
  {
    if s.request.format == Banner then s.ad else None
  }

  /** One input applied to a session. */
  function Apply(s: Session, i: Input): (r: Step<Session>)
    ensures r.state.adapter == s.adapter && r.state.request == s.request
  {
    match i
    case HostLoad(t) => Load(s, t)
    case HostShow(t) => Show(s, t)
    case Partner(e) => OnPartner(s, e)
    case ValidityChanged(v) =>
      Step(if s.ad.Some? then s.(ad := Some(s.ad.value.(valid := v))) else s, [])
    case DelegateReleased => Step(s.(delegate := None), [])
  }

  /** A sequence of inputs applied in order; the outputs are concatenated. The
      adapter and request never change over the life of the session. */
  function Run(s: Session, inputs: seq<Input>): (r: Step<Session>)
    ensures r.state.adapter == s.adapter && r.state.request == s.request
    decreases |inputs|
  {
    if inputs == [] then Step(s, [])
    else
      var first := Apply(s, inputs[0]);
      var rest := Run(first.state, inputs[1..]);
      Step(rest.state, first.out + rest.out)
  }

  /** Every input keeps the session invariant. */
  lemma ApplyKeepsInvariant(s: Session, i: Input)
    requires Invariant(s)
    ensures Invariant(Apply(s, i).state)
  {
  }

  /** So does every run from the initial session. */
  lemma {:induction false} RunKeepsInvariant(s: Session, inputs: seq<Input>)
    requires Invariant(s)
    ensures Invariant(Run(s, inputs).state)
    decreases |inputs|
  {
    if inputs != [] {
      ApplyKeepsInvariant(s, inputs[0]);
      RunKeepsInvariant(Apply(s, inputs[0]).state, inputs[1..]);
    }
  }

  function Pending(s: Session, t: Token): nat {
    if s.loadCompletion == Some(t) then 1 else 0
  }

  /** How many times the host hands the completion `t` to a load. */
  function LoadsOf(inputs: seq<Input>, t: Token): nat {
    if inputs == [] then 0
    else (if inputs[0] == HostLoad(t) then 1 else 0) + LoadsOf(inputs[1..], t)
  }

  /** One input delivers to `t` only by spending a pending slot or a load call. */
  lemma ApplyDeliveryBudget(s: Session, i: Input, t: Token)
    ensures LoadDeliveries(Apply(s, i).out, t) + Pending(Apply(s, i).state, t)
         <= Pending(s, t) + (if i == HostLoad(t) then 1 else 0)
  {
  }

  /** Over any run, deliveries to `t` plus whether `t` is still pending never
      exceed whether it was pending at the start plus the loads it was passed to. */
  lemma {:induction false} RunDeliveryBudget(s: Session, inputs: seq<Input>, t: Token)
    ensures LoadDeliveries(Run(s, inputs).out, t) + Pending(Run(s, inputs).state, t)
         <= Pending(s, t) + LoadsOf(inputs, t)
    decreases |inputs|
  {
    if inputs != [] {
      var first := Apply(s, inputs[0]);
      ApplyDeliveryBudget(s, inputs[0], t);
      RunDeliveryBudget(first.state, inputs[1..], t);
      LoadDeliveriesAppend(first.out, Run(first.state, inputs[1..]).out, t);
    }
  }

  /** Each load completion is delivered at most once, whatever the partner SDK
      does, as long as the host hands it to a single load. */
  lemma DeliveredAtMostOnce(s: Session, inputs: seq<Input>, t: Token)
    requires s.loadCompletion != Some(t)
    requires LoadsOf(inputs, t) <= 1
    ensures LoadDeliveries(Run(s, inputs).out, t) <= 1
  {
    RunDeliveryBudget(s, inputs, t);
  }

  /** After a terminal callback, a second one reaches no completion and only logs. */
  lemma DuplicateTerminalIgnored(s: Session, e1: PartnerEvent, e2: PartnerEvent)
    requires e1.DidLoad? || e1.DidFail?
    requires e2.DidLoad? || e2.DidFail?
    requires Declares(s.request.format, e1)
    ensures OnPartner(OnPartner(s, e1).state, e2).out == [Logged(LoadResultIgnored)]
  {
  }

  /** A second load replaces the pending completion: whatever follows, unless it
      hands the first completion to another load, never calls the first. */
  lemma SecondLoadDropsFirst(s: Session, t1: Token, t2: Token, rest: seq<Input>)
    requires HasBidPayload(s.request)
    requires t1 != t2
    requires LoadsOf(rest, t1) == 0
    ensures LoadDeliveries(Run(s, [HostLoad(t1), HostLoad(t2)] + rest).out, t1) == 0
  {
    var inputs := [HostLoad(t1), HostLoad(t2)] + rest;
    assert inputs[0] == HostLoad(t1);
    assert inputs[1..][0] == HostLoad(t2);
    assert inputs[1..][1..] == rest;
    var r1 := Load(s, t1);
    var r2 := Load(r1.state, t2);
    RunDeliveryBudget(r2.state, rest, t1);
    LoadDeliveriesAppend(r2.out, Run(r2.state, rest).out, t1);
    LoadDeliveriesAppend(r1.out, r2.out + Run(r2.state, rest).out, t1);
  }
}
