/** Types shared by every revision of the Meta Audience Network mediation adapter:
    the host's load request, the partner SDK's ad objects and callbacks, and the
    observable outputs of one step (completions delivered, host-delegate events,
    calls into the partner SDK, and the log lines that carry meaning).
 */
module Common {

  datatype Option<+T> = None | Some(value: T)

  /** The host's ad formats. The older host SDK only knows the first three. */
  datatype Format = Banner | Interstitial | Rewarded | RewardedInterstitial

  /** One ad load request as the host hands it over. `height` is the requested
      banner height (a CGFloat, used only in comparisons), absent when the host
      gave no size. */
  datatype Request = Request(
    format: Format,
    adm: Option<string>,
    height: Option<real>,
    partnerPlacement: string,
    hostPlacement: string)

  /** A request of the older host SDK, whose format enum has no rewarded interstitial case. */
  type LegacyRequest = r: Request | r.format != RewardedInterstitial
    witness Request(Banner, None, None, "", "")

  /** The bidding-only gate: a bid payload is present and non-empty. */
  predicate HasBidPayload(r: Request) {
    r.adm.Some? && |r.adm.value| > 0
  }

  /** The bid payload handed to the partner SDK; only meaningful past the gate. */
  function BidPayload(r: Request): (p: string)
    requires HasBidPayload(r)
    ensures |p| > 0 && r.adm == Some(p)
  {
    r.adm.value
  }

  /** Opaque identities: of a host completion closure, of a host delegate object,
      of the adapter that created a session, and of an error the partner reports. */
  type Token = nat
  type DelegateId = nat
  type AdapterId = nat
  type PartnerError = nat

  /** The concrete partner SDK class of an ad object. */
  datatype AdKind = AdView | InterstitialAd | RewardedVideoAd | RewardedInterstitialAd

  /** The partner class each host format is served by. */
  function KindFor(f: Format): (k: AdKind)
    ensures f == Banner <==> k == AdView
    ensures f == Interstitial <==> k == InterstitialAd
    ensures f == Rewarded <==> k == RewardedVideoAd
  {
    match f
    case Banner => AdView
    case Interstitial => InterstitialAd
    case Rewarded => RewardedVideoAd
    case RewardedInterstitial => RewardedInterstitialAd
  }

  /** Banner size classes of the partner SDK (kFBAdSizeHeight50Banner,
      kFBAdSizeHeight90Banner, kFBAdSizeHeight250Rectangle). */
  datatype SizeClass = H50 | H90 | H250

  /** A CGRect. */
  datatype Frame = Frame(x: real, y: real, width: real, height: real)

  /** What a banner ad view was created with: its size class and its frame. */
  datatype Layout = Layout(size: SizeClass, frame: Frame)

  /** A partner SDK ad object as far as the adapter can observe it: its class,
      the partner's validity flag (isAdValid), whether its delegate points back
      at the adapter, and, for banners, its layout. */
  datatype PartnerAd = PartnerAd(kind: AdKind, valid: bool, delegateAttached: bool, layout: Option<Layout>)

  /** Error kinds surfaced to the host. `LoadFailure` carries the partner's error
      when there is one; `PartnerFailure` is a partner error passed through unwrapped. */
  datatype ErrorKind =
    | NoBidPayload
    | LoadFailureInvalidAdMarkup
    | LoadFailure(cause: Option<PartnerError>)
    | ShowFailure
    | NoAdReadyToShow
    | ShowFailureAdNotReady
    | InvalidateFailure
    | PartnerFailure(error: PartnerError)

  /** What a successful result carries: empty event details, or the host-side
      PartnerAd wrapper, recorded by the class of the partner ad object it wraps
      (None for the placeholder wrapper around a nil ad). */
  datatype Payload = EmptyDetails | Wrapped(kind: Option<AdKind>)

  /** The payload wrapping the given (possibly absent) partner ad. */
  function WrapAd(ad: Option<PartnerAd>): (p: Payload)
    ensures p.Wrapped? && (p.kind.Some? <==> ad.Some?)
    ensures ad.Some? ==> p.kind == Some(ad.value.kind)
  {
    Wrapped(if ad.Some? then Some(ad.value.kind) else None)
  }

  datatype HostResult = Succeeded(payload: Payload) | Failed(error: ErrorKind)

  datatype Phase = LoadPhase | ShowPhase | InvalidatePhase

  datatype Reward = Reward(amount: int, rewardLabel: string)

  /** Calls made on the host's per-ad delegate. */
  datatype HostEvent =
    | DidTrackImpression
    | DidClick
    | DidDismiss
    | DidReward(reward: Option<Reward>)

  /** Log lines that stand for a decision of the adapter. `Note` is free text
      that carries no decision. */
  datatype LogKind = LoadResultIgnored | DelegateUnavailable | DelegateCallIgnored | Note

  /** Calls into the partner SDK. */
  datatype PartnerCall = LoadWithBidPayload(kind: AdKind, payload: string) | Present(kind: AdKind)

  datatype Output =
    | Completed(token: Token, phase: Phase, result: HostResult)
    | Forwarded(delegate: DelegateId, event: HostEvent)
    | Logged(log: LogKind)
    | Called(call: PartnerCall)

  /** Callbacks of the partner SDK's delegate protocols (FBAdViewDelegate,
      FBInterstitialAdDelegate, FBRewardedVideoAdDelegate,
      FBRewardedInterstitialAdDelegate), with the format-specific prefix dropped. */
  datatype PartnerEvent =
    | DidLoad
    | DidFail(error: PartnerError)
    | WillLogImpression
    | DidClickAd
    | DidClose
    | WillClose
    | VideoComplete
    | ServerRewardSucceeded
    | ServerRewardFailed

  /** Whether the delegate protocol of the given format declares the callback. */
  predicate Declares(f: Format, e: PartnerEvent) {
    match e
    case DidLoad => true
    case DidFail(_) => true
    case WillLogImpression => true
    case DidClickAd => true
    case DidClose => f != Banner
    case WillClose => f != Banner
    case VideoComplete => f == Rewarded || f == RewardedInterstitial
    case ServerRewardSucceeded => f == Rewarded
    case ServerRewardFailed => f == Rewarded
  }

  /** The new state of a session together with what the step emitted, in order. */
  datatype Step<S> = Step(state: S, out: seq<Output>)

  /** How many results of the given phase the outputs deliver to the completion `t`. */
  function Deliveries(out: seq<Output>, t: Token, phase: Phase): (n: nat)
    ensures n <= |out|
    ensures n == 0 <==> forall i :: 0 <= i < |out| ==> !(out[i].Completed? && out[i].token == t && out[i].phase == phase)
  {
    if out == [] then 0
    else
      var rest := Deliveries(out[1..], t, phase);
      assert forall i :: 1 <= i < |out| ==> out[i] == out[1..][i - 1];
      if out[0].Completed? && out[0].token == t && out[0].phase == phase then 1 + rest else rest
  }

  /** How many load results the outputs deliver to the completion `t`. */
  function LoadDeliveries(out: seq<Output>, t: Token): nat {
    Deliveries(out, t, LoadPhase)
  }

  lemma {:induction false} DeliveriesAppend(a: seq<Output>, b: seq<Output>, t: Token, phase: Phase)
    ensures Deliveries(a + b, t, phase) == Deliveries(a, t, phase) + Deliveries(b, t, phase)
    decreases |a|
  {
    if a == [] {
      assert a + b == b;
    } else {
      assert (a + b)[1..] == a[1..] + b;
      DeliveriesAppend(a[1..], b, t, phase);
    }
  }

  lemma LoadDeliveriesAppend(a: seq<Output>, b: seq<Output>, t: Token)
    ensures LoadDeliveries(a + b, t) == LoadDeliveries(a, t) + LoadDeliveries(b, t)
  {
    DeliveriesAppend(a, b, t, LoadPhase);
  }

  /** True when the outputs hand something to a host delegate. */
  predicate AnyForwarded(out: seq<Output>) {
    exists i :: 0 <= i < |out| && out[i].Forwarded?
  }

  /** True when the outputs ask the partner SDK to present an ad. */
  predicate AnyPresent(out: seq<Output>) {
    exists i :: 0 <= i < |out| && out[i].Called? && out[i].call.Present?
  }

  /** A call on a weakly held host delegate: it is made when the delegate is
      still alive, and otherwise only the delegate's absence is logged. */
  function Notify(delegate: Option<DelegateId>, event: HostEvent): (out: seq<Output>)
    ensures AnyForwarded(out) <==> delegate.Some?
    ensures delegate.Some? ==> out == [Forwarded(delegate.value, event)]
    ensures delegate.None? ==> out == [Logged(DelegateUnavailable)]
  {
    if delegate.Some? then
      var out := [Forwarded(delegate.value, event)];
      assert out[0].Forwarded?;
      out
    else [Logged(DelegateUnavailable)]
  }
}
