/** The oldest revision: the partner delegate callbacks of each format are routed
    through module-level closure variables (`onBannerLoaded`, `onInterstitialImpressed`,
    ...), which every load or show overwrites and nothing ever clears, and the
    fullscreen formats keep a placement -> host delegate map for show time. The
    state is therefore global, shared by all requests of a format.
 */
module GlobalClosures {
  import opened Common
  import BannerSize

  /** An `on…Loaded` closure: succeed `token` with a PartnerAd around `ad`. */
  datatype LoadHook = LoadHook(token: Token, ad: PartnerAd)

  /** A show completion captured by an impression closure, with the class of the
      ad it reports. */
  datatype ShowHook = ShowHook(token: Token, kind: AdKind)

  /** An `on…Impressed` closure: notify the captured delegate (looked up at show
      time for fullscreen ads, held strongly for banners) and, for fullscreen ads,
      succeed the show completion. */
  datatype ImpressionHook = ImpressionHook(delegate: Option<DelegateId>, show: Option<ShowHook>)

  /** The closure variables of one format; a `Some(delegate)` entry is a closure
      that notifies that (possibly absent) delegate. */
  datatype Hooks = Hooks(
    loaded: Option<LoadHook>,
    failed: Option<Token>,
    impressed: Option<ImpressionHook>,
    clicked: Option<Option<DelegateId>>,
    dismissed: Option<Option<DelegateId>>,
    completed: Option<Option<DelegateId>>)

  const NoHooks: Hooks := Hooks(None, None, None, None, None, None)

  /** All global state: closures per format and the delegates by host placement. */
  datatype Globals = Globals(banner: Hooks, interstitial: Hooks, rewarded: Hooks, delegates: map<string, DelegateId>)

  const Initial: Globals := Globals(NoHooks, NoHooks, NoHooks, map[])

  /** The formats of this revision; `Fullscreen` are those with a show step. */
  type LegacyFormat = f: Format | f != RewardedInterstitial witness Banner
  type Fullscreen = f: Format | f == Interstitial || f == Rewarded witness Interstitial

  /** The PartnerAd the host hands back to show or invalidate: a (possibly nil)
      partner ad and the request it was loaded for. */
  datatype HostAd = HostAd(ad: Option<PartnerAd>, request: Request)

  function HooksOf(g: Globals, f: LegacyFormat): Hooks {
    match f
    case Banner => g.banner
    case Interstitial => g.interstitial
    case Rewarded => g.rewarded
  }

  function WithHooks(g: Globals, f: LegacyFormat, h: Hooks): (g': Globals)
    ensures HooksOf(g', f) == h && g'.delegates == g.delegates
    ensures forall f' :: f' != f ==> HooksOf(g', f') == HooksOf(g, f')
  {
    match f
    case Banner => g.(banner := h)
    case Interstitial => g.(interstitial := h)
    case Rewarded => g.(rewarded := h)
  }

  /** A new partner ad for the request, laid out with half-open bands for both
      the size class and the frame. */
  function NewAd(f: LegacyFormat, r: Request): (a: PartnerAd)
    ensures a.kind == KindFor(f) && !a.valid && a.delegateAttached
    ensures a.layout.Some? <==> f == Banner
    ensures a.layout.Some? ==> BannerSize.Consistent(a.layout.value)
  {
    if f == Banner then
      BannerSize.LayoutConsistentExceptSharedAt249(BannerSize.GlobalClosuresRev, r.height);
      PartnerAd(AdView, false, true, Some(BannerSize.LayoutFor(BannerSize.GlobalClosuresRev, r.height)))
    else
      PartnerAd(KindFor(f), false, true, None)
  }

  /** The failure reported for a missing bid payload. */
  const MarkupFailure: HostResult := Failed(LoadFailure(None))

  /** `loadBannerAd`: without a bid payload it fails at once and installs nothing.
      Otherwise all four banner closures are overwritten for this request: load
      success and failure go to `token`, impressions and clicks to `delegate`,
      which the closures hold strongly. */
  function LoadBanner(g: Globals, r: Request, delegate: DelegateId, token: Token): (res: Step<Globals>)
    ensures !HasBidPayload(r) ==> res.state == g && res.out == [Completed(token, LoadPhase, MarkupFailure)]
    ensures HasBidPayload(r) ==>
              && res.state.interstitial == g.interstitial && res.state.rewarded == g.rewarded
              && res.state.delegates == g.delegates
              && res.state.banner.loaded == Some(LoadHook(token, NewAd(Banner, r)))
              && res.state.banner.failed == Some(token)
              && res.state.banner.impressed == Some(ImpressionHook(Some(delegate), None))
              && res.state.banner.clicked == Some(Some(delegate))
              && res.state.banner.dismissed == g.banner.dismissed
              && res.state.banner.completed == g.banner.completed
              && res.out == [Called(LoadWithBidPayload(AdView, r.adm.value))]
  {
    if !HasBidPayload(r) then Step(g, [Completed(token, LoadPhase, MarkupFailure)])
    else
      var ad := NewAd(Banner, r);
      var h := g.banner.(loaded := Some(LoadHook(token, ad)), failed := Some(token),
                         impressed := Some(ImpressionHook(Some(delegate), None)), clicked := Some(Some(delegate)));
      Step(g.(banner := h), [Called(LoadWithBidPayload(AdView, BidPayload(r)))])
  }

  /** `loadInterstitialAd` / `loadRewardedAd`: without a bid payload it fails at
      once, stores no delegate and installs nothing. Otherwise the delegate is
      stored under the host placement and the format's load closures are
      overwritten for `token`; its show-time closures are left as they were. */
  function LoadFullscreen(g: Globals, f: Fullscreen, r: Request, delegate: DelegateId, token: Token): (res: Step<Globals>)
    ensures !HasBidPayload(r) ==> res.state == g && res.out == [Completed(token, LoadPhase, MarkupFailure)]
    ensures HasBidPayload(r) ==>
              && res.state.delegates == g.delegates[r.hostPlacement := delegate]
              && HooksOf(res.state, f).loaded == Some(LoadHook(token, NewAd(f, r)))
              && HooksOf(res.state, f).failed == Some(token)
              && HooksOf(res.state, f).impressed == HooksOf(g, f).impressed
              && HooksOf(res.state, f).clicked == HooksOf(g, f).clicked
              && HooksOf(res.state, f).dismissed == HooksOf(g, f).dismissed
              && HooksOf(res.state, f).completed == HooksOf(g, f).completed
              && (forall f' :: f' != f ==> HooksOf(res.state, f') == HooksOf(g, f'))
              && res.out == [Called(LoadWithBidPayload(KindFor(f), r.adm.value))]
  {
    if !HasBidPayload(r) then Step(g, [Completed(token, LoadPhase, MarkupFailure)])
    else
      var ad := NewAd(f, r);
      var h := HooksOf(g, f).(loaded := Some(LoadHook(token, ad)), failed := Some(token));
      Step(WithHooks(g.(delegates := g.delegates[r.hostPlacement := delegate]), f, h),
           [Called(LoadWithBidPayload(ad.kind, BidPayload(r)))])
  }

  /** The delegate stored for the ad's host placement, if any. */
  function StoredDelegate(g: Globals, a: HostAd): Option<DelegateId> {
    if a.request.hostPlacement in g.delegates then Some(g.delegates[a.request.hostPlacement]) else None
  }

  /** The host's PartnerAd wraps an ad of the format's class. */
  predicate HoldsKind(a: HostAd, f: LegacyFormat) {
    a.ad.Some? && a.ad.value.kind == KindFor(f)
  }

  /** `showInterstitialAd` / `showRewardedAd`. A valid ad of the format's class is
      presented but the completion is NOT called: the show closures (impression,
      click, dismiss, and for rewarded ads the reward) are overwritten to notify
      the delegate stored for the ad's placement, and success reaches `token` only
      from the impression closure. A nil, wrong-class or invalid ad fails at once
      with `showFailure`. */
  function ShowFullscreen(g: Globals, f: Fullscreen, a: HostAd, token: Token): (res: Step<Globals>)
    ensures res.state.delegates == g.delegates
    ensures HoldsKind(a, f) && a.ad.value.valid ==>
              && res.out == [Called(Present(KindFor(f)))]
              && Deliveries(res.out, token, ShowPhase) == 0
              && HooksOf(res.state, f).impressed == Some(ImpressionHook(StoredDelegate(g, a), Some(ShowHook(token, KindFor(f)))))
              && HooksOf(res.state, f).clicked == Some(StoredDelegate(g, a))
              && HooksOf(res.state, f).dismissed == Some(StoredDelegate(g, a))
              && (f == Rewarded ==> HooksOf(res.state, f).completed == Some(StoredDelegate(g, a)))
              && (f == Interstitial ==> HooksOf(res.state, f).completed == HooksOf(g, f).completed)
              && HooksOf(res.state, f).loaded == HooksOf(g, f).loaded
              && HooksOf(res.state, f).failed == HooksOf(g, f).failed
              && (forall f' :: f' != f ==> HooksOf(res.state, f') == HooksOf(g, f'))
    ensures !(HoldsKind(a, f) && a.ad.value.valid) ==>
              res.state == g && res.out == [Completed(token, ShowPhase, Failed(ShowFailure))]
    ensures AnyPresent(res.out) <==> HoldsKind(a, f) && a.ad.value.valid
  {
    if HoldsKind(a, f) && a.ad.value.valid then
      var d := StoredDelegate(g, a);
      var h := HooksOf(g, f).(
        impressed := Some(ImpressionHook(d, Some(ShowHook(token, KindFor(f))))),
        clicked := Some(d),
        dismissed := Some(d),
        completed := if f == Rewarded then Some(d) else HooksOf(g, f).completed);
      var out := [Called(Present(KindFor(f)))];
      assert out[0].Called? && out[0].call.Present?;
      Step(WithHooks(g, f, h), out)
    else
      Step(g, [Completed(token, ShowPhase, Failed(ShowFailure))])
  }

  /** The outcome of a destroy: the new globals, the host's PartnerAd as it is
      afterwards, and what was emitted. */
  datatype Teardown = Teardown(state: Globals, ad: HostAd, out: seq<Output>)

  /** `destroyBannerAd` / `destroyInterstitialAd` / `destroyRewardedAd`: succeed
      exactly when the PartnerAd wraps an ad of the format's class, detaching that
      ad's delegate. For the fullscreen formats a success also empties the whole
      delegate map, not only this placement's entry. No closure is cleared.
      Otherwise `invalidateFailure` and nothing changes. */
  function Destroy(g: Globals, f: LegacyFormat, a: HostAd, token: Token): (res: Teardown)
    ensures res.state.banner == g.banner && res.state.interstitial == g.interstitial && res.state.rewarded == g.rewarded
    ensures res.ad.request == a.request
    ensures HoldsKind(a, f) ==>
              && res.ad.ad == Some(a.ad.value.(delegateAttached := false))
              && res.out == [Completed(token, InvalidatePhase, Succeeded(Wrapped(Some(KindFor(f)))))]
              && res.state.delegates == (if f == Banner then g.delegates else map[])
    ensures !HoldsKind(a, f) ==>
              && res.state == g && res.ad == a
              && res.out == [Completed(token, InvalidatePhase, Failed(InvalidateFailure))]
  {
    if HoldsKind(a, f) then
      var detached := a.ad.value.(delegateAttached := false);
      Teardown(if f == Banner then g else g.(delegates := map[]),
               a.(ad := Some(detached)),
               [Completed(token, InvalidatePhase, Succeeded(WrapAd(Some(detached))))])
    else
      Teardown(g, a, [Completed(token, InvalidatePhase, Failed(InvalidateFailure))])
  }

  /** The partner delegate callbacks of a format: each runs the closure stored
      for it, if any, and does nothing otherwise. No callback changes any state,
      so a closure runs again on every repeated callback. */
  function OnPartner(g: Globals, f: LegacyFormat, e: PartnerEvent): (res: Step<Globals>)
    ensures res.state == g
    ensures e.DidLoad? && Declares(f, e) && HooksOf(g, f).loaded.Some? ==>
              res.out == [Completed(HooksOf(g, f).loaded.value.token, LoadPhase,
                                    Succeeded(Wrapped(Some(HooksOf(g, f).loaded.value.ad.kind))))]
    ensures e.DidFail? && HooksOf(g, f).failed.Some? ==>
              res.out == [Completed(HooksOf(g, f).failed.value, LoadPhase, Failed(LoadFailure(Some(e.error))))]
    ensures e == WillLogImpression && HooksOf(g, f).impressed.Some? && HooksOf(g, f).impressed.value.show.Some? ==>
              Deliveries(res.out, HooksOf(g, f).impressed.value.show.value.token, ShowPhase) == 1
    ensures e == WillLogImpression && HooksOf(g, f).impressed.Some? ==>
              var ih := HooksOf(g, f).impressed.value;
              && |res.out| >= 1 && res.out[..1] == Notify(ih.delegate, DidTrackImpression)
              && (ih.show.None? ==> |res.out| == 1)
              && (ih.show.Some? ==> res.out[1..] == [Completed(ih.show.value.token, ShowPhase, Succeeded(Wrapped(Some(ih.show.value.kind))))])
    ensures e == DidClickAd && HooksOf(g, f).clicked.Some? ==> res.out == Notify(HooksOf(g, f).clicked.value, DidClick)
    ensures e == DidClose && Declares(f, e) && HooksOf(g, f).dismissed.Some? ==>
              res.out == Notify(HooksOf(g, f).dismissed.value, DidDismiss)
    ensures e == VideoComplete && Declares(f, e) && HooksOf(g, f).completed.Some? ==>
              res.out == Notify(HooksOf(g, f).completed.value, DidReward(Some(Reward(0, ""))))
    ensures e in {WillClose, ServerRewardSucceeded, ServerRewardFailed} ==> res.out == []
    ensures !e.DidFail? && !Declares(f, e) ==> res.out == []
    ensures e.DidLoad? && HooksOf(g, f).loaded.None? ==> res.out == []
    ensures e.DidFail? && HooksOf(g, f).failed.None? ==> res.out == []
    ensures e == WillLogImpression && HooksOf(g, f).impressed.None? ==> res.out == []
    ensures e == DidClickAd && HooksOf(g, f).clicked.None? ==> res.out == []
    ensures e == DidClose && HooksOf(g, f).dismissed.None? ==> res.out == []
    ensures e == VideoComplete && HooksOf(g, f).completed.None? ==> res.out == []
  {
    var h := HooksOf(g, f);
    if !Declares(f, e) then Step(g, [])
    else
      match e
      case DidLoad =>
        Step(g, if h.loaded.Some? then [Completed(h.loaded.value.token, LoadPhase, Succeeded(WrapAd(Some(h.loaded.value.ad))))] else [])
      case DidFail(pe) =>
        Step(g, if h.failed.Some? then [Completed(h.failed.value, LoadPhase, Failed(LoadFailure(Some(pe))))] else [])
      case WillLogImpression =>
        if h.impressed.None? then Step(g, [])
        else
          var ih := h.impressed.value;
          var note := Notify(ih.delegate, DidTrackImpression);
          if ih.show.None? then Step(g, note)
          else
            var out := note + [Completed(ih.show.value.token, ShowPhase, Succeeded(Wrapped(Some(ih.show.value.kind))))];
            DeliveriesAppend(note, [Completed(ih.show.value.token, ShowPhase, Succeeded(Wrapped(Some(ih.show.value.kind))))],
                             ih.show.value.token, ShowPhase);
            Step(g, out)
      case DidClickAd => Step(g, if h.clicked.Some? then Notify(h.clicked.value, DidClick) else [])
      case DidClose => Step(g, if h.dismissed.Some? then Notify(h.dismissed.value, DidDismiss) else [])
      case VideoComplete => Step(g, if h.completed.Some? then Notify(h.completed.value, DidReward(Some(Reward(0, "")))) else [])
      case WillClose => Step(g, [])
      case ServerRewardSucceeded => Step(g, [])
      case ServerRewardFailed => Step(g, [])
  }

  /** A sequence of partner callbacks of one format. */
  function RunEvents(g: Globals, f: LegacyFormat, es: seq<PartnerEvent>): (res: Step<Globals>)
    ensures res.state == g
    decreases |es|
  {
    if es == [] then Step(g, [])
    else
      var first := OnPartner(g, f, es[0]);
      var rest := RunEvents(first.state, f, es[1..]);
      Step(rest.state, first.out + rest.out)
  }

  function Repeat(e: PartnerEvent, n: nat): (es: seq<PartnerEvent>)
    ensures |es| == n && forall i :: 0 <= i < n ==> es[i] == e
  {
    if n == 0 then [] else [e] + Repeat(e, n - 1)
  }

  /** Because no callback clears a closure, `n` repetitions of a callback deliver
      `n` times what one delivers, to every completion and in every phase. */
  lemma {:induction false} RepeatedCallbackRepeatsDelivery(g: Globals, f: LegacyFormat, e: PartnerEvent, n: nat, t: Token, phase: Phase)
    ensures Deliveries(RunEvents(g, f, Repeat(e, n)).out, t, phase) == n * Deliveries(OnPartner(g, f, e).out, t, phase)
  {
    if n > 0 {
      var es := Repeat(e, n);
      var first := OnPartner(g, f, e);
      var rest := RunEvents(g, f, Repeat(e, n - 1));
      assert es[0] == e && es[1..] == Repeat(e, n - 1);
      assert RunEvents(g, f, es).out == first.out + rest.out;
      RepeatedCallbackRepeatsDelivery(g, f, e, n - 1, t, phase);
      DeliveriesAppend(first.out, rest.out, t, phase);
      var d := Deliveries(first.out, t, phase);
      assert n * d == d + (n - 1) * d;
    }
  }

  /** After a successful load, `n` `didLoad` callbacks report success `n` times. */
  lemma RepeatedDidLoadRedelivers(g: Globals, f: LegacyFormat, n: nat)
    requires HooksOf(g, f).loaded.Some?
    ensures LoadDeliveries(RunEvents(g, f, Repeat(DidLoad, n)).out, HooksOf(g, f).loaded.value.token) == n
  {
    RepeatedCallbackRepeatsDelivery(g, f, DidLoad, n, HooksOf(g, f).loaded.value.token, LoadPhase);
  }

  /** After a successful fullscreen show, every impression callback succeeds the
      show completion once more. */
  lemma RepeatedImpressionResucceedsShow(g: Globals, f: Fullscreen, a: HostAd, t: Token, n: nat)
    requires HoldsKind(a, f) && a.ad.value.valid
    ensures Deliveries(ShowFullscreen(g, f, a, t).out, t, ShowPhase) == 0
    ensures Deliveries(RunEvents(ShowFullscreen(g, f, a, t).state, f, Repeat(WillLogImpression, n)).out, t, ShowPhase) == n
  {
    var g1 := ShowFullscreen(g, f, a, t).state;
    RepeatedCallbackRepeatsDelivery(g1, f, WillLogImpression, n, t, ShowPhase);
  }

  /** Two banner loads in a row: the partner's load result reaches only the
      second request's completion, since the second load overwrote the closures. */
  lemma LatestBannerLoadWins(g: Globals, r1: Request, r2: Request, d1: DelegateId, d2: DelegateId, t1: Token, t2: Token)
    requires HasBidPayload(r1) && HasBidPayload(r2)
    requires t1 != t2
    ensures var g2 := LoadBanner(LoadBanner(g, r1, d1, t1).state, r2, d2, t2).state;
            && LoadDeliveries(OnPartner(g2, Banner, DidLoad).out, t2) == 1
            && LoadDeliveries(OnPartner(g2, Banner, DidLoad).out, t1) == 0
            && OnPartner(g2, Banner, DidClickAd).out == [Forwarded(d2, DidClick)]
  {
  }

  /** Two fullscreen loads of one format for the same placement: the partner's
      load result reaches only the second completion, and a show afterwards
      sends the impression to the delegate the second load stored. */
  lemma LatestFullscreenLoadWins(g: Globals, f: Fullscreen, r1: Request, r2: Request, d1: DelegateId, d2: DelegateId,
                                 t1: Token, t2: Token, a: HostAd, t: Token)
    requires HasBidPayload(r1) && HasBidPayload(r2)
    requires t1 != t2
    requires r1.hostPlacement == r2.hostPlacement == a.request.hostPlacement
    requires HoldsKind(a, f) && a.ad.value.valid
    ensures var g2 := LoadFullscreen(LoadFullscreen(g, f, r1, d1, t1).state, f, r2, d2, t2).state;
            && LoadDeliveries(OnPartner(g2, f, DidLoad).out, t2) == 1
            && LoadDeliveries(OnPartner(g2, f, DidLoad).out, t1) == 0
            && OnPartner(ShowFullscreen(g2, f, a, t).state, f, WillLogImpression).out
               == [Forwarded(d2, DidTrackImpression), Completed(t, ShowPhase, Succeeded(Wrapped(Some(KindFor(f)))))]
  {
    var g2 := LoadFullscreen(LoadFullscreen(g, f, r1, d1, t1).state, f, r2, d2, t2).state;
    assert StoredDelegate(g2, a) == Some(d2);
  }

  /** Destroying one fullscreen ad empties the whole delegate map: an ad of the
      same format shown afterwards, whatever its placement, binds no delegate, so
      its impression is only logged, although it still succeeds the show. Without
      the destroy the same impression would reach the stored delegate. */
  lemma DestroyForgetsEveryPlacement(g: Globals, f: Fullscreen, a1: HostAd, a2: HostAd, t1: Token, t2: Token)
    requires HoldsKind(a1, f)
    requires HoldsKind(a2, f) && a2.ad.value.valid
    requires a2.request.hostPlacement in g.delegates
    ensures OnPartner(ShowFullscreen(g, f, a2, t2).state, f, WillLogImpression).out
            == [Forwarded(g.delegates[a2.request.hostPlacement], DidTrackImpression),
                Completed(t2, ShowPhase, Succeeded(Wrapped(Some(KindFor(f)))))]
    ensures var g1 := Destroy(g, f, a1, t1).state;
            OnPartner(ShowFullscreen(g1, f, a2, t2).state, f, WillLogImpression).out
            == [Logged(DelegateUnavailable), Completed(t2, ShowPhase, Succeeded(Wrapped(Some(KindFor(f)))))]
  {
    var g1 := Destroy(g, f, a1, t1).state;
    assert StoredDelegate(g1, a2) == None;
  }
}
