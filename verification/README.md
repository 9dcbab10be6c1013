# Meta Audience Network mediation adapter: banner sizing and the ad lifecycle

This project models the core of the iOS mediation adapter for Meta Audience
Network. Two small sequential pieces are modelled, across four revisions of the
adapter:

* **Banner size negotiation.** A requested banner height maps to one of the
  partner's three size classes (50, 90 and 250) and, separately, to the frame the
  ad view is laid out in. A missing size counts as height 50. The revisions write
  the two lower bands either as closed ranges (`50...89`, `90...249`) or as
  half-open ones (`50..<89`, `90..<249`). Module `BannerSize` covers this.
* **The per-ad lifecycle.** A session is loaded with a bid payload, shown,
  invalidated, and receives the partner SDK's delegate callbacks. Each step is a
  pure function from the state to the new state plus the outputs it emits, in
  order. The outputs are:
  * results delivered to host completions;
  * events forwarded to the host delegate;
  * calls into the partner SDK;
  * the log lines that stand for a decision (result ignored, delegate unavailable,
    delegate call ignored).

  Host completions are identified by tokens, so a proof can count how often a
  token receives a result. The partner SDK is an event source: a partner callback
  of the format's delegate protocol, a change of the ad's validity flag, or the
  release of the weakly held host delegate can happen at any time.

The revisions, newest first:

| module | revision | what distinguishes it |
|---|---|---|
| `AdapterAd` | per-format session classes deriving from `MetaAudienceNetworkAdapterAd` | every terminal callback empties the completion slot |
| `AdAdapter` | `MetaAudienceNetworkAdAdapter` with per-format extensions | `load` installs a wrapper that empties the slot before calling through |
| `SharedAdapter` | class `Adapter` with `Banner.swift`, `Interstitial.swift`, `Rewarded.swift` | the slot is never emptied; the size uses closed bands, the frame half-open bands |
| `GlobalClosures` | the oldest, module-level closure variables per format | closures are never cleared; there is a placement -> delegate map |

Module `Common` holds the shared vocabulary:

* requests and formats;
* partner ad objects and partner callbacks;
* results, errors and outputs;
* the function `Deliveries`, which counts how many results of a phase a run delivers to one completion.

Main results:

* Closed and half-open bands choose different size classes at exactly one height, 249. At 89 both choose the 50 class.
* Heights in the fractional gaps (89,90) and (249,250) get the 50 class under both styles.
* A layout's frame is always the frame of its own size class, except in `SharedAdapter` at height 249. There the 90 class (728x90) is put in a 320x50 frame.
* In the two newer revisions each load completion receives at most one result, whatever the partner SDK does. This is proved by an induction over arbitrary input sequences: deliveries to a completion plus "still pending" never exceed "pending at the start" plus the loads it was passed to.
* In the two older revisions a repeated partner callback delivers again. `n` repetitions give `n` deliveries.
* In the oldest revision the most recent load takes the routing. A fullscreen show reports success only from the impression callback, and again on every repeated impression.

### Behaviour worth knowing

* Every revision looks only at the requested height and never fails a banner load: anything outside the bands gets the 50 class. `BannerSize.ClosedIsLargestFit` and `BannerSize.HalfOpenIsLargestFit` show the heights where this is not the tallest class that fits.
* A missing or empty bid payload is reported differently by each revision. The rewarded-interstitial session reports `loadFailureInvalidAdMarkup`. The other newest sessions and the self-clearing wrapper report `noBidPayload`. The two older revisions report a plain load failure.
* Only the two newer revisions deliver a load result at most once. In the two older ones a repeated terminal callback delivers again (`SharedAdapter.TerminalCallbackRedelivers`, `GlobalClosures.RepeatedDidLoadRedelivers`).
* In `Adapter` (Interstitial.swift:57-64, Rewarded.swift:56-63) invalidation only detaches the ad's delegate and leaves the ad in place. A show afterwards still presents it (`SharedAdapter.ShowAfterInvalidateStillPresents`).
* `Adapter.load` stores the completion before the payload check (Adapter.swift:39). After an empty-markup failure the completion stays referenced, but nothing can call it: the request never changes, so no partner ad is ever created to call back (`SharedAdapter.EmptyMarkupStaysPending`).
* A second load in `Adapter` replaces the ad without detaching the first one, so the first ad can still call back, even after the second is invalidated (`SharedAdapter.ReplacedAdStillCallsBack`).
* `Adapter.init` takes an adapter argument but does not store it (Adapter.swift:31-35). `SharedAdapter.Session` therefore has no adapter field.

## Model

| member | source | states |
|---|---|---|
| BannerSize.ClassFrame | Source/MetaAudienceNetworkAdapterBannerAd.swift:77-90 | every frame has origin (0,0) and the class's height; it is 728 wide for the 90 class and 320 wide otherwise |
| BannerSize.SizeClassOf | Source/MetaAudienceNetworkAdapterBannerAd.swift:59-72 | every height gets a class; a missing size and any height below 50 get the 50 class; from 50 up the chosen class is never taller than the height asked for |
| BannerSize.FrameOf | Source/MetaAudienceNetworkAdAdapter+Banner.swift:54-67 | the frame switch, though written separately, always yields the frame of the class the size switch picks with the same range style |
| BannerSize.SizeClassBands | Source/MetaAudienceNetworkAdAdapter+Banner.swift:36-49 | the band table in both directions: the 90 class exactly on the middle band, the 250 class exactly from 250 up, the 50 class on the lower band and everywhere no band covers |
| BannerSize.ClosedIsLargestFit | Source/MetaAudienceNetworkAdapterBannerAd.swift:59-72 | with closed bands the class is the tallest that fits the height exactly when the height is not strictly between 249 and 250 |
| BannerSize.HalfOpenIsLargestFit | Source/MetaAudienceNetworkBannerAdapter.swift:93-106 | with half-open bands the class is the tallest that fits exactly when the height is not in [249,250); at 249 the half-open bands fall back to 50 |
| BannerSize.FractionalGapsDefault | Source/MetaAudienceNetworkBannerAdapter.swift:93-124 | heights in (89,90) and (249,250) get the 50 class and the 320x50 frame under either range style |
| BannerSize.BoundsDisagreeOnlyAt249 | Source/MetaAudienceNetworkBannerAdapter.swift:96-105 | closed and half-open bands pick different classes iff the height is 249 (90 vs 50); at 89 both pick 50 |
| BannerSize.LayoutConsistentExceptSharedAt249 | Banner.swift:55-86 | a revision's banner frame matches its size class for every requested size except in the shared-adapter revision at height 249 |
| BannerSize.RevisionsDisagree | Source/MetaAudienceNetworkAdAdapter+Banner.swift:36-49 | two revisions give a height different size classes iff one uses closed and the other half-open bands and the height is 249 |
| AdapterAd.Init | Source/MetaAudienceNetworkAdapterAd.swift:27-39 | the new session holds exactly the given adapter, request and delegate, with no pending completion and no ad, and satisfies the session invariant |
| AdapterAd.NewAd | Source/MetaAudienceNetworkAdapterBannerAd.swift:37-44 | the created ad is of the format's partner class, has the adapter as delegate, and for banners carries a size class and frame that agree |
| AdapterAd.Load | Source/MetaAudienceNetworkAdapterInterstitialAd.swift:25-41 | a nil or empty payload fails at once (`noBidPayload`, or `loadFailureInvalidAdMarkup` for rewarded interstitial) and leaves the session unchanged; otherwise the completion is pending, a new ad replaces the old and the partner loads exactly the payload, with no result delivered yet |
| AdapterAd.Show | Source/MetaAudienceNetworkAdapterRewardedAd.swift:47-64 | banners do nothing; a fullscreen show presents iff the ad exists and is valid and then succeeds with empty details; no ad gives `noAdReadyToShow`, an invalid ad `showFailure`; rewarded interstitial gives `showFailureAdNotReady` for both |
| AdapterAd.Terminal | Source/MetaAudienceNetworkAdapterBannerAd.swift:97-108 | a terminal callback delivers its result to the pending completion and empties the slot, or only logs the ignored result when none is pending |
| Common.Notify | Source/MetaAudienceNetworkAdapterBannerAd.swift:110-118 | an event reaches the weakly held host delegate iff it is still alive; otherwise only `delegateUnavailable` is logged (the same pattern in every newer session and in the oldest revision's closures) |
| AdapterAd.OnPartner | Source/MetaAudienceNetworkAdapterRewardedAd.swift:71-114 | terminal callbacks empty the slot and deliver success, `loadFailure` with the partner error (passed through unwrapped for rewarded interstitial) or an ignored-result log; impression, click, close and `videoComplete` map one-to-one to `didTrackImpression`, `didClick`, `didDismiss` and `didReward` through the delegate-or-log rule; `willClose` logs a note for interstitials and an ignored delegate call otherwise, and the server-reward callbacks log an ignored delegate call; callbacks the format does not declare do nothing; only the slot ever changes |
| AdapterAd.InlineView | Source/MetaAudienceNetworkAdapterBannerAd.swift:20 | the inline view is the ad for banners and absent for every fullscreen format |
| AdapterAd.Run | Source/MetaAudienceNetworkAdapterAd.swift:17-21 | adapter and request never change over any sequence of inputs |
| AdapterAd.ApplyKeepsInvariant | Source/MetaAudienceNetworkAdapterRewardedInterstitialAd.swift:23-41 | every step keeps the invariant: the ad is of the request's class, attached, exists only past the payload gate, and a pending completion implies an ad |
| AdapterAd.RunKeepsInvariant | Source/MetaAudienceNetworkAdapterInterstitialAd.swift:29-40 | the invariant holds after any sequence of inputs |
| AdapterAd.ApplyDeliveryBudget | Source/MetaAudienceNetworkAdapterInterstitialAd.swift:71-82 | one step delivers to a completion only by spending the pending slot or by being the load it was passed to |
| AdapterAd.RunDeliveryBudget | Source/MetaAudienceNetworkAdapterRewardedAd.swift:71-82 | over any run, results delivered to a completion plus whether it is still pending are at most whether it was pending plus the loads it was passed to |
| AdapterAd.DeliveredAtMostOnce | Source/MetaAudienceNetworkAdapterRewardedInterstitialAd.swift:65-75 | a completion passed to one load receives at most one result, whatever the partner SDK does |
| AdapterAd.DuplicateTerminalIgnored | Source/MetaAudienceNetworkAdapterBannerAd.swift:97-108 | after one terminal callback a second one reaches no completion and only logs `loadResultIgnored` |
| AdapterAd.SecondLoadDropsFirst | Source/MetaAudienceNetworkAdapterBannerAd.swift:35 | after a second load, no sequence of inputs that does not pass the first completion to another load ever delivers to it |
| AdAdapter.Init | Source/MetaAudienceNetworkAdAdapter.swift:21-40 | the adapter holds the given adapter, request and delegate; the PartnerAd wraps a nil ad and nothing is pending |
| AdAdapter.NewAd | Source/MetaAudienceNetworkAdAdapter+Banner.swift:25-30 | the new ad is of the format's class, attached, and for banners its frame agrees with its size class |
| AdAdapter.Deliver | Source/MetaAudienceNetworkAdAdapter.swift:47-50 | calling the wrapper empties the slot and passes the result to the completion; with nothing pending `loadIgnored` is logged |
| AdAdapter.Load | Source/MetaAudienceNetworkAdAdapter.swift:46-59 | the wrapper for the new completion replaces any earlier one; a nil or empty payload delivers `noBidPayload` through it at once, so nothing stays pending and the PartnerAd is untouched; otherwise exactly one ad of the format's class is created and loaded with the payload |
| AdAdapter.ShowFullscreen | Source/MetaAudienceNetworkAdAdapter+Interstitial.swift:34-45 | succeeds, presenting and returning the PartnerAd, iff it wraps a valid ad of the expected class; otherwise `showFailure` and nothing presented |
| AdAdapter.Show | Source/MetaAudienceNetworkAdAdapter.swift:66-76 | the completion receives exactly one result; banners succeed at once with the PartnerAd; a fullscreen show succeeds and presents iff the PartnerAd wraps a valid ad of the format's class, and then delivers that PartnerAd; otherwise `showFailure` |
| AdAdapter.OnPartner | Source/MetaAudienceNetworkAdAdapter+Rewarded.swift:49-83 | terminal callbacks go through the wrapper (success with the PartnerAd, or a load failure with the partner error) and leave nothing pending; impression, click and close map one-to-one to the delegate calls or `delegateUnavailable`; `videoComplete` forwards amount 0 and label ""; `willClose` and the server-reward callbacks only log a note; callbacks the format does not declare do nothing |
| AdAdapter.Run | Source/MetaAudienceNetworkAdAdapter.swift:15-18 | adapter and request never change over any sequence of inputs |
| AdAdapter.ApplyKeepsInvariant | Source/MetaAudienceNetworkAdAdapter+Interstitial.swift:17-29 | every step keeps the invariant: the PartnerAd's ad is of the request's class, exists only past the payload gate, and a pending completion implies an ad |
| AdAdapter.RunKeepsInvariant | Source/MetaAudienceNetworkAdAdapter+Rewarded.swift:17-29 | the invariant holds after any sequence of inputs |
| AdAdapter.ApplyDeliveryBudget | Source/MetaAudienceNetworkAdAdapter.swift:47-50 | one step delivers to a completion only by spending the pending wrapper or by being the load it was passed to |
| AdAdapter.RunDeliveryBudget | Source/MetaAudienceNetworkAdAdapter+Banner.swift:71-77 | over any run, deliveries to a completion plus whether it is pending are bounded by whether it was pending plus the loads it was passed to |
| AdAdapter.DeliveredAtMostOnce | Source/MetaAudienceNetworkAdAdapter.swift:46-50 | a completion passed to one load receives at most one result, whatever the partner SDK does |
| AdAdapter.SecondLoadDropsFirst | Source/MetaAudienceNetworkAdAdapter.swift:47 | a second load replaces the wrapper, so no sequence of inputs that does not pass the first completion to another load ever calls it |
| SharedAdapter.Init | Adapter.swift:20-35 | the new adapter holds the request and delegate; the PartnerAd wraps a nil ad, no completion is stored, no partner ad can call back, and the session invariant holds |
| SharedAdapter.NewAd | Banner.swift:28-33 | the new ad is of the format's class, attached, and a banner's frame agrees with its size class iff the requested height is not 249 |
| SharedAdapter.Load | Adapter.swift:37-59 | the completion is stored in every case; a nil or empty payload fails at once with a plain load failure and changes nothing else; otherwise one attached ad of the format's class replaces the PartnerAd and is loaded with exactly the payload, and the replaced ad keeps calling back if it was still attached |
| SharedAdapter.Show | Adapter.swift:61-81 | the show completion is stored and receives exactly one result; banners succeed at once; a fullscreen show presents and succeeds iff the PartnerAd wraps a valid ad of the format's class, else `showFailure` |
| SharedAdapter.Invalidate | Adapter.swift:83-98 | succeeds iff the PartnerAd wraps an ad of the format's class, and then only detaches that ad's delegate, keeping the ad and any earlier ad's attachment; otherwise `invalidateFailure` and nothing changes |
| SharedAdapter.Forward | Banner.swift:98-104 | an event reaches the host delegate if it is alive and is dropped silently otherwise |
| SharedAdapter.OnPartner | Rewarded.swift:65-101 | no callback changes the adapter and none arrives once no ad has it as delegate; terminal callbacks deliver to the stored completion and to nothing when none is stored; impression, click and close go to `didTrackImpression`, `didClick` and `didDismiss` of the live delegate; `videoComplete` forwards amount 0 and label ""; `willClose`, server-reward and undeclared callbacks emit nothing |
| SharedAdapter.Run | Adapter.swift:17 | the request never changes over any sequence of inputs |
| SharedAdapter.ApplyKeepsInvariant | Interstitial.swift:18-34 | every step keeps the invariant: an ad exists only for a request with a bid payload, is of the format's class, has a layout iff it is a banner, and a replaced attached ad implies a current one |
| SharedAdapter.RunKeepsInvariant | Adapter.swift:17-20 | the invariant holds after any sequence of inputs |
| SharedAdapter.NoPayloadNoCallbacks | Interstitial.swift:20-27 | for a request without a bid payload no partner ad ever has the adapter as delegate, so every partner callback is a no-op |
| SharedAdapter.NoPayloadApplyDeliveries | Adapter.swift:37-59 | without a bid payload, one input delivers to a load completion exactly when it is a load for it |
| SharedAdapter.NoPayloadRunDeliveries | Adapter.swift:37-41 | without a bid payload, over any run a load completion receives exactly as many results as loads it was passed to |
| SharedAdapter.TerminalCallbackRedelivers | Interstitial.swift:68-74 | with a completion stored and some ad still attached, `n` repetitions of a terminal callback deliver to it `n` times and change nothing |
| SharedAdapter.DuplicateDidLoadDeliversTwice | Banner.swift:90-92 | a successful load followed by two `didLoad` callbacks reports success to the same completion twice |
| SharedAdapter.EmptyMarkupStaysPending | Adapter.swift:37-41 | an empty-markup load fails once at once and its completion stays stored, yet no later input except another load for it ever calls it again |
| SharedAdapter.InvalidateSilencesCallbacks | Banner.swift:43-50 | after invalidating the only attached ad, the load completion stays stored and no partner callback reaches the adapter |
| SharedAdapter.ReplacedAdStillCallsBack | Interstitial.swift:25-33 | a second load leaves the first ad attached, so after invalidating the second a `didLoad` still reaches the second completion |
| SharedAdapter.ShowAfterInvalidateStillPresents | Interstitial.swift:57-64 | a successful invalidation of a valid fullscreen ad leaves it showable: the next show presents it |
| GlobalClosures.NewAd | Source/MetaAudienceNetworkBannerAdapter.swift:45-52 | the new ad is of the format's class, attached, and a banner's frame always agrees with its size class |
| GlobalClosures.LoadBanner | Source/MetaAudienceNetworkBannerAdapter.swift:32-73 | a nil or empty payload fails at once and changes no global; otherwise exactly the four banner closures are overwritten for this request, and the other formats and the delegate map are untouched |
| GlobalClosures.LoadFullscreen | Source/MetaAudienceNetworkInterstitialAdapter.swift:34-60 | a nil or empty payload fails at once and stores no delegate; otherwise the delegate is stored under the host placement and the load closures point at this request, leaving the impression, click, dismiss and reward closures and the other formats unchanged |
| GlobalClosures.ShowFullscreen | Source/MetaAudienceNetworkRewardedAdapter.swift:71-111 | a valid ad of the format's class is presented with no result yet; the impression closure now holds the show completion and the delegate looked up by placement, the click and dismiss closures (and for rewarded ads the reward closure) notify that delegate, and the load closures and other formats are unchanged; anything else fails at once with `showFailure` and changes nothing |
| GlobalClosures.Destroy | Source/MetaAudienceNetworkInterstitialAdapter.swift:106-117 | succeeds iff the PartnerAd wraps an ad of the format's class, detaching that ad's delegate; a fullscreen success empties the whole delegate map; no closure is ever cleared; otherwise `invalidateFailure` and nothing changes |
| GlobalClosures.OnPartner | Source/MetaAudienceNetworkRewardedAdapter.swift:130-178 | callbacks change no global; each runs its stored closure: load success or failure to the stored completion; an impression notifies the captured delegate (or logs its absence) and then, for a fullscreen show, succeeds the stored show completion exactly once; a click, close or reward goes to the captured delegate or logs its absence; a callback whose closure slot is empty, `willClose`, server-reward and undeclared callbacks do nothing |
| GlobalClosures.RepeatedCallbackRepeatsDelivery | Source/MetaAudienceNetworkInterstitialAdapter.swift:121-154 | `n` repetitions of any callback deliver `n` times what one delivers, to every completion in every phase |
| GlobalClosures.RepeatedDidLoadRedelivers | Source/MetaAudienceNetworkBannerAdapter.swift:128-132 | with a load closure installed, `n` `didLoad` callbacks report success `n` times |
| GlobalClosures.RepeatedImpressionResucceedsShow | Source/MetaAudienceNetworkInterstitialAdapter.swift:66-79 | a successful show delivers nothing at present time, and `n` impressions afterwards succeed the show completion `n` times |
| GlobalClosures.LatestFullscreenLoadWins | Source/MetaAudienceNetworkInterstitialAdapter.swift:44-79 | after two fullscreen loads for one placement the load result reaches only the second completion, and a show's impression reaches the second load's delegate |
| GlobalClosures.DestroyForgetsEveryPlacement | Source/MetaAudienceNetworkInterstitialAdapter.swift:106-111 | before a fullscreen destroy a show's impression reaches the delegate stored for its placement; after it, the same show only logs `delegateUnavailable` and still succeeds the show completion |
| GlobalClosures.LatestBannerLoadWins | Source/MetaAudienceNetworkBannerAdapter.swift:54-72 | after two banner loads the partner's load result reaches only the second completion, and clicks go to the second delegate |

## Left out

- SDK initialisation, the bidder-token fetch and the GDPR/COPPA/CCPA setters (Source/MetaAudienceNetworkAdapter.swift): one-line pass-throughs into the partner SDK with no adapter logic.
- Global SDK toggles (Source/MetaAudienceNetworkAdapterConfiguration.swift): test-device and log-level switches with no logic.
- The `DispatchQueue.main.async` around the rewarded-interstitial load: the partner load is treated as issued at once.
- Partner SDK internals: ad validity and the timing of delegate callbacks are inputs, not modelled behaviour.
- Callbacks from partner ad objects that a later load replaced: in `AdapterAd` and `AdAdapter` they arrive as callbacks of the session at any time, which over-approximates what the partner SDK can do. `SharedAdapter` tracks whether any of its ads is still attached; `GlobalClosures` routes callbacks per format, not per ad, so the detach in `GlobalClosures.Destroy` has no effect on which closures run.
- AdapterAd.Terminal: delivers the result and empties the slot in one step. In the source the completion runs first and the slot is emptied after it returns, so a load started from inside the completion would have its new completion erased; calls back into the session from inside a completion are not modelled.
- Log text and error description strings: errors are an enumeration of kinds, and logs appear only where they stand for a decision.
- View controllers and presentation: a show is one `Present` call into the partner SDK.
- CGFloat: heights are `real` and only compared, never computed with. NaN is not modelled.
- In the oldest revision, how a format is dispatched to its loader, shower and destroyer: that code is not part of this model. Each format's operation is modelled directly.
- There is no invalidate in the two newer revisions, because those source files define none.
- `makeAdAdapter` and the per-format session constructors: they only call `init`.
- Only the `GlobalClosures` revision keeps the placement -> delegate map. The other revisions hold one delegate per session, released through the `DelegateReleased` input.
