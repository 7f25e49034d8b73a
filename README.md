# ADManagerKit banner coordinator, modelled in Dafny

ADManagerKit wraps a Google Mobile Ads banner in a SwiftUI view. Its one piece of logic is the
`Coordinator` nested in `BannerAdView`: it is the banner's delegate, and each of the seven delegate
events is written into the observable `BannerAdState` record and forwarded to an optional user
closure. A load failure whose retry counter is still below the view's `retryLimit` increments the
counter to `n` and schedules a re-load after `2^n` seconds. So the retries after a reset wait 2, 4,
8, … seconds. A successful load resets the counter to 0.

The model has four modules:

- `Wrappers` (`wrappers.dfy`): `Option`, standing for Swift's optionals.
- `BannerState` (`banner_ad_state.dfy`): the class `BannerAdState` with its eight fields, which are
  assigned in place. Its value view is `AdState`, and `Fresh()` is the record of default values.
- `BannerCoordinator` (`banner_ad_view.dfy`): the parent view's configuration (`BannerAdView`: the
  shared state, `retryLimit`, and which closures were supplied) and the delegate events (`Event`).
  `Step` and `Run` give one event's effect and a run's effect on a value `Session` (state, retry
  counter, scheduled delays, callback log). The class `Coordinator` has the seven handlers as
  `modifies` methods. Each handler states its new state field by field and also that its effect
  equals `Step`.
- `BannerProperties` (`banner_properties.dfy`): lemmas over `Run`. They cover write-once flags,
  `adSize` and `error` following the latest success and failure, the bounded counter, the back-off
  delays 2, 4, 8, … (whatever other events come between the failures), the reset on success, and one
  callback call per event.

How the model stands for the Swift code:

- A closure is a "supplied" flag (`Callbacks`).
- Calling a closure appends an `Invocation` to the ghost log `invocations`. The entry holds the
  closure's kind, the error it was handed and the state it could observe. This records that each
  handler updates the state before calling the closure.
- `DispatchQueue.main.asyncAfter(… + delay) { bannerView.load(Request()) }` appends `delay` to the
  ghost log `scheduledDelays`.
- The `bannerView` argument of the handlers is reduced to what they use: on success, the banner
  frame's size. On failure, the banner is only the target of the scheduled re-load.

## Model

| member | source | states |
|---|---|---|
| `BannerState.BannerAdState.constructor` | Sources/ADManagerKit/Banner/BannerAdState.swift:14-23 | a fresh state has all six flags false, `error` nil and `adSize` zero |
| `BannerState.Fresh` | Sources/ADManagerKit/Banner/BannerAdState.swift:14-21 | the declared initial record: no flag set, no error, zero size |
| `BannerCoordinator.Coordinator.constructor` | Sources/ADManagerKit/Banner/BannerAdView.swift:60-71 | the coordinator keeps its parent, copies the parent's `retryLimit`, starts its retry counter at 0, and has scheduled and called nothing yet |
| `BannerCoordinator.Coordinator.Call` | Sources/ADManagerKit/Banner/BannerAdView.swift:83 | an optional closure is called once if supplied, with the state as it is at that point, and is skipped silently otherwise |
| `BannerCoordinator.Coordinator.BannerViewDidReceiveAd` | Sources/ADManagerKit/Banner/BannerAdView.swift:76-84 | `adSize` becomes the frame size and `didLoad` true; nothing else in the state changes, so `error` is kept; the counter is reset to 0; no retry is scheduled; `didLoad` is called once if supplied; the effect equals `Step` on a load event |
| `BannerCoordinator.Coordinator.BannerViewDidFailToReceiveAd` | Sources/ADManagerKit/Banner/BannerAdView.swift:91-102 | `error` becomes the given error and nothing else in the state changes; `didError` is called with that error if supplied, whatever the retry decision; only when the counter is below `retryLimit` is it incremented by one and a retry scheduled with delay 2^(new counter); otherwise counter and schedule are unchanged; the effect equals `Step` on a failure event |
| `BannerCoordinator.Coordinator.BannerViewDidRecordClick` | Sources/ADManagerKit/Banner/BannerAdView.swift:107-110 | only `didClick` becomes true; counter and schedule are unchanged; only `didClick` is called, if supplied; the effect equals `Step` |
| `BannerCoordinator.Coordinator.BannerViewDidRecordImpression` | Sources/ADManagerKit/Banner/BannerAdView.swift:115-118 | only `didRecordImpression` becomes true; counter and schedule are unchanged; only its own callback is called, if supplied; the effect equals `Step` |
| `BannerCoordinator.Coordinator.BannerViewWillPresentScreen` | Sources/ADManagerKit/Banner/BannerAdView.swift:123-126 | only `willPresentScreen` becomes true; counter and schedule are unchanged; only its own callback is called, if supplied; the effect equals `Step` |
| `BannerCoordinator.Coordinator.BannerViewWillDismissScreen` | Sources/ADManagerKit/Banner/BannerAdView.swift:131-134 | only `willDismissScreen` becomes true; counter and schedule are unchanged; only its own callback is called, if supplied; the effect equals `Step` |
| `BannerCoordinator.Coordinator.BannerViewDidDismissScreen` | Sources/ADManagerKit/Banner/BannerAdView.swift:139-142 | only `didDismissScreen` becomes true; counter and schedule are unchanged; only its own callback is called, if supplied; the effect equals `Step` |
| `BannerCoordinator.Pow2` | Sources/ADManagerKit/Banner/BannerAdView.swift:98 | the back-off delay 2^n for retry n is longer than n and, for n ≥ 1, even |
| `BannerCoordinator.Step` | Sources/ADManagerKit/Banner/BannerAdView.swift:76-142 | one event: only its own flag can become set and none is cleared; only a load changes `adSize` (to the frame) and only a failure changes `error` (to its error); a load resets the counter, a failure below the limit increments it, and other events keep it; exactly one delay is appended on a failure below the limit, and none otherwise; the event's own callback alone is logged once if supplied, with its error for `didError`, and sees the updated state |
| `BannerCoordinator.Run` | Sources/ADManagerKit/Banner/BannerAdView.swift:58-143 | events handled one at a time: scheduled retries and past callback calls stay on record, and a counter within `max(retryLimit, 0)` stays within it |
| `BannerProperties.RunAppend` | Sources/ADManagerKit/Banner/BannerAdView.swift:58-143 | delivering `a` and then `b` one event at a time has the same effect as delivering `a + b` |
| `BannerProperties.FlagRecordsHistory` | Sources/ADManagerKit/Banner/BannerAdState.swift:14-20 | after any run, each flag (and `error` being non-nil) holds exactly when it held before or an event of its kind occurred: flags are only ever set to true |
| `BannerProperties.FlagsStayTrue` | Sources/ADManagerKit/Banner/BannerAdView.swift:81-140 | a flag that is set after some prefix of a run is still set after every longer prefix |
| `BannerProperties.FreshFlags` | Sources/ADManagerKit/Banner/BannerAdState.swift:14-20 | starting from a fresh state, a flag is set after a run if and only if an event of its kind occurred in it |
| `BannerProperties.AdSizeOnlyOnLoad` | Sources/ADManagerKit/Banner/BannerAdView.swift:77-80 | a run with no successful load leaves `adSize` unchanged |
| `BannerProperties.LatestLoadSize` | Sources/ADManagerKit/Banner/BannerAdView.swift:77-80 | `adSize` is the frame of the most recent successful load, whatever other events follow it |
| `BannerProperties.ErrorOnlyOnFailure` | Sources/ADManagerKit/Banner/BannerAdView.swift:92-101 | a run with no failure leaves `error` and the retry schedule unchanged |
| `BannerProperties.LatestFailureError` | Sources/ADManagerKit/Banner/BannerAdView.swift:92 | `error` holds the error of the most recent failure; later successes and other events do not clear it |
| `BannerProperties.RetryBoundedInvariant` | Sources/ADManagerKit/Banner/BannerAdView.swift:95-98 | every run keeps the counter at most `max(retryLimit, 0)` and every scheduled delay between 2 and 2^max(retryLimit, 0) |
| `BannerProperties.RetriesOnlyOnFailure` | Sources/ADManagerKit/Banner/BannerAdView.swift:95-101 | retries are only appended, never withdrawn, and a run schedules at most one per failure |
| `BannerProperties.FailuresWithoutLoad` | Sources/ADManagerKit/Banner/BannerAdView.swift:95-99 | a run with no successful load and K failures, starting from counter c, schedules exactly min(K, max(retryLimit − c, 0)) retries with delays 2^(c+1), 2^(c+2), …, and leaves the counter that much higher; clicks, impressions and screen events in between change nothing of it |
| `BannerProperties.FailuresFromReset` | Sources/ADManagerKit/Banner/BannerAdView.swift:95-99 | from a reset counter, a run with no successful load and K failures schedules exactly min(K, max(retryLimit, 0)) retries, the Nth of them with delay 2^N |
| `BannerProperties.BackoffAt` | Sources/ADManagerKit/Banner/BannerAdView.swift:98 | the back-off sequence after `from` earlier retries has its i-th delay equal to 2^(from+i+1) |
| `BannerProperties.FirstBackoffs` | Sources/ADManagerKit/Banner/BannerAdView.swift:98 | the first three back-off delays are 2, 4 and 8 |
| `BannerProperties.DefaultLimitNeverRetries` | Sources/ADManagerKit/Banner/BannerAdView.swift:37 | with the default `retryLimit` of 0, no run schedules a retry and the counter stays 0 |
| `BannerProperties.SuccessResetsBackoff` | Sources/ADManagerKit/Banner/BannerAdView.swift:82-99 | after a successful load, the failures of any following run with no further load schedule delays 2, 4, … again up to the budget and set the counter to their number within it, whatever the counter was before |
| `BannerProperties.FailureAfterSuccessIsFirst` | Sources/ADManagerKit/Banner/BannerAdView.swift:82-98 | the first failure after a success, with any clicks, impressions or screen events between them, schedules exactly one retry with delay 2 and sets the counter to 1 when `retryLimit` ≥ 1, and schedules none otherwise |
| `BannerProperties.LoadImpressionFailure` | Sources/ADManagerKit/Banner/BannerAdView.swift:76-118 | a load, then its impression, then a failure schedules one retry with delay 2 whenever `retryLimit` ≥ 1 |
| `BannerProperties.CallbacksOncePerEvent` | Sources/ADManagerKit/Banner/BannerAdView.swift:83-141 | over any run, each callback is called once per event of its kind if it was supplied, and never if it was not |
| `BannerProperties.NoCallbacksNoCalls` | Sources/ADManagerKit/Banner/BannerAdView.swift:38-44 | with every closure left at its default nil, no run calls anything |
| `BannerProperties.TwoFailuresLoadFailure` | Sources/ADManagerKit/Banner/BannerAdView.swift:76-102 | with budget 3: failure A gives error A and delays [2]; failure B gives error B, delays [2, 4] and counter 2; a 320×50 load sets `didLoad` and `adSize`, resets the counter and keeps error B; failure C gives error C and delays [2, 4, 2] |
| `BannerProperties.TwoFailuresLoadFailureOnObjects` | Sources/ADManagerKit/Banner/BannerAdView.swift:68-102 | the same run, driven through a fresh `BannerAdState` and its `Coordinator`, leaves the objects in the state that `Run` describes |

## Left out

- The SwiftUI glue is left out: `makeCoordinator`, `makeUIView`, `updateUIView` and the `sized` modifier. So is the `Bundle` lookup of the ad unit id and the root view controller wiring. These are platform and layout calls.
- Asynchronous scheduling is left out. `DispatchQueue.main.asyncAfter` and the `bannerView.load(Request())` it runs are only the appended delay. Whatever a re-load later reports is just another delivered event.
- A re-load scheduled before the coordinator goes away still runs, because the Swift closure calls `load` unconditionally. So no cancellation is modelled.
- The user's closures are assumed not to write the shared state. Writes to `BannerAdState`'s public fields from outside the coordinator are outside the model, whether from a closure or from any other client holding the state. The run lemmas (`FlagRecordsHistory`, `FlagsStayTrue`, `AdSizeOnlyOnLoad`, `LatestLoadSize`, `LatestFailureError` and the rest) hold for the coordinator's own writes only.
- `BannerCoordinator.Pow2`: does not model `pow(2.0, Double(n))` as floating point. The delay is the exact integer `Pow2(n)`, which `Double` also represents exactly up to 2^1023.
- `retryLimit` is any `int`, as Swift's `Int` allows. A negative limit behaves like 0. The counter can never pass `Int.max`, because it only grows while it is below `retryLimit`, so no overflow is modelled.
- `adSize` is a pair of integers standing for `CGSize`'s two `CGFloat`s. The handler copies the frame's width and height unchanged, so only equality matters.
- The error payload is an opaque type parameter. Only equality of errors is used.
- `@Published` / `ObservableObject` change notification is left out. It is a Combine mechanism with no logic visible in the source.
- `ADManagerKit.swift` (SDK start-up) and `BannerAdViewSize.swift` (mapping to SDK size constants) are not part of this model. Neither is the example app or the package manifest.
