/**
  The delegate-to-state bridge of BannerAdView.swift: the `Coordinator` that
  receives the banner's seven lifecycle events, writes them into the shared
  `BannerAdState`, calls the optional user callbacks and, on a load failure,
  schedules a re-load after an exponential back-off while the retry budget
  lasts.

  `Step` and `Run` describe one event and a run of events on values; the class
  `Coordinator` performs the same updates in place and each handler's
  postcondition ties its effect to `Step`.
 */
module BannerCoordinator {
  import opened Wrappers
  import opened BannerState

  /** One kind per delegate event, and per optional callback. */
  datatype Kind = Load | Error | Click | Impression | WillPresent | WillDismiss | DidDismiss

  /** The delegate events the banner component delivers. */
  datatype Event<E> =
    | ReceivedAd(frame: Size)
    | FailedToReceiveAd(error: E)
    | RecordedClick
    | RecordedImpression
    | WillPresentScreen
    | WillDismissScreen
    | DidDismissScreen
  {
    function Kind(): Kind
    {
      match this
      case ReceivedAd(_) => Load
      case FailedToReceiveAd(_) => Error
      case RecordedClick => Click
      case RecordedImpression => Impression
      case WillPresentScreen => WillPresent
      case WillDismissScreen => WillDismiss
      case DidDismissScreen => DidDismiss
    }
  }

  /** Which of the seven optional closures the view was given. */
  datatype Callbacks = Callbacks(
    didLoad: bool,
    didError: bool,
    didClick: bool,
    didRecordImpression: bool,
    willPresentScreen: bool,
    willDismissScreen: bool,
    didDismissScreen: bool)
  {
    predicate Supplies(k: Kind)
    {
      match k
      case Load => didLoad
      case Error => didError
      case Click => didClick
      case Impression => didRecordImpression
      case WillPresent => willPresentScreen
      case WillDismiss => willDismissScreen
      case DidDismiss => didDismissScreen
    }
  }

  /** Every closure left at its default `nil`. */
  const NoCallbacks := Callbacks(false, false, false, false, false, false, false)

  /** The parent view: the shared state, the retry budget and the callbacks. */
  datatype BannerAdView<E> = BannerAdView(state: BannerAdState<E>, retryLimit: int, callbacks: Callbacks)

  /**
    One call of a supplied callback: which one, the error it was handed
    (only `didError` takes one) and the state it could observe.
   */
  datatype Invocation<E> = Invocation(kind: Kind, error: Option<E>, observed: AdState<E>)

  /**
    Everything the coordinator affects: the shared state, its retry counter,
    the delays of the re-loads it scheduled, and the callbacks it called.
   */
  datatype Session<E> = Session(state: AdState<E>, retryCount: nat, delays: seq<int>, log: seq<Invocation<E>>)

  function Max(a: int, b: int): int { if a <= b then b else a }

  function FreshSession<E>(): Session<E>
  {
    Session(Fresh(), 0, [], [])
  }

  /** `pow(2.0, Double(n))`, on integers: every back-off delay is longer than its retry number, and even. */
  function Pow2(n: nat): (r: nat)
    ensures n < r
    ensures n > 0 ==> r % 2 == 0
  {
    if n == 0 then 1 else 2 * Pow2(n - 1)
  }

  /** Whether the state records that an event of kind `k` happened. */
  predicate Flag<E>(st: AdState<E>, k: Kind)
  {
    match k
    case Load => st.didLoad
    case Error => st.error.Some?
    case Click => st.didClick
    case Impression => st.didRecordImpression
    case WillPresent => st.willPresentScreen
    case WillDismiss => st.willDismissScreen
    case DidDismiss => st.didDismissScreen
  }

  /** The log after the callback of kind `k` was called, if it was supplied. */
  function Notify<E>(cb: Callbacks, k: Kind, error: Option<E>, st: AdState<E>, log: seq<Invocation<E>>): seq<Invocation<E>>
  {
    if cb.Supplies(k) then log + [Invocation(k, error, st)] else log
  }

  /**
    The coordinator's reaction to one event. Only the event's own flag can
    become set and none is ever cleared; only a load changes `adSize` and only
    a failure changes `error`; the counter is reset by a load, grows by one on
    a failure below the limit and is otherwise kept; a failure appends at most
    one delay, and other events none; the event's own callback, and no other,
    is logged once if supplied.
   */
  function Step<E>(cb: Callbacks, retryLimit: int, s: Session<E>, e: Event<E>): (r: Session<E>)
    ensures forall k :: Flag(r.state, k) == (Flag(s.state, k) || e.Kind() == k)
    ensures r.state.adSize == (if e.ReceivedAd? then e.frame else s.state.adSize)
    ensures r.state.error == (if e.FailedToReceiveAd? then Some(e.error) else s.state.error)
    ensures e.ReceivedAd? ==> r.retryCount == 0
    ensures e.FailedToReceiveAd? ==> r.retryCount == (if s.retryCount < retryLimit then s.retryCount + 1 else s.retryCount)
    ensures !e.ReceivedAd? && !e.FailedToReceiveAd? ==> r.retryCount == s.retryCount
    ensures s.delays <= r.delays
    ensures |r.delays| == |s.delays| + (if e.FailedToReceiveAd? && s.retryCount < retryLimit then 1 else 0)
    ensures r.retryCount <= Max(retryLimit, s.retryCount)
    ensures s.log <= r.log && |r.log| == |s.log| + (if cb.Supplies(e.Kind()) then 1 else 0)
    ensures cb.Supplies(e.Kind()) ==>
              && r.log[|r.log| - 1].kind == e.Kind()
              && r.log[|r.log| - 1].error == (if e.FailedToReceiveAd? then Some(e.error) else None)
              && r.log[|r.log| - 1].observed == r.state
  {
    match e
    case ReceivedAd(frame) =>
      var st := s.state.(adSize := frame, didLoad := true);
      Session(st, 0, s.delays, Notify(cb, Load, None, st, s.log))
    case FailedToReceiveAd(error) =>
      var st := s.state.(error := Some(error));
      var log := Notify(cb, Error, Some(error), st, s.log);
      if s.retryCount < retryLimit then
        Session(st, s.retryCount + 1, s.delays + [Pow2(s.retryCount + 1)], log)
      else
        Session(st, s.retryCount, s.delays, log)
    case RecordedClick =>
      var st := s.state.(didClick := true);
      s.(state := st, log := Notify(cb, Click, None, st, s.log))
    case RecordedImpression =>
      var st := s.state.(didRecordImpression := true);
      s.(state := st, log := Notify(cb, Impression, None, st, s.log))
    case WillPresentScreen =>
      var st := s.state.(willPresentScreen := true);
      s.(state := st, log := Notify(cb, WillPresent, None, st, s.log))
    case WillDismissScreen =>
      var st := s.state.(willDismissScreen := true);
      s.(state := st, log := Notify(cb, WillDismiss, None, st, s.log))
    case DidDismissScreen =>
      var st := s.state.(didDismissScreen := true);
      s.(state := st, log := Notify(cb, DidDismiss, None, st, s.log))
  }

  /**
    The coordinator's reaction to a run of events delivered one at a time:
    retries already scheduled and callbacks already called stay on record,
    and a counter within `max(retryLimit, 0)` stays within it.
   */
  function Run<E>(cb: Callbacks, retryLimit: int, s: Session<E>, es: seq<Event<E>>): (r: Session<E>)
    ensures s.delays <= r.delays && s.log <= r.log
    ensures s.retryCount <= Max(retryLimit, 0) ==> r.retryCount <= Max(retryLimit, 0)
    decreases |es|
  {
    if es == [] then s else Run(cb, retryLimit, Step(cb, retryLimit, s, es[0]), es[1..])
  }

  class Coordinator<E> {
    const parent: BannerAdView<E>
    const retryLimit: int
    var currentRetryCount: nat
    /** The delay of every re-load scheduled so far, in scheduling order. */
    ghost var scheduledDelays: seq<int>
    /** Every callback called so far, in calling order. */
    ghost var invocations: seq<Invocation<E>>

    ghost function Snapshot(): Session<E>
      reads this, parent.state
    {
      Session(parent.state.View(), currentRetryCount, scheduledDelays, invocations)
    }

    constructor (parent: BannerAdView<E>)
      ensures this.parent == parent && retryLimit == parent.retryLimit
      ensures currentRetryCount == 0 && scheduledDelays == [] && invocations == []
    {
      this.parent := parent;
      this.retryLimit := parent.retryLimit;
      currentRetryCount := 0;
      scheduledDelays := [];
      invocations := [];
    }

    /** Appends the call of callback `k` to the log, if the view supplied it. */
    method Call(k: Kind, error: Option<E>)
      modifies this`invocations
      ensures invocations == Notify(parent.callbacks, k, error, parent.state.View(), old(invocations))
    {
      if parent.callbacks.Supplies(k) {
        invocations := invocations + [Invocation(k, error, parent.state.View())];
      }
    }

    /** `bannerViewDidReceiveAd`; `frame` is the size of the banner that loaded. */
    method BannerViewDidReceiveAd(frame: Size)
      modifies this, parent.state
      ensures parent.state.View() == old(parent.state.View()).(adSize := frame, didLoad := true)
      ensures currentRetryCount == 0 && scheduledDelays == old(scheduledDelays)
      ensures invocations == old(invocations) + (if parent.callbacks.didLoad then [Invocation(Load, None, parent.state.View())] else [])
      ensures Snapshot() == Step(parent.callbacks, retryLimit, old(Snapshot()), ReceivedAd(frame))
    {
      parent.state.adSize := frame;
      parent.state.didLoad := true;
      currentRetryCount := 0;
      Call(Load, None);
    }

    /** `bannerView(_:didFailToReceiveAdWithError:)`: record, report, then maybe retry. */
    method BannerViewDidFailToReceiveAd(error: E)
      modifies this, parent.state
      ensures parent.state.View() == old(parent.state.View()).(error := Some(error))
      ensures invocations == old(invocations) + (if parent.callbacks.didError then [Invocation(Error, Some(error), parent.state.View())] else [])
      ensures old(currentRetryCount) < retryLimit ==>
                currentRetryCount == old(currentRetryCount) + 1 &&
                scheduledDelays == old(scheduledDelays) + [Pow2(currentRetryCount)]
      ensures old(currentRetryCount) >= retryLimit ==>
                currentRetryCount == old(currentRetryCount) && scheduledDelays == old(scheduledDelays)
      ensures Snapshot() == Step(parent.callbacks, retryLimit, old(Snapshot()), FailedToReceiveAd(error))
    {
      parent.state.error := Some(error);
      Call(Error, Some(error));

      if !(currentRetryCount < retryLimit) {
        return;
      }
      currentRetryCount := currentRetryCount + 1;

      ghost var delay := Pow2(currentRetryCount);
      scheduledDelays := scheduledDelays + [delay];
    }

    method BannerViewDidRecordClick()
      modifies this, parent.state
      ensures parent.state.View() == old(parent.state.View()).(didClick := true)
      ensures currentRetryCount == old(currentRetryCount) && scheduledDelays == old(scheduledDelays)
      ensures invocations == old(invocations) + (if parent.callbacks.didClick then [Invocation(Click, None, parent.state.View())] else [])
      ensures Snapshot() == Step(parent.callbacks, retryLimit, old(Snapshot()), RecordedClick)
    {
      parent.state.didClick := true;
      Call(Click, None);
    }

    method BannerViewDidRecordImpression()
      modifies this, parent.state
      ensures parent.state.View() == old(parent.state.View()).(didRecordImpression := true)
      ensures currentRetryCount == old(currentRetryCount) && scheduledDelays == old(scheduledDelays)
      ensures invocations == old(invocations) + (if parent.callbacks.didRecordImpression then [Invocation(Impression, None, parent.state.View())] else [])
      ensures Snapshot() == Step(parent.callbacks, retryLimit, old(Snapshot()), RecordedImpression)
    {
      parent.state.didRecordImpression := true;
      Call(Impression, None);
    }

    method BannerViewWillPresentScreen()
      modifies this, parent.state
      ensures parent.state.View() == old(parent.state.View()).(willPresentScreen := true)
      ensures currentRetryCount == old(currentRetryCount) && scheduledDelays == old(scheduledDelays)
      ensures invocations == old(invocations) + (if parent.callbacks.willPresentScreen then [Invocation(WillPresent, None, parent.state.View())] else [])
      ensures Snapshot() == Step(parent.callbacks, retryLimit, old(Snapshot()), WillPresentScreen)
    {
      parent.state.willPresentScreen := true;
      Call(WillPresent, None);
    }

    method BannerViewWillDismissScreen()
      modifies this, parent.state
      ensures parent.state.View() == old(parent.state.View()).(willDismissScreen := true)
      ensures currentRetryCount == old(currentRetryCount) && scheduledDelays == old(scheduledDelays)
      ensures invocations == old(invocations) + (if parent.callbacks.willDismissScreen then [Invocation(WillDismiss, None, parent.state.View())] else [])
      ensures Snapshot() == Step(parent.callbacks, retryLimit, old(Snapshot()), WillDismissScreen)
    {
      parent.state.willDismissScreen := true;
      Call(WillDismiss, None);
    }

    method BannerViewDidDismissScreen()
      modifies this, parent.state
      ensures parent.state.View() == old(parent.state.View()).(didDismissScreen := true)
      ensures currentRetryCount == old(currentRetryCount) && scheduledDelays == old(scheduledDelays)
      ensures invocations == old(invocations) + (if parent.callbacks.didDismissScreen then [Invocation(DidDismiss, None, parent.state.View())] else [])
      ensures Snapshot() == Step(parent.callbacks, retryLimit, old(Snapshot()), DidDismissScreen)
    {
      parent.state.didDismissScreen := true;
      Call(DidDismiss, None);
    }
  }
}
