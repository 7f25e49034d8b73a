/**
  What the coordinator guarantees over whole runs of delegate events:
  write-once flags, `adSize` and `error` tracking the latest success and
  failure, a bounded retry counter, the back-off sequence 2, 4, 8, ...,
  the reset on success, and one callback call per event whose callback
  was supplied.
 */
module BannerProperties {
  import opened Wrappers
  import opened BannerState
  import opened BannerCoordinator

  function Min(a: int, b: int): int { if a <= b then a else b }

  /** How many events of `es` are of kind `k`. */
  function Occurrences<E>(es: seq<Event<E>>, k: Kind): nat
  {
    if es == [] then 0 else (if es[0].Kind() == k then 1 else 0) + Occurrences(es[1..], k)
  }

  /** How many calls of callback `k` the log holds. */
  function Calls<E>(log: seq<Invocation<E>>, k: Kind): nat
  {
    if log == [] then 0 else Calls(log[..|log| - 1], k) + (if log[|log| - 1].kind == k then 1 else 0)
  }

  /** The delays of `n` retries scheduled after `from` earlier ones: 2^(from+1), ..., 2^(from+n). */
  function Backoff(from: nat, n: nat): seq<int>
    decreases n
  {
    if n == 0 then [] else [Pow2(from + 1)] + Backoff(from + 1, n - 1)
  }

  // ---------------------------------------------------------------------
  // Structure of runs

  lemma {:induction false} RunAppend<E>(cb: Callbacks, r: int, s: Session<E>, a: seq<Event<E>>, b: seq<Event<E>>)
    ensures Run(cb, r, s, a + b) == Run(cb, r, Run(cb, r, s, a), b)
    decreases |a|
  {
    if a == [] {
      assert a + b == b;
    } else {
      assert (a + b)[0] == a[0];
      assert (a + b)[1..] == a[1..] + b;
      RunAppend(cb, r, Step(cb, r, s, a[0]), a[1..], b);
    }
  }

  lemma RunSnoc<E>(cb: Callbacks, r: int, s: Session<E>, es: seq<Event<E>>, e: Event<E>)
    ensures Run(cb, r, s, es + [e]) == Step(cb, r, Run(cb, r, s, es), e)
  {
    RunAppend(cb, r, s, es, [e]);
    assert [e][1..] == [];
  }

  lemma {:induction false} OccurrencesAppend<E>(a: seq<Event<E>>, b: seq<Event<E>>, k: Kind)
    ensures Occurrences(a + b, k) == Occurrences(a, k) + Occurrences(b, k)
    decreases |a|
  {
    if a == [] {
      assert a + b == b;
    } else {
      assert (a + b)[0] == a[0];
      assert (a + b)[1..] == a[1..] + b;
      OccurrencesAppend(a[1..], b, k);
    }
  }

  lemma CallsSnoc<E>(log: seq<Invocation<E>>, x: Invocation<E>, k: Kind)
    ensures Calls(log + [x], k) == Calls(log, k) + (if x.kind == k then 1 else 0)
  {
    assert (log + [x])[..|log|] == log;
  }

  lemma {:induction false} Pow2Monotone(m: nat, n: nat)
    requires m <= n
    ensures 1 <= Pow2(m) <= Pow2(n)
    decreases n
  {
    if n > 0 {
      if m < n { Pow2Monotone(m, n - 1); } else { Pow2Monotone(m - 1, n - 1); }
    }
  }

  lemma {:induction false} BackoffAt(from: nat, n: nat, i: nat)
    requires i < n
    ensures |Backoff(from, n)| == n && Backoff(from, n)[i] == Pow2(from + i + 1)
    decreases n
  {
    BackoffLength(from, n);
    if i > 0 { BackoffAt(from + 1, n - 1, i - 1); }
  }

  lemma {:induction false} BackoffLength(from: nat, n: nat)
    ensures |Backoff(from, n)| == n
    decreases n
  {
    if n > 0 { BackoffLength(from + 1, n - 1); }
  }

  /** The first three retries after a reset wait 2, 4 and 8 time units. */
  lemma FirstBackoffs()
    ensures Backoff(0, 3) == [2, 4, 8]
  {
  }

  // ---------------------------------------------------------------------
  // Flags

  /**
    After any run, the flag of kind `k` is set exactly when it was set before
    or some event of that kind occurred: the handlers only ever assign `true`.
   */
  lemma {:induction false} FlagRecordsHistory<E>(cb: Callbacks, r: int, s: Session<E>, es: seq<Event<E>>, k: Kind)
    ensures Flag(Run(cb, r, s, es).state, k) == (Flag(s.state, k) || Occurrences(es, k) > 0)
    decreases |es|
  {
    if es != [] {
      FlagRecordsHistory(cb, r, Step(cb, r, s, es[0]), es[1..], k);
    }
  }

  /** A flag that is set after some prefix of a run stays set after every longer prefix. */
  lemma FlagsStayTrue<E>(cb: Callbacks, r: int, s: Session<E>, es: seq<Event<E>>, i: nat, j: nat, k: Kind)
    requires i <= j <= |es|
    requires Flag(Run(cb, r, s, es[..i]).state, k)
    ensures Flag(Run(cb, r, s, es[..j]).state, k)
  {
    assert es[..j] == es[..i] + es[i..j];
    RunAppend(cb, r, s, es[..i], es[i..j]);
    FlagRecordsHistory(cb, r, Run(cb, r, s, es[..i]), es[i..j], k);
  }

  /** From a fresh state, a flag is set exactly when an event of its kind occurred. */
  lemma FreshFlags<E>(cb: Callbacks, r: int, es: seq<Event<E>>, k: Kind)
    ensures Flag(Run(cb, r, FreshSession(), es).state, k) <==> Occurrences(es, k) > 0
  {
    FlagRecordsHistory(cb, r, FreshSession(), es, k);
  }

  // ---------------------------------------------------------------------
  // adSize and error

  lemma {:induction false} AdSizeOnlyOnLoad<E>(cb: Callbacks, r: int, s: Session<E>, es: seq<Event<E>>)
    requires Occurrences(es, Load) == 0
    ensures Run(cb, r, s, es).state.adSize == s.state.adSize
    decreases |es|
  {
    if es != [] {
      AdSizeOnlyOnLoad(cb, r, Step(cb, r, s, es[0]), es[1..]);
    }
  }

  /** `adSize` is the frame reported by the most recent successful load. */
  lemma LatestLoadSize<E>(cb: Callbacks, r: int, s: Session<E>, pre: seq<Event<E>>, frame: Size, post: seq<Event<E>>)
    requires Occurrences(post, Load) == 0
    ensures Run(cb, r, s, pre + [ReceivedAd(frame)] + post).state.adSize == frame
  {
    RunAppend(cb, r, s, pre + [ReceivedAd(frame)], post);
    RunAppend(cb, r, s, pre, [ReceivedAd(frame)]);
    AdSizeOnlyOnLoad(cb, r, Run(cb, r, s, pre + [ReceivedAd(frame)]), post);
  }

  lemma {:induction false} ErrorOnlyOnFailure<E>(cb: Callbacks, r: int, s: Session<E>, es: seq<Event<E>>)
    requires Occurrences(es, Error) == 0
    ensures Run(cb, r, s, es).state.error == s.state.error
    ensures Run(cb, r, s, es).delays == s.delays
    decreases |es|
  {
    if es != [] {
      ErrorOnlyOnFailure(cb, r, Step(cb, r, s, es[0]), es[1..]);
    }
  }

  /**
    `error` holds the error of the most recent failure; a later successful
    load does not clear it.
   */
  lemma LatestFailureError<E>(cb: Callbacks, r: int, s: Session<E>, pre: seq<Event<E>>, error: E, post: seq<Event<E>>)
    requires Occurrences(post, Error) == 0
    ensures Run(cb, r, s, pre + [FailedToReceiveAd(error)] + post).state.error == Some(error)
  {
    RunAppend(cb, r, s, pre + [FailedToReceiveAd(error)], post);
    RunAppend(cb, r, s, pre, [FailedToReceiveAd(error)]);
    ErrorOnlyOnFailure(cb, r, Run(cb, r, s, pre + [FailedToReceiveAd(error)]), post);
  }

  // ---------------------------------------------------------------------
  // Retry counter and back-off

  /** The counter never passes `max(retryLimit, 0)`, and every delay lies in 2 .. 2^max(retryLimit, 0). */
  ghost predicate RetryBounded<E>(r: int, s: Session<E>)
  {
    && s.retryCount <= Max(r, 0)
    && forall i :: 0 <= i < |s.delays| ==> 2 <= s.delays[i] <= Pow2(Max(r, 0))
  }

  lemma {:induction false} RetryBoundedInvariant<E>(cb: Callbacks, r: int, s: Session<E>, es: seq<Event<E>>)
    requires RetryBounded(r, s)
    ensures RetryBounded(r, Run(cb, r, s, es))
    decreases |es|
  {
    if es != [] {
      var t := Step(cb, r, s, es[0]);
      if es[0].FailedToReceiveAd? && s.retryCount < r {
        Pow2Monotone(1, s.retryCount + 1);
        Pow2Monotone(s.retryCount + 1, Max(r, 0));
        assert t.delays == s.delays + [Pow2(s.retryCount + 1)];
      }
      assert RetryBounded(r, t);
      RetryBoundedInvariant(cb, r, t, es[1..]);
    }
  }

  /** Retries are only ever appended, at most one per failure. */
  lemma {:induction false} RetriesOnlyOnFailure<E>(cb: Callbacks, r: int, s: Session<E>, es: seq<Event<E>>)
    ensures s.delays <= Run(cb, r, s, es).delays
    ensures |Run(cb, r, s, es).delays| <= |s.delays| + Occurrences(es, Error)
    decreases |es|
  {
    if es != [] {
      RetriesOnlyOnFailure(cb, r, Step(cb, r, s, es[0]), es[1..]);
    }
  }

  /**
    A run with no successful load schedules `min(K, retryLimit - count)`
    retries for its K failures, the Nth of them with delay 2^(count+N);
    clicks, impressions and screen events in between leave the counter alone.
   */
  lemma {:induction false} FailuresWithoutLoad<E>(cb: Callbacks, r: int, s: Session<E>, es: seq<Event<E>>)
    requires Occurrences(es, Load) == 0
    ensures var n := Min(Occurrences(es, Error), Max(r - s.retryCount, 0));
            && Run(cb, r, s, es).retryCount == s.retryCount + n
            && Run(cb, r, s, es).delays == s.delays + Backoff(s.retryCount, n)
    decreases |es|
  {
    if es != [] {
      var c, t, rest := s.retryCount, Step(cb, r, s, es[0]), es[1..];
      assert es[0].Kind() != Load && Occurrences(rest, Load) == 0;
      assert Occurrences(es, Error) == (if es[0].Kind() == Error then 1 else 0) + Occurrences(rest, Error);
      assert Run(cb, r, s, es) == Run(cb, r, t, rest);
      FailuresWithoutLoad(cb, r, t, rest);
      var m := Min(Occurrences(rest, Error), Max(r - t.retryCount, 0));
      if es[0].FailedToReceiveAd? && c < r {
        assert t.retryCount == c + 1 && t.delays == s.delays + [Pow2(c + 1)];
        assert Min(Occurrences(es, Error), Max(r - c, 0)) == m + 1;
        assert Backoff(c, m + 1) == [Pow2(c + 1)] + Backoff(c + 1, m);
        assert s.delays + [Pow2(c + 1)] + Backoff(c + 1, m) == s.delays + ([Pow2(c + 1)] + Backoff(c + 1, m));
      } else if es[0].FailedToReceiveAd? {
        assert t.retryCount == c && t.delays == s.delays && Max(r - c, 0) == 0;
      } else {
        assert t.retryCount == c && t.delays == s.delays;
        assert Occurrences(es, Error) == Occurrences(rest, Error);
      }
    }
  }

  /**
    From a reset counter, a run with K failures and no successful load
    schedules exactly `min(K, max(retryLimit, 0))` retries, the Nth of them
    with delay 2^N: 2, 4, 8, ...
   */
  lemma FailuresFromReset<E>(cb: Callbacks, r: int, s: Session<E>, es: seq<Event<E>>)
    requires Occurrences(es, Load) == 0 && s.retryCount == 0
    ensures var n := Min(Occurrences(es, Error), Max(r, 0));
            && |Run(cb, r, s, es).delays| == |s.delays| + n
            && forall i :: |s.delays| <= i < |s.delays| + n ==> Run(cb, r, s, es).delays[i] == Pow2(i - |s.delays| + 1)
  {
    var n := Min(Occurrences(es, Error), Max(r, 0));
    FailuresWithoutLoad(cb, r, s, es);
    BackoffLength(0, n);
    forall i | |s.delays| <= i < |s.delays| + n ensures Run(cb, r, s, es).delays[i] == Pow2(i - |s.delays| + 1) {
      BackoffAt(0, n, i - |s.delays|);
    }
  }

  /** With the default budget of zero no failure ever schedules a retry. */
  lemma {:induction false} DefaultLimitNeverRetries<E>(cb: Callbacks, s: Session<E>, es: seq<Event<E>>)
    requires s.retryCount == 0
    ensures Run(cb, 0, s, es).delays == s.delays && Run(cb, 0, s, es).retryCount == 0
    decreases |es|
  {
    if es != [] {
      DefaultLimitNeverRetries(cb, Step(cb, 0, s, es[0]), es[1..]);
    }
  }

  /**
    After a successful load the failures that follow count again from the
    first, whatever the counter was before and whatever other events come
    between them: they schedule delays 2, 4, ... up to the budget.
   */
  lemma SuccessResetsBackoff<E>(cb: Callbacks, r: int, s: Session<E>, frame: Size, rest: seq<Event<E>>)
    requires Occurrences(rest, Load) == 0
    ensures var n := Min(Occurrences(rest, Error), Max(r, 0));
            && Run(cb, r, s, [ReceivedAd(frame)] + rest).delays == s.delays + Backoff(0, n)
            && Run(cb, r, s, [ReceivedAd(frame)] + rest).retryCount == n
  {
    RunAppend(cb, r, s, [ReceivedAd(frame)], rest);
    FailuresWithoutLoad(cb, r, Run(cb, r, s, [ReceivedAd(frame)]), rest);
  }

  /**
    The first failure after a success, with any non-load, non-failure events
    between them, schedules one retry after 2 units when the budget is at
    least one, and none otherwise.
   */
  lemma FailureAfterSuccessIsFirst<E>(cb: Callbacks, r: int, s: Session<E>, frame: Size, between: seq<Event<E>>, error: E)
    requires Occurrences(between, Load) == 0 && Occurrences(between, Error) == 0
    ensures var t := Run(cb, r, s, [ReceivedAd(frame)] + between + [FailedToReceiveAd(error)]);
            && t.delays == s.delays + (if r >= 1 then [2] else [])
            && t.retryCount == (if r >= 1 then 1 else 0)
  {
    var rest := between + [FailedToReceiveAd(error)];
    assert [ReceivedAd(frame)] + between + [FailedToReceiveAd(error)] == [ReceivedAd(frame)] + rest;
    OccurrencesAppend(between, [FailedToReceiveAd(error)], Load);
    OccurrencesAppend(between, [FailedToReceiveAd(error)], Error);
    SuccessResetsBackoff(cb, r, s, frame, rest);
    assert Pow2(1) == 2;
  }

  /** The usual order: a load, its impression, then a failure waits 2 units before the retry. */
  lemma LoadImpressionFailure<E>(cb: Callbacks, r: int, s: Session<E>, frame: Size, error: E)
    requires r >= 1
    ensures Run(cb, r, s, [ReceivedAd(frame), RecordedImpression, FailedToReceiveAd(error)]).delays == s.delays + [2]
  {
    assert [ReceivedAd(frame), RecordedImpression, FailedToReceiveAd(error)]
        == [ReceivedAd(frame)] + [RecordedImpression] + [FailedToReceiveAd(error)];
    FailureAfterSuccessIsFirst(cb, r, s, frame, [RecordedImpression], error);
  }

  // ---------------------------------------------------------------------
  // Callbacks

  lemma StepCalls<E>(cb: Callbacks, r: int, s: Session<E>, e: Event<E>, k: Kind)
    ensures Calls(Step(cb, r, s, e).log, k) == Calls(s.log, k) + (if cb.Supplies(k) && e.Kind() == k then 1 else 0)
  {
    var t := Step(cb, r, s, e);
    if cb.Supplies(e.Kind()) {
      assert t.log == s.log + [t.log[|t.log| - 1]] && t.log[|t.log| - 1].kind == e.Kind();
      CallsSnoc(s.log, t.log[|t.log| - 1], k);
    }
  }

  /**
    Over any run, each callback is called once per event of its kind when it
    was supplied, and never when it was not.
   */
  lemma {:induction false} CallbacksOncePerEvent<E>(cb: Callbacks, r: int, s: Session<E>, es: seq<Event<E>>, k: Kind)
    ensures Calls(Run(cb, r, s, es).log, k) == Calls(s.log, k) + (if cb.Supplies(k) then Occurrences(es, k) else 0)
    decreases |es|
  {
    if es != [] {
      StepCalls(cb, r, s, es[0], k);
      CallbacksOncePerEvent(cb, r, Step(cb, r, s, es[0]), es[1..], k);
    }
  }

  /** With every callback left out, no run calls anything. */
  lemma {:induction false} NoCallbacksNoCalls<E>(r: int, s: Session<E>, es: seq<Event<E>>)
    ensures Run(NoCallbacks, r, s, es).log == s.log
    decreases |es|
  {
    if es != [] {
      NoCallbacksNoCalls(r, Step(NoCallbacks, r, s, es[0]), es[1..]);
    }
  }

  // ---------------------------------------------------------------------
  // A worked run: budget 3; failures A and B, a 320x50 load, failure C.

  lemma TwoFailuresLoadFailure<E>(cb: Callbacks, a: E, b: E, c: E)
    ensures var s1 := Run(cb, 3, FreshSession(), [FailedToReceiveAd(a)]);
            s1.state.error == Some(a) && s1.delays == [2] && s1.retryCount == 1
    ensures var s2 := Run(cb, 3, FreshSession(), [FailedToReceiveAd(a), FailedToReceiveAd(b)]);
            s2.state.error == Some(b) && s2.delays == [2, 4] && s2.retryCount == 2
    ensures var s3 := Run(cb, 3, FreshSession(), [FailedToReceiveAd(a), FailedToReceiveAd(b), ReceivedAd(Size(320, 50))]);
            s3.state.didLoad && s3.state.adSize == Size(320, 50) && s3.retryCount == 0 && s3.state.error == Some(b)
    ensures var s4 := Run(cb, 3, FreshSession(), [FailedToReceiveAd(a), FailedToReceiveAd(b), ReceivedAd(Size(320, 50)), FailedToReceiveAd(c)]);
            s4.state.error == Some(c) && s4.delays == [2, 4, 2] && s4.retryCount == 1
  {
    var f := FreshSession();
    var e1, e2, e3, e4 := FailedToReceiveAd(a), FailedToReceiveAd(b), ReceivedAd(Size(320, 50)), FailedToReceiveAd(c);
    assert Pow2(1) == 2 && Pow2(2) == 4;
    var t1 := Step(cb, 3, f, e1);
    assert t1.state.error == Some(a) && t1.delays == [2] && t1.retryCount == 1;
    var t2 := Step(cb, 3, t1, e2);
    assert t2.state.error == Some(b) && t2.delays == [2, 4] && t2.retryCount == 2;
    var t3 := Step(cb, 3, t2, e3);
    assert t3.state.didLoad && t3.state.adSize == Size(320, 50) && t3.retryCount == 0;
    assert t3.state.error == Some(b) && t3.delays == [2, 4];
    var t4 := Step(cb, 3, t3, e4);
    assert t4.state.error == Some(c) && t4.delays == [2, 4, 2] && t4.retryCount == 1;

    var none: seq<Event<E>> := [];
    RunSnoc(cb, 3, f, none, e1);
    assert none + [e1] == [e1];
    assert Run(cb, 3, f, [e1]) == t1;
    RunSnoc(cb, 3, f, [e1], e2);
    assert [e1] + [e2] == [e1, e2];
    assert Run(cb, 3, f, [e1, e2]) == t2;
    RunSnoc(cb, 3, f, [e1, e2], e3);
    assert [e1, e2] + [e3] == [e1, e2, e3];
    assert Run(cb, 3, f, [e1, e2, e3]) == t3;
    RunSnoc(cb, 3, f, [e1, e2, e3], e4);
    assert [e1, e2, e3] + [e4] == [e1, e2, e3, e4];
    assert Run(cb, 3, f, [e1, e2, e3, e4]) == t4;
  }

  /** The same run driven through the objects: a fresh state, a view with budget 3, its coordinator. */
  method TwoFailuresLoadFailureOnObjects<E>(cb: Callbacks, a: E, b: E, c: E) returns (st: BannerAdState<E>, co: Coordinator<E>)
    ensures fresh(st) && fresh(co) && co.parent.state == st
    ensures st.didLoad && st.adSize == Size(320, 50) && st.error == Some(c)
    ensures !st.didClick && !st.didRecordImpression && !st.willPresentScreen && !st.willDismissScreen && !st.didDismissScreen
    ensures co.currentRetryCount == 1 && co.scheduledDelays == [2, 4, 2]
    ensures co.Snapshot() == Run(cb, 3, FreshSession(), [FailedToReceiveAd(a), FailedToReceiveAd(b), ReceivedAd(Size(320, 50)), FailedToReceiveAd(c)])
  {
    st := new BannerAdState();
    co := new Coordinator(BannerAdView(st, 3, cb));
    ghost var delivered: seq<Event<E>> := [];
    assert co.Snapshot() == Run(cb, 3, FreshSession(), delivered);

    co.BannerViewDidFailToReceiveAd(a);
    RunSnoc(cb, 3, FreshSession(), delivered, FailedToReceiveAd(a));
    delivered := delivered + [FailedToReceiveAd(a)];

    co.BannerViewDidFailToReceiveAd(b);
    RunSnoc(cb, 3, FreshSession(), delivered, FailedToReceiveAd(b));
    delivered := delivered + [FailedToReceiveAd(b)];

    co.BannerViewDidReceiveAd(Size(320, 50));
    RunSnoc(cb, 3, FreshSession(), delivered, ReceivedAd(Size(320, 50)));
    delivered := delivered + [ReceivedAd(Size(320, 50))];

    co.BannerViewDidFailToReceiveAd(c);
    RunSnoc(cb, 3, FreshSession(), delivered, FailedToReceiveAd(c));
    delivered := delivered + [FailedToReceiveAd(c)];

    assert delivered == [FailedToReceiveAd(a), FailedToReceiveAd(b), ReceivedAd(Size(320, 50)), FailedToReceiveAd(c)];
    TwoFailuresLoadFailure(cb, a, b, c);
    FreshFlags(cb, 3, delivered, Click);
    FreshFlags(cb, 3, delivered, Impression);
    FreshFlags(cb, 3, delivered, WillPresent);
    FreshFlags(cb, 3, delivered, WillDismiss);
    FreshFlags(cb, 3, delivered, DidDismiss);
  }
}
