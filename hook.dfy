/**
 * The `useObservableQuery` hook as a state machine, with React taken away.
 *
 * One `Hook` object is one mounted component. Its fields are the hook's state
 * (`result`, `isSubscribed`), its refs (`subscriptionRef`,
 * `cleanupInProgress`) and one `isComponentMounted` flag per run of the
 * effect (a generation). The query layer is outside the model: every
 * `subscribe` and `unsubscribe` call the hook makes is appended to `calls`,
 * the subscriptions `subscribe` returns are numbered 0, 1, ... in order, and
 * whether a subscription's `unsubscribe` throws is the constant
 * `failingUnsubscribes`.
 *
 * `setupSubscription` has no `await`, so in the source it runs to its end
 * inside the effect. The model still separates issuing `subscribe`
 * (`RunEffect`) from its return (`SubscribeReturns`) so that the
 * interleavings the second mounted check guards against (a teardown while
 * `subscribe` runs) can be stated; `SubscribeReturns` right after the effect
 * is the source's own run, and everything proved holds for every
 * interleaving.
 */
module ObservableQueryHook {
  import opened Options
  import opened QueryResults

  /** The effect's dependency key: the query constructor (by identity) and `JSON.stringify(args)`. */
  datatype EffectKey = EffectKey(query: nat, serializedArgs: string)

  /** One run of the effect: its `isComponentMounted` flag, and whether its `subscribe` call has yet to return. */
  datatype Generation = Generation(mounted: bool, subscribing: bool)

  /** The `unsubscribe` calls one teardown and the following effect make on the subscription they find held. */
  function ReleaseCalls(held: Option<nat>, failing: set<nat>): seq<Call> {
    match held
    case None => []
    case Some(s) => if s in failing then [Unsubscribe(s), Unsubscribe(s)] else [Unsubscribe(s)]
  }

  /** Subscription `s` has been passed to `unsubscribe`. */
  predicate Released(calls: seq<Call>, s: nat) {
    Unsubscribe(s) in calls
  }

  /** How many times subscription `s` has been passed to `unsubscribe`. */
  function Releases(calls: seq<Call>, s: nat): nat {
    multiset(calls)[Unsubscribe(s)]
  }

  /** Subscription `s` is not lost: it is the one held, or it has been unsubscribed. */
  predicate Accounted(held: Option<nat>, calls: seq<Call>, s: nat) {
    held == Some(s) || Released(calls, s)
  }

  /** Appending one call releases `s` once more exactly when the call is `Unsubscribe(s)`. */
  lemma AppendCall(calls: seq<Call>, c: Call)
    ensures forall s: nat :: Released(calls + [c], s) == (Released(calls, s) || c == Unsubscribe(s))
    ensures forall s: nat :: Releases(calls + [c], s) == Releases(calls, s) + (if c == Unsubscribe(s) then 1 else 0)
    ensures forall s: nat :: Released(calls, s) == (Releases(calls, s) > 0)
    ensures forall held: Option<nat>, s: nat {:trigger Accounted(held, calls + [c], s)} ::
      Accounted(held, calls, s) ==> Accounted(held, calls + [c], s)
  {
    assert multiset(calls + [c]) == multiset(calls) + multiset{c};
  }

  class Hook {
    /** The subscriptions whose `unsubscribe` throws. */
    const failingUnsubscribes: set<nat>
    var key: EffectKey
    var result: QueryResultWithState
    var isSubscribed: bool
    /** `subscriptionRef.current`, as the number of the subscription held. */
    var subscriptionRef: Option<nat>
    /** `cleanupInProgressRef.current` */
    var cleanupInProgress: bool
    var generations: seq<Generation>
    var unmounted: bool
    /** How many subscriptions `subscribe` has returned. */
    var created: nat
    var calls: seq<Call>

    /**
     * What holds whether or not a cleanup is running: no subscription is ever
     * lost (each one returned is held or was passed to `unsubscribe`), a
     * subscription is unsubscribed once unless its `unsubscribe` throws, and
     * only the latest generation can be mounted.
     */
    ghost predicate Consistent()
      reads this
    {
      && (forall g :: 0 <= g < |generations| - 1 ==> !generations[g].mounted)
      && (subscriptionRef.Some? ==> subscriptionRef.value < created)
      && (isSubscribed ==> subscriptionRef.Some?)
      && (forall s: nat :: Released(calls, s) ==> s < created)
      && (forall s: nat :: s < created ==> Accounted(subscriptionRef, calls, s))
      && (forall s: nat :: Releases(calls, s) > 1 ==> s in failingUnsubscribes)
      && (subscriptionRef.Some? && subscriptionRef.value !in failingUnsubscribes ==>
            !Released(calls, subscriptionRef.value))
      && (forall g :: 0 <= g < |generations| && generations[g].mounted && generations[g].subscribing ==>
            subscriptionRef.None? || Released(calls, subscriptionRef.value))
    }

    /** Between events: no cleanup is running, and the latest generation is mounted until the component unmounts. */
    ghost predicate Valid()
      reads this
    {
      && Consistent()
      && !cleanupInProgress
      && |generations| > 0
      && (generations[|generations| - 1].mounted <==> !unmounted)
    }

    /**
     * The first render and its effect: the state starts from
     * `QueryResultWithState.initial(defaultValue)` and not subscribed, and the
     * effect issues one `subscribe` call.
     */
    constructor Mount(k: EffectKey, defaultValue: Data, failingUnsubscribes: set<nat>)
      ensures Valid()
      ensures this.failingUnsubscribes == failingUnsubscribes && key == k
      ensures result == Initial(defaultValue) && !isSubscribed && subscriptionRef.None?
      ensures generations == [Generation(true, true)] && !unmounted
      ensures created == 0 && calls == [Subscribe(0)]
    {
      this.failingUnsubscribes := failingUnsubscribes;
      key := k;
      result := Initial(defaultValue);
      isSubscribed := false;
      subscriptionRef := None;
      cleanupInProgress := false;
      generations := [];
      unmounted := false;
      created := 0;
      calls := [];
      new;
      RunEffect();
    }

    /**
     * `cleanupSubscription`: nothing while a cleanup runs or when nothing is
     * held; otherwise the held subscription is unsubscribed and, unless that
     * throws, forgotten and `isSubscribed` cleared. The in-progress flag is
     * reset however `unsubscribe` ends.
     */
    method CleanupSubscription()
      requires Consistent()
      modifies this
      ensures Consistent()
      ensures generations == old(generations) && key == old(key) && result == old(result)
      ensures unmounted == old(unmounted) && created == old(created)
      ensures old(cleanupInProgress) || old(subscriptionRef).None? ==>
        && calls == old(calls) && subscriptionRef == old(subscriptionRef)
        && isSubscribed == old(isSubscribed) && cleanupInProgress == old(cleanupInProgress)
      ensures !old(cleanupInProgress) && old(subscriptionRef).Some? ==>
        && calls == old(calls) + [Unsubscribe(old(subscriptionRef).value)]
        && !cleanupInProgress
        && (old(subscriptionRef).value !in failingUnsubscribes ==> subscriptionRef.None? && !isSubscribed)
        && (old(subscriptionRef).value in failingUnsubscribes ==>
              subscriptionRef == old(subscriptionRef) && isSubscribed == old(isSubscribed))
    {
      if cleanupInProgress {
        return;
      }
      if subscriptionRef.Some? {
        cleanupInProgress := true;
        var s := subscriptionRef.value;
        ghost var before := calls;
        AppendCall(calls, Unsubscribe(s));
        calls := calls + [Unsubscribe(s)];
        forall t: nat | t < created
          ensures Accounted(None, calls, t) && Accounted(Some(s), calls, t)
        {
          assert Accounted(Some(s), before, t);
        }
        if s !in failingUnsubscribes {
          subscriptionRef := None;
          isSubscribed := false;
        }
        cleanupInProgress := false;
      }
    }

    /**
     * A run of the effect: a new mounted generation whose setup first cleans up
     * whatever is held and then issues `subscribe`. (The setup's mounted check
     * always passes at this point: the cleanup before it unmounts nothing.)
     */
    method RunEffect()
      requires Consistent() && !cleanupInProgress && !unmounted
      requires forall g :: 0 <= g < |generations| ==> !generations[g].mounted
      modifies this
      ensures Valid()
      ensures generations == old(generations) + [Generation(true, true)]
      ensures calls == old(calls) + (if old(subscriptionRef).Some? then [Unsubscribe(old(subscriptionRef).value)] else [])
                                  + [Subscribe(|old(generations)|)]
      ensures old(subscriptionRef).Some? && old(subscriptionRef).value !in failingUnsubscribes ==>
        subscriptionRef.None? && !isSubscribed
      ensures old(subscriptionRef).None? || old(subscriptionRef).value in failingUnsubscribes ==>
        subscriptionRef == old(subscriptionRef) && isSubscribed == old(isSubscribed)
      ensures key == old(key) && result == old(result) && unmounted == old(unmounted) && created == old(created)
    {
      generations := generations + [Generation(true, false)];
      var g := |generations| - 1;
      CleanupSubscription();
      generations := generations[g := Generation(true, true)];
      AppendCall(calls, Subscribe(g));
      calls := calls + [Subscribe(g)];
    }

    /** The effect's teardown for generation `g`: mark it unmounted, then clean up. */
    method Teardown(g: nat)
      requires Valid() && g < |generations|
      modifies this
      ensures Consistent() && !cleanupInProgress
      ensures generations == old(generations)[g := old(generations[g]).(mounted := false)]
      ensures calls == old(calls) + (if old(subscriptionRef).Some? then [Unsubscribe(old(subscriptionRef).value)] else [])
      ensures old(subscriptionRef).Some? && old(subscriptionRef).value !in failingUnsubscribes ==>
        subscriptionRef.None? && !isSubscribed
      ensures old(subscriptionRef).None? || old(subscriptionRef).value in failingUnsubscribes ==>
        subscriptionRef == old(subscriptionRef) && isSubscribed == old(isSubscribed)
      ensures key == old(key) && result == old(result) && unmounted == old(unmounted) && created == old(created)
    {
      generations := generations[g := generations[g].(mounted := false)];
      CleanupSubscription();
    }

    /**
     * The `subscribe` call of generation `g` returns (or throws, `threw`).
     * A mounted generation stores the new subscription and sets `isSubscribed`;
     * an unmounted one unsubscribes it at once and stores nothing. A throw
     * clears `isSubscribed` if the generation is still mounted.
     */
    method SubscribeReturns(g: nat, threw: bool)
      requires Valid() && g < |generations| && generations[g].subscribing
      modifies this
      ensures Valid()
      ensures generations == old(generations)[g := old(generations[g]).(subscribing := false)]
      ensures key == old(key) && result == old(result) && unmounted == old(unmounted)
      ensures threw ==> created == old(created) && calls == old(calls) && subscriptionRef == old(subscriptionRef)
      ensures threw ==> isSubscribed == (old(isSubscribed) && !generations[g].mounted)
      ensures !threw ==> created == old(created) + 1
      ensures !threw && generations[g].mounted ==>
        subscriptionRef == Some(old(created)) && isSubscribed && calls == old(calls)
      ensures !threw && !generations[g].mounted ==>
        && subscriptionRef == old(subscriptionRef) && isSubscribed == old(isSubscribed)
        && calls == old(calls) + [Unsubscribe(old(created))]
    {
      generations := generations[g := generations[g].(subscribing := false)];
      if threw {
        if generations[g].mounted {
          isSubscribed := false;
        }
      } else if generations[g].mounted {
        StoreNew();
      } else {
        ReleaseNew();
      }
    }

    /** A mounted generation's `subscribe` returned: the new subscription is held and `isSubscribed` set. */
    method StoreNew()
      requires Consistent() && !cleanupInProgress
      requires subscriptionRef.None? || Released(calls, subscriptionRef.value)
      requires forall g :: 0 <= g < |generations| ==> !(generations[g].mounted && generations[g].subscribing)
      modifies this`subscriptionRef, this`isSubscribed, this`created
      ensures Consistent()
      ensures created == old(created) + 1 && subscriptionRef == Some(old(created)) && isSubscribed
    {
      var subscription := created;
      assert !Released(calls, subscription);
      forall t: nat | t < created + 1
        ensures Accounted(Some(subscription), calls, t)
      {
        if t < created {
          assert Accounted(subscriptionRef, calls, t);
        }
      }
      created := created + 1;
      subscriptionRef := Some(subscription);
      isSubscribed := true;
    }

    /** An unmounted generation's `subscribe` returned: the new subscription is unsubscribed at once. */
    method ReleaseNew()
      requires Consistent()
      modifies this`calls, this`created
      ensures Consistent()
      ensures created == old(created) + 1 && calls == old(calls) + [Unsubscribe(old(created))]
    {
      var subscription := created;
      assert !Released(calls, subscription);
      AppendCall(calls, Unsubscribe(subscription));
      forall t: nat | t < created + 1
        ensures Accounted(subscriptionRef, calls + [Unsubscribe(subscription)], t)
      {
        if t < created {
          assert Accounted(subscriptionRef, calls, t);
        }
      }
      created := created + 1;
      calls := calls + [Unsubscribe(subscription)];
    }

    /**
     * The query pushes `response` to generation `g`'s callback. A mounted
     * generation replaces the result with it and, when it signals failure,
     * cleans up; an unmounted one changes nothing.
     */
    method Deliver(g: nat, response: QueryResult)
      requires Valid() && g < |generations|
      modifies this
      ensures Valid()
      ensures generations == old(generations) && key == old(key) && unmounted == old(unmounted)
      ensures created == old(created)
      ensures !generations[g].mounted ==>
        && result == old(result) && calls == old(calls)
        && subscriptionRef == old(subscriptionRef) && isSubscribed == old(isSubscribed)
      ensures generations[g].mounted ==> result == Received(response, false)
      ensures generations[g].mounted && !SignalsFailure(response) ==>
        calls == old(calls) && subscriptionRef == old(subscriptionRef) && isSubscribed == old(isSubscribed)
      ensures generations[g].mounted && SignalsFailure(response) ==>
        && calls == old(calls) + (if old(subscriptionRef).Some? then [Unsubscribe(old(subscriptionRef).value)] else [])
        && (old(subscriptionRef).None? ==> subscriptionRef.None? && isSubscribed == old(isSubscribed))
        && (old(subscriptionRef).Some? && old(subscriptionRef).value !in failingUnsubscribes ==>
              subscriptionRef.None? && !isSubscribed)
        && (old(subscriptionRef).Some? && old(subscriptionRef).value in failingUnsubscribes ==>
              subscriptionRef == old(subscriptionRef) && isSubscribed == old(isSubscribed))
    {
      if generations[g].mounted {
        result := Received(response, false);
        if SignalsFailure(response) {
          CleanupSubscription();
        }
      }
    }

    /** The `unsubscribe` the hook returns is `cleanupSubscription` itself. */
    method ManualUnsubscribe()
      requires Valid()
      modifies this
      ensures Valid()
      ensures generations == old(generations) && key == old(key) && result == old(result)
      ensures unmounted == old(unmounted) && created == old(created)
      ensures calls == old(calls) + (if old(subscriptionRef).Some? then [Unsubscribe(old(subscriptionRef).value)] else [])
      ensures old(subscriptionRef).Some? && old(subscriptionRef).value !in failingUnsubscribes ==>
        subscriptionRef.None? && !isSubscribed
      ensures old(subscriptionRef).None? ==> isSubscribed == old(isSubscribed) && subscriptionRef.None?
      ensures old(subscriptionRef).Some? && old(subscriptionRef).value in failingUnsubscribes ==>
        subscriptionRef == old(subscriptionRef) && isSubscribed == old(isSubscribed)
    {
      CleanupSubscription();
    }

    /**
     * A render with dependency key `k`. The same key changes nothing; a new
     * one tears down the current generation, then runs the effect again, which
     * makes exactly one new `subscribe` call.
     */
    method Rerender(k: EffectKey)
      requires Valid() && !unmounted
      modifies this
      ensures Valid()
      ensures key == k && result == old(result) && unmounted == old(unmounted) && created == old(created)
      ensures k == old(key) ==>
        && generations == old(generations) && calls == old(calls)
        && subscriptionRef == old(subscriptionRef) && isSubscribed == old(isSubscribed)
      ensures k != old(key) ==>
        && generations == old(generations)[|old(generations)| - 1 := Generation(false, old(generations[|generations| - 1]).subscribing)]
                           + [Generation(true, true)]
        && calls == old(calls) + ReleaseCalls(old(subscriptionRef), failingUnsubscribes)
                               + [Subscribe(|old(generations)|)]
        && (old(subscriptionRef).None? || old(subscriptionRef).value !in failingUnsubscribes ==>
              subscriptionRef.None? && !isSubscribed)
        && (old(subscriptionRef).Some? && old(subscriptionRef).value in failingUnsubscribes ==>
              subscriptionRef == old(subscriptionRef) && isSubscribed == old(isSubscribed))
    {
      if k != key {
        Teardown(|generations| - 1);
        key := k;
        RunEffect();
      }
    }

    /** The component unmounts: the current generation's teardown runs. */
    method Unmount()
      requires Valid() && !unmounted
      modifies this
      ensures Valid() && unmounted
      ensures generations == old(generations)[|old(generations)| - 1 := old(generations[|generations| - 1]).(mounted := false)]
      ensures forall g :: 0 <= g < |generations| ==> !generations[g].mounted
      ensures key == old(key) && result == old(result) && created == old(created)
      ensures calls == old(calls) + (if old(subscriptionRef).Some? then [Unsubscribe(old(subscriptionRef).value)] else [])
      ensures old(subscriptionRef).None? || old(subscriptionRef).value !in failingUnsubscribes ==>
        subscriptionRef.None? && !isSubscribed
      ensures old(subscriptionRef).Some? && old(subscriptionRef).value in failingUnsubscribes ==>
        subscriptionRef == old(subscriptionRef) && isSubscribed == old(isSubscribed)
    {
      Teardown(|generations| - 1);
      unmounted := true;
    }
  }

  // ---------------------------------------------------------------------------
  // The scenarios of the hook's own tests, replayed on the model. The mock
  // query has the default value "" and the arguments `{}`.

  const NoArgs: EffectKey := EffectKey(0, "{}")

  /** A well-formed successful envelope carrying `data`. */
  function Success(data: Data): QueryResult {
    QueryResult(data, true, false)
  }

  /** Before the effect's `subscribe` returns the state is the initial one; after, it is subscribed with the default data. */
  method SubscribedWithDefault() returns (before: QueryResultWithState, subscribedBefore: bool,
                                          data: Data, subscribed: bool, calls: seq<Call>)
    ensures before == Initial("") && !subscribedBefore
    ensures data == "" && subscribed && calls == [Subscribe(0)]
  {
    var h := new Hook.Mount(NoArgs, "", {});
    before, subscribedBefore := h.result, h.isSubscribed;
    h.SubscribeReturns(0, false);
    data, subscribed, calls := h.result.Shown(), h.isSubscribed, h.calls;
  }

  /** Three successful envelopes: the last one wins, and there was one `subscribe` call. */
  method EachResultReplacesTheLast() returns (data: Data, subscribed: bool, calls: seq<Call>)
    ensures data == "my string 2" && subscribed && calls == [Subscribe(0)]
  {
    var h := new Hook.Mount(NoArgs, "", {});
    h.SubscribeReturns(0, false);
    h.Deliver(0, Success("my string"));
    h.Deliver(0, Success("my string 1"));
    h.Deliver(0, Success("my string 2"));
    data, subscribed, calls := h.result.Shown(), h.isSubscribed, h.calls;
  }

  /**
   * The envelope `{ data: "my string" }` has no `isSuccess`, so it counts as
   * a failure: it is shown, and the subscription is torn down.
   */
  method EnvelopeWithoutSuccessFlagTearsDown() returns (result: QueryResultWithState, subscribed: bool, calls: seq<Call>)
    ensures result == Received(QueryResult("my string", false, false), false)
    ensures !subscribed && calls == [Subscribe(0), Unsubscribe(0)]
  {
    var h := new Hook.Mount(NoArgs, "", {});
    h.SubscribeReturns(0, false);
    h.Deliver(0, QueryResult("my string", false, false));
    result, subscribed, calls := h.result, h.isSubscribed, h.calls;
  }

  /**
   * The test that receives data: one `{ data: "my string" }` envelope after
   * the subscription is stored. It is shown, and the hook stays subscribed
   * exactly when the subscription's `unsubscribe` throws. Either way there is
   * one `subscribe` and one `unsubscribe` call.
   */
  method ReceiveData(unsubscribeThrows: bool) returns (data: Data, subscribed: bool, calls: seq<Call>)
    ensures data == "my string" && calls == [Subscribe(0), Unsubscribe(0)]
    ensures subscribed <==> unsubscribeThrows
  {
    var h := new Hook.Mount(NoArgs, "", if unsubscribeThrows then {0} else {});
    h.SubscribeReturns(0, false);
    h.Deliver(0, QueryResult("my string", false, false));
    data, subscribed, calls := h.result.Shown(), h.isSubscribed, h.calls;
  }

  /**
   * `subscribe` hands a failure to its callback before it returns: the cleanup
   * finds nothing held yet, so the subscription is then stored all the same.
   */
  method FailureBeforeSubscribeReturns() returns (result: QueryResultWithState, subscribed: bool,
                                                  held: Option<nat>, calls: seq<Call>)
    ensures result == Received(QueryResult("boom", false, true), false)
    ensures subscribed && held == Some(0) && calls == [Subscribe(0)]
  {
    var h := new Hook.Mount(NoArgs, "", {});
    h.Deliver(0, QueryResult("boom", false, true));
    h.SubscribeReturns(0, false);
    result, subscribed, held, calls := h.result, h.isSubscribed, h.subscriptionRef, h.calls;
  }

  /**
   * The test's own envelopes `{ data: ... }`, three in a row: the first tears
   * the subscription down, yet the generation stays mounted, so the later ones
   * (which the torn-down subscription should no longer send) are still shown.
   */
  method MockEnvelopesAfterTeardown() returns (data: Data, subscribed: bool, calls: seq<Call>)
    ensures data == "my string 2" && !subscribed
    ensures calls == [Subscribe(0), Unsubscribe(0)]
  {
    var h := new Hook.Mount(NoArgs, "", {});
    h.SubscribeReturns(0, false);
    h.Deliver(0, QueryResult("my string", false, false));
    h.Deliver(0, QueryResult("my string 1", false, false));
    h.Deliver(0, QueryResult("my string 2", false, false));
    data, subscribed, calls := h.result.Shown(), h.isSubscribed, h.calls;
  }

  /** Two manual unsubscribes: one `unsubscribe` call, not subscribed, no new `subscribe`. */
  method ManualUnsubscribeTwice() returns (subscribedAfterFirst: bool, subscribed: bool, calls: seq<Call>)
    ensures !subscribedAfterFirst && !subscribed
    ensures calls == [Subscribe(0), Unsubscribe(0)]
  {
    var h := new Hook.Mount(NoArgs, "", {});
    h.SubscribeReturns(0, false);
    h.ManualUnsubscribe();
    subscribedAfterFirst := h.isSubscribed;
    h.ManualUnsubscribe();
    subscribed, calls := h.isSubscribed, h.calls;
  }

  /** Unmounting tears the subscription down. */
  method UnmountReleases() returns (subscribed: bool, calls: seq<Call>)
    ensures !subscribed && calls == [Subscribe(0), Unsubscribe(0)]
  {
    var h := new Hook.Mount(NoArgs, "", {});
    h.SubscribeReturns(0, false);
    h.Unmount();
    subscribed, calls := h.isSubscribed, h.calls;
  }

  const InitialArgs: EffectKey := EffectKey(0, "{\"arg1\":\"initial\"}")
  const UpdatedArgs: EffectKey := EffectKey(0, "{\"arg1\":\"updated\"}")

  /** Re-rendering with arguments that serialise the same makes no new `subscribe` call. */
  method SameArgsKeepSubscription() returns (calls: seq<Call>, held: Option<nat>)
    ensures calls == [Subscribe(0)] && held == Some(0)
  {
    var h := new Hook.Mount(InitialArgs, "", {});
    h.SubscribeReturns(0, false);
    h.Rerender(InitialArgs);
    calls, held := h.calls, h.subscriptionRef;
  }

  /** New arguments release the first subscription before the second `subscribe` call. */
  method ResubscribeOnArgsChange() returns (calls: seq<Call>, held: Option<nat>)
    ensures calls == [Subscribe(0), Unsubscribe(0), Subscribe(1)]
    ensures held == Some(1)
  {
    var h := new Hook.Mount(InitialArgs, "", {});
    h.SubscribeReturns(0, false);
    assert InitialArgs.serializedArgs[10] != UpdatedArgs.serializedArgs[10];
    h.Rerender(UpdatedArgs);
    h.SubscribeReturns(1, false);
    calls, held := h.calls, h.subscriptionRef;
  }

  /** A `subscribe` that throws leaves the hook not subscribed and the default data shown. */
  method SubscribeThrows() returns (data: Data, subscribed: bool, held: Option<nat>)
    ensures data == "" && !subscribed && held.None?
  {
    var h := new Hook.Mount(NoArgs, "", {});
    h.SubscribeReturns(0, true);
    data, subscribed, held := h.result.Shown(), h.isSubscribed, h.subscriptionRef;
  }

  /**
   * Unmounting while `subscribe` is still running: the subscription it then
   * returns is unsubscribed at once and never stored, and a late delivery to
   * that generation writes nothing. Since `setupSubscription` never awaits,
   * the component cannot unmount in between with the code as written: this
   * exercises the defensive branch for a `subscribe` that returns later.
   */
  method UnmountWhileSubscribing() returns (result: QueryResultWithState, subscribed: bool, held: Option<nat>, calls: seq<Call>)
    ensures result == Initial("") && !subscribed && held.None?
    ensures calls == [Subscribe(0), Unsubscribe(0)]
  {
    var h := new Hook.Mount(NoArgs, "", {});
    h.Unmount();
    h.SubscribeReturns(0, false);
    h.Deliver(0, Success("late"));
    result, subscribed, held, calls := h.result, h.isSubscribed, h.subscriptionRef, h.calls;
  }
}
