/**
 * The older `useObservableQuery` variant (`ObservableQueryFor.ts`), as a
 * state machine with React taken away.
 *
 * Its `cleanupSubscription` reads `isSubscribed` from the render whose closure
 * it belongs to. The effect's teardown belongs to the render that ran the
 * effect, and the returned `unsubscribe` to the latest render, so each
 * `Effect` keeps the `isSubscribed` its render saw and `renderedIsSubscribed`
 * is what the latest render saw. `Render` is any render: React renders again
 * after every state change, and the effect runs again only when its
 * dependency key changes. The `subscribe` call runs synchronously here: the
 * async wrapper around it never awaits.
 */
module LegacyObservableQueryHook {
  import opened Options
  import opened QueryResults

  /** `args?.[name]`: the argument's value, or undefined when it or `args` is absent. */
  function Lookup<V>(args: Option<map<string, V>>, name: string): (r: Option<V>)
    ensures r.Some? <==> args.Some? && name in args.value
    ensures r.Some? ==> r.value == args.value[name]
  {
    match args
    case None => None
    case Some(m) => if name in m then Some(m[name]) else None
  }

  /** `requestArguments.map(arg => args?.[arg])`. */
  function ArgumentsDependency<V>(requestArguments: seq<string>, args: Option<map<string, V>>): (r: seq<Option<V>>)
    ensures |r| == |requestArguments|
    ensures forall i :: 0 <= i < |r| ==> r[i] == Lookup(args, requestArguments[i])
  {
    if requestArguments == [] then []
    else [Lookup(args, requestArguments[0])] + ArgumentsDependency(requestArguments[1..], args)
  }

  /**
   * Two argument objects give the same dependencies exactly when they agree at
   * every requested name: arguments not listed never cause a resubscription.
   */
  lemma ArgumentsDependencyIff<V>(requestArguments: seq<string>, a: Option<map<string, V>>, b: Option<map<string, V>>)
    ensures ArgumentsDependency(requestArguments, a) == ArgumentsDependency(requestArguments, b) <==>
      forall i :: 0 <= i < |requestArguments| ==> Lookup(a, requestArguments[i]) == Lookup(b, requestArguments[i])
  {
  }

  /** The effect's dependencies: the query constructor (by identity), then the argument dependencies. */
  datatype LegacyKey = LegacyKey(query: nat, dependency: seq<Option<string>>)

  /** One run of the effect: its `isComponentMounted` flag and the `isSubscribed` its render saw. */
  datatype Effect = Effect(mounted: bool, seenIsSubscribed: bool)

  class LegacyHook {
    var key: LegacyKey
    var result: QueryResultWithState
    var isSubscribed: bool
    /** The `isSubscribed` the latest render saw: the one the returned `unsubscribe` reads. */
    var renderedIsSubscribed: bool
    var subscriptionRef: Option<nat>
    var effects: seq<Effect>
    var unmounted: bool
    var created: nat
    var calls: seq<Call>

    ghost predicate Valid()
      reads this
    {
      && |effects| > 0
      && (forall e :: 0 <= e < |effects| - 1 ==> !effects[e].mounted)
      && (effects[|effects| - 1].mounted <==> !unmounted)
      && (subscriptionRef.Some? ==> subscriptionRef.value < created)
    }

    /**
     * The first render and its effect: the state starts from
     * `QueryResultWithState.empty(defaultValue)`, not subscribed, and the
     * effect calls `subscribe` (which throws when `threw`).
     */
    constructor Mount(k: LegacyKey, defaultValue: Data, threw: bool)
      ensures Valid() && key == k && !unmounted
      ensures result == Empty(defaultValue) && !renderedIsSubscribed
      ensures effects == [Effect(true, false)] && calls == [Subscribe(0)]
      ensures isSubscribed == !threw
      ensures threw ==> created == 0 && subscriptionRef.None?
      ensures !threw ==> created == 1 && subscriptionRef == Some(0)
    {
      key := k;
      result := Empty(defaultValue);
      isSubscribed := false;
      renderedIsSubscribed := false;
      subscriptionRef := None;
      effects := [];
      unmounted := false;
      created := 0;
      calls := [];
      new;
      RunEffect(threw);
    }

    /**
     * A run of the effect, capturing what its render saw: `subscribe` is
     * called; on return `isSubscribed` is set and the subscription stored
     * (over whatever was held), on a throw `isSubscribed` is cleared.
     */
    method RunEffect(threw: bool)
      requires (forall e :: 0 <= e < |effects| ==> !effects[e].mounted) && !unmounted
      requires subscriptionRef.Some? ==> subscriptionRef.value < created
      modifies this
      ensures Valid()
      ensures effects == old(effects) + [Effect(true, renderedIsSubscribed)]
      ensures calls == old(calls) + [Subscribe(|old(effects)|)]
      ensures threw ==> !isSubscribed && subscriptionRef == old(subscriptionRef) && created == old(created)
      ensures !threw ==> isSubscribed && subscriptionRef == Some(old(created)) && created == old(created) + 1
      ensures key == old(key) && result == old(result) && renderedIsSubscribed == old(renderedIsSubscribed)
      ensures unmounted == old(unmounted)
    {
      effects := effects + [Effect(true, renderedIsSubscribed)];
      calls := calls + [Subscribe(|effects| - 1)];
      if threw {
        isSubscribed := false;
      } else {
        var subscription := created;
        created := created + 1;
        isSubscribed := true;
        subscriptionRef := Some(subscription);
      }
    }

    /**
     * `cleanupSubscription` of a closure that saw `seenIsSubscribed`: it
     * unsubscribes only when that value is true and a subscription is held.
     */
    method CleanupSubscription(seenIsSubscribed: bool)
      modifies this`calls, this`subscriptionRef, this`isSubscribed
      ensures seenIsSubscribed && old(subscriptionRef).Some? ==>
        calls == old(calls) + [Unsubscribe(old(subscriptionRef).value)] && subscriptionRef.None? && !isSubscribed
      ensures !(seenIsSubscribed && old(subscriptionRef).Some?) ==>
        calls == old(calls) && subscriptionRef == old(subscriptionRef) && isSubscribed == old(isSubscribed)
    {
      if seenIsSubscribed && subscriptionRef.Some? {
        calls := calls + [Unsubscribe(subscriptionRef.value)];
        subscriptionRef := None;
        isSubscribed := false;
      }
    }

    /** The teardown of effect `e`: mark it unmounted, then clean up with what its render saw. */
    method Teardown(e: nat)
      requires Valid() && e < |effects|
      modifies this
      ensures effects == old(effects)[e := old(effects[e]).(mounted := false)]
      ensures subscriptionRef.Some? ==> subscriptionRef.value < created
      ensures old(effects[e].seenIsSubscribed) && old(subscriptionRef).Some? ==>
        calls == old(calls) + [Unsubscribe(old(subscriptionRef).value)] && subscriptionRef.None? && !isSubscribed
      ensures !(old(effects[e].seenIsSubscribed) && old(subscriptionRef).Some?) ==>
        calls == old(calls) && subscriptionRef == old(subscriptionRef) && isSubscribed == old(isSubscribed)
      ensures key == old(key) && result == old(result) && renderedIsSubscribed == old(renderedIsSubscribed)
      ensures unmounted == old(unmounted) && created == old(created)
    {
      effects := effects[e := effects[e].(mounted := false)];
      CleanupSubscription(effects[e].seenIsSubscribed);
    }

    /**
     * A render with dependency key `k`: it sees the current `isSubscribed`.
     * The same key changes nothing else; a new one tears the current effect
     * down and runs the effect again (its `subscribe` throwing when `threw`).
     */
    method Render(k: LegacyKey, threw: bool)
      requires Valid() && !unmounted
      modifies this
      ensures Valid() && key == k && renderedIsSubscribed == old(isSubscribed)
      ensures result == old(result) && unmounted == old(unmounted)
      ensures k == old(key) ==>
        && effects == old(effects) && calls == old(calls) && created == old(created)
        && subscriptionRef == old(subscriptionRef) && isSubscribed == old(isSubscribed)
      ensures k != old(key) ==>
        && effects == old(effects)[|old(effects)| - 1 := Effect(false, old(effects[|effects| - 1]).seenIsSubscribed)]
                      + [Effect(true, old(isSubscribed))]
        && calls == old(calls)
                    + (if old(effects[|effects| - 1]).seenIsSubscribed && old(subscriptionRef).Some?
                       then [Unsubscribe(old(subscriptionRef).value)] else [])
                    + [Subscribe(|old(effects)|)]
        && (threw ==> !isSubscribed && created == old(created))
        && (threw ==> subscriptionRef == (if old(effects[|effects| - 1]).seenIsSubscribed && old(subscriptionRef).Some?
                                          then None else old(subscriptionRef)))
        && (!threw ==> isSubscribed && subscriptionRef == Some(old(created)) && created == old(created) + 1)
    {
      renderedIsSubscribed := isSubscribed;
      if k != key {
        Teardown(|effects| - 1);
        key := k;
        RunEffect(threw);
      }
    }

    /** The query pushes `response` to effect `e`'s callback: written only while that effect is mounted, never torn down. */
    method Deliver(e: nat, response: QueryResult)
      requires Valid() && e < |effects|
      modifies this`result
      ensures effects[e].mounted ==> result == Received(response, false)
      ensures !effects[e].mounted ==> result == old(result)
    {
      if effects[e].mounted {
        result := Received(response, false);
      }
    }

    /** The returned `unsubscribe`: `cleanupSubscription(true)` of the latest render. */
    method ManualUnsubscribe()
      requires Valid()
      modifies this`calls, this`subscriptionRef, this`isSubscribed
      ensures Valid()
      ensures renderedIsSubscribed && old(subscriptionRef).Some? ==>
        calls == old(calls) + [Unsubscribe(old(subscriptionRef).value)] && subscriptionRef.None? && !isSubscribed
      ensures !(renderedIsSubscribed && old(subscriptionRef).Some?) ==>
        calls == old(calls) && subscriptionRef == old(subscriptionRef) && isSubscribed == old(isSubscribed)
    {
      CleanupSubscription(renderedIsSubscribed);
    }

    /** The component unmounts: the current effect's teardown runs. */
    method Unmount()
      requires Valid() && !unmounted
      modifies this
      ensures Valid() && unmounted
      ensures effects == old(effects)[|old(effects)| - 1 := old(effects[|effects| - 1]).(mounted := false)]
      ensures old(effects[|effects| - 1]).seenIsSubscribed && old(subscriptionRef).Some? ==>
        calls == old(calls) + [Unsubscribe(old(subscriptionRef).value)] && subscriptionRef.None? && !isSubscribed
      ensures !(old(effects[|effects| - 1]).seenIsSubscribed && old(subscriptionRef).Some?) ==>
        calls == old(calls) && subscriptionRef == old(subscriptionRef) && isSubscribed == old(isSubscribed)
      ensures key == old(key) && result == old(result) && created == old(created)
      ensures renderedIsSubscribed == old(renderedIsSubscribed)
    {
      Teardown(|effects| - 1);
      unmounted := true;
    }
  }

  // ---------------------------------------------------------------------------
  // Scenarios. The first render saw `isSubscribed == false`; the render React
  // makes after the effect sets it sees true, but does not rerun the effect.

  /** The query's `requestArguments`. */
  const RequestArguments := ["value", "other"]
  const Args: LegacyKey := LegacyKey(0, ArgumentsDependency(RequestArguments, Some(map["value" := "initial"])))
  const NewArgs: LegacyKey := LegacyKey(0, ArgumentsDependency(RequestArguments, Some(map["value" := "updated"])))
  /** The arguments of `Args` plus one the query does not request. */
  const ArgsWithUnlisted: LegacyKey :=
    LegacyKey(0, ArgumentsDependency(RequestArguments, Some(map["value" := "initial", "page" := "2"])))

  /**
   * Changing the arguments after the subscribed re-render: the teardown uses
   * the first render's `false`, so subscription 0 is never unsubscribed and
   * the new subscription replaces it in the ref. Subscription 0 is lost.
   */
  method ArgsChangeLosesSubscription() returns (calls: seq<Call>, held: Option<nat>)
    ensures calls == [Subscribe(0), Subscribe(1)] && held == Some(1)
    ensures Unsubscribe(0) !in calls && held != Some(0)
  {
    var h := new LegacyHook.Mount(Args, "", false);
    h.Render(Args, false);
    assert Args.dependency[0] != NewArgs.dependency[0];
    h.Render(NewArgs, false);
    calls, held := h.calls, h.subscriptionRef;
  }

  /** Adding an argument the query does not request leaves the dependency key, and so the subscription, as it was. */
  method UnlistedArgumentKeepsSubscription() returns (calls: seq<Call>, held: Option<nat>, subscribed: bool)
    ensures calls == [Subscribe(0)] && held == Some(0) && subscribed
  {
    var h := new LegacyHook.Mount(Args, "", false);
    h.Render(Args, false);
    ArgumentsDependencyIff(RequestArguments, Some(map["value" := "initial"]),
                           Some(map["value" := "initial", "page" := "2"]));
    h.Render(ArgsWithUnlisted, false);
    calls, held, subscribed := h.calls, h.subscriptionRef, h.isSubscribed;
  }

  /** Unmounting after the subscribed re-render leaves the subscription live and still subscribed. */
  method UnmountLeavesSubscription() returns (calls: seq<Call>, held: Option<nat>, subscribed: bool)
    ensures calls == [Subscribe(0)] && held == Some(0) && subscribed
  {
    var h := new LegacyHook.Mount(Args, "", false);
    h.Render(Args, false);
    h.Unmount();
    calls, held, subscribed := h.calls, h.subscriptionRef, h.isSubscribed;
  }

  /**
   * The returned `unsubscribe` works once a render has seen the subscription,
   * and does nothing from the first render's closure.
   */
  method ManualUnsubscribeNeedsRender() returns (callsBefore: seq<Call>, callsAfter: seq<Call>, subscribed: bool)
    ensures callsBefore == [Subscribe(0)]
    ensures callsAfter == [Subscribe(0), Unsubscribe(0)] && !subscribed
  {
    var h := new LegacyHook.Mount(Args, "", false);
    h.ManualUnsubscribe();
    callsBefore := h.calls;
    h.Render(Args, false);
    h.ManualUnsubscribe();
    h.ManualUnsubscribe();
    callsAfter, subscribed := h.calls, h.isSubscribed;
  }

  /** A failing envelope is shown but tears nothing down. */
  method FailureKeepsSubscription() returns (result: QueryResultWithState, subscribed: bool, calls: seq<Call>)
    ensures result == Received(QueryResult("boom", false, true), false)
    ensures subscribed && calls == [Subscribe(0)]
  {
    var h := new LegacyHook.Mount(Args, "", false);
    h.Deliver(0, QueryResult("boom", false, true));
    result, subscribed, calls := h.result, h.isSubscribed, h.calls;
  }

  /** A `subscribe` that throws leaves the empty state and not subscribed. */
  method SubscribeThrowsLegacy() returns (result: QueryResultWithState, subscribed: bool)
    ensures result == Empty("") && !subscribed
  {
    var h := new LegacyHook.Mount(Args, "", true);
    result, subscribed := h.result, h.isSubscribed;
  }
}
