/** The memoised Stripe loader of src/lib/stripe-client.ts. `loadStripe` is a foreign
    call; each call of it yields a fresh loader token. */
module StripeClient {
  import opened Common

  /** What `getStripe` returns: a promise already resolved to `null`, or a loader promise. */
  datatype StripeHandle = ResolvedNull | Loader(token: nat)

  /** The module state: the cached promise, the build's key, and the keys `loadStripe`
      was called with. */
  class StripeModule {
    var stripePromise: Option<nat>
    const envKey: Option<string>
    var loads: seq<string>

    constructor (envKey: Option<string>)
      ensures stripePromise.None? && this.envKey == envKey && loads == []
    {
      stripePromise := None;
      this.envKey := envKey;
      loads := [];
    }

    /** `getStripePublishableKey`. */
    function PublishableKey(): (k: string)
      reads this
      ensures StrTruthy(envKey) ==> k == envKey.value
      ensures !StrTruthy(envKey) ==> k == ""
    {
      OrElse(envKey, "")
    }

    /** The key `getStripe(publishableKey)` uses: the argument when non-empty. */
    function KeyFor(publishableKey: Option<string>): (k: string)
      reads this
      ensures StrTruthy(publishableKey) ==> k == publishableKey.value
      ensures !StrTruthy(publishableKey) ==> k == PublishableKey()
    {
      OrElse(publishableKey, PublishableKey())
    }

    /** `getStripe`. Without a key it resolves to null and caches nothing; the first
        keyed call starts a load and caches it; later calls get the cached promise
        whatever key they pass. */
    method GetStripe(publishableKey: Option<string>) returns (r: StripeHandle)
      modifies this`stripePromise, this`loads
      ensures KeyFor(publishableKey) == "" ==>
        r == ResolvedNull && stripePromise == old(stripePromise) && loads == old(loads)
      ensures KeyFor(publishableKey) != "" && old(stripePromise).Some? ==>
        r == Loader(old(stripePromise).value) && stripePromise == old(stripePromise) && loads == old(loads)
      ensures KeyFor(publishableKey) != "" && old(stripePromise).None? ==>
        && loads == old(loads) + [KeyFor(publishableKey)]
        && stripePromise == Some(|old(loads)|) && r == Loader(|old(loads)|)
    {
      var key := KeyFor(publishableKey);
      if key == "" {
        return ResolvedNull;
      }
      if stripePromise.None? {
        stripePromise := Some(|loads|);
        loads := loads + [key];
      }
      r := Loader(stripePromise.value);
    }

    /** `resetStripe`: the next keyed call loads again. */
    method ResetStripe()
      modifies this`stripePromise
      ensures stripePromise.None?
    {
      stripePromise := None;
    }
  }

  /** Two keyed calls share one load, even with different keys; after a reset the next
      keyed call loads again with its own key. */
  method CacheScenario(m: StripeModule, k1: string, k2: string) returns (a: StripeHandle, b: StripeHandle, c: StripeHandle)
    requires m.stripePromise.None? && k1 != "" && k2 != ""
    modifies m
    ensures a == b && a.Loader?
    ensures c.Loader? && c != a
    ensures m.loads == old(m.loads) + [k1, k2]
  {
    a := m.GetStripe(Some(k1));
    b := m.GetStripe(Some(k2));
    m.ResetStripe();
    c := m.GetStripe(Some(k2));
  }
}
