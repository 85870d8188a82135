/** The shared restaurant-settings store of src/hooks/use-restaurant-settings.ts:
    a manager with a subscriber set, a lazily opened realtime subscription, the
    current database snapshot and an initialised flag; and the merge of that
    snapshot into the static configuration. */
module RestaurantSettings {
  import opened Common

  /** An hours column of `restaurant_settings`, as stored. */
  datatype DbHours = DbHours(json: string)

  /** A converted weekly schedule (the converter lives in a file outside this model). */
  datatype WeekSchedule = WeekSchedule(text: string)

  /** A row of `restaurant_settings`, or any object the realtime channel hands over as
      the new row; every column may be missing (a DELETE event carries `{}`). */
  datatype DbSettings = DbSettings(
    openingHours: Option<DbHours>,
    pickupHours: Option<DbHours>,
    deliveryHours: Option<DbHours>,
    lunchBuffetHours: Option<DbHours>,
    isBusy: Option<bool>,
    isOpen: Option<bool>,
    specialMessage: Option<string>)

  /** The empty object `{}` that a DELETE event delivers as its new row. */
  const EmptyRow: DbSettings := DbSettings(None, None, None, None, None, None, None)

  datatype Hours = Hours(general: WeekSchedule, pickup: WeekSchedule, delivery: WeekSchedule)

  /** The static configuration the hook starts from; `isOpen` is the administrative
      "open" flag it carries (false when absent). */
  datatype BaseConfig = BaseConfig(name: string, hours: Hours, lunchBuffetHours: WeekSchedule, isOpen: bool)

  /** The configuration the hook returns. */
  datatype MergedConfig = MergedConfig(
    name: string, hours: Hours, lunchBuffetHours: WeekSchedule, isBusy: bool, isOpen: bool)

  /** The `config` of `useRestaurantSettings`: null without a base configuration;
      hours from the database row when there is one; the busy flag from the row. */
  function MergeConfig(base: Option<BaseConfig>, db: Option<DbSettings>, convert: Option<DbHours> -> WeekSchedule)
    : (r: Option<MergedConfig>)
    ensures r.None? <==> base.None?
    ensures r.Some? ==> r.value.name == base.value.name && r.value.isOpen == base.value.isOpen
    ensures r.Some? && db.Some? ==>
      r.value.hours == Hours(convert(db.value.openingHours), convert(db.value.pickupHours), convert(db.value.deliveryHours))
    ensures r.Some? && db.None? ==> r.value.hours == base.value.hours
    ensures r.Some? ==>
      r.value.lunchBuffetHours ==
        (if db.Some? && db.value.lunchBuffetHours.Some? then convert(db.value.lunchBuffetHours)
         else base.value.lunchBuffetHours)
    ensures r.Some? ==> (r.value.isBusy <==> db.Some? && db.value.isBusy == Some(true))
  {
    match base
    case None => None
    case Some(b) =>
      var hours :=
        if db.Some? then Hours(convert(db.value.openingHours), convert(db.value.pickupHours), convert(db.value.deliveryHours))
        else b.hours;
      var lunch :=
        if db.Some? && db.value.lunchBuffetHours.Some? then convert(db.value.lunchBuffetHours)
        else b.lunchBuffetHours;
      Some(MergedConfig(b.name, hours, lunch, db.Some? && BoolTruthy(db.value.isBusy), b.isOpen))
  }

  /** The hook's `isOpen`: `dbSettings?.is_open ?? true`. It is false only when the
      row says so explicitly. */
  function IsOpen(db: Option<DbSettings>): (r: bool)
    ensures !r <==> db.Some? && db.value.isOpen == Some(false)
  {
    if db.Some? && db.value.isOpen.Some? then db.value.isOpen.value else true
  }

  /** After a DELETE event the snapshot is the empty row: the hours come from the
      converter applied to missing columns, the base lunch hours stay, the site is not
      busy and counts as open. */
  lemma EmptyRowMerged(base: BaseConfig, convert: Option<DbHours> -> WeekSchedule)
    ensures MergeConfig(Some(base), Some(EmptyRow), convert)
      == Some(MergedConfig(base.name, Hours(convert(None), convert(None), convert(None)),
                           base.lunchBuffetHours, false, base.isOpen))
    ensures IsOpen(Some(EmptyRow))
  {
  }

  /** A subscriber callback, identified by a number. */
  type Callback = nat

  /** One invocation of a subscriber callback with the snapshot it received. */
  datatype Delivery = Delivery(callback: Callback, settings: Option<DbSettings>)

  /** Outcome of the `restaurant_settings` fetch: a row, an error or no data, or an exception. */
  datatype FetchResult = Loaded(row: DbSettings) | NotLoaded | Threw

  predicate NoDuplicates(s: seq<Callback>)
  {
    forall i, j | 0 <= i < j < |s| :: s[i] != s[j]
  }

  lemma NoDuplicatesCons(x: Callback, r: seq<Callback>)
    requires x !in r && NoDuplicates(r)
    ensures NoDuplicates([x] + r)
  {
    forall i, j | 0 <= i < j < |[x] + r| ensures ([x] + r)[i] != ([x] + r)[j] {
      if i > 0 {
        assert ([x] + r)[i] == r[i - 1];
      }
      assert ([x] + r)[j] == r[j - 1];
    }
  }

  /** What one `notifySubscribers` call hands out: the same snapshot to each subscriber, in set order. */
  function Broadcast(subscribers: seq<Callback>, settings: Option<DbSettings>): (r: seq<Delivery>)
    ensures |r| == |subscribers|
    ensures forall i | 0 <= i < |r| :: r[i].callback == subscribers[i] && r[i].settings == settings
  {
    seq(|subscribers|, i requires 0 <= i < |subscribers| => Delivery(subscribers[i], settings))
  }

  /** `Set.prototype.delete` on an insertion-ordered set. */
  function Remove(s: seq<Callback>, cb: Callback): (r: seq<Callback>)
    ensures forall x :: x in r <==> x in s && x != cb
    ensures NoDuplicates(s) ==> NoDuplicates(r)
    ensures NoDuplicates(s) && cb in s ==> |r| == |s| - 1
    ensures cb !in s ==> r == s
  {
    if s == [] then []
    else if s[0] == cb then Remove(s[1..], cb)
    else
      var rest := Remove(s[1..], cb);
      assert NoDuplicates(s) ==> NoDuplicates(s[1..]) && forall k | 0 <= k < |s[1..]| :: s[1..][k] != s[0];
      assert NoDuplicates(s) ==> NoDuplicates([s[0]] + rest) by {
        if NoDuplicates(s) {
          assert s[0] !in s[1..];
          NoDuplicatesCons(s[0], rest);
        }
      }
      [s[0]] + rest
  }

  class RestaurantSettingsManager {
    /** The subscriber `Set`, in insertion order. */
    var subscribers: seq<Callback>
    /** The realtime channel handle, or null. */
    var subscription: Option<nat>
    var currentSettings: Option<DbSettings>
    var isInitialized: bool
    /** `initializeSubscription` calls whose fetch has not completed yet. */
    var pendingInitializations: nat
    /** Every callback invocation so far, in order. */
    var delivered: seq<Delivery>
    /** Channels torn down by the last unsubscriber. */
    var closedChannels: seq<nat>
    /** Handle the next opened channel gets. */
    var nextChannel: nat

    ghost predicate Valid()
      reads this
    {
      NoDuplicates(subscribers) && (subscription.Some? ==> subscription.value < nextChannel)
    }

    constructor ()
      ensures Valid()
      ensures subscribers == [] && subscription == None && currentSettings == None
      ensures !isInitialized && pendingInitializations == 0 && delivered == [] && closedChannels == []
    {
      subscribers := [];
      subscription := None;
      currentSettings := None;
      isInitialized := false;
      pendingInitializations := 0;
      delivered := [];
      closedChannels := [];
      nextChannel := 0;
    }

    /** `subscribe`: add the callback; start initialising when it makes the set's size 1
        and no channel exists; deliver the current snapshot at once iff initialised. */
    method Subscribe(cb: Callback)
      requires Valid()
      modifies this
      ensures Valid()
      ensures subscribers == if cb in old(subscribers) then old(subscribers) else old(subscribers) + [cb]
      ensures pendingInitializations ==
        old(pendingInitializations) + (if |subscribers| == 1 && old(subscription).None? then 1 else 0)
      ensures delivered == old(delivered) + (if isInitialized then [Delivery(cb, currentSettings)] else [])
      ensures subscription == old(subscription) && currentSettings == old(currentSettings)
      ensures isInitialized == old(isInitialized) && closedChannels == old(closedChannels)
      ensures nextChannel == old(nextChannel)
    {
      if cb !in subscribers {
        subscribers := subscribers + [cb];
      }
      if |subscribers| == 1 && subscription.None? {
        pendingInitializations := pendingInitializations + 1;
      }
      if isInitialized {
        delivered := delivered + [Delivery(cb, currentSettings)];
      }
    }

    /** The function `subscribe` returns: remove the callback; the last one out tears
        the channel down and clears it. */
    method Unsubscribe(cb: Callback)
      requires Valid()
      modifies this
      ensures Valid()
      ensures subscribers == Remove(old(subscribers), cb)
      ensures (subscribers == [] && old(subscription).Some?) ==>
        subscription == None && closedChannels == old(closedChannels) + [old(subscription).value]
      ensures !(subscribers == [] && old(subscription).Some?) ==>
        subscription == old(subscription) && closedChannels == old(closedChannels)
      ensures currentSettings == old(currentSettings) && isInitialized == old(isInitialized)
      ensures delivered == old(delivered) && pendingInitializations == old(pendingInitializations)
      ensures nextChannel == old(nextChannel)
    {
      subscribers := Remove(subscribers, cb);
      if |subscribers| == 0 && subscription.Some? {
        closedChannels := closedChannels + [subscription.value];
        subscription := None;
      }
    }

    /** `notifySubscribers`: hand the current snapshot to every subscriber. */
    method NotifySubscribers()
      requires Valid()
      modifies this`delivered
      ensures Valid()
      ensures delivered == old(delivered) + Broadcast(subscribers, currentSettings)
    {
      var i := 0;
      while i < |subscribers|
        invariant 0 <= i <= |subscribers|
        invariant delivered == old(delivered) + Broadcast(subscribers[..i], currentSettings)
      {
        assert Broadcast(subscribers[..i + 1], currentSettings)
          == Broadcast(subscribers[..i], currentSettings) + [Delivery(subscribers[i], currentSettings)];
        delivered := delivered + [Delivery(subscribers[i], currentSettings)];
        i := i + 1;
      }
      assert subscribers[..i] == subscribers;
    }

    /** Completion of one `initializeSubscription`: a loaded row replaces the snapshot,
        a failed fetch keeps it; either way the manager becomes initialised and
        notifies, then opens the realtime channel. An exception (from the fetch, or
        from opening the channel) is caught: initialised, notified, no channel. */
    method CompleteInitialization(fetch: FetchResult, channelOpens: bool)
      requires Valid() && pendingInitializations > 0
      modifies this
      ensures Valid()
      ensures pendingInitializations == old(pendingInitializations) - 1
      ensures isInitialized
      ensures currentSettings == if fetch.Loaded? then Some(fetch.row) else old(currentSettings)
      ensures fetch.Threw? ==>
        subscription == old(subscription) && delivered == old(delivered) + Broadcast(subscribers, currentSettings)
      ensures !fetch.Threw? && channelOpens ==>
        subscription == Some(old(nextChannel)) && delivered == old(delivered) + Broadcast(subscribers, currentSettings)
      ensures !fetch.Threw? && !channelOpens ==>
        subscription == old(subscription)
        && delivered == old(delivered) + Broadcast(subscribers, currentSettings) + Broadcast(subscribers, currentSettings)
      ensures subscribers == old(subscribers) && closedChannels == old(closedChannels)
      ensures nextChannel == old(nextChannel) + (if !fetch.Threw? && channelOpens then 1 else 0)
    {
      pendingInitializations := pendingInitializations - 1;
      if fetch.Threw? {
        isInitialized := true;
        NotifySubscribers();
        return;
      }
      if fetch.Loaded? {
        currentSettings := Some(fetch.row);
      }
      isInitialized := true;
      NotifySubscribers();
      if channelOpens {
        subscription := Some(nextChannel);
        nextChannel := nextChannel + 1;
      } else {
        NotifySubscribers();
      }
    }

    /** A realtime change event: the snapshot is replaced (and subscribers notified)
        only when the payload's `new` is an object; `None` stands for a missing or
        non-object `new`, and a DELETE event's `{}` arrives as `Some(EmptyRow)`. */
    method OnRealtimeChange(payloadNew: Option<DbSettings>)
      requires Valid()
      modifies this
      ensures Valid()
      ensures payloadNew.Some? ==>
        currentSettings == payloadNew && delivered == old(delivered) + Broadcast(subscribers, payloadNew)
      ensures payloadNew.None? ==> currentSettings == old(currentSettings) && delivered == old(delivered)
      ensures subscribers == old(subscribers) && subscription == old(subscription)
      ensures isInitialized == old(isInitialized) && closedChannels == old(closedChannels)
      ensures pendingInitializations == old(pendingInitializations) && nextChannel == old(nextChannel)
    {
      if payloadNew.Some? {
        currentSettings := payloadNew;
        NotifySubscribers();
      }
    }

    /** `forceRefresh`: only a loaded row replaces the snapshot and notifies. */
    method ForceRefresh(fetch: FetchResult)
      requires Valid()
      modifies this
      ensures Valid()
      ensures fetch.Loaded? ==>
        currentSettings == Some(fetch.row) && delivered == old(delivered) + Broadcast(subscribers, currentSettings)
      ensures !fetch.Loaded? ==> currentSettings == old(currentSettings) && delivered == old(delivered)
      ensures subscribers == old(subscribers) && subscription == old(subscription)
      ensures isInitialized == old(isInitialized) && closedChannels == old(closedChannels)
      ensures pendingInitializations == old(pendingInitializations) && nextChannel == old(nextChannel)
    {
      if fetch.Loaded? {
        currentSettings := Some(fetch.row);
        NotifySubscribers();
      }
    }
  }

  /** The static `instance` slot behind `getInstance`. */
  class SettingsRegistry {
    var instance: RestaurantSettingsManager?

    constructor ()
      ensures instance == null
    {
      instance := null;
    }

    /** `getInstance`: create the manager on first use, return the same one afterwards. */
    method GetInstance() returns (m: RestaurantSettingsManager)
      modifies this
      ensures old(instance) != null ==> m == old(instance)
      ensures old(instance) == null ==> fresh(m) && m.Valid() && m.subscribers == [] && !m.isInitialized
      ensures instance == m
    {
      if instance == null {
        instance := new RestaurantSettingsManager();
      }
      m := instance;
    }
  }
}
