/**
 * `AlertProvider` as an object: the refs of the provider are fields that
 * its methods update in place, step by step as alertle's `context.tsx`
 * does. Each
 * method is proved to leave the object in the state the matching
 * transition of `Registry` describes, and to keep the registry invariant.
 */
module Provider {
  import opened Options
  import opened Alerts
  import opened Registry
  import RegistryProps

  class AlertProvider {
    /** The `defaultExpiresInMs` prop. */
    const defaultExpiresInMs: Option<Expiry>

    var heap: map<AlertId, Alert>      // the alert objects handed out so far
    var store: map<string, AlertId>    // `store.current`
    var order: seq<string>             // iteration order of `store.current`
    var timeouts: map<string, Handle>  // `timeoutsRef.current`
    var pending: map<Handle, AlertId>  // host timers not yet fired or cleared
    var subscribers: seq<Listener>     // `subscribers.current`
    var log: seq<Event>                // callbacks invoked so far
    var nextAlert: AlertId
    var nextHandle: Handle

    function Model(): State
      reads this
    {
      State(heap, store, order, timeouts, pending, subscribers, log, nextAlert, nextHandle)
    }

    ghost predicate Valid()
      reads this
    {
      Registry.Valid(Model())
    }

    constructor (defaultExpiresInMs: Option<Expiry>)
      ensures Valid() && Model() == Empty()
      ensures this.defaultExpiresInMs == defaultExpiresInMs
    {
      this.defaultExpiresInMs := defaultExpiresInMs;
      heap, store, order := map[], map[], [];
      timeouts, pending := map[], map[];
      subscribers, log := [], [];
      nextAlert, nextHandle := 0, 0;
    }

    /** `getAlertMap()`: the stored alerts, each under its own key, and their iteration order. */
    method GetAlertMap() returns (alerts: map<string, AlertId>, keys: seq<string>)
      requires Valid()
      ensures alerts == store && keys == order
      ensures forall k :: k in alerts ==> alerts[k] in heap && heap[alerts[k]].key == k
      ensures NoDuplicates(keys) && forall k :: k in keys <==> k in alerts
    {
      alerts, keys := store, order;
    }

    /** `subscribers.current.forEach((cb) => cb())`. */
    method NotifySubscribers()
      modifies this`log
      ensures log == old(log) + Calls(subscribers)
    {
      var i := 0;
      while i < |subscribers|
        invariant 0 <= i <= |subscribers|
        invariant log == old(log) + Calls(subscribers[..i])
      {
        assert subscribers[..i + 1][..i] == subscribers[..i];
        log := log + [Called(subscribers[i])];
        i := i + 1;
      }
      assert subscribers[..i] == subscribers;
    }

    /** `setTimeout(() => expireAlert(alert), ...)`: a fresh pending handle that captured `id`. */
    method SetTimeout(id: AlertId) returns (h: Handle)
      modifies this`pending, this`nextHandle
      ensures h == old(nextHandle) && nextHandle == h + 1
      ensures pending == old(pending)[h := id]
    {
      h := nextHandle;
      pending := pending[h := id];
      nextHandle := h + 1;
    }

    /** `clearTimeout(h)`. */
    method ClearTimeout(h: Handle)
      modifies this`pending
      ensures pending == old(pending) - {h}
    {
      pending := pending - {h};
    }

    /** `if (cb) cb(alert)` for one of the alert's callback fields. */
    method RunHook(hook: Hook, cb: Option<Callback>, id: AlertId)
      modifies this`log
      ensures log == old(log) + Invoke(hook, cb, id)
    {
      if cb.Some? {
        log := log + [Invoked(hook, cb.value, id)];
      }
    }

    /** `timeoutsRef.current.delete(key)` and `clearTimeout` on the timer it held, if any. */
    method CancelTimer(k: string)
      modifies this`timeouts, this`pending
      ensures Model() == CancelTracked(old(Model()), k)
    {
      if k in timeouts {
        var t := timeouts[k];
        timeouts := timeouts - {k};
        ClearTimeout(t);
      }
    }

    /** `timeoutsRef.current.set(key, setTimeout(() => expireAlert(alert), ...))`. */
    method ScheduleExpiry(k: string, id: AlertId)
      modifies this`timeouts, this`pending, this`nextHandle
      ensures Model() == Schedule(old(Model()), k, id)
    {
      var t := SetTimeout(id);
      timeouts := timeouts[k := t];
    }

    /** `store.current.set(alert.key, alert)`, then the subscribers are notified. */
    method StoreAlert(id: AlertId)
      requires id in heap
      modifies this`store, this`order, this`log
      ensures Model() == Put(old(Model()), id)
    {
      var k := heap[id].key;
      if k !in store {
        order := order + [k];
      }
      store := store[k := id];
      NotifySubscribers();
    }

    /** The timer part of `updateAlert`. */
    method RescheduleTimer(id: AlertId, e: Option<Expiry>)
      requires id in heap
      modifies this`timeouts, this`pending, this`nextHandle
      ensures Model() == Reschedule(old(Model()), id, e)
    {
      var k := heap[id].key;
      if e.Some? {
        CancelTimer(k);
        if e.value.Ms? {
          ScheduleExpiry(k, id);
        }
      }
    }

    /** The duplicate branch of `addAlert`. */
    method FlagDuplicate(id: AlertId)
      requires id in heap
      modifies this`heap, this`log, this`timeouts, this`pending
      ensures Model() == MarkDuplicate(old(Model()), id)
    {
      var a := heap[id];
      heap := heap[id := a.(isDuplicate := true)];
      RunHook(DuplicatedHook, a.onDuplicated, id);
      CancelTimer(a.key);
    }

    /** `subscribe(cb)`. */
    method Subscribe(l: Listener)
      requires Valid()
      modifies this`subscribers
      ensures Valid() && Model() == Registry.Subscribe(old(Model()), l)
    {
      if l !in subscribers {
        subscribers := subscribers + [l];
      }
      RegistryProps.SubscribeValid(old(Model()), l);
    }

    /** Calling the disposer that `subscribe(cb)` returned. */
    method Unsubscribe(l: Listener) returns (removed: bool)
      requires Valid()
      modifies this`subscribers
      ensures Valid() && (Model(), removed) == Registry.Unsubscribe(old(Model()), l)
    {
      removed := l in subscribers;
      subscribers := Remove(subscribers, l);
      RegistryProps.UnsubscribeValid(old(Model()), l);
    }

    /** `expireAlert(alert)`. */
    method ExpireAlert(id: AlertId)
      requires id in heap
      modifies this
      ensures Model() == Registry.Expire(old(Model()), id)
      ensures old(Valid()) ==> Valid()
    {
      var a := heap[id];
      if a.key !in store {
        return;
      }
      store := store - {a.key};
      order := Remove(order, a.key);
      if a.onExpire.Some? {
        log := log + [Invoked(ExpireHook, a.onExpire.value, id)];
      }
      timeouts := timeouts - {a.key};
      NotifySubscribers();
      if old(Valid()) {
        RegistryProps.ExpireValid(old(Model()), id);
      }
    }

    /** `addAlert(alert)`. */
    method AddAlert(id: AlertId) returns (r: AlertId)
      requires Valid() && id in heap
      modifies this
      ensures r == id
      ensures Valid() && Model() == Registry.Add(old(Model()), id)
    {
      RegistryProps.AddValid(Model(), id);
      var a := heap[id];
      if a.key in store {
        FlagDuplicate(id);
      }
      RunHook(NotifyHook, a.onNotify, id);
      r := id;
      if a.expiresInMs != Null && a.expiresInMs != Infinity {
        if a.expiresInMs == Ms(0) {
          return;
        }
        ScheduleExpiry(a.key, id);
      }
      StoreAlert(id);
    }

    /** `updateAlert(alert, params)`. */
    method UpdateAlert(id: AlertId, p: UpdateParams) returns (r: AlertId)
      requires Valid() && id in heap
      modifies this
      ensures r == id
      ensures Valid() && Model() == Registry.Update(old(Model()), id, p)
    {
      RegistryProps.UpdateValid(Model(), id, p);
      RescheduleTimer(id, p.expiresInMs);
      var a := heap[id];
      if p.onExpire.Some? {
        a := a.(onExpire := p.onExpire);
      }
      if p.onDuplicated.Some? {
        a := a.(onDuplicated := p.onDuplicated);
      }
      if p.isDuplicate.Some? {
        a := a.(isDuplicate := p.isDuplicate.value);
      }
      heap := heap[id := a];
      StoreAlert(id);
      r := id;
    }

    /** `notify(params)`. */
    method Notify(p: CreateParams, now: int) returns (id: AlertId)
      requires Valid()
      modifies this
      ensures Valid() && (Model(), id) == Registry.Notify(old(Model()), p, defaultExpiresInMs, now)
    {
      RegistryProps.AllocateValid(Model(), p, defaultExpiresInMs, now);
      var alert := CreateAlert(WithDefault(p, defaultExpiresInMs), now);
      id := nextAlert;
      heap := heap[id := alert];
      nextAlert := id + 1;
      assert Model() == Allocate(old(Model()), p, defaultExpiresInMs, now);
      id := AddAlert(id);
    }

    /** `notifySuccess(params)`. */
    method NotifySuccess(p: CreateParams, now: int) returns (id: AlertId)
      requires Valid()
      modifies this
      ensures Valid() && (Model(), id) == Registry.Notify(old(Model()), p.(kind := Success), defaultExpiresInMs, now)
      ensures heap[id].kind == Success
    {
      id := Notify(p.(kind := Success), now);
    }

    /** `notifyError(params)`. */
    method NotifyError(p: CreateParams, now: int) returns (id: AlertId)
      requires Valid()
      modifies this
      ensures Valid() && (Model(), id) == Registry.Notify(old(Model()), p.(kind := Error), defaultExpiresInMs, now)
      ensures heap[id].kind == Error
    {
      id := Notify(p.(kind := Error), now);
    }

    /** `notifyWarning(params)`. */
    method NotifyWarning(p: CreateParams, now: int) returns (id: AlertId)
      requires Valid()
      modifies this
      ensures Valid() && (Model(), id) == Registry.Notify(old(Model()), p.(kind := Warning), defaultExpiresInMs, now)
      ensures heap[id].kind == Warning
    {
      id := Notify(p.(kind := Warning), now);
    }

    /** `notifyInfo(params)`. */
    method NotifyInfo(p: CreateParams, now: int) returns (id: AlertId)
      requires Valid()
      modifies this
      ensures Valid() && (Model(), id) == Registry.Notify(old(Model()), p.(kind := Info), defaultExpiresInMs, now)
      ensures heap[id].kind == Info
    {
      id := Notify(p.(kind := Info), now);
    }

    /** The host running the callback of pending timer `h`. */
    method Fire(h: Handle)
      requires Valid() && h in pending
      modifies this
      ensures Valid() && Model() == Registry.Fire(old(Model()), h)
    {
      RegistryProps.FireValid(Model(), h);
      var id := pending[h];
      pending := pending - {h};
      ExpireAlert(id);
    }

    /** The effect cleanup: `clearTimeout` on every handle in the timer table. */
    method Teardown()
      modifies this`pending
      ensures Model() == Registry.Teardown(old(Model()))
    {
      var todo := timeouts.Values;
      while todo != {}
        invariant todo <= timeouts.Values
        invariant pending == old(pending) - (timeouts.Values - todo)
        decreases todo
      {
        var t :| t in todo;
        ClearTimeout(t);
        todo := todo - {t};
      }
    }
  }
}
