/**
 * The alert registry kept by `AlertProvider`, as a state machine over
 * values. `State` holds the three refs of the provider (the alert store,
 * the timer table and the subscriber set) together with what the model
 * needs to observe them: the alert objects by identity, the host timers
 * still pending, and a log of the callbacks invoked.
 *
 * Every transition here is the specification of the matching method of
 * `Provider.AlertProvider`.
 */
module Registry {
  import opened Options
  import opened Alerts

  /** Identity of an alert object; the objects themselves live in `State.heap`. */
  type AlertId = nat

  /** A host timer handle, as returned by `setTimeout`. */
  type Handle = nat

  /** Identity of a subscribed listener function. */
  type Listener = nat

  /** The three per-alert callback fields. */
  datatype Hook = NotifyHook | DuplicatedHook | ExpireHook

  /** An observable side effect: a per-alert callback or a subscriber being called. */
  datatype Event =
    | Invoked(hook: Hook, cb: Callback, alert: AlertId)
    | Called(listener: Listener)

  datatype State = State(
    heap: map<AlertId, Alert>,      // every alert object created so far
    store: map<string, AlertId>,    // the store Map: key -> alert
    order: seq<string>,             // the store Map's iteration order
    timers: map<string, Handle>,    // the timer table: key -> tracked timer
    pending: map<Handle, AlertId>,  // host timers not yet fired or cleared, with the alert each captured
    listeners: seq<Listener>,       // the subscriber Set, in insertion order
    log: seq<Event>,                // callbacks invoked so far, oldest first
    nextAlert: AlertId,
    nextHandle: Handle)

  /** The state of a freshly mounted provider. */
  function Empty(): (r: State) {
    State(map[], map[], [], map[], map[], [], [], 0, 0)
  }

  predicate NoDuplicates<T(==)>(s: seq<T>) {
    forall i, j :: 0 <= i < j < |s| ==> s[i] != s[j]
  }

  /** Alert identities are allocated in increasing order. */
  ghost predicate HeapOk(s: State) {
    forall id :: id in s.heap ==> id < s.nextAlert
  }

  /** Each stored alert sits under its own key. */
  ghost predicate StoreOk(s: State) {
    forall k :: k in s.store ==> s.store[k] in s.heap && s.heap[s.store[k]].key == k
  }

  /** The iteration order lists every stored key exactly once. */
  ghost predicate OrderOk(s: State) {
    NoDuplicates(s.order) && forall k :: k in s.store <==> k in s.order
  }

  /** Handles are allocated in increasing order, and each timer captured an existing alert. */
  ghost predicate PendingOk(s: State) {
    forall h :: h in s.pending ==> h < s.nextHandle && s.pending[h] in s.heap
  }

  /** A tracked timer is still pending on the host and captured an alert with its key. */
  ghost predicate TimersOk(s: State) {
    forall k :: k in s.timers ==>
      s.timers[k] in s.pending && s.pending[s.timers[k]] in s.heap && s.heap[s.pending[s.timers[k]]].key == k
  }

  /** Everything in the invariant except that the timer table's keys are stored keys. */
  ghost predicate Inv(s: State) {
    HeapOk(s) && StoreOk(s) && OrderOk(s) && PendingOk(s) && TimersOk(s) && NoDuplicates(s.listeners)
  }

  /**
   * The registry invariant: at most one alert per key, each under its own
   * key; the iteration order lists each stored key once; every tracked timer
   * belongs to a stored key and is a live host timer that captured an alert
   * of that key; and the subscriber sequence is a set.
   */
  ghost predicate Valid(s: State)
  {
    Inv(s) && s.timers.Keys <= s.store.Keys
  }

  // ---------------------------------------------------------------------
  // Helpers shared by the transitions
  // ---------------------------------------------------------------------

  /** `xs` without `x`, the rest in order. */
  function Remove<T(==,!new)>(xs: seq<T>, x: T): (r: seq<T>)
    ensures x !in r
    ensures forall y :: y in r <==> y in xs && y != x
    ensures NoDuplicates(xs) ==> NoDuplicates(r)
    ensures x !in xs ==> r == xs
  {
    if xs == [] then []
    else if xs[0] == x then Remove(xs[1..], x)
    else
      assert NoDuplicates(xs) ==> xs[0] !in xs[1..];
      [xs[0]] + Remove(xs[1..], x)
  }

  /** In a sequence without repeats, `Remove` cuts out exactly the one position holding `x`. */
  lemma {:induction false} RemoveAt<T(!new)>(xs: seq<T>, i: nat)
    requires NoDuplicates(xs) && i < |xs|
    ensures Remove(xs, xs[i]) == xs[..i] + xs[i + 1..]
  {
    if i == 0 {
      assert xs[0] !in xs[1..];
    } else {
      var t := xs[1..];
      assert NoDuplicates(t);
      RemoveAt(t, i - 1);
      assert t[i - 1] == xs[i] && xs[0] != xs[i];
      assert xs[..i] + xs[i + 1..] == [xs[0]] + (t[..i - 1] + t[i..]);
    }
  }

  /** `subscribers.forEach(cb => cb())`: one call per listener, in insertion order. */
  function Calls(ls: seq<Listener>): (r: seq<Event>)
    ensures |r| == |ls|
    ensures forall i :: 0 <= i < |ls| ==> r[i] == Called(ls[i])
  {
    if ls == [] then [] else Calls(ls[..|ls| - 1]) + [Called(ls[|ls| - 1])]
  }

  /** `if (cb) cb(alert)`: the event of calling an optional callback. */
  function Invoke(hook: Hook, cb: Option<Callback>, id: AlertId): (r: seq<Event>)
    ensures |r| <= 1
    ensures r != [] <==> cb.Some?
    ensures cb.Some? ==> r == [Invoked(hook, cb.value, id)]
  {
    if cb.Some? then [Invoked(hook, cb.value, id)] else []
  }

  function NotifySubscribers(s: State): (r: State) {
    s.(log := s.log + Calls(s.listeners))
  }

  /** Drop the key's tracked timer from the table and clear it on the host. */
  function CancelTracked(s: State, k: string): (r: State) {
    if k in s.timers then s.(timers := s.timers - {k}, pending := s.pending - {s.timers[k]}) else s
  }

  /** `setTimeout(() => expireAlert(alert))`, tracked under `k`. */
  function Schedule(s: State, k: string, id: AlertId): (r: State) {
    s.(timers := s.timers[k := s.nextHandle], pending := s.pending[s.nextHandle := id], nextHandle := s.nextHandle + 1)
  }

  /** `store.set(alert.key, alert)` followed by notifying the subscribers. */
  function Put(s: State, id: AlertId): (r: State)
    requires id in s.heap
  {
    var k := s.heap[id].key;
    NotifySubscribers(s.(store := s.store[k := id], order := if k in s.store then s.order else s.order + [k]))
  }

  // ---------------------------------------------------------------------
  // The operations of AlertProvider
  // ---------------------------------------------------------------------

  /** `subscribe(cb)`: add to the set. */
  function Subscribe(s: State, l: Listener): (r: State)
    ensures forall m :: m in r.listeners <==> m in s.listeners || m == l
    ensures NoDuplicates(s.listeners) ==> NoDuplicates(r.listeners)
    ensures r.(listeners := s.listeners) == s
  {
    if l in s.listeners then s else s.(listeners := s.listeners + [l])
  }

  /** The disposer returned by `subscribe(cb)`: `Set.delete`, answering whether `cb` was there. */
  function Unsubscribe(s: State, l: Listener): (r: (State, bool))
    ensures r.1 <==> l in s.listeners
    ensures forall m :: m in r.0.listeners <==> m in s.listeners && m != l
    ensures r.0.(listeners := s.listeners) == s
  {
    (s.(listeners := Remove(s.listeners, l)), l in s.listeners)
  }

  /** `expireAlert(alert)`: acts only when the store holds something under `alert.key`. */
  function Expire(s: State, id: AlertId): (r: State)
    requires id in s.heap
    ensures s.heap[id].key !in r.store && r.store.Keys <= s.store.Keys
    ensures r.heap == s.heap && r.pending == s.pending && r.listeners == s.listeners
    ensures s.heap[id].key !in s.store ==> r == s
  {
    var a := s.heap[id];
    if a.key !in s.store then s
    else
      NotifySubscribers(s.(
        store := s.store - {a.key},
        order := Remove(s.order, a.key),
        log := s.log + Invoke(ExpireHook, a.onExpire, id),
        timers := s.timers - {a.key}))   // forgotten, but not cleared on the host
  }

  /** The duplicate branch of `addAlert`. */
  function MarkDuplicate(s: State, id: AlertId): (r: State)
    requires id in s.heap
  {
    var a := s.heap[id];
    CancelTracked(s.(heap := s.heap[id := a.(isDuplicate := true)],
                     log := s.log + Invoke(DuplicatedHook, a.onDuplicated, id)), a.key)
  }

  /** The part of `addAlert` before it looks at the delay: the duplicate branch, then `onNotify`. */
  function AddPrefix(s: State, id: AlertId): (r: State)
    requires id in s.heap
  {
    var a := s.heap[id];
    var s1 := if a.key in s.store then MarkDuplicate(s, id) else s;
    s1.(log := s1.log + Invoke(NotifyHook, a.onNotify, id))
  }

  /** `addAlert(alert)`. */
  function Add(s: State, id: AlertId): (r: State)
    requires id in s.heap
    ensures r.heap.Keys == s.heap.Keys && r.heap[id].key == s.heap[id].key
    ensures r.listeners == s.listeners && r.nextAlert == s.nextAlert
  {
    var a := s.heap[id];
    var s2 := AddPrefix(s, id);
    if a.expiresInMs == Ms(0) then s2
    else Put(if a.expiresInMs.Ms? then Schedule(s2, a.key, id) else s2, id)
  }

  /** The fields `updateAlert` accepts; `None` is an absent field. */
  datatype UpdateParams = UpdateParams(
    expiresInMs: Option<Expiry>,
    onExpire: Option<Callback>,
    isDuplicate: Option<bool>,
    onDuplicated: Option<Callback>)

  /** The field patch of `updateAlert`; `expiresInMs` itself is never written. */
  function Patch(a: Alert, p: UpdateParams): (r: Alert)
    ensures r.key == a.key && r.kind == a.kind && r.title == a.title && r.message == a.message
    ensures r.createdAt == a.createdAt && r.expiresInMs == a.expiresInMs && r.onNotify == a.onNotify
    ensures p == UpdateParams(None, None, None, None) ==> r == a
  {
    a.(onExpire := if p.onExpire.Some? then p.onExpire else a.onExpire,
       onDuplicated := if p.onDuplicated.Some? then p.onDuplicated else a.onDuplicated,
       isDuplicate := if p.isDuplicate.Some? then p.isDuplicate.value else a.isDuplicate)
  }

  /** The timer part of `updateAlert`. */
  function Reschedule(s: State, id: AlertId, e: Option<Expiry>): (r: State)
    requires id in s.heap
  {
    var k := s.heap[id].key;
    if e.None? then s
    else
      var c := CancelTracked(s, k);
      if e.value.Ms? then Schedule(c, k, id) else c
  }

  /** `updateAlert(alert, params)`. */
  function Update(s: State, id: AlertId, p: UpdateParams): (r: State)
    requires id in s.heap
    ensures r.heap.Keys == s.heap.Keys && r.listeners == s.listeners && r.nextAlert == s.nextAlert
    ensures s.heap[id].key in r.store && r.store[s.heap[id].key] == id
  {
    var s1 := Reschedule(s, id, p.expiresInMs);
    Put(s1.(heap := s1.heap[id := Patch(s1.heap[id], p)]), id)
  }

  /** A host timer firing: it is no longer pending, and it runs `expireAlert` on the alert it captured. */
  function Fire(s: State, h: Handle): (r: State)
    requires h in s.pending && s.pending[h] in s.heap
    ensures h !in r.pending && r.heap == s.heap
    ensures s.heap[s.pending[h]].key !in r.store
  {
    Expire(s.(pending := s.pending - {h}), s.pending[h])
  }

  /** The effect cleanup: `clearTimeout` on every handle in the timer table. */
  function Teardown(s: State): (r: State)
    ensures forall k :: k in s.timers ==> s.timers[k] !in r.pending
    ensures forall h :: h in r.pending ==> h in s.pending && r.pending[h] == s.pending[h]
    ensures r.(pending := s.pending) == s
  {
    s.(pending := s.pending - s.timers.Values)
  }

  /** The parameters `notify` hands to `createAlert`: the default replaces only an absent `expiresInMs`. */
  function WithDefault(p: CreateParams, defaultExpiresInMs: Option<Expiry>): (r: CreateParams)
    ensures r.expiresInMs.None? <==> p.expiresInMs.None? && defaultExpiresInMs.None?
    ensures p.expiresInMs.Some? ==> r == p
    ensures p.expiresInMs.None? ==> r.expiresInMs == defaultExpiresInMs
    ensures r.(expiresInMs := p.expiresInMs) == p
  {
    p.(expiresInMs := if p.expiresInMs.Some? then p.expiresInMs else defaultExpiresInMs)
  }

  /** `createAlert` in `notify`: a new alert object under a fresh identity. */
  function Allocate(s: State, p: CreateParams, defaultExpiresInMs: Option<Expiry>, now: int): (r: State) {
    s.(heap := s.heap[s.nextAlert := CreateAlert(WithDefault(p, defaultExpiresInMs), now)], nextAlert := s.nextAlert + 1)
  }

  /** `notify(params)`: `createAlert`, then `addAlert`; the result is the new alert. */
  function Notify(s: State, p: CreateParams, defaultExpiresInMs: Option<Expiry>, now: int): (r: (State, AlertId))
    ensures r.1 == s.nextAlert && r.0.nextAlert == s.nextAlert + 1
    ensures r.1 in r.0.heap && r.0.heap[r.1].key == Key(p.kind, p.title, p.message)
  {
    (Add(Allocate(s, p, defaultExpiresInMs, now), s.nextAlert), s.nextAlert)
  }

  /** What a container renders: the stored alerts in the store's iteration order. */
  function Rendered(s: State): (r: seq<AlertId>)
    requires Valid(s)
    ensures |r| == |s.order| == |s.store|
    ensures forall i :: 0 <= i < |r| ==> r[i] == s.store[s.order[i]]
  {
    OrderCoversStore(s);
    seq(|s.order|, i requires 0 <= i < |s.order| => s.store[s.order[i]])
  }

  lemma OrderCoversStore(s: State)
    requires Valid(s)
    ensures |s.order| == |s.store|
  {
    DistinctCard(s.order, s.store.Keys);
  }

  lemma {:induction false} DistinctCard<T>(xs: seq<T>, ks: set<T>)
    requires NoDuplicates(xs)
    requires forall k :: k in ks <==> k in xs
    ensures |xs| == |ks|
  {
    if xs != [] {
      var last := xs[|xs| - 1];
      var init := xs[..|xs| - 1];
      assert xs == init + [last];
      assert forall k :: k in init <==> k in ks - {last} by {
        forall k ensures k in init <==> k in ks - {last} {
          if k in init {
            var i :| 0 <= i < |init| && init[i] == k;
            assert xs[i] == k && i < |xs| - 1;
          }
        }
      }
      DistinctCard(init, ks - {last});
    }
  }
}
