/**
 * What the registry promises: the invariant is kept by every operation,
 * and each operation has the effect on the store, the timers, the alert
 * object and the callback log that `AlertProvider` gives it.
 */
module RegistryProps {
  import opened Options
  import opened Alerts
  import opened Registry

  // ---------------------------------------------------------------------
  // Counting callbacks in the log
  // ---------------------------------------------------------------------

  /** How many calls of a `hook` callback the events record. */
  function HookCount(es: seq<Event>, hook: Hook): (n: nat) {
    if es == [] then 0
    else (if es[0].Invoked? && es[0].hook == hook then 1 else 0) + HookCount(es[1..], hook)
  }

  lemma {:induction false} HookCountAppend(a: seq<Event>, b: seq<Event>, hook: Hook)
    ensures HookCount(a + b, hook) == HookCount(a, hook) + HookCount(b, hook)
  {
    if a == [] {
      assert a + b == b;
    } else {
      assert (a + b)[0] == a[0] && (a + b)[1..] == a[1..] + b;
      HookCountAppend(a[1..], b, hook);
    }
  }

  lemma {:induction false} HookCountCalls(ls: seq<Listener>, hook: Hook)
    ensures HookCount(Calls(ls), hook) == 0
  {
    if ls != [] {
      HookCountCalls(ls[..|ls| - 1], hook);
      HookCountAppend(Calls(ls[..|ls| - 1]), [Called(ls[|ls| - 1])], hook);
    }
  }

  lemma HookCountInvoke(h: Hook, cb: Option<Callback>, id: AlertId, hook: Hook)
    ensures HookCount(Invoke(h, cb, id), hook) == if cb.Some? && h == hook then 1 else 0
  {
  }

  // ---------------------------------------------------------------------
  // The invariant is kept
  // ---------------------------------------------------------------------

  lemma EmptyValid()
    ensures Valid(Empty())
  {
  }

  lemma SubscribeValid(s: State, l: Listener)
    requires Valid(s)
    ensures Valid(Subscribe(s, l))
  {
  }

  lemma UnsubscribeValid(s: State, l: Listener)
    requires Valid(s)
    ensures Valid(Unsubscribe(s, l).0)
  {
  }

  lemma ExpireValid(s: State, id: AlertId)
    requires Valid(s) && id in s.heap
    ensures Valid(Expire(s, id))
  {
  }

  /** Rewriting an alert object keeps the invariant as long as its key stays. */
  lemma HeapWriteInv(s: State, id: AlertId, a: Alert)
    requires Inv(s) && id in s.heap && a.key == s.heap[id].key
    ensures Inv(s.(heap := s.heap[id := a]))
  {
  }

  lemma CancelTrackedInv(s: State, k: string)
    requires Inv(s)
    ensures Inv(CancelTracked(s, k))
    ensures CancelTracked(s, k).timers.Keys == s.timers.Keys - {k}
  {
  }

  lemma ScheduleInv(s: State, k: string, id: AlertId)
    requires Inv(s) && id in s.heap && s.heap[id].key == k
    ensures Inv(Schedule(s, k, id))
    ensures Schedule(s, k, id).timers.Keys == s.timers.Keys + {k}
  {
  }

  /** `Put` restores the invariant once the only untracked-but-timed key is the one being stored. */
  lemma PutValid(s: State, id: AlertId)
    requires Inv(s) && id in s.heap
    requires s.timers.Keys <= s.store.Keys + {s.heap[id].key}
    ensures Valid(Put(s, id))
  {
  }

  lemma MarkDuplicateInv(s: State, id: AlertId)
    requires Inv(s) && id in s.heap
    ensures Inv(MarkDuplicate(s, id))
    ensures MarkDuplicate(s, id).timers.Keys == s.timers.Keys - {s.heap[id].key}
    ensures MarkDuplicate(s, id).heap[id].key == s.heap[id].key
  {
  }

  lemma AddValid(s: State, id: AlertId)
    requires Valid(s) && id in s.heap
    ensures Valid(Add(s, id))
  {
    var a := s.heap[id];
    var s1 := if a.key in s.store then MarkDuplicate(s, id) else s;
    if a.key in s.store {
      MarkDuplicateInv(s, id);
    }
    var s2 := AddPrefix(s, id);
    assert Inv(s2) && s2.heap[id].key == a.key;
    assert s2.timers.Keys <= s2.store.Keys;
    if a.expiresInMs != Ms(0) {
      var s3 := if a.expiresInMs.Ms? then Schedule(s2, a.key, id) else s2;
      if a.expiresInMs.Ms? {
        ScheduleInv(s2, a.key, id);
      }
      PutValid(s3, id);
    }
  }

  lemma RescheduleInv(s: State, id: AlertId, e: Option<Expiry>)
    requires Valid(s) && id in s.heap
    ensures Inv(Reschedule(s, id, e))
    ensures Reschedule(s, id, e).timers.Keys <= s.store.Keys + {s.heap[id].key}
    ensures Reschedule(s, id, e).heap == s.heap && Reschedule(s, id, e).store == s.store
  {
    var k := s.heap[id].key;
    if e.Some? {
      CancelTrackedInv(s, k);
      if e.value.Ms? {
        ScheduleInv(CancelTracked(s, k), k, id);
      }
    }
  }

  lemma UpdateValid(s: State, id: AlertId, p: UpdateParams)
    requires Valid(s) && id in s.heap
    ensures Valid(Update(s, id, p))
  {
    var s1 := Reschedule(s, id, p.expiresInMs);
    RescheduleInv(s, id, p.expiresInMs);
    HeapWriteInv(s1, id, Patch(s1.heap[id], p));
    PutValid(s1.(heap := s1.heap[id := Patch(s1.heap[id], p)]), id);
  }

  /** A timer firing is `expireAlert` on the captured alert, with the handle no longer pending. */
  lemma FireIsExpire(s: State, h: Handle)
    requires h in s.pending && s.pending[h] in s.heap
    ensures Fire(s, h) == Expire(s, s.pending[h]).(pending := s.pending - {h})
  {
  }

  lemma FireValid(s: State, h: Handle)
    requires Valid(s) && h in s.pending
    ensures Valid(Fire(s, h))
  {
  }

  lemma AllocateValid(s: State, p: CreateParams, d: Option<Expiry>, now: int)
    requires Valid(s)
    ensures Valid(Allocate(s, p, d, now))
    ensures s.nextAlert !in s.heap
  {
  }

  lemma NotifyValid(s: State, p: CreateParams, d: Option<Expiry>, now: int)
    requires Valid(s)
    ensures Valid(Notify(s, p, d, now).0)
  {
    AllocateValid(s, p, d, now);
    AddValid(Allocate(s, p, d, now), s.nextAlert);
  }

  // ---------------------------------------------------------------------
  // addAlert
  // ---------------------------------------------------------------------

  /**
   * The callbacks `addAlert` runs, in order: `onDuplicated` (only for a key
   * already stored), `onNotify` (always), then every subscriber once (unless
   * the delay is 0).
   */
  function AddedEvents(s: State, id: AlertId): (es: seq<Event>)
    requires id in s.heap
  {
    var a := s.heap[id];
    (if a.key in s.store then Invoke(DuplicatedHook, a.onDuplicated, id) else [])
      + Invoke(NotifyHook, a.onNotify, id)
      + (if a.expiresInMs == Ms(0) then [] else Calls(s.listeners))
  }

  lemma AddPrefixLog(s: State, id: AlertId)
    requires id in s.heap
    ensures var a := s.heap[id];
      AddPrefix(s, id).log == s.log
        + (if a.key in s.store then Invoke(DuplicatedHook, a.onDuplicated, id) else [])
        + Invoke(NotifyHook, a.onNotify, id)
    ensures AddPrefix(s, id).listeners == s.listeners
  {
  }

  lemma {:induction false} AddLog(s: State, id: AlertId)
    requires id in s.heap
    ensures Add(s, id).log == s.log + AddedEvents(s, id)
  {
    var a := s.heap[id];
    var d := if a.key in s.store then Invoke(DuplicatedHook, a.onDuplicated, id) else [];
    var n := Invoke(NotifyHook, a.onNotify, id);
    var c := if a.expiresInMs == Ms(0) then [] else Calls(s.listeners);
    var s2 := AddPrefix(s, id);
    AddPrefixLog(s, id);
    assert AddedEvents(s, id) == d + n + c;
    if a.expiresInMs == Ms(0) {
      assert Add(s, id) == s2 && c == [] && s2.log + c == s2.log;
    } else {
      PutTailLog(s2, a.key, id, a.expiresInMs.Ms?);
      assert Add(s, id).log == s2.log + c;
    }
    assert s2.log == s.log + (d + n);
    AppendAssoc(s.log, d + n, c);
  }

  lemma AppendAssoc<T>(a: seq<T>, b: seq<T>, c: seq<T>)
    ensures a + b + c == a + (b + c)
  {
  }

  /** The tail of `addAlert`: scheduling changes no log, storing notifies every subscriber once. */
  lemma PutTailLog(s: State, k: string, id: AlertId, scheduled: bool)
    requires id in s.heap
    ensures Put(if scheduled then Schedule(s, k, id) else s, id).log == s.log + Calls(s.listeners)
  {
  }

  /** `onNotify` runs exactly once on every add, `onDuplicated` at most once, `onExpire` never. */
  lemma {:induction false} AddCallbackCounts(s: State, id: AlertId)
    requires id in s.heap
    ensures var a := s.heap[id]; var added := AddedEvents(s, id);
      && HookCount(added, NotifyHook) == (if a.onNotify.Some? then 1 else 0)
      && HookCount(added, DuplicatedHook) == (if a.key in s.store && a.onDuplicated.Some? then 1 else 0)
      && HookCount(added, ExpireHook) == 0
  {
    var a := s.heap[id];
    var d := if a.key in s.store then Invoke(DuplicatedHook, a.onDuplicated, id) else [];
    var n := Invoke(NotifyHook, a.onNotify, id);
    var c := if a.expiresInMs == Ms(0) then [] else Calls(s.listeners);
    assert AddedEvents(s, id) == d + n + c;
    CountsOfAdded(d, n, c, s.listeners, NotifyHook);
    CountsOfAdded(d, n, c, s.listeners, DuplicatedHook);
    CountsOfAdded(d, n, c, s.listeners, ExpireHook);
    HookCountInvoke(NotifyHook, a.onNotify, id, NotifyHook);
    HookCountInvoke(NotifyHook, a.onNotify, id, DuplicatedHook);
    HookCountInvoke(NotifyHook, a.onNotify, id, ExpireHook);
    HookCountInvoke(DuplicatedHook, a.onDuplicated, id, NotifyHook);
    HookCountInvoke(DuplicatedHook, a.onDuplicated, id, DuplicatedHook);
    HookCountInvoke(DuplicatedHook, a.onDuplicated, id, ExpireHook);
    assert HookCount([], NotifyHook) == 0 && HookCount([], DuplicatedHook) == 0;
  }

  lemma CountsOfAdded(d: seq<Event>, n: seq<Event>, c: seq<Event>, ls: seq<Listener>, hook: Hook)
    requires c == [] || c == Calls(ls)
    ensures HookCount(d + n + c, hook) == HookCount(d, hook) + HookCount(n, hook)
  {
    HookCountAppend(d + n, c, hook);
    HookCountAppend(d, n, hook);
    HookCountCalls(ls, hook);
  }

  /** A duplicate add flags the incoming alert and clears the key's tracked timer before scheduling any new one. */
  lemma AddDuplicate(s: State, id: AlertId)
    requires Valid(s) && id in s.heap && s.heap[id].key in s.store
    ensures var k := s.heap[id].key; var r := Add(s, id);
      && r.heap[id] == s.heap[id].(isDuplicate := true)
      && (k in s.timers ==> s.timers[k] !in r.pending && s.timers[k] !in r.timers.Values)
      && r.pending.Keys <= s.pending.Keys + {s.nextHandle}
  {
  }

  /**
   * With a delay of 0 the store, its order and the subscribers are left
   * alone; a same-key entry stays but loses its tracked timer.
   */
  lemma AddZeroDelay(s: State, id: AlertId)
    requires Valid(s) && id in s.heap && s.heap[id].expiresInMs == Ms(0)
    ensures var k := s.heap[id].key; var r := Add(s, id);
      && r.store == s.store && r.order == s.order
      && k !in r.timers && r.timers == s.timers - {k}
      && (k !in s.store ==> r.timers == s.timers && r.pending == s.pending && r.heap == s.heap)
      && r.log == s.log + (if k in s.store then Invoke(DuplicatedHook, s.heap[id].onDuplicated, id) else [])
                        + Invoke(NotifyHook, s.heap[id].onNotify, id)
  {
  }

  /**
   * Any other delay stores the alert under its key: a key already stored
   * keeps its place in the order, a new key goes last. `null` and `Infinity`
   * leave the key without a timer; a number tracks exactly one fresh timer
   * that captured this alert.
   */
  lemma AddStores(s: State, id: AlertId)
    requires Valid(s) && id in s.heap && s.heap[id].expiresInMs != Ms(0)
    ensures var a := s.heap[id]; var k := a.key; var r := Add(s, id);
      && r.store == s.store[k := id]
      && r.order == (if k in s.store then s.order else s.order + [k])
      && (a.expiresInMs.Ms? <==> k in r.timers)
      && (a.expiresInMs.Ms? ==> r.timers[k] == s.nextHandle && s.nextHandle !in s.pending && r.pending[s.nextHandle] == id)
      && r.timers - {k} == s.timers - {k}
  {
    var a := s.heap[id];
    var k := a.key;
    var s1 := if k in s.store then MarkDuplicate(s, id) else s;
    var s2 := AddPrefix(s, id);
    assert s2.store == s.store && s2.order == s.order && s2.heap[id].key == k;
    assert s2.timers == s.timers - {k} by {
      if k !in s.store {
        assert k !in s.timers;
      }
    }
    assert s2.pending.Keys <= s.pending.Keys && s2.nextHandle == s.nextHandle;
    var s3 := if a.expiresInMs.Ms? then Schedule(s2, k, id) else s2;
    assert Add(s, id) == Put(s3, id);
  }

  /** What `addAlert` leaves alone: the subscribers, every other alert, and every other host timer. */
  lemma AddFrame(s: State, id: AlertId)
    requires Valid(s) && id in s.heap
    ensures var a := s.heap[id]; var k := a.key; var r := Add(s, id);
      && r.listeners == s.listeners
      && r.heap == (if k in s.store then s.heap[id := a.(isDuplicate := true)] else s.heap)
      && (forall h :: h in s.pending && (k !in s.timers || h != s.timers[k]) ==>
            h in r.pending && r.pending[h] == s.pending[h])
  {
    var a := s.heap[id];
    var k := a.key;
    var s2 := AddPrefix(s, id);
    assert s2.listeners == s.listeners && s2.nextHandle == s.nextHandle;
    assert s2.heap == (if k in s.store then s.heap[id := a.(isDuplicate := true)] else s.heap);
    assert forall h :: h in s.pending && (k !in s.timers || h != s.timers[k]) ==>
      h in s2.pending && s2.pending[h] == s.pending[h];
    if a.expiresInMs != Ms(0) {
      var s3 := if a.expiresInMs.Ms? then Schedule(s2, k, id) else s2;
      assert s3.heap == s2.heap && s3.listeners == s.listeners;
      assert forall h :: h in s2.pending && h != s.nextHandle ==> h in s3.pending && s3.pending[h] == s2.pending[h];
      assert Add(s, id) == Put(s3, id);
    }
  }

  // ---------------------------------------------------------------------
  // expireAlert
  // ---------------------------------------------------------------------

  /** Expiring a key the store does not hold changes nothing and runs no callback. */
  lemma ExpireAbsent(s: State, id: AlertId)
    requires id in s.heap && s.heap[id].key !in s.store
    ensures Expire(s, id) == s
  {
  }

  /**
   * Expiring a stored key removes it, runs the passed alert's `onExpire`,
   * forgets the key's timer without clearing it on the host, and notifies
   * every subscriber, whichever alert object the store held under that key.
   */
  lemma ExpirePresent(s: State, id: AlertId)
    requires Valid(s) && id in s.heap && s.heap[id].key in s.store
    ensures var a := s.heap[id]; var r := Expire(s, id);
      && r.store == s.store - {a.key} && a.key !in r.order
      && (forall k :: k in r.order <==> k in s.order && k != a.key)
      && (forall i :: 0 <= i < |s.order| && s.order[i] == a.key ==> r.order == s.order[..i] + s.order[i + 1..])
      && r.timers == s.timers - {a.key} && r.pending == s.pending
      && r.log == s.log + Invoke(ExpireHook, a.onExpire, id) + Calls(s.listeners)
      && r.heap == s.heap
  {
    forall i | 0 <= i < |s.order| && s.order[i] == s.heap[id].key {
      RemoveAt(s.order, i);
    }
  }

  /** Expiring twice is expiring once, so `onExpire` runs at most once. */
  lemma {:induction false} ExpireIdempotent(s: State, id: AlertId)
    requires id in s.heap
    ensures id in Expire(s, id).heap
    ensures Expire(Expire(s, id), id) == Expire(s, id)
    ensures |Expire(s, id).log| >= |s.log|
    ensures HookCount(Expire(Expire(s, id), id).log[|s.log|..], ExpireHook) <= 1
  {
    var a := s.heap[id];
    if a.key in s.store {
      var e := Invoke(ExpireHook, a.onExpire, id);
      assert Expire(s, id).log[|s.log|..] == e + Calls(s.listeners);
      HookCountAppend(e, Calls(s.listeners), ExpireHook);
      HookCountCalls(s.listeners, ExpireHook);
    }
  }

  // ---------------------------------------------------------------------
  // Timers
  // ---------------------------------------------------------------------

  /**
   * A timer firing acts on whatever the store holds under the captured
   * alert's key, which may be a newer alert: it removes that entry and runs
   * the captured alert's `onExpire`.
   */
  lemma FireRemovesKey(s: State, h: Handle)
    requires Valid(s) && h in s.pending && s.heap[s.pending[h]].key in s.store
    ensures var a := s.heap[s.pending[h]]; var r := Fire(s, h);
      && r.store == s.store - {a.key}
      && h !in r.pending
      && r.log == s.log + Invoke(ExpireHook, a.onExpire, s.pending[h]) + Calls(s.listeners)
  {
  }

  /** A timer that fires after its alert was expired by hand does nothing besides leaving the host. */
  lemma FireAfterExpire(s: State, h: Handle)
    requires Valid(s) && h in s.pending
    ensures var id := s.pending[h]; var e := Expire(s, id);
      h in e.pending && Fire(e, h) == e.(pending := e.pending - {h})
  {
  }

  /**
   * A timer left pending by a manual expire can remove a newer alert: after
   * `a` is added with a delay and expired by hand, and an alert `b` with the
   * same key is added, the first timer still fires, removes `b` and runs
   * `a`'s `onExpire`, which the manual expire had already run.
   */
  lemma StaleTimerRemovesNewerAlert(cbA: Callback)
    ensures
      var p := CreateParams(Info, "info", Some("info"), Some(Ms(100)), Some(cbA), None);
      var (s1, a) := Notify(Empty(), p, None, 0);
      var s2 := Expire(s1, a);
      var (s3, b) := Notify(s2, p, None, 1);
      var k := Key(Info, Some("info"), "info");
      && 0 in s3.pending && s3.pending[0] == a && a != b
      && k in s3.store && s3.store[k] == b
      && k !in Fire(s3, 0).store
      && Fire(s3, 0).log == s3.log + [Invoked(ExpireHook, cbA, a)]
      && Invoked(ExpireHook, cbA, a) in s3.log
  {
    var p := CreateParams(Info, "info", Some("info"), Some(Ms(100)), Some(cbA), None);
    var (s1, a) := Notify(Empty(), p, None, 0);
    EmptyValid();
    NotifyStores(Empty(), p, None, 0);
    NotifyValid(Empty(), p, None, 0);
    ExpirePresent(s1, a);
    var s2 := Expire(s1, a);
    assert Invoked(ExpireHook, cbA, a) in s2.log;
    AddLog(Allocate(s2, p, None, 1), s2.nextAlert);
    assert s2.log <= Notify(s2, p, None, 1).0.log;
  }

  /** Teardown clears every tracked timer on the host; timers forgotten by a manual expire stay pending. */
  lemma TeardownClearsTracked(s: State)
    ensures var r := Teardown(s);
      && (forall k :: k in s.timers ==> s.timers[k] !in r.pending)
      && (forall h :: h in s.pending && h !in s.timers.Values ==> h in r.pending && r.pending[h] == s.pending[h])
      && r.pending.Keys <= s.pending.Keys
      && r.store == s.store && r.timers == s.timers && r.log == s.log
  {
  }

  // ---------------------------------------------------------------------
  // updateAlert
  // ---------------------------------------------------------------------

  /**
   * `updateAlert` patches only the callback fields given (and `isDuplicate`
   * when given), never `expiresInMs`; writes the alert under its key even when
   * it had expired; and notifies every subscriber. A given delay replaces the
   * key's tracked timer: `null` and `Infinity` leave none, a number (0
   * included) tracks a fresh one that captured this alert.
   */
  lemma UpdateEffects(s: State, id: AlertId, p: UpdateParams)
    requires Valid(s) && id in s.heap
    ensures var a := s.heap[id]; var k := a.key; var r := Update(s, id, p); var b := r.heap[id];
      && b.key == a.key && b.kind == a.kind && b.title == a.title && b.message == a.message
      && b.createdAt == a.createdAt && b.onNotify == a.onNotify && b.expiresInMs == a.expiresInMs
      && b.onExpire == (if p.onExpire.Some? then p.onExpire else a.onExpire)
      && b.onDuplicated == (if p.onDuplicated.Some? then p.onDuplicated else a.onDuplicated)
      && b.isDuplicate == (if p.isDuplicate.Some? then p.isDuplicate.value else a.isDuplicate)
      && r.store == s.store[k := id]
      && r.order == (if k in s.store then s.order else s.order + [k])
      && r.log == s.log + Calls(s.listeners)
      && (p.expiresInMs.None? ==> r.timers == s.timers && r.pending == s.pending)
      && (p.expiresInMs.Some? && k in s.timers ==> s.timers[k] !in r.pending)
      && (p.expiresInMs.Some? ==> (p.expiresInMs.value.Ms? <==> k in r.timers))
      && (p.expiresInMs.Some? && p.expiresInMs.value.Ms? ==>
            r.timers[k] == s.nextHandle && s.nextHandle !in s.pending && r.pending[s.nextHandle] == id)
  {
  }

  /** What `updateAlert` leaves alone: the subscribers, every other alert, and every other host timer. */
  lemma UpdateFrame(s: State, id: AlertId, p: UpdateParams)
    requires Valid(s) && id in s.heap
    ensures var k := s.heap[id].key; var r := Update(s, id, p);
      && r.listeners == s.listeners
      && (forall j :: j in s.heap && j != id ==> j in r.heap && r.heap[j] == s.heap[j])
      && (forall h :: h in s.pending && (p.expiresInMs.None? || k !in s.timers || h != s.timers[k]) ==>
            h in r.pending && r.pending[h] == s.pending[h])
      && r.timers - {k} == s.timers - {k}
  {
    var s1 := Reschedule(s, id, p.expiresInMs);
    RescheduleFrame(s, id, p.expiresInMs);
    var r := Update(s, id, p);
    assert r.timers == s1.timers && r.pending == s1.pending && r.listeners == s1.listeners;
    assert r.heap == s1.heap[id := Patch(s1.heap[id], p)];
  }

  /** The timer part of `updateAlert` touches only the alert's own key in the timer table. */
  lemma RescheduleFrame(s: State, id: AlertId, e: Option<Expiry>)
    requires Valid(s) && id in s.heap
    ensures var k := s.heap[id].key; var r := Reschedule(s, id, e);
      && r.heap == s.heap && r.listeners == s.listeners
      && r.timers - {k} == s.timers - {k}
      && (forall h :: h in s.pending && (e.None? || k !in s.timers || h != s.timers[k]) ==>
            h in r.pending && r.pending[h] == s.pending[h])
  {
  }

  // ---------------------------------------------------------------------
  // subscribe
  // ---------------------------------------------------------------------

  /** Subscribing twice is subscribing once; a new listener goes last. */
  lemma SubscribeOnce(s: State, l: Listener)
    ensures Subscribe(Subscribe(s, l), l) == Subscribe(s, l)
    ensures Subscribe(s, l).listeners == if l in s.listeners then s.listeners else s.listeners + [l]
    ensures l in Subscribe(s, l).listeners
  {
  }

  /** The disposer removes the listener; a second call is a no-op answering false. */
  lemma UnsubscribeTwice(s: State, l: Listener)
    ensures var (s1, removed1) := Unsubscribe(s, l); var (s2, removed2) := Unsubscribe(s1, l);
      && removed1 == (l in s.listeners)
      && l !in s1.listeners
      && (forall m :: m in s1.listeners <==> m in s.listeners && m != l)
      && (NoDuplicates(s.listeners) ==> forall i :: 0 <= i < |s.listeners| && s.listeners[i] == l ==>
            s1.listeners == s.listeners[..i] + s.listeners[i + 1..])
      && !removed2 && s2 == s1
  {
    if NoDuplicates(s.listeners) {
      forall i | 0 <= i < |s.listeners| && s.listeners[i] == l {
        RemoveAt(s.listeners, i);
      }
    }
  }

  // ---------------------------------------------------------------------
  // notify
  // ---------------------------------------------------------------------

  /**
   * `notify` uses `defaultExpiresInMs` only when `expiresInMs` is absent (an
   * explicit `null` stays `null`), builds the alert with `createAlert` under a
   * fresh identity, and then, because `createAlert` has already turned 0
   * into `null`, always stores it: an alert notified with 0 stays forever.
   */
  lemma NotifyStores(s: State, p: CreateParams, d: Option<Expiry>, now: int)
    requires Valid(s)
    ensures var (r, id) := Notify(s, p, d, now); var k := Key(p.kind, p.title, p.message);
      && id !in s.heap && id in r.heap
      && r.heap[id].expiresInMs == NormaliseExpiry(if p.expiresInMs.Some? then p.expiresInMs else d)
      && r.heap[id].key == k && r.heap[id].kind == p.kind
      && r.heap[id].isDuplicate == (k in s.store)
      && r.store == s.store[k := id]
      && (r.heap[id].expiresInMs.Ms? <==> k in r.timers)
  {
    var s1 := Allocate(s, p, d, now);
    AllocateValid(s, p, d, now);
    assert s1.heap[s.nextAlert].expiresInMs != Ms(0);
    AddStores(s1, s.nextAlert);
    AddFrame(s1, s.nextAlert);
  }

  /** An alert notified with an explicit 0 is stored with no timer. */
  lemma NotifyZeroIsPermanent(s: State, p: CreateParams, d: Option<Expiry>, now: int)
    requires Valid(s) && p.expiresInMs == Some(Ms(0))
    ensures var (r, id) := Notify(s, p, d, now); var k := Key(p.kind, p.title, p.message);
      k in r.store && r.store[k] == id && k !in r.timers && r.heap[id].expiresInMs == Null
  {
  }

  /** `onDuplicated` never runs through `notify`: fresh alerts have none. */
  lemma NotifyNeverRunsOnDuplicated(s: State, p: CreateParams, d: Option<Expiry>, now: int)
    ensures Notify(s, p, d, now).0.log == s.log + AddedEvents(Allocate(s, p, d, now), s.nextAlert)
    ensures HookCount(AddedEvents(Allocate(s, p, d, now), s.nextAlert), DuplicatedHook) == 0
  {
    AddLog(Allocate(s, p, d, now), s.nextAlert);
    AddCallbackCounts(Allocate(s, p, d, now), s.nextAlert);
  }

  /** One `notifyError({message: "error"})` on a fresh provider renders exactly one alert. */
  lemma NotifyErrorRendersOne(now: int)
    ensures var (r, id) := Notify(Empty(), CreateParams(Error, "error", None, None, None, None), None, now);
      Valid(r) && Rendered(r) == [id]
  {
    var p := CreateParams(Error, "error", None, None, None, None);
    var (r, id) := Notify(Empty(), p, None, now);
    EmptyValid();
    NotifyValid(Empty(), p, None, now);
    NotifyStores(Empty(), p, None, now);
    var k := Key(p.kind, p.title, p.message);
    assert r.store == map[k := id];
    assert r.order == [k];
  }
}
