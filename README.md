# alertle: the alert registry, modelled in Dafny

alertle is a toast/alert library for React. Its logic is two pieces:

- the **alert factory** `createAlert`, which builds an alert object and
  derives its deduplication key `type:normTitle:normMessage` (whitespace
  removed, then lower-cased);
- the **alert registry** inside `AlertProvider`: a store `Map<key, Alert>`,
  a table of expiry timers per key and a set of subscribers, changed by
  `addAlert`, `expireAlert`, `updateAlert`, `subscribe`, `notify` and its
  four typed wrappers, and a teardown that clears the tracked timers.

The project has four modules:

- `Alerts` (alert.dfy): the alert types, the key and `createAlert` as pure
  functions, and lemmas about the key.
- `Registry` (registry.dfy): the registry as a state machine over values.
  `State` holds the store (a map plus its iteration order, which is what
  containers render), the timer table, the host timers still pending with
  the alert each captured, the subscribers in insertion order, and a log of
  the callbacks invoked. Each operation of `AlertProvider` is a transition
  function; `Valid` is the registry invariant.
- `RegistryProps` (registry_props.dfy): every transition keeps `Valid`,
  and what each one does to the store, the timers, the alert and the log.
- `Provider` (provider.dfy): `AlertProvider` as a class whose fields are
  the provider's refs and whose methods update them step by step as
  alertle's `context.tsx` does. Each method is proved to end in the state the matching
  `Registry` transition gives, and to keep the invariant.

Modelling choices:

- Alerts are objects with identity. An alert is an `AlertId` into
  `State.heap`, and the store maps keys to identities. `addAlert` and
  `updateAlert` write the passed object. `expireAlert` and `updateAlert`
  reach the store only through `alert.key`.
- Timers are abstract handles. `timers` is `timeoutsRef.current`.
  `pending` holds the host timers not yet fired or cleared, each with the
  alert its callback captured. `clearTimeout` removes a handle from
  `pending`. `Fire(h)` is the host running a pending timer: the handle
  leaves `pending`, then `expireAlert` runs on the captured alert.
- `expireAlert` only deletes the table entry and never clears the timer,
  so a stale timer can fire later. It then removes whatever alert the
  store holds under that key, possibly a newer one, and runs the old
  alert's `onExpire` (`StaleTimerRemovesNewerAlert`).
- Callbacks and listeners are identities (`nat`). Running one appends an
  event to `State.log`. An absent callback (`undefined`) is `None`.
- `expiresInMs` is `Null | Infinity | Ms(n)`; an absent value is
  `None`. The alert type field `type` is called `kind`, because
  `type` is a Dafny keyword.
- `Date.now()` is the parameter `now`. `defaultExpiresInMs` is a
  parameter of `Registry.Notify` and a constant of the class.

Consequences of the code that are easy to miss:

- `addAlert` returns early, storing nothing, for a 0 delay
  (context.tsx:122-124). `addAlert` is called only from `notify`
  (context.tsx:193) and is in neither context value (context.tsx:228-239),
  and `createAlert` turns 0 into `null` with `expiresInMs || null`
  (alert.ts:49). So that branch is dead code: an alert notified with 0 is
  stored with no timer of its own (`NotifyZeroIsPermanent`). `Registry.Add` still models the branch, and
  `AddZeroDelay` states what it would do.
- `addAlert` runs `onDuplicated` on the incoming alert (context.tsx:106-108).
  But `createAlert` never sets `onDuplicated` (alert.ts:45-55), so for an
  alert made by `notify` that call never happens
  (`NotifyNeverRunsOnDuplicated`). Only `updateAlert` can set it
  (context.tsx:164-166).
- `updateAlert` schedules a timer from `params.expiresInMs` but never writes
  `alert.expiresInMs` (context.tsx:144-157), and with 0 it schedules
  `setTimeout(..., 0)`. So whether a key has a tracked timer is not tied to
  the stored alert's `expiresInMs`, and the model states no such link.
- `expireAlert` deletes the timer table entry without calling
  `clearTimeout` (context.tsx:96), so a timer can fire after its alert was
  expired by hand and replaced, and it then removes the newer alert
  (`StaleTimerRemovesNewerAlert`).
- In that same run `onExpire` is called twice with the old alert, once
  from the manual expire and once from the stale timer; the alert the stale
  timer removed is not the one its `onExpire` call receives
  (`StaleTimerRemovesNewerAlert`).

## Model

| member | source | states |
|---|---|---|
| Alerts.TypeName | packages/@alertle-react/src/alert.ts:1-6 | each type name is non-empty and has no ':' |
| Alerts.StripWhitespace | packages/@alertle-react/src/alert.ts:40-41 | the result has no whitespace and is no longer than the input; a whitespace-free input is returned unchanged |
| Alerts.IsWhitespace | packages/@alertle-react/src/alert.ts:40-41 | (a definition) the characters `\s` matches within ASCII: space, tab, line feed, carriage return, vertical tab, form feed |
| Alerts.LowerChar | packages/@alertle-react/src/alert.ts:40-41 | `toLocaleLowerCase` on one character: the result is never upper-case, is whitespace exactly when the input is, and differs from the input only for an upper-case letter |
| Alerts.Lower | packages/@alertle-react/src/alert.ts:40-41 | same length, each character lower-cased (ASCII) |
| Alerts.Norm | packages/@alertle-react/src/alert.ts:40-41 | the normal form has no whitespace and no upper-case letter |
| Alerts.TitleKey | packages/@alertle-react/src/alert.ts:41 | an absent title gives the empty string; any title key is in normal form |
| Alerts.Key | packages/@alertle-react/src/alert.ts:43 | the key is the type name, then ':', then a remainder in normal form, of the summed length of its parts plus two separators |
| Alerts.NormaliseExpiry | packages/@alertle-react/src/alert.ts:49 | `null` exactly for undefined, `null` and 0; any other value kept unchanged; never 0 |
| Alerts.CreateAlert | packages/@alertle-react/src/alert.ts:25-56 | key from type/title/message only; type, title, message, onNotify, onExpire copied; createdAt is the clock reading; not a duplicate, no onDuplicated, delay normalised |
| Alerts.NormIgnoresWhitespace | packages/@alertle-react/src/alert.ts:40-41 | inserting or removing whitespace anywhere does not change the normal form |
| Alerts.NormIgnoresCase | packages/@alertle-react/src/alert.ts:40-41 | strings equal up to letter case have the same normal form |
| Alerts.NormIdempotent | packages/@alertle-react/src/alert.ts:40-41 | normalising twice is normalising once |
| Alerts.BlankTitles | packages/@alertle-react/src/alert.ts:41-43 | absent, empty and whitespace-only titles give the same key |
| Alerts.KeyPrefixIsType | packages/@alertle-react/src/alert.ts:43 | the key's prefix before its first ':' is the type name |
| Alerts.KeyDeterminesType | packages/@alertle-react/src/alert.ts:1-6 | equal keys imply equal types |
| Alerts.KeyIgnoresWhitespace | packages/@alertle-react/src/alert.ts:40-43 | whitespace inserted anywhere in a title or a message leaves the key unchanged, with or without a title |
| Alerts.KeyIgnoresCase | packages/@alertle-react/src/alert.ts:40-43 | titles and messages equal up to letter case give the same key, with or without a title |
| Alerts.KeyCollision | packages/@alertle-react/src/alert.ts:42-43 | two different titles/messages of one type can share a key |
| Registry.Valid | packages/@alertle-react/src/context.tsx:64-66 | the registry invariant (one alert per key under its own key, each stored key once in the order, timer keys among stored keys and their timers live, subscribers without repeats); see the `*Valid` lemmas for its preservation |
| Registry.Empty | packages/@alertle-react/src/context.tsx:64-66 | (a definition) the empty refs; `EmptyValid` proves it satisfies the invariant |
| Registry.Remove | packages/@alertle-react/src/context.tsx:82 | `Set.delete`/`Map.delete` (also line 86) on the order: `x` is gone, exactly the other elements remain, no repeats are introduced, and an absent `x` changes nothing |
| Registry.RemoveAt | packages/@alertle-react/src/context.tsx:82 | in a sequence without repeats, removing `x` cuts out exactly the position holding it, the rest in order |
| Registry.Subscribe | packages/@alertle-react/src/context.tsx:80-81 | the subscribers afterwards are the old ones plus `cb`; no repeats are introduced; nothing else changes |
| Registry.Unsubscribe | packages/@alertle-react/src/context.tsx:82 | the answer is whether `cb` was subscribed; afterwards exactly the other subscribers remain; nothing else changes |
| Registry.Expire | packages/@alertle-react/src/context.tsx:85-99 | the key is absent afterwards and no key is added; the alerts, host timers and subscribers are untouched; an absent key changes nothing |
| Registry.Add | packages/@alertle-react/src/context.tsx:101-140 | no alert object is created or lost, the passed alert keeps its key, subscribers and the identity counter are untouched |
| Registry.Patch | packages/@alertle-react/src/context.tsx:160-170 | `updateAlert`'s patch never changes key, type, title, message, creation time, `expiresInMs` or `onNotify`; an empty patch changes nothing |
| Registry.Update | packages/@alertle-react/src/context.tsx:142-180 | afterwards the passed alert is stored under its key; no alert object is created or lost; subscribers untouched |
| Registry.Fire | packages/@alertle-react/src/context.tsx:126-128 | the fired handle is no longer pending; the captured alert's key is no longer stored; alerts untouched |
| Registry.Teardown | packages/@alertle-react/src/context.tsx:68-76 | no tracked timer stays pending; no timer is added or retargeted; nothing but the pending host timers changes |
| Registry.WithDefault | packages/@alertle-react/src/context.tsx:186-193 | the default fills only an absent `expiresInMs`, and then the result's delay is the default; the result's delay is absent only if both are; no other field changes |
| Registry.Notify | packages/@alertle-react/src/context.tsx:184-196 | the result is a fresh identity holding an alert with the key of the parameters; one identity is consumed |
| Registry.Invoke | packages/@alertle-react/src/context.tsx:92-94 | `if (cb) cb(alert)` (also lines 106-108 and 117-119): at most one event, present exactly when the callback is defined, and then the call of that callback on the alert |
| Registry.NotifySubscribers | packages/@alertle-react/src/context.tsx:98 | (a definition) the log grows by one call per subscriber; `Provider.AlertProvider.NotifySubscribers` is proved to reach it |
| Registry.CancelTracked | packages/@alertle-react/src/context.tsx:110-114 | (a definition) the key's table entry is dropped and its handle cleared; `CancelTrackedInv` states its effect and that it keeps the invariant |
| Registry.Schedule | packages/@alertle-react/src/context.tsx:126-130 | (a definition) a fresh handle, pending with the alert, tracked under the key; `ScheduleInv` states its effect and that it keeps the invariant |
| Registry.Put | packages/@alertle-react/src/context.tsx:133-135 | (a definition) store under the key, append a new key to the order, notify; `PutValid` proves it restores the invariant |
| Registry.MarkDuplicate | packages/@alertle-react/src/context.tsx:103-115 | (a definition) the duplicate branch; `MarkDuplicateInv` states its effect on the table and that it keeps the invariant |
| Registry.AddPrefix | packages/@alertle-react/src/context.tsx:103-119 | (a definition) the duplicate branch then `onNotify`; `AddPrefixLog` states the events it logs |
| Registry.Reschedule | packages/@alertle-react/src/context.tsx:144-158 | (a definition) the timer part of `updateAlert`; `RescheduleInv` states its effect and that it keeps the invariant |
| Registry.Allocate | packages/@alertle-react/src/context.tsx:186-192 | (a definition) `createAlert` with the default applied, under a fresh identity; `AllocateValid` proves it keeps the invariant |
| Registry.Calls | packages/@alertle-react/src/context.tsx:98 | one call per subscriber, in insertion order |
| Registry.Rendered | packages/@alertle-react/src/index.test.tsx:29 | the stored alerts, once each, in the store's iteration order |
| RegistryProps.EmptyValid | packages/@alertle-react/src/context.tsx:64-66 | a fresh provider satisfies the invariant |
| RegistryProps.SubscribeValid | packages/@alertle-react/src/context.tsx:80-81 | `subscribe` keeps the invariant |
| RegistryProps.UnsubscribeValid | packages/@alertle-react/src/context.tsx:82 | the disposer keeps the invariant |
| RegistryProps.HeapWriteInv | packages/@alertle-react/src/context.tsx:104 | writing a field of an alert other than its key keeps the invariant (without the timer-key clause) |
| RegistryProps.CancelTrackedInv | packages/@alertle-react/src/context.tsx:110-114 | cancelling a key's tracked timer keeps the invariant and drops exactly that key from the table |
| RegistryProps.ScheduleInv | packages/@alertle-react/src/context.tsx:126-130 | scheduling a timer for an alert of that key keeps the invariant and adds exactly that key to the table |
| RegistryProps.PutValid | packages/@alertle-react/src/context.tsx:133-135 | storing the alert restores the full invariant when the only timed-but-unstored key is its own |
| RegistryProps.MarkDuplicateInv | packages/@alertle-react/src/context.tsx:103-115 | the duplicate branch keeps the invariant, drops the key from the table and keeps the alert's key |
| RegistryProps.RescheduleInv | packages/@alertle-react/src/context.tsx:144-158 | the timer part of `updateAlert` keeps the invariant, tracks at most the alert's own extra key, and touches neither alerts nor store |
| RegistryProps.AllocateValid | packages/@alertle-react/src/context.tsx:186-192 | allocating the new alert keeps the invariant, under an identity not yet used |
| RegistryProps.AddPrefixLog | packages/@alertle-react/src/context.tsx:103-119 | the first part of `addAlert` logs onDuplicated (duplicates only), then onNotify, and keeps the subscribers |
| RegistryProps.AddValid | packages/@alertle-react/src/context.tsx:101-140 | `addAlert` keeps the invariant: one alert per key under its own key, timer keys among stored keys |
| RegistryProps.ExpireValid | packages/@alertle-react/src/context.tsx:85-99 | `expireAlert` keeps the invariant |
| RegistryProps.UpdateValid | packages/@alertle-react/src/context.tsx:142-180 | `updateAlert` keeps the invariant |
| RegistryProps.FireValid | packages/@alertle-react/src/context.tsx:126-128 | a timer firing keeps the invariant |
| RegistryProps.NotifyValid | packages/@alertle-react/src/context.tsx:184-196 | `notify` keeps the invariant |
| RegistryProps.AddLog | packages/@alertle-react/src/context.tsx:103-135 | `addAlert` runs onDuplicated (duplicates only), then onNotify, then each subscriber (unless the delay is 0) |
| RegistryProps.AddCallbackCounts | packages/@alertle-react/src/context.tsx:103-119 | onNotify runs exactly once, onDuplicated at most once and only for a duplicate, onExpire never |
| RegistryProps.AddDuplicate | packages/@alertle-react/src/context.tsx:103-115 | a duplicate is flagged; the key's old tracked timer is cleared before a new one is scheduled |
| RegistryProps.AddZeroDelay | packages/@alertle-react/src/context.tsx:117-124 | with delay 0 the store and order are unchanged and no subscriber runs; a same-key entry stays without its timer and every other key keeps its table entry |
| RegistryProps.AddStores | packages/@alertle-react/src/context.tsx:121-135 | any other delay stores the alert; a replaced key keeps its place, a new key goes last; null/Infinity track no timer, a number tracks one fresh timer for this alert |
| RegistryProps.AddFrame | packages/@alertle-react/src/context.tsx:101-140 | `addAlert` leaves the subscribers alone, changes no alert but flagging the passed one on a duplicate, and keeps every host timer except the key's old tracked one |
| RegistryProps.ExpireAbsent | packages/@alertle-react/src/context.tsx:85-90 | expiring an absent key changes nothing |
| RegistryProps.ExpirePresent | packages/@alertle-react/src/context.tsx:85-98 | on a present key: removed (the order loses exactly that key's position), the passed alert's onExpire run, table entry dropped but host timer kept, subscribers notified |
| RegistryProps.ExpireIdempotent | packages/@alertle-react/src/context.tsx:85-90 | expiring twice equals expiring once; onExpire runs at most once |
| RegistryProps.FireIsExpire | packages/@alertle-react/src/context.tsx:126-128 | a firing timer is exactly `expireAlert` on the alert it captured, with its handle no longer pending |
| RegistryProps.FireRemovesKey | packages/@alertle-react/src/context.tsx:126-128 | a firing timer removes whatever is stored under the captured key and runs the captured alert's onExpire |
| RegistryProps.FireAfterExpire | packages/@alertle-react/src/context.tsx:85-96 | a timer firing after its alert was expired by hand does nothing more |
| RegistryProps.StaleTimerRemovesNewerAlert | packages/@alertle-react/src/context.tsx:96-135 | after a manual expire and a re-add, the old timer removes the newer alert and runs the old alert's onExpire a second time |
| RegistryProps.TeardownClearsTracked | packages/@alertle-react/src/context.tsx:68-76 | teardown clears every tracked timer; timers only forgotten by expire stay pending |
| RegistryProps.UpdateEffects | packages/@alertle-react/src/context.tsx:142-177 | patches only given callbacks and isDuplicate, never expiresInMs; stores under the key even if expired; reschedules only when a delay is given; notifies subscribers |
| RegistryProps.UpdateFrame | packages/@alertle-react/src/context.tsx:142-180 | `updateAlert` leaves the subscribers and every other alert alone, clears no host timer but the key's tracked one, and that only when a delay is given, and leaves every other key's timer-table entry as it was |
| RegistryProps.RescheduleFrame | packages/@alertle-react/src/context.tsx:144-158 | the timer part of `updateAlert` leaves alerts, subscribers and every other key's timer-table entry alone, and clears no host timer but the key's tracked one, only when a delay is given |
| RegistryProps.SubscribeOnce | packages/@alertle-react/src/context.tsx:80-81 | subscribing twice is subscribing once; a new listener goes last |
| RegistryProps.UnsubscribeTwice | packages/@alertle-react/src/context.tsx:82 | the disposer removes the listener (exactly its position, the rest in order) and reports whether it was there; a second call returns false and changes nothing |
| RegistryProps.NotifyStores | packages/@alertle-react/src/context.tsx:184-196 | the default applies only to an absent delay; a fresh alert is created and always stored under its key |
| RegistryProps.NotifyZeroIsPermanent | packages/@alertle-react/src/context.tsx:121-124 | `notify` with 0 stores the alert with no timer |
| RegistryProps.NotifyNeverRunsOnDuplicated | packages/@alertle-react/src/context.tsx:106-108 | `notify` never runs an onDuplicated callback |
| RegistryProps.NotifyErrorRendersOne | packages/@alertle-react/src/index.test.tsx:49-70 | one `notifyError` on a fresh provider renders exactly one alert |
| Provider.AlertProvider.constructor | packages/@alertle-react/src/context.tsx:63-66 | a fresh provider has an empty store, timer table and subscriber set |
| Provider.AlertProvider.SetTimeout | packages/@alertle-react/src/context.tsx:126-128 | `setTimeout` hands out a fresh handle, pending with the captured alert |
| Provider.AlertProvider.ClearTimeout | packages/@alertle-react/src/context.tsx:73 | `clearTimeout` makes exactly that handle no longer pending |
| Provider.AlertProvider.RunHook | packages/@alertle-react/src/context.tsx:92-94 | `if (cb) cb(alert)` (also lines 106-108 and 117-119): the log grows by exactly `Registry.Invoke` |
| Provider.AlertProvider.CancelTimer | packages/@alertle-react/src/context.tsx:110-114 | (also lines 145-149) ends in `Registry.CancelTracked` of the old state |
| Provider.AlertProvider.ScheduleExpiry | packages/@alertle-react/src/context.tsx:126-130 | (also lines 152-156) ends in `Registry.Schedule` of the old state |
| Provider.AlertProvider.StoreAlert | packages/@alertle-react/src/context.tsx:133-135 | (also lines 172-175) ends in `Registry.Put` of the old state |
| Provider.AlertProvider.RescheduleTimer | packages/@alertle-react/src/context.tsx:144-158 | ends in `Registry.Reschedule` of the old state |
| Provider.AlertProvider.FlagDuplicate | packages/@alertle-react/src/context.tsx:103-115 | ends in `Registry.MarkDuplicate` of the old state |
| Provider.AlertProvider.GetAlertMap | packages/@alertle-react/src/context.tsx:78 | returns the store, each alert under its own key, and its order |
| Provider.AlertProvider.NotifySubscribers | packages/@alertle-react/src/context.tsx:98 | the loop appends one call per subscriber, in insertion order |
| Provider.AlertProvider.Subscribe | packages/@alertle-react/src/context.tsx:80-81 | equals `Registry.Subscribe`; keeps the invariant |
| Provider.AlertProvider.Unsubscribe | packages/@alertle-react/src/context.tsx:82 | equals `Registry.Unsubscribe`; keeps the invariant |
| Provider.AlertProvider.ExpireAlert | packages/@alertle-react/src/context.tsx:85-99 | equals `Registry.Expire`; keeps the invariant |
| Provider.AlertProvider.AddAlert | packages/@alertle-react/src/context.tsx:101-140 | equals `Registry.Add`; returns the passed alert; keeps the invariant |
| Provider.AlertProvider.UpdateAlert | packages/@alertle-react/src/context.tsx:142-180 | equals `Registry.Update`; returns the passed alert; keeps the invariant |
| Provider.AlertProvider.Notify | packages/@alertle-react/src/context.tsx:184-196 | equals `Registry.Notify` with the provider's default; keeps the invariant |
| Provider.AlertProvider.NotifySuccess | packages/@alertle-react/src/context.tsx:198-203 | `Notify` with type success |
| Provider.AlertProvider.NotifyError | packages/@alertle-react/src/context.tsx:205-210 | `Notify` with type error |
| Provider.AlertProvider.NotifyWarning | packages/@alertle-react/src/context.tsx:212-217 | `Notify` with type warning |
| Provider.AlertProvider.NotifyInfo | packages/@alertle-react/src/context.tsx:219-224 | `Notify` with type info |
| Provider.AlertProvider.Fire | packages/@alertle-react/src/context.tsx:126-128 | the host running a pending timer equals `Registry.Fire`; keeps the invariant |
| Provider.AlertProvider.Teardown | packages/@alertle-react/src/context.tsx:68-76 | the loop clears every handle in the timer table, the rest of the state unchanged |

## Left out

- React plumbing: the contexts, Provider JSX, `useRef`/`useCallback`/`useEffect`/`useState`, and the `useAlertContainer`/`useAlert` hooks with their outside-provider errors. This is framework binding with no registry logic.
- The fresh `new Map(store.current)` copies. They only make React re-render; the model keeps one store value.
- Real time: timer durations, host timer precision and `Date.now()`. Timers are handles fired by an explicit event, and the clock reading is a parameter.
- Re-entrancy: listener and callback bodies are not modelled. A callback that reaches back into the registry during an operation is not covered.
- Unicode: `\s` is modelled as ASCII whitespace, and `toLocaleLowerCase` as the ASCII A-Z mapping.
- JavaScript numbers: NaN, negative and fractional delays are not represented. A delay is `null`, `Infinity` or a natural number.
- Alert objects not made by `createAlert`: `expireAlert` and `updateAlert` take alerts that the model has allocated, not hand-built object literals.
- Use after teardown: the timer table is left as is, so the invariant (tracked timers are pending) no longer holds and the methods require it. The provider is unmounted at that point.
- Provider.AlertProvider.Teardown: does not promise the invariant afterwards, for the reason above.
- packages/@alertle-react/src/index.tsx is an unfinished stub, not part of this model.
- Build and lint configuration are not part of this model.
