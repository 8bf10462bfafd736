# pyatspi accessible-object cache, modelled in Dafny

This project models the accessible-object cache of pyatspi (`pyatspi/cache.py`).
The cache is one dictionary from an object identity `(bus_name, object_path)`
to a nine-field entry. Two kinds of manager keep it in step with the
applications on the accessibility bus:

- An `ApplicationCacheManager`, one per application bus name. It seeds the
  cache from the application's `GetItems` reply. It applies AddAccessible and
  RemoveAccessible. It applies PropertyChange, ChildrenChanged and
  StateChanged notifications. It purges its whole keyspace with `remove_all`.
- The `DesktopCacheManager`. It writes the synthetic desktop entry. It keeps
  one application manager per application. It starts and retires managers
  when the registry announces root-level children changes. It forwards
  PropertyChange, StateChanged and ChildrenChanged to the sender's manager,
  root events too, after handling them. It forwards AddAccessible and
  RemoveAccessible to the manager of the bus name inside the data.

Files:

- `atspi.dfy` (module `Atspi`): identities, the `Entry` record, snapshots,
  notification payloads, and the Python exceptions a handler lets escape.
- `state_flags.dfy` (module `StateFlags`): the flag-name table, and setting or
  clearing bit `val % 32` of word `val / 32`.
- `child_list.dfy` (module `ChildList`): Python's `list.insert`, which clamps
  its index, and `list.remove`, which raises ValueError when the item is absent.
- `cache_spec.dfy` (module `CacheSpec`): each operation as a function from the
  dictionary before to the dictionary after, with the lemmas about them.
- `cache.dfy` (module `Cache`): the classes. `AccessibleCache` holds the
  dictionary as a `map` field. `ApplicationCacheManager` and
  `DesktopCacheManager` have handler methods that update it in place. Each
  method is proved to leave the dictionary exactly as the matching
  `CacheSpec` function says. `_add_objects`, `remove_all` and the desktop's
  start-up are loops with invariants.

A Python exception is modelled as an outcome, never as a precondition. An
application handler raises before it changes anything, so a raised outcome
leaves the cache unchanged. The desktop's root handlers can raise after they
have changed the cache, and the model keeps that partial state. A root "add"
can raise KeyError after it has seeded and tracked the new manager. A root
"remove" can raise after it has purged and dropped the manager.

Inputs from the bus are parameters:

- each handler takes `minor`, `detail1`, `any_data`, `sender`, `path` and `interface`;
- the `GetItems` reply is a `Snapshot`, either `Items(tuples)` or `Failed`;
  `Failed` stands for the D-Bus exception, which seeds nothing;
- the registry's unique name (`GetNameOwner`) and its child list
  (`GetChildren`) are arguments of the desktop constructor.

Where the code is stricter than one might expect, the model follows the code:

- An unknown state-flag name is not ignored. `eval` raises (AttributeError).
- Removing a child that the list does not hold raises ValueError.
- A state word past the end of the vector raises IndexError. So does an empty
  state vector on a children-changed target.
- The desktop's `_add_object` and `_remove_object` pick the manager by the bus
  name inside the data, not by the sender. They raise KeyError when no manager
  exists.
- The desktop matches the root `minor` exactly ("add", "remove"). The
  application manager matches it by prefix.
- Retiring an application is not atomic. If the child is missing from the
  desktop's list, the entries are already purged and the manager already
  dropped when ValueError is raised.
- The desktop entry is not guaranteed to survive. An application snapshot that
  carries the desktop's key overwrites it. `DesktopInitRoot` and
  `DesktopAddApplication` therefore state their hypotheses.

## Model

| member | source | states |
|---|---|---|
| StateFlags.FlagIndex | pyatspi/cache.py:285 | the upper-cased minor resolves to its table index; a name not in the table raises AttributeError |
| StateFlags.WithBit | pyatspi/cache.py:288-291 | bit `low` of the word becomes `on`, and the word is unchanged outside that bit |
| StateFlags.OtherBit | pyatspi/cache.py:288-291 | a word unchanged outside bit `low` keeps every other bit |
| StateFlags.LowValue | pyatspi/cache.py:287 | the bit position of flag `val` is `val % 32` |
| StateFlags.SetFlag | pyatspi/cache.py:285-291 | flag `val` becomes set (or clear); every other flag and every other word is unchanged; IndexError exactly when word `val / 32` does not exist |
| StateFlags.LowDistinct | pyatspi/cache.py:286-287 | two different flags in the same word use different bit positions |
| StateFlags.ManagesDescendants | pyatspi/cache.py:268 | testing `state[0] & (1 << STATE_MANAGES_DESCENDANTS)` is testing the manages-descendants flag |
| StateFlags.Upper | pyatspi/cache.py:285 | upper-casing keeps the length and upper-cases each ASCII letter in place |
| StateFlags.SetFacts | pyatspi/cache.py:289 | `w | (1 << low)` has bit `low` set and agrees with `w` elsewhere |
| StateFlags.ClearFacts | pyatspi/cache.py:291 | `w & ~(1 << low)` has bit `low` clear and agrees with `w` elsewhere |
| Atspi.StartsWith | pyatspi/cache.py:270-272 | `str.startswith`: the string begins with the prefix, character by character, and is the prefix followed by the rest |
| StateFlags.ManagesDescendantsName | pyatspi/cache.py:285 | the minor "manages_descendants" resolves to the manages-descendants index |
| StateFlags.SetFlagIdempotent | pyatspi/cache.py:288-291 | setting (or clearing) a flag twice equals doing it once |
| StateFlags.WordSetThenClear | pyatspi/cache.py:288-291 | on one word, set then clear restores the word iff the bit was clear |
| StateFlags.SetThenClear | pyatspi/cache.py:288-291 | on a state vector, set then clear restores the vector iff the flag was clear |
| ChildList.InsertPosition | pyatspi/cache.py:271 | `list.insert` index rule: in-range indices are kept, negative ones count from the end, and both ends clamp |
| ChildList.Insert | pyatspi/cache.py:271 | the list grows by one, holds the child at the clamped position, and keeps every other element in its relative order (same multiset plus the child) |
| ChildList.IndexOf | pyatspi/cache.py:273 | finds the first occurrence, or reports absence exactly when the child is not in the list |
| ChildList.Remove | pyatspi/cache.py:273 | drops exactly the first occurrence (length minus one, multiset minus the child); ValueError exactly when the child is absent |
| ChildList.IndexOfFirst | pyatspi/cache.py:273 | an occurrence with no earlier occurrence is the one `remove` finds |
| ChildList.RemoveInserted | pyatspi/cache.py:270-273 | inserting an absent child at any index, then removing it, restores the list |
| ChildList.RemoveInsertedNeedsAbsence | pyatspi/cache.py:270-273 | the round trip fails when an earlier copy of the child is present: `remove` takes that copy |
| CacheSpec.Upsert | pyatspi/cache.py:231-234 | the key `data[0]` maps to exactly the tuple, any earlier entry there is overwritten, and no other key changes |
| CacheSpec.Delete | pyatspi/cache.py:236-241 | the key is gone and every other entry is unchanged |
| CacheSpec.DeleteAbsent | pyatspi/cache.py:238-241 | removing an absent key leaves the cache unchanged and raises nothing |
| CacheSpec.DeleteIdempotent | pyatspi/cache.py:236-241 | removing twice equals removing once |
| CacheSpec.UpsertOverwrites | pyatspi/cache.py:231-234 | a later tuple for the same reference replaces the earlier one entirely |
| CacheSpec.AddAll | pyatspi/cache.py:243-245 | after seeding, the keys are the old keys plus every tuple's reference, and entries no tuple names are unchanged |
| CacheSpec.AddAllStep | pyatspi/cache.py:244-245 | one more loop iteration is one more upsert |
| CacheSpec.LastIndexOf | pyatspi/cache.py:244-245 | finds the last tuple carrying a reference: no later tuple carries it, and -1 means none does |
| CacheSpec.AddAllLastWins | pyatspi/cache.py:243-245 | after seeding, a key is cached iff it was cached before or a tuple carries it; it maps to the last tuple carrying it, and an entry no tuple carries is unchanged |
| CacheSpec.Purge | pyatspi/cache.py:293-296 | exactly the keys whose bus name is the manager's are removed, and every remaining entry is unchanged |
| CacheSpec.PurgeExact | pyatspi/cache.py:293-296 | a cached key survives the purge iff it belongs to another process, and then its entry is unchanged |
| CacheSpec.ReplayPresence | pyatspi/cache.py:231-241 | after any sequence of add/remove notifications, a key is present iff the last notification about it was an add, or there was none and it was present before |
| CacheSpec.SetProperty | pyatspi/cache.py:253-260 | each of the four property kinds writes exactly its own field (name, role, description, parent); any other kind writes nothing |
| CacheSpec.PropertyChange | pyatspi/cache.py:247-260 | no key is added or removed; only the target entry may change, and only as SetProperty says; a wrong interface or an uncached target changes nothing |
| CacheSpec.PropertyChangeUnknownKind | pyatspi/cache.py:253-260 | a minor that is not one of the four kinds leaves the cache unchanged |
| CacheSpec.PropertyChangeIdempotent | pyatspi/cache.py:247-260 | delivering the same property change twice equals delivering it once |
| CacheSpec.ResetParent | pyatspi/cache.py:274-277 | a cached child that still names the parent gets parent `(sender, NULL_PATH)`; nothing else changes |
| CacheSpec.ChildrenChange | pyatspi/cache.py:262-277 | a wrong interface, an uncached target or the manages-descendants bit leaves the cache unchanged; an empty state vector raises IndexError; on success no key appears or disappears, and nothing changes except the target and the child's back-reference |
| CacheSpec.ChildrenAdd | pyatspi/cache.py:270-271 | an "add…" minor inserts the child at `detail1` and changes nothing else |
| CacheSpec.ChildrenRemove | pyatspi/cache.py:272-277 | a "remove…" minor drops the first occurrence from the target's list and keeps the target's other fields; a cached child naming the target gets the null parent, a cached child naming another parent is unchanged, and no other entry changes |
| CacheSpec.ChildrenChangeOtherMinor | pyatspi/cache.py:268-272 | a minor starting with neither "add" nor "remove" leaves the cache unchanged |
| CacheSpec.ChildrenRemoveAbsent | pyatspi/cache.py:273 | a "remove…" for a child the list does not hold raises ValueError |
| CacheSpec.AddThenRemoveRestores | pyatspi/cache.py:266-277 | an "add" of an absent child followed by its "remove" restores the whole cache except the child's back-reference; the target's list is restored exactly |
| CacheSpec.StateChange | pyatspi/cache.py:279-291 | only the target's state changes, and it is the vector with flag `val` updated (same length, every other word kept); the named flag becomes `detail1 == 1` and every other flag is kept; unknown names raise AttributeError and a missing word raises IndexError |
| CacheSpec.StateSetIdempotent | pyatspi/cache.py:288-289 | setting a state flag a second time changes nothing |
| CacheSpec.StateSetThenClear | pyatspi/cache.py:288-291 | set then clear on a cached object restores the cache iff the flag was clear |
| CacheSpec.RootEntry | pyatspi/cache.py:138-150 | the desktop entry sits at `(registry, ROOT_PATH)`, lists the applications as children, has state `[0, 0]` and role DESKTOP_FRAME |
| CacheSpec.SeedApps | pyatspi/cache.py:152-153 | seeding the application managers one after another never removes a key |
| CacheSpec.SeedAppsCarries | pyatspi/cache.py:152-153 | every key carried by any application's snapshot is cached after the seeding |
| CacheSpec.SeedAppsStep | pyatspi/cache.py:152-153 | one more application is one more seeding |
| CacheSpec.AppNamesStep | pyatspi/cache.py:152-153 | one more application adds its bus name to the tracked names |
| CacheSpec.SeedAppsKeeps | pyatspi/cache.py:152-153 | an entry that no snapshot carries survives the seeding unchanged |
| CacheSpec.DesktopInitRoot | pyatspi/cache.py:130-153 | after start-up the desktop entry lists exactly the reported applications, in order, when no snapshot claims the desktop's key |
| CacheSpec.ForwardChildren | pyatspi/cache.py:175-177 | the notification reaches an application manager only when the sender has one; otherwise nothing changes |
| CacheSpec.DesktopChildrenChanged | pyatspi/cache.py:155-177 | a root "add" tracks the announced bus name; a root "remove" of a tracked name untracks it and leaves no entry of it; an untracked name raises KeyError and changes nothing; anything else is only forwarded |
| CacheSpec.DesktopAddApplication | pyatspi/cache.py:158-162 | a root "add" tracks the process, seeds the new manager's snapshot (each carried key maps to the last tuple carrying it), appends its root to the desktop's children while keeping the desktop entry's other fields, and leaves every other entry alone |
| CacheSpec.DesktopInit | pyatspi/cache.py:138-153 | start-up keeps every earlier key and adds the desktop's key |
| CacheSpec.DesktopInitCarries | pyatspi/cache.py:152-153 | after start-up every key carried by any application's snapshot is cached |
| CacheSpec.DesktopRemoveApplication | pyatspi/cache.py:163-167 | a root "remove" purges the process's keyspace, untracks it, drops its first listing from the desktop's children while keeping the desktop entry's other fields, and leaves every other process's entries untouched |
| CacheSpec.DesktopIgnoresUnknownSender | pyatspi/cache.py:175-177 | a non-root children-changed notification from an untracked sender changes nothing |
| Cache.AccessibleCache.constructor | pyatspi/cache.py:302-303 | the cache starts empty |
| Cache.AccessibleCache.Call | pyatspi/cache.py:310-311 | returns the entry at `(bus_name, object_path)`, or KeyError exactly when it is not cached |
| Cache.ApplicationCacheManager.constructor | pyatspi/cache.py:209-228 | the cache is seeded with the reply's tuples; a failed request seeds nothing |
| Cache.ApplicationCacheManager.AddObject | pyatspi/cache.py:231-234 | the cache becomes `Upsert(old, data)` |
| Cache.ApplicationCacheManager.RemoveObject | pyatspi/cache.py:236-241 | the cache becomes `Delete(old, reference)` |
| Cache.ApplicationCacheManager.AddObjects | pyatspi/cache.py:243-245 | the loop leaves the cache as `AddAll(old, objects)` |
| Cache.ApplicationCacheManager.PropertyChangeHandler | pyatspi/cache.py:247-260 | the cache becomes `PropertyChange(old, …)` |
| Cache.ApplicationCacheManager.ChildrenChangedHandler | pyatspi/cache.py:262-277 | the outcome and the new cache are those of `ChildrenChange(old, …)`; an exception leaves the cache unchanged |
| Cache.ApplicationCacheManager.StateChangedHandler | pyatspi/cache.py:279-291 | the outcome and the new cache are those of `StateChange(old, …)`; an exception leaves the cache unchanged |
| Cache.ApplicationCacheManager.RemoveAll | pyatspi/cache.py:293-296 | the loop over a snapshot of the keys leaves the cache as `Purge(old, busName)` |
| Cache.DesktopCacheManager.constructor | pyatspi/cache.py:86-153 | the cache gains the desktop entry and then each application's snapshot; one fresh manager is tracked per application bus name |
| Cache.DesktopCacheManager.ChildrenChangedHandler | pyatspi/cache.py:155-177 | the new cache, the tracked names and the outcome are those of `DesktopChildrenChanged`; kept managers are unchanged and added ones are fresh |
| Cache.DesktopCacheManager.PropertyChangeHandler | pyatspi/cache.py:181-186 | forwards to the sender's manager when there is one; otherwise nothing changes |
| Cache.DesktopCacheManager.StateChangedHandler | pyatspi/cache.py:188-193 | forwards to the sender's manager when there is one; otherwise nothing changes |
| Cache.DesktopCacheManager.AddObject | pyatspi/cache.py:195-197 | upserts when the tuple's bus name has a manager; otherwise raises KeyError and changes nothing |
| Cache.DesktopCacheManager.RemoveObject | pyatspi/cache.py:199-201 | deletes when the reference's bus name has a manager; otherwise raises KeyError and changes nothing |
| Cache.OpenCache | pyatspi/cache.py:300-308 | a bus name gives an application-scoped cache seeded from its reply; no bus name gives a desktop-wide cache |

## Left out

- Bus connection and signal registration (pyatspi/cache.py:87-128) are not modelled. The replies of `GetNameOwner`, `GetChildren` and `GetItems` are parameters, so the bus is only a source of inputs.
- `detail2`, `member` and `app` are not handler parameters, because no handler reads them.
- `_CacheData.__str__` is not modelled. Neither is the `extraData` slot, which `_update` never assigns.
- The `state`, `role`, `interfaces` and `busutils` modules are not part of this model. Their constants (`ROOT_PATH`, `NULL_PATH`, the interface names, `ROLE_DESKTOP_FRAME`, the state-name table, `STATE_MANAGES_DESCENDANTS = 31`) are fixed values taken from the AT-SPI enumerations.
- StateFlags.FlagIndex: models `eval("int(state.STATE_" + upper(minor) + ")")` as a lookup of the ASCII upper-cased minor in the fixed table. A minor that `eval` would read as some other Python expression, and non-ASCII upper-casing, are not modelled.
- Cache.ApplicationCacheManager.PropertyChangeHandler, CacheSpec.SetProperty and CacheSpec.PropertyChange: require the type the PropertyChange signal carries for each known kind (a string for a name or description, an integer for a role, an identity for a parent). Python would store a value of any type.
- Cache.DesktopCacheManager.PropertyChangeHandler: carries the same value-type requirement as the application handler.
- CacheSpec.SetProperty: carries the same value-type requirement.
- CacheSpec.PropertyChange: carries the same value-type requirement.
- Cache.DesktopCacheManager.constructor: takes the applications' `GetItems` replies as a list parallel to `apps`, one reply per manager it creates in order, so it requires the two lists to have the same length.
- Cache.OpenCache: models `if bus_name:` with the empty string standing for no bus name. It needs the desktop inputs only when no bus name is given.
- Malformed tuples are not modelled: the tuples are assumed to have the nine-field D-Bus signature, so Python's unpacking errors cannot occur. State words are 32-bit, as the D-Bus `au` type gives them.
- Exceptions are not propagated. A handler's escaping exception becomes an `Outcome` that reports it; in the program, the bus library logs it and delivers the next notification.
- The other dictionary methods `AccessibleCache` inherits are not modelled; only the lookup `__call__` is.
