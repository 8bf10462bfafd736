/**
 * The accessible-object cache and the two managers that keep it in step with
 * the applications on the bus.  The cache is one dictionary shared by every
 * manager; each handler takes the fields of the bus notification as
 * arguments, and each remote request's reply is passed in.
 */
module Cache {
  import opened Atspi
  import opened StateFlags
  import opened ChildList
  import opened CacheSpec

  /** The dictionary from identity to entry. */
  class AccessibleCache {
    var entries: Store

    constructor ()
      ensures entries == map[]
    {
      entries := map[];
    }

    /** `cache(bus_name, object_path)`: the entry, or KeyError for an identity not cached. */
    function Call(busName: string, path: string): (r: Result<Entry>)
      reads this
      ensures r.Ok? <==> Identity(busName, path) in entries
      ensures r.Ok? ==> r.value == entries[Identity(busName, path)]
      ensures r.Raised? ==> r.error == KeyError
    {
      var key := Identity(busName, path);
      if key in entries then Ok(entries[key]) else Raised(KeyError)
    }
  }

  /** Keeps the entries of one application (one bus name) up to date. */
  class ApplicationCacheManager {
    const cache: AccessibleCache
    const busName: string

    /** Seeds the cache from the application's GetItems reply; a failed request seeds nothing. */
    constructor (cache: AccessibleCache, busName: string, reply: Snapshot)
      modifies cache
      ensures this.cache == cache && this.busName == busName
      ensures cache.entries == AddAll(old(cache.entries), Objects(reply))
    {
      this.cache := cache;
      this.busName := busName;
      new;
      if reply.Items? {
        AddObjects(reply.objects);
      }
    }

    /** `_add_object`: upserts the tuple at its own reference. */
    method AddObject(data: Entry)
      modifies cache
      ensures cache.entries == Upsert(old(cache.entries), data)
    {
      cache.entries := cache.entries[data.reference := data];
    }

    /** `_remove_object`: deletes the key; a missing key is ignored. */
    method RemoveObject(reference: Identity)
      modifies cache
      ensures cache.entries == Delete(old(cache.entries), reference)
    {
      if reference in cache.entries {
        cache.entries := cache.entries - {reference};
      }
    }

    /** `_add_objects`: upserts every tuple in order. */
    method AddObjects(objects: seq<Entry>)
      modifies cache
      ensures cache.entries == AddAll(old(cache.entries), objects)
    {
      var i := 0;
      while i < |objects|
        invariant 0 <= i <= |objects|
        invariant cache.entries == AddAll(old(cache.entries), objects[..i])
      {
        AddAllStep(old(cache.entries), objects, i);
        AddObject(objects[i]);
        i := i + 1;
      }
      assert objects[..i] == objects;
    }

    /** `_property_change_handler`. */
    method PropertyChangeHandler(minor: string, detail1: int, anyData: Variant,
                                 sender: string, path: string, interface: string)
      requires PropertyValueFits(minor, anyData)
      modifies cache
      ensures cache.entries == PropertyChange(old(cache.entries), minor, anyData, sender, path, interface)
    {
      var key := Identity(sender, path);
      if interface == EVENT_OBJECT_INTERFACE && key in cache.entries {
        var item := cache.entries[key];
        if minor == "accessible-name" {
          item := item.(name := anyData.s);
        } else if minor == "accessible-role" {
          item := item.(role := anyData.i);
        } else if minor == "accessible-description" {
          item := item.(description := anyData.s);
        } else if minor == "accessible-parent" {
          item := item.(parent := anyData.id);
        }
        cache.entries := cache.entries[key := item];
      }
    }

    /** `_children_changed_handler`; an exception leaves the cache as it was. */
    method ChildrenChangedHandler(minor: string, detail1: int, anyData: Identity,
                                  sender: string, path: string, interface: string)
      returns (outcome: Outcome)
      modifies cache
      ensures var r := ChildrenChange(old(cache.entries), minor, detail1, anyData, sender, path, interface);
              outcome == OutcomeOf(r) && cache.entries == if r.Ok? then r.value else old(cache.entries)
    {
      outcome := Done;
      var key := Identity(sender, path);
      if interface == EVENT_OBJECT_INTERFACE && key in cache.entries {
        var item := cache.entries[key];
        if |item.state| == 0 {
          return Threw(IndexError);
        }
        if ManagesDescendants(item.state) {
          return;
        }
        if StartsWith(minor, "add") {
          cache.entries := cache.entries[key := item.(children := Insert(item.children, detail1, anyData))];
        } else if StartsWith(minor, "remove") {
          var rest := Remove(item.children, anyData);
          if rest.Raised? {
            return Threw(rest.error);
          }
          cache.entries := cache.entries[key := item.(children := rest.value)];
          if anyData in cache.entries {
            var child := cache.entries[anyData];
            if child.parent == key {
              cache.entries := cache.entries[anyData := child.(parent := Identity(sender, NULL_PATH))];
            }
          }
        }
      }
    }

    /** `_state_changed_handler`; an exception leaves the cache as it was. */
    method StateChangedHandler(minor: string, detail1: int,
                               sender: string, path: string, interface: string)
      returns (outcome: Outcome)
      modifies cache
      ensures var r := StateChange(old(cache.entries), minor, detail1, sender, path, interface);
              outcome == OutcomeOf(r) && cache.entries == if r.Ok? then r.value else old(cache.entries)
    {
      outcome := Done;
      var key := Identity(sender, path);
      if interface == EVENT_OBJECT_INTERFACE && key in cache.entries {
        var item := cache.entries[key];
        var val := FlagIndex(minor);
        if val.Raised? {
          return Threw(val.error);
        }
        var high := val.value / 32;
        var low := Low(val.value);
        if high >= |item.state| {
          return Threw(IndexError);
        }
        var words := item.state[high := WithBit(item.state[high], low, detail1 == 1)];
        cache.entries := cache.entries[key := item.(state := words)];
      }
    }

    /** `remove_all`: deletes every entry in this application's keyspace. */
    method RemoveAll()
      modifies cache
      ensures cache.entries == Purge(old(cache.entries), busName)
    {
      var keys := cache.entries.Keys;
      while keys != {}
        invariant keys <= old(cache.entries).Keys
        invariant cache.entries.Keys == old(cache.entries).Keys - (OwnedBy(old(cache.entries), busName) - keys)
        invariant forall k :: k in cache.entries ==> cache.entries[k] == old(cache.entries)[k]
        decreases keys
      {
        var k :| k in keys;
        if k.busName == busName {
          cache.entries := cache.entries - {k};
        }
        keys := keys - {k};
      }
    }
  }

  /**
   * Owns the desktop entry, keeps one application manager per connected
   * application, and forwards notifications to the sender's manager.
   */
  class DesktopCacheManager {
    const cache: AccessibleCache
    /** The registry's unique bus name. */
    const uniqueName: string
    var applicationList: map<string, ApplicationCacheManager>

    /** Every manager in the list is filed under its own bus name and shares this cache. */
    ghost predicate Valid()
      reads this
    {
      forall b :: b in applicationList ==> applicationList[b].cache == cache && applicationList[b].busName == b
    }

    /**
     * Creates the desktop entry from the registry's child list `apps`, then
     * one manager per application, each seeded from its reply in `replies`.
     */
    constructor (cache: AccessibleCache, uniqueName: string, apps: seq<Identity>, replies: seq<Snapshot>)
      requires |replies| == |apps|
      modifies cache
      ensures Valid() && this.cache == cache && this.uniqueName == uniqueName
      ensures applicationList.Keys == AppNames(apps)
      ensures forall b :: b in applicationList ==> fresh(applicationList[b])
      ensures cache.entries == DesktopInit(old(cache.entries), uniqueName, apps, replies)
    {
      this.cache := cache;
      this.uniqueName := uniqueName;
      applicationList := map[];
      new;
      cache.entries := cache.entries[RootKey(uniqueName) := RootEntry(uniqueName, apps)];
      ghost var seeded := cache.entries;
      var i := 0;
      while i < |apps|
        invariant 0 <= i <= |apps|
        invariant Valid()
        invariant applicationList.Keys == AppNames(apps[..i])
        invariant forall b :: b in applicationList ==> fresh(applicationList[b])
        invariant cache.entries == SeedApps(seeded, replies[..i])
      {
        SeedAppsStep(seeded, replies, i);
        AppNamesStep(apps, i);
        var app := new ApplicationCacheManager(cache, apps[i].busName, replies[i]);
        applicationList := applicationList[apps[i].busName := app];
        i := i + 1;
      }
      assert apps[..i] == apps;
      assert replies[..i] == replies;
    }

    /** `_children_changed_handler`; `reply` is the GetItems reply a new manager would receive. */
    method ChildrenChangedHandler(minor: string, detail1: int, anyData: Identity,
                                  sender: string, path: string, interface: string, reply: Snapshot)
      returns (outcome: Outcome)
      requires Valid()
      modifies this, cache
      ensures Valid()
      ensures var step := DesktopChildrenChanged(old(cache.entries), old(applicationList).Keys, uniqueName,
                                                 minor, detail1, anyData, sender, path, interface, reply);
              && cache.entries == step.entries
              && applicationList.Keys == step.apps
              && outcome == step.outcome
      ensures forall b :: b in applicationList ==>
                fresh(applicationList[b]) || (b in old(applicationList) && applicationList[b] == old(applicationList)[b])
    {
      var root := RootKey(uniqueName);
      if IsRootEvent(uniqueName, sender, path, interface) && minor == "add" {
        var app := new ApplicationCacheManager(cache, anyData.busName, reply);
        applicationList := applicationList[anyData.busName := app];
        if root !in cache.entries {
          return Threw(KeyError);
        }
        var desktop := cache.entries[root];
        cache.entries := cache.entries[root := desktop.(children := desktop.children + [anyData])];
      } else if IsRootEvent(uniqueName, sender, path, interface) && minor == "remove" {
        if anyData.busName !in applicationList {
          return Threw(KeyError);
        }
        applicationList[anyData.busName].RemoveAll();
        applicationList := applicationList - {anyData.busName};
        if root !in cache.entries {
          return Threw(KeyError);
        }
        var desktop := cache.entries[root];
        var rest := Remove(desktop.children, anyData);
        if rest.Raised? {
          return Threw(rest.error);
        }
        cache.entries := cache.entries[root := desktop.(children := rest.value)];
      }
      outcome := Done;
      if sender in applicationList {
        outcome := applicationList[sender].ChildrenChangedHandler(minor, detail1, anyData, sender, path, interface);
      }
    }

    /** `_property_change_handler`: forwards to the sender's manager, if any. */
    method PropertyChangeHandler(minor: string, detail1: int, anyData: Variant,
                                 sender: string, path: string, interface: string)
      requires Valid() && PropertyValueFits(minor, anyData)
      modifies cache
      ensures cache.entries == if sender in applicationList
                               then PropertyChange(old(cache.entries), minor, anyData, sender, path, interface)
                               else old(cache.entries)
    {
      if sender in applicationList {
        applicationList[sender].PropertyChangeHandler(minor, detail1, anyData, sender, path, interface);
      }
    }

    /** `_state_changed_handler`: forwards to the sender's manager, if any. */
    method StateChangedHandler(minor: string, detail1: int,
                               sender: string, path: string, interface: string)
      returns (outcome: Outcome)
      requires Valid()
      modifies cache
      ensures sender !in applicationList ==> outcome == Done && cache.entries == old(cache.entries)
      ensures sender in applicationList ==>
                var r := StateChange(old(cache.entries), minor, detail1, sender, path, interface);
                outcome == OutcomeOf(r) && cache.entries == if r.Ok? then r.value else old(cache.entries)
    {
      outcome := Done;
      if sender in applicationList {
        outcome := applicationList[sender].StateChangedHandler(minor, detail1, sender, path, interface);
      }
    }

    /** `_add_object`: upserts through the manager of the tuple's own bus name; KeyError if there is none. */
    method AddObject(data: Entry) returns (outcome: Outcome)
      requires Valid()
      modifies cache
      ensures data.reference.busName in applicationList ==>
                outcome == Done && cache.entries == Upsert(old(cache.entries), data)
      ensures data.reference.busName !in applicationList ==>
                outcome == Threw(KeyError) && cache.entries == old(cache.entries)
    {
      if data.reference.busName !in applicationList {
        return Threw(KeyError);
      }
      applicationList[data.reference.busName].AddObject(data);
      outcome := Done;
    }

    /** `_remove_object`: deletes through the manager of the reference's bus name; KeyError if there is none. */
    method RemoveObject(reference: Identity) returns (outcome: Outcome)
      requires Valid()
      modifies cache
      ensures reference.busName in applicationList ==>
                outcome == Done && cache.entries == Delete(old(cache.entries), reference)
      ensures reference.busName !in applicationList ==>
                outcome == Threw(KeyError) && cache.entries == old(cache.entries)
    {
      if reference.busName !in applicationList {
        return Threw(KeyError);
      }
      applicationList[reference.busName].RemoveObject(reference);
      outcome := Done;
    }
  }

  /** The manager an AccessibleCache creates for itself. */
  datatype Manager = ForApplication(app: ApplicationCacheManager) | ForDesktop(desktop: DesktopCacheManager)

  /**
   * `AccessibleCache.__init__`: a cache for one application when a bus name
   * is given (the empty name counts as none), otherwise a desktop-wide cache.
   * `reply` is that application's GetItems reply; `registry`, `apps` and
   * `replies` are the registry's unique name, its child list and the replies
   * of the applications on it.
   */
  method OpenCache(busName: string, reply: Snapshot,
                   registry: string, apps: seq<Identity>, replies: seq<Snapshot>)
    returns (cache: AccessibleCache, manager: Manager)
    requires busName == "" ==> |replies| == |apps|
    ensures fresh(cache)
    ensures busName != "" ==>
              && manager.ForApplication? && manager.app.cache == cache && manager.app.busName == busName
              && cache.entries == AddAll(map[], Objects(reply))
    ensures busName == "" ==>
              && manager.ForDesktop? && manager.desktop.cache == cache && manager.desktop.Valid()
              && manager.desktop.applicationList.Keys == AppNames(apps)
              && cache.entries == DesktopInit(map[], registry, apps, replies)
  {
    cache := new AccessibleCache();
    if busName != "" {
      var app := new ApplicationCacheManager(cache, busName, reply);
      manager := ForApplication(app);
    } else {
      var desktop := new DesktopCacheManager(cache, registry, apps, replies);
      manager := ForDesktop(desktop);
    }
  }
}
