/** `ZkRegistry` and its inner `NodeCacheManager`: the translation of Curator
    cache events into the system's own `MonitorEvent`s, the bookkeeping that
    keeps one node cache and one children cache per path and one adapter per
    listener, and `register`/`unregister` of ephemeral nodes.

    Curator itself is abstract state here: the caches are values that stand for
    the cache objects, each cache's listener container is a set of adapters,
    and the coordination service is a `ZooKeeper` object holding the map
    `znodes` from the path of each node that exists to its data. */
module Registry {
  import opened Wrappers

  newtype byte = x: int | 0 <= x < 256
  type Bytes = seq<byte>

  /** `MonitorEvent.EventType`: the event kinds listeners of this system see. */
  datatype EventType = NodeChanged | ChildAdded | ChildUpdated | ChildRemoved

  /** The `(path, data)` pair carried by an event. */
  datatype NodeData = NodeData(path: string, data: Bytes)

  /** `MonitorEvent`; both the kind and the pair are Java references that may be null. */
  datatype MonitorEvent = MonitorEvent(kind: Option<EventType>, data: Option<NodeData>)

  /** Curator's `PathChildrenCacheEvent.Type`. */
  datatype ChildEventType =
    | Added | Updated | Removed
    | ConnectionSuspended | ConnectionReconnected | ConnectionLost | Initialized

  /** Curator's `PathChildrenCache.StartMode`. */
  datatype StartMode = Normal | BuildInitialCache | PostInitializedEvent

  /** `IgnoreTypes`: connection-state and initialisation events, which are dropped. */
  const IgnoreTypes: set<ChildEventType> :=
    {ConnectionSuspended, ConnectionReconnected, ConnectionLost, Initialized}

  /** The children-cache adapter's reaction to one Curator child event: `None`
      when the event is dropped, otherwise the event handed to the listener. */
  function TranslateChildEvent(t: ChildEventType, data: NodeData): (r: Option<MonitorEvent>)
    ensures r.None? <==> t in IgnoreTypes
    ensures r.Some? ==> r.value.kind.Some? && r.value.data == Some(data)
    ensures t == Added ==> r == Some(MonitorEvent(Some(ChildAdded), Some(data)))
    ensures t == Updated ==> r == Some(MonitorEvent(Some(ChildUpdated), Some(data)))
    ensures t == Removed ==> r == Some(MonitorEvent(Some(ChildRemoved), Some(data)))
  {
    if t in IgnoreTypes then None
    else
      var kind: Option<EventType> :=
        match t
        case Added => Some(ChildAdded)
        case Updated => Some(ChildUpdated)
        case Removed => Some(ChildRemoved)
        case _ => None;
      Some(MonitorEvent(kind, Some(data)))
  }

  /** The node-cache adapter's event: `NODE_CHANGED` with the node's current
      `(path, data)`, or a null pair when the node does not exist. */
  function NodeChangeEvent(current: Option<NodeData>): MonitorEvent
  {
    MonitorEvent(Some(NodeChanged), current)
  }

  /** `ConcurrentMap.putIfAbsent`, applied one call at a time. */
  function PutIfAbsent<K, V>(m: map<K, V>, k: K, v: V): (r: map<K, V>)
    ensures r.Keys == m.Keys + {k}
    ensures r[k] == if k in m then m[k] else v
    ensures forall j | j in m :: r[j] == m[j]
  {
    if k in m then m else m[k := v]
  }

  /** Identity of a `MonitorListener` object. */
  type ListenerId = nat

  /** The `NodeCacheListener` lambda made for a listener. It captures the node
      cache of the path it was made for, and reports that node's data
      whichever cache it is later attached to. */
  datatype NodeAdapter = NodeAdapter(listener: ListenerId, path: string)

  /** The `PathChildrenCacheListener` lambda made for a listener. */
  datatype ChildAdapter = ChildAdapter(listener: ListenerId)

  /** A Curator `NodeCache`: its identity (the order in which the curator
      factory made it) and its listener container. */
  datatype NodeCache = NodeCache(serial: nat, listeners: set<NodeAdapter>)

  /** A Curator `PathChildrenCache`: its identity, the start mode it was
      made with, and its listener container. */
  datatype ChildrenCache = ChildrenCache(serial: nat, mode: StartMode, listeners: set<ChildAdapter>)

  /** `zNodeMap` after `watchNodeCache(path, …)` attaches adapter `a`: the
      cache of `path` is reused when there is one, else a cache numbered
      `serial` is made. */
  function AddNodeListener(caches: map<string, NodeCache>, path: string, serial: nat, a: NodeAdapter)
    : (r: map<string, NodeCache>)
    ensures r.Keys == caches.Keys + {path}
    ensures forall p | p in caches && p != path :: r[p] == caches[p]
    ensures r[path].listeners == (if path in caches then caches[path].listeners else {}) + {a}
    ensures r[path].serial == if path in caches then caches[path].serial else serial
  {
    caches[path := if path in caches then caches[path].(listeners := caches[path].listeners + {a}) else NodeCache(serial, {a})]
  }

  /** `childNodeMap` after `watchPathChildrenCache(path, mode, …)` attaches
      adapter `a`; a reused cache keeps the start mode it was made with. */
  function AddChildListener(
    caches: map<string, ChildrenCache>, path: string, serial: nat, mode: StartMode, a: ChildAdapter)
    : (r: map<string, ChildrenCache>)
    ensures r.Keys == caches.Keys + {path}
    ensures forall p | p in caches && p != path :: r[p] == caches[p]
    ensures r[path].listeners == (if path in caches then caches[path].listeners else {}) + {a}
    ensures r[path].serial == if path in caches then caches[path].serial else serial
    ensures r[path].mode == if path in caches then caches[path].mode else mode
  {
    caches[path := if path in caches then caches[path].(listeners := caches[path].listeners + {a})
                   else ChildrenCache(serial, mode, {a})]
  }

  /** `zNodeMap` after `removeListener(a)` on the node cache of `path`, if any. */
  function RemoveNodeListener(caches: map<string, NodeCache>, path: string, a: NodeAdapter)
    : (r: map<string, NodeCache>)
    ensures r.Keys == caches.Keys
    ensures forall p | p in caches && p != path :: r[p] == caches[p]
    ensures path in caches ==>
      r[path].serial == caches[path].serial && r[path].listeners == caches[path].listeners - {a}
  {
    if path in caches then caches[path := caches[path].(listeners := caches[path].listeners - {a})] else caches
  }

  /** `childNodeMap` after `removeListener(a)` on the children cache of `path`, if any. */
  function RemoveChildListener(caches: map<string, ChildrenCache>, path: string, a: ChildAdapter)
    : (r: map<string, ChildrenCache>)
    ensures r.Keys == caches.Keys
    ensures forall p | p in caches && p != path :: r[p] == caches[p]
    ensures path in caches ==>
      && r[path].serial == caches[path].serial && r[path].mode == caches[path].mode
      && r[path].listeners == caches[path].listeners - {a}
  {
    if path in caches then caches[path := caches[path].(listeners := caches[path].listeners - {a})] else caches
  }

  /** Attaching the same adapter again changes nothing: no second cache and
      no second registration of the adapter. */
  lemma AddNodeListenerIsIdempotent(caches: map<string, NodeCache>, path: string, s1: nat, s2: nat, a: NodeAdapter)
    ensures AddNodeListener(AddNodeListener(caches, path, s1, a), path, s2, a) == AddNodeListener(caches, path, s1, a)
  {
    var once := AddNodeListener(caches, path, s1, a);
    assert once[path].listeners + {a} == once[path].listeners;
  }

  /** Detaching an adapter that was not attached undoes attaching it, except
      that a cache made on the way stays, with no listener. */
  lemma RemoveNodeListenerUndoesAdd(caches: map<string, NodeCache>, path: string, serial: nat, a: NodeAdapter)
    requires path in caches ==> a !in caches[path].listeners
    ensures RemoveNodeListener(AddNodeListener(caches, path, serial, a), path, a) ==
      if path in caches then caches else caches[path := NodeCache(serial, {})]
  {
    var r := RemoveNodeListener(AddNodeListener(caches, path, serial, a), path, a);
    if path in caches {
      assert r[path].listeners == caches[path].listeners;
      assert r[path] == caches[path];
    } else {
      assert r[path].listeners == {};
    }
  }

  /** The same for the children cache. */
  lemma RemoveChildListenerUndoesAdd(
    caches: map<string, ChildrenCache>, path: string, serial: nat, mode: StartMode, a: ChildAdapter)
    requires path in caches ==> a !in caches[path].listeners
    ensures RemoveChildListener(AddChildListener(caches, path, serial, mode, a), path, a) ==
      if path in caches then caches else caches[path := ChildrenCache(serial, mode, {})]
  {
    var r := RemoveChildListener(AddChildListener(caches, path, serial, mode, a), path, a);
    if path in caches {
      assert r[path].listeners == caches[path].listeners;
      assert r[path] == caches[path];
    } else {
      assert r[path].listeners == {};
    }
  }

  /** A listener subscribed to `p1` and then to `p2` is attached to the cache
      of `p2` through the adapter made for `p1`, so a change of `p2` is
      reported with the data of `p1`. */
  lemma ResubscribedAdapterKeepsFirstPath(
    caches: map<string, NodeCache>, adapters: map<ListenerId, NodeAdapter>, l: ListenerId,
    p1: string, p2: string, s1: nat, s2: nat)
    requires l !in adapters
    ensures
      var adapters1 := PutIfAbsent(adapters, l, NodeAdapter(l, p1));
      var caches1 := AddNodeListener(caches, p1, s1, adapters1[l]);
      var adapters2 := PutIfAbsent(adapters1, l, NodeAdapter(l, p2));
      var caches2 := AddNodeListener(caches1, p2, s2, adapters2[l]);
      adapters2 == adapters1 && NodeAdapter(l, p1) in caches2[p2].listeners
  {
  }

  /** The coordination service: the nodes that exist and their data. */
  class ZooKeeper {
    var znodes: map<string, Bytes>

    constructor ()
      ensures znodes == map[]
    {
      znodes := map[];
    }
  }

  class ZkRegistry {
    /** The curator factory (its identity), `None` while it is null. */
    var curatorFactory: Option<nat>
    /** The node cache of each path. */
    var zNodeMap: map<string, NodeCache>
    /** The children cache of each path. */
    var childNodeMap: map<string, ChildrenCache>
    var zNodeListenerMap: map<ListenerId, NodeAdapter>
    var childrenListenerMap: map<ListenerId, ChildAdapter>
    /** How many caches the curator factory has made. */
    var cachesCreated: nat
    /** The coordination service the curator client talks to. */
    const zk: ZooKeeper
    /** How many times the curator factory was shut down. */
    var shutdowns: nat

    /** Every path has both a node cache and a children cache or neither,
        and the adapter kept for a listener calls that listener. */
    ghost predicate Valid()
      reads this`zNodeMap, this`childNodeMap, this`zNodeListenerMap, this`childrenListenerMap
    {
      && zNodeMap.Keys == childNodeMap.Keys
      && (forall l | l in zNodeListenerMap :: zNodeListenerMap[l].listener == l)
      && (forall l | l in childrenListenerMap :: childrenListenerMap[l] == ChildAdapter(l))
    }

    /** `ZkRegistry.build()`. */
    constructor Build(zk: ZooKeeper)
      ensures Valid()
      ensures this.zk == zk
      ensures curatorFactory == None && shutdowns == 0 && cachesCreated == 0
      ensures zNodeMap == map[] && childNodeMap == map[]
      ensures zNodeListenerMap == map[] && childrenListenerMap == map[]
    {
      curatorFactory := None;
      zNodeMap, childNodeMap := map[], map[];
      zNodeListenerMap, childrenListenerMap := map[], map[];
      cachesCreated := 0;
      this.zk := zk;
      shutdowns := 0;
    }

    /** `curatorFactory(factory)`: the field is set first, so a null factory
        is stored and then throws a `NullPointerException` when its client is
        asked for. */
    method SetCuratorFactory(factory: Option<nat>) returns (r: Outcome<Throwable>)
      modifies this
      ensures curatorFactory == factory
      ensures r == if factory.None? then Fail(NullPointer()) else Pass
      ensures zNodeMap == old(zNodeMap) && childNodeMap == old(childNodeMap)
      ensures zNodeListenerMap == old(zNodeListenerMap) && childrenListenerMap == old(childrenListenerMap)
      ensures cachesCreated == old(cachesCreated) && shutdowns == old(shutdowns)
    {
      curatorFactory := factory;
      r := if factory.None? then Fail(NullPointer()) else Pass;
    }

    /** The node data the node cache of `path` reports. */
    function CurrentData(path: string): Option<NodeData>
      reads this, zk
    {
      if path in zk.znodes then Some(NodeData(path, zk.znodes[path])) else None
    }

    /** `register(path, data)`: create an ephemeral node. Only a missing curator
        factory is reported; an existing node and every other failure (the
        `fails` input) are logged and leave the service as it was. */
    method Register(path: string, data: Bytes, fails: bool) returns (r: Outcome<Throwable>)
      modifies zk
      ensures r.Fail? <==> curatorFactory.None?
      ensures r.Fail? ==> r.error == IllegalArgument("curatorFactory must not be null")
      ensures zk.znodes ==
        if curatorFactory.Some? && !fails && path !in old(zk.znodes)
        then old(zk.znodes)[path := data] else old(zk.znodes)
    {
      if curatorFactory.None? {
        return Fail(IllegalArgument("curatorFactory must not be null"));
      }
      r := Pass;
      if fails || path in zk.znodes {
        // the failure, or NodeExistsException, is logged
        return;
      }
      zk.znodes := zk.znodes[path := data];
    }

    /** `unregister(path)`: delete the node; failures are logged. */
    method Unregister(path: string, fails: bool) returns (r: Outcome<Throwable>)
      modifies zk
      ensures r.Fail? <==> curatorFactory.None?
      ensures r.Fail? ==> r.error == IllegalArgument("curatorFactory must not be null")
      ensures zk.znodes == if curatorFactory.Some? && !fails then old(zk.znodes) - {path} else old(zk.znodes)
    {
      if curatorFactory.None? {
        return Fail(IllegalArgument("curatorFactory must not be null"));
      }
      r := Pass;
      if !fails {
        zk.znodes := zk.znodes - {path};
      }
    }

    /** `watchNodeCache(path, listener)`: reuse the node cache of `path` or
        have the curator factory make one (which throws while the factory is
        null), make the listener's adapter unless it has one, and attach the
        listener's adapter to the cache. */
    method WatchNodeCache(path: string, listener: ListenerId) returns (r: Outcome<Throwable>)
      modifies this
      ensures r.Fail? <==> path !in old(zNodeMap) && curatorFactory.None?
      ensures r.Fail? ==> r.error == NullPointer() && unchanged(this)
      ensures r.Pass? ==>
        && zNodeListenerMap == PutIfAbsent(old(zNodeListenerMap), listener, NodeAdapter(listener, path))
        && zNodeMap == AddNodeListener(old(zNodeMap), path, old(cachesCreated), zNodeListenerMap[listener])
        && cachesCreated == if path in old(zNodeMap) then old(cachesCreated) else old(cachesCreated) + 1
      ensures childNodeMap == old(childNodeMap) && childrenListenerMap == old(childrenListenerMap)
      ensures curatorFactory == old(curatorFactory) && shutdowns == old(shutdowns)
    {
      if path !in zNodeMap {
        if curatorFactory.None? {
          return Fail(NullPointer());
        }
        zNodeMap := zNodeMap[path := NodeCache(cachesCreated, {})];
        cachesCreated := cachesCreated + 1;
      }
      zNodeListenerMap := PutIfAbsent(zNodeListenerMap, listener, NodeAdapter(listener, path));
      var cache := zNodeMap[path];
      zNodeMap := zNodeMap[path := cache.(listeners := cache.listeners + {zNodeListenerMap[listener]})];
      r := Pass;
    }

    /** `watchPathChildrenCache(path, mode, listener)`: the same for the
        children cache of `path`, made with `mode`. */
    method WatchPathChildrenCache(path: string, mode: StartMode, listener: ListenerId) returns (r: Outcome<Throwable>)
      modifies this
      ensures r.Fail? <==> path !in old(childNodeMap) && curatorFactory.None?
      ensures r.Fail? ==> r.error == NullPointer() && unchanged(this)
      ensures r.Pass? ==>
        && childrenListenerMap == PutIfAbsent(old(childrenListenerMap), listener, ChildAdapter(listener))
        && childNodeMap == AddChildListener(old(childNodeMap), path, old(cachesCreated), mode, ChildAdapter(listener))
        && cachesCreated == if path in old(childNodeMap) then old(cachesCreated) else old(cachesCreated) + 1
      ensures zNodeMap == old(zNodeMap) && zNodeListenerMap == old(zNodeListenerMap)
      ensures curatorFactory == old(curatorFactory) && shutdowns == old(shutdowns)
    {
      if path !in childNodeMap {
        if curatorFactory.None? {
          return Fail(NullPointer());
        }
        childNodeMap := childNodeMap[path := ChildrenCache(cachesCreated, mode, {})];
        cachesCreated := cachesCreated + 1;
      }
      childrenListenerMap := PutIfAbsent(childrenListenerMap, listener, ChildAdapter(listener));
      var cache := childNodeMap[path];
      childNodeMap := childNodeMap[path := cache.(listeners := cache.listeners + {ChildAdapter(listener)})];
      r := Pass;
    }

    /** The registry after `subscribe(path, mode, listener)` succeeded from a
        state with cache maps `zm` and `cm`, adapter maps `zl` and `cl` and
        `created` caches made: the listener has both adapters (an existing
        one is kept), both are attached to the caches of `path`, and a path
        without caches gets a new node cache and then a new children cache,
        made with `mode`. */
    ghost predicate SubscribedFrom(
      zm: map<string, NodeCache>, cm: map<string, ChildrenCache>,
      zl: map<ListenerId, NodeAdapter>, cl: map<ListenerId, ChildAdapter>, created: nat,
      path: string, mode: StartMode, listener: ListenerId)
      reads this`zNodeMap, this`childNodeMap, this`zNodeListenerMap, this`childrenListenerMap, this`cachesCreated
    {
      && zNodeListenerMap == PutIfAbsent(zl, listener, NodeAdapter(listener, path))
      && childrenListenerMap == PutIfAbsent(cl, listener, ChildAdapter(listener))
      && zNodeMap == AddNodeListener(zm, path, created, zNodeListenerMap[listener])
      && childNodeMap == AddChildListener(cm, path, if path in zm then created else created + 1, mode, ChildAdapter(listener))
      && cachesCreated == if path in zm then created else created + 2
    }

    /** `subscribe(path, startMode, listener)`: watch both the node and its
        children. While the curator factory is null, a path with no caches
        yet throws a `NullPointerException` and nothing changes. */
    method Subscribe(path: string, mode: StartMode, listener: ListenerId) returns (r: Outcome<Throwable>)
      requires Valid()
      modifies this
      ensures Valid()
      ensures r.Fail? <==> path !in old(zNodeMap) && curatorFactory.None?
      ensures r.Fail? ==> r.error == NullPointer() && unchanged(this)
      ensures r.Pass? ==> SubscribedFrom(old(zNodeMap), old(childNodeMap), old(zNodeListenerMap),
        old(childrenListenerMap), old(cachesCreated), path, mode, listener)
      ensures curatorFactory == old(curatorFactory) && shutdowns == old(shutdowns)
    {
      r := WatchNodeCache(path, listener);
      if r.Pass? {
        r := WatchPathChildrenCache(path, mode, listener);
      }
    }

    /** `watch(path, listener)`: a subscription whose children cache, when
        new, builds the initial cache. */
    method Watch(path: string, listener: ListenerId) returns (r: Outcome<Throwable>)
      requires Valid()
      modifies this
      ensures Valid()
      ensures r.Fail? <==> path !in old(zNodeMap) && curatorFactory.None?
      ensures r.Fail? ==> r.error == NullPointer() && unchanged(this)
      ensures r.Pass? ==> SubscribedFrom(old(zNodeMap), old(childNodeMap), old(zNodeListenerMap),
        old(childrenListenerMap), old(cachesCreated), path, BuildInitialCache, listener)
      ensures curatorFactory == old(curatorFactory) && shutdowns == old(shutdowns)
    {
      r := Subscribe(path, BuildInitialCache, listener);
    }

    /** `unSubscribe(path, listener)`: detach the listener's adapters from the
        caches of `path` that exist. No cache and no adapter is forgotten, and
        a listener without an adapter leaves the caches as they are. */
    method UnSubscribe(path: string, listener: ListenerId)
      requires Valid()
      modifies this
      ensures Valid()
      ensures zNodeMap ==
        if listener in zNodeListenerMap then RemoveNodeListener(old(zNodeMap), path, zNodeListenerMap[listener])
        else old(zNodeMap)
      ensures childNodeMap ==
        if listener in childrenListenerMap then RemoveChildListener(old(childNodeMap), path, ChildAdapter(listener))
        else old(childNodeMap)
      ensures zNodeListenerMap == old(zNodeListenerMap) && childrenListenerMap == old(childrenListenerMap)
      ensures curatorFactory == old(curatorFactory) && shutdowns == old(shutdowns)
      ensures cachesCreated == old(cachesCreated)
    {
      if path in zNodeMap && listener in zNodeListenerMap {
        zNodeMap := RemoveNodeListener(zNodeMap, path, zNodeListenerMap[listener]);
      }
      if path in childNodeMap && listener in childrenListenerMap {
        childNodeMap := RemoveChildListener(childNodeMap, path, childrenListenerMap[listener]);
      }
    }

    /** `shutdown()` / `close()`: shut the curator factory down if there is one. */
    method Shutdown()
      modifies this`shutdowns
      ensures shutdowns == if curatorFactory.Some? then old(shutdowns) + 1 else old(shutdowns)
    {
      if curatorFactory.Some? {
        shutdowns := shutdowns + 1;
      }
    }

    /** The listener calls one change of the node at `path` produces: each
        attached adapter, and no one else, calls its listener with
        `NODE_CHANGED` and the current data of the path that adapter was made
        for, or a null pair when that node does not exist. */
    function NodeChangeCalls(path: string): (calls: set<(ListenerId, MonitorEvent)>)
      reads this, zk
      requires path in zNodeMap
      ensures forall a | a in zNodeMap[path].listeners ::
        (a.listener, MonitorEvent(Some(NodeChanged),
           if a.path in zk.znodes then Some(NodeData(a.path, zk.znodes[a.path])) else None)) in calls
      ensures forall call | call in calls ::
        exists a | a in zNodeMap[path].listeners ::
          && call.0 == a.listener && call.1.kind == Some(NodeChanged)
          && (call.1.data.None? <==> a.path !in zk.znodes)
          && (call.1.data.Some? ==> call.1.data.value == NodeData(a.path, zk.znodes[a.path]))
    {
      set a | a in zNodeMap[path].listeners :: (a.listener, NodeChangeEvent(CurrentData(a.path)))
    }

    /** The listener calls one Curator child event under `path` produces:
        nothing for an ignored type, otherwise the translated event to every
        attached listener and to no one else. */
    function ChildEventCalls(path: string, t: ChildEventType, data: NodeData): (calls: set<(ListenerId, MonitorEvent)>)
      reads this
      requires path in childNodeMap
      ensures t in IgnoreTypes ==> calls == {}
      ensures forall call | call in calls :: call.1.kind.Some? && call.1.data == Some(data)
      ensures t !in IgnoreTypes ==> forall a | a in childNodeMap[path].listeners ::
        (a.listener, TranslateChildEvent(t, data).value) in calls
      ensures forall call | call in calls ::
        && call.1 == TranslateChildEvent(t, data).value
        && exists a | a in childNodeMap[path].listeners :: call.0 == a.listener
    {
      match TranslateChildEvent(t, data)
      case None => {}
      case Some(e) => set a | a in childNodeMap[path].listeners :: (a.listener, e)
    }
  }
}
