/** `DefaultTServerFactory` and its `TServerBuilder`: build the Thrift server
    configuration, run it on a single-thread executor, and register one
    ephemeral node per served service, each guarded by a watch that
    re-creates the node when it changes. */
module Server {
  import opened Wrappers
  import opened Text
  import opened Registry
  import opened IpResolve
  import opened ExposeProvider

  /** `String.format("/%s/%s/%s:%s", ROOT, service, ip, String.valueOf(port))`:
      the registration path of one service; a null address prints as "null". */
  function RegistrationPath(root: string, service: string, ip: Option<string>, port: Int32): string
  {
    "/" + root + "/" + service + "/" + FormatArg(ip) + ":" + IntToString(port)
  }

  /** The node a server registers for a service lies under the path the
      client's provider subscribes to for that service, and is a direct
      child of it when the address holds no `/`. */
  lemma RegistrationUnderServicePath(root: string, service: string, ip: Option<string>, port: Int32)
    ensures var path, dir := RegistrationPath(root, service, ip, port), ServicePath(root, Some(service)) + "/";
      && |dir| < |path| && path[..|dir|] == dir
      && ('/' !in FormatArg(ip) ==> '/' !in path[|dir|..])
  {
    var dir := ServicePath(root, Some(service)) + "/";
    var path := RegistrationPath(root, service, ip, port);
    assert path == dir + (FormatArg(ip) + ":" + IntToString(port));
  }

  /** The client's `getAddress` reads back the address and the port the server
      wrote into its registration path. */
  lemma RegistrationPathRoundTrip(root: string, service: string, ip: Option<string>, port: Int32)
    requires ':' !in root && ':' !in service
    requires ':' !in FormatArg(ip) && '/' !in FormatArg(ip)
    requires 0 <= port <= 65535
    ensures GetAddress(RegistrationPath(root, service, ip, port)) == Success(Endpoint(FormatArg(ip), port))
  {
    var dir := "/" + root + "/" + service;
    var head := dir + "/" + FormatArg(ip);
    var digits := IntToString(port);
    assert ':' !in head;
    var key := RegistrationPath(root, service, ip, port);
    assert key == head + [':'] + digits;
    SplitAfterPiece(head, ':', digits);
    SplitFirstPiece(digits, ':', []);
    assert digits + [] == digits;
    var parts := Split(key, ':');
    assert parts == [head] + Split(digits, ':');
    assert |parts| >= 2 && parts[0] == head && parts[1] == digits;
    ParseIntRoundTrip(port);
    assert head == dir + ['/'] + FormatArg(ip);
    SubstringAfterLastOfSuffix(dir, '/', FormatArg(ip));
  }

  /** Whatever the interfaces hold, what a server registers under a freshly
      resolved address parses back to that address, or to the host "null"
      when no address qualifies. */
  lemma ResolvedRegistrationParses(root: string, service: string, scan: NetworkScan, port: Int32)
    requires ':' !in root && ':' !in service
    requires 0 <= port <= 65535
    ensures var ip := Resolve(None, scan);
      GetAddress(RegistrationPath(root, service, ip, port))
        == Success(Endpoint(if ip.Some? then ip.value else "null", port))
  {
    var ip := Resolve(None, scan);
    if ip.Some? {
      var all := Flatten(scan.value);
      LastQualifyingSome(all);
      var k :| 0 <= k < |all| && LastQualifyingAt(all, k);
    }
    RegistrationPathRoundTrip(root, service, ip, port);
  }

  /** A path written with a port outside 0..65535 is rejected by the
      client's parser. */
  lemma OutOfRangePortIsRejected(root: string, service: string, ip: Option<string>, port: Int32)
    requires ':' !in root && ':' !in service
    requires ':' !in FormatArg(ip)
    requires !(0 <= port <= 65535)
    ensures GetAddress(RegistrationPath(root, service, ip, port)) == Failure(PortOutOfRange)
  {
    var head := "/" + root + "/" + service + "/" + FormatArg(ip);
    var digits := IntToString(port);
    assert ':' !in head;
    var key := RegistrationPath(root, service, ip, port);
    assert key == head + [':'] + digits;
    SplitAfterPiece(head, ':', digits);
    SplitFirstPiece(digits, ':', []);
    assert digits + [] == digits;
    var parts := Split(key, ':');
    assert parts == [head] + Split(digits, ':');
    assert |parts| >= 2 && parts[1] == digits;
    ParseIntRoundTrip(port);
  }

  /** The node data: the ASCII bytes of `String.valueOf(currentTimeMillis)`. */
  function Payload(now: Int64): Bytes
  {
    var s := IntToString(now);
    seq(|s|, k requires 0 <= k < |s| => s[k] as int as byte)
  }

  /** The characters the node data stands for, one per byte. */
  function PayloadText(data: Bytes): string
  {
    seq(|data|, k requires 0 <= k < |data| => data[k] as int as char)
  }

  /** The node data is ASCII, and read back as text it is the decimal
      rendering of the time read: the digits of its value, after a minus
      sign for a time before the epoch. */
  lemma PayloadDecodes(now: Int64)
    ensures |Payload(now)| >= 1
    ensures forall k | 0 <= k < |Payload(now)| :: Payload(now)[k] < 128
    ensures var text := PayloadText(Payload(now));
      && (now >= 0 ==> AllDigits(text) && DigitsValue(text) == now)
      && (now < 0 ==> text[0] == '-' && AllDigits(text[1..]) && DigitsValue(text[1..]) == -(now as int))
  {
    var s := IntToString(now);
    assert PayloadText(Payload(now)) == s;
    if now < 0 {
      assert s[1..] == NatToString(-(now as int));
    }
  }

  /** `ThriftServerProperties.PROFACT`, indexed by the `protocol` property. */
  datatype Protocol = Compact | Binary | Json

  const Profact: seq<Protocol> := [Compact, Binary, Json]

  /** The worker executor handed to the server. */
  datatype WorkerPool = Cached | Fixed(threads: nat)

  /** `ThriftServerProperties`. */
  datatype ServerProperties = ServerProperties(
    selectorCount: Int32, workerCount: Int32, protocol: Int32, acceptQueueSizePerThread: Int32)

  const DefaultServerProperties: ServerProperties := ServerProperties(2, 0, 0, 4)

  /** The `TThreadedSelectorServer` that `create` builds: where it listens,
      which services its multiplexed processor serves, and its arguments. */
  datatype ServerConfig = ServerConfig(
    port: Int32, services: set<string>, protocol: Protocol, workers: WorkerPool,
    selectorThreads: Int32, acceptQueueSizePerThread: Int32)

  /** `Executors.newFixedThreadPool(n)`: at least one thread, else
      `IllegalArgumentException`. */
  function NewFixedThreadPool(n: int): Result<WorkerPool, Throwable>
  {
    if n <= 0 then Failure(IllegalArgument("")) else Success(Fixed(n))
  }

  /** Reading `PROFACT[index]` outside the array. */
  function IndexOutOfBounds(index: int, length: nat): Throwable
  {
    Throwable("java.lang.ArrayIndexOutOfBoundsException",
      "Index " + IntToString(index) + " out of bounds for length " + IntToString(length))
  }

  /** The part of `create` after the socket is bound. With properties, the
      protocol index, selector count and queue size come from them and a
      worker count of 0 means a cached pool; without, the protocol is compact,
      the pool has one thread per processor, and the selector count and
      queue size keep Thrift's defaults of 2 and 4. The pool is made before
      the protocol is looked up, so a bad worker count is reported first; the
      `TThreadedSelectorServer` constructor then validates its arguments and
      rejects a non-positive selector count, then a non-positive queue size. */
  function ServerConfigFor(port: Int32, services: set<string>, props: Option<ServerProperties>, processors: nat)
    : (r: Result<ServerConfig, Throwable>)
    ensures r.Success? <==>
      if props.None? then processors > 0
      else
        && props.value.workerCount >= 0 && 0 <= props.value.protocol < 3
        && props.value.selectorCount > 0 && props.value.acceptQueueSizePerThread > 0
    ensures r.Success? ==> r.value.port == port && r.value.services == services
    ensures r.Success? ==>
      && r.value.selectorThreads == (if props.None? then 2 else props.value.selectorCount)
      && r.value.acceptQueueSizePerThread == (if props.None? then 4 else props.value.acceptQueueSizePerThread)
    ensures props.None? && processors == 0 ==> r == Failure(IllegalArgument(""))
    ensures r.Success? && props.None? ==> r.value.protocol == Compact && r.value.workers == Fixed(processors)
    ensures r.Success? && props.Some? ==>
      && r.value.protocol == Profact[props.value.protocol]
      && r.value.workers == (if props.value.workerCount == 0 then Cached else Fixed(props.value.workerCount))
    ensures props.Some? && props.value.workerCount < 0 ==> r == Failure(IllegalArgument(""))
    ensures props.Some? && props.value.workerCount >= 0 && !(0 <= props.value.protocol < 3) ==>
      r == Failure(IndexOutOfBounds(props.value.protocol, 3))
    ensures props.Some? && props.value.workerCount >= 0 && 0 <= props.value.protocol < 3 ==>
      && (props.value.selectorCount <= 0 ==> r == Failure(IllegalArgument("selectorThreads must be positive.")))
      && (props.value.selectorCount > 0 && props.value.acceptQueueSizePerThread <= 0 ==>
            r == Failure(IllegalArgument("acceptQueueSizePerThread must be positive.")))
  {
    var pool :=
      if props.None? then NewFixedThreadPool(processors)
      else if props.value.workerCount != 0 then NewFixedThreadPool(props.value.workerCount)
      else Success(Cached);
    var index: int := if props.None? then 0 else props.value.protocol;
    var selectors: Int32 := if props.None? then 2 else props.value.selectorCount;
    var queue: Int32 := if props.None? then 4 else props.value.acceptQueueSizePerThread;
    if pool.Failure? then Failure(pool.error)
    else if !(0 <= index < |Profact|) then Failure(IndexOutOfBounds(index, |Profact|))
    else if selectors <= 0 then Failure(IllegalArgument("selectorThreads must be positive."))
    else if queue <= 0 then Failure(IllegalArgument("acceptQueueSizePerThread must be positive."))
    else Success(ServerConfig(port, services, Profact[index], pool.value, selectors, queue))
  }

  /** A server built without properties is configured as one built with the
      default properties, except for its workers: one thread per processor
      instead of a cached pool. */
  lemma NoPropertiesActAsDefaults(port: Int32, services: set<string>, processors: nat)
    requires processors > 0
    ensures ServerConfigFor(port, services, Some(DefaultServerProperties), processors).Success?
    ensures ServerConfigFor(port, services, Some(DefaultServerProperties), processors).value.workers == Cached
    ensures ServerConfigFor(port, services, None, processors)
      == Success(ServerConfigFor(port, services, Some(DefaultServerProperties), processors).value.(workers := Fixed(processors)))
  {
  }

  /** `TServerBuilder`. */
  class TServerBuilder {
    const serverIpResolve: DefaultServerIpResolve
    var port: Int32
    /** The names of the processors in `processorMap`, `None` when null. */
    var processorMap: Option<set<string>>
    var curatorFactory: Option<nat>
    var thriftServerProperties: Option<ServerProperties>

    /** `DefaultTServerFactory.custom()`. */
    constructor Custom()
      ensures fresh(serverIpResolve) && serverIpResolve.ipAddr == None
      ensures port == 8080 && processorMap == Some({})
      ensures curatorFactory == None && thriftServerProperties == None
    {
      serverIpResolve := new DefaultServerIpResolve();
      port := 8080;
      processorMap := Some({});
      curatorFactory := None;
      thriftServerProperties := None;
    }

    /** `processorMap(map)`: replaces the map, even by null. */
    method ProcessorMap(map_: Option<set<string>>)
      modifies this
      ensures processorMap == map_
      ensures port == old(port) && curatorFactory == old(curatorFactory)
      ensures thriftServerProperties == old(thriftServerProperties)
    {
      processorMap := map_;
    }

    /** `port(port)`: a null port keeps the current one. */
    method Port(p: Option<Int32>)
      modifies this
      ensures port == if p.Some? then p.value else old(port)
      ensures processorMap == old(processorMap) && curatorFactory == old(curatorFactory)
      ensures thriftServerProperties == old(thriftServerProperties)
    {
      if p.Some? {
        port := p.value;
      }
    }

    /** `curatorFactory(factory)`: a null factory keeps the current one. */
    method CuratorFactory(factory: Option<nat>)
      modifies this
      ensures curatorFactory == if factory.Some? then factory else old(curatorFactory)
      ensures port == old(port) && processorMap == old(processorMap)
      ensures thriftServerProperties == old(thriftServerProperties)
    {
      if factory.Some? {
        curatorFactory := factory;
      }
    }

    /** `thriftServerProperties(props)`: replaces the properties, even by null. */
    method ThriftServerProperties(props: Option<ServerProperties>)
      modifies this
      ensures thriftServerProperties == props
      ensures port == old(port) && processorMap == old(processorMap) && curatorFactory == old(curatorFactory)
    {
      thriftServerProperties := props;
    }
  }

  /** The registration path of each of `services` under one address and port. */
  function PathMap(root: string, services: set<string>, ip: Option<string>, port: Int32): (m: map<string, string>)
    ensures m.Keys == services
  {
    map s | s in services :: RegistrationPath(root, s, ip, port)
  }

  /** Text between a common head and a common tail is determined by the whole. */
  lemma MiddleCancels(head: string, a: string, b: string, t1: string, t2: string, t3: string, t4: string)
    requires head + a + t1 + t2 + t3 + t4 == head + b + t1 + t2 + t3 + t4
    ensures a == b
  {
    var x := head + a + t1 + t2 + t3 + t4;
    var y := head + b + t1 + t2 + t3 + t4;
    assert |a| == |b|;
    assert x[|head|..|head| + |a|] == a;
    assert y[|head|..|head| + |b|] == b;
  }

  /** Different services get different registration paths. */
  lemma RegistrationPathInjective(root: string, s1: string, s2: string, ip: Option<string>, port: Int32)
    requires RegistrationPath(root, s1, ip, port) == RegistrationPath(root, s2, ip, port)
    ensures s1 == s2
  {
    MiddleCancels("/" + root + "/", s1, s2, "/", FormatArg(ip), ":", IntToString(port));
  }

  /** One more service adds its own path, which no other service has. */
  lemma PathMapStep(root: string, services: set<string>, s: string, ip: Option<string>, port: Int32)
    requires s !in services
    ensures PathMap(root, services + {s}, ip, port) == PathMap(root, services, ip, port)[s := RegistrationPath(root, s, ip, port)]
    ensures RegistrationPath(root, s, ip, port) !in PathMap(root, services, ip, port).Values
  {
    var m := PathMap(root, services, ip, port);
    if RegistrationPath(root, s, ip, port) in m.Values {
      var t :| t in m && m[t] == RegistrationPath(root, s, ip, port);
      RegistrationPathInjective(root, t, s, ip, port);
    }
  }

  /** Giving a new key a value adds that value to the values of a map. */
  lemma ValuesAfterUpdate(m: map<string, string>, k: string, v: string)
    requires k !in m
    ensures m[k := v].Values == m.Values + {v}
  {
    var m' := m[k := v];
    forall x | x in m'.Values
      ensures x in m.Values + {v}
    {
      var j :| j in m' && m'[j] == x;
      if j != k {
        assert m[j] == x;
      }
    }
    forall x | x in m.Values + {v}
      ensures x in m'.Values
    {
      if x == v {
        assert m'[k] == x;
      } else {
        var j :| j in m && m[j] == x;
        assert m'[j] == x;
      }
    }
  }

  /** `nodes` is `before` with a node for the path of each service that did
      not fail and did not exist, holding `data` of that service. */
  ghost predicate NodesAfter(
    nodes: map<string, Bytes>, before: map<string, Bytes>, paths: map<string, string>,
    failing: set<string>, data: string -> Bytes)
  {
    && nodes.Keys == before.Keys + (paths.Values - failing)
    && (forall p | p in before :: nodes[p] == before[p])
    && (forall s | s in paths && paths[s] !in failing && paths[s] !in before :: nodes[paths[s]] == data(s))
  }

  lemma NodesAfterStep(
    nodes: map<string, Bytes>, before: map<string, Bytes>, paths: map<string, string>,
    failing: set<string>, data: string -> Bytes, s: string, p: string, next: map<string, Bytes>)
    requires NodesAfter(nodes, before, paths, failing, data)
    requires s !in paths && p !in paths.Values
    requires next == if p !in failing && p !in nodes then nodes[p := data(s)] else nodes
    ensures NodesAfter(next, before, paths[s := p], failing, data)
  {
    ValuesAfterUpdate(paths, s, p);
  }

  /** The path of each service has a watch listener that registers it again
      with the data it was first registered with. */
  ghost predicate Guards(handlers: map<ListenerId, WatchHandler>, paths: map<string, string>, data: string -> Bytes)
  {
    forall s | s in paths :: WatchHandler(paths[s], data(s)) in handlers.Values
  }

  lemma GuardsStep(
    handlers: map<ListenerId, WatchHandler>, paths: map<string, string>, data: string -> Bytes,
    l: ListenerId, s: string, p: string)
    requires Guards(handlers, paths, data) && l !in handlers
    ensures Guards(handlers[l := WatchHandler(p, data(s))], paths[s := p], data)
  {
    var next := handlers[l := WatchHandler(p, data(s))];
    var paths' := paths[s := p];
    forall t | t in paths'
      ensures WatchHandler(paths'[t], data(t)) in next.Values
    {
      var h := WatchHandler(paths'[t], data(t));
      if t == s {
        assert next[l] == h;
      } else {
        var k :| k in handlers && handlers[k] == h;
        assert next[k] == h;
      }
    }
  }

  /** After registering `services` under `ip` and `port`: each registration
      path is added to `pathSet`, its node exists unless its creation failed,
      a node that already existed keeps its data, and a watch listener guards
      it with the data of its service. */
  ghost predicate Registered(
    pathSet: set<string>, handlers: map<ListenerId, WatchHandler>, nodes: map<string, Bytes>,
    root: string, data: string -> Bytes, ip: Option<string>, port: Int32, failing: set<string>,
    services: set<string>, oldPathSet: set<string>, oldNodes: map<string, Bytes>)
  {
    var paths := PathMap(root, services, ip, port);
    && pathSet == oldPathSet + paths.Values
    && NodesAfter(nodes, oldNodes, paths, failing, data)
    && Guards(handlers, paths, data)
  }

  /** Registering one more service keeps `Registered`. */
  lemma RegisteredStep(
    pathSet: set<string>, handlers: map<ListenerId, WatchHandler>, nodes: map<string, Bytes>,
    root: string, data: string -> Bytes, ip: Option<string>, port: Int32, failing: set<string>,
    services: set<string>, oldPathSet: set<string>, oldNodes: map<string, Bytes>, s: string, l: ListenerId)
    requires Registered(pathSet, handlers, nodes, root, data, ip, port, failing, services, oldPathSet, oldNodes)
    requires s !in services && l !in handlers
    ensures var p := RegistrationPath(root, s, ip, port);
      Registered(pathSet + {p}, handlers[l := WatchHandler(p, data(s))],
        if p !in failing && p !in nodes then nodes[p := data(s)] else nodes,
        root, data, ip, port, failing, services + {s}, oldPathSet, oldNodes)
  {
    var p := RegistrationPath(root, s, ip, port);
    PathMapStep(root, services, s, ip, port);
    var paths := PathMap(root, services, ip, port);
    ValuesAfterUpdate(paths, s, p);
    NodesAfterStep(nodes, oldNodes, paths, failing, data, s, p,
      if p !in failing && p !in nodes then nodes[p := data(s)] else nodes);
    GuardsStep(handlers, paths, data, l, s, p);
  }

  /** Every watch listener is attached to the node cache of the path it
      guards, through an adapter made for that path. */
  ghost predicate AllAttached(handlers: map<ListenerId, WatchHandler>, caches: map<string, NodeCache>)
  {
    forall l | l in handlers ::
      handlers[l].path in caches && NodeAdapter(l, handlers[l].path) in caches[handlers[l].path].listeners
  }

  /** Watching `path` with the new listener `l` keeps every listener attached. */
  lemma AllAttachedStep(
    handlers: map<ListenerId, WatchHandler>, caches: map<string, NodeCache>,
    l: ListenerId, path: string, payload: Bytes, serial: nat)
    requires AllAttached(handlers, caches)
    ensures AllAttached(handlers[l := WatchHandler(path, payload)], AddNodeListener(caches, path, serial, NodeAdapter(l, path)))
  {
  }

  /** What the single-thread executor was asked to run. */
  datatype Task = Serve(port: Int32) | StopServer(port: Int32)

  /** The watch `registerGuaranteed` attaches to one registration path: on a
      node change it registers the path again with the same data. */
  datatype WatchHandler = WatchHandler(path: string, payload: Bytes)

  /** `executor.submit` after `executor.shutdown()`. */
  const Rejected: Throwable := Throwable("java.util.concurrent.RejectedExecutionException", "")

  class DefaultTServerFactory {
    const builder: TServerBuilder
    /** Null unless the builder had a curator factory. */
    const registry: ZkRegistry?
    /** The coordination service the registry's curator client talks to. */
    const zk: ZooKeeper
    var pathSet: set<string>
    var server: Option<ServerConfig>
    var executorShutdown: bool
    var tasks: seq<Task>
    /** The watch listeners made so far, by identity. */
    var watchHandlers: map<ListenerId, WatchHandler>
    /** The identity the next watch listener gets. */
    var nextListener: ListenerId

    /** The registry has a curator factory and the same coordination service,
        listener identities are fresh, and every watch listener stays attached
        to the node it guards. */
    ghost predicate RegistryValid()
      requires registry != null
      reads this`watchHandlers, this`nextListener, registry`curatorFactory
      reads registry`zNodeMap, registry`childNodeMap, registry`zNodeListenerMap, registry`childrenListenerMap
    {
      && registry.zk == zk
      && registry.Valid() && registry.curatorFactory.Some?
      && (forall l | l in registry.zNodeListenerMap :: l < nextListener)
      && AllAttached(watchHandlers, registry.zNodeMap)
    }

    /** Without a registry there is no watch listener; identities of watch
        listeners are below `nextListener`. */
    ghost predicate Valid()
      reads this`watchHandlers, this`nextListener, registry
    {
      && (registry != null ==> RegistryValid())
      && (registry == null ==> watchHandlers == map[])
      && (forall l | l in watchHandlers :: l < nextListener)
    }

    /** `builder.build()`: a registry exists exactly when the builder has a
        curator factory. */
    constructor Build(builder: TServerBuilder, zk: ZooKeeper)
      ensures Valid()
      ensures this.builder == builder && this.zk == zk
      ensures (registry != null) == builder.curatorFactory.Some?
      ensures registry != null ==>
        fresh(registry) && registry.curatorFactory == builder.curatorFactory
      ensures pathSet == {} && server == None && !executorShutdown && tasks == []
      ensures watchHandlers == map[]
    {
      this.builder := builder;
      this.zk := zk;
      if builder.curatorFactory.Some? {
        var r := new ZkRegistry.Build(zk);
        var _ := r.SetCuratorFactory(builder.curatorFactory);
        registry := r;
      } else {
        registry := null;
      }
      pathSet := {};
      server := None;
      executorShutdown := false;
      tasks := [];
      watchHandlers := map[];
      nextListener := 0;
    }

    /** After `registerGuaranteed` for `services`: each registration path is
        in `pathSet`, its node exists (unless its creation failed), a node
        that already existed keeps its data, and a watch listener guards it. */
    ghost predicate RegisteredAll(
      root: string, data: string -> Bytes, ip: Option<string>, failing: set<string>,
      services: set<string>, oldPathSet: set<string>, oldNodes: map<string, Bytes>)
      reads this`pathSet, this`watchHandlers, builder`port, zk`znodes
    {
      Registered(pathSet, watchHandlers, zk.znodes, root, data, ip, builder.port, failing, services, oldPathSet, oldNodes)
    }

    /** One turn of the loop in `registerGuaranteed`: create the node, watch
        it with a new listener that re-registers it, and remember the path. */
    method RegisterPath(path: string, data: Bytes, fails: bool)
      requires Valid() && registry != null
      modifies this`watchHandlers, this`nextListener, this`pathSet, registry, zk
      ensures Valid()
      ensures pathSet == old(pathSet) + {path}
      ensures zk.znodes ==
        if !fails && path !in old(zk.znodes) then old(zk.znodes)[path := data] else old(zk.znodes)
      ensures nextListener == old(nextListener) + 1
      ensures watchHandlers == old(watchHandlers)[old(nextListener) := WatchHandler(path, data)]
    {
      var _ := registry.Register(path, data, fails);
      WatchPath(path, data);
    }

    /** Watch `path` with a new listener that registers it again with `data`,
        and remember the path. */
    method WatchPath(path: string, data: Bytes)
      requires Valid() && registry != null
      modifies this`watchHandlers, this`nextListener, this`pathSet, registry
      ensures Valid()
      ensures pathSet == old(pathSet) + {path}
      ensures nextListener == old(nextListener) + 1
      ensures watchHandlers == old(watchHandlers)[old(nextListener) := WatchHandler(path, data)]
    {
      var l := nextListener;
      AllAttachedStep(watchHandlers, registry.zNodeMap, l, path, data, registry.cachesCreated);
      ghost var adapters := registry.zNodeListenerMap;
      assert l !in adapters;
      var _ := registry.Watch(path, l);
      assert registry.zNodeListenerMap == adapters[l := NodeAdapter(l, path)];
      watchHandlers := watchHandlers[l := WatchHandler(path, data)];
      nextListener := nextListener + 1;
      pathSet := pathSet + {path};
    }

    /** `registerGuaranteed()`: for each service, resolve the server address,
        read the clock, create the node, watch it, and remember its path.
        `clock(s)` is the time read for service `s`. */
    method RegisterGuaranteed(root: string, clock: string -> Int64, net: NetworkScan, failing: set<string>)
      returns (r: Outcome<Throwable>)
      requires Valid()
      modifies this`watchHandlers, this`nextListener, this`pathSet, registry, zk, builder.serverIpResolve
      ensures Valid()
      ensures registry == null ==>
        r == Pass && pathSet == old(pathSet) && unchanged(this, zk, builder.serverIpResolve)
      ensures registry != null && builder.processorMap.None? ==>
        r == Fail(NullPointer()) && unchanged(this, registry, zk, builder.serverIpResolve)
      ensures registry != null && builder.processorMap.Some? ==>
        && r == Pass
        && RegisteredAll(root, s => Payload(clock(s)), Resolve(old(builder.serverIpResolve.ipAddr), net), failing,
             builder.processorMap.value, old(pathSet), old(zk.znodes))
        && (builder.processorMap.value != {} ==>
              builder.serverIpResolve.ipAddr == Resolve(old(builder.serverIpResolve.ipAddr), net))
        && (builder.processorMap.value == {} ==> unchanged(builder.serverIpResolve))
    {
      if registry == null {
        return Pass;
      }
      if builder.processorMap.None? {
        return Fail(NullPointer());
      }
      RegisterServices(root, builder.processorMap.value, s => Payload(clock(s)), net, failing);
      r := Pass;
    }

    /** The loop of `registerGuaranteed`: register every service of
        `services`; the address resolver gives the same address each time. */
    method RegisterServices(root: string, services: set<string>, data: string -> Bytes, net: NetworkScan, failing: set<string>)
      requires Valid() && registry != null
      modifies this`watchHandlers, this`nextListener, this`pathSet, registry, zk, builder.serverIpResolve
      ensures Valid()
      ensures RegisteredAll(root, data, Resolve(old(builder.serverIpResolve.ipAddr), net), failing,
        services, old(pathSet), old(zk.znodes))
      ensures services != {} ==> builder.serverIpResolve.ipAddr == Resolve(old(builder.serverIpResolve.ipAddr), net)
      ensures services == {} ==> unchanged(builder.serverIpResolve)
    {
      var resolve := builder.serverIpResolve;
      ghost var ip0 := Resolve(resolve.ipAddr, net);
      if ip0.Some? {
        ResolveIsStable(resolve.ipAddr, net, net);
      }
      var done: set<string> := {};
      while done != services
        invariant done <= services
        invariant Valid()
        invariant Resolve(resolve.ipAddr, net) == ip0
        invariant done != {} ==> resolve.ipAddr == ip0
        invariant done == {} ==> unchanged(resolve)
        invariant RegisteredAll(root, data, ip0, failing, done, old(pathSet), old(zk.znodes))
        decreases services - done
      {
        assert exists s :: s in services && s !in done;
        var s :| s in services && s !in done;
        RegisterService(root, s, data, net, failing, ip0, done, old(pathSet), old(zk.znodes));
        done := done + {s};
      }
    }

    /** One turn of the loop in `registerGuaranteed`: resolve the server
        address, which stays `ip0`, then register, watch and remember the
        path of service `s`, with `data(s)` as its data. */
    method RegisterService(
      root: string, s: string, data: string -> Bytes, net: NetworkScan, failing: set<string>,
      ghost ip0: Option<string>, ghost done: set<string>, ghost oldPathSet: set<string>, ghost oldNodes: map<string, Bytes>)
      requires Valid() && registry != null && s !in done
      requires Resolve(builder.serverIpResolve.ipAddr, net) == ip0
      requires RegisteredAll(root, data, ip0, failing, done, oldPathSet, oldNodes)
      modifies this`watchHandlers, this`nextListener, this`pathSet, registry, zk, builder.serverIpResolve
      ensures Valid()
      ensures builder.serverIpResolve.ipAddr == ip0
      ensures RegisteredAll(root, data, ip0, failing, done + {s}, oldPathSet, oldNodes)
    {
      var ip := builder.serverIpResolve.GetServerIp(net);
      var path := RegistrationPath(root, s, ip, builder.port);
      var bytes := data(s);
      RegisteredStep(pathSet, watchHandlers, zk.znodes, root, data, ip0, builder.port, failing, done, oldPathSet, oldNodes, s, nextListener);
      RegisterPath(path, bytes, path in failing);
    }

    /** `create()`: a null processor map throws; a port outside 0..65535 makes
        the server socket throw; a socket that cannot bind is logged and the
        previous server is returned; otherwise the new server is kept. */
    method Create(bindFails: bool, processors: nat) returns (r: Result<Option<ServerConfig>, Throwable>)
      modifies this`server
      ensures builder.processorMap.None? ==> r == Failure(NullPointer()) && server == old(server)
      ensures builder.processorMap.Some? && !(0 <= builder.port <= 65535) ==>
        && r == Failure(IllegalArgument("port out of range:" + IntToString(builder.port)))
        && server == old(server)
      ensures builder.processorMap.Some? && 0 <= builder.port <= 65535 && bindFails ==>
        r == Success(old(server)) && server == old(server)
      ensures builder.processorMap.Some? && 0 <= builder.port <= 65535 && !bindFails ==>
        match ServerConfigFor(builder.port, builder.processorMap.value, builder.thriftServerProperties, processors)
        case Success(c) => server == Some(c) && r == Success(server)
        case Failure(e) => r == Failure(e) && server == old(server)
    {
      if builder.processorMap.None? {
        return Failure(NullPointer());
      }
      if !(0 <= builder.port <= 65535) {
        return Failure(IllegalArgument("port out of range:" + IntToString(builder.port)));
      }
      if bindFails {
        // the TTransportException is logged
        return Success(server);
      }
      var config := ServerConfigFor(builder.port, builder.processorMap.value, builder.thriftServerProperties, processors);
      if config.Failure? {
        return Failure(config.error);
      }
      server := Some(config.value);
      r := Success(server);
    }

    /** `start()`: with a server, submit it to the executor, then register
        every service. */
    method Start(root: string, clock: string -> Int64, net: NetworkScan, failing: set<string>) returns (r: Outcome<Throwable>)
      requires Valid()
      modifies this, registry, zk, builder.serverIpResolve
      ensures Valid()
      ensures server == old(server) && executorShutdown == old(executorShutdown)
      ensures server.None? ==>
        r == Pass && unchanged(this, zk, builder.serverIpResolve) && (registry != null ==> unchanged(registry))
      ensures server.Some? && executorShutdown ==>
        r == Fail(Rejected) && unchanged(this, zk, builder.serverIpResolve) && (registry != null ==> unchanged(registry))
      ensures server.Some? && !executorShutdown ==> tasks == old(tasks) + [Serve(builder.port)]
      ensures server.Some? && !executorShutdown && registry == null ==>
        && r == Pass && pathSet == old(pathSet) && unchanged(zk, builder.serverIpResolve)
        && watchHandlers == old(watchHandlers) && nextListener == old(nextListener)
      ensures server.Some? && !executorShutdown && registry != null && builder.processorMap.None? ==>
        && r == Fail(NullPointer()) && pathSet == old(pathSet) && unchanged(registry, zk, builder.serverIpResolve)
        && watchHandlers == old(watchHandlers) && nextListener == old(nextListener)
      ensures server.Some? && !executorShutdown && registry != null && builder.processorMap.Some? ==>
        && r == Pass
        && RegisteredAll(root, s => Payload(clock(s)), Resolve(old(builder.serverIpResolve.ipAddr), net), failing,
             builder.processorMap.value, old(pathSet), old(zk.znodes))
    {
      if server.None? {
        return Pass;
      }
      if executorShutdown {
        return Fail(Rejected);
      }
      tasks := tasks + [Serve(builder.port)];
      r := RegisterGuaranteed(root, clock, net, failing);
    }

    /** The watch listener `l` receives `e`: on `NODE_CHANGED` it registers
        its path again with the data it was made with; other events are
        ignored. */
    method HandleWatchEvent(l: ListenerId, e: MonitorEvent, fails: bool)
      requires Valid() && l in watchHandlers
      modifies zk
      ensures Valid()
      ensures registry != null
      ensures
        var h := watchHandlers[l];
        zk.znodes ==
          if e.kind == Some(NodeChanged) && !fails && h.path !in old(zk.znodes)
          then old(zk.znodes)[h.path := h.payload] else old(zk.znodes)
    {
      var h := watchHandlers[l];
      if e.kind == Some(NodeChanged) {
        var _ := registry.Register(h.path, h.payload, fails);
      }
    }

    /** Every watch listener hears about a change of the node it guards, with
        a `NODE_CHANGED` event. */
    lemma NodeChangeReachesHandler(l: ListenerId)
      requires Valid() && l in watchHandlers
      ensures registry != null && watchHandlers[l].path in registry.zNodeMap
      ensures var p := watchHandlers[l].path;
        (l, NodeChangeEvent(registry.CurrentData(p))) in registry.NodeChangeCalls(p)
    {
    }

    /** `stop()`: with a server, submit its stop (which throws once the
        executor is shut down); shut the executor down; then, with a
        registry, delete every registered node, empty `pathSet` and shut the
        registry down. */
    method Stop(failing: set<string>) returns (r: Outcome<Throwable>)
      requires Valid()
      modifies this, registry, zk
      ensures Valid()
      ensures r.Fail? <==> server.Some? && old(executorShutdown)
      ensures r.Fail? ==> r == Fail(Rejected) && unchanged(this, zk) && (registry != null ==> unchanged(registry))
      ensures server == old(server) && watchHandlers == old(watchHandlers)
      ensures r.Pass? ==>
        && executorShutdown
        && tasks == old(tasks) + (if server.Some? then [StopServer(builder.port)] else [])
      ensures r.Pass? && registry != null ==>
        && pathSet == {}
        && zk.znodes == old(zk.znodes) - (old(pathSet) - failing)
        && registry.shutdowns == old(registry.shutdowns) + 1
      ensures registry == null ==> pathSet == old(pathSet) && unchanged(zk)
      ensures nextListener == old(nextListener)
      ensures registry != null ==>
        && registry.zNodeMap == old(registry.zNodeMap) && registry.childNodeMap == old(registry.childNodeMap)
        && registry.zNodeListenerMap == old(registry.zNodeListenerMap)
        && registry.childrenListenerMap == old(registry.childrenListenerMap)
        && registry.curatorFactory == old(registry.curatorFactory)
        && registry.cachesCreated == old(registry.cachesCreated)
    {
      if server.Some? {
        if executorShutdown {
          return Fail(Rejected);
        }
        tasks := tasks + [StopServer(builder.port)];
      }
      executorShutdown := true;
      r := Pass;
      if registry != null {
        UnregisterAll(failing);
        registry.Shutdown();
      }
    }

    /** The loop of `stop()`: unregister every path of `pathSet` and remove it. */
    method UnregisterAll(failing: set<string>)
      requires registry != null && registry.zk == zk && registry.curatorFactory.Some?
      modifies this`pathSet, zk
      ensures pathSet == {}
      ensures zk.znodes == old(zk.znodes) - (old(pathSet) - failing)
    {
      var rest := pathSet;
      while rest != {}
        invariant rest <= old(pathSet) && pathSet == rest
        invariant zk.znodes == old(zk.znodes) - ((old(pathSet) - rest) - failing)
        decreases rest
      {
        var p :| p in rest;
        var _ := registry.Unregister(p, p in failing);
        pathSet := pathSet - {p};
        rest := rest - {p};
      }
    }
  }
}
