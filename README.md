# ThriftForSpringBoot, modelled in Dafny

ThriftForSpringBoot wires Apache Thrift services into Spring Boot and uses
ZooKeeper (through Curator) as a service registry. This project models the
following parts of it:

- **The server side.** `DefaultTServerFactory` and its `TServerBuilder` build a
  `TThreadedSelectorServer` from the builder and the server properties. For
  each served service they register one ephemeral node,
  `/ROOT/<service>/<ip>:<port>`. Each node is guarded by a watch that creates
  the node again when it changes. On `stop` the nodes are removed.
  `DefaultServerIpResolve` picks the address the server advertises.
- **The registry.** `ZkRegistry` and its inner `NodeCacheManager` keep one
  Curator node cache and one children cache per path, plus one adapter per
  listener. They translate Curator events into the system's `MonitorEvent`s.
- **The client side.**
  - `ZkServerExposeProvider` keeps the set of endpoints serving a service,
    driven by child events of the service path, and picks one of them at
    random.
  - `ThriftClientPoolFactory` opens, checks and closes pooled connections.
  - `ClientProxyFactory` derives the pool configuration and builds the proxy.
    Each proxy call borrows a client, invokes the method on it, and then
    gives the client back or discards it.

Files:

| file | module | what it holds |
|---|---|---|
| `wrappers.dfy` | `Wrappers` | `Option`, `Result`, `Outcome`, and Java throwables as values |
| `text.dfy` | `Text` | Java `int`/`long` ranges, `String.valueOf(int)`, `Integer.valueOf`, Guava's `Splitter`, commons-lang `substringAfterLast` |
| `registry.dfy` | `Registry` | event translation, the cache bookkeeping as map functions, the `ZooKeeper` node store, the `ZkRegistry` class |
| `provider.dfy` | `ExposeProvider` | address parsing, the address-set listener, the `ZkServerExposeProvider` class |
| `ip_resolve.dfy` | `IpResolve` | the address-selection specification and the `DefaultServerIpResolve` class |
| `server.dfy` | `Server` | the registration path, server configuration, `TServerBuilder`, `DefaultTServerFactory` |
| `pool_factory.dfy` | `PoolFactory` | transports, clients, and the `ThriftClientPoolFactory` class |
| `client_proxy.dfy` | `ClientProxy` | client properties, pool configuration, the pool bookkeeping, the `ClientProxyFactory` class |

Curator, ZooKeeper, commons-pool and Thrift are modelled as state:

- **ZooKeeper** is the map from the path of each node to its data.
- **A Curator cache** is a value: a serial number, which is its identity, and
  the set of adapters in its listener container.
- **A pool** is the set of idle, lent and discarded clients.
- **A transport** is an object with an open flag.

Inputs the environment supplies are parameters:

- the current time read for each service (`clock`);
- what `NetworkInterface.getNetworkInterfaces()` enumerates (`NetworkScan`);
- which node creations fail (`failing`, `fails`);
- whether a socket binds (`bindFails`);
- the number of processors;
- what the pool decides to lend (`choice`);
- what a remote call returns or throws (`outcome`);
- which classes the class loader finds (`loadable`).

`RpcConstants.ROOT` is a parameter, `root`.

## Model

| member | source | states |
|---|---|---|
| `Text.IntToString` | thrift.server/src/main/java/com/louis/thrift/server/DefaultTServerFactory.java:84 | `String.valueOf(int)` holds only digits and `-`, so it never contains `:` or `/` |
| `Text.ParseIntRoundTrip` | thrift.common/src/main/java/com/louis/thrift/provider/ZkServerExposeProvider.java:87 | `Integer.valueOf` of what `String.valueOf` printed gives back the same `int` |
| `Text.ParseIntAccepts` | thrift.common/src/main/java/com/louis/thrift/provider/ZkServerExposeProvider.java:87 | only an optional sign followed by decimal digits parses, a negative value needs the minus sign, and a plain digit string inside the `int` range parses to the number it denotes |
| `Text.Split` | thrift.common/src/main/java/com/louis/thrift/provider/ZkServerExposeProvider.java:84-85 | splitting gives at least one piece, exactly one when the separator is absent, and no piece contains the separator |
| `Text.SplitAfterPiece` | thrift.common/src/main/java/com/louis/thrift/provider/ZkServerExposeProvider.java:84-85 | a separator-free piece followed by the separator comes out as the first piece, and the rest is split on its own |
| `Text.SubstringAfterLast` | thrift.common/src/main/java/com/louis/thrift/provider/ZkServerExposeProvider.java:86 | the result is a separator-free suffix, preceded in the input by the separator; it is empty when the input has no separator |
| `Text.SubstringAfterLastOfSuffix` | thrift.common/src/main/java/com/louis/thrift/provider/ZkServerExposeProvider.java:86 | the text after a final separator-free piece is exactly that piece, whatever precedes it |
| `Registry.TranslateChildEvent` | thrift.common/src/main/java/com/louis/thrift/register/ZkRegistry.java:194-212 | an event is dropped exactly when its type is a connection or initialisation type; a forwarded event always has a non-null kind and carries the event's data; added, updated and removed map to the matching kinds |
| `Registry.PutIfAbsent` | thrift.common/src/main/java/com/louis/thrift/register/ZkRegistry.java:166-170 | `putIfAbsent` adds the key, keeps an existing value, and leaves the other entries alone |
| `Registry.AddNodeListener` | thrift.common/src/main/java/com/louis/thrift/register/ZkRegistry.java:163-181 | watching a path adds it to the cache map, reuses its cache (same serial) or makes a new one, adds the adapter to that cache's listeners, and leaves other paths alone |
| `Registry.AddChildListener` | thrift.common/src/main/java/com/louis/thrift/register/ZkRegistry.java:188-215 | as for node caches; a reused children cache keeps the start mode it was made with |
| `Registry.RemoveNodeListener` | thrift.common/src/main/java/com/louis/thrift/register/ZkRegistry.java:148-152 | unsubscribing removes only the adapter from the node cache of the path; no cache is dropped |
| `Registry.RemoveChildListener` | thrift.common/src/main/java/com/louis/thrift/register/ZkRegistry.java:149-155 | the same for the children cache, which keeps its serial and mode |
| `Registry.AddNodeListenerIsIdempotent` | thrift.common/src/main/java/com/louis/thrift/register/ZkRegistry.java:163-181 | watching the same path again with the same adapter changes nothing |
| `Registry.RemoveNodeListenerUndoesAdd` | thrift.common/src/main/java/com/louis/thrift/register/ZkRegistry.java:147-181 | unsubscribing undoes a subscription of a new adapter, except that a cache made on the way stays, with no listener |
| `Registry.RemoveChildListenerUndoesAdd` | thrift.common/src/main/java/com/louis/thrift/register/ZkRegistry.java:147-156 | the same for children caches |
| `Registry.ResubscribedAdapterKeepsFirstPath` | thrift.common/src/main/java/com/louis/thrift/register/ZkRegistry.java:169-180 | a listener watched on a second path reuses the adapter made for the first path, so changes of the second path are reported with the first path's data |
| `Registry.ZooKeeper.constructor` | thrift.common/src/main/java/com/louis/thrift/register/ZkRegistry.java:75-79 | the coordination service starts with no nodes, so a node exists only once something registered it |
| `Registry.ZkRegistry.Build` | thrift.common/src/main/java/com/louis/thrift/register/ZkRegistry.java:57-63 | a new registry has no curator factory, no caches and no adapters |
| `Registry.ZkRegistry.SetCuratorFactory` | thrift.common/src/main/java/com/louis/thrift/register/ZkRegistry.java:65-72 | the factory is stored even when null, and a null factory then throws `NullPointerException`; nothing else changes |
| `Registry.ZkRegistry.Register` | thrift.common/src/main/java/com/louis/thrift/register/ZkRegistry.java:75-86 | a null curator factory fails the `Assert.notNull` check; otherwise the node is created unless it exists or creation fails, and failures are swallowed |
| `Registry.ZkRegistry.Unregister` | thrift.common/src/main/java/com/louis/thrift/register/ZkRegistry.java:89-96 | a null factory fails the `Assert.notNull` check; otherwise the node is gone unless deletion fails |
| `Registry.ZkRegistry.WatchNodeCache` | thrift.common/src/main/java/com/louis/thrift/register/ZkRegistry.java:163-181 | fails with `NullPointerException` and changes nothing exactly when the path has no cache and the factory is null; otherwise the adapter map gets the listener's adapter if it had none, and that adapter is attached to the path's (possibly new) cache |
| `Registry.ZkRegistry.WatchPathChildrenCache` | thrift.common/src/main/java/com/louis/thrift/register/ZkRegistry.java:188-215 | the same for the children cache, made with the given start mode |
| `Registry.ZkRegistry.Subscribe` | thrift.common/src/main/java/com/louis/thrift/register/ZkRegistry.java:142-145 | fails with `NullPointerException` and changes nothing exactly when the path has no caches and the factory is null; otherwise the listener keeps or gets both adapters, both are attached to the caches of the path, and a new path gets exactly two new caches, the children cache made with the given start mode; keeps the registry invariant (both cache maps have the same paths, and adapters belong to their listener) |
| `Registry.ZkRegistry.Watch` | thrift.common/src/main/java/com/louis/thrift/register/ZkRegistry.java:99-101 | the same outcome and state as `subscribe` with `BUILD_INITIAL_CACHE`: both adapters attached, both caches present, a new children cache made with that mode, and the cache count advanced by two for a new path |
| `Registry.ZkRegistry.UnSubscribe` | thrift.common/src/main/java/com/louis/thrift/register/ZkRegistry.java:147-156 | the listener's adapters leave the caches of the path; no cache and no adapter mapping is forgotten |
| `Registry.ZkRegistry.Shutdown` | thrift.common/src/main/java/com/louis/thrift/register/ZkRegistry.java:114-124 | the curator factory is shut down once when present, and nothing happens otherwise |
| `Registry.ZkRegistry.NodeChangeCalls` | thrift.common/src/main/java/com/louis/thrift/register/ZkRegistry.java:170-180 | a change of a node reaches exactly the listeners whose adapters are attached to its cache, each with `NODE_CHANGED` and the current data of the path its adapter was made for, or a null pair exactly when that node does not exist |
| `Registry.ZkRegistry.ChildEventCalls` | thrift.common/src/main/java/com/louis/thrift/register/ZkRegistry.java:194-214 | ignored types reach nobody; otherwise the translated event, with a non-null kind and the event's data, reaches every attached listener and no other |
| `ExposeProvider.GetAddress` | thrift.common/src/main/java/com/louis/thrift/provider/ZkServerExposeProvider.java:83-89 | a key without `:` throws; a parsed endpoint has a port in 0..65535 and a host with no `:` or `/` |
| `ExposeProvider.GetAddressRejectsNonIntegerPort` | thrift.common/src/main/java/com/louis/thrift/provider/ZkServerExposeProvider.java:84-87 | a port piece that `Integer.valueOf` refuses makes the key unparsable, whatever follows it |
| `ExposeProvider.ApplyEvent` | thrift.common/src/main/java/com/louis/thrift/provider/ZkServerExposeProvider.java:54-71 | add or update inserts the parsed endpoint; remove drops it; an unparsable path or another kind leaves the set as it was |
| `ExposeProvider.MembershipAfterEvents` | thrift.common/src/main/java/com/louis/thrift/provider/ZkServerExposeProvider.java:54-71 | after any event sequence an endpoint is known exactly when the last event naming it added or updated it, or, if none names it, when it was known before |
| `ExposeProvider.OnChildEvent` | thrift.common/src/main/java/com/louis/thrift/provider/ZkServerExposeProvider.java:54-71 | a raw Curator child event, through the registry adapter and the provider listener: ignored types change nothing, added or updated inserts the endpoint, removed drops it |
| `ExposeProvider.ZkServerExposeProvider.Build` | thrift.common/src/main/java/com/louis/thrift/provider/ZkServerExposeProvider.java:52-76 | a new provider has no service and no endpoints |
| `ExposeProvider.ZkServerExposeProvider.Service` | thrift.common/src/main/java/com/louis/thrift/provider/ZkServerExposeProvider.java:78-81 | sets the service name and keeps the endpoints |
| `ExposeProvider.ZkServerExposeProvider.Changed` | thrift.common/src/main/java/com/louis/thrift/provider/ZkServerExposeProvider.java:54-71 | the listener's effect on the endpoint set is `ApplyEvent` |
| `ExposeProvider.ZkServerExposeProvider.GetServerAddressList` | thrift.common/src/main/java/com/louis/thrift/provider/ZkServerExposeProvider.java:103-106 | the list holds every known endpoint exactly once, and nothing else |
| `ExposeProvider.ZkServerExposeProvider.Select` | thrift.common/src/main/java/com/louis/thrift/provider/ZkServerExposeProvider.java:108-135 | an empty set throws `IllegalArgumentException("bound must be positive")`; otherwise the result is one of the known endpoints |
| `ExposeProvider.ZkServerExposeProvider.BuildPathChildrenCache` | thrift.common/src/main/java/com/louis/thrift/provider/ZkServerExposeProvider.java:91-95 | a null service fails `Assert.notNull` and changes nothing; otherwise it is a `subscribe` of the service path with `POST_INITIALIZED_EVENT`: the same failure condition, and on success the node-cache and children-cache adapters attached, new caches for a new path, and the curator factory and shutdown count untouched |
| `ExposeProvider.ZkServerExposeProvider.Close` | thrift.common/src/main/java/com/louis/thrift/provider/ZkServerExposeProvider.java:114-118 | the listener's adapters are removed from the caches of the service path (`RemoveNodeListener`, `RemoveChildListener`); no cache, adapter, factory or cache count is lost; the registry is shut down |
| `IpResolve.HostAddress` | thrift.server/src/main/java/com/louis/thrift/server/DefaultServerIpResolve.java:53 | a dotted-decimal address contains no `:` and no `/` |
| `IpResolve.LastQualifyingNone` | thrift.server/src/main/java/com/louis/thrift/server/DefaultServerIpResolve.java:43-58 | the scan chooses nothing exactly when no address is IPv4, site-local and not loopback |
| `IpResolve.LastQualifyingSome` | thrift.server/src/main/java/com/louis/thrift/server/DefaultServerIpResolve.java:43-58 | a chosen address is a qualifying one with no qualifying address after it, because the loop does not stop at the first match |
| `IpResolve.LastQualifyingSnoc` | thrift.server/src/main/java/com/louis/thrift/server/DefaultServerIpResolve.java:47-57 | each qualifying address met overwrites the choice |
| `IpResolve.ResolveIsStable` | thrift.server/src/main/java/com/louis/thrift/server/DefaultServerIpResolve.java:38 | once an address is cached, asking again returns it whatever a new scan of the interfaces would find |
| `IpResolve.ResolvedIsSiteLocalIPv4` | thrift.server/src/main/java/com/louis/thrift/server/DefaultServerIpResolve.java:49-53 | an IPv6, loopback or public address is never chosen |
| `IpResolve.DefaultServerIpResolve.constructor` | thrift.server/src/main/java/com/louis/thrift/server/DefaultServerIpResolve.java:34 | a new resolver has nothing cached |
| `IpResolve.DefaultServerIpResolve.GetServerIp` | thrift.server/src/main/java/com/louis/thrift/server/DefaultServerIpResolve.java:37-64 | the nested loops return and cache exactly `Resolve` of the old cache and the scan |
| `IpResolve.DefaultServerIpResolve.Reset` | thrift.server/src/main/java/com/louis/thrift/server/DefaultServerIpResolve.java:67-69 | the cache is cleared |
| `Server.RegistrationPathRoundTrip` | thrift.server/src/main/java/com/louis/thrift/server/DefaultTServerFactory.java:84 | the client's `getAddress` reads back the address and port the server wrote into its path |
| `Server.RegistrationUnderServicePath` | thrift.server/src/main/java/com/louis/thrift/server/DefaultTServerFactory.java:84 | the node a server registers for a service lies under the service path the client subscribes to, as a direct child when the address holds no `/` |
| `Server.ResolvedRegistrationParses` | thrift.server/src/main/java/com/louis/thrift/server/DefaultTServerFactory.java:84 | with a freshly resolved address, the path parses back to that address, or to the host `null` when none qualifies |
| `Server.OutOfRangePortIsRejected` | thrift.server/src/main/java/com/louis/thrift/server/DefaultTServerFactory.java:84 | a path written with a port outside 0..65535 is rejected by the client |
| `Server.PayloadDecodes` | thrift.server/src/main/java/com/louis/thrift/server/DefaultTServerFactory.java:85 | the node data is ASCII and reads back as the decimal text of the time read: its digits, after a minus sign for a time before the epoch |
| `Server.ServerConfigFor` | thrift.server/src/main/java/com/louis/thrift/server/DefaultTServerFactory.java:111-132 | a worker count of 0 gives a cached pool, and a positive count a fixed pool of that size; no properties give compact on one thread per processor; the protocol is `PROFACT[protocol]`, and an index outside it throws; the selector count and queue size are passed through (2 and 4 without properties), and the server constructor rejects a non-positive selector count, then a non-positive queue size, with `IllegalArgumentException` |
| `Server.NoPropertiesActAsDefaults` | thrift.server/src/main/java/com/louis/thrift/server/DefaultTServerFactory.java:111-125 | for every port, service set and processor count, a server without properties is configured as one with the default properties (compact, cached pool, two selectors, a queue of four) except that it gets one worker per processor |
| `Server.TServerBuilder.Custom` | thrift.server/src/main/java/com/louis/thrift/server/DefaultTServerFactory.java:174-184 | the builder starts on port 8080 with an empty processor map and no curator factory |
| `Server.TServerBuilder.ProcessorMap` | thrift.server/src/main/java/com/louis/thrift/server/DefaultTServerFactory.java:186-189 | replaces the map, even with null |
| `Server.TServerBuilder.Port` | thrift.server/src/main/java/com/louis/thrift/server/DefaultTServerFactory.java:191-196 | a null port keeps the previous one |
| `Server.TServerBuilder.CuratorFactory` | thrift.server/src/main/java/com/louis/thrift/server/DefaultTServerFactory.java:198-203 | a null factory keeps the previous one |
| `Server.TServerBuilder.ThriftServerProperties` | thrift.server/src/main/java/com/louis/thrift/server/DefaultTServerFactory.java:205-208 | replaces the properties, even with null |
| `Server.PathMap` | thrift.server/src/main/java/com/louis/thrift/server/DefaultTServerFactory.java:83-84 | one registration path per served service |
| `Server.RegistrationPathInjective` | thrift.server/src/main/java/com/louis/thrift/server/DefaultTServerFactory.java:84 | different services get different paths under the same address and port |
| `Server.PathMapStep` | thrift.server/src/main/java/com/louis/thrift/server/DefaultTServerFactory.java:83-96 | one more service adds its own path, which no other service has |
| `Server.NodesAfterStep` | thrift.server/src/main/java/com/louis/thrift/server/DefaultTServerFactory.java:85-86 | creating one more node keeps the description of the nodes: new nodes hold their service's data, and existing nodes keep theirs |
| `Server.GuardsStep` | thrift.server/src/main/java/com/louis/thrift/server/DefaultTServerFactory.java:87-95 | one more watch keeps every path guarded by a watch holding its data |
| `Server.RegisteredStep` | thrift.server/src/main/java/com/louis/thrift/server/DefaultTServerFactory.java:83-97 | one loop turn extends the registration of the services done so far to one more service |
| `Server.AllAttachedStep` | thrift.server/src/main/java/com/louis/thrift/server/DefaultTServerFactory.java:87 | watching with a new listener keeps every watch listener attached to the node cache of its path |
| `Server.DefaultTServerFactory.Build` | thrift.server/src/main/java/com/louis/thrift/server/DefaultTServerFactory.java:59-63 | a registry exists exactly when the builder has a curator factory |
| `Server.DefaultTServerFactory.RegisterPath` | thrift.server/src/main/java/com/louis/thrift/server/DefaultTServerFactory.java:86-96 | the node is created unless it exists or creation fails, a new watch listener guards it, and the path is remembered |
| `Server.DefaultTServerFactory.WatchPath` | thrift.server/src/main/java/com/louis/thrift/server/DefaultTServerFactory.java:87-96 | the new listener is attached and remembered; keeps the factory invariant |
| `Server.DefaultTServerFactory.RegisterGuaranteed` | thrift.server/src/main/java/com/louis/thrift/server/DefaultTServerFactory.java:81-99 | without a registry nothing changes, neither the factory nor the nodes nor the resolver; a null processor map throws and changes nothing; otherwise every service's path is in `pathSet`, its node exists with that service's time unless creation failed, a pre-existing node keeps its data, and a watch guards it |
| `Server.DefaultTServerFactory.RegisterServices` | thrift.server/src/main/java/com/louis/thrift/server/DefaultTServerFactory.java:83-97 | the loop registers every service under the one address the resolver gives, and that address is then cached; with no services the resolver is untouched |
| `Server.DefaultTServerFactory.RegisterService` | thrift.server/src/main/java/com/louis/thrift/server/DefaultTServerFactory.java:84-96 | one loop turn: resolve the address, which stays the same, and register, watch and remember one path |
| `Server.DefaultTServerFactory.Create` | thrift.server/src/main/java/com/louis/thrift/server/DefaultTServerFactory.java:102-139 | a null map throws; a bad port throws; a bind failure is logged and the previous server returned; otherwise the server of `ServerConfigFor` is kept, or its exception thrown |
| `Server.DefaultTServerFactory.Start` | thrift.server/src/main/java/com/louis/thrift/server/DefaultTServerFactory.java:142-150 | without a server nothing changes, the nodes included; with a server, serving is submitted before registration; submitting after shutdown throws and changes nothing, the nodes included; without a registry only the serve task is added; with a null processor map it throws NPE and leaves nodes, registry, resolver and watch handlers as they were |
| `Server.DefaultTServerFactory.HandleWatchEvent` | thrift.server/src/main/java/com/louis/thrift/server/DefaultTServerFactory.java:87-95 | on `NODE_CHANGED` the node is registered again with its original data; other events are ignored |
| `Server.DefaultTServerFactory.NodeChangeReachesHandler` | thrift.server/src/main/java/com/louis/thrift/server/DefaultTServerFactory.java:87-95 | every watch listener hears a `NODE_CHANGED` event when the node it guards changes |
| `Server.DefaultTServerFactory.Stop` | thrift.server/src/main/java/com/louis/thrift/server/DefaultTServerFactory.java:153-172 | a second stop with a server throws `RejectedExecutionException` and changes nothing, the nodes included; otherwise the executor is shut down, every remembered node is deleted unless deletion fails, `pathSet` is emptied and the registry shut down, its caches, adapter maps and factory kept; without a registry no node changes |
| `Server.DefaultTServerFactory.UnregisterAll` | thrift.server/src/main/java/com/louis/thrift/server/DefaultTServerFactory.java:162-166 | every remembered path is unregistered and removed |
| `PoolFactory.Transport.constructor` | thrift.client/src/main/java/com/louis/thrift/client/ThriftClientPoolFactory.java:64-65 | a new framed socket transport is bound to its endpoint and not yet open |
| `PoolFactory.ThriftClient.constructor` | thrift.client/src/main/java/com/louis/thrift/client/ThriftClientPoolFactory.java:66-67 | the generated client uses one protocol, and so one transport, for input and output |
| `PoolFactory.ThriftClientPoolFactory.constructor` | thrift.client/src/main/java/com/louis/thrift/client/ThriftClientPoolFactory.java:48-56 | the factory keeps the provider's service and whether a callback was given (none with the two-argument constructor) |
| `PoolFactory.ThriftClientPoolFactory.Create` | thrift.client/src/main/java/com/louis/thrift/client/ThriftClientPoolFactory.java:59-73 | a null selection throws "No provider available" before any transport exists; otherwise one new framed transport to the selected endpoint serves both protocols, multiplexed under the provider's service; it is open, and only after the open does the create callback run, when one is set |
| `PoolFactory.ThriftClientPoolFactory.DestroyObject` | thrift.client/src/main/java/com/louis/thrift/client/ThriftClientPoolFactory.java:81-91 | the destroy callback runs first, then the input and then the output transport are closed, so the client no longer validates |
| `PoolFactory.CreateThenDestroy` | thrift.client/src/main/java/com/louis/thrift/client/ThriftClientPoolFactory.java:59-101 | a created client validates until it is destroyed, and the trace is open, create callback, destroy callback, close, close |
| `ClientProxy.PoolConfigFor` | thrift.client/src/main/java/com/louis/thrift/client/ClientProxyFactory.java:79-83 | the pool limits are copied from the properties, and the eviction interval is exactly twice the idle time (computed as `long`, no overflow) |
| `ClientProxy.IfaceClassName` | thrift.client/src/main/java/com/louis/thrift/client/ClientProxyFactory.java:73 | the interface name is the service name followed by `$Iface` |
| `ClientProxy.ClientFactoryClassName` | thrift.client/src/main/java/com/louis/thrift/client/ClientProxyFactory.java:75 | the client factory name is the service name followed by `$Client$Factory` |
| `ClientProxy.GeneratedClassNames` | thrift.client/src/main/java/com/louis/thrift/client/ClientProxyFactory.java:73-75 | the two names never coincide, and each determines the service text |
| `ClientProxy.CallTrace` | thrift.client/src/main/java/com/louis/thrift/client/ClientProxyFactory.java:86-103 | a failed borrow touches nothing else; otherwise exactly one borrow, then exactly one of return or invalidate, invalidate exactly when the invocation threw (`Method.invoke` wraps every throwable of the target, an `Error` included, in an `Exception`) |
| `ClientProxy.CallResult` | thrift.client/src/main/java/com/louis/thrift/client/ClientProxyFactory.java:86-96 | the call returns or rethrows the invocation's own result or throwable, or the borrow's exception |
| `ClientProxy.ApplyAllAppend` | thrift.client/src/main/java/com/louis/thrift/client/ClientProxyFactory.java:86-103 | pool operations compose: applying two runs is applying one after the other |
| `ClientProxy.CallsLeaveNothingLent` | thrift.client/src/main/java/com/louis/thrift/client/ClientProxyFactory.java:86-103 | after any sequence of proxied calls no extra client stays lent, and exactly the clients of calls whose invocation threw are discarded |
| `ClientProxy.ObjectPool.constructor` | thrift.client/src/main/java/com/louis/thrift/client/ClientProxyFactory.java:84 | a new pool has the given connection factory and configuration, and lends nothing |
| `ClientProxy.ObjectPool.BorrowObject` | thrift.client/src/main/java/com/louis/thrift/client/ClientProxyFactory.java:86 | a lent client moves from idle to lent and is logged as a borrow; a failed borrow changes nothing |
| `ClientProxy.ObjectPool.ReturnObject` | thrift.client/src/main/java/com/louis/thrift/client/ClientProxyFactory.java:99 | a returned client moves from lent to idle and is logged as a return |
| `ClientProxy.ObjectPool.InvalidateObject` | thrift.client/src/main/java/com/louis/thrift/client/ClientProxyFactory.java:101 | an invalidated client moves from lent to discarded and is logged as an invalidation |
| `ClientProxy.ObjectPool.Close` | thrift.client/src/main/java/com/louis/thrift/client/ClientProxyFactory.java:123-125 | the pool is closed |
| `ClientProxy.ClientProxyFactory.Create` | thrift.client/src/main/java/com/louis/thrift/client/ClientProxyFactory.java:48-59 | a new factory has the properties, and no provider, pool or interface yet |
| `ClientProxy.ClientProxyFactory.ServerExposeProvider` | thrift.client/src/main/java/com/louis/thrift/client/ClientProxyFactory.java:61-64 | sets the provider |
| `ClientProxy.ClientProxyFactory.Configure` | thrift.client/src/main/java/com/louis/thrift/client/ClientProxyFactory.java:70-84 | a null provider throws; a missing interface or client factory class throws `ClassNotFoundException`; otherwise a new, empty pool is built with `PoolConfigFor` of the properties, over a new connection factory for the provider's service with no callback |
| `ClientProxy.ClientProxyFactory.Invoke` | thrift.client/src/main/java/com/louis/thrift/client/ClientProxyFactory.java:85-104 | the pool is asked for exactly the operations of `CallTrace`, in that order and nothing else, its bookkeeping moves accordingly, and the handler's answer is `CallResult` |
| `ClientProxy.ClientProxyFactory.Close` | thrift.client/src/main/java/com/louis/thrift/client/ClientProxyFactory.java:121-129 | the pool, if built, is closed and its bookkeeping and operations are untouched; the provider, if set, removes its listener's adapters from the service path's caches, keeps every other cache, adapter and the factory, and shuts its registry down |

## Left out

- Network and ZooKeeper I/O are not modelled. Node creation and deletion
  failures, socket binding and transport opening are inputs. The Curator
  client start for a `LATENT` client
  (`ZkRegistry.java:68-70`) is not modelled.
- Concurrency is not modelled: concurrent maps, copy-on-write sets, Curator
  callback threads, the executor's threads and JVM shutdown hooks. Calls and
  events are applied one at a time.
- The Thrift engine is not modelled: serving, the wire protocols and the
  framed transport's bytes. A server configuration and a transport with an
  open flag stand for them.
- Reflection is not modelled. Class loading is an input set.
- `ClientProxy.CallResult`: the handler rethrows the throwable of the
  invocation itself. In Java, `Method.invoke` wraps it in an
  `InvocationTargetException`, and the JDK proxy may wrap that again in an
  `UndeclaredThrowableException`; the model leaves both wrappings out.
- DNS is not modelled. `InetSocketAddress` is a host-and-port pair, and
  `NetworkInterface` enumeration is an input.
- Randomness is not modelled. `select` returns some member of the snapshot,
  not a particular index.
- Logging is not modelled.
- `GenericObjectPool` internals are not modelled: blocking, timeouts, the
  eviction sweeper, `maxIdle` trimming on return, and the destruction of idle
  clients on `close`. The pool is only idle, lent and discarded sets, and
  what it lends is an input.
- The pool-operation callbacks are user code and are modelled as not
  throwing.
- `RpcConstants.ROOT` is not part of this model. It is the parameter `root`.
- `ExposeProvider.ZkServerExposeProvider.Close`: a listener with no adapter
  in the registry's maps leaves the caches as they are, as for
  `Registry.ZkRegistry.UnSubscribe`.
- `PoolFactory.ThriftClientPoolFactory.Create`: the selection is an input.
  `ZkServerExposeProvider.select` never yields null (it throws on an empty
  set), so with that provider the "No provider available" branch is
  reachable only through another `ServerExposeProvider`.
- `Registry.ZkRegistry.UnSubscribe`: Curator's `removeListener(null)` is
  treated as a no-op, for a listener that never subscribed.
- `Server.DefaultTServerFactory.Stop`: `stop` is not idempotent, and no
  property claims it is. A second call with a server submits to an executor
  that is already shut down.
- `ClientProxy.ClientProxyFactory.Close`: the pool-then-provider order is
  not stated. The model's pool and provider share no state, so either order
  reaches the same final state.
- `Registry.ZkRegistry.Register`: `creatingParentsIfNeeded()` also creates
  the missing parent nodes, as persistent nodes. The model's node map holds
  only the registered nodes, not their parents.
- `Registry.ZkRegistry.Unregister`: `guaranteed()` makes Curator retry a
  failed delete in the background until it succeeds. The model shows the
  state when the call returns, where a failed delete leaves the node.
- `Text.ParseInt`: only ASCII digits are accepted. `Integer.valueOf` also
  accepts the other Unicode decimal digits (fullwidth digits, for
  example), which the model rejects as `PortNotInteger`.
- `Server.DefaultTServerFactory.RegisterServices`: the interfaces are one
  input for the whole loop. In Java, while no address is cached, every
  `getServerIp()` call of the loop scans the live interfaces again, and a
  scan that changed between services could register some services under
  "null" and the rest under the new address. The model takes the interfaces
  as unchanged during the loop, which is what makes every service register
  under one address.
