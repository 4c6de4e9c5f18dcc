/** `ZkServerExposeProvider`: the client's cache of the endpoints that serve
    one service. Registry child events add and remove endpoints, parsed from
    the path of the child node; `select` picks one endpoint of a snapshot. */
module ExposeProvider {
  import opened Wrappers
  import opened Text
  import opened Registry

  /** An `InetSocketAddress`, compared by host name and port. */
  datatype Endpoint = Endpoint(host: string, port: int)

  /** Why `getAddress` throws: no second piece after splitting on ":"
      (`IndexOutOfBoundsException`), a port piece that is not an `int`
      (`NumberFormatException`), or a port outside 0..65535, which the
      `InetSocketAddress` constructor rejects (`IllegalArgumentException`). */
  datatype AddressError = NoPortPiece | PortNotInteger | PortOutOfRange

  /** `getAddress(key)`: the host is what follows the last "/" of the text
      before the first ":", the port is the text between the first and the
      second ":". */
  function GetAddress(key: string): (r: Result<Endpoint, AddressError>)
    ensures ':' !in key ==> r == Failure(NoPortPiece)
    ensures r.Success? ==> 0 <= r.value.port <= 65535
    ensures r.Success? ==> ':' !in r.value.host && '/' !in r.value.host
  {
    var parts := Split(key, ':');
    if |parts| < 2 then Failure(NoPortPiece)
    else
      match ParseInt(parts[1])
      case None => Failure(PortNotInteger)
      case Some(port) =>
        if 0 <= port <= 65535 then Success(Endpoint(SubstringAfterLast(parts[0], '/'), port))
        else Failure(PortOutOfRange)
  }

  /** A key whose port piece is not an `int` is rejected, whatever follows
      the port piece. */
  lemma GetAddressRejectsNonIntegerPort(prefix: string, port: string, rest: string)
    requires ':' !in prefix && ':' !in port
    requires rest == [] || rest[0] == ':'
    requires ParseInt(port) == None
    ensures GetAddress(prefix + ":" + port + rest) == Failure(PortNotInteger)
  {
    assert prefix + ":" + port + rest == prefix + [':'] + (port + rest);
    SplitAfterPiece(prefix, ':', port + rest);
    SplitFirstPiece(port, ':', rest);
  }

  /** `"/" + ROOT + "/" + service`, the registry path of a service. */
  function ServicePath(root: string, service: Option<string>): string
  {
    "/" + root + "/" + FormatArg(service)
  }

  /** The endpoint an event is about, when its path parses. */
  function EventEndpoint(e: MonitorEvent): Option<Endpoint>
  {
    if e.data.Some? && GetAddress(e.data.value.path).Success?
    then Some(GetAddress(e.data.value.path).value)
    else None
  }

  predicate IsAddOrUpdate(e: MonitorEvent)
  {
    e.kind == Some(ChildAdded) || e.kind == Some(ChildUpdated)
  }

  predicate SameHostAndPort(a: Endpoint, b: Endpoint)
  {
    a.host == b.host && a.port == b.port
  }

  /** The listener's effect on the address set. Add and update insert the
      parsed endpoint; remove drops every member with the same host and port;
      an event whose path does not parse throws inside the listener, which
      Curator logs, so the set stays as it was; other kinds are ignored. */
  function ApplyEvent(addresses: set<Endpoint>, e: MonitorEvent): (r: set<Endpoint>)
    ensures IsAddOrUpdate(e) && EventEndpoint(e).Some? ==> r == addresses + {EventEndpoint(e).value}
    ensures e.kind == Some(ChildRemoved) && EventEndpoint(e).Some? ==> r == addresses - {EventEndpoint(e).value}
    ensures EventEndpoint(e).None? ==> r == addresses
    ensures e.kind !in {Some(ChildAdded), Some(ChildUpdated), Some(ChildRemoved)} ==> r == addresses
  {
    match EventEndpoint(e)
    case None => addresses
    case Some(ep) =>
      if IsAddOrUpdate(e) then addresses + {ep}
      else if e.kind == Some(ChildRemoved) then set x | x in addresses && !SameHostAndPort(x, ep)
      else addresses
  }

  /** Events applied one at a time, in delivery order. */
  function ApplyEvents(addresses: set<Endpoint>, events: seq<MonitorEvent>): set<Endpoint>
  {
    if events == [] then addresses
    else ApplyEvent(ApplyEvents(addresses, events[..|events| - 1]), events[|events| - 1])
  }

  /** What the latest event about `x` said: `Some(true)` for an add or update,
      `Some(false)` for a remove, `None` when no event names `x`. */
  function LastWordOn(events: seq<MonitorEvent>, x: Endpoint): Option<bool>
  {
    if events == [] then None
    else
      var e := events[|events| - 1];
      if EventEndpoint(e) == Some(x) && IsAddOrUpdate(e) then Some(true)
      else if EventEndpoint(e) == Some(x) && e.kind == Some(ChildRemoved) then Some(false)
      else LastWordOn(events[..|events| - 1], x)
  }

  /** After any sequence of events an endpoint is known exactly when the last
      event that names it was an add or update, or, when no event names it,
      when it was known before. */
  lemma {:induction false} MembershipAfterEvents(addresses: set<Endpoint>, events: seq<MonitorEvent>, x: Endpoint)
    ensures x in ApplyEvents(addresses, events) <==>
      match LastWordOn(events, x)
      case Some(added) => added
      case None => x in addresses
  {
    if events != [] {
      MembershipAfterEvents(addresses, events[..|events| - 1], x);
    }
  }

  /** The composed effect of one raw Curator child event on the address set:
      connection and initialisation events never reach the listener. */
  function OnChildEvent(addresses: set<Endpoint>, t: ChildEventType, data: NodeData): (r: set<Endpoint>)
    ensures t in IgnoreTypes ==> r == addresses
    ensures (t == Added || t == Updated) && GetAddress(data.path).Success? ==>
      r == addresses + {GetAddress(data.path).value}
    ensures t == Removed && GetAddress(data.path).Success? ==>
      r == addresses - {GetAddress(data.path).value}
    ensures GetAddress(data.path).Failure? ==> r == addresses
  {
    match TranslateChildEvent(t, data)
    case None => addresses
    case Some(e) => ApplyEvent(addresses, e)
  }

  class ZkServerExposeProvider {
    const registry: ZkRegistry
    /** The listener this provider subscribes with. */
    const listener: ListenerId
    var service: Option<string>
    var addresses: set<Endpoint>

    /** `ZkServerExposeProvider.build(registry)`. */
    constructor Build(registry: ZkRegistry, listener: ListenerId)
      ensures this.registry == registry && this.listener == listener
      ensures service == None && addresses == {}
    {
      this.registry := registry;
      this.listener := listener;
      service := None;
      addresses := {};
    }

    /** `service(name)`. */
    method Service(name: Option<string>)
      modifies this
      ensures service == name && addresses == old(addresses)
    {
      service := name;
    }

    /** The listener: apply one delivered event to the address set. */
    method Changed(e: MonitorEvent)
      modifies this`addresses
      ensures addresses == ApplyEvent(old(addresses), e)
    {
      if e.kind == Some(ChildAdded) || e.kind == Some(ChildUpdated) {
        if e.data.Some? {
          var address := GetAddress(e.data.value.path);
          if address.Success? {
            addresses := addresses + {address.value};
          }
        }
      } else if e.kind == Some(ChildRemoved) {
        if addresses != {} && e.data.Some? {
          var address := GetAddress(e.data.value.path);
          if address.Success? {
            var ep := address.value;
            addresses := set x | x in addresses && !SameHostAndPort(x, ep);
          }
        }
      }
    }

    /** `getServerAddressList()`: a new list holding each known endpoint once. */
    method GetServerAddressList() returns (list: seq<Endpoint>)
      ensures |list| == |addresses|
      ensures forall i | 0 <= i < |list| :: list[i] in addresses
      ensures forall x | x in addresses :: x in list
      ensures forall i, j | 0 <= i < j < |list| :: list[i] != list[j]
    {
      list := [];
      var rest := addresses;
      while rest != {}
        invariant rest <= addresses
        invariant forall i | 0 <= i < |list| :: list[i] in addresses && list[i] !in rest
        invariant forall x | x in addresses && x !in rest :: x in list
        invariant forall i, j | 0 <= i < j < |list| :: list[i] != list[j]
        invariant |list| + |rest| == |addresses|
        decreases rest
      {
        var x :| x in rest;
        list := list + [x];
        rest := rest - {x};
      }
    }

    /** `select()`: `RandomPolicy` copies the set, then picks one position of
        the copy; on an empty copy `nextInt(0)` throws. */
    method Select() returns (r: Result<Endpoint, Throwable>)
      ensures r.Failure? <==> addresses == {}
      ensures r.Failure? ==> r.error == IllegalArgument("bound must be positive")
      ensures r.Success? ==> r.value in addresses
    {
      var list := GetServerAddressList();
      if |list| == 0 {
        return Failure(IllegalArgument("bound must be positive"));
      }
      var pos :| 0 <= pos < |list|;
      r := Success(list[pos]);
    }

    /** `buildPathChildrenCache()`: subscribe to the service path, which
        watches the node and its children; a new children cache posts an
        initialised event. */
    method BuildPathChildrenCache(root: string) returns (r: Outcome<Throwable>)
      requires registry.Valid()
      modifies registry
      ensures registry.Valid()
      ensures service.None? ==> r == Fail(IllegalArgument("service must not be null")) && unchanged(registry)
      ensures service.Some? ==>
        var path := ServicePath(root, service);
        && (r.Fail? <==> path !in old(registry.zNodeMap) && registry.curatorFactory.None?)
        && (r.Fail? ==> r.error == NullPointer() && unchanged(registry))
        && (r.Pass? ==>
              && registry.SubscribedFrom(old(registry.zNodeMap), old(registry.childNodeMap),
                   old(registry.zNodeListenerMap), old(registry.childrenListenerMap), old(registry.cachesCreated),
                   path, PostInitializedEvent, listener)
              && path in registry.childNodeMap
              && ChildAdapter(listener) in registry.childNodeMap[path].listeners
              && (path !in old(registry.childNodeMap) ==> registry.childNodeMap[path].mode == PostInitializedEvent))
      ensures registry.curatorFactory == old(registry.curatorFactory) && registry.shutdowns == old(registry.shutdowns)
    {
      if service.None? {
        return Fail(IllegalArgument("service must not be null"));
      }
      r := registry.Subscribe(ServicePath(root, service), PostInitializedEvent, listener);
    }

    /** `close()`: unsubscribe from the same service path, then shut the
        registry down; the caches stay. */
    method Close(root: string)
      requires registry.Valid()
      modifies registry
      ensures registry.Valid()
      ensures
        var path := ServicePath(root, service);
        && (path in registry.childNodeMap && listener in registry.childrenListenerMap ==>
              ChildAdapter(listener) !in registry.childNodeMap[path].listeners)
        && (path in registry.zNodeMap && listener in registry.zNodeListenerMap ==>
              registry.zNodeListenerMap[listener] !in registry.zNodeMap[path].listeners)
      ensures registry.zNodeMap.Keys == old(registry.zNodeMap).Keys
      ensures registry.childNodeMap.Keys == old(registry.childNodeMap).Keys
      ensures
        var path := ServicePath(root, service);
        && registry.zNodeMap ==
             (if listener in old(registry.zNodeListenerMap)
              then RemoveNodeListener(old(registry.zNodeMap), path, old(registry.zNodeListenerMap)[listener])
              else old(registry.zNodeMap))
        && registry.childNodeMap ==
             (if listener in old(registry.childrenListenerMap)
              then RemoveChildListener(old(registry.childNodeMap), path, ChildAdapter(listener))
              else old(registry.childNodeMap))
      ensures registry.zNodeListenerMap == old(registry.zNodeListenerMap)
      ensures registry.childrenListenerMap == old(registry.childrenListenerMap)
      ensures registry.curatorFactory == old(registry.curatorFactory)
      ensures registry.cachesCreated == old(registry.cachesCreated)
      ensures registry.shutdowns ==
        if registry.curatorFactory.Some? then old(registry.shutdowns) + 1 else old(registry.shutdowns)
    {
      registry.UnSubscribe(ServicePath(root, service), listener);
      registry.Shutdown();
    }
  }
}
