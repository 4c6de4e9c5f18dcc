/** `ClientProxyFactory`: builds the connection pool of one service from the
    client properties, and the proxy whose every call borrows a pooled client,
    invokes the call on it, and gives the client back or discards it. */
module ClientProxy {
  import opened Wrappers
  import opened Text
  import opened Registry
  import opened ExposeProvider
  import opened PoolFactory

  /** `ThriftClientProperties` (`thrift.client.*`). */
  datatype ClientProperties = ClientProperties(maxActive: Int32, minIdle: Int32, maxIdle: Int32, idleTime: Int32)

  /** The property defaults. */
  const DefaultClientProperties: ClientProperties := ClientProperties(20, 0, 20, 180_000)

  /** The `GenericObjectPoolConfig` fields `configure` sets; the millisecond
      fields are `long`. */
  datatype PoolConfig = PoolConfig(
    maxTotal: Int32, minIdle: Int32, maxIdle: Int32,
    minEvictableIdleTimeMillis: Int64, timeBetweenEvictionRunsMillis: Int64)

  /** The pool configuration `configure` derives from the properties. The
      eviction interval is computed in `long` arithmetic (`idleTime * 2L`), so
      it is exactly twice the idle time for every `int` idle time. */
  function PoolConfigFor(p: ClientProperties): (c: PoolConfig)
    ensures c.maxTotal == p.maxActive && c.minIdle == p.minIdle && c.maxIdle == p.maxIdle
    ensures c.minEvictableIdleTimeMillis == p.idleTime
    ensures c.timeBetweenEvictionRunsMillis == 2 * p.idleTime
    ensures p.idleTime >= 0 ==> c.timeBetweenEvictionRunsMillis >= c.minEvictableIdleTimeMillis
  {
    PoolConfig(p.maxActive, p.minIdle, p.maxIdle, p.idleTime, p.idleTime * 2)
  }

  /** The generated interface `service + "$Iface"`; a null service is
      concatenated as "null". */
  function IfaceClassName(service: Option<string>): (name: string)
    ensures |name| == |FormatArg(service)| + 6
    ensures name[..|FormatArg(service)|] == FormatArg(service)
    ensures name[|FormatArg(service)|..] == "$Iface"
  {
    FormatArg(service) + "$Iface"
  }

  /** The generated client factory `service + "$Client$Factory"`. */
  function ClientFactoryClassName(service: Option<string>): (name: string)
    ensures |name| == |FormatArg(service)| + 15
    ensures name[..|FormatArg(service)|] == FormatArg(service)
    ensures name[|FormatArg(service)|..] == "$Client$Factory"
  {
    FormatArg(service) + "$Client$Factory"
  }

  /** The two class names `configure` loads are never the same name, and each
      names the service it was formed from. */
  lemma GeneratedClassNames(s1: Option<string>, s2: Option<string>)
    ensures IfaceClassName(s1) != ClientFactoryClassName(s2)
    ensures IfaceClassName(s1) == IfaceClassName(s2) ==> FormatArg(s1) == FormatArg(s2)
    ensures ClientFactoryClassName(s1) == ClientFactoryClassName(s2) ==> FormatArg(s1) == FormatArg(s2)
  {
    var a, b := IfaceClassName(s1), ClientFactoryClassName(s2);
    assert a[|a| - 1] == 'e' && b[|b| - 1] == 'y';
    if IfaceClassName(s1) == IfaceClassName(s2) {
      assert FormatArg(s1) == IfaceClassName(s1)[..|IfaceClassName(s1)| - 6];
    }
    if ClientFactoryClassName(s1) == ClientFactoryClassName(s2) {
      assert FormatArg(s1) == ClientFactoryClassName(s1)[..|ClientFactoryClassName(s1)| - 15];
    }
  }

  function ClassNotFound(name: string): Throwable
  {
    Throwable("java.lang.ClassNotFoundException", name)
  }

  /** A pooled client, by identity. */
  type ClientId = nat

  /** What the proxy asks of the pool. */
  datatype PoolOp = Borrow(client: ClientId) | Return(client: ClientId) | Invalidate(client: ClientId)

  /** The pool's bookkeeping: clients waiting in the pool, clients lent out,
      and clients the pool was told to discard. */
  datatype PoolState = PoolState(idle: set<ClientId>, active: set<ClientId>, invalidated: set<ClientId>)

  /** The effect of one pool operation on the bookkeeping. */
  function Apply(s: PoolState, op: PoolOp): PoolState
  {
    match op
    case Borrow(c) => PoolState(s.idle - {c}, s.active + {c}, s.invalidated)
    case Return(c) => PoolState(s.idle + {c}, s.active - {c}, s.invalidated)
    case Invalidate(c) => PoolState(s.idle, s.active - {c}, s.invalidated + {c})
  }

  function ApplyAll(s: PoolState, ops: seq<PoolOp>): PoolState
    decreases ops
  {
    if ops == [] then s else ApplyAll(Apply(s, ops[0]), ops[1..])
  }

  lemma ApplyAllPair(s: PoolState, x: PoolOp, y: PoolOp)
    ensures ApplyAll(s, [x, y]) == Apply(Apply(s, x), y)
  {
    var t := Apply(Apply(s, x), y);
    assert ApplyAll(t, []) == t;
    assert [y][1..] == [];
    assert ApplyAll(Apply(s, x), [y]) == t;
    assert [x, y][1..] == [y];
  }

  lemma {:induction false} ApplyAllAppend(s: PoolState, a: seq<PoolOp>, b: seq<PoolOp>)
    ensures ApplyAll(s, a + b) == ApplyAll(ApplyAll(s, a), b)
    decreases a
  {
    if a == [] {
      assert a + b == b;
    } else {
      assert (a + b)[0] == a[0];
      assert (a + b)[1..] == a[1..] + b;
      ApplyAllAppend(Apply(s, a[0]), a[1..], b);
    }
  }

  /** The pool operations of one proxied call: `borrowed` is what
      `pool.borrowObject()` gave, `outcome` what invoking the method on the
      borrowed client gave. `Method.invoke` wraps whatever the target throws,
      an `Error` included, in an `InvocationTargetException`, which the
      handler's `catch (Exception e)` catches; so every failed invocation
      makes the client be discarded, and every successful one gives it back. */
  function CallTrace<T>(borrowed: Result<ClientId, Throwable>, outcome: Result<T, Throwable>): (ops: seq<PoolOp>)
    ensures borrowed.Failure? ==> ops == []
    ensures borrowed.Success? ==>
      && |ops| == 2 && ops[0] == Borrow(borrowed.value)
      && ops[1] in {Return(borrowed.value), Invalidate(borrowed.value)}
      && (ops[1] == Invalidate(borrowed.value) <==> outcome.Failure?)
  {
    match borrowed
    case Failure(_) => []
    case Success(c) => [Borrow(c), if outcome.Failure? then Invalidate(c) else Return(c)]
  }

  /** What the proxied call returns or throws: the borrow's exception, or the
      invocation's own result or throwable, unchanged. */
  function CallResult<T>(borrowed: Result<ClientId, Throwable>, outcome: Result<T, Throwable>): (r: Result<T, Throwable>)
    ensures borrowed.Failure? ==> r == Failure(borrowed.error)
    ensures borrowed.Success? ==> r == outcome
  {
    if borrowed.Failure? then Failure(borrowed.error) else outcome
  }

  /** One proxied call, as its borrow result and its invocation outcome. */
  datatype Call<T> = Call(borrowed: Result<ClientId, Throwable>, outcome: Result<T, Throwable>)

  function CallsTrace<T>(calls: seq<Call<T>>): seq<PoolOp>
  {
    if calls == [] then [] else CallTrace(calls[0].borrowed, calls[0].outcome) + CallsTrace(calls[1..])
  }

  /** The clients that calls discarded. */
  function Discarded<T>(calls: seq<Call<T>>): set<ClientId>
  {
    if calls == [] then {}
    else
      (if calls[0].borrowed.Success? && calls[0].outcome.Failure? then {calls[0].borrowed.value} else {})
      + Discarded(calls[1..])
  }

  /** Calls made one after another leave no client lent out: whatever the
      invocations did, every client the pool lent is back with the pool or
      discarded, and exactly the clients of calls whose invocation threw are
      discarded. The pool never lends a client that is already lent. */
  lemma {:induction false} CallsLeaveNothingLent<T>(s: PoolState, calls: seq<Call<T>>)
    requires forall i | 0 <= i < |calls| :: calls[i].borrowed.Success? ==> calls[i].borrowed.value !in s.active
    ensures ApplyAll(s, CallsTrace(calls)).active == s.active
    ensures ApplyAll(s, CallsTrace(calls)).invalidated == s.invalidated + Discarded(calls)
    decreases calls
  {
    if calls != [] {
      var ops := CallTrace(calls[0].borrowed, calls[0].outcome);
      ApplyAllAppend(s, ops, CallsTrace(calls[1..]));
      var s1 := ApplyAll(s, ops);
      if calls[0].borrowed.Success? {
        var c := calls[0].borrowed.value;
        assert ops == [ops[0], ops[1]];
        ApplyAllPair(s, ops[0], ops[1]);
        assert s1.active == s.active;
        assert s1.invalidated == s.invalidated + (if calls[0].outcome.Failure? then {c} else {});
      } else {
        assert s1 == s;
      }
      forall i | 0 <= i < |calls[1..]|
        ensures calls[1..][i].borrowed.Success? ==> calls[1..][i].borrowed.value !in s1.active
      {
        assert calls[1..][i] == calls[i + 1];
      }
      CallsLeaveNothingLent(s1, calls[1..]);
    }
  }

  /** `GenericObjectPool`, reduced to the bookkeeping the proxy relies on. */
  class ObjectPool {
    /** The object factory that makes, checks and destroys the clients. */
    const factory: ThriftClientPoolFactory
    const config: PoolConfig
    var idle: set<ClientId>
    var active: set<ClientId>
    var invalidated: set<ClientId>
    var closed: bool
    /** The operations asked of the pool so far, oldest first. */
    ghost var ops: seq<PoolOp>

    function State(): PoolState
      reads this
    {
      PoolState(idle, active, invalidated)
    }

    /** `new GenericObjectPool(factory, config)`. */
    constructor (factory: ThriftClientPoolFactory, config: PoolConfig)
      ensures this.factory == factory && this.config == config
      ensures State() == PoolState({}, {}, {}) && !closed && ops == []
    {
      this.factory := factory;
      this.config := config;
      idle, active, invalidated := {}, {}, {};
      closed := false;
      ops := [];
    }

    /** `borrowObject()`. Which client comes back, or what is thrown (the
        factory's `create` failing, an exhausted pool), is the pool's
        decision and arrives as `choice`; the pool never lends a client that
        is lent or discarded. */
    method BorrowObject(choice: Result<ClientId, Throwable>) returns (r: Result<ClientId, Throwable>)
      requires choice.Success? ==> choice.value !in active && choice.value !in invalidated
      modifies this`idle, this`active, this`ops
      ensures r == choice
      ensures State() == if r.Success? then Apply(old(State()), Borrow(r.value)) else old(State())
      ensures ops == old(ops) + if r.Success? then [Borrow(r.value)] else []
    {
      r := choice;
      if r.Success? {
        idle := idle - {r.value};
        active := active + {r.value};
        ops := ops + [Borrow(r.value)];
      }
    }

    /** `returnObject(client)`: a lent client goes back to the idle set. */
    method ReturnObject(c: ClientId)
      requires c in active
      modifies this`idle, this`active, this`ops
      ensures State() == Apply(old(State()), Return(c))
      ensures ops == old(ops) + [Return(c)]
    {
      idle := idle + {c};
      active := active - {c};
      ops := ops + [Return(c)];
    }

    /** `invalidateObject(client)`: a lent client is discarded (the factory's
        `destroyObject` closes it). */
    method InvalidateObject(c: ClientId)
      requires c in active
      modifies this`active, this`invalidated, this`ops
      ensures State() == Apply(old(State()), Invalidate(c))
      ensures ops == old(ops) + [Invalidate(c)]
    {
      active := active - {c};
      invalidated := invalidated + {c};
      ops := ops + [Invalidate(c)];
    }

    /** `close()`. */
    method Close()
      modifies this`closed
      ensures closed
    {
      closed := true;
    }
  }

  class ClientProxyFactory {
    const properties: ClientProperties
    var provider: ZkServerExposeProvider?
    var pool: ObjectPool?
    /** The interface the proxy implements, once loaded. */
    var objectClass: Option<string>

    /** `ClientProxyFactory.create(properties)`. */
    constructor Create(properties: ClientProperties)
      ensures this.properties == properties
      ensures provider == null && pool == null && objectClass == None
    {
      this.properties := properties;
      provider := null;
      pool := null;
      objectClass := None;
    }

    /** `serverExposeProvider(provider)`. */
    method ServerExposeProvider(p: ZkServerExposeProvider?)
      modifies this`provider
      ensures provider == p
    {
      provider := p;
    }

    /** `configure()`: load the generated interface and client factory of
        the provider's service, then build the pool from the properties.
        `loadable` holds the class names the class loader can find. */
    method Configure(loadable: set<string>) returns (r: Outcome<Throwable>)
      modifies this`objectClass, this`pool
      ensures provider == null ==> r == Fail(NullPointer()) && unchanged(this)
      ensures provider != null ==>
        var iface := IfaceClassName(provider.service);
        var factory := ClientFactoryClassName(provider.service);
        && (iface !in loadable ==> r == Fail(ClassNotFound(iface)) && unchanged(this))
        && (iface in loadable && factory !in loadable ==>
              r == Fail(ClassNotFound(factory)) && objectClass == Some(iface) && pool == old(pool))
        && (iface in loadable && factory in loadable ==>
              && r == Pass && objectClass == Some(iface)
              && pool != null && fresh(pool) && fresh(pool.factory)
              && pool.factory.service == provider.service && !pool.factory.hasCallback
              && pool.config == PoolConfigFor(properties)
              && pool.State() == PoolState({}, {}, {}) && pool.ops == [] && !pool.closed)
    {
      if provider == null {
        return Fail(NullPointer());
      }
      var iface := IfaceClassName(provider.service);
      if iface !in loadable {
        return Fail(ClassNotFound(iface));
      }
      objectClass := Some(iface);
      var factory := ClientFactoryClassName(provider.service);
      if factory !in loadable {
        return Fail(ClassNotFound(factory));
      }
      var clientPoolFactory := new ThriftClientPoolFactory(provider.service, false);
      pool := new ObjectPool(clientPoolFactory, PoolConfigFor(properties));
      r := Pass;
    }

    /** The proxy's invocation handler: borrow outside the `try`, invoke,
        then give the client back, or discard it when the invocation threw,
        and return or rethrow what the invocation gave. `outcome` is what
        invoking the method on the borrowed client gives. */
    method Invoke<T>(choice: Result<ClientId, Throwable>, outcome: Result<T, Throwable>)
      returns (r: Result<T, Throwable>)
      requires pool != null
      requires choice.Success? ==> choice.value !in pool.active && choice.value !in pool.invalidated
      modifies pool`idle, pool`active, pool`invalidated, pool`ops
      ensures r == CallResult(choice, outcome)
      ensures pool.ops == old(pool.ops) + CallTrace(choice, outcome)
      ensures pool.State() == ApplyAll(old(pool.State()), CallTrace(choice, outcome))
    {
      var borrowed := pool.BorrowObject(choice);
      if borrowed.Failure? {
        return Failure(borrowed.error);
      }
      var client := borrowed.value;
      var flag := true;
      if outcome.Failure? {
        flag := false;
      }
      if flag {
        pool.ReturnObject(client);
      } else {
        pool.InvalidateObject(client);
      }
      r := outcome;
      ghost var ops := CallTrace(choice, outcome);
      assert ops == [ops[0], ops[1]];
      ApplyAllPair(old(pool.State()), ops[0], ops[1]);
    }

    /** `close()`: the pool, if one was built, then the address provider, if
        one was set. `root` is the registry root under which the provider
        subscribed. */
    method Close(root: string)
      requires provider != null ==> provider.registry.Valid()
      modifies pool, if provider != null then {provider.registry} else {}
      ensures pool != null ==> pool.closed && pool.State() == old(pool.State()) && pool.ops == old(pool.ops)
      ensures provider != null ==>
        var registry, path := provider.registry, ServicePath(root, provider.service);
        && registry.Valid()
        && (path in registry.childNodeMap && provider.listener in registry.childrenListenerMap ==>
              ChildAdapter(provider.listener) !in registry.childNodeMap[path].listeners)
        && (path in registry.zNodeMap && provider.listener in registry.zNodeListenerMap ==>
              registry.zNodeListenerMap[provider.listener] !in registry.zNodeMap[path].listeners)
        && registry.zNodeMap.Keys == old(registry.zNodeMap).Keys
        && registry.childNodeMap.Keys == old(registry.childNodeMap).Keys
        && registry.zNodeMap ==
             (if provider.listener in old(registry.zNodeListenerMap)
              then RemoveNodeListener(old(registry.zNodeMap), path, old(registry.zNodeListenerMap)[provider.listener])
              else old(registry.zNodeMap))
        && registry.childNodeMap ==
             (if provider.listener in old(registry.childrenListenerMap)
              then RemoveChildListener(old(registry.childNodeMap), path, ChildAdapter(provider.listener))
              else old(registry.childNodeMap))
        && registry.zNodeListenerMap == old(registry.zNodeListenerMap)
        && registry.childrenListenerMap == old(registry.childrenListenerMap)
        && registry.curatorFactory == old(registry.curatorFactory)
        && registry.cachesCreated == old(registry.cachesCreated)
        && provider.registry.shutdowns ==
             if provider.registry.curatorFactory.Some? then old(provider.registry.shutdowns) + 1
             else old(provider.registry.shutdowns)
    {
      if pool != null {
        pool.Close();
      }
      if provider != null {
        provider.Close(root);
      }
    }
  }
}
