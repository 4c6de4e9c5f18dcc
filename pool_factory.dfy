/** `ThriftClientPoolFactory`: the commons-pool object factory that opens a
    connection to an endpoint chosen by the address provider, checks a pooled
    connection, and closes one the pool discards. */
module PoolFactory {
  import opened Wrappers
  import opened ExposeProvider

  /** A `TFramedTransport` over a `TSocket` to one endpoint. */
  class Transport {
    const endpoint: Endpoint
    var open: bool

    constructor (endpoint: Endpoint)
      ensures this.endpoint == endpoint && !open
    {
      this.endpoint := endpoint;
      open := false;
    }
  }

  /** A generated `TServiceClient`: the transports under its input and output
      protocols, and the service name its multiplexed protocol puts in front
      of every call (`None` when the provider's service is null). */
  class ThriftClient {
    const input: Transport
    const output: Transport
    const service: Option<string>

    /** `Client.Factory.getClient(protocol)`: one protocol serves as both the
        input and the output protocol. */
    constructor (transport: Transport, service: Option<string>)
      ensures input == transport && output == transport && this.service == service
    {
      input := transport;
      output := transport;
      this.service := service;
    }
  }

  /** What the factory does that is visible outside it, in order: transports
      opened and closed, and calls into the pool-operation callback. */
  datatype Step =
    | Opened(transport: Transport)
    | Closed(transport: Transport)
    | CreateCallback(client: ThriftClient)
    | DestroyCallback(client: ThriftClient)

  /** `validateObject`: a pooled client is usable when the transports of both
      its protocols are open. */
  predicate ValidateObject(c: ThriftClient)
    reads c.input, c.output
  {
    c.input.open && c.output.open
  }

  class ThriftClientPoolFactory {
    /** `serverExposeProvider.getService()`. */
    const service: Option<string>
    /** Whether a `PoolOperationCallBack` was given (the two-argument
        constructor passes null). */
    const hasCallback: bool
    var trace: seq<Step>

    constructor (service: Option<string>, hasCallback: bool)
      ensures this.service == service && this.hasCallback == hasCallback && trace == []
    {
      this.service := service;
      this.hasCallback := hasCallback;
      trace := [];
    }

    /** `create()`. `selected` is what `serverExposeProvider.select()` gave:
        an endpoint, null, or the exception it threw; `openError` is the
        exception `transport.open()` throws, if it does. */
    method Create(selected: Result<Option<Endpoint>, Throwable>, openError: Option<Throwable>)
      returns (r: Result<ThriftClient, Throwable>)
      modifies this`trace
      ensures r.Success? <==> selected.Success? && selected.value.Some? && openError.None?
      ensures selected.Failure? ==> r == Failure(selected.error)
      ensures selected == Success(None) ==> r == Failure(ExceptionOf("No provider available"))
      ensures selected.Success? && selected.value.Some? && openError.Some? ==> r == Failure(openError.value)
      ensures r.Failure? ==> trace == old(trace)
      ensures r.Success? ==>
        var c := r.value;
        && fresh(c) && fresh(c.input)
        && c.input == c.output
        && c.input.endpoint == selected.value.value
        && c.service == service
        && ValidateObject(c)
        && trace == old(trace) + [Opened(c.input)] + (if hasCallback then [CreateCallback(c)] else [])
    {
      if selected.Failure? {
        return Failure(selected.error);
      }
      if selected.value.None? {
        return Failure(ExceptionOf("No provider available"));
      }
      var transport := new Transport(selected.value.value);
      var client := new ThriftClient(transport, service);
      if openError.Some? {
        return Failure(openError.value);
      }
      transport.open := true;
      trace := trace + [Opened(transport)];
      if hasCallback {
        trace := trace + [CreateCallback(client)];
      }
      r := Success(client);
    }

    /** `destroyObject(p)`: the destroy callback first, then the input
        transport is closed, then the output transport. */
    method DestroyObject(c: ThriftClient)
      modifies this`trace, c.input, c.output
      ensures !c.input.open && !c.output.open
      ensures !ValidateObject(c)
      ensures trace == old(trace) + (if hasCallback then [DestroyCallback(c)] else [])
                                  + [Closed(c.input), Closed(c.output)]
    {
      if hasCallback {
        trace := trace + [DestroyCallback(c)];
      }
      c.input.open := false;
      trace := trace + [Closed(c.input)];
      c.output.open := false;
      trace := trace + [Closed(c.output)];
    }
  }

  /** A client the factory made is usable until the factory destroys it. */
  method CreateThenDestroy(f: ThriftClientPoolFactory, e: Endpoint) returns (c: ThriftClient)
    modifies f`trace
    ensures fresh(c) && c.input.endpoint == e && !ValidateObject(c)
    ensures f.trace == old(f.trace) + [Opened(c.input)]
                                    + (if f.hasCallback then [CreateCallback(c)] else [])
                                    + (if f.hasCallback then [DestroyCallback(c)] else [])
                                    + [Closed(c.input), Closed(c.input)]
  {
    var r := f.Create(Success(Some(e)), None);
    c := r.value;
    assert ValidateObject(c);
    f.DestroyObject(c);
  }
}
