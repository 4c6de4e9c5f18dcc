/** `DefaultServerIpResolve`: the server's own address, chosen among the
    addresses of its network interfaces and cached until `reset`. The
    interfaces are an input: what `NetworkInterface.getNetworkInterfaces()`
    enumerates, or the `SocketException` it throws. */
module IpResolve {
  import opened Wrappers
  import opened Text

  type Octet = x: nat | x < 256

  /** An `InetAddress`: an IPv4 address by its four octets, or an IPv6 address
      by its textual form. */
  datatype InetAddress = Inet4(a: Octet, b: Octet, c: Octet, d: Octet) | Inet6(text: string)

  /** `isSiteLocalAddress()` of an IPv4 address: 10/8, 172.16/12 and 192.168/16. */
  predicate IsSiteLocal(address: InetAddress)
    requires address.Inet4?
  {
    address.a == 10 || (address.a == 172 && 16 <= address.b <= 31) || (address.a == 192 && address.b == 168)
  }

  /** `isLoopbackAddress()` of an IPv4 address: 127/8. */
  predicate IsLoopback(address: InetAddress)
    requires address.Inet4?
  {
    address.a == 127
  }

  /** An address the loop keeps: IPv4, site-local and not loopback. */
  predicate Qualifies(address: InetAddress)
  {
    address.Inet4? && IsSiteLocal(address) && !IsLoopback(address)
  }

  /** `getHostAddress()` of an IPv4 address: dotted decimal. */
  function HostAddress(address: InetAddress): (s: string)
    requires address.Inet4?
    ensures ':' !in s && '/' !in s
  {
    NatToString(address.a) + "." + NatToString(address.b) + "."
      + NatToString(address.c) + "." + NatToString(address.d)
  }

  /** What the interface enumeration gives: each interface's addresses in
      order, or the `SocketException` it throws. */
  type NetworkScan = Result<seq<seq<InetAddress>>, Throwable>

  /** The addresses of all interfaces, interface after interface. */
  function Flatten(interfaces: seq<seq<InetAddress>>): seq<InetAddress>
  {
    if interfaces == [] then []
    else Flatten(interfaces[..|interfaces| - 1]) + interfaces[|interfaces| - 1]
  }

  /** The host address of the last qualifying address, if there is one. */
  function LastQualifying(addresses: seq<InetAddress>): Option<string>
  {
    if addresses == [] then None
    else
      var last := addresses[|addresses| - 1];
      if Qualifies(last) then Some(HostAddress(last)) else LastQualifying(addresses[..|addresses| - 1])
  }

  /** Nothing is chosen exactly when no address qualifies. */
  lemma {:induction false} LastQualifyingNone(addresses: seq<InetAddress>)
    ensures LastQualifying(addresses).None? <==> forall k | 0 <= k < |addresses| :: !Qualifies(addresses[k])
  {
    if addresses != [] {
      var init := addresses[..|addresses| - 1];
      LastQualifyingNone(init);
      assert forall k | 0 <= k < |init| :: init[k] == addresses[k];
    }
  }

  /** Position `k` holds the chosen address: it qualifies, no later one
      does, and its host address is the answer. */
  predicate LastQualifyingAt(addresses: seq<InetAddress>, k: int)
    requires 0 <= k < |addresses|
  {
    && Qualifies(addresses[k])
    && LastQualifying(addresses) == Some(HostAddress(addresses[k]))
    && forall j | k < j < |addresses| :: !Qualifies(addresses[j])
  }

  /** What is chosen is the host address of a qualifying address after which
      no address qualifies. */
  lemma {:induction false} LastQualifyingSome(addresses: seq<InetAddress>)
    requires LastQualifying(addresses).Some?
    ensures exists k | 0 <= k < |addresses| :: LastQualifyingAt(addresses, k)
  {
    var n := |addresses|;
    if Qualifies(addresses[n - 1]) {
      assert LastQualifyingAt(addresses, n - 1);
    } else {
      var init := addresses[..n - 1];
      assert LastQualifying(addresses) == LastQualifying(init);
      LastQualifyingSome(init);
      var k :| 0 <= k < |init| && LastQualifyingAt(init, k);
      assert init[k] == addresses[k];
      assert forall j | k < j < n - 1 :: init[j] == addresses[j];
      assert LastQualifyingAt(addresses, k);
    }
  }

  /** One more address: it wins when it qualifies. */
  lemma LastQualifyingSnoc(prefix: seq<InetAddress>, address: InetAddress)
    ensures LastQualifying(prefix + [address]) ==
      if Qualifies(address) then Some(HostAddress(address)) else LastQualifying(prefix)
  {
    assert (prefix + [address])[..|prefix|] == prefix;
  }

  /** What `getServerIp()` answers given the cached value and the scan. */
  function Resolve(cached: Option<string>, scan: NetworkScan): Option<string>
  {
    if cached.Some? then cached
    else if scan.Failure? then None
    else LastQualifying(Flatten(scan.value))
  }

  /** Once an address is cached, asking again returns it whatever a new
      scan of the interfaces would find. */
  lemma ResolveIsStable(cached: Option<string>, s1: NetworkScan, s2: NetworkScan)
    requires Resolve(cached, s1).Some?
    ensures Resolve(Resolve(cached, s1), s2) == Resolve(cached, s1)
  {
  }

  /** An IPv6 address, a loopback address or a public address is never chosen. */
  lemma ResolvedIsSiteLocalIPv4(scan: NetworkScan)
    requires Resolve(None, scan).Some?
    ensures exists address | address in Flatten(scan.value) ::
      && address.Inet4? && IsSiteLocal(address) && !IsLoopback(address)
      && Resolve(None, scan).value == HostAddress(address)
  {
    var all := Flatten(scan.value);
    LastQualifyingSome(all);
    var k :| 0 <= k < |all| && LastQualifyingAt(all, k);
    assert all[k] in all;
  }

  class DefaultServerIpResolve {
    var ipAddr: Option<string>

    constructor ()
      ensures ipAddr == None
    {
      ipAddr := None;
    }

    /** `getServerIp()`: the cached address, or else the last qualifying
        address met while enumerating every interface's addresses (the loop
        does not stop at the first). A `SocketException` is logged and the
        (empty) cache returned. */
    method GetServerIp(scan: NetworkScan) returns (ip: Option<string>)
      modifies this
      ensures ip == ipAddr == Resolve(old(ipAddr), scan)
    {
      if ipAddr.Some? {
        return ipAddr;
      }
      if scan.Failure? {
        return ipAddr;
      }
      var interfaces := scan.value;
      var i := 0;
      while i < |interfaces|
        invariant 0 <= i <= |interfaces|
        invariant ipAddr == LastQualifying(Flatten(interfaces[..i]))
      {
        var addresses := interfaces[i];
        var j := 0;
        assert Flatten(interfaces[..i]) + addresses[..0] == Flatten(interfaces[..i]);
        while j < |addresses|
          invariant 0 <= j <= |addresses|
          invariant ipAddr == LastQualifying(Flatten(interfaces[..i]) + addresses[..j])
        {
          var address := addresses[j];
          assert Flatten(interfaces[..i]) + addresses[..j + 1] == Flatten(interfaces[..i]) + addresses[..j] + [address];
          LastQualifyingSnoc(Flatten(interfaces[..i]) + addresses[..j], address);
          j := j + 1;
          if address.Inet6? {
            continue;
          }
          if IsSiteLocal(address) && !IsLoopback(address) {
            ipAddr := Some(HostAddress(address));
          }
        }
        assert interfaces[..i + 1][..i] == interfaces[..i];
        assert addresses[..j] == addresses;
        i := i + 1;
      }
      assert interfaces[..i] == interfaces;
      ip := ipAddr;
    }

    /** `reset()`: forget the cached address, so the next call scans again. */
    method Reset()
      modifies this
      ensures ipAddr == None
    {
      ipAddr := None;
    }
  }
}
