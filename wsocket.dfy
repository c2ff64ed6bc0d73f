/** The socket-address helpers of `ww/base/wsocket.c`: family-dispatched
    port access, address length, setting the address from a host (the
    empty-host default, the literal fast path and the choice among
    resolved addresses), negative-errno normalisation, the listen guard and
    the connect-timeout split.

    `inet_pton`, `getaddrinfo`, `listen()` and `errno` are inputs; family
    numbers and structure sizes are those of Linux. */
module WSocket {

  import opened Common

  const AF_UNIX: int := 1
  const AF_INET: int := 2
  const AF_INET6: int := 10

  const SOCKADDR_IN_SIZE: nat := 16
  const SOCKADDR_IN6_SIZE: nat := 28
  /** `sizeof(sockaddr_u)`: the union of the IPv4 and IPv6 forms. */
  const SOCKADDR_U_SIZE: nat := 28

  /** `sockaddr_u` as the helpers see it: the family, the address bytes and
      the port in host byte order (`htons`/`ntohs` cancel out). */
  datatype Addr = Addr(family: int, ip: Bytes, port: uint16)

  predicate IsInet(family: int)
  {
    family == AF_INET || family == AF_INET6
  }

  /** `sockaddrPort`: the port of an IPv4 or IPv6 address, else 0. */
  function Port(a: Addr): (p: uint16)
    ensures !IsInet(a.family) ==> p == 0
  {
    if a.family == AF_INET then a.port
    else if a.family == AF_INET6 then a.port
    else 0
  }

  /** `sockaddrSetPort`: `htons` truncates the int to 16 bits; other
      families are left alone. */
  function SetPort(a: Addr, port: int): Addr
  {
    if a.family == AF_INET then a.(port := ToUint16(port))
    else if a.family == AF_INET6 then a.(port := ToUint16(port))
    else a
  }

  /** Setting then reading the port round-trips modulo 2^16 for IPv4 and
      IPv6 and leaves the family and address alone; for any other family
      the address is unchanged and the port reads 0. */
  lemma SetPortRoundTrip(a: Addr, port: int)
    ensures IsInet(a.family) ==> Port(SetPort(a, port)) == ToUint16(port)
    ensures IsInet(a.family) && 0 <= port < UINT16_LIMIT ==> Port(SetPort(a, port)) == port
    ensures SetPort(a, port).family == a.family && SetPort(a, port).ip == a.ip
    ensures !IsInet(a.family) ==> SetPort(a, port) == a && Port(SetPort(a, port)) == 0
  {
  }

  /** `sockaddrLen` (without Unix-domain sockets). */
  function Len(a: Addr): (n: nat)
    ensures a.family == AF_INET ==> n == SOCKADDR_IN_SIZE
    ensures a.family == AF_INET6 ==> n == SOCKADDR_IN6_SIZE
    ensures !IsInet(a.family) ==> n == SOCKADDR_U_SIZE
    ensures n <= SOCKADDR_U_SIZE
  {
    if a.family == AF_INET then SOCKADDR_IN_SIZE
    else if a.family == AF_INET6 then SOCKADDR_IN6_SIZE
    else SOCKADDR_U_SIZE
  }

  /** `socketErrnoNegative`: a negative result for any `errno`, and whether
      the descriptor is closed on the way. */
  function ErrnoNegative(sockfd: int, err: int): (r: (int, bool))
    ensures r.0 < 0
    ensures err > 0 ==> r.0 == -err
    ensures r.1 <==> sockfd >= 0
  {
    (if err > 0 then -err else -1, sockfd >= 0)
  }

  /** `ListenFD`: a negative descriptor passes through; a failing
      `listen()` closes the socket and gives a negative errno. */
  function ListenFd(sockfd: int, listenOk: bool, err: int): (r: int)
    ensures sockfd < 0 ==> r == sockfd
    ensures r < 0 <==> sockfd < 0 || !listenOk
    ensures r >= 0 ==> r == sockfd
  {
    if sockfd < 0 then sockfd
    else if !listenOk then ErrnoNegative(sockfd, err).0
    else sockfd
  }

  /** The `struct timeval` of `ConnectFDTimeout`: C's truncating `/` and
      `%` split milliseconds into seconds and microseconds. */
  function Timeval(ms: int): (tv: (int, int))
    ensures tv.0 * 1_000_000 + tv.1 == ms * 1000
    ensures ms >= 0 ==> tv.0 == ms / 1000 && 0 <= tv.1 < 1_000_000
    ensures ms < 0 ==> -1_000_000 < tv.1 <= 0
  {
    (CDiv(ms, 1000), CRem(ms, 1000) * 1000)
  }

  /** One `struct addrinfo`: its family, whether `ai_addr` is set, its
      `ai_addrlen`, and the address it holds. */
  datatype AddrInfo = AddrInfo(family: int, hasAddr: bool, addrLen: nat, addr: Addr)

  /** What name lookup answers for a host: `inet_pton` for IPv4 and IPv6
      (the address bytes, or None) and `getaddrinfo`'s code and list. */
  datatype Lookup = Lookup(v4: Option<Bytes>, v6: Option<Bytes>, gaiRet: int, results: seq<AddrInfo>)

  /** The entry `resolveAddr` copies: the first IPv4 one, else the first. */
  function Chosen(results: seq<AddrInfo>): (k: nat)
    requires |results| > 0
    ensures k < |results|
    ensures forall i :: 0 <= i < k ==> results[i].family != AF_INET
    ensures results[k].family == AF_INET || (k == 0 && forall i :: 0 <= i < |results| ==> results[i].family != AF_INET)
  {
    var flags := seq(|results|, i requires 0 <= i < |results| => results[i].family == AF_INET);
    assert forall i :: 0 <= i < |results| ==> flags[i] == (results[i].family == AF_INET);
    var k := FirstTrue(flags);
    if k < |results| then k else 0
  }

  /** `resolveAddr` on an address value: the new address and the result. */
  function Resolved(a: Addr, lookup: Lookup): (Addr, int)
  {
    if lookup.v4.Some? then (a.(family := AF_INET, ip := lookup.v4.value), 0)
    else
      var a1 := if lookup.v6.Some? then a.(family := AF_INET6, ip := lookup.v6.value) else a;
      var rs := lookup.results;
      if lookup.gaiRet != 0 || |rs| == 0 || !rs[0].hasAddr || rs[0].addrLen == 0 then (a1, lookup.gaiRet)
      else (rs[Chosen(rs)].addr, 0)
  }

  /** An IPv4 literal resolves at once to AF_INET with no lookup; a lookup
      error passes its code through; otherwise the first IPv4 result is
      taken, falling back to the first result. */
  lemma ResolvePrefersInet(a: Addr, lookup: Lookup)
    ensures lookup.v4.Some? ==> Resolved(a, lookup) == (a.(family := AF_INET, ip := lookup.v4.value), 0)
    ensures lookup.v4.None? && lookup.gaiRet != 0 ==> Resolved(a, lookup).1 == lookup.gaiRet
    ensures var rs := lookup.results;
            lookup.v4.None? && lookup.gaiRet == 0 && |rs| > 0 && rs[0].hasAddr && rs[0].addrLen > 0 ==>
              && Resolved(a, lookup).1 == 0
              && (exists i :: 0 <= i < |rs| && Resolved(a, lookup).0 == rs[i].addr)
              && ((exists i :: 0 <= i < |rs| && rs[i].family == AF_INET) ==>
                    exists i :: 0 <= i < |rs| && rs[i].family == AF_INET && Resolved(a, lookup).0 == rs[i].addr
                                && forall j :: 0 <= j < i ==> rs[j].family != AF_INET)
              && ((forall i :: 0 <= i < |rs| ==> rs[i].family != AF_INET) ==> Resolved(a, lookup).0 == rs[0].addr)
  {
    var rs := lookup.results;
    if lookup.v4.None? && lookup.gaiRet == 0 && |rs| > 0 && rs[0].hasAddr && rs[0].addrLen > 0 {
      var k := Chosen(rs);
      assert Resolved(a, lookup).0 == rs[k].addr;
    }
  }

  /** `sockaddr_u`, updated in place by the setters. */
  class SockAddr {
    var family: int
    var ip: Bytes
    var port: uint16

    function View(): Addr
      reads this
    {
      Addr(family, ip, port)
    }

    /** A zeroed address (`memorySet(&addr, 0, ...)`). */
    constructor ()
      ensures View() == Addr(0, [], 0)
    {
      family := 0;
      ip := [];
      port := 0;
    }

    /** `sockaddrSetPort`. */
    method SetPortOf(p: int)
      modifies this
      ensures View() == SetPort(old(View()), p)
    {
      if family == AF_INET {
        port := ToUint16(p);
      } else if family == AF_INET6 {
        port := ToUint16(p);
      }
    }

    /** `resolveAddr`: the literal fast paths, then the walk over the
        lookup's list for the first IPv4 entry. */
    method ResolveAddr(lookup: Lookup) returns (ret: int)
      modifies this
      ensures (View(), ret) == Resolved(old(View()), lookup)
    {
      if lookup.v4.Some? {
        ip := lookup.v4.value;
        family := AF_INET;
        return 0;
      }
      if lookup.v6.Some? {
        ip := lookup.v6.value;
        family := AF_INET6;
      }
      var ais := lookup.results;
      if lookup.gaiRet != 0 || |ais| == 0 || !ais[0].hasAddr || ais[0].addrLen == 0 {
        return lookup.gaiRet;
      }
      ghost var flags := seq(|ais|, i requires 0 <= i < |ais| => ais[i].family == AF_INET);
      var pai := 0;
      while pai < |ais|
        invariant 0 <= pai <= |ais|
        invariant forall i :: 0 <= i < pai ==> !flags[i]
      {
        if ais[pai].family == AF_INET {
          break;
        }
        pai := pai + 1;
      }
      assert pai < |ais| ==> flags[pai];
      assert FirstTrue(flags) == pai;
      if pai == |ais| {
        pai := 0;
      }
      family, ip, port := ais[pai].addr.family, ais[pai].addr.ip, ais[pai].addr.port;
      return 0;
    }

    /** `sockaddrSetIp`: a null or empty host means INADDR_ANY over IPv4. */
    method SetIp(host: Option<string>, lookup: Lookup) returns (ret: int)
      modifies this
      ensures (View(), ret) == IpSet(old(View()), host, lookup)
    {
      if host.None? || host.value == "" {
        family := AF_INET;
        ip := INADDR_ANY;
        return 0;
      }
      ret := ResolveAddr(lookup);
    }

    /** `sockaddrSetIpPort` (without Unix-domain sockets). */
    method SetIpPort(host: Option<string>, port: int, lookup: Lookup) returns (ret: int)
      modifies this
      ensures (View(), ret) == IpPortSet(old(View()), host, port, lookup)
    {
      ret := SetIp(host, lookup);
      if ret != 0 {
        return ret;
      }
      SetPortOf(port);
      return 0;
    }
  }

  const INADDR_ANY: Bytes := [0, 0, 0, 0]

  function IpSet(a: Addr, host: Option<string>, lookup: Lookup): (Addr, int)
  {
    if host.None? || host.value == "" then (a.(family := AF_INET, ip := INADDR_ANY), 0)
    else Resolved(a, lookup)
  }

  function IpPortSet(a: Addr, host: Option<string>, port: int, lookup: Lookup): (Addr, int)
  {
    var (a1, ret) := IpSet(a, host, lookup);
    if ret != 0 then (a1, ret) else (SetPort(a1, port), 0)
  }

  /** An empty host gives IPv4 INADDR_ANY with success; a failing address
      step returns its code unchanged and does not set the port; otherwise
      the port reads back modulo 2^16 when the family is IPv4 or IPv6. */
  lemma SetIpPortRule(a: Addr, host: Option<string>, port: int, lookup: Lookup)
    ensures (host.None? || host == Some("")) ==>
              IpPortSet(a, host, port, lookup) == (Addr(AF_INET, INADDR_ANY, ToUint16(port)), 0)
    ensures IpSet(a, host, lookup).1 != 0 ==> IpPortSet(a, host, port, lookup) == IpSet(a, host, lookup)
    ensures var (r, ret) := IpPortSet(a, host, port, lookup);
            ret == 0 && IsInet(r.family) ==> Port(r) == ToUint16(port)
  {
    var (a1, ret) := IpSet(a, host, lookup);
    if ret == 0 {
      SetPortRoundTrip(a1, port);
    }
  }
}
