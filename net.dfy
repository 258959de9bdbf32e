/** The socket layer of the ArceOS std bindings (library/std/src/sys/arceos/net.rs):
    `host:port` parsing and the `LookupHost` iterator, the call sequences of the
    TCP and UDP wrappers over the kernel, the operations ArceOS does not offer,
    and the `netc` address-family constants. */
module Net {
  import opened Common
  import opened Errors
  import opened CoreStr
  import opened AxNet
  import Time

  // netc: the address-family tags.
  const AF_INET: u8 := 0
  const AF_INET6: u8 := 1

  /** The backlog `TcpListener::bind` always asks for. */
  const BACKLOG: nat := 128

  const INVALID_ADDRESS: IoError := SimpleMessage(InvalidInput, "invalid socket address")
  const INVALID_PORT: IoError := SimpleMessage(InvalidInput, "invalid port value")

  /** The checks of `try_from(&str)`: split at the last `:` and parse
      the text after it as a `u16` port. Both failures are `InvalidInput`. */
  function ParseHostPort(s: string): (r: Result<(string, u16), IoError>)
    ensures r.Err? ==> r.error.Kind() == InvalidInput
    ensures r.Err? ==> (r.error == INVALID_ADDRESS <==> ':' !in s)
  {
    match RSplitOnce(s, ':')
    case None => Err(INVALID_ADDRESS)
    case Some((host, portText)) =>
      match ParseU16(portText)
      case None => Err(INVALID_PORT)
      case Some(port) => Ok((host, port))
  }

  /** Without a colon there is no port: the address error. */
  lemma ParseNoColon(s: string)
    requires ':' !in s
    ensures ParseHostPort(s) == Err(INVALID_ADDRESS)
  {
  }

  /** A string is split at its last colon: whatever the host holds (colons
      included), the port text after the final colon decides the outcome. */
  lemma ParseJoin(host: string, portText: string)
    requires ':' !in portText
    ensures ParseHostPort(host + ":" + portText)
            == if ParseU16(portText).Some? then Ok((host, ParseU16(portText).value)) else Err(INVALID_PORT)
  {
    RSplitOnceOfJoin(host, portText, ':');
  }

  /** Every accepted string is its host, a colon, and a colon-free port text
      that parses to the port. */
  lemma ParseSplitsAtLastColon(s: string)
    requires ParseHostPort(s).Ok?
    ensures exists portText :: ':' !in portText && s == ParseHostPort(s).value.0 + ":" + portText
                               && ParseU16(portText) == Some(ParseHostPort(s).value.1)
  {
    var split := RSplitOnce(s, ':').value;
    assert split.0 + ":" + split.1 == s;
  }

  /** Printing any host and port as `host:port` and parsing gives them back. */
  lemma ParseRoundTrip(host: string, port: u16)
    ensures ParseHostPort(host + ":" + ToDecimal(port)) == Ok((host, port))
  {
    var text := ToDecimal(port);
    assert forall i :: 0 <= i < |text| ==> IsDigit(text[i]);
    ParseU16OfDecimal(port);
    ParseJoin(host, text);
  }

  /** A port text that is empty, a lone `+`, holds a `-`, holds a non-digit after
      the optional `+`, or denotes more than 65535 gives the port error. */
  lemma ParseRejectsBadPort(host: string, portText: string)
    requires ':' !in portText
    requires portText == [] || portText == "+" || '-' in portText || !AllDigits(Unsigned(portText))
             || Value(Unsigned(portText)) > U16_MAX
    ensures ParseHostPort(host + ":" + portText) == Err(INVALID_PORT)
  {
    ParseU16Accepts(portText);
    ParseU16Rejects(portText);
    ParseJoin(host, portText);
  }

  /** An IPv6-style host keeps its colons: only the last one separates the port. */
  lemma ParseIpv6Host()
    ensures ParseHostPort("::1:80") == Ok(("::1", 80))
  {
    assert "::1:80" == "::1" + ":" + "80";
    ParseJoin("::1", "80");
  }

  /** A leading `+` on the port is accepted. */
  lemma ParsePlusPort()
    ensures ParseHostPort("h:+80") == Ok(("h", 80))
  {
    assert "h:+80" == "h" + ":" + "+80";
    ParseJoin("h", "+80");
  }

  /** A port one above the largest, and a negative port, are rejected. */
  lemma ParseOutOfRangePorts()
    ensures ParseHostPort("h:65536") == Err(INVALID_PORT)
    ensures ParseHostPort("h:-1") == Err(INVALID_PORT)
  {
    assert "h:65536" == "h" + ":" + "65536";
    ParseJoin("h", "65536");
    assert "h:-1" == "h" + ":" + "-1";
    ParseRejectsBadPort("h", "-1");
  }

  /** Each resolved address paired with the port, in order. */
  function WithPort(ips: seq<IpAddr>, port: u16): (r: seq<SocketAddr>)
    ensures |r| == |ips|
    ensures forall i :: 0 <= i < |ips| ==> r[i] == SocketAddr(ips[i], port)
  {
    if ips == [] then [] else [SocketAddr(ips[0], port)] + WithPort(ips[1..], port)
  }

  /** `LookupHost`: the addresses a DNS query returned, consumed front to back,
      and the port they are all paired with. */
  class LookupHost {
    const addrs: seq<IpAddr>
    var index: nat
    const port: u16

    ghost predicate Valid()
      reads this
    {
      index <= |addrs|
    }

    /** The socket addresses `next` has yet to yield. */
    ghost function Remaining(): seq<SocketAddr>
      reads this
      requires Valid()
    {
      WithPort(addrs[index..], port)
    }

    constructor (addrs: seq<IpAddr>, port: u16)
      ensures Valid() && this.port == port && Remaining() == WithPort(addrs, port)
    {
      this.addrs := addrs;
      this.port := port;
      index := 0;
    }

    /** `port`: the port every remaining address carries. */
    function Port(): (p: u16)
      reads this
      ensures Valid() ==> forall a :: a in Remaining() ==> a.port == p
    {
      port
    }

    /** `Iterator::next`: the first remaining address, or `None` once all are
        consumed, in which case nothing changes. The port never changes. */
    method Next() returns (r: Option<SocketAddr>)
      requires Valid()
      modifies this`index
      ensures Valid()
      ensures old(Remaining()) == [] ==> r == None && Remaining() == []
      ensures old(Remaining()) != [] ==> r == Some(old(Remaining())[0]) && Remaining() == old(Remaining())[1..]
    {
      if index < |addrs| {
        ghost var before := Remaining();
        r := Some(SocketAddr(addrs[index], port));
        index := index + 1;
        assert Remaining() == before[1..];
      } else {
        r := None;
      }
    }

    /** `try_from((&str, u16))`: exactly one DNS query for `host`; its error is
        returned unchanged, its addresses become the iterator. */
    static method TryFromPair(host: string, port: u16, k: Kernel) returns (r: Result<LookupHost, IoError>)
      modifies k`trace
      ensures Extends(old(k.trace), k.trace, 1)
      ensures ResolvedAs(host, port, k.trace[|k.trace| - 1], r)
      ensures r.Ok? ==> fresh(r.value)
    {
      var ips := k.DnsQuery(host);
      match ips
      case Err(e) =>
        r := Err(e);
      case Ok(list) =>
        var l := new LookupHost(list, port);
        r := Ok(l);
    }

    /** `try_from(&str)`: a malformed string fails before any kernel call;
        otherwise the same as `try_from((host, port))` on the parsed pair. */
    static method TryFromStr(s: string, k: Kernel) returns (r: Result<LookupHost, IoError>)
      modifies k`trace
      ensures ParseHostPort(s).Err? ==> r == Err(ParseHostPort(s).error) && k.trace == old(k.trace)
      ensures ParseHostPort(s).Ok? ==>
                Extends(old(k.trace), k.trace, 1)
                && ResolvedAs(ParseHostPort(s).value.0, ParseHostPort(s).value.1, k.trace[|k.trace| - 1], r)
      ensures r.Ok? ==> fresh(r.value)
    {
      var split := RSplitOnce(s, ':');
      if split.None? {
        return Err(INVALID_ADDRESS);
      }
      var (host, portText) := split.value;
      var port := ParseU16(portText);
      if port.None? {
        return Err(INVALID_PORT);
      }
      r := TryFromPair(host, port.value, k);
    }
  }

  /** `t1` is `t0` followed by exactly `n` more events. */
  ghost predicate Extends(t0: seq<Event>, t1: seq<Event>, n: nat) {
    |t1| == |t0| + n && t1[..|t0|] == t0
  }

  /** The outcome of a DNS query event, as `try_from((host, port))` reports it. */
  ghost predicate ResolvedAs(host: string, port: u16, e: Event, r: Result<LookupHost, IoError>)
    reads if r.Ok? then {r.value} else {}
  {
    e.call == AxDnsQuery(host) && e.reply.DnsReply?
    && match e.reply.ips
       case Err(err) => r == Err(err)
       case Ok(ips) => r.Ok? && r.value.Valid() && r.value.port == port && r.value.Remaining() == WithPort(ips, port)
  }

  /** `TcpStream::connect` made these calls: a new socket, then a connect of
      that socket to `a`; the stream holds the socket exactly when the connect succeeded. */
  ghost predicate ConnectedAs(a: SocketAddr, steps: seq<Event>, r: Result<TcpStream, IoError>) {
    |steps| == 2 && steps[0].call == AxTcpSocket && steps[0].reply.NewTcp?
    && var h := steps[0].reply.tcpHandle;
       steps[1].call == AxTcpConnect(h, a) && steps[1].reply.UnitReply?
       && match steps[1].reply.unit
          case Ok(_) => r == Ok(TcpStream(h))
          case Err(e) => r == Err(e)
  }

  /** `TcpListener::bind` made these calls: a new socket, a bind of it to `a`,
      and only when the bind succeeded a listen on it with backlog 128. */
  ghost predicate ListeningAs(a: SocketAddr, steps: seq<Event>, r: Result<TcpListener, IoError>) {
    2 <= |steps| && steps[0].call == AxTcpSocket && steps[0].reply.NewTcp?
    && var h := steps[0].reply.tcpHandle;
       steps[1].call == AxTcpBind(h, a) && steps[1].reply.UnitReply?
       && match steps[1].reply.unit
          case Err(e) => |steps| == 2 && r == Err(e)
          case Ok(_) =>
            |steps| == 3 && steps[2].call == AxTcpListen(h, BACKLOG) && steps[2].reply.UnitReply?
            && match steps[2].reply.unit
               case Ok(_) => r == Ok(TcpListener(h))
               case Err(e) => r == Err(e)
  }

  /** `UdpSocket::bind` made these calls: a new socket, then a bind of it to `a`. */
  ghost predicate UdpBoundAs(a: SocketAddr, steps: seq<Event>, r: Result<UdpSocket, IoError>) {
    |steps| == 2 && steps[0].call == AxUdpSocket && steps[0].reply.NewUdp?
    && var h := steps[0].reply.udpHandle;
       steps[1].call == AxUdpBind(h, a) && steps[1].reply.UnitReply?
       && match steps[1].reply.unit
          case Ok(_) => r == Ok(UdpSocket(h))
          case Err(e) => r == Err(e)
  }

  /** The listener only listens after a successful bind, always with backlog
      128, and a bound listener holds the socket the kernel created. */
  lemma ListenOnlyAfterBind(a: SocketAddr, steps: seq<Event>, r: Result<TcpListener, IoError>)
    requires ListeningAs(a, steps, r)
    ensures forall i :: 0 <= i < |steps| && steps[i].call.AxTcpListen? ==>
              i == 2 && steps[1].reply.unit.Ok? && steps[i].call.backlog == 128
    ensures r.Ok? ==> r.value.inner == steps[0].reply.tcpHandle && |steps| == 3
    ensures r.Ok? <==> steps[1].reply.unit.Ok? && steps[2].reply.unit.Ok?
  {
  }

  /** `TcpStream`: a kernel TCP socket handle. */
  datatype TcpStream = TcpStream(inner: TcpHandle) {

    /** `connect`: an address error is returned before any kernel call. */
    static method Connect(addr: Result<SocketAddr, IoError>, k: Kernel) returns (r: Result<TcpStream, IoError>)
      modifies k`trace
      ensures addr.Err? ==> r == Err(addr.error) && k.trace == old(k.trace)
      ensures addr.Ok? ==> Extends(old(k.trace), k.trace, 2) && ConnectedAs(addr.value, k.trace[|old(k.trace)|..], r)
    {
      if addr.Err? {
        return Err(addr.error);
      }
      var sock := k.TcpSocket();
      var status := k.Unit(AxTcpConnect(sock, addr.value));
      if status.Err? {
        return Err(status.error);
      }
      r := Ok(TcpStream(sock));
    }

    static function ConnectTimeout(addr: SocketAddr, timeout: Time.Duration): (r: Result<TcpStream, IoError>)
      ensures IsUnsupported(r)
    {
      UnsupportedResult()
    }

    function SetReadTimeout(timeout: Option<Time.Duration>): (r: Result<(), IoError>)
      ensures IsUnsupported(r)
    {
      UnsupportedResult()
    }

    function SetWriteTimeout(timeout: Option<Time.Duration>): (r: Result<(), IoError>)
      ensures IsUnsupported(r)
    {
      UnsupportedResult()
    }

    function ReadTimeout(): (r: Result<Option<Time.Duration>, IoError>)
      ensures IsUnsupported(r)
    {
      UnsupportedResult()
    }

    function WriteTimeout(): (r: Result<Option<Time.Duration>, IoError>)
      ensures IsUnsupported(r)
    {
      UnsupportedResult()
    }

    function Peek(capacity: nat): (r: Result<nat, IoError>)
      ensures IsUnsupported(r)
    {
      UnsupportedResult()
    }

    /** `read`: one receive into a buffer of `capacity` bytes; the kernel's reply is the result. */
    method Read(capacity: nat, k: Kernel) returns (r: Result<nat, IoError>)
      modifies k`trace
      ensures k.trace == old(k.trace) + [Event(AxTcpRecv(inner, capacity), CountReply(r))]
    {
      r := k.Count(AxTcpRecv(inner, capacity));
    }

    function ReadBuf(capacity: nat): (r: Result<(), IoError>)
      ensures IsUnsupported(r)
    {
      UnsupportedResult()
    }

    function ReadVectored(capacities: seq<nat>): (r: Result<nat, IoError>)
      ensures IsUnsupported(r)
    {
      UnsupportedResult()
    }

    predicate IsReadVectored()
      ensures !IsReadVectored()
    {
      false
    }

    /** `write`: one send of `data`; the kernel's reply is the result. */
    method Write(data: seq<u8>, k: Kernel) returns (r: Result<nat, IoError>)
      modifies k`trace
      ensures k.trace == old(k.trace) + [Event(AxTcpSend(inner, data), CountReply(r))]
    {
      r := k.Count(AxTcpSend(inner, data));
    }

    function WriteVectored(slices: seq<seq<u8>>): (r: Result<nat, IoError>)
      ensures IsUnsupported(r)
    {
      UnsupportedResult()
    }

    predicate IsWriteVectored()
      ensures !IsWriteVectored()
    {
      false
    }

    method PeerAddr(k: Kernel) returns (r: Result<SocketAddr, IoError>)
      modifies k`trace
      ensures k.trace == old(k.trace) + [Event(AxTcpPeerAddr(inner), AddrReply(r))]
    {
      r := k.Addr(AxTcpPeerAddr(inner));
    }

    method SocketAddress(k: Kernel) returns (r: Result<SocketAddr, IoError>)
      modifies k`trace
      ensures k.trace == old(k.trace) + [Event(AxTcpSocketAddr(inner), AddrReply(r))]
    {
      r := k.Addr(AxTcpSocketAddr(inner));
    }

    /** `shutdown`: the direction argument is not passed to the kernel. */
    method Shutdown(how: Shutdown, k: Kernel) returns (r: Result<(), IoError>)
      modifies k`trace
      ensures k.trace == old(k.trace) + [Event(AxTcpShutdown(inner), UnitReply(r))]
    {
      r := k.Unit(AxTcpShutdown(inner));
    }

    function Duplicate(): (r: Result<TcpStream, IoError>)
      ensures IsUnsupported(r)
    {
      UnsupportedResult()
    }

    function SetLinger(linger: Option<Time.Duration>): (r: Result<(), IoError>)
      ensures IsUnsupported(r)
    {
      UnsupportedResult()
    }

    function Linger(): (r: Result<Option<Time.Duration>, IoError>)
      ensures IsUnsupported(r)
    {
      UnsupportedResult()
    }

    method SetNodelay(nodelay: bool, k: Kernel) returns (r: Result<(), IoError>)
      modifies k`trace
      ensures k.trace == old(k.trace) + [Event(AxTcpSetNodelay(inner, nodelay), UnitReply(r))]
    {
      r := k.Unit(AxTcpSetNodelay(inner, nodelay));
    }

    method Nodelay(k: Kernel) returns (r: Result<bool, IoError>)
      modifies k`trace
      ensures k.trace == old(k.trace) + [Event(AxTcpNodelay(inner), FlagReply(r))]
    {
      r := k.Nodelay(inner);
    }

    function SetTtl(ttl: u32): (r: Result<(), IoError>)
      ensures IsUnsupported(r)
    {
      UnsupportedResult()
    }

    function Ttl(): (r: Result<u32, IoError>)
      ensures IsUnsupported(r)
    {
      UnsupportedResult()
    }

    function TakeError(): (r: Result<Option<IoError>, IoError>)
      ensures IsUnsupported(r)
    {
      UnsupportedResult()
    }

    method SetNonblocking(nonblocking: bool, k: Kernel) returns (r: Result<(), IoError>)
      modifies k`trace
      ensures k.trace == old(k.trace) + [Event(AxTcpSetNonblocking(inner, nonblocking), UnitReply(r))]
    {
      r := k.Unit(AxTcpSetNonblocking(inner, nonblocking));
    }
  }

  /** `std::net::Shutdown`. */
  datatype Shutdown = ShutRead | ShutWrite | ShutBoth

  /** `TcpListener`: a kernel TCP socket handle in the listening state. */
  datatype TcpListener = TcpListener(inner: TcpHandle) {

    /** `bind`: an address error is returned before any kernel call; a failed
        bind returns before the listen. */
    static method Bind(addr: Result<SocketAddr, IoError>, k: Kernel) returns (r: Result<TcpListener, IoError>)
      modifies k`trace
      ensures addr.Err? ==> r == Err(addr.error) && k.trace == old(k.trace)
      ensures addr.Ok? ==> old(k.trace) <= k.trace && ListeningAs(addr.value, k.trace[|old(k.trace)|..], r)
    {
      if addr.Err? {
        return Err(addr.error);
      }
      var backlog := BACKLOG;
      var sock := k.TcpSocket();
      var bound := k.Unit(AxTcpBind(sock, addr.value));
      if bound.Err? {
        return Err(bound.error);
      }
      var listening := k.Unit(AxTcpListen(sock, backlog));
      if listening.Err? {
        return Err(listening.error);
      }
      r := Ok(TcpListener(sock));
    }

    method SocketAddress(k: Kernel) returns (r: Result<SocketAddr, IoError>)
      modifies k`trace
      ensures k.trace == old(k.trace) + [Event(AxTcpSocketAddr(inner), AddrReply(r))]
    {
      r := k.Addr(AxTcpSocketAddr(inner));
    }

    /** `accept`: one accept call; on success a stream over the handle the
        kernel returned, with the peer address it reported. */
    method Accept(k: Kernel) returns (r: Result<(TcpStream, SocketAddr), IoError>)
      modifies k`trace
      ensures Extends(old(k.trace), k.trace, 1)
      ensures k.trace[|k.trace| - 1].call == AxTcpAccept(inner) && k.trace[|k.trace| - 1].reply.AcceptReply?
      ensures match k.trace[|k.trace| - 1].reply.accepted
              case Ok((h, peer)) => r == Ok((TcpStream(h), peer))
              case Err(e) => r == Err(e)
    {
      var accepted := k.Accept(inner);
      match accepted
      case Err(e) =>
        r := Err(e);
      case Ok((sock, peer)) =>
        r := Ok((TcpStream(sock), peer));
    }

    function Duplicate(): (r: Result<TcpListener, IoError>)
      ensures IsUnsupported(r)
    {
      UnsupportedResult()
    }

    function SetTtl(ttl: u32): (r: Result<(), IoError>)
      ensures IsUnsupported(r)
    {
      UnsupportedResult()
    }

    function Ttl(): (r: Result<u32, IoError>)
      ensures IsUnsupported(r)
    {
      UnsupportedResult()
    }

    function SetOnlyV6(onlyV6: bool): (r: Result<(), IoError>)
      ensures IsUnsupported(r)
    {
      UnsupportedResult()
    }

    function OnlyV6(): (r: Result<bool, IoError>)
      ensures IsUnsupported(r)
    {
      UnsupportedResult()
    }

    function TakeError(): (r: Result<Option<IoError>, IoError>)
      ensures IsUnsupported(r)
    {
      UnsupportedResult()
    }

    method SetNonblocking(nonblocking: bool, k: Kernel) returns (r: Result<(), IoError>)
      modifies k`trace
      ensures k.trace == old(k.trace) + [Event(AxTcpSetNonblocking(inner, nonblocking), UnitReply(r))]
    {
      r := k.Unit(AxTcpSetNonblocking(inner, nonblocking));
    }
  }

  /** `UdpSocket`: a kernel UDP socket handle. */
  datatype UdpSocket = UdpSocket(inner: UdpHandle) {

    /** `bind`: an address error is returned before any kernel call. */
    static method Bind(addr: Result<SocketAddr, IoError>, k: Kernel) returns (r: Result<UdpSocket, IoError>)
      modifies k`trace
      ensures addr.Err? ==> r == Err(addr.error) && k.trace == old(k.trace)
      ensures addr.Ok? ==> Extends(old(k.trace), k.trace, 2) && UdpBoundAs(addr.value, k.trace[|old(k.trace)|..], r)
    {
      if addr.Err? {
        return Err(addr.error);
      }
      var sock := k.UdpSocket();
      var bound := k.Unit(AxUdpBind(sock, addr.value));
      if bound.Err? {
        return Err(bound.error);
      }
      r := Ok(UdpSocket(sock));
    }

    method PeerAddr(k: Kernel) returns (r: Result<SocketAddr, IoError>)
      modifies k`trace
      ensures k.trace == old(k.trace) + [Event(AxUdpPeerAddr(inner), AddrReply(r))]
    {
      r := k.Addr(AxUdpPeerAddr(inner));
    }

    method SocketAddress(k: Kernel) returns (r: Result<SocketAddr, IoError>)
      modifies k`trace
      ensures k.trace == old(k.trace) + [Event(AxUdpSocketAddr(inner), AddrReply(r))]
    {
      r := k.Addr(AxUdpSocketAddr(inner));
    }

    method RecvFrom(capacity: nat, k: Kernel) returns (r: Result<(nat, SocketAddr), IoError>)
      modifies k`trace
      ensures k.trace == old(k.trace) + [Event(AxUdpRecvFrom(inner, capacity), DatagramReply(r))]
    {
      r := k.Datagram(AxUdpRecvFrom(inner, capacity));
    }

    method PeekFrom(capacity: nat, k: Kernel) returns (r: Result<(nat, SocketAddr), IoError>)
      modifies k`trace
      ensures k.trace == old(k.trace) + [Event(AxUdpPeekFrom(inner, capacity), DatagramReply(r))]
    {
      r := k.Datagram(AxUdpPeekFrom(inner, capacity));
    }

    method SendTo(data: seq<u8>, dst: SocketAddr, k: Kernel) returns (r: Result<nat, IoError>)
      modifies k`trace
      ensures k.trace == old(k.trace) + [Event(AxUdpSendTo(inner, data, dst), CountReply(r))]
    {
      r := k.Count(AxUdpSendTo(inner, data, dst));
    }

    function Duplicate(): (r: Result<UdpSocket, IoError>)
      ensures IsUnsupported(r)
    {
      UnsupportedResult()
    }

    function SetReadTimeout(timeout: Option<Time.Duration>): (r: Result<(), IoError>)
      ensures IsUnsupported(r)
    {
      UnsupportedResult()
    }

    function SetWriteTimeout(timeout: Option<Time.Duration>): (r: Result<(), IoError>)
      ensures IsUnsupported(r)
    {
      UnsupportedResult()
    }

    function ReadTimeout(): (r: Result<Option<Time.Duration>, IoError>)
      ensures IsUnsupported(r)
    {
      UnsupportedResult()
    }

    function WriteTimeout(): (r: Result<Option<Time.Duration>, IoError>)
      ensures IsUnsupported(r)
    {
      UnsupportedResult()
    }

    function SetBroadcast(broadcast: bool): (r: Result<(), IoError>)
      ensures IsUnsupported(r)
    {
      UnsupportedResult()
    }

    function Broadcast(): (r: Result<bool, IoError>)
      ensures IsUnsupported(r)
    {
      UnsupportedResult()
    }

    function SetMulticastLoopV4(on: bool): (r: Result<(), IoError>)
      ensures IsUnsupported(r)
    {
      UnsupportedResult()
    }

    function MulticastLoopV4(): (r: Result<bool, IoError>)
      ensures IsUnsupported(r)
    {
      UnsupportedResult()
    }

    function SetMulticastTtlV4(ttl: u32): (r: Result<(), IoError>)
      ensures IsUnsupported(r)
    {
      UnsupportedResult()
    }

    function MulticastTtlV4(): (r: Result<u32, IoError>)
      ensures IsUnsupported(r)
    {
      UnsupportedResult()
    }

    function SetMulticastLoopV6(on: bool): (r: Result<(), IoError>)
      ensures IsUnsupported(r)
    {
      UnsupportedResult()
    }

    function MulticastLoopV6(): (r: Result<bool, IoError>)
      ensures IsUnsupported(r)
    {
      UnsupportedResult()
    }

    function JoinMulticastV4(group: bv32, iface: bv32): (r: Result<(), IoError>)
      ensures IsUnsupported(r)
    {
      UnsupportedResult()
    }

    function JoinMulticastV6(group: bv128, iface: u32): (r: Result<(), IoError>)
      ensures IsUnsupported(r)
    {
      UnsupportedResult()
    }

    function LeaveMulticastV4(group: bv32, iface: bv32): (r: Result<(), IoError>)
      ensures IsUnsupported(r)
    {
      UnsupportedResult()
    }

    function LeaveMulticastV6(group: bv128, iface: u32): (r: Result<(), IoError>)
      ensures IsUnsupported(r)
    {
      UnsupportedResult()
    }

    function SetTtl(ttl: u32): (r: Result<(), IoError>)
      ensures IsUnsupported(r)
    {
      UnsupportedResult()
    }

    function Ttl(): (r: Result<u32, IoError>)
      ensures IsUnsupported(r)
    {
      UnsupportedResult()
    }

    function TakeError(): (r: Result<Option<IoError>, IoError>)
      ensures IsUnsupported(r)
    {
      UnsupportedResult()
    }

    method SetNonblocking(nonblocking: bool, k: Kernel) returns (r: Result<(), IoError>)
      modifies k`trace
      ensures k.trace == old(k.trace) + [Event(AxUdpSetNonblocking(inner, nonblocking), UnitReply(r))]
    {
      r := k.Unit(AxUdpSetNonblocking(inner, nonblocking));
    }

    method Recv(capacity: nat, k: Kernel) returns (r: Result<nat, IoError>)
      modifies k`trace
      ensures k.trace == old(k.trace) + [Event(AxUdpRecv(inner, capacity), CountReply(r))]
    {
      r := k.Count(AxUdpRecv(inner, capacity));
    }

    function Peek(capacity: nat): (r: Result<nat, IoError>)
      ensures IsUnsupported(r)
    {
      UnsupportedResult()
    }

    method Send(data: seq<u8>, k: Kernel) returns (r: Result<nat, IoError>)
      modifies k`trace
      ensures k.trace == old(k.trace) + [Event(AxUdpSend(inner, data), CountReply(r))]
    {
      r := k.Count(AxUdpSend(inner, data));
    }

    /** `connect`: an address error is returned before any kernel call. */
    method Connect(addr: Result<SocketAddr, IoError>, k: Kernel) returns (r: Result<(), IoError>)
      modifies k`trace
      ensures addr.Err? ==> r == Err(addr.error) && k.trace == old(k.trace)
      ensures addr.Ok? ==> k.trace == old(k.trace) + [Event(AxUdpConnect(inner, addr.value), UnitReply(r))]
    {
      if addr.Err? {
        return Err(addr.error);
      }
      r := k.Unit(AxUdpConnect(inner, addr.value));
    }
  }
}
