/** The kernel's network interface (`arceos_api::net`) as the std adapter sees
    it: opaque calls on socket handles. Nothing is said about what the kernel
    does; each call is recorded, together with the reply it gave, in a trace,
    and the replies themselves come from an arbitrary oracle fixed when the
    kernel is created. Errors arrive already as `io::Error` values. */
module AxNet {
  import opened Common
  import opened Errors

  /** `core::net::IpAddr`: an IPv4 or IPv6 address. */
  datatype IpAddr = V4(octets4: bv32) | V6(octets16: bv128)

  /** `core::net::SocketAddr`: an address and a port. */
  datatype SocketAddr = SocketAddr(ip: IpAddr, port: u16)

  /** `AxTcpSocketHandle` and `AxUdpSocketHandle`, identified by a number. */
  datatype TcpHandle = TcpHandle(tcpId: nat)
  datatype UdpHandle = UdpHandle(udpId: nat)

  /** One call into the kernel, named after the `ax_*` function and holding the
      arguments it is given; a buffer is represented by its length or contents. */
  datatype Call =
    | AxTcpSocket
    | AxTcpConnect(tcp: TcpHandle, addr: SocketAddr)
    | AxTcpBind(tcp: TcpHandle, addr: SocketAddr)
    | AxTcpListen(tcp: TcpHandle, backlog: nat)
    | AxTcpAccept(tcp: TcpHandle)
    | AxTcpRecv(tcp: TcpHandle, capacity: nat)
    | AxTcpSend(tcp: TcpHandle, data: seq<u8>)
    | AxTcpPeerAddr(tcp: TcpHandle)
    | AxTcpSocketAddr(tcp: TcpHandle)
    | AxTcpShutdown(tcp: TcpHandle)
    | AxTcpSetNodelay(tcp: TcpHandle, flag: bool)
    | AxTcpNodelay(tcp: TcpHandle)
    | AxTcpSetNonblocking(tcp: TcpHandle, flag: bool)
    | AxUdpSocket
    | AxUdpBind(udp: UdpHandle, addr: SocketAddr)
    | AxUdpConnect(udp: UdpHandle, addr: SocketAddr)
    | AxUdpPeerAddr(udp: UdpHandle)
    | AxUdpSocketAddr(udp: UdpHandle)
    | AxUdpRecvFrom(udp: UdpHandle, capacity: nat)
    | AxUdpPeekFrom(udp: UdpHandle, capacity: nat)
    | AxUdpSendTo(udp: UdpHandle, data: seq<u8>, addr: SocketAddr)
    | AxUdpRecv(udp: UdpHandle, capacity: nat)
    | AxUdpSend(udp: UdpHandle, data: seq<u8>)
    | AxUdpSetNonblocking(udp: UdpHandle, flag: bool)
    | AxDnsQuery(host: string)
  {
    /** Calls whose reply is `io::Result<()>`. */
    predicate GivesUnit() {
      AxTcpConnect? || AxTcpBind? || AxTcpListen? || AxTcpShutdown? || AxTcpSetNodelay?
      || AxTcpSetNonblocking? || AxUdpBind? || AxUdpConnect? || AxUdpSetNonblocking?
    }

    /** Calls whose reply is `io::Result<usize>`. */
    predicate GivesCount() {
      AxTcpRecv? || AxTcpSend? || AxUdpSendTo? || AxUdpRecv? || AxUdpSend?
    }

    /** Calls whose reply is `io::Result<SocketAddr>`. */
    predicate GivesAddr() {
      AxTcpPeerAddr? || AxTcpSocketAddr? || AxUdpPeerAddr? || AxUdpSocketAddr?
    }

    /** Calls whose reply is `io::Result<(usize, SocketAddr)>`. */
    predicate GivesDatagram() {
      AxUdpRecvFrom? || AxUdpPeekFrom?
    }
  }

  /** What the kernel answered. */
  datatype Reply =
    | NewTcp(tcpHandle: TcpHandle)
    | NewUdp(udpHandle: UdpHandle)
    | UnitReply(unit: Result<(), IoError>)
    | CountReply(count: Result<nat, IoError>)
    | FlagReply(flag: Result<bool, IoError>)
    | AddrReply(addr: Result<SocketAddr, IoError>)
    | AcceptReply(accepted: Result<(TcpHandle, SocketAddr), IoError>)
    | DatagramReply(datagram: Result<(nat, SocketAddr), IoError>)
    | DnsReply(ips: Result<seq<IpAddr>, IoError>)

  datatype Event = Event(call: Call, reply: Reply)

  /** The kernel's answer to the n-th call, for each shape of reply. */
  datatype Oracle = Oracle(
    tcp: nat -> TcpHandle,
    udp: nat -> UdpHandle,
    unit: nat -> Result<(), IoError>,
    count: nat -> Result<nat, IoError>,
    flag: nat -> Result<bool, IoError>,
    addr: nat -> Result<SocketAddr, IoError>,
    accepted: nat -> Result<(TcpHandle, SocketAddr), IoError>,
    datagram: nat -> Result<(nat, SocketAddr), IoError>,
    dns: nat -> Result<seq<IpAddr>, IoError>)

  /** The kernel: every call appends one event to `trace`. */
  class Kernel {
    var trace: seq<Event>
    const oracle: Oracle

    constructor (oracle: Oracle)
      ensures trace == [] && this.oracle == oracle
    {
      trace := [];
      this.oracle := oracle;
    }

    /** `ax_tcp_socket`, which cannot fail. */
    method TcpSocket() returns (h: TcpHandle)
      modifies this`trace
      ensures trace == old(trace) + [Event(AxTcpSocket, NewTcp(h))]
    {
      h := oracle.tcp(|trace|);
      trace := trace + [Event(AxTcpSocket, NewTcp(h))];
    }

    /** `ax_udp_socket`, which cannot fail. */
    method UdpSocket() returns (h: UdpHandle)
      modifies this`trace
      ensures trace == old(trace) + [Event(AxUdpSocket, NewUdp(h))]
    {
      h := oracle.udp(|trace|);
      trace := trace + [Event(AxUdpSocket, NewUdp(h))];
    }

    method Unit(c: Call) returns (r: Result<(), IoError>)
      requires c.GivesUnit()
      modifies this`trace
      ensures trace == old(trace) + [Event(c, UnitReply(r))]
    {
      r := oracle.unit(|trace|);
      trace := trace + [Event(c, UnitReply(r))];
    }

    method Count(c: Call) returns (r: Result<nat, IoError>)
      requires c.GivesCount()
      modifies this`trace
      ensures trace == old(trace) + [Event(c, CountReply(r))]
    {
      r := oracle.count(|trace|);
      trace := trace + [Event(c, CountReply(r))];
    }

    /** `ax_tcp_nodelay`. */
    method Nodelay(h: TcpHandle) returns (r: Result<bool, IoError>)
      modifies this`trace
      ensures trace == old(trace) + [Event(AxTcpNodelay(h), FlagReply(r))]
    {
      r := oracle.flag(|trace|);
      trace := trace + [Event(AxTcpNodelay(h), FlagReply(r))];
    }

    method Addr(c: Call) returns (r: Result<SocketAddr, IoError>)
      requires c.GivesAddr()
      modifies this`trace
      ensures trace == old(trace) + [Event(c, AddrReply(r))]
    {
      r := oracle.addr(|trace|);
      trace := trace + [Event(c, AddrReply(r))];
    }

    /** `ax_tcp_accept`. */
    method Accept(h: TcpHandle) returns (r: Result<(TcpHandle, SocketAddr), IoError>)
      modifies this`trace
      ensures trace == old(trace) + [Event(AxTcpAccept(h), AcceptReply(r))]
    {
      r := oracle.accepted(|trace|);
      trace := trace + [Event(AxTcpAccept(h), AcceptReply(r))];
    }

    method Datagram(c: Call) returns (r: Result<(nat, SocketAddr), IoError>)
      requires c.GivesDatagram()
      modifies this`trace
      ensures trace == old(trace) + [Event(c, DatagramReply(r))]
    {
      r := oracle.datagram(|trace|);
      trace := trace + [Event(c, DatagramReply(r))];
    }

    /** `ax_dns_query`. */
    method DnsQuery(host: string) returns (r: Result<seq<IpAddr>, IoError>)
      modifies this`trace
      ensures trace == old(trace) + [Event(AxDnsQuery(host), DnsReply(r))]
    {
      r := oracle.dns(|trace|);
      trace := trace + [Event(AxDnsQuery(host), DnsReply(r))];
    }
  }
}
