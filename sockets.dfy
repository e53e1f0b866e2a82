/**
 * `build_tcp_listener` and `build_udp_socket` (bin/src/hickory-dns.rs): the
 * option sequence applied to a fresh socket before it is handed to Tokio. An
 * IPv6 socket is made IPv6-only (the IPV6_V6ONLY option of section 5.3 of
 * RFC 3493), so it never accepts IPv4-mapped traffic.
 */
module Sockets {
  import opened Basics
  import opened Numbers
  import opened Host

  /** The backlog `build_tcp_listener` passes to `listen`. */
  const LISTEN_BACKLOG: nat := 128

  function DomainOf(ip: IpAddr): (d: Domain)
    ensures d == IPV6 <==> ip.V6?
  {
    if ip.V4? then IPV4 else IPV6
  }

  /** The IPv6-only option, issued for IPv6 sockets only. */
  function OnlyV6(ip: IpAddr): seq<Effect>
  {
    if ip.V6? then [SetOnlyV6(true)] else []
  }

  /** The effects of `build_tcp_listener(ip, port)` when every one of them succeeds. */
  function TcpListenerOps(ip: IpAddr, port: u16): seq<Effect>
  {
    [SocketNew(DomainOf(ip), Stream)] + OnlyV6(ip)
      + [SetNonblocking(true), Bind(ip, port), Listen(LISTEN_BACKLOG), FromStd(Stream)]
  }

  /** The effects of `build_udp_socket(ip, port)` when every one of them succeeds. */
  function UdpSocketOps(ip: IpAddr, port: u16): seq<Effect>
  {
    [SocketNew(DomainOf(ip), Dgram)] + OnlyV6(ip)
      + [SetNonblocking(true), Bind(ip, port), FromStd(Dgram)]
  }

  /** The socket builders of the two transports families: stream for TCP, TLS and HTTPS, datagram for UDP and QUIC. */
  function SocketOps(kind: SockType, ip: IpAddr, port: u16): seq<Effect>
  {
    match kind
    case Stream => TcpListenerOps(ip, port)
    case Dgram => UdpSocketOps(ip, port)
  }

  /** `x` occurs in `ops`, and its first occurrence comes before the first occurrence of `y`. */
  predicate Before(ops: seq<Effect>, x: Effect, y: Effect)
  {
    exists i, j :: 0 <= i < j < |ops| && ops[i] == x && ops[j] == y && x !in ops[..i] && y !in ops[..j]
  }

  /**
   * The option order of both builders: the socket is created first; an
   * IPv6 socket is made IPv6-only before it is made non-blocking, an IPv4
   * socket never is; non-blocking mode comes before the bind to `ip:port`,
   * and the bind before the conversion into a Tokio socket. A stream socket
   * listens with a backlog of 128 after the bind and before the conversion;
   * a datagram socket never listens.
   */
  lemma SetupOrder(kind: SockType, ip: IpAddr, port: u16)
    ensures var ops := SocketOps(kind, ip, port);
      && ops[0] == SocketNew(DomainOf(ip), kind)
      && (ip.V6? ==> Before(ops, SetOnlyV6(true), SetNonblocking(true)))
      && (ip.V4? ==> SetOnlyV6(true) !in ops)
      && Before(ops, SetNonblocking(true), Bind(ip, port))
      && Before(ops, Bind(ip, port), FromStd(kind))
      && (kind == Stream ==>
            Before(ops, Bind(ip, port), Listen(LISTEN_BACKLOG)) && Before(ops, Listen(LISTEN_BACKLOG), FromStd(kind)))
      && (kind == Dgram ==> forall k :: 0 <= k < |ops| ==> !ops[k].Listen?)
  {
    var ops := SocketOps(kind, ip, port);
    var d := |OnlyV6(ip)|;
    if ip.V6? {
      assert ops[1] == SetOnlyV6(true);
      assert ops[..1] == [SocketNew(DomainOf(ip), kind)];
    }
    assert ops[1 + d] == SetNonblocking(true);
    assert ops[2 + d] == Bind(ip, port);
    assert SetNonblocking(true) !in ops[..1 + d];
    assert Bind(ip, port) !in ops[..2 + d];
    if kind == Stream {
      assert ops[3 + d] == Listen(LISTEN_BACKLOG);
      assert ops[4 + d] == FromStd(kind);
      assert Listen(LISTEN_BACKLOG) !in ops[..3 + d];
      assert FromStd(kind) !in ops[..4 + d];
    } else {
      assert ops[3 + d] == FromStd(kind);
      assert FromStd(kind) !in ops[..3 + d];
    }
  }

  /** Building a socket only creates and configures it: it never loads, registers or changes identity. */
  lemma SocketSetupOnly(kind: SockType, ip: IpAddr, port: u16)
    ensures var ops := SocketOps(kind, ip, port);
      forall k :: 0 <= k < |ops| ==>
        ops[k].SocketNew? || ops[k].SetOnlyV6? || ops[k].SetNonblocking? || ops[k].Bind? || ops[k].Listen? || ops[k].FromStd?
  {
  }

  /** `build_tcp_listener`: creates, configures, binds and listens, stopping at the first failure. */
  method BuildTcpListener(host: Host, ip: IpAddr, port: u16) returns (success: bool)
    modifies host
    ensures host.trace == old(host.trace) + Attempt(TcpListenerOps(ip, port), host.ok, |old(host.trace)|)
    ensures success == Completes(TcpListenerOps(ip, port), host.ok, |old(host.trace)|)
    ensures host.ids == old(host.ids)
  {
    ghost var pos := |host.trace|;
    ghost var setup := [SocketNew(DomainOf(ip), Stream)] + OnlyV6(ip);
    ghost var bound := setup + [SetNonblocking(true), Bind(ip, port)];
    AttemptAppend(bound, [Listen(LISTEN_BACKLOG), FromStd(Stream)], host.ok, pos);
    assert TcpListenerOps(ip, port) == bound + [Listen(LISTEN_BACKLOG), FromStd(Stream)];
    success := OpenBound(host, Stream, ip, port);
    if !success {
      return;
    }
    AttemptCompletes(bound, host.ok, pos);
    assert [Listen(LISTEN_BACKLOG), FromStd(Stream)] == [Listen(LISTEN_BACKLOG)] + [FromStd(Stream)];
    AttemptStep(Listen(LISTEN_BACKLOG), [FromStd(Stream)], host.ok, pos + |bound|);
    AttemptOne(FromStd(Stream), host.ok, pos + |bound| + 1);
    success := host.Perform(Listen(LISTEN_BACKLOG));
    if !success {
      return;
    }
    success := host.Perform(FromStd(Stream));
  }

  /** `build_udp_socket`: creates, configures and binds, stopping at the first failure. */
  method BuildUdpSocket(host: Host, ip: IpAddr, port: u16) returns (success: bool)
    modifies host
    ensures host.trace == old(host.trace) + Attempt(UdpSocketOps(ip, port), host.ok, |old(host.trace)|)
    ensures success == Completes(UdpSocketOps(ip, port), host.ok, |old(host.trace)|)
    ensures host.ids == old(host.ids)
  {
    ghost var pos := |host.trace|;
    ghost var setup := [SocketNew(DomainOf(ip), Dgram)] + OnlyV6(ip);
    ghost var bound := setup + [SetNonblocking(true), Bind(ip, port)];
    AttemptAppend(bound, [FromStd(Dgram)], host.ok, pos);
    assert UdpSocketOps(ip, port) == bound + [FromStd(Dgram)];
    success := OpenBound(host, Dgram, ip, port);
    if !success {
      return;
    }
    AttemptCompletes(bound, host.ok, pos);
    AttemptOne(FromStd(Dgram), host.ok, pos + |bound|);
    success := host.Perform(FromStd(Dgram));
  }

  /** The builder of a socket kind: `build_tcp_listener` for stream sockets, `build_udp_socket` for datagram ones. */
  method BuildSocket(host: Host, kind: SockType, ip: IpAddr, port: u16) returns (success: bool)
    modifies host
    ensures host.trace == old(host.trace) + Attempt(SocketOps(kind, ip, port), host.ok, |old(host.trace)|)
    ensures success == Completes(SocketOps(kind, ip, port), host.ok, |old(host.trace)|)
    ensures host.ids == old(host.ids)
  {
    match kind {
      case Stream => success := BuildTcpListener(host, ip, port);
      case Dgram => success := BuildUdpSocket(host, ip, port);
    }
  }

  /** The part both builders share: open the socket, make it non-blocking, bind it to `ip:port`. */
  method OpenBound(host: Host, kind: SockType, ip: IpAddr, port: u16) returns (success: bool)
    modifies host
    ensures var bound := [SocketNew(DomainOf(ip), kind)] + OnlyV6(ip) + [SetNonblocking(true), Bind(ip, port)];
      && host.trace == old(host.trace) + Attempt(bound, host.ok, |old(host.trace)|)
      && success == Completes(bound, host.ok, |old(host.trace)|)
    ensures host.ids == old(host.ids)
  {
    ghost var pos := |host.trace|;
    ghost var setup := [SocketNew(DomainOf(ip), kind)] + OnlyV6(ip);
    AttemptAppend(setup, [SetNonblocking(true), Bind(ip, port)], host.ok, pos);
    success := OpenSocket(host, kind, ip);
    if !success {
      return;
    }
    AttemptCompletes(setup, host.ok, pos);
    assert [SetNonblocking(true), Bind(ip, port)] == [SetNonblocking(true)] + [Bind(ip, port)];
    AttemptStep(SetNonblocking(true), [Bind(ip, port)], host.ok, pos + |setup|);
    AttemptOne(Bind(ip, port), host.ok, pos + |setup| + 1);
    success := host.Perform(SetNonblocking(true));
    if !success {
      return;
    }
    success := host.Perform(Bind(ip, port));
  }

  /** The `if ip.is_ipv4()` head shared by both builders: `Socket::new`, then IPv6-only for IPv6. */
  method OpenSocket(host: Host, kind: SockType, ip: IpAddr) returns (success: bool)
    modifies host
    ensures var setup := [SocketNew(DomainOf(ip), kind)] + OnlyV6(ip);
      && host.trace == old(host.trace) + Attempt(setup, host.ok, |old(host.trace)|)
      && success == Completes(setup, host.ok, |old(host.trace)|)
    ensures host.ids == old(host.ids)
  {
    ghost var pos := |host.trace|;
    AttemptAppend([SocketNew(DomainOf(ip), kind)], OnlyV6(ip), host.ok, pos);
    AttemptOne(SocketNew(DomainOf(ip), kind), host.ok, pos);
    success := host.Perform(SocketNew(DomainOf(ip), kind));
    if !success || ip.V4? {
      return;
    }
    AttemptOne(SetOnlyV6(true), host.ok, pos + 1);
    success := host.Perform(SetOnlyV6(true));
  }
}
