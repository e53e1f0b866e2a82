/**
 * The inputs of the `hickory-dns` startup (bin/src/hickory-dns.rs): the
 * command line, the parts of the configuration file startup reads, the
 * errors it reports, and the pure decisions made from them — log level,
 * listen plan, ports and which transports are enabled.
 */
module ServerConfig {
  import opened Basics
  import opened Numbers
  import opened Host

  /** The command-line options startup consults (`struct Cli`). */
  datatype Cli = Cli(
    validate: bool,
    quiet: bool,
    debug: bool,
    zonedir: Option<string>,
    port: Option<u16>,
    tlsPort: Option<u16>,
    httpsPort: Option<u16>,
    quicPort: Option<u16>,
    disableTcp: bool,
    disableUdp: bool,
    disableTls: bool,
    disableHttps: bool,
    disableQuic: bool)

  /** `TlsCertConfig`: where the certificate is loaded from. */
  datatype TlsCertConfig = TlsCertConfig(path: string)

  /** One `[[zones]]` entry; `name` is `None` when `zone.zone()` cannot read the zone name. */
  datatype ZoneConfig = ZoneConfig(name: Option<string>)

  /**
   * The configuration file as startup reads it. `listenV4`/`listenV6` are
   * `None` when the address lists fail to parse.
   */
  datatype Config = Config(
    directory: string,
    zones: seq<ZoneConfig>,
    listenV4: Option<seq<u32>>,
    listenV6: Option<seq<u128>>,
    listenPort: u16,
    tlsListenPort: u16,
    httpsListenPort: u16,
    quicListenPort: u16,
    disableUdp: bool,
    disableTcp: bool,
    disableTls: bool,
    disableHttps: bool,
    disableQuic: bool,
    tlsCert: Option<TlsCertConfig>,
    user: Option<string>,
    group: Option<string>)

  /** The step of a listener setup that failed. */
  datatype Stage = CertLoad | SocketBind | LocalAddrLookup | Registration

  /** Why `check_drop_privs` stopped the server. */
  datatype DropError =
    | UserNotCString(user: string)
    | GroupNotCString(group: string)
    | UnknownUser(user: string)
    | UnknownGroup(group: string)
    | SetGidFailed
    | SetUidFailed

  /** The errors `async_run` returns, one per `?` and `return Err` of the startup path. */
  datatype StartupError =
    | ConfigUnreadable
    | ZoneNameUnreadable(zone: nat)
    | ZoneLoadFailed(zone: nat, name: string)
    | Ipv4Unparsable
    | Ipv6Unparsable
    | ListenerFailed(transport: Transport, addr: IpAddr, stage: Stage)
    | PrivilegeDropFailed(reason: DropError)

  /** `tracing::Level`, the three the binary chooses from. */
  datatype Level = ERROR | INFO | DEBUG

  /** The level match in `run`: quiet wins over debug, and the default is INFO. */
  function LogLevel(quiet: bool, debug: bool): (r: Level)
    ensures r == ERROR <==> quiet
    ensures r == DEBUG <==> !quiet && debug
    ensures r == INFO <==> !quiet && !debug
  {
    match (quiet, debug)
    case (true, _) => ERROR
    case (_, true) => DEBUG
    case _ => INFO
  }

  /** How much a level lets through: a filter at a level passes the events of every level at most as verbose. */
  function Verbosity(level: Level): nat
  {
    match level
    case ERROR => 0
    case INFO => 1
    case DEBUG => 2
  }

  /**
   * Whether the subscriber `run` installs lets an `info!` event through:
   * its filter's default directive is the chosen level. An event's
   * arguments are evaluated only when the event is let through.
   */
  function InfoLogged(args: Cli): (r: bool)
    ensures r <==> !args.quiet
  {
    Verbosity(INFO) <= Verbosity(LogLevel(args.quiet, args.debug))
  }

  function MapV4(v4: seq<u32>): (r: seq<IpAddr>)
    ensures |r| == |v4|
  {
    if v4 == [] then [] else [V4(v4[0])] + MapV4(v4[1..])
  }

  function MapV6(v6: seq<u128>): (r: seq<IpAddr>)
    ensures |r| == |v6|
  {
    if v6 == [] then [] else [V6(v6[0])] + MapV6(v6[1..])
  }

  lemma {:induction false} MapV4At(v4: seq<u32>)
    ensures forall i :: 0 <= i < |v4| ==> MapV4(v4)[i] == V4(v4[i])
    decreases |v4|
  {
    if v4 != [] {
      MapV4At(v4[1..]);
    }
  }

  lemma {:induction false} MapV6At(v6: seq<u128>)
    ensures forall i :: 0 <= i < |v6| ==> MapV6(v6)[i] == V6(v6[i])
    decreases |v6|
  {
    if v6 != [] {
      MapV6At(v6[1..]);
    }
  }

  /**
   * The listen plan: all configured IPv4 addresses, then all IPv6 addresses,
   * duplicates kept; both unspecified addresses when neither list has one.
   */
  function ListenAddrs(v4: seq<u32>, v6: seq<u128>): (r: seq<IpAddr>)
    ensures r != []
  {
    var addrs := MapV4(v4) + MapV6(v6);
    if addrs == [] then [V4_UNSPECIFIED, V6_UNSPECIFIED] else addrs
  }

  /** What the listen plan holds, address by address. */
  lemma ListenPlan(v4: seq<u32>, v6: seq<u128>)
    ensures var r := ListenAddrs(v4, v6);
      && (v4 == [] && v6 == [] ==> r == [V4_UNSPECIFIED, V6_UNSPECIFIED])
      && (v4 != [] || v6 != [] ==>
            && |r| == |v4| + |v6|
            && (forall i :: 0 <= i < |v4| ==> r[i] == V4(v4[i]))
            && (forall j :: 0 <= j < |v6| ==> r[|v4| + j] == V6(v6[j])))
  {
    MapV4At(v4);
    MapV6At(v6);
  }

  /** In the listen plan every IPv4 address comes before every IPv6 address. */
  lemma V4BeforeV6(v4: seq<u32>, v6: seq<u128>, i: nat, j: nat)
    requires var r := ListenAddrs(v4, v6); i < |r| && j < |r| && r[i].V4? && r[j].V6?
    ensures i < j
  {
    ListenPlan(v4, v6);
    if v4 != [] || v6 != [] {
      var r := ListenAddrs(v4, v6);
      forall k | |v4| <= k < |r| ensures r[k].V6? {
        assert r[|v4| + (k - |v4|)] == V6(v6[k - |v4|]);
      }
    }
  }

  /** `cli.unwrap_or(config)`: a port given on the command line overrides the configured one. */
  function EffectivePort(cli: Option<u16>, configured: u16): (r: u16)
    ensures cli.Some? ==> r == cli.value
    ensures cli.None? ==> r == configured
  {
    cli.GetOr(configured)
  }

  /** The port a transport listens on. */
  function PortFor(t: Transport, args: Cli, config: Config): u16
  {
    match t
    case Udp => EffectivePort(args.port, config.listenPort)
    case Tcp => EffectivePort(args.port, config.listenPort)
    case Tls => EffectivePort(args.tlsPort, config.tlsListenPort)
    case Https => EffectivePort(args.httpsPort, config.httpsListenPort)
    case Quic => EffectivePort(args.quicPort, config.quicListenPort)
  }

  /** The transports that run over TLS and so need a certificate. */
  predicate TlsFamily(t: Transport)
  {
    t == Tls || t == Https || t == Quic
  }

  /** The socket kind a transport binds: datagram for UDP and QUIC, stream for the others. */
  function KindOf(t: Transport): (k: SockType)
    ensures k == Dgram <==> t == Udp || t == Quic
  {
    if t == Udp || t == Quic then Dgram else Stream
  }

  predicate DisabledOnCli(t: Transport, args: Cli)
  {
    match t
    case Udp => args.disableUdp
    case Tcp => args.disableTcp
    case Tls => args.disableTls
    case Https => args.disableHttps
    case Quic => args.disableQuic
  }

  predicate DisabledInConfig(t: Transport, config: Config)
  {
    match t
    case Udp => config.disableUdp
    case Tcp => config.disableTcp
    case Tls => config.disableTls
    case Https => config.disableHttps
    case Quic => config.disableQuic
  }

  /**
   * Whether startup sets up listeners for `t`: neither the command line nor
   * the configuration disables it, and a TLS-family transport also needs a
   * configured certificate.
   */
  predicate Enabled(t: Transport, args: Cli, config: Config)
  {
    && !DisabledOnCli(t, args)
    && !DisabledInConfig(t, config)
    && (TlsFamily(t) ==> config.tlsCert.Some?)
  }

  /** The certificate path of the TLS-family listeners (unused by UDP and TCP). */
  function CertPath(config: Config): string
  {
    match config.tlsCert
    case Some(c) => c.path
    case None => ""
  }
}
