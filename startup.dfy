/**
 * `async_run` (bin/src/hickory-dns.rs): the startup sequence of the server.
 * The configuration is read, every zone is loaded into the catalog, the
 * listen plan is built, and, unless only validating, each enabled transport
 * binds and registers a listener per planned address, in the order UDP,
 * TCP, TLS, HTTPS, QUIC; the process then drops its root privileges. The
 * first failure of any step ends startup with that step's error.
 */
module Startup {
  import opened Basics
  import opened Numbers
  import opened Host
  import opened Sockets
  import opened ServerConfig
  import opened ZoneCatalog
  import opened Registry
  import opened Listeners
  import opened Privileges

  /** How a successful `async_run` ends: after validation, or with the server ready to serve. */
  datatype Phase = Validated | Serving(catalog: Catalog, listenAddrs: seq<IpAddr>)

  /** What startup issued, what it returned, and the process identity it left. */
  datatype Outcome = Outcome(effects: seq<Effect>, result: Result<Phase, StartupError>, ids: Ids)

  /** The transports in the order `async_run` sets them up. */
  const ALL_TRANSPORTS: seq<Transport> := [Udp, Tcp, Tls, Https, Quic]

  /** `--zonedir` overrides the configured directory. */
  function ZoneDir(args: Cli, config: Config): (dir: string)
    ensures args.zonedir.Some? ==> dir == args.zonedir.value
    ensures args.zonedir.None? ==> dir == config.directory
  {
    args.zonedir.GetOr(config.directory)
  }

  /** The certificate the TLS-family listeners load, against the zone directory in effect. */
  function CertFilesOf(args: Cli, config: Config): (r: CertFiles)
    ensures r.path == CertPath(config) && r.zoneDir == ZoneDir(args, config)
  {
    CertFiles(CertPath(config), ZoneDir(args, config))
  }

  /** The user and group privileges are dropped to, `nobody` unless configured. */
  function TargetUser(config: Config): (user: string)
    ensures config.user.Some? ==> user == config.user.value
    ensures config.user.None? ==> user == DEFAULT_USER
  {
    config.user.GetOr(DEFAULT_USER)
  }

  function TargetGroup(config: Config): (group: string)
    ensures config.group.Some? ==> group == config.group.value
    ensures config.group.None? ==> group == DEFAULT_GROUP
  {
    config.group.GetOr(DEFAULT_GROUP)
  }

  /** The listener loop of transport `t` when it is enabled; nothing otherwise. */
  function TransportRun(t: Transport, args: Cli, config: Config, addrs: seq<IpAddr>, ok: Oracle, pos: nat): (r: Run<()>)
    ensures !Enabled(t, args, config) ==> r == Run([], Ok(()))
    ensures r.result.Err? ==> r.result.error.ListenerFailed? && r.result.error.transport == t
  {
    if !Enabled(t, args, config) then Run([], Ok(()))
    else ListenersRun(t, addrs, SetupOf(t, PortFor(t, args, config), CertFilesOf(args, config), InfoLogged(args), ok), pos)
  }

  /** A transport block of `async_run`, run from a trace position. */
  type Block = (Transport, nat) -> Run<()>

  /** The transport blocks for one configuration and listen plan. */
  function BlockOf(args: Cli, config: Config, addrs: seq<IpAddr>, ok: Oracle): Block
  {
    (t: Transport, p: nat) => TransportRun(t, args, config, addrs, ok, p)
  }

  /** Applying the transport blocks of a configuration. */
  lemma BlockOfAt(args: Cli, config: Config, addrs: seq<IpAddr>, ok: Oracle, t: Transport, p: nat)
    ensures BlockOf(args, config, addrs, ok)(t, p) == TransportRun(t, args, config, addrs, ok, p)
  {
  }

  /** The first `n` transport blocks of `async_run`, each run by `block`; the first failure ends them. */
  function TransportsUpTo(n: nat, block: Block, pos: nat): (r: Run<()>)
    requires n <= |ALL_TRANSPORTS|
    ensures r.result.Err? ==> exists k, p :: 0 <= k < n && block(ALL_TRANSPORTS[k], p).result == r.result
    decreases n
  {
    if n == 0 then Run([], Ok(()))
    else
      var prev := TransportsUpTo(n - 1, block, pos);
      if prev.result.Err? then prev
      else
        var one := block(ALL_TRANSPORTS[n - 1], After(pos, prev.effects));
        Run(prev.effects + one.effects, one.result)
  }

  /** The five transport blocks of `async_run`. */
  function TransportsRun(args: Cli, config: Config, addrs: seq<IpAddr>, ok: Oracle, pos: nat): (r: Run<()>)
    ensures r.result.Err? ==> r.result.error.ListenerFailed? && Enabled(r.result.error.transport, args, config)
  {
    BlockFailed(args, config, addrs, ok, pos);
    TransportsUpTo(|ALL_TRANSPORTS|, BlockOf(args, config, addrs, ok), pos)
  }

  /** The part of `async_run` after validation: the transports, then the privilege drop. */
  function ServeRun(args: Cli, config: Config, catalog: Catalog, addrs: seq<IpAddr>, ids: Ids,
                    passwd: map<string, u32>, groups: map<string, u32>, ok: Oracle, pos: nat): (r: Outcome)
    ensures r.result.Ok? ==> r.result.value == Serving(catalog, addrs)
    ensures r.result.Err? ==> r.result.error.ListenerFailed? || r.result.error.PrivilegeDropFailed?
  {
    var lst := TransportsRun(args, config, addrs, ok, pos);
    if lst.result.Err? then Outcome(lst.effects, Err(lst.result.error), ids)
    else DropRunAfter(lst.effects, config, catalog, addrs, ids, passwd, groups, ok, pos)
  }

  /** The privilege drop, issued after `prefix`: its failure is the startup error, its success starts the server. */
  function DropRunAfter(prefix: seq<Effect>, config: Config, catalog: Catalog, addrs: seq<IpAddr>, ids: Ids,
                        passwd: map<string, u32>, groups: map<string, u32>, ok: Oracle, pos: nat): (r: Outcome)
    ensures r.result.Ok? ==> r.result.value == Serving(catalog, addrs)
    ensures r.result.Err? ==> r.result.error.PrivilegeDropFailed?
  {
    var drop := DropPrivs(TargetUser(config), TargetGroup(config), ids, passwd, groups, ok, After(pos, prefix));
    Outcome(prefix + drop.effects,
            if drop.result.Err? then Err(PrivilegeDropFailed(drop.result.error)) else Ok(Serving(catalog, addrs)),
            drop.ids)
  }

  /**
   * `async_run` for arguments `args` and a configuration file that reads as
   * `config` (`None` when it cannot be read), from identity `ids` with the
   * given passwd and group tables, starting at trace position `pos`.
   */
  function StartupRun(args: Cli, config: Option<Config>, ids: Ids, passwd: map<string, u32>, groups: map<string, u32>,
                      ok: Oracle, pos: nat): (r: Outcome)
    ensures config.None? <==> r.result == Err(ConfigUnreadable)
    ensures r.result == Ok(Validated) ==> args.validate
  {
    if config.None? then Outcome([], Err(ConfigUnreadable), ids)
    else
      var c := config.value;
      var cat := CatalogRun(c.zones, ZoneDir(args, c), ok, pos);
      if cat.result.Err? then Outcome(cat.effects, Err(cat.result.error), ids)
      else PlannedRun(args, c, cat.result.value, cat.effects, ids, passwd, groups, ok, pos)
  }

  /** What follows the zone loop, issued after its effects `prefix`: the listen plan, then validation or serving. */
  function PlannedRun(args: Cli, config: Config, catalog: Catalog, prefix: seq<Effect>, ids: Ids,
                      passwd: map<string, u32>, groups: map<string, u32>, ok: Oracle, pos: nat): (r: Outcome)
    ensures r.result != Err(ConfigUnreadable)
    ensures r.result == Ok(Validated) ==> args.validate
  {
    if config.listenV4.None? then Outcome(prefix, Err(Ipv4Unparsable), ids)
    else if config.listenV6.None? then Outcome(prefix, Err(Ipv6Unparsable), ids)
    else if args.validate then Outcome(prefix, Ok(Validated), ids)
    else
      var serve := ServeRun(args, config, catalog, ListenAddrs(config.listenV4.value, config.listenV6.value),
                            ids, passwd, groups, ok, After(pos, prefix));
      Outcome(prefix + serve.effects, serve.result, serve.ids)
  }

  // ----- Methods -----

  /** `async_run`. */
  method AsyncRun(host: Host, args: Cli, config: Option<Config>) returns (r: Result<Phase, StartupError>)
    modifies host
    ensures var run := StartupRun(args, config, old(host.ids), host.passwd, host.groups, host.ok, |old(host.trace)|);
      host.trace == old(host.trace) + run.effects && r == run.result && host.ids == run.ids
  {
    if config.None? {
      return Err(ConfigUnreadable);
    }
    var c := config.value;
    var zoneDir := ZoneDir(args, c);
    var catalog := BuildCatalog(host, c.zones, zoneDir);
    if catalog.Err? {
      return Err(catalog.error);
    }
    ghost var cat := CatalogRun(c.zones, zoneDir, host.ok, |old(host.trace)|);
    r := PlanAndServe(host, args, c, catalog.value, old(host.trace), cat.effects);
  }

  /** The rest of `async_run` once the catalog is built: the listen plan, the validation exit, serving. */
  method PlanAndServe(host: Host, args: Cli, config: Config, catalog: Catalog,
                      ghost start: seq<Effect>, ghost prefix: seq<Effect>)
    returns (r: Result<Phase, StartupError>)
    requires host.trace == start + prefix
    modifies host
    ensures var run := PlannedRun(args, config, catalog, prefix, old(host.ids), host.passwd, host.groups, host.ok,
                                  |start|);
      host.trace == start + run.effects && r == run.result && host.ids == run.ids
  {
    if config.listenV4.None? {
      return Err(Ipv4Unparsable);
    }
    if config.listenV6.None? {
      return Err(Ipv6Unparsable);
    }
    var listenAddrs := PlanListenAddrs(config.listenV4.value, config.listenV6.value);
    if args.validate {
      return Ok(Validated);
    }
    ghost var serve := ServeRun(args, config, catalog, listenAddrs, host.ids, host.passwd, host.groups, host.ok,
                                |start| + |prefix|);
    r := Serve(host, args, config, catalog, listenAddrs);
    AppendAssoc(start, prefix, serve.effects);
  }

  /** The listen plan as `async_run` builds it: collected, then the two wildcards pushed if it is empty. */
  method PlanListenAddrs(v4: seq<u32>, v6: seq<u128>) returns (addrs: seq<IpAddr>)
    ensures addrs == ListenAddrs(v4, v6)
  {
    addrs := MapV4(v4) + MapV6(v6);
    if addrs == [] {
      addrs := addrs + [V4_UNSPECIFIED];
      addrs := addrs + [V6_UNSPECIFIED];
    }
  }

  /** The transports, then the privilege drop. */
  method Serve(host: Host, args: Cli, config: Config, catalog: Catalog, addrs: seq<IpAddr>)
    returns (r: Result<Phase, StartupError>)
    modifies host
    ensures var run := ServeRun(args, config, catalog, addrs, old(host.ids), host.passwd, host.groups, host.ok,
                                |old(host.trace)|);
      host.trace == old(host.trace) + run.effects && r == run.result && host.ids == run.ids
  {
    var listening := StartListeners(host, args, config, addrs);
    if listening.Err? {
      return Err(listening.error);
    }
    ghost var lst := TransportsRun(args, config, addrs, host.ok, |old(host.trace)|);
    r := DropAfter(host, config, catalog, addrs, old(host.trace), lst.effects);
  }

  /** `check_drop_privs` with the configured or default user and group, once every listener is registered. */
  method DropAfter(host: Host, config: Config, catalog: Catalog, addrs: seq<IpAddr>,
                   ghost start: seq<Effect>, ghost prefix: seq<Effect>)
    returns (r: Result<Phase, StartupError>)
    requires host.trace == start + prefix
    modifies host
    ensures var run := DropRunAfter(prefix, config, catalog, addrs, old(host.ids), host.passwd, host.groups, host.ok,
                                    |start|);
      host.trace == start + run.effects && r == run.result && host.ids == run.ids
  {
    ghost var drop := DropPrivs(TargetUser(config), TargetGroup(config), host.ids, host.passwd, host.groups, host.ok,
                                |start| + |prefix|);
    var dropped := CheckDropPrivs(host, TargetUser(config), TargetGroup(config));
    AppendAssoc(start, prefix, drop.effects);
    if dropped.Err? {
      return Err(PrivilegeDropFailed(dropped.error));
    }
    return Ok(Serving(catalog, addrs));
  }

  /** The five transport blocks of `async_run`, each returning on the first listener that fails. */
  method StartListeners(host: Host, args: Cli, config: Config, addrs: seq<IpAddr>) returns (r: Result<(), StartupError>)
    modifies host
    ensures var run := TransportsRun(args, config, addrs, host.ok, |old(host.trace)|);
      host.trace == old(host.trace) + run.effects && r == run.result
    ensures host.ids == old(host.ids)
  {
    ghost var start := host.trace;
    ghost var block := BlockOf(args, config, addrs, host.ok);
    assert host.trace == start + [];
    r := Ok(());
    var k := 0;
    while k < |ALL_TRANSPORTS|
      invariant k <= |ALL_TRANSPORTS| && host.ids == old(host.ids)
      invariant TransportsUpTo(k, block, |start|).result == Ok(()) == r
      invariant host.trace == start + TransportsUpTo(k, block, |start|).effects
    {
      r := ServeTransport(host, args, config, addrs, k, start, block);
      if r.Err? {
        return;
      }
      k := k + 1;
    }
  }

  /** Transport block `k`: its listener loop when the transport is enabled. */
  method ServeTransport(host: Host, args: Cli, config: Config, addrs: seq<IpAddr>, k: nat,
                        ghost start: seq<Effect>, ghost block: Block)
    returns (r: Result<(), StartupError>)
    requires k < |ALL_TRANSPORTS| && block == BlockOf(args, config, addrs, host.ok)
    requires TransportsUpTo(k, block, |start|).result == Ok(())
    requires host.trace == start + TransportsUpTo(k, block, |start|).effects
    modifies host
    ensures var run := TransportsUpTo(k + 1, block, |start|);
      host.trace == start + run.effects && r == run.result
    ensures r.Err? ==> TransportsUpTo(|ALL_TRANSPORTS|, block, |start|) == TransportsUpTo(k + 1, block, |start|)
    ensures host.ids == old(host.ids)
  {
    ghost var before := host.trace;
    r := RunTransport(host, ALL_TRANSPORTS[k], args, config, addrs);
    BlockOfAt(args, config, addrs, host.ok, ALL_TRANSPORTS[k], |before|);
    TransportsAdvance(k, block, |start|, start, before, host.trace);
    if r.Err? {
      TransportsErrorSticks(k + 1, |ALL_TRANSPORTS|, block, |start|);
    }
  }

  /** One transport block: `t`'s listener loop when it is enabled, nothing when it is disabled. */
  method RunTransport(host: Host, t: Transport, args: Cli, config: Config, addrs: seq<IpAddr>)
    returns (r: Result<(), StartupError>)
    modifies host
    ensures var run := TransportRun(t, args, config, addrs, host.ok, |old(host.trace)|);
      host.trace == old(host.trace) + run.effects && r == run.result
    ensures host.ids == old(host.ids)
  {
    if Enabled(t, args, config) {
      r := ServeListeners(host, t, addrs, PortFor(t, args, config), CertFilesOf(args, config), InfoLogged(args));
    } else {
      r := Ok(());
      assert host.trace + [] == host.trace;
    }
  }

  // ----- The transport blocks -----

  /** Where each transport stands in the order of the blocks. */
  function TransportIndex(t: Transport): (i: nat)
    ensures i < |ALL_TRANSPORTS| && ALL_TRANSPORTS[i] == t
  {
    match t
    case Udp => 0
    case Tcp => 1
    case Tls => 2
    case Https => 3
    case Quic => 4
  }

  /** Each transport has one block: the order lists every transport exactly once. */
  lemma IndexOfBlock(i: nat)
    requires i < |ALL_TRANSPORTS|
    ensures TransportIndex(ALL_TRANSPORTS[i]) == i
  {
  }

  /** The trace of the transport blocks after block `k` issued its effects. */
  lemma TransportsAdvance(k: nat, block: Block, pos: nat, start: seq<Effect>, before: seq<Effect>, trace: seq<Effect>)
    requires k < |ALL_TRANSPORTS| && |start| == pos
    requires TransportsUpTo(k, block, pos).result == Ok(())
    requires before == start + TransportsUpTo(k, block, pos).effects
    requires trace == before + block(ALL_TRANSPORTS[k], |before|).effects
    ensures var r := TransportsUpTo(k + 1, block, pos);
      trace == start + r.effects && r.result == block(ALL_TRANSPORTS[k], |before|).result
  {
    AppendAssoc(start, TransportsUpTo(k, block, pos).effects, block(ALL_TRANSPORTS[k], |before|).effects);
  }

  /** Once a transport block has failed, the later ones change nothing. */
  lemma {:induction false} TransportsErrorSticks(i: nat, n: nat, block: Block, pos: nat)
    requires i <= n <= |ALL_TRANSPORTS| && TransportsUpTo(i, block, pos).result.Err?
    ensures TransportsUpTo(n, block, pos) == TransportsUpTo(i, block, pos)
    decreases n
  {
    if i < n {
      TransportsErrorSticks(i, n - 1, block, pos);
    }
  }

  /** The block that failed among the first `n`, when one did. */
  function FailingBlock(n: nat, block: Block, pos: nat): nat
    requires n <= |ALL_TRANSPORTS|
  {
    if n == 0 then 0
    else if TransportsUpTo(n - 1, block, pos).result.Err? then FailingBlock(n - 1, block, pos)
    else n - 1
  }

  /** Block `i` failed: the blocks before it succeeded, it failed, and no later block ran. */
  predicate FailedAt(n: nat, block: Block, pos: nat, i: nat)
    requires n <= |ALL_TRANSPORTS|
  {
    i < n &&
    var prev := TransportsUpTo(i, block, pos);
    var one := block(ALL_TRANSPORTS[i], After(pos, prev.effects));
    && prev.result.Ok? && one.result.Err?
    && TransportsUpTo(n, block, pos) == Run(prev.effects + one.effects, one.result)
  }

  /** The transport blocks fail exactly when one of them does, and they stop there. */
  lemma {:induction false} TransportsFail(n: nat, block: Block, pos: nat)
    requires n <= |ALL_TRANSPORTS|
    ensures TransportsUpTo(n, block, pos).result.Err? ==> FailedAt(n, block, pos, FailingBlock(n, block, pos))
    decreases n
  {
    if n > 0 && TransportsUpTo(n - 1, block, pos).result.Err? {
      TransportsFail(n - 1, block, pos);
      assert TransportsUpTo(n, block, pos) == TransportsUpTo(n - 1, block, pos);
    }
  }

  /** When the transport blocks fail, the failing block is that of an enabled transport, and its failure is theirs. */
  lemma BlockFailed(args: Cli, config: Config, addrs: seq<IpAddr>, ok: Oracle, pos: nat)
    ensures var block := BlockOf(args, config, addrs, ok);
      var n := |ALL_TRANSPORTS|;
      var r := TransportsUpTo(n, block, pos);
      var i := FailingBlock(n, block, pos);
      r.result.Err? ==>
        && FailedAt(n, block, pos, i)
        && r.result.error.ListenerFailed? && r.result.error.transport == ALL_TRANSPORTS[i]
        && Enabled(ALL_TRANSPORTS[i], args, config)
  {
    var block := BlockOf(args, config, addrs, ok);
    var n := |ALL_TRANSPORTS|;
    TransportsFail(n, block, pos);
    var i := FailingBlock(n, block, pos);
    if TransportsUpTo(n, block, pos).result.Err? {
      BlockOfAt(args, config, addrs, ok, ALL_TRANSPORTS[i], After(pos, TransportsUpTo(i, block, pos).effects));
    }
  }

  /**
   * The blocks of transports other than `u` register nothing for `u`, and
   * when `u`'s block succeeds it has registered `want`.
   */
  predicate BlockRegisters(r: Run<()>, t: Transport, u: Transport, want: seq<IpAddr>)
  {
    && (t != u ==> Registrations(r.effects, u) == [])
    && (t == u && r.result.Ok? ==> Registrations(r.effects, u) == want)
  }

  ghost predicate RegistersFor(block: Block, u: Transport, want: seq<IpAddr>)
  {
    forall t: Transport, p: nat :: BlockRegisters(block(t, p), t, u, want)
  }

  /** After `n` succeeding blocks, `u` has registered `want` when its block was among them, nothing otherwise. */
  lemma {:induction false} TransportsRegister(n: nat, block: Block, pos: nat, u: Transport, want: seq<IpAddr>)
    requires n <= |ALL_TRANSPORTS| && RegistersFor(block, u, want)
    ensures var r := TransportsUpTo(n, block, pos);
      r.result.Ok? ==> Registrations(r.effects, u) == if TransportIndex(u) < n then want else []
    decreases n
  {
    if n == 0 {
      assert Registrations([], u) == [];
    } else if TransportsUpTo(n - 1, block, pos).result.Ok? {
      TransportsRegister(n - 1, block, pos, u, want);
      RegisterStep(n, block, pos, u, want);
    }
  }

  /** One more succeeding block adds `want` for `u` exactly when it is `u`'s block. */
  lemma RegisterStep(n: nat, block: Block, pos: nat, u: Transport, want: seq<IpAddr>)
    requires 0 < n <= |ALL_TRANSPORTS| && RegistersFor(block, u, want)
    requires var prev := TransportsUpTo(n - 1, block, pos);
      prev.result.Ok? && Registrations(prev.effects, u) == if TransportIndex(u) < n - 1 then want else []
    ensures var r := TransportsUpTo(n, block, pos);
      r.result.Ok? ==> Registrations(r.effects, u) == if TransportIndex(u) < n then want else []
  {
    var prev := TransportsUpTo(n - 1, block, pos);
    var one := block(ALL_TRANSPORTS[n - 1], After(pos, prev.effects));
    assert BlockRegisters(one, ALL_TRANSPORTS[n - 1], u, want);
    RegistrationsAppend(prev.effects, one.effects, u);
    IndexBelow(n, u);
  }

  /** The transports of the first `n` blocks are those of the first `n - 1` and that of block `n - 1`. */
  lemma IndexBelow(n: nat, u: Transport)
    requires 0 < n <= |ALL_TRANSPORTS|
    ensures (TransportIndex(u) < n) == (TransportIndex(u) < n - 1 || ALL_TRANSPORTS[n - 1] == u)
  {
    IndexOfBlock(n - 1);
  }

  /**
   * A failing block fails as a listener of its own transport, having
   * registered nothing for other transports and, for its own, the
   * addresses of `addrs` up to the failing one.
   */
  predicate FailsAlone(r: Run<()>, t: Transport, u: Transport, addrs: seq<IpAddr>)
  {
    r.result.Err? ==>
      && r.result.error.ListenerFailed? && r.result.error.transport == t
      && (u != t ==> Registrations(r.effects, u) == [])
      && (u == t ==> RegisteredBefore(Registrations(r.effects, u), addrs, |addrs|, r.result.error.addr,
                                      r.result.error.stage == Registration))
  }

  ghost predicate BlocksFailAlone(block: Block, u: Transport, addrs: seq<IpAddr>)
  {
    forall t: Transport, p: nat :: FailsAlone(block(t, p), t, u, addrs)
  }

  /** When the blocks fail, what `u` has registered: see `RegisteredUntilFailure`. */
  lemma TransportsFailureRegistrations(block: Block, pos: nat, u: Transport, want: seq<IpAddr>, addrs: seq<IpAddr>)
    requires RegistersFor(block, u, want) && BlocksFailAlone(block, u, addrs)
    ensures var r := TransportsUpTo(|ALL_TRANSPORTS|, block, pos);
      r.result.Err? ==>
        && r.result.error.ListenerFailed?
        && (u != r.result.error.transport ==>
              Registrations(r.effects, u) == if TransportIndex(u) < TransportIndex(r.result.error.transport) then want else [])
        && (u == r.result.error.transport ==>
              RegisteredBefore(Registrations(r.effects, u), addrs, |addrs|, r.result.error.addr,
                               r.result.error.stage == Registration))
  {
    var n := |ALL_TRANSPORTS|;
    var r := TransportsUpTo(n, block, pos);
    if r.result.Err? {
      TransportsFail(n, block, pos);
      var i := FailingBlock(n, block, pos);
      var prev := TransportsUpTo(i, block, pos);
      var one := block(ALL_TRANSPORTS[i], After(pos, prev.effects));
      assert r == Run(prev.effects + one.effects, one.result);
      var f := ALL_TRANSPORTS[i];
      assert FailsAlone(one, f, u, addrs);
      TransportsRegister(i, block, pos, u, want);
      RegistrationsAppend(prev.effects, one.effects, u);
      IndexOfBlock(i);
      var before := if TransportIndex(u) < i then want else [];
      if u != f {
        assert Registrations(r.effects, u) == before + [];
        assert before + [] == before;
      } else {
        assert Registrations(r.effects, u) == [] + Registrations(one.effects, u);
        assert [] + Registrations(one.effects, u) == Registrations(one.effects, u);
      }
    }
  }

  /** What one transport block registers: its own addresses, all of them when it succeeds. */
  lemma TransportRegistrations(t: Transport, args: Cli, config: Config, addrs: seq<IpAddr>, ok: Oracle, pos: nat,
                               u: Transport)
    ensures BlockRegisters(TransportRun(t, args, config, addrs, ok, pos), t, u,
                           if Enabled(u, args, config) then addrs else [])
  {
    if Enabled(t, args, config) {
      var port := PortFor(t, args, config);
      ListenersRegisterAll(t, addrs, port, CertFilesOf(args, config), InfoLogged(args), ok, pos);
      if t != u {
        ListenersOtherTransport(t, addrs, port, CertFilesOf(args, config), InfoLogged(args), ok, pos, u);
      }
    } else {
      assert Registrations([], u) == [];
    }
  }

  lemma BlocksRegister(args: Cli, config: Config, addrs: seq<IpAddr>, ok: Oracle, u: Transport)
    ensures RegistersFor(BlockOf(args, config, addrs, ok), u, if Enabled(u, args, config) then addrs else [])
  {
    forall t: Transport, p: nat
      ensures BlockRegisters(BlockOf(args, config, addrs, ok)(t, p), t, u, if Enabled(u, args, config) then addrs else [])
    {
      BlockOfAt(args, config, addrs, ok, t, p);
      TransportRegistrations(t, args, config, addrs, ok, p, u);
    }
  }

  // ----- The three phases of startup -----

  /**
   * The phase of startup an effect belongs to: 0 for loading zones, 1 for
   * setting up listeners, 2 for dropping privileges.
   */
  function PhaseOf(e: Effect): nat
  {
    match e
    case LoadZone(_, _) => 0
    case GetPwNam(_) => 2
    case GetGrNam(_) => 2
    case SetGid(_) => 2
    case SetUid(_) => 2
    case _ => 1
  }

  predicate InPhase(effects: seq<Effect>, p: nat)
  {
    forall k :: 0 <= k < |effects| ==> PhaseOf(effects[k]) == p
  }

  /** No effect of a later phase comes before one of an earlier phase. */
  predicate Phased(effects: seq<Effect>)
  {
    forall i, j :: 0 <= i < j < |effects| ==> PhaseOf(effects[i]) <= PhaseOf(effects[j])
  }

  lemma InPhaseAppend(a: seq<Effect>, b: seq<Effect>, p: nat)
    requires InPhase(a, p) && InPhase(b, p)
    ensures InPhase(a + b, p)
  {
    assert forall k :: 0 <= k < |a| ==> (a + b)[k] == a[k];
    assert forall k :: |a| <= k < |a| + |b| ==> (a + b)[k] == b[k - |a|];
  }

  /** Loads, then listener effects, then privilege effects, are in phase order. */
  lemma PhasedConcat(a: seq<Effect>, b: seq<Effect>, c: seq<Effect>)
    requires InPhase(a, 0) && InPhase(b, 1) && InPhase(c, 2)
    ensures Phased(a + (b + c))
  {
    var s := a + (b + c);
    forall i, j | 0 <= i < j < |s| ensures PhaseOf(s[i]) <= PhaseOf(s[j]) {
      assert PhaseOf(s[i]) == if i < |a| then 0 else if i < |a| + |b| then 1 else 2 by {
        if i < |a| { assert s[i] == a[i]; }
        else if i < |a| + |b| { assert s[i] == b[i - |a|]; }
        else { assert s[i] == c[i - |a| - |b|]; }
      }
      assert PhaseOf(s[j]) == if j < |a| then 0 else if j < |a| + |b| then 1 else 2 by {
        if j < |a| { assert s[j] == a[j]; }
        else if j < |a| + |b| { assert s[j] == b[j - |a|]; }
        else { assert s[j] == c[j - |a| - |b|]; }
      }
    }
  }

  /** Every effect comes before the privilege drop. */
  predicate BeforeDrop(effects: seq<Effect>)
  {
    forall k :: 0 <= k < |effects| ==> PhaseOf(effects[k]) < 2
  }

  /** Zone loads followed by effects in phase order are in phase order. */
  lemma LoadsThenPhased(a: seq<Effect>, b: seq<Effect>)
    requires InPhase(a, 0) && Phased(b)
    ensures Phased(a + b)
  {
    var s := a + b;
    forall i, j | 0 <= i < j < |s| ensures PhaseOf(s[i]) <= PhaseOf(s[j]) {
      if j < |a| {
        assert s[i] == a[i] && s[j] == a[j];
      } else if i < |a| {
        assert s[i] == a[i];
      } else {
        assert s[i] == b[i - |a|] && s[j] == b[j - |a|];
      }
    }
  }

  lemma BeforeDropAppend(a: seq<Effect>, b: seq<Effect>)
    requires BeforeDrop(a) && BeforeDrop(b)
    ensures BeforeDrop(a + b)
  {
    assert forall k :: 0 <= k < |a| ==> (a + b)[k] == a[k];
    assert forall k :: |a| <= k < |a| + |b| ==> (a + b)[k] == b[k - |a|];
  }

  /** Effects outside the listener phase register nothing. */
  lemma OutsideListenersUnregistered(effects: seq<Effect>, p: nat, u: Transport)
    requires p != 1 && InPhase(effects, p)
    ensures Registrations(effects, u) == []
  {
    assert forall k :: 0 <= k < |effects| ==> PhaseOf(effects[k]) == p;
    NoRegistrations(effects, u);
  }

  /** Zone loads ahead of other effects add no registrations. */
  lemma LoadsUnregistered(loads: seq<Effect>, effects: seq<Effect>, u: Transport)
    requires InPhase(loads, 0)
    ensures Registrations(loads + effects, u) == Registrations(effects, u)
  {
    OutsideListenersUnregistered(loads, 0, u);
    RegistrationsAppend(loads, effects, u);
    assert [] + Registrations(effects, u) == Registrations(effects, u);
  }

  /** A privilege drop after other effects adds no registrations. */
  lemma DropUnregistered(effects: seq<Effect>, drop: seq<Effect>, u: Transport)
    requires InPhase(drop, 2)
    ensures Registrations(effects + drop, u) == Registrations(effects, u)
  {
    OutsideListenersUnregistered(drop, 2, u);
    RegistrationsAppend(effects, drop, u);
    assert Registrations(effects, u) + [] == Registrations(effects, u);
  }

  /** The privilege drop only looks up names and sets ids. */
  lemma DropInPhase(user: string, group: string, ids: Ids, passwd: map<string, u32>, groups: map<string, u32>,
                    ok: Oracle, pos: nat)
    ensures InPhase(DropPrivs(user, group, ids, passwd, groups, ok, pos).effects, 2)
  {
  }

  /** Setting up one address issues listener effects only. */
  lemma SetupInPhase(t: Transport, addr: IpAddr, port: u16, certFiles: CertFiles, logged: bool, ok: Oracle, pos: nat)
    ensures InPhase(SetupRun(t, addr, port, certFiles, logged, ok, pos).effects, 1)
  {
    var plan := AddrPlan(t, addr, port, certFiles, logged);
    var sock := SocketOps(KindOf(t), addr, port);
    SocketSetupOnly(KindOf(t), addr, port);
    assert InPhase(sock, 1);
    assert plan == CertOps(t, certFiles) + sock + TailOps(t, addr, logged);
    assert InPhase(TailOps(t, addr, logged), 1);
    InPhaseAppend(CertOps(t, certFiles), sock, 1);
    InPhaseAppend(CertOps(t, certFiles) + sock, TailOps(t, addr, logged), 1);
    SetupIsFailFast(t, addr, port, certFiles, logged, ok, pos);
    AttemptPrefix(plan, ok, pos);
    var issued := Attempt(plan, ok, pos);
    assert forall k :: 0 <= k < |issued| ==> issued[k] == plan[k];
  }

  /** Every address setup issues listener effects only. */
  ghost predicate ListenerSetups(setup: Setup)
  {
    forall addr: IpAddr, p: nat :: InPhase(setup(addr, p).effects, 1)
  }

  /** The per-address setups of a transport issue listener effects only. */
  lemma SetupsInPhase(t: Transport, port: u16, certFiles: CertFiles, logged: bool, ok: Oracle)
    ensures ListenerSetups(SetupOf(t, port, certFiles, logged, ok))
  {
    forall addr: IpAddr, p: nat ensures InPhase(SetupOf(t, port, certFiles, logged, ok)(addr, p).effects, 1) {
      SetupOfAt(t, port, certFiles, logged, ok, addr, p);
      SetupInPhase(t, addr, port, certFiles, logged, ok, p);
    }
  }

  /** A listener loop whose setups issue listener effects only issues listener effects only. */
  lemma {:induction false} ListenersInPhase(t: Transport, addrs: seq<IpAddr>, n: nat, setup: Setup, pos: nat)
    requires n <= |addrs| && ListenerSetups(setup)
    ensures InPhase(ListenersUpTo(t, addrs, n, setup, pos).effects, 1)
    decreases n
  {
    if n > 0 {
      var prev := ListenersUpTo(t, addrs, n - 1, setup, pos);
      ListenersInPhase(t, addrs, n - 1, setup, pos);
      if prev.result.Ok? {
        InPhaseAppend(prev.effects, setup(addrs[n - 1], After(pos, prev.effects)).effects, 1);
      }
    }
  }

  /** Every block issues listener effects only. */
  ghost predicate ListenerBlocks(block: Block)
  {
    forall t: Transport, p: nat :: InPhase(block(t, p).effects, 1)
  }

  /** The transport blocks of a configuration issue listener effects only. */
  lemma BlocksInPhase(args: Cli, config: Config, addrs: seq<IpAddr>, ok: Oracle)
    ensures ListenerBlocks(BlockOf(args, config, addrs, ok))
  {
    forall t: Transport, p: nat ensures InPhase(BlockOf(args, config, addrs, ok)(t, p).effects, 1) {
      BlockOfAt(args, config, addrs, ok, t, p);
      if Enabled(t, args, config) {
        SetupsInPhase(t, PortFor(t, args, config), CertFilesOf(args, config), InfoLogged(args), ok);
        ListenersInPhase(t, addrs, |addrs|, SetupOf(t, PortFor(t, args, config), CertFilesOf(args, config), InfoLogged(args), ok), p);
      }
    }
  }

  /** Blocks that issue listener effects only issue, together, listener effects only. */
  lemma {:induction false} TransportsInPhase(n: nat, block: Block, pos: nat)
    requires n <= |ALL_TRANSPORTS| && ListenerBlocks(block)
    ensures InPhase(TransportsUpTo(n, block, pos).effects, 1)
    decreases n
  {
    if n > 0 {
      var prev := TransportsUpTo(n - 1, block, pos);
      TransportsInPhase(n - 1, block, pos);
      if prev.result.Ok? {
        InPhaseAppend(prev.effects, block(ALL_TRANSPORTS[n - 1], After(pos, prev.effects)).effects, 1);
      }
    }
  }

  // ----- What startup promises -----

  /** When every transport block succeeds, `u` has registered the whole plan if it is enabled, nothing otherwise. */
  lemma RegisteredWhenListening(args: Cli, config: Config, addrs: seq<IpAddr>, ok: Oracle, pos: nat, u: Transport)
    ensures var r := TransportsRun(args, config, addrs, ok, pos);
      r.result.Ok? ==> Registrations(r.effects, u) == if Enabled(u, args, config) then addrs else []
  {
    BlocksRegister(args, config, addrs, ok, u);
    TransportsRegister(|ALL_TRANSPORTS|, BlockOf(args, config, addrs, ok), pos, u,
                       if Enabled(u, args, config) then addrs else []);
  }

  /** When a transport block fails, `FailedListeners` describes what every transport has registered. */
  lemma RegisteredUntilFailure(args: Cli, config: Config, addrs: seq<IpAddr>, ok: Oracle, pos: nat, u: Transport)
    ensures var r := TransportsRun(args, config, addrs, ok, pos);
      r.result.Err? ==> FailedListeners(Registrations(r.effects, u), r.result.error, args, config, addrs, u)
  {
    var want := if Enabled(u, args, config) then addrs else [];
    BlocksRegister(args, config, addrs, ok, u);
    BlocksFailAloneOf(args, config, addrs, ok, u);
    TransportsFailureRegistrations(BlockOf(args, config, addrs, ok), pos, u, want, addrs);
  }

  lemma BlocksFailAloneOf(args: Cli, config: Config, addrs: seq<IpAddr>, ok: Oracle, u: Transport)
    ensures BlocksFailAlone(BlockOf(args, config, addrs, ok), u, addrs)
  {
    forall t: Transport, p: nat ensures FailsAlone(BlockOf(args, config, addrs, ok)(t, p), t, u, addrs) {
      BlockOfAt(args, config, addrs, ok, t, p);
      FailedBlockRegistrations(t, args, config, addrs, ok, p, u);
    }
  }

  /** What a failing transport block has registered: for its own transport the addresses up to the failure, for others nothing. */
  lemma FailedBlockRegistrations(f: Transport, args: Cli, config: Config, addrs: seq<IpAddr>, ok: Oracle, pos: nat,
                                 u: Transport)
    ensures FailsAlone(TransportRun(f, args, config, addrs, ok, pos), f, u, addrs)
  {
    TransportRegistrations(f, args, config, addrs, ok, pos, u);
    if Enabled(f, args, config) {
      ListenersRegisterUntilFailure(f, addrs, PortFor(f, args, config), CertFilesOf(args, config), InfoLogged(args), ok, pos);
    }
  }

  // Each of the next lemmas takes one step down the startup sequence.

  /** Once the catalog is built, startup goes on with the listen plan. */
  lemma StartupPlans(args: Cli, config: Config, ids: Ids, passwd: map<string, u32>, groups: map<string, u32>,
                     ok: Oracle, pos: nat)
    requires CatalogRun(config.zones, ZoneDir(args, config), ok, pos).result.Ok?
    ensures var cat := CatalogRun(config.zones, ZoneDir(args, config), ok, pos);
      StartupRun(args, Some(config), ids, passwd, groups, ok, pos)
        == PlannedRun(args, config, cat.result.value, cat.effects, ids, passwd, groups, ok, pos)
  {
  }

  /** Once both address lists parse, startup without `--validate` goes on to serve. */
  lemma PlannedServes(args: Cli, config: Config, catalog: Catalog, prefix: seq<Effect>, ids: Ids,
                      passwd: map<string, u32>, groups: map<string, u32>, ok: Oracle, pos: nat)
    requires config.listenV4.Some? && config.listenV6.Some? && !args.validate
    ensures var serve := ServeRun(args, config, catalog, ListenAddrs(config.listenV4.value, config.listenV6.value),
                                  ids, passwd, groups, ok, After(pos, prefix));
      PlannedRun(args, config, catalog, prefix, ids, passwd, groups, ok, pos)
        == Outcome(prefix + serve.effects, serve.result, serve.ids)
  {
  }

  /**
   * Once every transport block succeeded, serving goes on to drop
   * privileges; otherwise it stops there, and it fails on a listener
   * exactly then.
   */
  lemma ServeDrops(args: Cli, config: Config, catalog: Catalog, addrs: seq<IpAddr>, ids: Ids,
                   passwd: map<string, u32>, groups: map<string, u32>, ok: Oracle, pos: nat)
    ensures var lst := TransportsRun(args, config, addrs, ok, pos);
      ServeRun(args, config, catalog, addrs, ids, passwd, groups, ok, pos)
        == if lst.result.Err? then Outcome(lst.effects, Err(lst.result.error), ids)
           else DropRunAfter(lst.effects, config, catalog, addrs, ids, passwd, groups, ok, pos)
    ensures var r := ServeRun(args, config, catalog, addrs, ids, passwd, groups, ok, pos);
      r.result.Err? && r.result.error.ListenerFailed? <==> TransportsRun(args, config, addrs, ok, pos).result.Err?
  {
  }

  /** Everything `--validate` needs: every zone named and loaded, both address lists parsed. */
  predicate Validates(config: Config, dir: string, ok: Oracle, pos: nat)
  {
    && AllNamed(config.zones) && Completes(Loads(config.zones, dir), ok, pos)
    && config.listenV4.Some? && config.listenV6.Some?
  }

  /** Loading the catalog issues zone loads only. */
  lemma CatalogInPhase(zones: seq<ZoneConfig>, dir: string, ok: Oracle, pos: nat)
    ensures InPhase(CatalogRun(zones, dir, ok, pos).effects, 0)
  {
    CatalogOnlyLoads(zones, dir, ok, pos);
  }

  /**
   * With `--validate`, startup loads the zones and parses the listen
   * addresses, and stops there: it binds nothing and leaves the process
   * identity alone, and it succeeds exactly when every zone is named and
   * loads and both address lists parse.
   */
  lemma ValidateOnly(args: Cli, config: Option<Config>, ids: Ids, passwd: map<string, u32>, groups: map<string, u32>,
                     ok: Oracle, pos: nat)
    requires args.validate
    ensures var r := StartupRun(args, config, ids, passwd, groups, ok, pos);
      && r.ids == ids && InPhase(r.effects, 0)
      && (r.result.Ok? <==> config.Some? && Validates(config.value, ZoneDir(args, config.value), ok, pos))
      && (r.result.Ok? ==>
            r.result.value == Validated && r.effects == Loads(config.value.zones, ZoneDir(args, config.value)))
  {
    if config.Some? {
      var c := config.value;
      CatalogSucceeds(c.zones, ZoneDir(args, c), ok, pos);
      CatalogInPhase(c.zones, ZoneDir(args, c), ok, pos);
    }
  }

  /**
   * A server that starts has loaded every zone into its catalog (the last
   * zone of a name winning), plans to listen on the configured addresses
   * (or both wildcards), and, when started as root, now runs as the
   * configured or default user and group; otherwise its identity is
   * unchanged.
   */
  lemma ServingState(args: Cli, config: Option<Config>, ids: Ids, passwd: map<string, u32>, groups: map<string, u32>,
                     ok: Oracle, pos: nat)
    ensures var r := StartupRun(args, config, ids, passwd, groups, ok, pos);
      r.result.Ok? && r.result.value.Serving? ==>
        && config.Some? && !args.validate
        && AllNamed(config.value.zones) && r.result.value.catalog == Upserted(config.value.zones)
        && config.value.listenV4.Some? && config.value.listenV6.Some?
        && r.result.value.listenAddrs == ListenAddrs(config.value.listenV4.value, config.value.listenV6.value)
        && DroppedTo(ids, r.ids, TargetUser(config.value), TargetGroup(config.value), passwd, groups)
  {
    if config.Some? {
      CatalogSucceeds(config.value.zones, ZoneDir(args, config.value), ok, pos);
    }
  }

  /**
   * The identity after the privilege drop: when it ran as root, the target
   * user and group's ids as effective ids, and as real ids too when its
   * effective user id was 0; unchanged otherwise.
   */
  predicate DroppedTo(before: Ids, after: Ids, user: string, group: string, passwd: map<string, u32>,
                      groups: map<string, u32>)
  {
    && (IsRoot(before) ==>
          && user in passwd && group in groups
          && after.euid == passwd[user] && after.egid == groups[group]
          && after.uid == (if before.euid == 0 then passwd[user] else before.uid)
          && after.gid == (if before.euid == 0 then groups[group] else before.gid))
    && (!IsRoot(before) ==> after == before)
  }

  /** A server that starts has registered, for each transport, the whole plan if it is enabled and nothing otherwise. */
  lemma ServingRegistrations(args: Cli, config: Option<Config>, ids: Ids, passwd: map<string, u32>,
                             groups: map<string, u32>, ok: Oracle, pos: nat, u: Transport)
    ensures var r := StartupRun(args, config, ids, passwd, groups, ok, pos);
      r.result.Ok? && r.result.value.Serving? ==>
        Registrations(r.effects, u) == if Enabled(u, args, config.value) then r.result.value.listenAddrs else []
  {
    var r := StartupRun(args, config, ids, passwd, groups, ok, pos);
    if r.result.Ok? && r.result.value.Serving? {
      var c := config.value;
      var cat := CatalogRun(c.zones, ZoneDir(args, c), ok, pos);
      StartupPlans(args, c, ids, passwd, groups, ok, pos);
      CatalogInPhase(c.zones, ZoneDir(args, c), ok, pos);
      PlannedRegistrations(args, c, cat.result.value, cat.effects, ids, passwd, groups, ok, pos, u);
    }
  }

  /** `ServingRegistrations` for what follows the zone loop, whose effects `prefix` are zone loads. */
  lemma PlannedRegistrations(args: Cli, config: Config, catalog: Catalog, prefix: seq<Effect>, ids: Ids,
                             passwd: map<string, u32>, groups: map<string, u32>, ok: Oracle, pos: nat, u: Transport)
    requires InPhase(prefix, 0)
    ensures var r := PlannedRun(args, config, catalog, prefix, ids, passwd, groups, ok, pos);
      r.result.Ok? && r.result.value.Serving? ==>
        Registrations(r.effects, u) == if Enabled(u, args, config) then r.result.value.listenAddrs else []
  {
    if config.listenV4.Some? && config.listenV6.Some? && !args.validate {
      var addrs := ListenAddrs(config.listenV4.value, config.listenV6.value);
      var serve := ServeRun(args, config, catalog, addrs, ids, passwd, groups, ok, After(pos, prefix));
      PlannedServes(args, config, catalog, prefix, ids, passwd, groups, ok, pos);
      ServeRegistrations(args, config, catalog, addrs, ids, passwd, groups, ok, After(pos, prefix), u);
      LoadsUnregistered(prefix, serve.effects, u);
    }
  }

  /** `ServingRegistrations` for the transports and the privilege drop. */
  lemma ServeRegistrations(args: Cli, config: Config, catalog: Catalog, addrs: seq<IpAddr>, ids: Ids,
                           passwd: map<string, u32>, groups: map<string, u32>, ok: Oracle, pos: nat, u: Transport)
    ensures var r := ServeRun(args, config, catalog, addrs, ids, passwd, groups, ok, pos);
      r.result.Ok? ==> Registrations(r.effects, u) == if Enabled(u, args, config) then addrs else []
  {
    var lst := TransportsRun(args, config, addrs, ok, pos);
    ServeDrops(args, config, catalog, addrs, ids, passwd, groups, ok, pos);
    if lst.result.Ok? {
      var drop := DropPrivs(TargetUser(config), TargetGroup(config), ids, passwd, groups, ok, After(pos, lst.effects));
      DropInPhase(TargetUser(config), TargetGroup(config), ids, passwd, groups, ok, After(pos, lst.effects));
      RegisteredWhenListening(args, config, addrs, ok, pos, u);
      DropUnregistered(lst.effects, drop.effects, u);
    }
  }

  /**
   * When a listener of transport `f` fails, startup ends there: `f` is
   * enabled, the identity is unchanged, each enabled transport set up
   * before `f` has registered the whole plan, those after it nothing, and
   * `f` the addresses before the failing one (that one too when its
   * registration failed).
   */
  lemma ListenerFailure(args: Cli, config: Option<Config>, ids: Ids, passwd: map<string, u32>, groups: map<string, u32>,
                        ok: Oracle, pos: nat, u: Transport)
    ensures var r := StartupRun(args, config, ids, passwd, groups, ok, pos);
      r.result.Err? && r.result.error.ListenerFailed? ==>
        && config.Some? && !args.validate && config.value.listenV4.Some? && config.value.listenV6.Some?
        && Enabled(r.result.error.transport, args, config.value) && r.ids == ids
        && FailedListeners(Registrations(r.effects, u), r.result.error, args, config.value,
                           ListenAddrs(config.value.listenV4.value, config.value.listenV6.value), u)
  {
    var r := StartupRun(args, config, ids, passwd, groups, ok, pos);
    if r.result.Err? && r.result.error.ListenerFailed? {
      StartupListenerFailed(args, config, ids, passwd, groups, ok, pos);
      var c := config.value;
      var cat := CatalogRun(c.zones, ZoneDir(args, c), ok, pos);
      StartupPlans(args, c, ids, passwd, groups, ok, pos);
      CatalogInPhase(c.zones, ZoneDir(args, c), ok, pos);
      PlannedListenerFailure(args, c, cat.result.value, cat.effects, ids, passwd, groups, ok, pos, u);
    }
  }


  /** `ListenerFailure` for what follows the zone loop, whose effects `prefix` are zone loads. */
  lemma PlannedListenerFailure(args: Cli, config: Config, catalog: Catalog, prefix: seq<Effect>, ids: Ids,
                               passwd: map<string, u32>, groups: map<string, u32>, ok: Oracle, pos: nat, u: Transport)
    requires InPhase(prefix, 0)
    ensures var r := PlannedRun(args, config, catalog, prefix, ids, passwd, groups, ok, pos);
      r.result.Err? && r.result.error.ListenerFailed? ==>
        && !args.validate && config.listenV4.Some? && config.listenV6.Some?
        && Enabled(r.result.error.transport, args, config) && r.ids == ids
        && FailedListeners(Registrations(r.effects, u), r.result.error, args, config,
                           ListenAddrs(config.listenV4.value, config.listenV6.value), u)
  {
    var r := PlannedRun(args, config, catalog, prefix, ids, passwd, groups, ok, pos);
    if r.result.Err? && r.result.error.ListenerFailed? {
      PlannedListenerFailed(args, config, catalog, prefix, ids, passwd, groups, ok, pos);
      PlannedStopped(args, config, catalog, prefix, ids, passwd, groups, ok, pos);
      StoppedListeners(prefix, args, config, ListenAddrs(config.listenV4.value, config.listenV6.value), ok, pos, u);
    }
  }

  /** A startup that fails on a listener has read the configuration and loaded every zone. */
  lemma StartupListenerFailed(args: Cli, config: Option<Config>, ids: Ids, passwd: map<string, u32>,
                              groups: map<string, u32>, ok: Oracle, pos: nat)
    requires var r := StartupRun(args, config, ids, passwd, groups, ok, pos);
      r.result.Err? && r.result.error.ListenerFailed?
    ensures config.Some? && CatalogRun(config.value.zones, ZoneDir(args, config.value), ok, pos).result.Ok?
  {
  }

  /**
   * Under `--quiet` no `info!` event is logged, so no listener looks up its
   * local address, and startup never fails there.
   */
  lemma QuietNeverLooksUp(args: Cli, config: Option<Config>, ids: Ids, passwd: map<string, u32>,
                          groups: map<string, u32>, ok: Oracle, pos: nat)
    ensures var r := StartupRun(args, config, ids, passwd, groups, ok, pos);
      args.quiet && r.result.Err? && r.result.error.ListenerFailed? ==> r.result.error.stage != LocalAddrLookup
  {
    var r := StartupRun(args, config, ids, passwd, groups, ok, pos);
    if args.quiet && r.result.Err? && r.result.error.ListenerFailed? {
      StartupListenerFailed(args, config, ids, passwd, groups, ok, pos);
      var c := config.value;
      var cat := CatalogRun(c.zones, ZoneDir(args, c), ok, pos);
      StartupPlans(args, c, ids, passwd, groups, ok, pos);
      PlannedListenerFailed(args, c, cat.result.value, cat.effects, ids, passwd, groups, ok, pos);
      PlannedStopped(args, c, cat.result.value, cat.effects, ids, passwd, groups, ok, pos);
      TransportsQuiet(args, c, ListenAddrs(c.listenV4.value, c.listenV6.value), ok, After(pos, cat.effects));
    }
  }

  /** Under `--quiet` no transport block fails at looking up a local address. */
  lemma TransportsQuiet(args: Cli, config: Config, addrs: seq<IpAddr>, ok: Oracle, pos: nat)
    requires args.quiet
    ensures var lst := TransportsRun(args, config, addrs, ok, pos);
      lst.result.Err? ==> lst.result.error.stage != LocalAddrLookup
  {
    var block := BlockOf(args, config, addrs, ok);
    var n := |ALL_TRANSPORTS|;
    BlockFailed(args, config, addrs, ok, pos);
    if TransportsUpTo(n, block, pos).result.Err? {
      var i := FailingBlock(n, block, pos);
      var t := ALL_TRANSPORTS[i];
      var p := After(pos, TransportsUpTo(i, block, pos).effects);
      BlockOfAt(args, config, addrs, ok, t, p);
      UnloggedNeverLooksUp(t, addrs, PortFor(t, args, config), CertFilesOf(args, config), ok, p);
    }
  }

  /** Startup after the zone loop fails on a listener only once both address lists parsed and it means to serve. */
  lemma PlannedListenerFailed(args: Cli, config: Config, catalog: Catalog, prefix: seq<Effect>, ids: Ids,
                              passwd: map<string, u32>, groups: map<string, u32>, ok: Oracle, pos: nat)
    requires var r := PlannedRun(args, config, catalog, prefix, ids, passwd, groups, ok, pos);
      r.result.Err? && r.result.error.ListenerFailed?
    ensures config.listenV4.Some? && config.listenV6.Some? && !args.validate
  {
  }

  /**
   * Startup after the zone loop that fails on a listener stops with the
   * transports: its trace is the zone loads followed by the effects of the
   * failed transport run, and it keeps the identity it had.
   */
  lemma PlannedStopped(args: Cli, config: Config, catalog: Catalog, prefix: seq<Effect>, ids: Ids,
                       passwd: map<string, u32>, groups: map<string, u32>, ok: Oracle, pos: nat)
    requires config.listenV4.Some? && config.listenV6.Some? && !args.validate
    requires var r := PlannedRun(args, config, catalog, prefix, ids, passwd, groups, ok, pos);
      r.result.Err? && r.result.error.ListenerFailed?
    ensures var lst := TransportsRun(args, config, ListenAddrs(config.listenV4.value, config.listenV6.value), ok,
                                     After(pos, prefix));
      && lst.result.Err?
      && PlannedRun(args, config, catalog, prefix, ids, passwd, groups, ok, pos)
           == Outcome(prefix + lst.effects, Err(lst.result.error), ids)
  {
    var addrs := ListenAddrs(config.listenV4.value, config.listenV6.value);
    PlannedServes(args, config, catalog, prefix, ids, passwd, groups, ok, pos);
    ServeDrops(args, config, catalog, addrs, ids, passwd, groups, ok, After(pos, prefix));
  }

  /**
   * The registrations of `u` in `effects` when the listener of transport
   * `failure.transport` failed; see `ListenerFailure`.
   */
  predicate FailedListeners(regs: seq<IpAddr>, failure: StartupError, args: Cli, config: Config, addrs: seq<IpAddr>,
                            u: Transport)
    requires failure.ListenerFailed?
  {
    var f := failure.transport;
    && (u != f ==> regs == if TransportIndex(u) < TransportIndex(f) && Enabled(u, args, config) then addrs else [])
    && (u == f ==> RegisteredBefore(regs, addrs, |addrs|, failure.addr, failure.stage == Registration))
  }


  /** `FailedListeners` for a failed transport run that follows the zone loads `prefix`. */
  lemma StoppedListeners(prefix: seq<Effect>, args: Cli, config: Config, addrs: seq<IpAddr>, ok: Oracle, pos: nat,
                         u: Transport)
    requires InPhase(prefix, 0)
    ensures var lst := TransportsRun(args, config, addrs, ok, After(pos, prefix));
      lst.result.Err? ==> FailedListeners(Registrations(prefix + lst.effects, u), lst.result.error, args, config, addrs, u)
  {
    var lst := TransportsRun(args, config, addrs, ok, After(pos, prefix));
    RegisteredUntilFailure(args, config, addrs, ok, After(pos, prefix), u);
    LoadsUnregistered(prefix, lst.effects, u);
  }

  /** Whether startup got as far as dropping privileges. */
  predicate ReachedDrop(result: Result<Phase, StartupError>)
  {
    (result.Ok? && result.value.Serving?) || (result.Err? && result.error.PrivilegeDropFailed?)
  }

  /**
   * Startup proceeds in phases: zone loads, then listener setup, then the
   * privilege drop, never out of order; so privileges are dropped only once
   * every listener is registered. A startup that stops before the drop has
   * issued no privilege effect and left the identity alone.
   */
  lemma StartupPhased(args: Cli, config: Option<Config>, ids: Ids, passwd: map<string, u32>, groups: map<string, u32>,
                      ok: Oracle, pos: nat)
    ensures var r := StartupRun(args, config, ids, passwd, groups, ok, pos);
      && Phased(r.effects)
      && (!ReachedDrop(r.result) ==> r.ids == ids && BeforeDrop(r.effects))
  {
    if config.Some? {
      var c := config.value;
      var cat := CatalogRun(c.zones, ZoneDir(args, c), ok, pos);
      CatalogInPhase(c.zones, ZoneDir(args, c), ok, pos);
      if cat.result.Ok? {
        StartupPlans(args, c, ids, passwd, groups, ok, pos);
        PlannedPhased(args, c, cat.result.value, cat.effects, ids, passwd, groups, ok, pos);
      }
    }
  }

  /** `StartupPhased` once the zones are loaded, their loads being `prefix`. */
  lemma PlannedPhased(args: Cli, config: Config, catalog: Catalog, prefix: seq<Effect>, ids: Ids,
                      passwd: map<string, u32>, groups: map<string, u32>, ok: Oracle, pos: nat)
    requires InPhase(prefix, 0)
    ensures var r := PlannedRun(args, config, catalog, prefix, ids, passwd, groups, ok, pos);
      && Phased(r.effects)
      && (!ReachedDrop(r.result) ==> r.ids == ids && BeforeDrop(r.effects))
  {
    if config.listenV4.Some? && config.listenV6.Some? && !args.validate {
      var addrs := ListenAddrs(config.listenV4.value, config.listenV6.value);
      var serve := ServeRun(args, config, catalog, addrs, ids, passwd, groups, ok, After(pos, prefix));
      PlannedServes(args, config, catalog, prefix, ids, passwd, groups, ok, pos);
      ServePhased(args, config, catalog, addrs, ids, passwd, groups, ok, After(pos, prefix));
      LoadsThenPhased(prefix, serve.effects);
      if !ReachedDrop(serve.result) {
        BeforeDropAppend(prefix, serve.effects);
      }
    }
  }

  /** `StartupPhased` for the serving part alone: listener effects, then privilege effects. */
  lemma ServePhased(args: Cli, config: Config, catalog: Catalog, addrs: seq<IpAddr>, ids: Ids,
                    passwd: map<string, u32>, groups: map<string, u32>, ok: Oracle, pos: nat)
    ensures var r := ServeRun(args, config, catalog, addrs, ids, passwd, groups, ok, pos);
      && Phased(r.effects)
      && (!ReachedDrop(r.result) ==> r.ids == ids && BeforeDrop(r.effects))
  {
    var lst := TransportsRun(args, config, addrs, ok, pos);
    ServeDrops(args, config, catalog, addrs, ids, passwd, groups, ok, pos);
    BlocksInPhase(args, config, addrs, ok);
    TransportsInPhase(|ALL_TRANSPORTS|, BlockOf(args, config, addrs, ok), pos);
    if lst.result.Ok? {
      var drop := DropPrivs(TargetUser(config), TargetGroup(config), ids, passwd, groups, ok, After(pos, lst.effects));
      DropInPhase(TargetUser(config), TargetGroup(config), ids, passwd, groups, ok, After(pos, lst.effects));
      PhasedConcat([], lst.effects, drop.effects);
      assert [] + (lst.effects + drop.effects) == lst.effects + drop.effects;
    }
  }

  /**
   * The order of the startup checks: the configuration is read first, the
   * zones are loaded next, then the IPv4 and then the IPv6 address lists
   * are parsed; each failure is reported only when every earlier step
   * succeeded.
   */
  lemma CheckOrder(args: Cli, config: Option<Config>, ids: Ids, passwd: map<string, u32>, groups: map<string, u32>,
                   ok: Oracle, pos: nat)
    ensures var r := StartupRun(args, config, ids, passwd, groups, ok, pos);
      config.Some? ==>
        var c := config.value;
        var loaded := CatalogRun(c.zones, ZoneDir(args, c), ok, pos).result.Ok?;
        && (r.result.Err? && (r.result.error.ZoneNameUnreadable? || r.result.error.ZoneLoadFailed?) <==> !loaded)
        && (r.result == Err(Ipv4Unparsable) <==> loaded && c.listenV4.None?)
        && (r.result == Err(Ipv6Unparsable) <==> loaded && c.listenV4.Some? && c.listenV6.None?)
  {
  }
}
