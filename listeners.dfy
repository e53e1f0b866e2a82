/**
 * The listener loops of `async_run`, `config_tls`, `config_https` and
 * `config_quic` (bin/src/hickory-dns.rs): for each address of the listen
 * plan, in order, a TLS-family transport loads its certificate, then a
 * socket is built and bound, its local address is looked up when the
 * `info!` event that reports it is logged, and it is registered with the
 * server. The first failure ends startup.
 */
module Listeners {
  import opened Basics
  import opened Numbers
  import opened Host
  import opened Sockets
  import opened ServerConfig
  import opened ZoneCatalog
  import opened Registry

  /** The certificate load a TLS-family transport performs for every address. */
  function CertOps(t: Transport, certFiles: CertFiles): (r: seq<Effect>)
    ensures |r| <= 1 && forall k :: 0 <= k < |r| ==> r[k] == LoadCert(certFiles)
    ensures r != [] <==> TlsFamily(t)
  {
    if TlsFamily(t) then [LoadCert(certFiles)] else []
  }

  /**
   * The local-address lookup of one address. It is an argument of an
   * `info!` event, so it runs only when that event is `logged`.
   */
  function LookupOps(logged: bool): (r: seq<Effect>)
    ensures |r| <= 1 && forall k :: 0 <= k < |r| ==> r[k] == LocalAddr
    ensures r != [] <==> logged
  {
    if logged then [LocalAddr] else []
  }

  /** The last steps of one address: the lookup when it is logged, then the registration. */
  function TailOps(t: Transport, addr: IpAddr, logged: bool): seq<Effect>
  {
    LookupOps(logged) + [Register(t, addr)]
  }

  /** The effects one address issues, and the step that failed, if one did. */
  datatype AddrRun = AddrRun(effects: seq<Effect>, failed: Option<Stage>)

  /** Everything one address of transport `t` issues when every step succeeds. */
  function AddrPlan(t: Transport, addr: IpAddr, port: u16, certFiles: CertFiles, logged: bool): (r: seq<Effect>)
    ensures |r| >= 1 && r[|r| - 1] == Register(t, addr)
    ensures logged ==> |r| >= 2 && r[|r| - 2] == LocalAddr
    ensures (exists k :: 0 <= k < |r| && r[k] == LocalAddr) <==> logged
    ensures forall k :: 0 <= k < |r| - 1 ==> !r[k].Register?
  {
    SocketSetupOnly(KindOf(t), addr, port);
    var r := CertOps(t, certFiles) + SocketOps(KindOf(t), addr, port) + TailOps(t, addr, logged);
    assert logged ==> r[|r| - 2] == LocalAddr;
    r
  }

  /**
   * The first half of the setup of one address from trace position `pos`:
   * the certificate load of a TLS-family transport, then the socket
   * builder, the second only when the first succeeded.
   */
  function HeadRun(t: Transport, addr: IpAddr, port: u16, certFiles: CertFiles, ok: Oracle, pos: nat): (r: AddrRun)
    ensures r.failed.Some? ==> r.failed.value == CertLoad || r.failed.value == SocketBind
  {
    var cert := CertOps(t, certFiles);
    var sock := SocketOps(KindOf(t), addr, port);
    if !Completes(cert, ok, pos) then AddrRun(Attempt(cert, ok, pos), Some(CertLoad))
    else if !Completes(sock, ok, pos + |cert|) then AddrRun(cert + Attempt(sock, ok, pos + |cert|), Some(SocketBind))
    else AddrRun(cert + sock, None)
  }

  /**
   * The second half of the setup of one address, after `head` was issued
   * from trace position `pos`: when `head` succeeded, the lookup, if it is
   * logged, then the registration, each only when the one before it
   * succeeded.
   */
  function TailRun(head: AddrRun, t: Transport, addr: IpAddr, logged: bool, ok: Oracle, pos: nat): (r: AddrRun)
    ensures r.failed == Some(LocalAddrLookup) ==> logged || head.failed == Some(LocalAddrLookup)
  {
    var bound := pos + |head.effects|;
    if head.failed.Some? then head
    else if logged && !Passes(ok, bound, LocalAddr) then AddrRun(head.effects + [LocalAddr], Some(LocalAddrLookup))
    else if !Passes(ok, bound + |LookupOps(logged)|, Register(t, addr)) then
      AddrRun(head.effects + TailOps(t, addr, logged), Some(Registration))
    else AddrRun(head.effects + TailOps(t, addr, logged), None)
  }

  /**
   * The setup of one address from trace position `pos`: the socket is
   * prepared, then its local address is looked up when that is logged and
   * it is registered, each step only when the ones before it succeeded, a
   * failure being reported as the stage that failed. An address whose
   * lookup is not logged cannot fail at the lookup.
   */
  function SetupRun(t: Transport, addr: IpAddr, port: u16, certFiles: CertFiles, logged: bool, ok: Oracle, pos: nat): (r: AddrRun)
    ensures r.failed == Some(LocalAddrLookup) ==> logged
  {
    TailRun(HeadRun(t, addr, port, certFiles, ok, pos), t, addr, logged, ok, pos)
  }

  /** The fail-fast run of the last steps, the lookup when it is logged and the registration. */
  lemma AttemptTail(t: Transport, addr: IpAddr, logged: bool, ok: Oracle, p: nat)
    ensures Attempt(TailOps(t, addr, logged), ok, p)
      == if logged && !Passes(ok, p, LocalAddr) then [LocalAddr] else TailOps(t, addr, logged)
    ensures Completes(TailOps(t, addr, logged), ok, p)
      <==> (!logged || Passes(ok, p, LocalAddr)) && Passes(ok, p + |LookupOps(logged)|, Register(t, addr))
  {
    if logged {
      assert TailOps(t, addr, logged) == [LocalAddr] + [Register(t, addr)];
      AttemptStep(LocalAddr, [Register(t, addr)], ok, p);
      AttemptOne(Register(t, addr), ok, p + 1);
    } else {
      assert TailOps(t, addr, logged) == [Register(t, addr)];
      AttemptOne(Register(t, addr), ok, p);
    }
  }

  /** Preparing the socket is the fail-fast sequence of the certificate load and the socket options. */
  lemma HeadIsFailFast(t: Transport, addr: IpAddr, port: u16, certFiles: CertFiles, ok: Oracle, pos: nat)
    ensures var head := HeadRun(t, addr, port, certFiles, ok, pos);
      var ops := CertOps(t, certFiles) + SocketOps(KindOf(t), addr, port);
      && head.effects == Attempt(ops, ok, pos)
      && (head.failed.None? <==> Completes(ops, ok, pos))
  {
    var cert := CertOps(t, certFiles);
    var sock := SocketOps(KindOf(t), addr, port);
    AttemptAppend(cert, sock, ok, pos);
    if Completes(cert, ok, pos) {
      AttemptCompletes(cert, ok, pos);
      if Completes(sock, ok, pos + |cert|) {
        AttemptCompletes(sock, ok, pos + |cert|);
      }
    } else {
      assert Attempt(cert, ok, pos) + [] == Attempt(cert, ok, pos);
    }
  }

  /**
   * The setup of one address is the fail-fast sequence of its plan: it
   * issues the plan up to its first failure, and fails exactly when the plan
   * does not complete. The plan holds the lookup exactly when it is logged.
   */
  lemma SetupIsFailFast(t: Transport, addr: IpAddr, port: u16, certFiles: CertFiles, logged: bool, ok: Oracle, pos: nat)
    ensures var r := SetupRun(t, addr, port, certFiles, logged, ok, pos);
      && r.effects == Attempt(AddrPlan(t, addr, port, certFiles, logged), ok, pos)
      && (r.failed.None? <==> Completes(AddrPlan(t, addr, port, certFiles, logged), ok, pos))
  {
    HeadIsFailFast(t, addr, port, certFiles, ok, pos);
    TailIsFailFast(CertOps(t, certFiles) + SocketOps(KindOf(t), addr, port), t, addr, logged, ok, pos,
                   HeadRun(t, addr, port, certFiles, ok, pos));
  }

  /**
   * A fail-fast prefix `ops`, run as `head`, followed by the lookup when it
   * is logged and the registration is the fail-fast sequence of them all.
   */
  lemma TailIsFailFast(ops: seq<Effect>, t: Transport, addr: IpAddr, logged: bool, ok: Oracle, pos: nat, head: AddrRun)
    requires head.effects == Attempt(ops, ok, pos) && (head.failed.None? <==> Completes(ops, ok, pos))
    ensures var r := TailRun(head, t, addr, logged, ok, pos);
      && r.effects == Attempt(ops + TailOps(t, addr, logged), ok, pos)
      && (r.failed.None? <==> Completes(ops + TailOps(t, addr, logged), ok, pos))
  {
    AttemptAppend(ops, TailOps(t, addr, logged), ok, pos);
    if head.failed.None? {
      AttemptCompletes(ops, ok, pos);
      AttemptTail(t, addr, logged, ok, pos + |ops|);
    } else {
      assert head.effects + [] == head.effects;
    }
  }

  /** The setup of each address, given the address and the trace position it starts at. */
  type Setup = (IpAddr, nat) -> AddrRun

  /** The per-address setup of transport `t`. */
  function SetupOf(t: Transport, port: u16, certFiles: CertFiles, logged: bool, ok: Oracle): Setup
  {
    (addr: IpAddr, p: nat) => SetupRun(t, addr, port, certFiles, logged, ok, p)
  }

  /** Applying the per-address setup of a transport. */
  lemma SetupOfAt(t: Transport, port: u16, certFiles: CertFiles, logged: bool, ok: Oracle, addr: IpAddr, p: nat)
    ensures SetupOf(t, port, certFiles, logged, ok)(addr, p) == SetupRun(t, addr, port, certFiles, logged, ok, p)
  {
  }

  /**
   * The loop over the first `n` addresses of the listen plan for one
   * transport, each address set up by `setup`; the first address that fails
   * ends it.
   */
  function ListenersUpTo(t: Transport, addrs: seq<IpAddr>, n: nat, setup: Setup, pos: nat): (r: Run<()>)
    requires n <= |addrs|
    ensures r.result.Err? ==> r.result.error.ListenerFailed? && r.result.error.transport == t
    decreases n
  {
    if n == 0 then Run([], Ok(()))
    else
      var prev := ListenersUpTo(t, addrs, n - 1, setup, pos);
      if prev.result.Err? then prev
      else
        var one := setup(addrs[n - 1], pos + |prev.effects|);
        Run(prev.effects + one.effects,
            if one.failed.None? then Ok(()) else Err(ListenerFailed(t, addrs[n - 1], one.failed.value)))
  }

  /** The loop over the whole listen plan. */
  function ListenersRun(t: Transport, addrs: seq<IpAddr>, setup: Setup, pos: nat): Run<()>
  {
    ListenersUpTo(t, addrs, |addrs|, setup, pos)
  }

  /** One more address of the loop: it runs only when the addresses before it succeeded. */
  lemma ListenersNext(t: Transport, addrs: seq<IpAddr>, n: nat, setup: Setup, pos: nat)
    requires 0 < n <= |addrs|
    ensures var prev := ListenersUpTo(t, addrs, n - 1, setup, pos);
      var r := ListenersUpTo(t, addrs, n, setup, pos);
      var one := setup(addrs[n - 1], pos + |prev.effects|);
      && (prev.result.Err? ==> r == prev)
      && (prev.result.Ok? ==> r.effects == prev.effects + one.effects && (r.result.Ok? <==> one.failed.None?))
      && (prev.result.Ok? && one.failed.Some? ==> r.result == Err(ListenerFailed(t, addrs[n - 1], one.failed.value)))
  {
  }

  /** Preparing the socket registers nothing, whether or not it completes. */
  lemma HeadUnregistered(t: Transport, addr: IpAddr, port: u16, certFiles: CertFiles, ok: Oracle, pos: nat, u: Transport)
    ensures Registrations(HeadRun(t, addr, port, certFiles, ok, pos).effects, u) == []
  {
    var ops := CertOps(t, certFiles) + SocketOps(KindOf(t), addr, port);
    SocketSetupOnly(KindOf(t), addr, port);
    assert forall k :: 0 <= k < |ops| ==> !ops[k].Register?;
    HeadIsFailFast(t, addr, port, certFiles, ok, pos);
    AttemptUnregistered(ops, ok, pos, u);
  }

  /** The lookup registers nothing; the registration registers its address for its own transport. */
  lemma TailRegistrations(t: Transport, addr: IpAddr, logged: bool, u: Transport)
    ensures Registrations(LookupOps(logged), u) == []
    ensures Registrations(TailOps(t, addr, logged), u) == if u == t then [addr] else []
  {
    RegistrationsOne(LocalAddr, u);
    RegistrationsOne(Register(t, addr), u);
    if !logged {
      assert LookupOps(logged) == [];
    }
    RegistrationsAppend(LookupOps(logged), [Register(t, addr)], u);
  }

  /** One address registers itself with its own transport, and only once it reached that step. */
  lemma SetupRegistrations(t: Transport, addr: IpAddr, port: u16, certFiles: CertFiles, logged: bool, ok: Oracle, pos: nat, u: Transport)
    ensures var r := SetupRun(t, addr, port, certFiles, logged, ok, pos);
      Registrations(r.effects, u) ==
        if u == t && (r.failed.None? || r.failed == Some(Registration)) then [addr] else []
  {
    var head := HeadRun(t, addr, port, certFiles, ok, pos);
    HeadUnregistered(t, addr, port, certFiles, ok, pos, u);
    TailRegistrations(t, addr, logged, u);
    RegistrationsOne(LocalAddr, u);
    RegistrationsAppend(head.effects, [LocalAddr], u);
    RegistrationsAppend(head.effects, TailOps(t, addr, logged), u);
  }

  /** Each transport's setup registers its own address for itself, once it reached that step, and nothing for another. */
  lemma SetupOfRegistersOwnAddress(t: Transport, port: u16, certFiles: CertFiles, logged: bool, ok: Oracle, u: Transport)
    ensures forall addr: IpAddr, p: nat :: Reaches(RegistrationsOf(t), SetupOf(t, port, certFiles, logged, ok), addr, p)
    ensures u != t ==> forall addr: IpAddr, p: nat :: Silent(RegistrationsOf(u), SetupOf(t, port, certFiles, logged, ok), addr, p)
  {
    forall addr: IpAddr, p: nat
      ensures Reaches(RegistrationsOf(t), SetupOf(t, port, certFiles, logged, ok), addr, p)
      ensures u != t ==> Silent(RegistrationsOf(u), SetupOf(t, port, certFiles, logged, ok), addr, p)
    {
      SetupOfAt(t, port, certFiles, logged, ok, addr, p);
      SetupRegistrations(t, addr, port, certFiles, logged, ok, p, t);
      SetupRegistrations(t, addr, port, certFiles, logged, ok, p, u);
    }
  }

  /** Address `k` of the loop adds its own measure to that of the addresses before it. */
  predicate StepAdds(t: Transport, addrs: seq<IpAddr>, k: nat, setup: Setup, pos: nat, regs: Measure)
    requires 0 < k <= |addrs|
  {
    var prev := ListenersUpTo(t, addrs, k - 1, setup, pos);
    var one := setup(addrs[k - 1], pos + |prev.effects|);
    regs(prev.effects + one.effects) == regs(prev.effects) + regs(one.effects)
  }

  /** The setup of `addr` from position `p` measures nothing. */
  predicate Silent(regs: Measure, setup: Setup, addr: IpAddr, p: nat)
  {
    regs(setup(addr, p).effects) == []
  }

  /** The setup of `addr` from position `p` measures `addr` once it reaches its registration, and nothing before. */
  predicate Reaches(regs: Measure, setup: Setup, addr: IpAddr, p: nat)
  {
    var one := setup(addr, p);
    regs(one.effects) == if one.failed.None? || one.failed == Some(Registration) then [addr] else []
  }

  /** One address of a loop whose addresses each measure nothing. */
  lemma MeasureEmptyStep(t: Transport, addrs: seq<IpAddr>, n: nat, setup: Setup, pos: nat, regs: Measure)
    requires 0 < n <= |addrs| && StepAdds(t, addrs, n, setup, pos, regs)
    requires regs(ListenersUpTo(t, addrs, n - 1, setup, pos).effects) == []
    requires Silent(regs, setup, addrs[n - 1], pos + |ListenersUpTo(t, addrs, n - 1, setup, pos).effects|)
    ensures regs(ListenersUpTo(t, addrs, n, setup, pos).effects) == []
  {
    ListenersNext(t, addrs, n, setup, pos);
  }

  /** A loop whose every address measures nothing measures nothing. */
  lemma {:induction false} LoopMeasureEmpty(t: Transport, addrs: seq<IpAddr>, n: nat, setup: Setup, pos: nat, regs: Measure)
    requires n <= |addrs|
    requires regs([]) == []
    requires forall k :: 0 < k <= n ==> StepAdds(t, addrs, k, setup, pos, regs)
    requires forall addr: IpAddr, p: nat :: Silent(regs, setup, addr, p)
    ensures regs(ListenersUpTo(t, addrs, n, setup, pos).effects) == []
    decreases n
  {
    if n == 0 {
      assert ListenersUpTo(t, addrs, 0, setup, pos).effects == [];
    } else {
      LoopMeasureEmpty(t, addrs, n - 1, setup, pos, regs);
      MeasureEmptyStep(t, addrs, n, setup, pos, regs);
    }
  }

  /**
   * The registrations of a loop over the first `n` addresses that failed at
   * address `failedAt`: the addresses of the plan before it, and `failedAt`
   * itself when its failure came after it was registered.
   */
  predicate RegisteredBefore(regs: seq<IpAddr>, addrs: seq<IpAddr>, n: nat, failedAt: IpAddr, reached: bool)
  {
    var k := |regs| - (if reached then 1 else 0);
    && 0 <= k < n <= |addrs| && failedAt == addrs[k]
    && regs == addrs[..k] + (if reached then [addrs[k]] else [])
  }

  /** What a loop over the first `n` addresses measures: the plan on success, and up to the failing address on failure. */
  predicate MeasuredAs(r: Run<()>, regs: Measure, addrs: seq<IpAddr>, n: nat)
    requires n <= |addrs|
  {
    && (r.result.Ok? ==> regs(r.effects) == addrs[..n])
    && (r.result.Err? && r.result.error.ListenerFailed? ==>
          RegisteredBefore(regs(r.effects), addrs, n, r.result.error.addr, r.result.error.stage == Registration))
  }

  /** A failure among the first `n - 1` addresses is one among the first `n`. */
  lemma RegisteredBeforeGrow(regs: seq<IpAddr>, addrs: seq<IpAddr>, n: nat, failedAt: IpAddr, reached: bool)
    requires 0 < n <= |addrs| && RegisteredBefore(regs, addrs, n - 1, failedAt, reached)
    ensures RegisteredBefore(regs, addrs, n, failedAt, reached)
  {
  }

  /** A failure at the last of the first `n` addresses. */
  lemma RegisteredBeforeLast(regs: seq<IpAddr>, addrs: seq<IpAddr>, n: nat, reached: bool)
    requires 0 < n <= |addrs| && regs == addrs[..n - 1] + (if reached then [addrs[n - 1]] else [])
    ensures RegisteredBefore(regs, addrs, n, addrs[n - 1], reached)
  {
  }

  /** One address of a loop whose addresses each measure themselves once they reach registration. */
  lemma MeasureStep(t: Transport, addrs: seq<IpAddr>, n: nat, setup: Setup, pos: nat, regs: Measure)
    requires 0 < n <= |addrs| && StepAdds(t, addrs, n, setup, pos, regs)
    requires MeasuredAs(ListenersUpTo(t, addrs, n - 1, setup, pos), regs, addrs, n - 1)
    requires Reaches(regs, setup, addrs[n - 1], pos + |ListenersUpTo(t, addrs, n - 1, setup, pos).effects|)
    ensures MeasuredAs(ListenersUpTo(t, addrs, n, setup, pos), regs, addrs, n)
  {
    var prev := ListenersUpTo(t, addrs, n - 1, setup, pos);
    ListenersNext(t, addrs, n, setup, pos);
    if prev.result.Err? {
      RegisteredBeforeGrow(regs(prev.effects), addrs, n, prev.result.error.addr, prev.result.error.stage == Registration);
    } else {
      var one := setup(addrs[n - 1], pos + |prev.effects|);
      if one.failed.Some? {
        RegisteredBeforeLast(regs(prev.effects + one.effects), addrs, n, one.failed.value == Registration);
      } else {
        TakeNext(addrs, n - 1);
      }
    }
  }

  /**
   * A loop whose addresses each measure themselves once they reach their
   * registration measures the plan when it succeeds, and the addresses up
   * to the failing one when it fails.
   */
  lemma {:induction false} LoopMeasure(t: Transport, addrs: seq<IpAddr>, n: nat, setup: Setup, pos: nat, regs: Measure)
    requires n <= |addrs|
    requires regs([]) == []
    requires forall k :: 0 < k <= n ==> StepAdds(t, addrs, k, setup, pos, regs)
    requires forall addr: IpAddr, p: nat :: Reaches(regs, setup, addr, p)
    ensures MeasuredAs(ListenersUpTo(t, addrs, n, setup, pos), regs, addrs, n)
    decreases n
  {
    if n == 0 {
      assert ListenersUpTo(t, addrs, 0, setup, pos).effects == [];
    } else {
      LoopMeasure(t, addrs, n - 1, setup, pos, regs);
      MeasureStep(t, addrs, n, setup, pos, regs);
    }
  }

  /** The trace of a loop that has run its first `i` addresses, after address `i` issued `one`. */
  lemma ListenersAdvance(t: Transport, addrs: seq<IpAddr>, i: nat, setup: Setup, pos: nat,
                         start: seq<Effect>, before: seq<Effect>, trace: seq<Effect>)
    requires i < |addrs| && |start| == pos
    requires ListenersUpTo(t, addrs, i, setup, pos).result == Ok(())
    requires before == start + ListenersUpTo(t, addrs, i, setup, pos).effects
    requires trace == before + setup(addrs[i], |before|).effects
    ensures var r := ListenersUpTo(t, addrs, i + 1, setup, pos);
      var one := setup(addrs[i], |before|);
      && trace == start + r.effects
      && r.result == if one.failed.None? then Ok(()) else Err(ListenerFailed(t, addrs[i], one.failed.value))
  {
    ListenersNext(t, addrs, i + 1, setup, pos);
    AppendAssoc(start, ListenersUpTo(t, addrs, i, setup, pos).effects, setup(addrs[i], |before|).effects);
  }

  /** An empty listen plan issues nothing and succeeds. */
  lemma ListenersNone(t: Transport, setup: Setup, pos: nat)
    ensures ListenersRun(t, [], setup, pos) == Run([], Ok(()))
  {
  }

  /** Once the loop has failed, the remaining addresses change nothing. */
  lemma {:induction false} ListenersErrorSticks(t: Transport, addrs: seq<IpAddr>, i: nat, n: nat, setup: Setup, pos: nat)
    requires i <= n <= |addrs| && ListenersUpTo(t, addrs, i, setup, pos).result.Err?
    ensures ListenersUpTo(t, addrs, n, setup, pos) == ListenersUpTo(t, addrs, i, setup, pos)
    decreases n
  {
    if i < n {
      ListenersErrorSticks(t, addrs, i, n - 1, setup, pos);
    }
  }

  /** The registrations of every address of a loop add up. */
  lemma RegistrationsAddUp(t: Transport, addrs: seq<IpAddr>, setup: Setup, pos: nat, u: Transport)
    ensures forall k :: 0 < k <= |addrs| ==> StepAdds(t, addrs, k, setup, pos, RegistrationsOf(u))
  {
    forall k | 0 < k <= |addrs|
      ensures StepAdds(t, addrs, k, setup, pos, RegistrationsOf(u))
    {
      var prev := ListenersUpTo(t, addrs, k - 1, setup, pos);
      RegistrationsAppend(prev.effects, setup(addrs[k - 1], pos + |prev.effects|).effects, u);
    }
  }

  /** A successful listener loop registers exactly one listener per address of the plan, in plan order. */
  lemma ListenersRegisterAll(t: Transport, addrs: seq<IpAddr>, port: u16, certFiles: CertFiles, logged: bool, ok: Oracle, pos: nat)
    ensures var r := ListenersRun(t, addrs, SetupOf(t, port, certFiles, logged, ok), pos);
      r.result.Ok? ==> Registrations(r.effects, t) == addrs
  {
    RegistrationsAddUp(t, addrs, SetupOf(t, port, certFiles, logged, ok), pos, t);
    SetupOfRegistersOwnAddress(t, port, certFiles, logged, ok, t);
    LoopMeasure(t, addrs, |addrs|, SetupOf(t, port, certFiles, logged, ok), pos, RegistrationsOf(t));
    assert addrs[..|addrs|] == addrs;
  }

  /**
   * A failing listener loop names the address that failed: the addresses
   * before it in the plan are registered, in order, and that address too
   * when its registration was the step that failed.
   */
  lemma ListenersRegisterUntilFailure(t: Transport, addrs: seq<IpAddr>, port: u16, certFiles: CertFiles, logged: bool, ok: Oracle, pos: nat)
    ensures var r := ListenersRun(t, addrs, SetupOf(t, port, certFiles, logged, ok), pos);
      r.result.Err? ==>
        RegisteredBefore(Registrations(r.effects, t), addrs, |addrs|, r.result.error.addr, r.result.error.stage == Registration)
  {
    RegistrationsAddUp(t, addrs, SetupOf(t, port, certFiles, logged, ok), pos, t);
    SetupOfRegistersOwnAddress(t, port, certFiles, logged, ok, t);
    LoopMeasure(t, addrs, |addrs|, SetupOf(t, port, certFiles, logged, ok), pos, RegistrationsOf(t));
  }

  /** No address set up by `setup` fails at stage `s`. */
  ghost predicate NeverFailsAt(setup: Setup, s: Stage)
  {
    forall addr: IpAddr, p: nat :: setup(addr, p).failed != Some(s)
  }

  /** A loop whose setups never fail at stage `s` does not fail there either. */
  lemma {:induction false} ListenersAvoidStage(t: Transport, addrs: seq<IpAddr>, n: nat, setup: Setup, pos: nat, s: Stage)
    requires n <= |addrs| && NeverFailsAt(setup, s)
    ensures var r := ListenersUpTo(t, addrs, n, setup, pos);
      r.result.Err? ==> r.result.error.stage != s
    decreases n
  {
    if n > 0 {
      ListenersAvoidStage(t, addrs, n - 1, setup, pos, s);
      ListenersNext(t, addrs, n, setup, pos);
    }
  }

  /** A listener loop whose lookups are not logged never fails at looking up a local address. */
  lemma UnloggedNeverLooksUp(t: Transport, addrs: seq<IpAddr>, port: u16, certFiles: CertFiles, ok: Oracle, pos: nat)
    ensures var r := ListenersRun(t, addrs, SetupOf(t, port, certFiles, false, ok), pos);
      r.result.Err? ==> r.result.error.stage != LocalAddrLookup
  {
    forall addr: IpAddr, p: nat
      ensures SetupOf(t, port, certFiles, false, ok)(addr, p).failed != Some(LocalAddrLookup)
    {
      SetupOfAt(t, port, certFiles, false, ok, addr, p);
    }
    ListenersAvoidStage(t, addrs, |addrs|, SetupOf(t, port, certFiles, false, ok), pos, LocalAddrLookup);
  }

  /** The listener loop of one transport registers nothing for another. */
  lemma ListenersOtherTransport(t: Transport, addrs: seq<IpAddr>, port: u16, certFiles: CertFiles, logged: bool, ok: Oracle, pos: nat, u: Transport)
    requires u != t
    ensures Registrations(ListenersRun(t, addrs, SetupOf(t, port, certFiles, logged, ok), pos).effects, u) == []
  {
    RegistrationsAddUp(t, addrs, SetupOf(t, port, certFiles, logged, ok), pos, u);
    SetupOfRegistersOwnAddress(t, port, certFiles, logged, ok, u);
    LoopMeasureEmpty(t, addrs, |addrs|, SetupOf(t, port, certFiles, logged, ok), pos, RegistrationsOf(u));
  }

  /** The certificate load of a TLS-family transport, then the socket builder. */
  method PrepareSocket(host: Host, t: Transport, addr: IpAddr, port: u16, certFiles: CertFiles) returns (failed: Option<Stage>)
    modifies host
    ensures var head := HeadRun(t, addr, port, certFiles, host.ok, |old(host.trace)|);
      host.trace == old(host.trace) + head.effects && failed == head.failed
    ensures host.ids == old(host.ids)
  {
    ghost var t0 := host.trace;
    ghost var pos := |t0|;
    ghost var cert := CertOps(t, certFiles);
    ghost var sock := SocketOps(KindOf(t), addr, port);
    var loaded := LoadCertificate(host, t, certFiles);
    if !loaded {
      return Some(CertLoad);
    }
    AttemptCompletes(cert, host.ok, pos);
    var bound := BuildSocket(host, KindOf(t), addr, port);
    AppendAssoc(t0, cert, Attempt(sock, host.ok, pos + |cert|));
    if !bound {
      return Some(SocketBind);
    }
    AttemptCompletes(sock, host.ok, pos + |cert|);
    return None;
  }

  /** The certificate and key of a TLS-family transport, loaded from `certFiles`; the other transports load nothing. */
  method LoadCertificate(host: Host, t: Transport, certFiles: CertFiles) returns (loaded: bool)
    modifies host
    ensures host.trace == old(host.trace) + Attempt(CertOps(t, certFiles), host.ok, |old(host.trace)|)
    ensures loaded == Completes(CertOps(t, certFiles), host.ok, |old(host.trace)|)
    ensures host.ids == old(host.ids)
  {
    if TlsFamily(t) {
      AttemptOne(LoadCert(certFiles), host.ok, |host.trace|);
      loaded := host.Perform(LoadCert(certFiles));
    } else {
      loaded := true;
      assert host.trace + [] == host.trace;
    }
  }

  /** The body of each listener loop, for one address. */
  method SetupListener(host: Host, t: Transport, addr: IpAddr, port: u16, certFiles: CertFiles, logged: bool) returns (failed: Option<Stage>)
    modifies host
    ensures var run := SetupOf(t, port, certFiles, logged, host.ok)(addr, |old(host.trace)|);
      host.trace == old(host.trace) + run.effects && failed == run.failed
    ensures host.ids == old(host.ids)
  {
    ghost var t0 := host.trace;
    SetupOfAt(t, port, certFiles, logged, host.ok, addr, |t0|);
    ghost var head := HeadRun(t, addr, port, certFiles, host.ok, |t0|);
    failed := PrepareSocket(host, t, addr, port, certFiles);
    if failed.Some? {
      return;
    }
    if logged {
      var found := host.Perform(LocalAddr);
      AppendAssoc(t0, head.effects, [LocalAddr]);
      if !found {
        return Some(LocalAddrLookup);
      }
    }
    assert host.trace == t0 + head.effects + LookupOps(logged);
    var registered := host.Perform(Register(t, addr));
    AppendAssoc(t0 + head.effects, LookupOps(logged), [Register(t, addr)]);
    AppendAssoc(t0, head.effects, TailOps(t, addr, logged));
    if !registered {
      return Some(Registration);
    }
    return None;
  }

  /** One turn of the listener loop: sets up address `i`, extending the loop's run by one address. */
  method ListenNext(host: Host, t: Transport, addrs: seq<IpAddr>, i: nat, port: u16, certFiles: CertFiles, logged: bool,
                    ghost start: seq<Effect>)
    returns (failed: Option<Stage>)
    requires i < |addrs|
    requires ListenersUpTo(t, addrs, i, SetupOf(t, port, certFiles, logged, host.ok), |start|).result == Ok(())
    requires host.trace == start + ListenersUpTo(t, addrs, i, SetupOf(t, port, certFiles, logged, host.ok), |start|).effects
    modifies host
    ensures var r := ListenersUpTo(t, addrs, i + 1, SetupOf(t, port, certFiles, logged, host.ok), |start|);
      && host.trace == start + r.effects
      && r.result == if failed.None? then Ok(()) else Err(ListenerFailed(t, addrs[i], failed.value))
    ensures failed.Some? ==>
      ListenersRun(t, addrs, SetupOf(t, port, certFiles, logged, host.ok), |start|)
        == ListenersUpTo(t, addrs, i + 1, SetupOf(t, port, certFiles, logged, host.ok), |start|)
    ensures host.ids == old(host.ids)
  {
    ghost var before := host.trace;
    failed := SetupListener(host, t, addrs[i], port, certFiles, logged);
    ListenersAdvance(t, addrs, i, SetupOf(t, port, certFiles, logged, host.ok), |start|, start, before, host.trace);
    if failed.Some? {
      ListenersErrorSticks(t, addrs, i + 1, |addrs|, SetupOf(t, port, certFiles, logged, host.ok), |start|);
    }
  }

  /**
   * The listener loop of one transport. The TLS-family functions return
   * early on an empty plan; the loop would do nothing on one either.
   */
  method ServeListeners(host: Host, t: Transport, addrs: seq<IpAddr>, port: u16, certFiles: CertFiles, logged: bool)
    returns (r: Result<(), StartupError>)
    modifies host
    ensures var run := ListenersRun(t, addrs, SetupOf(t, port, certFiles, logged, host.ok), |old(host.trace)|);
      host.trace == old(host.trace) + run.effects && r == run.result
    ensures host.ids == old(host.ids)
  {
    if TlsFamily(t) && addrs == [] {
      ListenersNone(t, SetupOf(t, port, certFiles, logged, host.ok), |host.trace|);
      return Ok(());
    }
    r := ListenOnPlan(host, t, addrs, port, certFiles, logged);
  }

  /** The `for` loop over the listen plan, stopping at the first address that fails. */
  method ListenOnPlan(host: Host, t: Transport, addrs: seq<IpAddr>, port: u16, certFiles: CertFiles, logged: bool)
    returns (r: Result<(), StartupError>)
    modifies host
    ensures var run := ListenersRun(t, addrs, SetupOf(t, port, certFiles, logged, host.ok), |old(host.trace)|);
      host.trace == old(host.trace) + run.effects && r == run.result
    ensures host.ids == old(host.ids)
  {
    ghost var pos := |host.trace|;
    ghost var setup := SetupOf(t, port, certFiles, logged, host.ok);
    for i := 0 to |addrs|
      invariant host.trace == old(host.trace) + ListenersUpTo(t, addrs, i, setup, pos).effects
      invariant ListenersUpTo(t, addrs, i, setup, pos).result == Ok(())
      invariant host.ids == old(host.ids)
    {
      var failed := ListenNext(host, t, addrs, i, port, certFiles, logged, old(host.trace));
      if failed.Some? {
        return Err(ListenerFailed(t, addrs[i], failed.value));
      }
    }
    return Ok(());
  }
}
