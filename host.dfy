/**
 * The environment the `hickory-dns` binary starts up in, as the model sees
 * it. Every system call and every call into foreign code (zone loading,
 * certificate loading, listener registration) is an `Effect` appended to an
 * append-only trace; whether a fallible effect succeeds is decided by an
 * oracle that sees the effect and its position in the trace. The process
 * identity (uid, gid, euid, egid) and the passwd and group tables are the
 * only other state.
 */
module Host {
  import opened Numbers

  newtype u128 = x: int | 0 <= x < 0x1_0000_0000_0000_0000_0000_0000_0000_0000

  /** `std::net::IpAddr`, an address as its integer value. */
  datatype IpAddr = V4(v4: u32) | V6(v6: u128)

  /** `Ipv4Addr::UNSPECIFIED` and `Ipv6Addr::UNSPECIFIED`. */
  const V4_UNSPECIFIED: IpAddr := V4(0)
  const V6_UNSPECIFIED: IpAddr := V6(0)

  /** `socket2::Domain` and `socket2::Type`, restricted to what the binary asks for. */
  datatype Domain = IPV4 | IPV6
  datatype SockType = Stream | Dgram

  /** The five DNS transports the server can listen on. */
  datatype Transport = Udp | Tcp | Tls | Https | Quic

  /** A certificate to load: its configured path and the zone directory `TlsCertConfig::load` resolves it against. */
  datatype CertFiles = CertFiles(path: string, zoneDir: string)

  /** One recorded system call or foreign call. */
  datatype Effect =
    | LoadZone(zone: string, dir: string)
    | SocketNew(domain: Domain, kind: SockType)
    | SetOnlyV6(onlyV6: bool)
    | SetNonblocking(nonblocking: bool)
    | Bind(addr: IpAddr, port: u16)
    | Listen(backlog: nat)
    | FromStd(kind: SockType)
    | LocalAddr
    | LoadCert(files: CertFiles)
    | Register(transport: Transport, at: IpAddr)
    | GetPwNam(user: string)
    | GetGrNam(group: string)
    | SetGid(gid: u32)
    | SetUid(uid: u32)

  /**
   * Whether the oracle decides the outcome of an effect. Registering a UDP
   * socket or a TCP listener cannot fail, and `getpwnam`/`getgrnam` answer
   * from the tables; everything else can fail.
   */
  predicate Fallible(e: Effect)
  {
    !(e.Register? && (e.transport == Udp || e.transport == Tcp)) && !e.GetPwNam? && !e.GetGrNam?
  }

  /** The outcome oracle: whether the effect issued at trace position `pos` succeeds. */
  type Oracle = (nat, Effect) -> bool

  predicate Passes(ok: Oracle, pos: nat, e: Effect)
  {
    !Fallible(e) || ok(pos, e)
  }

  /** Every effect of `ops`, issued from position `pos` on, succeeds. */
  predicate Completes(ops: seq<Effect>, ok: Oracle, pos: nat)
    decreases |ops|
  {
    ops == [] || (Passes(ok, pos, ops[0]) && Completes(ops[1..], ok, pos + 1))
  }

  /**
   * The effects a fail-fast sequence (a chain of `?`) issues: `ops` in order,
   * up to and including the first one that fails.
   */
  function Attempt(ops: seq<Effect>, ok: Oracle, pos: nat): seq<Effect>
    decreases |ops|
  {
    if ops == [] then []
    else if Passes(ok, pos, ops[0]) then [ops[0]] + Attempt(ops[1..], ok, pos + 1)
    else [ops[0]]
  }

  /**
   * What a fail-fast sequence issues is a prefix of it, and all of it
   * exactly when every effect but possibly the last succeeds.
   */
  lemma {:induction false} AttemptPrefix(ops: seq<Effect>, ok: Oracle, pos: nat)
    ensures var r := Attempt(ops, ok, pos);
      && |r| <= |ops| && r == ops[..|r|]
      && (r == ops <==> Completes(ops, ok, pos) || (ops != [] && Completes(ops[..|ops| - 1], ok, pos)))
    decreases |ops|
  {
    if ops != [] && Passes(ok, pos, ops[0]) {
      var rest := Attempt(ops[1..], ok, pos + 1);
      AttemptPrefix(ops[1..], ok, pos + 1);
      assert ops[1..][..|rest|] == ops[1..|rest| + 1];
      assert ops[..|ops| - 1] == [] || ops[..|ops| - 1][1..] == ops[1..][..|ops[1..]| - 1];
    }
  }

  /** A sequence whose effects all succeed is issued in full. */
  lemma AttemptCompletes(ops: seq<Effect>, ok: Oracle, pos: nat)
    requires Completes(ops, ok, pos)
    ensures Attempt(ops, ok, pos) == ops
  {
    AttemptPrefix(ops, ok, pos);
  }

  /** A fail-fast sequence of two parts: the second part runs only when the first completes. */
  lemma {:induction false} AttemptAppend(a: seq<Effect>, b: seq<Effect>, ok: Oracle, pos: nat)
    ensures Attempt(a + b, ok, pos)
      == Attempt(a, ok, pos) + (if Completes(a, ok, pos) then Attempt(b, ok, pos + |a|) else [])
    ensures Completes(a + b, ok, pos) <==> Completes(a, ok, pos) && Completes(b, ok, pos + |a|)
    decreases |a|
  {
    if a == [] {
      assert a + b == b;
    } else {
      assert (a + b)[0] == a[0];
      assert (a + b)[1..] == a[1..] + b;
      AttemptAppend(a[1..], b, ok, pos + 1);
    }
  }

  /**
   * A sequence that does not complete stops at its first failure: every
   * issued effect but the last succeeds, and the last one fails.
   */
  lemma {:induction false} AttemptFails(ops: seq<Effect>, ok: Oracle, pos: nat)
    requires !Completes(ops, ok, pos)
    ensures var r := Attempt(ops, ok, pos);
      r != [] && Completes(r[..|r| - 1], ok, pos) && !Passes(ok, pos + |r| - 1, r[|r| - 1])
    decreases |ops|
  {
    var r := Attempt(ops, ok, pos);
    if Passes(ok, pos, ops[0]) {
      var rest := Attempt(ops[1..], ok, pos + 1);
      AttemptFails(ops[1..], ok, pos + 1);
      AttemptPrefix(ops[1..], ok, pos + 1);
      assert r == [ops[0]] + rest;
      assert r[..|r| - 1] == [ops[0]] + rest[..|rest| - 1];
      assert r[..|r| - 1][1..] == rest[..|rest| - 1];
    } else {
      assert r[..|r| - 1] == [];
    }
  }

  /** One step of a fail-fast sequence: the rest runs only when the first effect succeeds. */
  lemma AttemptStep(e: Effect, rest: seq<Effect>, ok: Oracle, pos: nat)
    ensures Attempt([e] + rest, ok, pos) == [e] + (if Passes(ok, pos, e) then Attempt(rest, ok, pos + 1) else [])
    ensures Completes([e] + rest, ok, pos) <==> Passes(ok, pos, e) && Completes(rest, ok, pos + 1)
  {
    assert ([e] + rest)[1..] == rest;
  }

  /** A single effect as a fail-fast sequence. */
  lemma AttemptOne(e: Effect, ok: Oracle, pos: nat)
    ensures Attempt([e], ok, pos) == [e]
    ensures Completes([e], ok, pos) <==> Passes(ok, pos, e)
  {
    assert [e][1..] == [];
    assert [e][..0] == [];
  }

  /** Regrouping a concatenation; the trace grows on the left while specifications group on the right. */
  lemma AppendAssoc<T>(a: seq<T>, b: seq<T>, c: seq<T>)
    ensures a + b + c == a + (b + c)
  {
  }

  /** The trace position right after `issued`, when its first effect was issued at `pos`. */
  function After(pos: nat, issued: seq<Effect>): (next: nat)
    ensures next >= pos
  {
    pos + |issued|
  }

  /** The real and effective user and group ids of the process. */
  datatype Ids = Ids(uid: u32, gid: u32, euid: u32, egid: u32)

  /**
   * The identity after a successful POSIX `setgid(gid)`: a caller whose
   * effective user id is 0 sets the real and the effective group id, any
   * other caller only the effective one. The user ids do not change.
   */
  function GidSet(ids: Ids, gid: u32): (r: Ids)
    ensures r.egid == gid && r.uid == ids.uid && r.euid == ids.euid
    ensures r.gid == (if ids.euid == 0 then gid else ids.gid)
  {
    if ids.euid == 0 then ids.(gid := gid, egid := gid) else ids.(egid := gid)
  }

  /**
   * The identity after a successful POSIX `setuid(uid)`: a caller whose
   * effective user id is 0 sets the real and the effective user id, any
   * other caller only the effective one. The group ids do not change.
   */
  function UidSet(ids: Ids, uid: u32): (r: Ids)
    ensures r.euid == uid && r.gid == ids.gid && r.egid == ids.egid
    ensures r.uid == (if ids.euid == 0 then uid else ids.uid)
  {
    if ids.euid == 0 then ids.(uid := uid, euid := uid) else ids.(euid := uid)
  }

  /** The process and the system around it. */
  class Host {
    /** Every effect issued so far, oldest first. */
    var trace: seq<Effect>
    var ids: Ids
    const ok: Oracle
    /** The passwd and group databases, name to id. */
    const passwd: map<string, u32>
    const groups: map<string, u32>

    constructor (ok: Oracle, ids: Ids, passwd: map<string, u32>, groups: map<string, u32>)
      ensures trace == [] && this.ids == ids && this.ok == ok
      ensures this.passwd == passwd && this.groups == groups
    {
      this.trace := [];
      this.ids := ids;
      this.ok := ok;
      this.passwd := passwd;
      this.groups := groups;
    }

    /** Issues an effect that leaves the process identity alone. */
    method Perform(e: Effect) returns (success: bool)
      requires !e.SetGid? && !e.SetUid?
      modifies this
      ensures trace == old(trace) + [e]
      ensures success == Passes(ok, |old(trace)|, e)
      ensures ids == old(ids)
    {
      success := Passes(ok, |trace|, e);
      trace := trace + [e];
    }

    /** `setgid(gid)`: on success the group ids change as `GidSet` says. */
    method SetGroupId(gid: u32) returns (success: bool)
      modifies this
      ensures trace == old(trace) + [SetGid(gid)]
      ensures success == ok(|old(trace)|, SetGid(gid))
      ensures ids == if success then GidSet(old(ids), gid) else old(ids)
    {
      success := ok(|trace|, SetGid(gid));
      trace := trace + [SetGid(gid)];
      if success {
        if ids.euid == 0 {
          ids := ids.(gid := gid, egid := gid);
        } else {
          ids := ids.(egid := gid);
        }
      }
    }

    /** `setuid(uid)`: on success the user ids change as `UidSet` says. */
    method SetUserId(uid: u32) returns (success: bool)
      modifies this
      ensures trace == old(trace) + [SetUid(uid)]
      ensures success == ok(|old(trace)|, SetUid(uid))
      ensures ids == if success then UidSet(old(ids), uid) else old(ids)
    {
      success := ok(|trace|, SetUid(uid));
      trace := trace + [SetUid(uid)];
      if success {
        if ids.euid == 0 {
          ids := ids.(uid := uid, euid := uid);
        } else {
          ids := ids.(euid := uid);
        }
      }
    }
  }
}
