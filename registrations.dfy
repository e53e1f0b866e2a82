/**
 * The listeners a trace registers with the server, per transport: the
 * measure the startup properties are stated in.
 */
module Registry {
  import opened Host

  /** The addresses registered for transport `t` by `effects[i..]`, in the order of the trace. */
  function RegistrationsFrom(effects: seq<Effect>, t: Transport, i: nat): seq<IpAddr>
    requires i <= |effects|
    decreases |effects| - i
  {
    if i == |effects| then []
    else (if effects[i].Register? && effects[i].transport == t then [effects[i].at] else []) + RegistrationsFrom(effects, t, i + 1)
  }

  /** The addresses registered for transport `t`, in the order of the trace. */
  function Registrations(effects: seq<Effect>, t: Transport): seq<IpAddr>
  {
    RegistrationsFrom(effects, t, 0)
  }

  /** Past the end of `a`, the registrations of `a + b` are those of `b`. */
  lemma {:induction false} RegistrationsShift(a: seq<Effect>, b: seq<Effect>, t: Transport, j: nat)
    requires j <= |b|
    ensures RegistrationsFrom(a + b, t, |a| + j) == RegistrationsFrom(b, t, j)
    decreases |b| - j
  {
    if j < |b| {
      assert (a + b)[|a| + j] == b[j];
      RegistrationsShift(a, b, t, j + 1);
    }
  }

  lemma {:induction false} RegistrationsFromAppend(a: seq<Effect>, b: seq<Effect>, t: Transport, i: nat)
    requires i <= |a|
    ensures RegistrationsFrom(a + b, t, i) == RegistrationsFrom(a, t, i) + Registrations(b, t)
    decreases |a| - i
  {
    if i == |a| {
      RegistrationsShift(a, b, t, 0);
    } else {
      var head := if a[i].Register? && a[i].transport == t then [a[i].at] else [];
      var rest := RegistrationsFrom(a, t, i + 1);
      assert (a + b)[i] == a[i];
      RegistrationsFromAppend(a, b, t, i + 1);
      assert head + (rest + Registrations(b, t)) == (head + rest) + Registrations(b, t);
    }
  }

  /** The registrations of a concatenation are those of its parts, in order. */
  lemma RegistrationsAppend(a: seq<Effect>, b: seq<Effect>, t: Transport)
    ensures Registrations(a + b, t) == Registrations(a, t) + Registrations(b, t)
  {
    RegistrationsFromAppend(a, b, t, 0);
  }

  /** The registrations of a single effect. */
  lemma RegistrationsOne(e: Effect, t: Transport)
    ensures Registrations([e], t) == if e.Register? && e.transport == t then [e.at] else []
  {
    assert RegistrationsFrom([e], t, 1) == [];
  }

  lemma {:induction false} NoRegistrationsFrom(effects: seq<Effect>, t: Transport, i: nat)
    requires i <= |effects|
    requires forall k :: 0 <= k < |effects| ==> !effects[k].Register?
    ensures RegistrationsFrom(effects, t, i) == []
    decreases |effects| - i
  {
    if i < |effects| {
      NoRegistrationsFrom(effects, t, i + 1);
    }
  }

  /** A sequence without registrations has none for any transport. */
  lemma NoRegistrations(effects: seq<Effect>, t: Transport)
    requires forall k :: 0 <= k < |effects| ==> !effects[k].Register?
    ensures Registrations(effects, t) == []
  {
    NoRegistrationsFrom(effects, t, 0);
  }

  /** What a fail-fast run of effects without registrations issues has no registrations either. */
  lemma AttemptUnregistered(ops: seq<Effect>, ok: Oracle, pos: nat, t: Transport)
    requires forall k :: 0 <= k < |ops| ==> !ops[k].Register?
    ensures Registrations(ops, t) == [] && Registrations(Attempt(ops, ok, pos), t) == []
  {
    AttemptPrefix(ops, ok, pos);
    var issued := Attempt(ops, ok, pos);
    assert forall k :: 0 <= k < |issued| ==> issued[k] == ops[k];
    NoRegistrations(issued, t);
    NoRegistrations(ops, t);
  }

  /**
   * A measure of a trace that adds up over concatenation, such as the
   * addresses registered for one transport. The listener loop lemmas hold
   * for any such measure.
   */
  type Measure = seq<Effect> -> seq<IpAddr>

  /** The registrations of one transport as a measure. */
  function RegistrationsOf(t: Transport): (regs: Measure)
    ensures regs([]) == []
  {
    e => Registrations(e, t)
  }
}
