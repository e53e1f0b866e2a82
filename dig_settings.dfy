/**
 * `DigSettings` (client.rs): the query options the conformance tests pass to
 * `dig`, set through builder-style setters and rendered as dig's `+option`
 * arguments.
 */
module DigSettings {
  import opened Basics
  import opened Numbers
  import opened Text

  /** dig's spelling of a boolean option: `+name` when on, `+noname` when off. */
  function Toggle(name: string, on: bool): (r: string)
    ensures HasPrefix(r, "+")
  {
    if on then "+" + name else "+no" + name
  }

  /** How dig reads a boolean option back: which of the two spellings `arg` is, if either. */
  function ReadToggle(name: string, arg: string): (r: Option<bool>)
    ensures r == Some(true) ==> arg == "+" + name
    ensures r == Some(false) ==> arg == "+no" + name
  {
    if arg == "+" + name then Some(true)
    else if arg == "+no" + name then Some(false)
    else None
  }

  /** Reading a rendered toggle gives back its setting. */
  lemma ToggleRoundTrip(name: string, on: bool)
    ensures ReadToggle(name, Toggle(name, on)) == Some(on)
  {
  }

  const TIMEOUT_PREFIX: string := "+timeout="

  /** The timeout dig uses when none is set, in seconds. */
  const DEFAULT_TIMEOUT: u8 := 5

  /** How dig reads `+timeout=<seconds>` back; `None` when `arg` is not of that form. */
  function ReadTimeout(arg: string): (r: Option<nat>)
    ensures r.Some? ==> HasPrefix(arg, TIMEOUT_PREFIX)
  {
    if HasPrefix(arg, TIMEOUT_PREFIX) then
      match ParseU16(arg[|TIMEOUT_PREFIX|..])
      case Ok(n) => Some(n as nat)
      case Err(_) => None
    else None
  }

  /**
   * The `+timeout=` argument for a number of seconds: the prefix, then the
   * canonical decimal numeral of the seconds.
   */
  function TimeoutArg(seconds: u8): (r: string)
    ensures HasPrefix(r, TIMEOUT_PREFIX)
    ensures Canonical(r[|TIMEOUT_PREFIX|..]) && Value(r[|TIMEOUT_PREFIX|..]) == seconds as nat
    ensures ReadTimeout(r) == Some(seconds as nat)
  {
    var r := TIMEOUT_PREFIX + Decimal(seconds as nat);
    assert r[..|TIMEOUT_PREFIX|] == TIMEOUT_PREFIX;
    assert r[|TIMEOUT_PREFIX|..] == Decimal(seconds as nat);
    ParseDecimal(seconds as u16);
    ValueOfDecimal(seconds as nat);
    r
  }

  /** No other spelling of the same timeout is produced: `+timeout=05` or `+timeout=+5` is never `TimeoutArg(5)`. */
  lemma TimeoutArgExact(arg: string, seconds: u8)
    requires HasPrefix(arg, TIMEOUT_PREFIX)
    ensures arg == TimeoutArg(seconds) <==>
      Canonical(arg[|TIMEOUT_PREFIX|..]) && Value(arg[|TIMEOUT_PREFIX|..]) == seconds as nat
  {
    var digits := arg[|TIMEOUT_PREFIX|..];
    if Canonical(digits) && Value(digits) == seconds as nat {
      DecimalUnique(digits);
      assert arg == TIMEOUT_PREFIX + digits;
    }
  }

  /** The options of one dig query; every field starts out off or unset (`#[derive(Default)]`). */
  class DigSettings {
    var adflag: bool
    var cdflag: bool
    var dnssec: bool
    var recurse: bool
    var timeout: Option<u8>

    /** `DigSettings::default()`. */
    constructor ()
      ensures !adflag && !cdflag && !dnssec && !recurse && timeout == None
    {
      adflag := false;
      cdflag := false;
      dnssec := false;
      recurse := false;
      timeout := None;
    }

    /** Sets the AD bit; nothing else changes. */
    method AuthenticData()
      modifies this
      ensures adflag
      ensures cdflag == old(cdflag) && dnssec == old(dnssec) && recurse == old(recurse) && timeout == old(timeout)
    {
      adflag := true;
    }

    /** Sets the CD bit; nothing else changes. */
    method CheckingDisabled()
      modifies this
      ensures cdflag
      ensures adflag == old(adflag) && dnssec == old(dnssec) && recurse == old(recurse) && timeout == old(timeout)
    {
      cdflag := true;
    }

    /** Sets the DO bit; nothing else changes. */
    method Dnssec()
      modifies this
      ensures dnssec
      ensures adflag == old(adflag) && cdflag == old(cdflag) && recurse == old(recurse) && timeout == old(timeout)
    {
      dnssec := true;
    }

    /** Sets the RD bit; nothing else changes. */
    method Recurse()
      modifies this
      ensures recurse
      ensures adflag == old(adflag) && cdflag == old(cdflag) && dnssec == old(dnssec) && timeout == old(timeout)
    {
      recurse := true;
    }

    /** Sets the query timeout in seconds; nothing else changes. */
    method Timeout(seconds: u8)
      modifies this
      ensures timeout == Some(seconds)
      ensures adflag == old(adflag) && cdflag == old(cdflag) && dnssec == old(dnssec) && recurse == old(recurse)
    {
      timeout := Some(seconds);
    }

    /** The AD-bit argument: dig reads it back as the AD setting. */
    function AdFlag(): (r: string)
      reads this
      ensures ReadToggle("adflag", r) == Some(adflag)
    {
      ToggleRoundTrip("adflag", adflag);
      Toggle("adflag", adflag)
    }

    /** The CD-bit argument: dig reads it back as the CD setting. */
    function CdFlag(): (r: string)
      reads this
      ensures ReadToggle("cdflag", r) == Some(cdflag)
    {
      ToggleRoundTrip("cdflag", cdflag);
      Toggle("cdflag", cdflag)
    }

    /** The DO-bit argument: dig reads it back as the DNSSEC setting. */
    function DoBit(): (r: string)
      reads this
      ensures ReadToggle("dnssec", r) == Some(dnssec)
    {
      ToggleRoundTrip("dnssec", dnssec);
      Toggle("dnssec", dnssec)
    }

    /** The RD-bit argument: dig reads it back as the recursion setting. */
    function RdFlag(): (r: string)
      reads this
      ensures ReadToggle("recurse", r) == Some(recurse)
    {
      ToggleRoundTrip("recurse", recurse);
      Toggle("recurse", recurse)
    }

    /** The timeout argument: the set timeout, or 5 seconds when none is set. */
    function TimeoutFlag(): (r: string)
      reads this
      ensures ReadTimeout(r) == Some(timeout.GetOr(DEFAULT_TIMEOUT) as nat)
      ensures timeout.Some? ==> r == TIMEOUT_PREFIX + Decimal(timeout.value as nat)
      ensures timeout == None ==> r == "+timeout=5"
    {
      assert Decimal(5) == "5";
      TimeoutArg(timeout.GetOr(DEFAULT_TIMEOUT))
    }

    /**
     * The argument vector of `Client::dig`: the command, the five options in
     * the order rd, do, ad, cd, timeout, then `@server`, the record type and
     * the name.
     */
    function DigArgs(server: string, recordType: string, fqdn: string): (r: seq<string>)
      reads this
      ensures |r| == 9 && r[0] == "dig"
      ensures ReadToggle("recurse", r[1]) == Some(recurse)
      ensures ReadToggle("dnssec", r[2]) == Some(dnssec)
      ensures ReadToggle("adflag", r[3]) == Some(adflag)
      ensures ReadToggle("cdflag", r[4]) == Some(cdflag)
      ensures ReadTimeout(r[5]) == Some(timeout.GetOr(DEFAULT_TIMEOUT) as nat)
      ensures timeout.Some? ==> r[5] == TIMEOUT_PREFIX + Decimal(timeout.value as nat)
      ensures timeout == None ==> r[5] == "+timeout=5"
      ensures r[6] == "@" + server && r[7] == recordType && r[8] == fqdn
    {
      ["dig", RdFlag(), DoBit(), AdFlag(), CdFlag(), TimeoutFlag(), "@" + server, recordType, fqdn]
    }
  }

  /** A fresh settings value renders every option off and the default timeout. */
  method DefaultArgs(server: string, recordType: string, fqdn: string) returns (args: seq<string>)
    ensures args == ["dig", "+norecurse", "+nodnssec", "+noadflag", "+nocdflag", "+timeout=5",
      "@" + server, recordType, fqdn]
  {
    var settings := new DigSettings();
    args := settings.DigArgs(server, recordType, fqdn);
    assert args[1] == "+norecurse";
    assert args[2] == "+nodnssec";
    assert args[3] == "+noadflag";
    assert args[4] == "+nocdflag";
    assert args[5] == "+timeout=5";
  }
}
