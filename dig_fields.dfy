/**
 * The header fields of `dig` output: the flags of section 4.1.1 of RFC 1035
 * and section 3.2 of RFC 4035, the response status (RCODE), and the Extended
 * DNS Error codes of section 4 of RFC 8914; with their parsers.
 */
module DigFields {
  import opened Basics
  import opened Numbers
  import opened Text

  /** What `DigOutput::from_str` and its helpers report. The last two are panics in the source. */
  datatype DigError =
    | NotFound(prefix: string)
    | MoreThanOnce(prefix: string)
    | Missing(prefix: string, delimiter: string)
    | UnknownFlag(flag: string)
    | UnknownStatus(status: string)
    | BadCode(kind: IntErrorKind)
    | BadRecord(line: string)
    | UnimplementedEde(code: u16)
    | DuplicateEde(ede: ExtendedDnsError)
  {
    /** `todo!` and `assert!` in the source abort instead of returning an error. */
    predicate IsPanic()
    {
      UnimplementedEde? || DuplicateEde?
    }
  }

  // ---------------------------------------------------------------- flags

  datatype DigFlags = DigFlags(
    authenticatedData: bool,
    authoritativeAnswer: bool,
    checkingDisabled: bool,
    qr: bool,
    recursionAvailable: bool,
    recursionDesired: bool)

  const KNOWN_FLAGS: set<string> := {"qr", "rd", "ra", "aa", "ad", "cd"}

  /** The index of the first token that is not a known flag, or `|tokens|`. */
  function FirstUnknown(tokens: seq<string>): (k: nat)
    ensures k <= |tokens|
    ensures forall j :: 0 <= j < k ==> tokens[j] in KNOWN_FLAGS
    ensures k < |tokens| ==> tokens[k] !in KNOWN_FLAGS
  {
    if tokens == [] then 0
    else if tokens[0] !in KNOWN_FLAGS then 0
    else 1 + FirstUnknown(tokens[1..])
  }

  /**
   * What the flags text means: every token must be a known flag, and a field is
   * set exactly when its token occurs; otherwise the first unknown token is reported.
   */
  function FlagsOf(tokens: seq<string>): (r: Result<DigFlags, DigError>)
    ensures r.Err? <==> exists k :: 0 <= k < |tokens| && tokens[k] !in KNOWN_FLAGS
    ensures r.Err? ==> exists k :: 0 <= k < |tokens| && tokens[k] !in KNOWN_FLAGS && r.error == UnknownFlag(tokens[k])
                                   && forall j :: 0 <= j < k ==> tokens[j] in KNOWN_FLAGS
    ensures r.Ok? ==> && (r.value.qr <==> "qr" in tokens) && (r.value.recursionDesired <==> "rd" in tokens)
                      && (r.value.recursionAvailable <==> "ra" in tokens) && (r.value.authoritativeAnswer <==> "aa" in tokens)
                      && (r.value.authenticatedData <==> "ad" in tokens) && (r.value.checkingDisabled <==> "cd" in tokens)
  {
    var k := FirstUnknown(tokens);
    if k < |tokens| then Err(UnknownFlag(tokens[k]))
    else Ok(DigFlags(
      authenticatedData := "ad" in tokens,
      authoritativeAnswer := "aa" in tokens,
      checkingDisabled := "cd" in tokens,
      qr := "qr" in tokens,
      recursionAvailable := "ra" in tokens,
      recursionDesired := "rd" in tokens))
  }

  /** `DigFlags::from_str`: one pass over the whitespace-separated tokens, setting six booleans. */
  method ParseFlags(input: string) returns (r: Result<DigFlags, DigError>)
    ensures r == FlagsOf(SplitWhitespace(input))
  {
    var tokens := SplitWhitespace(input);
    var qr, recursionDesired, recursionAvailable := false, false, false;
    var authoritativeAnswer, authenticatedData, checkingDisabled := false, false, false;
    var i := 0;
    while i < |tokens|
      invariant 0 <= i <= |tokens|
      invariant forall j :: 0 <= j < i ==> tokens[j] in KNOWN_FLAGS
      invariant qr == ("qr" in tokens[..i])
      invariant recursionDesired == ("rd" in tokens[..i])
      invariant recursionAvailable == ("ra" in tokens[..i])
      invariant authoritativeAnswer == ("aa" in tokens[..i])
      invariant authenticatedData == ("ad" in tokens[..i])
      invariant checkingDisabled == ("cd" in tokens[..i])
    {
      var flag := tokens[i];
      assert tokens[..i + 1] == tokens[..i] + [flag];
      if flag == "qr" {
        qr := true;
      } else if flag == "rd" {
        recursionDesired := true;
      } else if flag == "ra" {
        recursionAvailable := true;
      } else if flag == "aa" {
        authoritativeAnswer := true;
      } else if flag == "ad" {
        authenticatedData := true;
      } else if flag == "cd" {
        checkingDisabled := true;
      } else {
        assert FirstUnknown(tokens) == i by { FirstUnknownAt(tokens, i); }
        return Err(UnknownFlag(flag));
      }
      i := i + 1;
    }
    assert tokens[..i] == tokens;
    r := Ok(DigFlags(authenticatedData, authoritativeAnswer, checkingDisabled, qr,
                     recursionAvailable, recursionDesired));
  }

  lemma FirstUnknownAt(tokens: seq<string>, i: nat)
    requires i < |tokens| && tokens[i] !in KNOWN_FLAGS
    requires forall j :: 0 <= j < i ==> tokens[j] in KNOWN_FLAGS
    ensures FirstUnknown(tokens) == i
  {
  }

  /** An empty flags text (or one of only whitespace) yields all-false flags. */
  lemma EmptyFlags(input: string)
    requires SplitWhitespace(input) == []
    ensures FlagsOf(SplitWhitespace(input)) == Ok(DigFlags(false, false, false, false, false, false))
  {
  }

  /**
   * Token order and repetition do not matter: token lists with the same set of
   * tokens are accepted or rejected together, and give the same flags.
   */
  lemma FlagsDependOnTokenSet(a: seq<string>, b: seq<string>)
    requires (set t | t in a) == (set t | t in b)
    ensures FlagsOf(a).Ok? <==> FlagsOf(b).Ok?
    ensures FlagsOf(a).Ok? ==> FlagsOf(a) == FlagsOf(b)
  {
    var sa, sb := set x | x in a, set x | x in b;
    forall t | t in a ensures t in b {
      assert t in sa;
      assert t in sb;
    }
    forall t | t in b ensures t in a {
      assert t in sb;
      assert t in sa;
    }
    if FirstUnknown(a) < |a| {
      assert a[FirstUnknown(a)] in b;
    }
    if FirstUnknown(b) < |b| {
      assert b[FirstUnknown(b)] in a;
    }
  }

  /** Each known token sets exactly its own field. */
  lemma SingleFlag(token: string)
    requires token in KNOWN_FLAGS
    ensures FlagsOf([token]).Ok?
    ensures var f := FlagsOf([token]).value;
      && (f.qr <==> token == "qr")
      && (f.recursionDesired <==> token == "rd")
      && (f.recursionAvailable <==> token == "ra")
      && (f.authoritativeAnswer <==> token == "aa")
      && (f.authenticatedData <==> token == "ad")
      && (f.checkingDisabled <==> token == "cd")
  {
  }

  function Opt(present: bool, word: string): seq<string>
  {
    if present then [word] else []
  }

  /** The flags as dig prints them (in the order qr aa rd ra ad cd). */
  function FlagsText(f: DigFlags): seq<string>
  {
    Opt(f.qr, "qr") + Opt(f.authoritativeAnswer, "aa") + Opt(f.recursionDesired, "rd")
    + Opt(f.recursionAvailable, "ra") + Opt(f.authenticatedData, "ad") + Opt(f.checkingDisabled, "cd")
  }

  lemma FlagsTextWords(f: DigFlags)
    ensures forall w :: w in FlagsText(f) ==> w in KNOWN_FLAGS
    ensures ("qr" in FlagsText(f)) == f.qr && ("aa" in FlagsText(f)) == f.authoritativeAnswer
    ensures ("rd" in FlagsText(f)) == f.recursionDesired && ("ra" in FlagsText(f)) == f.recursionAvailable
    ensures ("ad" in FlagsText(f)) == f.authenticatedData && ("cd" in FlagsText(f)) == f.checkingDisabled
  {
  }

  /** Parsing the printed flags gives the flags back. */
  lemma FlagsRoundTrip(f: DigFlags)
    ensures FlagsOf(SplitWhitespace(JoinWords(FlagsText(f)))) == Ok(f)
  {
    var words := FlagsText(f);
    FlagsTextWords(f);
    KnownFlagsAreWords();
    forall k | 0 <= k < |words| ensures words[k] != [] && NoWhitespace(words[k]) {
      assert words[k] in words;
    }
    SplitJoinWords(words);
    assert FlagsOf(words) == Ok(f);
  }

  lemma KnownFlagsAreWords()
    ensures forall w :: w in KNOWN_FLAGS ==> w != [] && NoWhitespace(w)
  {
    forall w | w in KNOWN_FLAGS ensures w != [] && NoWhitespace(w) {
      assert w == "qr" || w == "rd" || w == "ra" || w == "aa" || w == "ad" || w == "cd";
    }
  }

  // --------------------------------------------------------------- status

  datatype DigStatus = NOERROR | NXDOMAIN | REFUSED | SERVFAIL
  {
    predicate IsNoError() { NOERROR? }
    predicate IsNxDomain() { NXDOMAIN? }
    predicate IsServFail() { SERVFAIL? }
  }

  /** The text dig prints for each status. */
  function StatusName(s: DigStatus): string
  {
    match s
    case NOERROR => "NOERROR"
    case NXDOMAIN => "NXDOMAIN"
    case REFUSED => "REFUSED"
    case SERVFAIL => "SERVFAIL"
  }

  /** `DigStatus::from_str`: exactly the four names, each to its own variant. */
  function ParseStatus(input: string): (r: Result<DigStatus, DigError>)
    ensures r.Ok? ==> StatusName(r.value) == input
    ensures r.Err? ==> r == Err(UnknownStatus(input)) && forall s: DigStatus :: StatusName(s) != input
  {
    match input
    case "NXDOMAIN" => Ok(NXDOMAIN)
    case "NOERROR" => Ok(NOERROR)
    case "REFUSED" => Ok(REFUSED)
    case "SERVFAIL" => Ok(SERVFAIL)
    case _ => Err(UnknownStatus(input))
  }

  lemma ParseStatusName(s: DigStatus)
    ensures ParseStatus(StatusName(s)) == Ok(s)
  {
  }

  /** The `is_*` predicates each hold of exactly the status parsed from its name. */
  lemma StatusPredicates(input: string)
    requires ParseStatus(input).Ok?
    ensures ParseStatus(input).value.IsNoError() <==> input == "NOERROR"
    ensures ParseStatus(input).value.IsNxDomain() <==> input == "NXDOMAIN"
    ensures ParseStatus(input).value.IsServFail() <==> input == "SERVFAIL"
  {
  }

  // ----------------------------------------------------------------- EDE

  /** The Extended DNS Error codes the parser knows; ordered by code, as the derived `Ord` does. */
  datatype ExtendedDnsError =
    | UnsupportedDnskeyAlgorithm
    | DnssecBogus
    | DnskeyMissing
    | RrsigsMissing
    | Prohibited
    | NoReachableAuthority

  /** The INFO-CODE of section 4 of RFC 8914 for each variant. */
  function Code(e: ExtendedDnsError): u16
  {
    match e
    case UnsupportedDnskeyAlgorithm => 1
    case DnssecBogus => 6
    case DnskeyMissing => 9
    case RrsigsMissing => 10
    case Prohibited => 18
    case NoReachableAuthority => 22
  }

  /** `ExtendedDnsError::from_str`: a `u16`, then one of six codes; any other code is a `todo!` panic. */
  function ParseEde(input: string): (r: Result<ExtendedDnsError, DigError>)
    ensures r.Ok? <==> ParseU16(input).Ok? && exists e :: Code(e) == ParseU16(input).value
    ensures r.Ok? ==> Code(r.value) == ParseU16(input).value
    ensures ParseU16(input).Err? ==> r == Err(BadCode(ParseU16(input).error))
    ensures ParseU16(input).Ok? && r.Err? ==> r == Err(UnimplementedEde(ParseU16(input).value))
  {
    match ParseU16(input)
    case Err(kind) => Err(BadCode(kind))
    case Ok(code) =>
      match code
      case 1 => assert Code(UnsupportedDnskeyAlgorithm) == code; Ok(UnsupportedDnskeyAlgorithm)
      case 6 => assert Code(DnssecBogus) == code; Ok(DnssecBogus)
      case 9 => assert Code(DnskeyMissing) == code; Ok(DnskeyMissing)
      case 10 => assert Code(RrsigsMissing) == code; Ok(RrsigsMissing)
      case 18 => assert Code(Prohibited) == code; Ok(Prohibited)
      case 22 => assert Code(NoReachableAuthority) == code; Ok(NoReachableAuthority)
      case _ => Err(UnimplementedEde(code))
  }

  /** Every known code, written in decimal, parses to its variant. */
  lemma ParseEdeCode(e: ExtendedDnsError)
    ensures ParseEde(Decimal(Code(e) as nat)) == Ok(e)
  {
    ParseDecimal(Code(e));
  }

  /** Text that is not a numeral is an ordinary error, never a panic. */
  lemma NonNumericEdeIsError(input: string)
    requires !IsNumeral(input)
    ensures ParseEde(input).Err? && !ParseEde(input).error.IsPanic()
  {
  }

  /** An in-range numeral outside the six known codes panics. */
  lemma UnknownEdeCodePanics(input: string)
    requires IsNumeral(input) && Value(Digits(input)) <= U16_MAX
    requires forall e :: Code(e) as int != Value(Digits(input))
    ensures ParseEde(input) == Err(UnimplementedEde(Value(Digits(input)) as u16))
  {
  }
}
