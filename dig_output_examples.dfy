/**
 * How single lines of dig output are classified, and the `multiple_ede` case
 * of client.rs: a SERVFAIL answer carrying three EDE codes, which come out in
 * ascending order.
 */
module DigOutputExamples {
  import opened Basics
  import opened Numbers
  import opened Text
  import opened DigFields
  import opened DigOutput
  import opened DigOutputFacts

  /** A line that differs from a prefix at some position does not start with it. */
  lemma Mismatch(s: string, p: string, k: nat)
    requires k < |s| && k < |p| && s[k] != p[k]
    ensures !HasPrefix(s, p)
  {
    assert !HasPrefix(s, p) by {
      if |p| <= |s| {
        assert s[..|p|][k] == s[k];
      }
    }
  }

  lemma PrefixOfConcat(p: string, rest: string)
    ensures HasPrefix(p + rest, p)
  {
    assert (p + rest)[..|p|] == p;
  }

  /** A line that is `;; ` and then a character other than those the prefixes continue with is no event. */
  lemma OtherLine(lines: seq<string>, n: nat, rest: string)
    requires n < |lines| && lines[n] == ";; " + rest
    requires rest != [] && rest[0] !in "f-A"
    ensures Classify(lines, n) == (Other, n + 1)
  {
    var line := lines[n];
    assert line[3] == rest[0];
    Mismatch(line, FLAGS_PREFIX, 3);
    Mismatch(line, STATUS_PREFIX, 3);
    Mismatch(line, EDE_PREFIX, 1);
    Mismatch(line, ANSWER_HEADER, 3);
    Mismatch(line, AUTHORITY_HEADER, 3);
    Mismatch(line, ADDITIONAL_HEADER, 3);
  }

  /** A line that follows the EDE prefix for `head`, a start of it of at least `; `, and then leaves it, is no event. */
  lemma EdeLookalikeLine(lines: seq<string>, n: nat, head: string, rest: string)
    requires n < |lines| && lines[n] == head + rest
    requires 2 <= |head| < |EDE_PREFIX| && EDE_PREFIX[..|head|] == head
    requires rest != [] && rest[0] != EDE_PREFIX[|head|]
    ensures Classify(lines, n) == (Other, n + 1)
  {
    var line := lines[n];
    assert line[1] == head[1] == EDE_PREFIX[1];
    assert line[|head|] == rest[0];
    Mismatch(line, FLAGS_PREFIX, 1);
    Mismatch(line, STATUS_PREFIX, 1);
    Mismatch(line, EDE_PREFIX, |head|);
    Mismatch(line, ANSWER_HEADER, 1);
    Mismatch(line, AUTHORITY_HEADER, 1);
    Mismatch(line, ADDITIONAL_HEADER, 1);
  }

  /** A line that is `;` and then neither `;` nor a space is no event. */
  lemma CommentLine(lines: seq<string>, n: nat, rest: string)
    requires n < |lines| && lines[n] == ";" + rest
    requires rest != [] && rest[0] != ';' && rest[0] != ' '
    ensures Classify(lines, n) == (Other, n + 1)
  {
    var line := lines[n];
    assert line[1] == rest[0];
    Mismatch(line, FLAGS_PREFIX, 1);
    Mismatch(line, STATUS_PREFIX, 1);
    Mismatch(line, EDE_PREFIX, 1);
    Mismatch(line, ANSWER_HEADER, 1);
    Mismatch(line, AUTHORITY_HEADER, 1);
    Mismatch(line, ADDITIONAL_HEADER, 1);
  }

  /** `; EDE: <code> <rest>` is the EDE event for the code before the first space. */
  lemma EdeLineOf(lines: seq<string>, n: nat, code: string, rest: string)
    requires n < |lines| && lines[n] == EDE_PREFIX + code + " " + rest
    requires ' ' !in code
    ensures Classify(lines, n) == (EdeLine(code), n + 1)
  {
    var line := lines[n];
    assert line == EDE_PREFIX + (code + " " + rest);
    PrefixOfConcat(EDE_PREFIX, code + " " + rest);
    Mismatch(line, FLAGS_PREFIX, 1);
    Mismatch(line, STATUS_PREFIX, 1);
    assert line[|EDE_PREFIX|..] == code + [' '] + rest;
    SplitAt(code, ' ', rest);
  }

  /** The status line yields the text between the prefix and the first comma. */
  lemma StatusLineOf(lines: seq<string>, n: nat, status: string, rest: string)
    requires n < |lines| && lines[n] == STATUS_PREFIX + status + "," + rest
    requires ',' !in status
    ensures Classify(lines, n) == (StatusLine(Some(status)), n + 1)
  {
    var line := lines[n];
    assert line == STATUS_PREFIX + (status + "," + rest);
    PrefixOfConcat(STATUS_PREFIX, status + "," + rest);
    Mismatch(line, FLAGS_PREFIX, 3);
    assert line[|STATUS_PREFIX|..] == status + [','] + rest;
    SplitAt(status, ',', rest);
  }

  /** The flags line yields the text between the prefix and the first semicolon. */
  lemma FlagsLineOf(lines: seq<string>, n: nat, flags: string, rest: string)
    requires n < |lines| && lines[n] == FLAGS_PREFIX + flags + ";" + rest
    requires ';' !in flags
    ensures Classify(lines, n) == (FlagsLine(Some(flags)), n + 1)
  {
    var line := lines[n];
    assert line == FLAGS_PREFIX + (flags + ";" + rest);
    PrefixOfConcat(FLAGS_PREFIX, flags + ";" + rest);
    assert line[|FLAGS_PREFIX|..] == flags + [';'] + rest;
    SplitAt(flags, ';', rest);
  }

  const FLAGS_QR_RD_RA: DigFlags := DigFlags(false, false, false, true, true, true)

  lemma ExampleFlags()
    ensures FlagsOf(SplitWhitespace("qr rd ra")) == Ok(FLAGS_QR_RD_RA)
  {
    assert FlagsText(FLAGS_QR_RD_RA) == ["qr", "rd", "ra"];
    assert JoinWords(["qr", "rd", "ra"]) == "qr rd ra";
    FlagsRoundTrip(FLAGS_QR_RD_RA);
  }

  lemma ExampleCodes()
    ensures ParseEde("9") == Ok(DnskeyMissing)
    ensures ParseEde("18") == Ok(Prohibited)
    ensures ParseEde("22") == Ok(NoReachableAuthority)
  {
    ParseEdeCode(DnskeyMissing);
    ParseEdeCode(Prohibited);
    ParseEdeCode(NoReachableAuthority);
    assert Decimal(9) == "9";
    assert Decimal(18) == "18";
    assert Decimal(22) == "22";
  }

  const ST1: Partial<int> := Partial(None, Some(SERVFAIL), None, None, None, [])
  const ST2: Partial<int> := ST1.(flags := Some(FLAGS_QR_RD_RA))
  const ST5: Partial<int> := ST2.(ede := [DnskeyMissing, Prohibited, NoReachableAuthority])

  lemma StatusFold(parseRecord: string -> Option<int>)
    ensures Step(Init(), StatusLine(Some("SERVFAIL")), parseRecord) == Ok(ST1)
  {
    ParseStatusName(SERVFAIL);
  }

  lemma FlagsFold(parseRecord: string -> Option<int>)
    ensures Step(ST1, FlagsLine(Some("qr rd ra")), parseRecord) == Ok(ST2)
  {
    ExampleFlags();
  }

  /** The three codes, inserted in the order of the output, each enter the set and keep it ascending. */
  lemma EdeInserts()
    ensures Insert([], DnskeyMissing) == ([DnskeyMissing], true)
    ensures Insert([DnskeyMissing], Prohibited) == ([DnskeyMissing, Prohibited], true)
    ensures Insert([DnskeyMissing, Prohibited], NoReachableAuthority) == (ST5.ede, true)
  {
    var two := Insert([DnskeyMissing], Prohibited);
    assert two.0 == [DnskeyMissing, Prohibited];
    var three := Insert([DnskeyMissing, Prohibited], NoReachableAuthority);
    assert three.0 == ST5.ede;
  }

  /** An EDE line whose code parses and is new enters the set of codes. */
  lemma EdeStep<R>(st: Partial<R>, code: string, c: ExtendedDnsError, set': seq<ExtendedDnsError>,
                   parseRecord: string -> Option<R>)
    requires Ascending(st.ede) && ParseEde(code) == Ok(c) && Insert(st.ede, c) == (set', true)
    ensures Step(st, EdeLine(code), parseRecord) == Ok(st.(ede := set'))
  {
  }

  const ONE_EDE: Partial<int> := ST2.(ede := [DnskeyMissing])
  const TWO_EDE: Partial<int> := ST2.(ede := [DnskeyMissing, Prohibited])

  /** Each of the three EDE lines inserts its code. */
  lemma EdeSteps(parseRecord: string -> Option<int>)
    ensures Step(ST2, EdeLine("9"), parseRecord) == Ok(ONE_EDE)
    ensures Step(ONE_EDE, EdeLine("18"), parseRecord) == Ok(TWO_EDE)
    ensures Step(TWO_EDE, EdeLine("22"), parseRecord) == Ok(ST5)
  {
    ExampleCodes();
    EdeInserts();
    EdeStep(ST2, "9", DnskeyMissing, ONE_EDE.ede, parseRecord);
    EdeStep(ONE_EDE, "18", Prohibited, TWO_EDE.ede, parseRecord);
    EdeStep(TWO_EDE, "22", NoReachableAuthority, ST5.ede, parseRecord);
  }

  /** An empty line outside a section is no event. */
  lemma EmptyLine(lines: seq<string>, n: nat)
    requires n < |lines| && lines[n] == []
    ensures Classify(lines, n) == (Other, n + 1)
  {
  }

  // ------------------------------------------------------ the multiple_ede test

  /**
   * The events the `multiple_ede` output gives besides `Other`: its status
   * line, its flags line and its three EDE lines. Each of its other lines is
   * an empty line or starts with `;` and then leaves every prefix: `; <<>> DiG`
   * and `; (1 server found)` (`EdeLookalikeLine` with head `; `), `; EDNS:`
   * (head `; ED`), `;allow-query-none...` (`CommentLine`), and the `;; `
   * lines `global options`, `Got answer`, `OPT PSEUDOSECTION`, `QUESTION
   * SECTION`, `Query time`, `SERVER`, `WHEN` and `MSG SIZE` (`OtherLine`).
   */
  const MULTIPLE_EDE_EVENTS: seq<Event> := [
    StatusLine(Some("SERVFAIL")), FlagsLine(Some("qr rd ra")), EdeLine("9"), EdeLine("18"), EdeLine("22")]

  /** The status and flags events, folded. */
  lemma HeaderFold(rest: seq<Event>, parseRecord: string -> Option<int>)
    ensures Fold(Init(), MULTIPLE_EDE_EVENTS[..2] + rest, parseRecord) == Fold(ST2, rest, parseRecord)
  {
    StatusFold(parseRecord);
    FlagsFold(parseRecord);
    FoldAppend(Init(), MULTIPLE_EDE_EVENTS[..2], rest, parseRecord);
  }

  /** The three EDE events, folded. */
  lemma EdesFold(parseRecord: string -> Option<int>)
    ensures Fold(ST2, MULTIPLE_EDE_EVENTS[2..], parseRecord) == Ok(ST5)
  {
    EdeSteps(parseRecord);
    var evs := MULTIPLE_EDE_EVENTS[2..];
    assert evs[0] == EdeLine("9") && evs[1..][0] == EdeLine("18") && evs[1..][1..] == [EdeLine("22")];
    assert Fold(TWO_EDE, evs[1..][1..], parseRecord) == Ok(ST5);
    assert Fold(ONE_EDE, evs[1..], parseRecord) == Ok(ST5);
  }

  lemma ExampleFold(parseRecord: string -> Option<int>)
    ensures Fold(Init(), MULTIPLE_EDE_EVENTS, parseRecord) == Ok(ST5)
  {
    HeaderFold(MULTIPLE_EDE_EVENTS[2..], parseRecord);
    EdesFold(parseRecord);
    assert MULTIPLE_EDE_EVENTS[..2] + MULTIPLE_EDE_EVENTS[2..] == MULTIPLE_EDE_EVENTS;
  }

  /**
   * The `multiple_ede` test: an output whose events besides `Other` are those
   * of that test parses to a SERVFAIL answer with flags qr rd ra and the EDE
   * codes DNSKEY Missing, Prohibited, No Reachable Authority, in that order,
   * and no records.
   */
  lemma MultipleEde(lines: seq<string>, parseRecord: string -> Option<int>)
    requires Significant(Events(lines, 0)) == MULTIPLE_EDE_EVENTS
    ensures DigOutputOf(lines, parseRecord) == Ok(DigOutput(
      [DnskeyMissing, Prohibited, NoReachableAuthority], FLAGS_QR_RD_RA, SERVFAIL, [], [], []))
  {
    FoldSignificant(Init(), Events(lines, 0), parseRecord);
    ExampleFold(parseRecord);
  }

  /** No event of the `multiple_ede` output is `Other`. */
  lemma SignificantExample()
    ensures Significant(MULTIPLE_EDE_EVENTS) == MULTIPLE_EDE_EVENTS
  {
    var evs := MULTIPLE_EDE_EVENTS;
    assert Significant(evs[4..]) == evs[4..];
    assert Significant(evs[3..]) == evs[3..];
    assert Significant(evs[2..]) == evs[2..];
    assert Significant(evs[1..]) == evs[1..];
  }

  /**
   * The status, flags and EDE lines of the `multiple_ede` output, whatever
   * follows the fields the parser reads, give exactly those events.
   */
  lemma MultipleEdeLines(lines: seq<string>, id: string, counts: string, info9: string, info18: string, info22: string)
    requires |lines| == 5
    requires lines[0] == STATUS_PREFIX + "SERVFAIL" + "," + id && lines[1] == FLAGS_PREFIX + "qr rd ra" + ";" + counts
    requires lines[2] == EDE_PREFIX + "9" + " " + info9 && lines[3] == EDE_PREFIX + "18" + " " + info18
    requires lines[4] == EDE_PREFIX + "22" + " " + info22
    ensures Significant(Events(lines, 0)) == MULTIPLE_EDE_EVENTS
  {
    EdeLinesEvents(lines, info9, info18, info22);
    HeaderLinesEvents(lines, "SERVFAIL", id, "qr rd ra", counts);
    SplitExample();
    SignificantExample();
  }

  lemma SplitExample()
    ensures MULTIPLE_EDE_EVENTS == [StatusLine(Some("SERVFAIL")), FlagsLine(Some("qr rd ra"))] + MULTIPLE_EDE_EVENTS[2..]
  {
  }

  /** A status line and then a flags line give their two events ahead of the rest. */
  lemma HeaderLinesEvents(lines: seq<string>, status: string, id: string, flags: string, counts: string)
    requires |lines| >= 2 && ',' !in status && ';' !in flags
    requires lines[0] == STATUS_PREFIX + status + "," + id && lines[1] == FLAGS_PREFIX + flags + ";" + counts
    ensures Events(lines, 0) == [StatusLine(Some(status)), FlagsLine(Some(flags))] + Events(lines, 2)
  {
    FlagsLineOf(lines, 1, flags, counts);
    EventsStep(lines, 1, FlagsLine(Some(flags)));
    StatusLineOf(lines, 0, status, id);
    EventsStep(lines, 0, StatusLine(Some(status)));
    ConsTwo(StatusLine(Some(status)), FlagsLine(Some(flags)), Events(lines, 2));
  }

  lemma ConsTwo(a: Event, b: Event, rest: seq<Event>)
    ensures [a] + ([b] + rest) == [a, b] + rest
  {
  }

  /** A line that the loop reads on its own contributes its event ahead of the rest. */
  lemma EventsStep(lines: seq<string>, i: nat, e: Event)
    requires i < |lines| && Classify(lines, i) == (e, i + 1)
    ensures Events(lines, i) == [e] + Events(lines, i + 1)
  {
  }

  lemma EdeLinesEvents(lines: seq<string>, info9: string, info18: string, info22: string)
    requires |lines| == 5
    requires lines[2] == EDE_PREFIX + "9" + " " + info9 && lines[3] == EDE_PREFIX + "18" + " " + info18
    requires lines[4] == EDE_PREFIX + "22" + " " + info22
    ensures Events(lines, 2) == MULTIPLE_EDE_EVENTS[2..]
  {
    EdeLineOf(lines, 2, "9", info9);
    EdeLineOf(lines, 3, "18", info18);
    EdeLineOf(lines, 4, "22", info22);
    assert Events(lines, 5) == [];
    assert Events(lines, 4) == [EdeLine("22")];
    assert Events(lines, 3) == [EdeLine("18"), EdeLine("22")];
    assert MULTIPLE_EDE_EVENTS[2..] == [EdeLine("9"), EdeLine("18"), EdeLine("22")];
  }
}
