/**
 * `DigOutput::from_str`: the line-oriented scan of `dig` output.
 *
 * The specification is layered. `Events` cuts the lines into what the outer
 * loop sees: one event per line it examines, where a section header also
 * takes every following line up to the first empty one. `Step` is the effect
 * of one event on the partially built output, and `DigOutputOf` folds the
 * events and then insists on the flags and status lines. The imperative
 * `ParseDigOutput` is proved equal to it, and the lemmas at the end state what
 * the parser promises in terms of events and lines.
 *
 * `Record::from_str` is not part of this model: it is the parameter
 * `parseRecord`, any total function that may refuse a line.
 */
module DigOutput {
  import opened Basics
  import opened Text
  import opened DigFields

  const FLAGS_PREFIX: string := ";; flags: "
  const STATUS_PREFIX: string := ";; ->>HEADER<<- opcode: QUERY, status: "
  const EDE_PREFIX: string := "; EDE: "
  const ANSWER_HEADER: string := ";; ANSWER SECTION:"
  const AUTHORITY_HEADER: string := ";; AUTHORITY SECTION:"
  const ADDITIONAL_HEADER: string := ";; ADDITIONAL SECTION:"

  datatype Section = Answer | Authority | Additional

  function Header(sec: Section): string
  {
    match sec
    case Answer => ANSWER_HEADER
    case Authority => AUTHORITY_HEADER
    case Additional => ADDITIONAL_HEADER
  }

  /** The parsed output; `ede` is the `BTreeSet`, kept as the ascending sequence it iterates as. */
  datatype DigOutput<R> = DigOutput(
    ede: seq<ExtendedDnsError>,
    flags: DigFlags,
    status: DigStatus,
    answer: seq<R>,
    authority: seq<R>,
    additional: seq<R>)

  // ------------------------------------------------ the EDE set (BTreeSet)

  predicate Ascending(s: seq<ExtendedDnsError>)
  {
    forall i, j :: 0 <= i < j < |s| ==> Code(s[i]) < Code(s[j])
  }

  /** `BTreeSet::insert`: the new set and whether `x` was absent before. */
  function Insert(s: seq<ExtendedDnsError>, x: ExtendedDnsError): (r: (seq<ExtendedDnsError>, bool))
    requires Ascending(s)
    ensures Ascending(r.0)
    ensures r.1 <==> x !in s
    ensures forall e :: e in r.0 <==> e in s || e == x
    ensures !r.1 ==> r.0 == s
  {
    if s == [] then ([x], true)
    else if Code(x) < Code(s[0]) then
      AscendingCons(x, s);
      ([x] + s, true)
    else if x == s[0] then (s, false)
    else
      CodeInjective(x, s[0]);
      var tail := s[1..];
      AscendingTail(s);
      var t := Insert(tail, x);
      InsertedAbove(s, x, t.0);
      ([s[0]] + t.0, t.1)
  }

  /** The tail of an ascending sequence is ascending, and the sequence is its head and then its tail. */
  lemma AscendingTail(s: seq<ExtendedDnsError>)
    requires s != [] && Ascending(s)
    ensures Ascending(s[1..])
    ensures forall e :: e in s <==> e == s[0] || e in s[1..]
  {
    assert s == [s[0]] + s[1..];
  }

  /** Inserting above the head of an ascending sequence keeps the head first. */
  lemma InsertedAbove(s: seq<ExtendedDnsError>, x: ExtendedDnsError, t: seq<ExtendedDnsError>)
    requires s != [] && Ascending(s) && Code(s[0]) < Code(x)
    requires Ascending(t) && forall e :: e in t <==> e in s[1..] || e == x
    ensures Ascending([s[0]] + t)
  {
    forall k | 0 <= k < |t|
      ensures Code(s[0]) < Code(t[k])
    {
      assert t[k] in t;
      if t[k] != x {
        var m :| 0 <= m < |s[1..]| && s[1..][m] == t[k];
        assert s[m + 1] == s[1..][m];
      }
    }
    AscendingCons(s[0], t);
  }

  lemma AscendingCons(h: ExtendedDnsError, t: seq<ExtendedDnsError>)
    requires Ascending(t)
    requires forall k :: 0 <= k < |t| ==> Code(h) < Code(t[k])
    ensures Ascending([h] + t)
  {
    var r := [h] + t;
    forall i, j | 0 <= i < j < |r|
      ensures Code(r[i]) < Code(r[j])
    {
      assert r[j] == t[j - 1];
      if i > 0 {
        assert r[i] == t[i - 1];
      }
    }
  }

  lemma CodeInjective(a: ExtendedDnsError, b: ExtendedDnsError)
    ensures Code(a) == Code(b) ==> a == b
  {
  }

  // -------------------------------------------------------------- events

  /** What the outer loop makes of the line it reads. A flags or status line without its delimiter carries `None`. */
  datatype Event =
    | FlagsLine(flagsText: Option<string>)
    | StatusLine(statusText: Option<string>)
    | EdeLine(code: string)
    | SectionStart(section: Section, body: seq<string>)
    | Other

  /** The first empty line at or after `i`, or `|lines|`. */
  function SectionEnd(lines: seq<string>, i: nat): (e: nat)
    requires i <= |lines|
    ensures i <= e <= |lines|
    ensures forall k :: i <= k < e ==> lines[k] != ""
    ensures e < |lines| ==> lines[e] == ""
    decreases |lines| - i
  {
    if i == |lines| || lines[i] == "" then i else SectionEnd(lines, i + 1)
  }

  /** Where the outer loop resumes after a section: past the empty line that ended it, if any. */
  function Resume(lines: seq<string>, e: nat): nat
  {
    if e < |lines| then e + 1 else |lines|
  }

  /** The text before the first space of an EDE line's remainder, or all of it. */
  function EdeCodeText(unprefixed: string): string
  {
    match SplitOnce(unprefixed, ' ')
    case Some((code, _)) => code
    case None => unprefixed
  }

  function SectionAt(lines: seq<string>, i: nat, sec: Section): (r: (Event, nat))
    requires i < |lines|
    ensures i < r.1 <= |lines|
  {
    var e := SectionEnd(lines, i + 1);
    (SectionStart(sec, lines[i + 1..e]), Resume(lines, e))
  }

  /** The event for line `i`, tested against the prefixes in the source's order, and the next line the loop reads. */
  function Classify(lines: seq<string>, i: nat): (r: (Event, nat))
    requires i < |lines|
    ensures i < r.1 <= |lines|
  {
    var line := lines[i];
    if HasPrefix(line, FLAGS_PREFIX) then
      (FlagsLine(match SplitOnce(line[|FLAGS_PREFIX|..], ';') case Some((t, _)) => Some(t) case None => None), i + 1)
    else if HasPrefix(line, STATUS_PREFIX) then
      (StatusLine(match SplitOnce(line[|STATUS_PREFIX|..], ',') case Some((t, _)) => Some(t) case None => None), i + 1)
    else if HasPrefix(line, EDE_PREFIX) then
      (EdeLine(EdeCodeText(line[|EDE_PREFIX|..])), i + 1)
    else if HasPrefix(line, ANSWER_HEADER) then SectionAt(lines, i, Answer)
    else if HasPrefix(line, AUTHORITY_HEADER) then SectionAt(lines, i, Authority)
    else if HasPrefix(line, ADDITIONAL_HEADER) then SectionAt(lines, i, Additional)
    else (Other, i + 1)
  }

  /** The events of the lines from `i` on. */
  function Events(lines: seq<string>, i: nat): (r: seq<Event>)
    requires i <= |lines|
    decreases |lines| - i
  {
    if i == |lines| then [] else [Classify(lines, i).0] + Events(lines, Classify(lines, i).1)
  }

  /** The indices of the lines the outer loop examines, from `i` on. */
  function Tops(lines: seq<string>, i: nat): (r: seq<nat>)
    requires i <= |lines|
    ensures forall k :: 0 <= k < |r| ==> i <= r[k] < |lines|
    ensures |r| == |Events(lines, i)|
    ensures forall k :: 0 <= k < |r| ==> Events(lines, i)[k] == Classify(lines, r[k]).0
    decreases |lines| - i
  {
    if i == |lines| then [] else [i] + Tops(lines, Classify(lines, i).1)
  }

  // --------------------------------------------------------------- folding

  datatype Partial<R> = Partial(
    flags: Option<DigFlags>,
    status: Option<DigStatus>,
    answer: Option<seq<R>>,
    authority: Option<seq<R>>,
    additional: Option<seq<R>>,
    ede: seq<ExtendedDnsError>)
  {
    function Get(sec: Section): Option<seq<R>>
    {
      match sec
      case Answer => answer
      case Authority => authority
      case Additional => additional
    }

    function Put(sec: Section, records: seq<R>): (r: Partial<R>)
      ensures r.Get(sec) == Some(records)
      ensures forall other :: other != sec ==> r.Get(other) == Get(other)
      ensures r.flags == flags && r.status == status && r.ede == ede
    {
      match sec
      case Answer => this.(answer := Some(records))
      case Authority => this.(authority := Some(records))
      case Additional => this.(additional := Some(records))
    }
  }

  function Init<R>(): Partial<R>
  {
    Partial(None, None, None, None, None, [])
  }

  /** Each body line parsed as a record, in order; the first refused line is the error. */
  function ParseRecords<R>(body: seq<string>, parseRecord: string -> Option<R>): (r: Result<seq<R>, DigError>)
    ensures r.Ok? ==> |r.value| == |body|
    ensures r.Ok? ==> forall k :: 0 <= k < |body| ==> parseRecord(body[k]) == Some(r.value[k])
    ensures r.Err? ==> exists k :: 0 <= k < |body| && parseRecord(body[k]).None? && r.error == BadRecord(body[k])
  {
    if body == [] then Ok([])
    else
      var last := body[|body| - 1];
      match ParseRecords(body[..|body| - 1], parseRecord)
      case Err(e) => Err(e)
      case Ok(rs) =>
        match parseRecord(last)
        case None => Err(BadRecord(last))
        case Some(rec) => Ok(rs + [rec])
  }

  /** One iteration of the outer loop. */
  function Step<R>(st: Partial<R>, ev: Event, parseRecord: string -> Option<R>): (r: Result<Partial<R>, DigError>)
    requires Ascending(st.ede)
    ensures r.Ok? ==> Ascending(r.value.ede)
  {
    match ev
    case FlagsLine(None) => Err(Missing(FLAGS_PREFIX, "semicolon (;)"))
    case FlagsLine(Some(text)) =>
      if st.flags.Some? then Err(MoreThanOnce(FLAGS_PREFIX))
      else (match FlagsOf(SplitWhitespace(text))
        case Err(e) => Err(e)
        case Ok(f) => Ok(st.(flags := Some(f))))
    case StatusLine(None) => Err(Missing(STATUS_PREFIX, "comma (,)"))
    case StatusLine(Some(text)) =>
      if st.status.Some? then Err(MoreThanOnce(STATUS_PREFIX))
      else (match ParseStatus(text)
        case Err(e) => Err(e)
        case Ok(s) => Ok(st.(status := Some(s))))
    case EdeLine(code) =>
      (match ParseEde(code)
        case Err(e) => Err(e)
        case Ok(c) =>
          var (set', inserted) := Insert(st.ede, c);
          if !inserted then Err(DuplicateEde(c)) else Ok(st.(ede := set')))
    case SectionStart(sec, body) =>
      if st.Get(sec).Some? then Err(MoreThanOnce(Header(sec)))
      else (match ParseRecords(body, parseRecord)
        case Err(e) => Err(e)
        case Ok(records) => Ok(st.Put(sec, records)))
    case Other => Ok(st)
  }

  function Fold<R>(st: Partial<R>, evs: seq<Event>, parseRecord: string -> Option<R>): (r: Result<Partial<R>, DigError>)
    requires Ascending(st.ede)
    ensures r.Ok? ==> Ascending(r.value.ede)
    decreases |evs|
  {
    if evs == [] then Ok(st)
    else
      match Step(st, evs[0], parseRecord)
      case Err(e) => Err(e)
      case Ok(next) => Fold(next, evs[1..], parseRecord)
  }

  /** After the loop: absent sections are empty, a missing flags line is reported before a missing status line. */
  function Finish<R>(r: Result<Partial<R>, DigError>): (out: Result<DigOutput<R>, DigError>)
    ensures r.Err? ==> out == Err(r.error)
    ensures r.Ok? && r.value.flags.None? ==> out == Err(NotFound(FLAGS_PREFIX))
    ensures r.Ok? && r.value.flags.Some? && r.value.status.None? ==> out == Err(NotFound(STATUS_PREFIX))
    ensures out.Ok? <==> r.Ok? && r.value.flags.Some? && r.value.status.Some?
    ensures out.Ok? ==> && out.value.flags == r.value.flags.value && out.value.status == r.value.status.value
                        && out.value.ede == r.value.ede
                        && (r.value.answer.None? ==> out.value.answer == [])
                        && (r.value.answer.Some? ==> out.value.answer == r.value.answer.value)
                        && (r.value.authority.None? ==> out.value.authority == [])
                        && (r.value.authority.Some? ==> out.value.authority == r.value.authority.value)
                        && (r.value.additional.None? ==> out.value.additional == [])
                        && (r.value.additional.Some? ==> out.value.additional == r.value.additional.value)
  {
    match r
    case Err(e) => Err(e)
    case Ok(st) =>
      if st.flags.None? then Err(NotFound(FLAGS_PREFIX))
      else if st.status.None? then Err(NotFound(STATUS_PREFIX))
      else Ok(DigOutput(st.ede, st.flags.value, st.status.value,
                        st.answer.GetOr([]), st.authority.GetOr([]), st.additional.GetOr([])))
  }

  /** The meaning of `DigOutput::from_str` on the lines of the input. */
  function DigOutputOf<R>(lines: seq<string>, parseRecord: string -> Option<R>): Result<DigOutput<R>, DigError>
  {
    Finish(Fold(Init(), Events(lines, 0), parseRecord))
  }

  // ----------------------------------------------------- the imperative scan

  /** The inner `for line in lines.by_ref()` loop: records up to the first empty line, which is consumed too. */
  method CollectSection<R>(lines: seq<string>, i: nat, parseRecord: string -> Option<R>)
    returns (records: Result<seq<R>, DigError>, next: nat)
    requires i <= |lines|
    ensures records == ParseRecords(lines[i..SectionEnd(lines, i)], parseRecord)
    ensures next == Resume(lines, SectionEnd(lines, i))
  {
    var j := i;
    var acc: seq<R> := [];
    while j < |lines| && lines[j] != ""
      invariant i <= j <= |lines|
      invariant ParseRecords(lines[i..j], parseRecord) == Ok(acc)
      invariant SectionEnd(lines, j) == SectionEnd(lines, i)
      decreases |lines| - j
    {
      var line := lines[j];
      var rec := parseRecord(line);
      if rec.None? {
        RecordsFailAt(lines, i, j, parseRecord);
        return Err(BadRecord(line)), Resume(lines, SectionEnd(lines, i));
      }
      RecordsNext(lines, i, j, parseRecord);
      acc := acc + [rec.value];
      j := j + 1;
    }
    records := Ok(acc);
    next := if j < |lines| then j + 1 else j;
  }

  /** The records of `lines[i..j + 1]` are those of `lines[i..j]` and then line `j`'s. */
  lemma RecordsNext<R>(lines: seq<string>, i: nat, j: nat, parseRecord: string -> Option<R>)
    requires i <= j < |lines|
    ensures ParseRecords(lines[i..j + 1], parseRecord)
      == match ParseRecords(lines[i..j], parseRecord)
         case Err(e) => Err(e)
         case Ok(rs) =>
           match parseRecord(lines[j])
           case None => Err(BadRecord(lines[j]))
           case Some(rec) => Ok(rs + [rec])
  {
    assert lines[i..j + 1][..j - i] == lines[i..j];
  }

  /** A section body whose line `j` is refused is refused with that line. */
  lemma RecordsFailAt<R>(lines: seq<string>, i: nat, j: nat, parseRecord: string -> Option<R>)
    requires i <= j < |lines| && lines[j] != "" && SectionEnd(lines, j) == SectionEnd(lines, i)
    requires ParseRecords(lines[i..j], parseRecord).Ok? && parseRecord(lines[j]).None?
    ensures ParseRecords(lines[i..SectionEnd(lines, i)], parseRecord) == Err(BadRecord(lines[j]))
  {
    RecordsNext(lines, i, j, parseRecord);
    RecordsErrorSticks(lines, i, j + 1, SectionEnd(lines, i), parseRecord);
  }

  /** A refused record stays the error however many lines follow it. */
  lemma {:induction false} RecordsErrorSticks<R>(lines: seq<string>, i: nat, j: nat, e: nat, parseRecord: string -> Option<R>)
    requires i <= j <= e <= |lines|
    requires ParseRecords(lines[i..j], parseRecord).Err?
    ensures ParseRecords(lines[i..e], parseRecord) == ParseRecords(lines[i..j], parseRecord)
    decreases e - j
  {
    if j < e {
      RecordsNext(lines, i, j, parseRecord);
      RecordsErrorSticks(lines, i, j + 1, e, parseRecord);
    }
  }

  /** Folding the events from line `i` is one step on line `i`'s event, then the rest. */
  lemma FoldAt<R>(st: Partial<R>, lines: seq<string>, i: nat, parseRecord: string -> Option<R>)
    requires i < |lines| && Ascending(st.ede)
    ensures Fold(st, Events(lines, i), parseRecord)
      == match Step(st, Classify(lines, i).0, parseRecord)
         case Err(e) => Err(e)
         case Ok(next) => Fold(next, Events(lines, Classify(lines, i).1), parseRecord)
  {
    var evs := Events(lines, i);
    assert evs == [Classify(lines, i).0] + Events(lines, Classify(lines, i).1);
    assert evs[1..] == Events(lines, Classify(lines, i).1);
  }

  /** One iteration of the outer loop on line `i`: the updated output so far, and the next line to read. */
  method ScanLine<R>(lines: seq<string>, i: nat, st: Partial<R>, parseRecord: string -> Option<R>)
    returns (r: Result<Partial<R>, DigError>, next: nat)
    requires i < |lines| && Ascending(st.ede)
    ensures r == Step(st, Classify(lines, i).0, parseRecord)
    ensures r.Ok? ==> next == Classify(lines, i).1
  {
    ghost var ev := Classify(lines, i).0;
    var line := lines[i];
    next := i + 1;
    if HasPrefix(line, FLAGS_PREFIX) {
      var unprefixed := line[|FLAGS_PREFIX|..];
      var split := SplitOnce(unprefixed, ';');
      if split.None? {
        return Err(Missing(FLAGS_PREFIX, "semicolon (;)")), next;
      }
      assert ev == FlagsLine(Some(split.value.0));
      if st.flags.Some? {
        return Err(MoreThanOnce(FLAGS_PREFIX)), next;
      }
      var parsed := ParseFlags(split.value.0);
      if parsed.Err? {
        return Err(parsed.error), next;
      }
      r := Ok(st.(flags := Some(parsed.value)));
    } else if HasPrefix(line, STATUS_PREFIX) {
      var unprefixed := line[|STATUS_PREFIX|..];
      var split := SplitOnce(unprefixed, ',');
      if split.None? {
        return Err(Missing(STATUS_PREFIX, "comma (,)")), next;
      }
      assert ev == StatusLine(Some(split.value.0));
      if st.status.Some? {
        return Err(MoreThanOnce(STATUS_PREFIX)), next;
      }
      var parsed := ParseStatus(split.value.0);
      if parsed.Err? {
        return Err(parsed.error), next;
      }
      r := Ok(st.(status := Some(parsed.value)));
    } else if HasPrefix(line, EDE_PREFIX) {
      assert ev == EdeLine(EdeCodeText(line[|EDE_PREFIX|..]));
      var code := ParseEde(EdeCodeText(line[|EDE_PREFIX|..]));
      if code.Err? {
        return Err(code.error), next;
      }
      var insertion := Insert(st.ede, code.value);
      if !insertion.1 {
        return Err(DuplicateEde(code.value)), next;
      }
      r := Ok(st.(ede := insertion.0));
    } else if HasPrefix(line, ANSWER_HEADER) {
      r, next := ScanSection(lines, i, st, Answer, parseRecord);
    } else if HasPrefix(line, AUTHORITY_HEADER) {
      r, next := ScanSection(lines, i, st, Authority, parseRecord);
    } else if HasPrefix(line, ADDITIONAL_HEADER) {
      r, next := ScanSection(lines, i, st, Additional, parseRecord);
    } else {
      r := Ok(st);
    }
  }

  /** A section header on line `i`: refused if the section was seen before, else its records. */
  method ScanSection<R>(lines: seq<string>, i: nat, st: Partial<R>, sec: Section, parseRecord: string -> Option<R>)
    returns (r: Result<Partial<R>, DigError>, next: nat)
    requires i < |lines| && Ascending(st.ede)
    ensures r == Step(st, SectionAt(lines, i, sec).0, parseRecord)
    ensures r.Ok? ==> next == SectionAt(lines, i, sec).1
  {
    if st.Get(sec).Some? {
      return Err(MoreThanOnce(Header(sec))), i + 1;
    }
    var records;
    records, next := CollectSection(lines, i + 1, parseRecord);
    if records.Err? {
      return Err(records.error), next;
    }
    r := Ok(st.Put(sec, records.value));
  }

  /** `DigOutput::from_str`. */
  method ParseDigOutput<R>(input: string, parseRecord: string -> Option<R>)
    returns (r: Result<DigOutput<R>, DigError>)
    ensures r == DigOutputOf(Lines(input), parseRecord)
  {
    var lines := Lines(input);
    var st: Partial<R> := Init();
    var i := 0;
    while i < |lines|
      invariant 0 <= i <= |lines|
      invariant Ascending(st.ede)
      invariant DigOutputOf(lines, parseRecord) == Finish(Fold(st, Events(lines, i), parseRecord))
      decreases |lines| - i
    {
      FoldAt(st, lines, i, parseRecord);
      var outcome;
      outcome, i := ScanLine(lines, i, st, parseRecord);
      if outcome.Err? {
        return Err(outcome.error);
      }
      st := outcome.value;
    }
    if st.flags.None? {
      return Err(NotFound(FLAGS_PREFIX));
    }
    if st.status.None? {
      return Err(NotFound(STATUS_PREFIX));
    }
    r := Ok(DigOutput(st.ede, st.flags.value, st.status.value,
                      st.answer.GetOr([]), st.authority.GetOr([]), st.additional.GetOr([])));
  }
}
