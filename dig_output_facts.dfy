/**
 * What `DigOutput::from_str` promises, proved about its specification
 * `DigOutputOf`: which lines it examines, that the flags and status lines are
 * required and unique, that sections are taken whole and at most once, that
 * the EDE codes form an ordered set, and which error a malformed output gets.
 */
module DigOutputFacts {
  import opened Basics
  import opened Text
  import opened DigFields
  import opened DigOutput

  /** The parts of the output that may be set at most once. */
  datatype Slot = FlagsSlot | StatusSlot | SectionSlot(sec: Section)

  function SlotOf(ev: Event): Option<Slot>
  {
    match ev
    case FlagsLine(_) => Some(FlagsSlot)
    case StatusLine(_) => Some(StatusSlot)
    case SectionStart(sec, _) => Some(SectionSlot(sec))
    case _ => None
  }

  predicate Filled<R>(st: Partial<R>, slot: Slot)
  {
    match slot
    case FlagsSlot => st.flags.Some?
    case StatusSlot => st.status.Some?
    case SectionSlot(sec) => st.Get(sec).Some?
  }

  /** The prefix or header the error messages name for a slot. */
  function SlotPrefix(slot: Slot): string
  {
    match slot
    case FlagsSlot => FLAGS_PREFIX
    case StatusSlot => STATUS_PREFIX
    case SectionSlot(sec) => Header(sec)
  }

  /** Two partial outputs agree on a slot. */
  ghost predicate SameSlot<R>(a: Partial<R>, b: Partial<R>, slot: Slot)
  {
    match slot
    case FlagsSlot => a.flags == b.flags
    case StatusSlot => a.status == b.status
    case SectionSlot(sec) => a.Get(sec) == b.Get(sec)
  }

  /** The slot an event fills holds what the event's text parses to. */
  ghost predicate Holds<R>(st: Partial<R>, ev: Event, parseRecord: string -> Option<R>)
  {
    match ev
    case FlagsLine(text) =>
      text.Some? && st.flags.Some? && FlagsOf(SplitWhitespace(text.value)) == Ok(st.flags.value)
    case StatusLine(text) =>
      text.Some? && st.status.Some? && ParseStatus(text.value) == Ok(st.status.value)
    case SectionStart(sec, body) =>
      st.Get(sec).Some? && ParseRecords(body, parseRecord) == Ok(st.Get(sec).value)
    case _ => true
  }

  /** An event that yields the EDE `e`. */
  predicate YieldsEde(ev: Event, e: ExtendedDnsError)
  {
    ev.EdeLine? && ParseEde(ev.code) == Ok(e)
  }

  // ------------------------------------------------------------ one step

  lemma StepFacts<R>(st: Partial<R>, ev: Event, parseRecord: string -> Option<R>)
    requires Ascending(st.ede) && Step(st, ev, parseRecord).Ok?
    ensures var next := Step(st, ev, parseRecord).value;
      && (forall slot :: Filled(next, slot) <==> Filled(st, slot) || SlotOf(ev) == Some(slot))
      && (SlotOf(ev).Some? ==> !Filled(st, SlotOf(ev).value))
      && (forall slot :: SlotOf(ev) != Some(slot) ==> SameSlot(st, next, slot))
      && Holds(next, ev, parseRecord)
      && (forall e :: e in next.ede <==> e in st.ede || YieldsEde(ev, e))
  {
  }

  // ------------------------------------------------------------- folding

  lemma {:induction false} FoldAppend<R>(st: Partial<R>, a: seq<Event>, b: seq<Event>, parseRecord: string -> Option<R>)
    requires Ascending(st.ede)
    ensures Fold(st, a + b, parseRecord)
      == match Fold(st, a, parseRecord)
         case Err(e) => Err(e)
         case Ok(mid) => Fold(mid, b, parseRecord)
    decreases |a|
  {
    if a == [] {
      assert a + b == b;
    } else {
      assert (a + b)[0] == a[0];
      assert (a + b)[1..] == a[1..] + b;
      match Step(st, a[0], parseRecord)
      case Err(_) =>
      case Ok(next) => FoldAppend(next, a[1..], b, parseRecord);
    }
  }

  /** The events of a list other than `Other`, in order. */
  function Significant(evs: seq<Event>): (r: seq<Event>)
    ensures |r| <= |evs| && Other !in r
  {
    if evs == [] then []
    else if evs[0] == Other then Significant(evs[1..])
    else [evs[0]] + Significant(evs[1..])
  }

  /** Lines that are no events do not change the outcome: folding a list is folding its significant events. */
  lemma {:induction false} FoldSignificant<R>(st: Partial<R>, evs: seq<Event>, parseRecord: string -> Option<R>)
    requires Ascending(st.ede)
    ensures Fold(st, evs, parseRecord) == Fold(st, Significant(evs), parseRecord)
    decreases |evs|
  {
    if evs != [] {
      var rest := Significant(evs[1..]);
      if evs[0] == Other {
        FoldSignificant(st, evs[1..], parseRecord);
      } else {
        assert ([evs[0]] + rest)[0] == evs[0];
        assert ([evs[0]] + rest)[1..] == rest;
        match Step(st, evs[0], parseRecord)
        case Err(_) =>
        case Ok(next) => FoldSignificant(next, evs[1..], parseRecord);
      }
    }
  }

  /** A successful fold fills each slot at most once, and only slots that were empty. */
  lemma FoldFills<R>(st: Partial<R>, evs: seq<Event>, parseRecord: string -> Option<R>)
    requires Ascending(st.ede) && Fold(st, evs, parseRecord).Ok?
    ensures forall slot :: (Filled(Fold(st, evs, parseRecord).value, slot)
      <==> Filled(st, slot) || exists k :: 0 <= k < |evs| && SlotOf(evs[k]) == Some(slot))
    ensures forall k :: 0 <= k < |evs| && SlotOf(evs[k]).Some? ==> !Filled(st, SlotOf(evs[k]).value)
    ensures forall k1, k2 :: 0 <= k1 < k2 < |evs| && SlotOf(evs[k1]).Some? ==> SlotOf(evs[k2]) != SlotOf(evs[k1])
  {
    FoldFilled(st, evs, parseRecord);
    FoldFreshSlots(st, evs, parseRecord);
  }

  /** The slots a successful fold leaves filled: those filled before, and those some event fills. */
  lemma {:induction false} FoldFilled<R>(st: Partial<R>, evs: seq<Event>, parseRecord: string -> Option<R>)
    requires Ascending(st.ede) && Fold(st, evs, parseRecord).Ok?
    ensures forall slot :: (Filled(Fold(st, evs, parseRecord).value, slot)
      <==> Filled(st, slot) || exists k :: 0 <= k < |evs| && SlotOf(evs[k]) == Some(slot))
    decreases |evs|
  {
    if evs != [] {
      var next := Step(st, evs[0], parseRecord).value;
      var tail := evs[1..];
      StepFacts(st, evs[0], parseRecord);
      FoldFilled(next, tail, parseRecord);
      var final := Fold(st, evs, parseRecord).value;
      assert final == Fold(next, tail, parseRecord).value;
      forall slot
        ensures Filled(final, slot) <==> Filled(st, slot) || exists k :: 0 <= k < |evs| && SlotOf(evs[k]) == Some(slot)
      {
        if exists k :: 0 <= k < |evs| && SlotOf(evs[k]) == Some(slot) {
          var k :| 0 <= k < |evs| && SlotOf(evs[k]) == Some(slot);
          if k > 0 {
            assert SlotOf(tail[k - 1]) == Some(slot);
          }
        }
        if exists k :: 0 <= k < |tail| && SlotOf(tail[k]) == Some(slot) {
          var k :| 0 <= k < |tail| && SlotOf(tail[k]) == Some(slot);
          assert SlotOf(evs[k + 1]) == Some(slot);
        }
      }
    }
  }

  /** In a successful fold no event fills a slot that was filled before it, by the start state or an earlier event. */
  lemma {:induction false} FoldFreshSlots<R>(st: Partial<R>, evs: seq<Event>, parseRecord: string -> Option<R>)
    requires Ascending(st.ede) && Fold(st, evs, parseRecord).Ok?
    ensures forall k :: 0 <= k < |evs| && SlotOf(evs[k]).Some? ==> !Filled(st, SlotOf(evs[k]).value)
    ensures forall k1, k2 :: 0 <= k1 < k2 < |evs| && SlotOf(evs[k1]).Some? ==> SlotOf(evs[k2]) != SlotOf(evs[k1])
    decreases |evs|
  {
    if evs != [] {
      var next := Step(st, evs[0], parseRecord).value;
      var tail := evs[1..];
      StepFacts(st, evs[0], parseRecord);
      assert Fold(next, tail, parseRecord) == Fold(st, evs, parseRecord);
      FoldFreshSlots(next, tail, parseRecord);
      forall k | 0 <= k < |evs| && SlotOf(evs[k]).Some?
        ensures !Filled(st, SlotOf(evs[k]).value)
      {
        if k > 0 {
          assert tail[k - 1] == evs[k];
        }
      }
      forall k1, k2 | 0 <= k1 < k2 < |evs| && SlotOf(evs[k1]).Some?
        ensures SlotOf(evs[k2]) != SlotOf(evs[k1])
      {
        assert tail[k2 - 1] == evs[k2];
        if k1 > 0 {
          assert tail[k1 - 1] == evs[k1];
        }
      }
    }
  }


  /** After a successful fold each event's slot holds its parsed value, and slots no event names are untouched. */
  lemma {:induction false} FoldValues<R>(st: Partial<R>, evs: seq<Event>, parseRecord: string -> Option<R>)
    requires Ascending(st.ede) && Fold(st, evs, parseRecord).Ok?
    ensures forall k :: 0 <= k < |evs| ==> Holds(Fold(st, evs, parseRecord).value, evs[k], parseRecord)
    ensures forall slot :: ((forall k :: 0 <= k < |evs| ==> SlotOf(evs[k]) != Some(slot))
      ==> SameSlot(st, Fold(st, evs, parseRecord).value, slot))
    decreases |evs|
  {
    if evs != [] {
      var next := Step(st, evs[0], parseRecord).value;
      var tail := evs[1..];
      StepFacts(st, evs[0], parseRecord);
      FoldValues(next, tail, parseRecord);
      FoldFills(st, evs, parseRecord);
      var final := Fold(st, evs, parseRecord).value;
      assert final == Fold(next, tail, parseRecord).value;
      forall k | 0 <= k < |evs|
        ensures Holds(final, evs[k], parseRecord)
      {
        if k > 0 {
          assert tail[k - 1] == evs[k];
        } else if SlotOf(evs[0]).Some? {
          var slot := SlotOf(evs[0]).value;
          forall j | 0 <= j < |tail|
            ensures SlotOf(tail[j]) != Some(slot)
          {
            assert tail[j] == evs[j + 1];
          }
          assert SameSlot(next, final, slot);
        }
      }
      forall slot | forall k :: 0 <= k < |evs| ==> SlotOf(evs[k]) != Some(slot)
        ensures SameSlot(st, final, slot)
      {
        assert SlotOf(evs[0]) != Some(slot);
        forall j | 0 <= j < |tail|
          ensures SlotOf(tail[j]) != Some(slot)
        {
          assert tail[j] == evs[j + 1];
        }
        assert SameSlot(next, final, slot);
      }
    }
  }

  /** After a successful fold the EDE set holds exactly the codes of the EDE events, added to what it held. */
  lemma {:induction false} FoldEde<R>(st: Partial<R>, evs: seq<Event>, parseRecord: string -> Option<R>)
    requires Ascending(st.ede) && Fold(st, evs, parseRecord).Ok?
    ensures forall e :: (e in Fold(st, evs, parseRecord).value.ede
      <==> e in st.ede || exists k :: 0 <= k < |evs| && YieldsEde(evs[k], e))
    decreases |evs|
  {
    if evs != [] {
      var next := Step(st, evs[0], parseRecord).value;
      var tail := evs[1..];
      StepFacts(st, evs[0], parseRecord);
      FoldEde(next, tail, parseRecord);
      var final := Fold(st, evs, parseRecord).value;
      assert final == Fold(next, tail, parseRecord).value;
      forall e
        ensures e in final.ede <==> e in st.ede || exists k :: 0 <= k < |evs| && YieldsEde(evs[k], e)
      {
        if exists k :: 0 <= k < |evs| && YieldsEde(evs[k], e) {
          var k :| 0 <= k < |evs| && YieldsEde(evs[k], e);
          if k > 0 {
            assert YieldsEde(tail[k - 1], e);
          }
        }
        if exists k :: 0 <= k < |tail| && YieldsEde(tail[k], e) {
          var k :| 0 <= k < |tail| && YieldsEde(tail[k], e);
          assert YieldsEde(evs[k + 1], e);
        }
      }
    }
  }

  // ------------------------------------------------- the lines examined

  /** The examined lines start at `i`, each is followed by the line its event resumes at, and the last one ends the input. */
  lemma TopsStructure(lines: seq<string>, i: nat)
    requires i <= |lines|
    ensures var t := Tops(lines, i);
      && (i < |lines| ==> |t| > 0 && t[0] == i)
      && (forall k :: 0 <= k < |t| - 1 ==> t[k + 1] == Classify(lines, t[k]).1)
      && (|t| > 0 ==> Classify(lines, t[|t| - 1]).1 == |lines|)
      && (forall a, b :: 0 <= a < b < |t| ==> t[a] < t[b])
  {
    TopsChain(lines, i);
    TopsLast(lines, i);
    TopsIncreasing(lines, i);
  }

  lemma {:induction false} TopsChain(lines: seq<string>, i: nat)
    requires i <= |lines|
    ensures var t := Tops(lines, i);
      && (i < |lines| ==> |t| > 0 && t[0] == i)
      && (forall k :: 0 <= k < |t| - 1 ==> t[k + 1] == Classify(lines, t[k]).1)
    decreases |lines| - i
  {
    if i < |lines| {
      var next := Classify(lines, i).1;
      TopsChain(lines, next);
      var t := Tops(lines, i);
      var rest := Tops(lines, next);
      assert t == [i] + rest;
      forall k | 0 <= k < |t| - 1
        ensures t[k + 1] == Classify(lines, t[k]).1
      {
        if k > 0 {
          assert t[k] == rest[k - 1] && t[k + 1] == rest[k];
        }
      }
    }
  }

  lemma {:induction false} TopsLast(lines: seq<string>, i: nat)
    requires i <= |lines|
    ensures var t := Tops(lines, i); |t| > 0 ==> Classify(lines, t[|t| - 1]).1 == |lines|
    decreases |lines| - i
  {
    if i < |lines| {
      var next := Classify(lines, i).1;
      TopsLast(lines, next);
      var t := Tops(lines, i);
      var rest := Tops(lines, next);
      assert t == [i] + rest;
      if rest != [] {
        assert t[|t| - 1] == rest[|rest| - 1];
      }
    }
  }

  lemma {:induction false} TopsIncreasing(lines: seq<string>, i: nat)
    requires i <= |lines|
    ensures forall a, b :: 0 <= a < b < |Tops(lines, i)| ==> Tops(lines, i)[a] < Tops(lines, i)[b]
    decreases |lines| - i
  {
    if i < |lines| {
      var next := Classify(lines, i).1;
      TopsIncreasing(lines, next);
      var t := Tops(lines, i);
      var rest := Tops(lines, next);
      assert t == [i] + rest;
      forall a, b | 0 <= a < b < |t|
        ensures t[a] < t[b]
      {
        assert t[b] == rest[b - 1] && next <= rest[b - 1];
        if a > 0 {
          assert t[a] == rest[a - 1] && 0 <= a - 1 < b - 1 < |rest|;
          assert rest[a - 1] < rest[b - 1];
        } else {
          assert t[a] == i && i < next;
        }
      }
    }
  }

  /**
   * Only a section header makes the loop skip lines, and the lines it skips
   * (the section's body and the empty line after it) are never examined.
   */
  lemma SkippedLines(lines: seq<string>, k: nat, j: nat)
    requires k < |Tops(lines, 0)|
    requires Tops(lines, 0)[k] < j < Classify(lines, Tops(lines, 0)[k]).1
    ensures Events(lines, 0)[k].SectionStart?
    ensures j !in Tops(lines, 0)
  {
    var t := Tops(lines, 0);
    TopsStructure(lines, 0);
    ClassifySkips(lines, t[k]);
    forall m | 0 <= m < |t|
      ensures t[m] != j
    {
      if m > k {
        assert t[k + 1] <= t[m];
      } else if m < k {
        assert t[m] < t[k];
      }
    }
  }

  /** Every event but a section start resumes at the very next line. */
  lemma ClassifySkips(lines: seq<string>, n: nat)
    requires n < |lines|
    ensures !Classify(lines, n).0.SectionStart? ==> Classify(lines, n).1 == n + 1
  {
  }

  // --------------------------------------------------- accepted outputs

  function SectionRecords<R>(o: DigOutput<R>, sec: Section): seq<R>
  {
    match sec
    case Answer => o.answer
    case Authority => o.authority
    case Additional => o.additional
  }

  /** An accepted output comes from a successful fold; each of its parts is that fold's. */
  lemma Accepted<R>(lines: seq<string>, parseRecord: string -> Option<R>)
    requires DigOutputOf(lines, parseRecord).Ok?
    ensures Fold(Init(), Events(lines, 0), parseRecord).Ok?
    ensures var st := Fold(Init(), Events(lines, 0), parseRecord).value;
      var o := DigOutputOf(lines, parseRecord).value;
      && st.flags == Some(o.flags) && st.status == Some(o.status) && st.ede == o.ede
      && (forall sec :: st.Get(sec).GetOr([]) == SectionRecords(o, sec))
  {
  }

  /** An accepted output had exactly one flags line, with its `;`, and its flags are what that line's text parses to. */
  lemma AcceptedFlags<R>(lines: seq<string>, parseRecord: string -> Option<R>)
    requires DigOutputOf(lines, parseRecord).Ok?
    ensures var evs := Events(lines, 0);
      && (exists k :: 0 <= k < |evs| && evs[k].FlagsLine?)
      && (forall k, j :: 0 <= k < |evs| && 0 <= j < |evs| && evs[k].FlagsLine? && evs[j].FlagsLine? ==> k == j)
      && (forall k :: 0 <= k < |evs| && evs[k].FlagsLine? ==>
            evs[k].flagsText.Some?
            && FlagsOf(SplitWhitespace(evs[k].flagsText.value)) == Ok(DigOutputOf(lines, parseRecord).value.flags))
  {
    var evs := Events(lines, 0);
    Accepted(lines, parseRecord);
    FoldFills(Init(), evs, parseRecord);
    FoldValues(Init(), evs, parseRecord);
    assert Filled(Fold(Init(), evs, parseRecord).value, FlagsSlot);
    var k :| 0 <= k < |evs| && SlotOf(evs[k]) == Some(FlagsSlot);
    assert evs[k].FlagsLine?;
    forall k, j | 0 <= k < |evs| && 0 <= j < |evs| && evs[k].FlagsLine? && evs[j].FlagsLine?
      ensures k == j
    {
      assert SlotOf(evs[k]) == SlotOf(evs[j]) == Some(FlagsSlot);
    }
    forall k | 0 <= k < |evs| && evs[k].FlagsLine?
      ensures evs[k].flagsText.Some?
      ensures FlagsOf(SplitWhitespace(evs[k].flagsText.value)) == Ok(DigOutputOf(lines, parseRecord).value.flags)
    {
      assert Holds(Fold(Init(), evs, parseRecord).value, evs[k], parseRecord);
    }
  }

  /** An accepted output had exactly one status line, with its `,`, and its status is what that line's text names. */
  lemma AcceptedStatus<R>(lines: seq<string>, parseRecord: string -> Option<R>)
    requires DigOutputOf(lines, parseRecord).Ok?
    ensures var evs := Events(lines, 0);
      && (exists k :: 0 <= k < |evs| && evs[k].StatusLine?)
      && (forall k, j :: 0 <= k < |evs| && 0 <= j < |evs| && evs[k].StatusLine? && evs[j].StatusLine? ==> k == j)
      && (forall k :: 0 <= k < |evs| && evs[k].StatusLine? ==>
            evs[k].statusText.Some?
            && ParseStatus(evs[k].statusText.value) == Ok(DigOutputOf(lines, parseRecord).value.status))
  {
    var evs := Events(lines, 0);
    Accepted(lines, parseRecord);
    FoldFills(Init(), evs, parseRecord);
    FoldValues(Init(), evs, parseRecord);
    assert Filled(Fold(Init(), evs, parseRecord).value, StatusSlot);
    var k :| 0 <= k < |evs| && SlotOf(evs[k]) == Some(StatusSlot);
    assert evs[k].StatusLine?;
    forall k, j | 0 <= k < |evs| && 0 <= j < |evs| && evs[k].StatusLine? && evs[j].StatusLine?
      ensures k == j
    {
      assert SlotOf(evs[k]) == SlotOf(evs[j]) == Some(StatusSlot);
    }
    forall k | 0 <= k < |evs| && evs[k].StatusLine?
      ensures evs[k].statusText.Some?
      ensures ParseStatus(evs[k].statusText.value) == Ok(DigOutputOf(lines, parseRecord).value.status)
    {
      assert Holds(Fold(Init(), evs, parseRecord).value, evs[k], parseRecord);
    }
  }

  /**
   * A section of an accepted output is empty when its header never appears, and
   * otherwise the header appears once and the section holds its body's records.
   */
  lemma AcceptedSection<R>(lines: seq<string>, parseRecord: string -> Option<R>, sec: Section)
    requires DigOutputOf(lines, parseRecord).Ok?
    ensures var evs := Events(lines, 0);
      var records := SectionRecords(DigOutputOf(lines, parseRecord).value, sec);
      && ((forall k :: 0 <= k < |evs| ==> evs[k] !in SectionEvents(evs[k], sec)) ==> records == [])
      && (forall k, j :: (0 <= k < |evs| && 0 <= j < |evs| && evs[k] in SectionEvents(evs[k], sec)
            && evs[j] in SectionEvents(evs[j], sec)) ==> k == j)
      && (forall k :: 0 <= k < |evs| && evs[k] in SectionEvents(evs[k], sec) ==>
            ParseRecords(evs[k].body, parseRecord) == Ok(records))
  {
    SectionAbsent(lines, parseRecord, sec);
    SectionOnce(lines, parseRecord, sec);
    SectionBody(lines, parseRecord, sec);
  }

  lemma SectionAbsent<R>(lines: seq<string>, parseRecord: string -> Option<R>, sec: Section)
    requires DigOutputOf(lines, parseRecord).Ok?
    ensures var evs := Events(lines, 0);
      (forall k :: 0 <= k < |evs| ==> evs[k] !in SectionEvents(evs[k], sec)) ==>
        SectionRecords(DigOutputOf(lines, parseRecord).value, sec) == []
  {
    var evs := Events(lines, 0);
    Accepted(lines, parseRecord);
    FoldFills(Init(), evs, parseRecord);
    if forall k :: 0 <= k < |evs| ==> evs[k] !in SectionEvents(evs[k], sec) {
      assert !Filled(Fold(Init(), evs, parseRecord).value, SectionSlot(sec));
    }
  }

  lemma SectionOnce<R>(lines: seq<string>, parseRecord: string -> Option<R>, sec: Section)
    requires DigOutputOf(lines, parseRecord).Ok?
    ensures var evs := Events(lines, 0);
      forall k, j :: (0 <= k < |evs| && 0 <= j < |evs| && evs[k] in SectionEvents(evs[k], sec)
        && evs[j] in SectionEvents(evs[j], sec)) ==> k == j
  {
    var evs := Events(lines, 0);
    Accepted(lines, parseRecord);
    FoldFills(Init(), evs, parseRecord);
    forall k, j | 0 <= k < |evs| && 0 <= j < |evs| && evs[k] in SectionEvents(evs[k], sec)
      && evs[j] in SectionEvents(evs[j], sec)
      ensures k == j
    {
      assert SlotOf(evs[k]) == SlotOf(evs[j]) == Some(SectionSlot(sec));
    }
  }

  lemma SectionBody<R>(lines: seq<string>, parseRecord: string -> Option<R>, sec: Section)
    requires DigOutputOf(lines, parseRecord).Ok?
    ensures var evs := Events(lines, 0);
      forall k :: 0 <= k < |evs| && evs[k] in SectionEvents(evs[k], sec) ==>
        ParseRecords(evs[k].body, parseRecord) == Ok(SectionRecords(DigOutputOf(lines, parseRecord).value, sec))
  {
    var evs := Events(lines, 0);
    Accepted(lines, parseRecord);
    FoldValues(Init(), evs, parseRecord);
    forall k | 0 <= k < |evs| && evs[k] in SectionEvents(evs[k], sec)
      ensures ParseRecords(evs[k].body, parseRecord) == Ok(SectionRecords(DigOutputOf(lines, parseRecord).value, sec))
    {
      assert Holds(Fold(Init(), evs, parseRecord).value, evs[k], parseRecord);
    }
  }

  /** `{ev}` when `ev` opens section `sec`, else empty: a set so that quantifiers over events have a trigger. */
  function SectionEvents(ev: Event, sec: Section): set<Event>
  {
    if ev.SectionStart? && ev.section == sec then {ev} else {}
  }

  /** The EDE set of an accepted output is ordered by code and holds exactly the codes of its EDE lines. */
  lemma AcceptedEde<R>(lines: seq<string>, parseRecord: string -> Option<R>)
    requires DigOutputOf(lines, parseRecord).Ok?
    ensures var evs := Events(lines, 0);
      var ede := DigOutputOf(lines, parseRecord).value.ede;
      && Ascending(ede)
      && (forall e :: e in ede <==> exists k :: 0 <= k < |evs| && YieldsEde(evs[k], e))
  {
    Accepted(lines, parseRecord);
    FoldEde(Init(), Events(lines, 0), parseRecord);
  }

  /** An accepted output has a line with the flags prefix and a line with the status prefix. */
  lemma AcceptedHasHeaderLines<R>(lines: seq<string>, parseRecord: string -> Option<R>)
    requires DigOutputOf(lines, parseRecord).Ok?
    ensures exists n :: 0 <= n < |lines| && HasPrefix(lines[n], FLAGS_PREFIX)
    ensures exists n :: 0 <= n < |lines| && HasPrefix(lines[n], STATUS_PREFIX)
  {
    var evs := Events(lines, 0);
    var t := Tops(lines, 0);
    AcceptedFlags(lines, parseRecord);
    AcceptedStatus(lines, parseRecord);
    var kf :| 0 <= kf < |evs| && evs[kf].FlagsLine?;
    var ks :| 0 <= ks < |evs| && evs[ks].StatusLine?;
    ClassifiedPrefix(lines, t[kf]);
    ClassifiedPrefix(lines, t[ks]);
  }

  /** A flags or status event comes from a line with that prefix. */
  lemma ClassifiedPrefix(lines: seq<string>, n: nat)
    requires n < |lines|
    ensures Classify(lines, n).0.FlagsLine? ==> HasPrefix(lines[n], FLAGS_PREFIX)
    ensures Classify(lines, n).0.StatusLine? ==> HasPrefix(lines[n], STATUS_PREFIX)
  {
  }

  // ------------------------------------------------------------- errors

  /** The first event whose step fails decides the error; nothing after it is looked at. */
  lemma FirstFailure<R>(lines: seq<string>, parseRecord: string -> Option<R>, n: nat)
    requires n < |Events(lines, 0)|
    requires Fold(Init(), Events(lines, 0)[..n], parseRecord).Ok?
    requires Step(Fold(Init(), Events(lines, 0)[..n], parseRecord).value, Events(lines, 0)[n], parseRecord).Err?
    ensures DigOutputOf(lines, parseRecord)
      == Err(Step(Fold(Init(), Events(lines, 0)[..n], parseRecord).value, Events(lines, 0)[n], parseRecord).error)
  {
    FoldFailsAt(Init(), Events(lines, 0), n, parseRecord);
  }

  /** A fold whose step on event `n` fails fails with that step's error. */
  lemma FoldFailsAt<R>(st: Partial<R>, evs: seq<Event>, n: nat, parseRecord: string -> Option<R>)
    requires n < |evs| && Ascending(st.ede)
    requires Fold(st, evs[..n], parseRecord).Ok?
    requires Step(Fold(st, evs[..n], parseRecord).value, evs[n], parseRecord).Err?
    ensures Fold(st, evs, parseRecord) == Err(Step(Fold(st, evs[..n], parseRecord).value, evs[n], parseRecord).error)
  {
    SplitAtIndex(evs, n);
    FoldAppend(st, evs[..n], evs[n..], parseRecord);
    FoldFailsFirst(Fold(st, evs[..n], parseRecord).value, evs[n..], parseRecord);
  }

  /** A fold whose first step fails fails with that step's error. */
  lemma FoldFailsFirst<R>(st: Partial<R>, evs: seq<Event>, parseRecord: string -> Option<R>)
    requires Ascending(st.ede) && evs != [] && Step(st, evs[0], parseRecord).Err?
    ensures Fold(st, evs, parseRecord) == Err(Step(st, evs[0], parseRecord).error)
  {
  }

  /** A flags line without `;` or a status line without `,` is refused for that, even when it also repeats an earlier one. */
  lemma MissingDelimiter<R>(lines: seq<string>, parseRecord: string -> Option<R>, n: nat)
    requires n < |Events(lines, 0)|
    requires Events(lines, 0)[n] == FlagsLine(None) || Events(lines, 0)[n] == StatusLine(None)
    requires Fold(Init(), Events(lines, 0)[..n], parseRecord).Ok?
    ensures Events(lines, 0)[n] == FlagsLine(None) ==>
      DigOutputOf(lines, parseRecord) == Err(Missing(FLAGS_PREFIX, "semicolon (;)"))
    ensures Events(lines, 0)[n] == StatusLine(None) ==>
      DigOutputOf(lines, parseRecord) == Err(Missing(STATUS_PREFIX, "comma (,)"))
  {
    FirstFailure(lines, parseRecord, n);
  }

  /** A second flags line, status line or section header is refused as found more than once. */
  lemma RepeatedLine<R>(lines: seq<string>, parseRecord: string -> Option<R>, j: nat, n: nat)
    requires j < n < |Events(lines, 0)|
    requires SlotOf(Events(lines, 0)[j]).Some? && SlotOf(Events(lines, 0)[j]) == SlotOf(Events(lines, 0)[n])
    requires Events(lines, 0)[n] != FlagsLine(None) && Events(lines, 0)[n] != StatusLine(None)
    requires Fold(Init(), Events(lines, 0)[..n], parseRecord).Ok?
    ensures DigOutputOf(lines, parseRecord) == Err(MoreThanOnce(SlotPrefix(SlotOf(Events(lines, 0)[n]).value)))
  {
    var evs := Events(lines, 0);
    var prefix := evs[..n];
    FoldFills(Init(), prefix, parseRecord);
    assert SlotOf(prefix[j]) == SlotOf(evs[n]);
    assert Filled(Fold(Init(), prefix, parseRecord).value, SlotOf(evs[n]).value);
    FirstFailure(lines, parseRecord, n);
  }

  /** An EDE code that appears twice trips the parser's assertion: a panic, not an error value. */
  lemma RepeatedEde<R>(lines: seq<string>, parseRecord: string -> Option<R>, j: nat, n: nat, e: ExtendedDnsError)
    requires j < n < |Events(lines, 0)|
    requires YieldsEde(Events(lines, 0)[j], e) && YieldsEde(Events(lines, 0)[n], e)
    requires Fold(Init(), Events(lines, 0)[..n], parseRecord).Ok?
    ensures DigOutputOf(lines, parseRecord) == Err(DuplicateEde(e))
    ensures DigOutputOf(lines, parseRecord).error.IsPanic()
  {
    var evs := Events(lines, 0);
    var prefix := evs[..n];
    FoldEde(Init(), prefix, parseRecord);
    assert YieldsEde(prefix[j], e);
    assert e in Fold(Init(), prefix, parseRecord).value.ede;
    FirstFailure(lines, parseRecord, n);
  }

  /** When every line is read without error, a missing flags line is reported, and only then a missing status line. */
  lemma MissingLines<R>(lines: seq<string>, parseRecord: string -> Option<R>)
    requires Fold(Init(), Events(lines, 0), parseRecord).Ok?
    ensures var evs := Events(lines, 0);
      && ((forall k :: 0 <= k < |evs| ==> !evs[k].FlagsLine?) ==>
            DigOutputOf(lines, parseRecord) == Err(NotFound(FLAGS_PREFIX)))
      && ((exists k :: 0 <= k < |evs| && evs[k].FlagsLine?) && (forall k :: 0 <= k < |evs| ==> !evs[k].StatusLine?) ==>
            DigOutputOf(lines, parseRecord) == Err(NotFound(STATUS_PREFIX)))
  {
    var evs := Events(lines, 0);
    var st := Fold(Init(), evs, parseRecord).value;
    FoldFills(Init(), evs, parseRecord);
    if forall k :: 0 <= k < |evs| ==> !evs[k].FlagsLine? {
      assert !Filled(st, FlagsSlot);
    }
    if exists k :: 0 <= k < |evs| && evs[k].FlagsLine? {
      var k :| 0 <= k < |evs| && evs[k].FlagsLine?;
      assert SlotOf(evs[k]) == Some(FlagsSlot);
      assert Filled(st, FlagsSlot);
      if forall k :: 0 <= k < |evs| ==> !evs[k].StatusLine? {
        assert !Filled(st, StatusSlot);
      }
    }
  }
}
