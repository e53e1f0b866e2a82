# Hickory DNS: the dig output parser and the server startup, modelled in Dafny

This project models two pieces of the Hickory DNS repository.

**The `dig` client of the conformance tests** (`conformance/packages/dns-test/src/client.rs`):
- `DigSettings`, the query options a test sets, and the `dig` argument vector rendered from them;
- `DigOutput::from_str`, the line scan that reads `dig`'s textual answer into its flags, status, Extended DNS Error (EDE) codes and answer, authority and additional sections;
- the parsers of the flags line (`DigFlags`), the status (`DigStatus`) and the EDE codes (`ExtendedDnsError`).

The parser is an imperative method (`DigOutput.ParseDigOutput`). It is proved equal to a specification built from functions:
- `Events` cuts the input lines into what the outer loop examines;
- `Step` is one iteration of that loop;
- `DigOutputOf` folds the steps and then checks that the flags and status lines were found.

Lemmas about the specification state what the parser promises. Examples: an accepted output had exactly one flags line, and its flags are what that line says; a repeated line is refused; the EDE set is ascending and holds exactly the codes of the EDE lines; a `todo!`/`assert!` panic is told apart from an ordinary error.

**The `hickory-dns` binary's startup** (`bin/src/hickory-dns.rs`):
- the log-level choice;
- the `async_run` sequence: read the configuration, load and upsert every zone, build the listen plan, stop early with `--validate`, set up the UDP, TCP, TLS, HTTPS and QUIC listeners, then drop privileges;
- the socket builders;
- `check_drop_privs`, with its default user and group `nobody`.

System calls and foreign calls are effects appended to a trace held by a `Host` object. The effects are zone loads, certificate loads, socket calls, local-address lookups (issued only when the `info!` event that reports them is logged), listener registrations, `getpwnam`/`getgrnam`, and `setgid`/`setuid`. An oracle, which sees each effect and its position in the trace, decides whether the effect succeeds. Every imperative method is proved to append exactly the effects of a specification function, and to return exactly that function's result.

The lemmas about those functions state the promises of startup:
- the checks run in order;
- `--validate` binds nothing;
- a server that starts has loaded every zone, the last zone of a name winning;
- it has registered one listener per planned address for each enabled transport, and nothing for a disabled one;
- a listener failure stops startup with exactly the listeners before it registered;
- privileges are dropped only after every listener is set up;
- a root process ends up running as the target user and group.

Two behaviours of the code are easy to misread, and the model follows the code in both:
- The TLS certificate is loaded once per listen address, in each of the TLS, HTTPS and QUIC loops, not once per process.
- `setuid` is issued even when `setgid` has failed. Both calls are made before either result is checked, and the `setgid` failure is the one reported.

## Model

| member | source | states |
|---|---|---|
| Numbers.ParseU16 | conformance/packages/dns-test/src/client.rs:307 | `u16::from_str` accepts exactly an optional `+` followed by one or more ASCII digits whose value is at most 65535, and returns that value; the empty string is the `Empty` error |
| Numbers.IsDigit | conformance/packages/dns-test/src/client.rs:307 | the ASCII digits `0`-`9`, the only characters a decimal `u16` parse accepts; `ParseU16` states the parse |
| Numbers.Digits | conformance/packages/dns-test/src/client.rs:307 | the digits of a numeral: what follows one optional leading `+` |
| Numbers.Value | conformance/packages/dns-test/src/client.rs:307 | the value of a run of digits read left to right; `Accumulate` and `ParseU16` state that the parse returns it |
| Numbers.Accumulate | conformance/packages/dns-test/src/client.rs:307 | the digit loop reports overflow as soon as a prefix passes 65535 and otherwise returns the value of the digits |
| Numbers.OverflowStays | conformance/packages/dns-test/src/client.rs:307 | once a prefix of the digits exceeds 65535 the whole numeral does, so an early overflow error is the right answer |
| Numbers.Decimal | conformance/packages/dns-test/src/client.rs:156 | `format!("{n}")` writes a canonical numeral: decimal digits only, no leading zero, `0` for zero |
| Numbers.LeadingDigitPositive | conformance/packages/dns-test/src/client.rs:156 | digits that start with a non-zero digit have a positive value |
| Numbers.DecimalUnique | conformance/packages/dns-test/src/client.rs:156 | every canonical numeral is what `format!` writes for its value, so the rendering is the only canonical spelling of a number |
| Numbers.ValueOfDecimal | conformance/packages/dns-test/src/client.rs:156 | the digits `format!` writes have the value that was formatted |
| Numbers.ParseDecimal | conformance/packages/dns-test/src/client.rs:307 | `u16::from_str` reads back every decimal rendering of a `u16` as that number |
| Text.HasPrefix | conformance/packages/dns-test/src/client.rs:234 | `starts_with`: the text begins with the prefix; `DigOutputFacts.ClassifiedPrefix` states what the line scan reads from it |
| Text.StripCr | conformance/packages/dns-test/src/client.rs:203 | the one `\r` that `lines` drops before a `\n`; `Lines` and `LinesOfTerminated` state the lines it yields |
| Text.Lines | conformance/packages/dns-test/src/client.rs:203 | `str::lines` yields lines that contain no `\n`, with one `\r` removed only before a `\n` |
| Text.LinesOfTerminated | conformance/packages/dns-test/src/client.rs:203 | splitting lines that each end in `\n` gives those lines back |
| Text.SplitAt | conformance/packages/dns-test/src/client.rs:206-208 | `split_once` at a delimiter that does not occur before it splits there |
| Text.LinesOfJoined | conformance/packages/dns-test/src/client.rs:203 | splitting lines joined by `\n` with no final line ending, the last line non-empty, gives those lines back |
| Text.IndexOf | conformance/packages/dns-test/src/client.rs:206-208 | finds the first occurrence of a character, and reports none exactly when the character is absent |
| Text.SplitOnce | conformance/packages/dns-test/src/client.rs:206-208 | `split_once` returns the text before and after the first delimiter, the delimiter not occurring before it; `None` exactly when the delimiter is absent |
| Text.IsWhitespace | conformance/packages/dns-test/src/client.rs:344 | `char::is_whitespace`, the Unicode White_Space characters at which `split_whitespace` cuts; `SplitWhitespace` states the words it yields |
| Text.WordEnd | conformance/packages/dns-test/src/client.rs:344 | a word runs to the first whitespace character or the end of the text |
| Text.SplitWhitespace | conformance/packages/dns-test/src/client.rs:344 | `split_whitespace` yields non-empty tokens containing no Unicode whitespace |
| Text.SplitJoinWords | conformance/packages/dns-test/src/client.rs:344 | splitting words joined by spaces gives the words back |
| DigFields.FirstUnknown | conformance/packages/dns-test/src/client.rs:344-353 | the index of the first token that is not one of qr, rd, ra, aa, ad, cd: every earlier token is known, and that one is not |
| DigFields.FlagsOf | conformance/packages/dns-test/src/client.rs:344-363 | what the flags text means: an error exactly when some token is not a known flag, naming the first such token; otherwise each of the six fields is set exactly when its token occurs |
| DigFields.FirstUnknownAt | conformance/packages/dns-test/src/client.rs:344-353 | an unknown token after only known ones is the first unknown token |
| DigFields.ParseFlags | conformance/packages/dns-test/src/client.rs:336-364 | `DigFlags::from_str` refuses the first unknown token and otherwise sets each of the six flags exactly when its token occurs |
| DigFields.EmptyFlags | conformance/packages/dns-test/src/client.rs:356-363 | flags text without tokens parses to all six flags false |
| DigFields.FlagsDependOnTokenSet | conformance/packages/dns-test/src/client.rs:344-353 | the order and repetition of tokens do not matter: token lists with the same token set are accepted together and give the same flags |
| DigFields.SingleFlag | conformance/packages/dns-test/src/client.rs:345-351 | each known token sets exactly its own field |
| DigFields.FlagsTextWords | conformance/packages/dns-test/src/client.rs:324-331 | the flags rendered as dig prints them are known tokens, and a token is printed exactly when its flag is set |
| DigFields.FlagsRoundTrip | conformance/packages/dns-test/src/client.rs:336-364 | parsing the flags dig prints for a `DigFlags` value gives that value back |
| DigFields.KnownFlagsAreWords | conformance/packages/dns-test/src/client.rs:345-351 | every known flag is a non-empty token without whitespace |
| DigFields.ParseStatus | conformance/packages/dns-test/src/client.rs:396-406 | `DigStatus::from_str` accepts exactly the four status names, each as its own variant, and refuses any other text with that text |
| DigFields.StatusName | conformance/packages/dns-test/src/client.rs:369-374 | the name of each status variant; `ParseStatusName` reads each name back to its variant |
| DigFields.ParseStatusName | conformance/packages/dns-test/src/client.rs:396-406 | every status's name parses back to that status |
| DigFields.DigStatus.IsNoError | conformance/packages/dns-test/src/client.rs:378-380 | `is_noerror`; `StatusPredicates` states that it holds of NOERROR only |
| DigFields.DigStatus.IsNxDomain | conformance/packages/dns-test/src/client.rs:383-385 | `is_nxdomain`; `StatusPredicates` states that it holds of NXDOMAIN only |
| DigFields.DigStatus.IsServFail | conformance/packages/dns-test/src/client.rs:388-390 | `is_servfail`; `StatusPredicates` states that it holds of SERVFAIL only |
| DigFields.StatusPredicates | conformance/packages/dns-test/src/client.rs:378-390 | `is_noerror`, `is_nxdomain` and `is_servfail` each hold of exactly the status parsed from their name |
| DigFields.ParseEde | conformance/packages/dns-test/src/client.rs:306-320 | `ExtendedDnsError::from_str` succeeds exactly on a `u16` that is one of the six known codes and returns the variant with that code; a refused numeral is an integer error; any other code is the `todo!` panic |
| DigFields.Code | conformance/packages/dns-test/src/client.rs:294-301 | the discriminant of each variant, the INFO-CODE of RFC 8914; `CodeInjective` and `ParseEdeCode` state its properties |
| DigFields.ParseEdeCode | conformance/packages/dns-test/src/client.rs:293-300 | each of the six variants' codes, written in decimal, parses to that variant |
| DigFields.NonNumericEdeIsError | conformance/packages/dns-test/src/client.rs:307 | text that is not a numeral is an ordinary error, never a panic |
| DigFields.UnknownEdeCodePanics | conformance/packages/dns-test/src/client.rs:316 | a valid `u16` outside the six known codes reaches the `todo!` panic |
| DigOutput.Insert | conformance/packages/dns-test/src/client.rs:232 | `BTreeSet::insert` keeps the set ascending by code, adds exactly the new element, reports whether it was absent, and changes nothing when it was present |
| DigOutput.AscendingTail | conformance/packages/dns-test/src/client.rs:164 | the tail of an ordered EDE set is ordered, and the set is its head and its tail |
| DigOutput.InsertedAbove | conformance/packages/dns-test/src/client.rs:232 | inserting a code above the head of an ordered set keeps the head first and the set ordered |
| DigOutput.AscendingCons | conformance/packages/dns-test/src/client.rs:164 | a code below every code of an ordered set may be put in front of it |
| DigOutput.CodeInjective | conformance/packages/dns-test/src/client.rs:292-300 | distinct EDE variants have distinct codes, so the derived order is a total order |
| DigOutput.SectionEnd | conformance/packages/dns-test/src/client.rs:240-246 | a section body runs to the first empty line or the end of the input: no line before that is empty |
| DigOutput.SectionAt | conformance/packages/dns-test/src/client.rs:234-248 | a section header takes its body, and the outer loop resumes after it, beyond the header |
| DigOutput.Classify | conformance/packages/dns-test/src/client.rs:204-279 | the event of the line the loop reads, testing the prefixes in the source's order, and the next line read, always beyond it |
| DigOutput.Events | conformance/packages/dns-test/src/client.rs:203-204 | the events of the lines the `while let` loop reads from a line on, one per line read; `Tops` pairs each with its line and `TopsStructure` states which lines those are |
| DigOutput.Tops | conformance/packages/dns-test/src/client.rs:204 | the lines the outer loop examines, one per event, each giving that event |
| DigOutput.Partial.Put | conformance/packages/dns-test/src/client.rs:248 | storing a section's records sets that section and changes no other part of the partial output |
| DigOutput.ParseRecords | conformance/packages/dns-test/src/client.rs:239-247 | a section body is accepted exactly when every line parses as a record, the records in line order; otherwise the error names a refused line |
| DigOutput.Step | conformance/packages/dns-test/src/client.rs:205-279 | one iteration of the outer loop keeps the EDE set ordered |
| DigOutput.Fold | conformance/packages/dns-test/src/client.rs:204-280 | the outer loop keeps the EDE set ordered |
| DigOutput.Finish | conformance/packages/dns-test/src/client.rs:282-289 | after the loop: an error of the loop is kept; a missing flags line is reported before a missing status line; otherwise the output holds the flags, status and EDE set, and each absent section is empty |
| DigOutput.DigOutputOf | conformance/packages/dns-test/src/client.rs:176-290 | the meaning of `DigOutput::from_str` on the lines of the input: `ParseDigOutput` computes it, and the `DigOutputFacts.Accepted*` lemmas state what an accepted output holds |
| DigOutput.CollectSection | conformance/packages/dns-test/src/client.rs:239-248 | the inner loop parses the records up to the first empty line, which it consumes too, and stops at the first refused line |
| DigOutput.RecordsNext | conformance/packages/dns-test/src/client.rs:239-247 | one more body line adds its record, or is the error when refused |
| DigOutput.RecordsFailAt | conformance/packages/dns-test/src/client.rs:245 | the first refused body line is the section's error |
| DigOutput.RecordsErrorSticks | conformance/packages/dns-test/src/client.rs:245 | a refused record stays the error however many lines follow |
| DigOutput.FoldAt | conformance/packages/dns-test/src/client.rs:204-280 | the loop from line `i` is one step on line `i`'s event, then the loop from the line it resumes at |
| DigOutput.ScanLine | conformance/packages/dns-test/src/client.rs:205-279 | one iteration of the outer loop computes exactly the specified step and resumes at the specified line |
| DigOutput.ScanSection | conformance/packages/dns-test/src/client.rs:234-248 | a section header is refused when the section was seen before, and otherwise stores the section's records |
| DigOutput.ParseDigOutput | conformance/packages/dns-test/src/client.rs:176-290 | `DigOutput::from_str` returns exactly what the specification `DigOutputOf` gives for the input's lines, error or output alike |
| DigOutputFacts.StepFacts | conformance/packages/dns-test/src/client.rs:205-279 | a successful step fills at most one previously empty part (flags, status or a section) with what its text parses to, leaves every other part alone, and adds only its own EDE code |
| DigOutputFacts.FoldAppend | conformance/packages/dns-test/src/client.rs:204-280 | the loop over two runs of events is the loop over the first, then over the second |
| DigOutputFacts.Significant | conformance/packages/dns-test/src/client.rs:204-280 | the events of a list that are not unread lines, in order; none is unread and there are no more of them than events |
| DigOutputFacts.FoldSignificant | conformance/packages/dns-test/src/client.rs:204-280 | lines the loop does not read do not change its outcome: the loop over all events equals the loop over the significant ones |
| DigOutputFacts.FoldFills | conformance/packages/dns-test/src/client.rs:210-212 | a successful loop fills each part at most once, exactly the parts some event names, and only parts that were empty |
| DigOutputFacts.FoldValues | conformance/packages/dns-test/src/client.rs:204-280 | after a successful loop each event's part holds what that event parsed to, and parts no event names are unchanged |
| DigOutputFacts.FoldEde | conformance/packages/dns-test/src/client.rs:225-233 | after a successful loop the EDE set holds exactly the codes of the EDE lines, added to what it held |
| DigOutputFacts.TopsStructure | conformance/packages/dns-test/src/client.rs:204-280 | the examined lines start at the first line, each is followed by the line its event resumes at, they increase, and the last one ends the input |
| DigOutputFacts.SkippedLines | conformance/packages/dns-test/src/client.rs:240 | a line the outer loop skips belongs to a section body consumed by the inner loop |
| DigOutputFacts.ClassifySkips | conformance/packages/dns-test/src/client.rs:204-279 | every event but a section header resumes at the very next line |
| DigOutputFacts.Accepted | conformance/packages/dns-test/src/client.rs:282-289 | an accepted output comes from a successful loop, and each of its parts is that loop's, absent sections being empty |
| DigOutputFacts.AcceptedFlags | conformance/packages/dns-test/src/client.rs:205-214 | an accepted output had exactly one flags line; that line had its `;`, and the output's flags are what its text parses to |
| DigOutputFacts.AcceptedStatus | conformance/packages/dns-test/src/client.rs:215-224 | an accepted output had exactly one status line; that line had its `,`, and the output's status is what its text names |
| DigOutputFacts.AcceptedSection | conformance/packages/dns-test/src/client.rs:234-248 | in an accepted output, a section without a header is empty, a section header occurs at most once, and the section holds the records of its body |
| DigOutputFacts.SectionAbsent | conformance/packages/dns-test/src/client.rs:283-285 | a section whose header never occurs is empty in an accepted output |
| DigOutputFacts.SectionOnce | conformance/packages/dns-test/src/client.rs:235-237 | an accepted output had each section header at most once |
| DigOutputFacts.SectionBody | conformance/packages/dns-test/src/client.rs:239-248 | an accepted output's section holds exactly the records of its header's body |
| DigOutputFacts.AcceptedEde | conformance/packages/dns-test/src/client.rs:225-233 | an accepted output's EDE set is ordered by code and holds exactly the codes of its EDE lines |
| DigOutputFacts.AcceptedHasHeaderLines | conformance/packages/dns-test/src/client.rs:287-288 | an accepted output has a line starting with the flags prefix and a line starting with the status prefix |
| DigOutputFacts.ClassifiedPrefix | conformance/packages/dns-test/src/client.rs:205-215 | a flags or status event comes from a line with that prefix |
| DigOutputFacts.FirstFailure | conformance/packages/dns-test/src/client.rs:204-280 | the first event whose step fails decides the parser's error; nothing after it is looked at |
| DigOutputFacts.FoldFailsAt | conformance/packages/dns-test/src/client.rs:204-280 | a loop whose step on event `n` fails ends with that step's error |
| DigOutputFacts.MissingDelimiter | conformance/packages/dns-test/src/client.rs:206-218 | a flags line without `;` or a status line without `,` is refused as missing that delimiter, even when it also repeats an earlier line |
| DigOutputFacts.RepeatedLine | conformance/packages/dns-test/src/client.rs:210-212 | a second flags line, status line or section header is refused as found more than once |
| DigOutputFacts.RepeatedEde | conformance/packages/dns-test/src/client.rs:232-233 | an EDE code that occurs twice trips the duplicate assertion, a panic |
| DigOutputFacts.MissingLines | conformance/packages/dns-test/src/client.rs:287-288 | when every line is read without error, a missing flags line is reported first, and only then a missing status line |
| DigOutputExamples.OtherLine | conformance/packages/dns-test/src/client.rs:204-279 | a line of `;; ` and then a character none of the prefixes continues with (`global options`, `Got answer`, `QUESTION SECTION` and the statistics lines of the test) passes unread |
| DigOutputExamples.EdeLookalikeLine | conformance/packages/dns-test/src/client.rs:204-279 | a line that follows the EDE prefix for its first two or more characters and then leaves it (`; <<>> DiG`, `; (1 server found)`, `; EDNS:`) passes unread |
| DigOutputExamples.CommentLine | conformance/packages/dns-test/src/client.rs:204-279 | a line of `;` and then neither `;` nor a space (the question line `;allow-query-none...`) passes unread |
| DigOutputExamples.EmptyLine | conformance/packages/dns-test/src/client.rs:204-279 | an empty line passes unread |
| DigOutputExamples.EdeLineOf | conformance/packages/dns-test/src/client.rs:225-229 | `; EDE: <code> <text>` yields the code before the first space |
| DigOutputExamples.StatusLineOf | conformance/packages/dns-test/src/client.rs:215-218 | the status line yields the text between the prefix and the first comma |
| DigOutputExamples.FlagsLineOf | conformance/packages/dns-test/src/client.rs:205-208 | the flags line yields the text between the prefix and the first semicolon |
| DigOutputExamples.ExampleFlags | conformance/packages/dns-test/src/client.rs:437-445 | `qr rd ra` parses to qr, recursion desired and recursion available, the other flags false |
| DigOutputExamples.ExampleCodes | conformance/packages/dns-test/src/client.rs:574-578 | codes 9, 18 and 22 are DNSKEY Missing, Prohibited and No Reachable Authority |
| DigOutputExamples.StatusFold | conformance/packages/dns-test/src/client.rs:556 | the status line of the multiple-EDE test records SERVFAIL |
| DigOutputExamples.FlagsFold | conformance/packages/dns-test/src/client.rs:557 | the flags line of the multiple-EDE test records qr rd ra |
| DigOutputExamples.EdeInserts | conformance/packages/dns-test/src/client.rs:561-563 | the three codes, inserted in output order, each enter the set and keep it ascending |
| DigOutputExamples.EdeStep | conformance/packages/dns-test/src/client.rs:231-232 | an EDE line whose code parses and is new enters the set |
| DigOutputExamples.HeaderFold | conformance/packages/dns-test/src/client.rs:556-557 | the status line and then the flags line, followed by any events, record SERVFAIL and qr rd ra and continue with the rest |
| DigOutputExamples.EdeSteps | conformance/packages/dns-test/src/client.rs:561-563 | each of the three EDE lines inserts its code |
| DigOutputExamples.EdesFold | conformance/packages/dns-test/src/client.rs:561-563 | the three EDE events, read in turn after the header, give the set DNSKEY Missing, Prohibited, No Reachable Authority and nothing else |
| DigOutputExamples.ExampleFold | conformance/packages/dns-test/src/client.rs:556-563 | the significant events of the multiple-EDE output (status, flags, EDE 9, 18, 22) read without error to those values |
| DigOutputExamples.SignificantExample | conformance/packages/dns-test/src/client.rs:556-563 | none of those five events is an unread line |
| DigOutputExamples.EdeLinesEvents | conformance/packages/dns-test/src/client.rs:561-563 | the three EDE lines of the test, whatever follows their codes, give the EDE events 9, 18, 22 |
| DigOutputExamples.MultipleEdeLines | conformance/packages/dns-test/src/client.rs:556-563 | the status, flags and EDE lines of the test, whatever follows the fields read, give exactly those five significant events, so the precondition of `MultipleEde` can be met |
| DigOutputExamples.MultipleEde | conformance/packages/dns-test/src/client.rs:551-581 | every output whose events besides unread lines are those of the `multiple_ede` test (status SERVFAIL, flags qr rd ra, then EDE 9, 18, 22) parses to SERVFAIL, flags qr rd ra, the three EDE codes in ascending order, and empty sections |
| DigSettings.Toggle | conformance/packages/dns-test/src/client.rs:98-104 | a boolean option is rendered as `+name` or `+noname` |
| DigSettings.ReadToggle | conformance/packages/dns-test/src/client.rs:98-104 | reading an option back recognises exactly the two spellings |
| DigSettings.ToggleRoundTrip | conformance/packages/dns-test/src/client.rs:98-146 | reading a rendered option gives back its setting |
| DigSettings.ReadTimeout | conformance/packages/dns-test/src/client.rs:154-158 | reading a timeout back needs the `+timeout=` prefix |
| DigSettings.TimeoutArg | conformance/packages/dns-test/src/client.rs:156 | `+timeout=` followed by the canonical numeral of the seconds, which reads back as those seconds |
| DigSettings.TimeoutArgExact | conformance/packages/dns-test/src/client.rs:156 | a `+timeout=` argument is the rendered one exactly when its digits are canonical and have that value, so `+timeout=05` and `+timeout=+5` are never produced |
| DigSettings.DigSettings.constructor | conformance/packages/dns-test/src/client.rs:82-89 | the default settings have every option off and no timeout |
| DigSettings.DigSettings.AuthenticData | conformance/packages/dns-test/src/client.rs:93-96 | sets the AD option and nothing else |
| DigSettings.DigSettings.CheckingDisabled | conformance/packages/dns-test/src/client.rs:107-110 | sets the CD option and nothing else |
| DigSettings.DigSettings.Dnssec | conformance/packages/dns-test/src/client.rs:121-124 | sets the DO option and nothing else |
| DigSettings.DigSettings.Recurse | conformance/packages/dns-test/src/client.rs:135-138 | sets the RD option and nothing else |
| DigSettings.DigSettings.Timeout | conformance/packages/dns-test/src/client.rs:149-152 | sets the timeout and nothing else |
| DigSettings.DigSettings.AdFlag | conformance/packages/dns-test/src/client.rs:98-104 | the AD argument reads back as the AD setting |
| DigSettings.DigSettings.CdFlag | conformance/packages/dns-test/src/client.rs:112-118 | the CD argument reads back as the CD setting |
| DigSettings.DigSettings.DoBit | conformance/packages/dns-test/src/client.rs:126-132 | the DO argument reads back as the DNSSEC setting |
| DigSettings.DigSettings.RdFlag | conformance/packages/dns-test/src/client.rs:140-146 | the RD argument reads back as the recursion setting |
| DigSettings.DigSettings.TimeoutFlag | conformance/packages/dns-test/src/client.rs:154-159 | the timeout argument is `+timeout=` and the decimal of the set timeout, or `+timeout=5` when none is set, and reads back as that timeout |
| DigSettings.DigSettings.DigArgs | conformance/packages/dns-test/src/client.rs:66-76 | `dig`'s nine arguments: the command, the rd, do, ad and cd options, each reading back as its setting, the timeout rendered exactly as `+timeout=` and its decimal (`+timeout=5` when unset), then `@server`, the record type and the name |
| DigSettings.DefaultArgs | conformance/packages/dns-test/src/client.rs:82-89 | default settings render `+norecurse +nodnssec +noadflag +nocdflag +timeout=5` |
| ServerConfig.LogLevel | bin/src/hickory-dns.rs:180-184 | ERROR exactly when quiet, DEBUG exactly when debug without quiet, INFO otherwise |
| ServerConfig.InfoLogged | bin/src/hickory-dns.rs:186-195 | the filter whose default directive is the chosen level lets `info!` events through, so their arguments are evaluated, exactly when `--quiet` is not given |
| ServerConfig.MapV4 | bin/src/hickory-dns.rs:272-274 | one address per configured IPv4 address |
| ServerConfig.MapV6 | bin/src/hickory-dns.rs:275 | one address per configured IPv6 address |
| ServerConfig.MapV4At | bin/src/hickory-dns.rs:272-274 | the IPv4 addresses keep their order |
| ServerConfig.MapV6At | bin/src/hickory-dns.rs:275 | the IPv6 addresses keep their order |
| ServerConfig.ListenAddrs | bin/src/hickory-dns.rs:272-283 | the listen plan is never empty |
| ServerConfig.ListenPlan | bin/src/hickory-dns.rs:272-283 | the listen plan is the IPv4 addresses and then the IPv6 addresses, in order with duplicates kept, or both unspecified addresses when neither list has one |
| ServerConfig.V4BeforeV6 | bin/src/hickory-dns.rs:272-276 | no IPv6 address of the plan comes before an IPv4 address |
| ServerConfig.EffectivePort | bin/src/hickory-dns.rs:278 | a port given on the command line overrides the configured port |
| ServerConfig.PortFor | bin/src/hickory-dns.rs:278 | each transport's port: UDP and TCP share `--port`/`listen_port`, TLS, HTTPS and QUIC use their own option and setting, as at lines 447, 490 and 545 |
| ServerConfig.Enabled | bin/src/hickory-dns.rs:298-389 | a transport is set up exactly when neither `--disable-*` nor the configuration disables it, and a TLS-family transport also needs a configured certificate (line 341); `TransportRun` and `ServingRegistrations` state its effect |
| ServerConfig.CertPath | bin/src/hickory-dns.rs:455 | the configured certificate path, which the TLS-family listeners load |
| ServerConfig.KindOf | bin/src/hickory-dns.rs:298-334 | UDP and QUIC bind datagram sockets, TCP, TLS and HTTPS stream sockets |
| Host.AttemptPrefix | bin/src/hickory-dns.rs:658-676 | a chain of `?` issues a prefix of its steps, and all of them exactly when every step but possibly the last succeeds |
| Host.AttemptCompletes | bin/src/hickory-dns.rs:658-676 | a chain whose steps all succeed issues them all |
| Host.AttemptAppend | bin/src/hickory-dns.rs:658-676 | a chain of two parts runs the second only when the first completes |
| Host.AttemptFails | bin/src/hickory-dns.rs:658-676 | a chain that does not complete stops at its first failure, all steps before it succeeding |
| Host.AttemptStep | bin/src/hickory-dns.rs:658-676 | the rest of a chain runs only when its first step succeeds |
| Host.AttemptOne | bin/src/hickory-dns.rs:658-676 | a chain of one step issues it, and completes when it succeeds |
| Host.Fallible | bin/src/hickory-dns.rs:313-334 | `register_socket` and `register_listener` return nothing and cannot fail, and `getpwnam`/`getgrnam` are table lookups whose null answer `Privileges.DropPrivs` reads from the `passwd` and `groups` maps; every other effect may fail, as the oracle decides (`Host.Host.Perform`) |
| Host.Host.constructor | bin/src/hickory-dns.rs:713 | a process starts with an empty trace and the given identity and tables |
| Host.Host.Perform | bin/src/hickory-dns.rs:303 | an effect is appended to the trace, succeeds as the oracle decides, and leaves the identity alone |
| Host.GidSet | bin/src/hickory-dns.rs:762-763 | after a successful POSIX `setgid`, the effective group id is the target; the real one is too when the caller's effective user id is 0; the user ids are unchanged |
| Host.UidSet | bin/src/hickory-dns.rs:762-763 | after a successful POSIX `setuid`, the effective user id is the target; the real one is too when the caller's effective user id is 0; the group ids are unchanged |
| Host.Host.SetGroupId | bin/src/hickory-dns.rs:763 | `setgid` is appended, and on success the ids change as `GidSet` says |
| Host.Host.SetUserId | bin/src/hickory-dns.rs:763 | `setuid` is appended, and on success the ids change as `UidSet` says |
| Sockets.DomainOf | bin/src/hickory-dns.rs:659-662 | an IPv6 address gets an IPv6 socket, an IPv4 address an IPv4 socket |
| Sockets.TcpListenerOps | bin/src/hickory-dns.rs:658-676 | the calls of `build_tcp_listener` when each succeeds; `SetupOrder` states their order and the backlog of 128 |
| Sockets.UdpSocketOps | bin/src/hickory-dns.rs:679-694 | the calls of `build_udp_socket` when each succeeds; `SetupOrder` states their order and that a datagram socket never listens |
| Sockets.SocketOps | bin/src/hickory-dns.rs:658-694 | the builder of each socket kind; `SocketSetupOnly` states that it issues socket calls only |
| Sockets.SetupOrder | bin/src/hickory-dns.rs:658-694 | the option order of both builders: socket first; IPv6-only before non-blocking, and only for IPv6; non-blocking before the bind, the bind before the conversion; a stream socket listens with backlog 128 between the bind and the conversion, a datagram socket never listens |
| Sockets.SocketSetupOnly | bin/src/hickory-dns.rs:658-694 | building a socket only creates and configures it |
| Sockets.BuildTcpListener | bin/src/hickory-dns.rs:658-676 | `build_tcp_listener` issues the stream plan up to its first failure and succeeds exactly when the whole plan does |
| Sockets.BuildUdpSocket | bin/src/hickory-dns.rs:679-694 | `build_udp_socket` issues the datagram plan up to its first failure and succeeds exactly when the whole plan does |
| Sockets.BuildSocket | bin/src/hickory-dns.rs:658-694 | the builder of each socket kind behaves as that kind's plan |
| Sockets.OpenBound | bin/src/hickory-dns.rs:659-670 | the shared head of both builders issues socket, IPv6-only, non-blocking and bind up to the first failure |
| Sockets.OpenSocket | bin/src/hickory-dns.rs:659-665 | `Socket::new`, then IPv6-only for IPv6, up to the first failure |
| ZoneCatalog.Loads | bin/src/hickory-dns.rs:255-264 | one load per zone |
| ZoneCatalog.LowerAscii | bin/src/hickory-dns.rs:261 | upper-case ASCII letters are lowered, every other character kept |
| ZoneCatalog.ZoneKey | bin/src/hickory-dns.rs:261 | `LowerName::from` lowers each character of the name and keeps its length |
| ZoneCatalog.SameKey | bin/src/hickory-dns.rs:261 | two names share a catalog key exactly when they agree character by character once lowered |
| ZoneCatalog.KeyIdempotent | bin/src/hickory-dns.rs:261 | lowering a key again leaves it as it is |
| ZoneCatalog.KeyIgnoresCase | bin/src/hickory-dns.rs:261 | `Example.COM.` and `example.com.` share a key, `example.org.` does not |
| ZoneCatalog.LastZoneWins | bin/src/hickory-dns.rs:261 | after the upserts a key is in the catalog exactly when some zone's name lowers to it, and it serves the last such zone |
| ZoneCatalog.CatalogRun | bin/src/hickory-dns.rs:253-264 | the zone loop fails only on an unreadable zone name or a failed load |
| ZoneCatalog.CatalogSucceeds | bin/src/hickory-dns.rs:253-264 | the zone loop succeeds exactly when every name is readable and every load succeeds, having then loaded every zone in order into the upserted catalog |
| ZoneCatalog.SucceedsStep | bin/src/hickory-dns.rs:255-263 | one more zone keeps the zone loop as planned |
| ZoneCatalog.CatalogFails | bin/src/hickory-dns.rs:255-263 | a failing zone loop stops at the first failing zone and reports it, having loaded the zones before it and attempted it when its name was readable |
| ZoneCatalog.LoadsExtend | bin/src/hickory-dns.rs:260 | the loads of the zones complete exactly when those of all but the last do and the last load succeeds |
| ZoneCatalog.FailsAtExtends | bin/src/hickory-dns.rs:262 | a failure among the first zones is the failure of the whole loop |
| ZoneCatalog.CatalogErrorSticks | bin/src/hickory-dns.rs:258-262 | once the zone loop has failed, the remaining zones change nothing |
| ZoneCatalog.CatalogOnlyLoads | bin/src/hickory-dns.rs:253-264 | the zone loop issues zone loads and nothing else |
| ZoneCatalog.CatalogNext | bin/src/hickory-dns.rs:255-263 | each turn reads the zone name, loads the zone, and upserts it or stops with the failure |
| ZoneCatalog.BuildCatalog | bin/src/hickory-dns.rs:253-264 | the zone loop issues exactly the specified loads and returns the specified catalog or error, leaving the identity alone |
| ZoneCatalog.LoadNext | bin/src/hickory-dns.rs:255-263 | one turn of the zone loop extends the loop's run by one zone, and a failure ends it |
| Registry.RegistrationsShift | bin/src/hickory-dns.rs:313 | past the end of the first part, the registrations of a trace are those of the second |
| Registry.RegistrationsFromAppend | bin/src/hickory-dns.rs:313 | the registrations from a point of the first part are those left in it, then those of the second part |
| Registry.RegistrationsAppend | bin/src/hickory-dns.rs:313 | the registrations of a concatenated trace are those of its parts, in order |
| Registry.RegistrationsOne | bin/src/hickory-dns.rs:313 | a single registration registers its address for its transport |
| Registry.NoRegistrationsFrom | bin/src/hickory-dns.rs:313 | a trace without registrations registers nothing from any point on |
| Registry.NoRegistrations | bin/src/hickory-dns.rs:313 | a trace without registrations registers nothing for any transport |
| Registry.AttemptUnregistered | bin/src/hickory-dns.rs:303-304 | a chain of steps without registrations registers nothing, however far it gets |
| Registry.RegistrationsOf | bin/src/hickory-dns.rs:313 | an empty trace registers nothing |
| Listeners.LookupOps | bin/src/hickory-dns.rs:467-472 | the local-address lookup is issued once, and only when the `info!` event whose argument it is gets logged |
| Listeners.AttemptTail | bin/src/hickory-dns.rs:467-476 | when the lookup is logged, the registration is issued only after it succeeds; when it is not, the registration alone is issued and decides the outcome |
| Listeners.HeadIsFailFast | bin/src/hickory-dns.rs:458-465 | the certificate load, then the socket builder, is a chain that stops at the first failure |
| Listeners.CertOps | bin/src/hickory-dns.rs:458-460 | a TLS-family transport loads its certificate, against the zone directory, exactly once per address; UDP and TCP load nothing |
| Listeners.AddrPlan | bin/src/hickory-dns.rs:454-476 | the plan of one address ends with its registration, directly preceded by the address lookup when that is logged; it holds a lookup exactly when the lookup is logged, and nothing before the registration registers a listener |
| Listeners.HeadRun | bin/src/hickory-dns.rs:458-465 | the certificate load and the socket builder of one address, as a chain; `HeadIsFailFast` states its contract |
| Listeners.TailRun | bin/src/hickory-dns.rs:467-476 | after the socket is ready: the lookup when it is logged, then the registration, each after the previous one succeeded; it fails at the lookup only when the lookup is logged |
| Listeners.SetupRun | bin/src/hickory-dns.rs:454-476 | the loop body for one address, which fails at the lookup only when the lookup is logged; `SetupIsFailFast` states that it is its plan up to the first failure |
| Listeners.SetupIsFailFast | bin/src/hickory-dns.rs:454-476 | the setup of one address issues its plan (certificate for TLS-family transports, socket, lookup when its `info!` event is logged, registration) up to the first failure, and fails exactly when the plan does not complete |
| Listeners.TailIsFailFast | bin/src/hickory-dns.rs:467-476 | the lookup when it is logged, then the registration, continue the chain of the socket setup |
| Listeners.SetupOfAt | bin/src/hickory-dns.rs:454-476 | a transport's per-address setup is its setup run |
| Listeners.ListenersUpTo | bin/src/hickory-dns.rs:454-477 | a listener loop fails only as a listener failure of its own transport |
| Listeners.ListenersNext | bin/src/hickory-dns.rs:454-477 | an address is set up only when the ones before it succeeded, and its failure names the address and the stage |
| Listeners.HeadUnregistered | bin/src/hickory-dns.rs:458-465 | the certificate load and the socket builder register nothing |
| Listeners.TailRegistrations | bin/src/hickory-dns.rs:474-476 | the lookup registers nothing; the registration registers its address for its own transport |
| Listeners.SetupRegistrations | bin/src/hickory-dns.rs:454-476 | one address registers itself, for its own transport only, exactly when its setup reached the registration step |
| Listeners.SetupOfRegistersOwnAddress | bin/src/hickory-dns.rs:454-476 | each transport's setup registers only its own address for itself, and nothing for another transport |
| Listeners.MeasureEmptyStep | bin/src/hickory-dns.rs:454-477 | an address that registers nothing leaves the loop's registrations empty |
| Listeners.LoopMeasureEmpty | bin/src/hickory-dns.rs:454-477 | a loop whose addresses register nothing registers nothing |
| Listeners.RegisteredBeforeGrow | bin/src/hickory-dns.rs:454-477 | a failure among the first addresses is one among more of them |
| Listeners.RegisteredBeforeLast | bin/src/hickory-dns.rs:454-477 | a failure at the last address considered leaves the addresses before it registered |
| Listeners.MeasureStep | bin/src/hickory-dns.rs:454-477 | one more address keeps "the plan so far is registered, up to a failure" |
| Listeners.LoopMeasure | bin/src/hickory-dns.rs:454-477 | a loop whose addresses register themselves registers the whole plan on success, and the addresses up to the failing one on failure |
| Listeners.ListenersAdvance | bin/src/hickory-dns.rs:454-477 | the trace after one more address is the loop's run over one more address |
| Listeners.ListenersNone | bin/src/hickory-dns.rs:449-452 | with an empty plan a listener loop issues nothing and succeeds, as the early return does |
| Listeners.ListenersErrorSticks | bin/src/hickory-dns.rs:454-477 | once the loop has failed, the remaining addresses change nothing |
| Listeners.RegistrationsAddUp | bin/src/hickory-dns.rs:454-477 | each address adds its own registrations to those before it |
| Listeners.ListenersRegisterAll | bin/src/hickory-dns.rs:454-477 | a successful listener loop registers exactly one listener per address of the plan, in plan order |
| Listeners.ListenersRegisterUntilFailure | bin/src/hickory-dns.rs:454-477 | a failing listener loop has registered the addresses before the failing one, in order, and that one too when its registration failed |
| Listeners.ListenersOtherTransport | bin/src/hickory-dns.rs:454-477 | a transport's listener loop registers nothing for another transport |
| Listeners.ListenersAvoidStage | bin/src/hickory-dns.rs:454-477 | a listener loop fails only at a stage at which some address's setup fails |
| Listeners.UnloggedNeverLooksUp | bin/src/hickory-dns.rs:467-472 | a listener loop whose lookups are not logged never fails at looking up a local address |
| Listeners.PrepareSocket | bin/src/hickory-dns.rs:458-465 | the certificate load, then the socket builder, each only after the previous step succeeded |
| Listeners.LoadCertificate | bin/src/hickory-dns.rs:458-460 | a TLS-family transport loads its certificate; the others load nothing |
| Listeners.SetupListener | bin/src/hickory-dns.rs:454-476 | the loop body for one address, which looks up the local address only when that is logged, issues exactly the setup run and reports its failed stage |
| Listeners.ListenNext | bin/src/hickory-dns.rs:454-477 | one turn of the listener loop extends its run by one address, and a failure ends the loop |
| Listeners.ServeListeners | bin/src/hickory-dns.rs:439-479 | the listener function of a transport issues exactly the listener loop's effects and returns its result |
| Listeners.ListenOnPlan | bin/src/hickory-dns.rs:454-478 | the `for` loop over the listen plan issues exactly the listener loop's effects and returns its result |
| Privileges.DropPrivs | bin/src/hickory-dns.rs:699-778 | a non-root process is left alone; names that are not C strings fail before any lookup; the user lookup is reported before the group lookup and a failed lookup changes nothing; success as root leaves the target user's and group's ids as the effective ids, and as the real ids too when the effective user id was 0 |
| Privileges.IsRoot | bin/src/hickory-dns.rs:715 | the root test of `check_drop_privs`, on the real or the effective user id; `DropPrivs` states what each outcome does |
| Privileges.IsCString | bin/src/hickory-dns.rs:720-728 | `CString::new` refuses exactly a name with an interior NUL; `DropPrivs` states the two refusals and their order |
| Privileges.SetIdCalls | bin/src/hickory-dns.rs:762-771 | a set-id call is issued only by a root process after both lookups succeed, then both are, setgid first; a setgid failure is reported even when setuid fails too |
| Privileges.CheckDropPrivs | bin/src/hickory-dns.rs:699-778 | `check_drop_privs` issues exactly the specified lookups and set-id calls, returns the specified result and leaves the specified identity |
| Startup.CertFilesOf | bin/src/hickory-dns.rs:458 | each TLS-family listener loads the configured certificate against the zone directory in effect |
| Startup.ZoneDir | bin/src/hickory-dns.rs:223-228 | `--zonedir` overrides the configured zone directory |
| Startup.TargetUser | bin/src/hickory-dns.rs:394 | privileges are dropped to the configured user, `nobody` when none is configured |
| Startup.TargetGroup | bin/src/hickory-dns.rs:395 | privileges are dropped to the configured group, `nobody` when none is configured |
| Startup.TransportRun | bin/src/hickory-dns.rs:298-317 | a disabled transport issues nothing and succeeds; an enabled one fails only on its own listeners |
| Startup.BlockOfAt | bin/src/hickory-dns.rs:298-389 | each transport block is that transport's run |
| Startup.TransportsRun | bin/src/hickory-dns.rs:298-389 | the transport blocks fail only on a listener of an enabled transport |
| Startup.TransportsUpTo | bin/src/hickory-dns.rs:298-389 | the first `n` transport blocks in their source order; a failure is the result of one of those blocks |
| Startup.ServeRun | bin/src/hickory-dns.rs:298-396 | serving succeeds with the catalog and the plan, and fails only on a listener or on the privilege drop |
| Startup.DropRunAfter | bin/src/hickory-dns.rs:391-396 | the privilege drop's failure is the startup error; its success starts the server with the catalog and the plan |
| Startup.StartupRun | bin/src/hickory-dns.rs:213-396 | startup fails as unreadable configuration exactly when the file cannot be read, and ends validated only with `--validate` |
| Startup.PlannedRun | bin/src/hickory-dns.rs:266-396 | after the zone loop, startup ends validated only with `--validate` |
| Startup.AsyncRun | bin/src/hickory-dns.rs:213-396 | `async_run` up to serving issues exactly the specified effects, returns the specified result and leaves the specified identity |
| Startup.PlanAndServe | bin/src/hickory-dns.rs:266-396 | after the zone loop, the address parsing, validation exit and serving behave as specified |
| Startup.PlanListenAddrs | bin/src/hickory-dns.rs:272-283 | the plan is collected, then both unspecified addresses are pushed if it is empty, giving the specified listen plan |
| Startup.Serve | bin/src/hickory-dns.rs:298-396 | the transports, then the privilege drop, behave as specified |
| Startup.DropAfter | bin/src/hickory-dns.rs:391-396 | the privilege drop with the configured or default names behaves as specified |
| Startup.StartListeners | bin/src/hickory-dns.rs:298-389 | the five transport blocks issue exactly the specified effects and stop at the first failing listener |
| Startup.ServeTransport | bin/src/hickory-dns.rs:298-389 | one transport block extends the blocks' run by one, and a failure ends them |
| Startup.RunTransport | bin/src/hickory-dns.rs:298-317 | one transport block runs its listener loop when enabled, and does nothing otherwise |
| Startup.TransportIndex | bin/src/hickory-dns.rs:298-389 | every transport has its place in the block order UDP, TCP, TLS, HTTPS, QUIC |
| Startup.IndexOfBlock | bin/src/hickory-dns.rs:298-389 | the block order lists each transport exactly once |
| Startup.TransportsAdvance | bin/src/hickory-dns.rs:298-389 | the trace after one more block is the blocks' run over one more |
| Startup.TransportsErrorSticks | bin/src/hickory-dns.rs:298-389 | once a block has failed, the later blocks change nothing |
| Startup.TransportsFail | bin/src/hickory-dns.rs:298-389 | the transport blocks fail exactly when one of them does: those before it succeeded and none after it ran |
| Startup.BlockFailed | bin/src/hickory-dns.rs:298-389 | the failing block is that of an enabled transport, and its failure is the blocks' failure |
| Startup.TransportsRegister | bin/src/hickory-dns.rs:298-389 | after succeeding blocks, a transport has registered its addresses when its block was among them, nothing otherwise |
| Startup.RegisterStep | bin/src/hickory-dns.rs:298-389 | one more succeeding block adds a transport's addresses exactly when it is that transport's block |
| Startup.IndexBelow | bin/src/hickory-dns.rs:298-389 | the transports of the first `n` blocks are those of the first `n - 1` and that of block `n - 1` |
| Startup.TransportsFailureRegistrations | bin/src/hickory-dns.rs:298-389 | when the blocks fail, the transports before the failing one have registered their addresses, those after it nothing, and the failing one the addresses up to the failure |
| Startup.TransportRegistrations | bin/src/hickory-dns.rs:298-317 | a transport block registers nothing for other transports, and the whole plan for its own when enabled and successful |
| Startup.BlocksRegister | bin/src/hickory-dns.rs:298-389 | every block of a configuration registers as `TransportRegistrations` says |
| Startup.InPhaseAppend | bin/src/hickory-dns.rs:213-396 | effects of one phase, concatenated, stay in that phase |
| Startup.PhasedConcat | bin/src/hickory-dns.rs:213-396 | zone loads, then listener effects, then privilege effects are in phase order |
| Startup.LoadsThenPhased | bin/src/hickory-dns.rs:253-264 | zone loads ahead of effects in phase order are in phase order |
| Startup.BeforeDropAppend | bin/src/hickory-dns.rs:391-396 | two traces without privilege effects have none together |
| Startup.OutsideListenersUnregistered | bin/src/hickory-dns.rs:313 | effects outside the listener phase register nothing |
| Startup.LoadsUnregistered | bin/src/hickory-dns.rs:253-264 | zone loads ahead of other effects add no registrations |
| Startup.DropUnregistered | bin/src/hickory-dns.rs:391-396 | a privilege drop after other effects adds no registrations |
| Startup.DropInPhase | bin/src/hickory-dns.rs:699-778 | the privilege drop only looks up names and sets ids |
| Startup.SetupInPhase | bin/src/hickory-dns.rs:454-476 | setting up one address issues listener effects only |
| Startup.SetupsInPhase | bin/src/hickory-dns.rs:454-476 | every per-address setup issues listener effects only |
| Startup.ListenersInPhase | bin/src/hickory-dns.rs:454-477 | a listener loop issues listener effects only |
| Startup.BlocksInPhase | bin/src/hickory-dns.rs:298-389 | every transport block issues listener effects only |
| Startup.TransportsInPhase | bin/src/hickory-dns.rs:298-389 | the transport blocks together issue listener effects only |
| Startup.RegisteredWhenListening | bin/src/hickory-dns.rs:298-389 | when every block succeeds, each transport has registered the whole plan if enabled, nothing otherwise |
| Startup.RegisteredUntilFailure | bin/src/hickory-dns.rs:298-389 | when a block fails, every transport's registrations are as `FailedListeners` describes |
| Startup.BlocksFailAloneOf | bin/src/hickory-dns.rs:298-389 | a failing block fails as its own transport, registering nothing for others and its own addresses up to the failure |
| Startup.FailedBlockRegistrations | bin/src/hickory-dns.rs:298-317 | what one failing block has registered, for its own transport and for the others |
| Startup.StartupPlans | bin/src/hickory-dns.rs:253-283 | once the catalog is built, startup goes on to the listen plan |
| Startup.PlannedServes | bin/src/hickory-dns.rs:285-296 | with both address lists parsed and no `--validate`, startup goes on to serve after the zone loads |
| Startup.ServeDrops | bin/src/hickory-dns.rs:298-396 | serving drops privileges once every block succeeded and otherwise stops there; it fails on a listener exactly when a block failed |
| Startup.CatalogInPhase | bin/src/hickory-dns.rs:253-264 | loading the catalog issues zone loads only |
| Startup.ValidateOnly | bin/src/hickory-dns.rs:285-288 | with `--validate`, startup loads zones and parses the address lists and stops: it binds nothing, keeps its identity, and succeeds exactly when every zone is named and loads and both lists parse |
| Startup.ServingState | bin/src/hickory-dns.rs:213-396 | a server that starts has every zone loaded into the upserted catalog, plans the configured addresses (or both wildcards), and, when started as root, runs with the target user and group as effective ids (and real ids, when it started with effective user id 0), its identity unchanged otherwise |
| Startup.ServingRegistrations | bin/src/hickory-dns.rs:298-389 | a server that starts has registered, for each transport, the whole plan if it is enabled and nothing otherwise |
| Startup.PlannedRegistrations | bin/src/hickory-dns.rs:266-396 | the same, for startup after the zone loop |
| Startup.ServeRegistrations | bin/src/hickory-dns.rs:298-396 | the same, for the transports and the privilege drop |
| Startup.ListenerFailure | bin/src/hickory-dns.rs:298-389 | a listener failure ends startup on an enabled transport with the identity unchanged; each enabled transport before it has registered the whole plan, the later ones nothing, and the failing one the addresses before the failing address, that one too when its registration failed |
| Startup.PlannedListenerFailure | bin/src/hickory-dns.rs:266-396 | the same, for startup after the zone loop |
| Startup.StartupListenerFailed | bin/src/hickory-dns.rs:221-264 | a startup that fails on a listener has read its configuration and loaded every zone |
| Startup.PlannedListenerFailed | bin/src/hickory-dns.rs:266-288 | after the zone loop, a listener fails only when both address lists parsed and there is no `--validate` |
| Startup.PlannedStopped | bin/src/hickory-dns.rs:298-396 | a startup that fails on a listener stops with the transports, its trace the zone loads and the failed blocks, its identity unchanged |
| Startup.StoppedListeners | bin/src/hickory-dns.rs:298-389 | `FailedListeners` holds for the failed transport blocks after the zone loads |
| Startup.StartupPhased | bin/src/hickory-dns.rs:391-396 | startup proceeds in phases, zone loads, then listener setup, then the privilege drop, never out of order; a startup that stops before the drop has issued no privilege effect and kept its identity |
| Startup.PlannedPhased | bin/src/hickory-dns.rs:266-396 | the same, for startup after the zone loop |
| Startup.ServePhased | bin/src/hickory-dns.rs:298-396 | the same, for the transports and the privilege drop |
| Startup.TransportsQuiet | bin/src/hickory-dns.rs:298-389 | with `--quiet` no transport block fails at looking up a local address |
| Startup.QuietNeverLooksUp | bin/src/hickory-dns.rs:306-311 | with `--quiet` the `info!` events are not logged, so startup never fails at looking up a local address |
| Startup.CheckOrder | bin/src/hickory-dns.rs:221-271 | the configuration is read first, the zones loaded next, then the IPv4 and the IPv6 lists parsed; each failure is reported exactly when every earlier step succeeded |

## Left out

- `Record::from_str` is not part of this model. The dig parser takes it as the parameter `parseRecord`, any function that may refuse a line. The record types are not modelled.
- The `Client` container methods (`new`, `container_id`, `container_name`, `ipv4_addr`, `delv`) and the container I/O behind `dig` run processes in Docker, and are left out. `DigArgs` models the argument vector `dig` builds; the parse of its standard output is `ParseDigOutput`.
- The error messages are `DigError` and `StartupError` values instead of formatted strings; the prefix and delimiter a message names are kept.
- `todo!` (an unknown EDE code) and `assert!` (a duplicate EDE code) abort in the source. Here they are the error values `UnimplementedEde` and `DuplicateEde`, told apart by `IsPanic`.
- `dig`'s own reading of its options (`ReadToggle`, `ReadTimeout`) is a reference definition written for this model; `dig` itself is not part of it.
- `main`, `run` after the log level, the tracing subscriber (apart from whether it lets `info!` events through, see `InfoLogged`), the Tokio runtime, the `info!`/`warn!` logging, `banner` and `TdnsFormatter` are I/O, and are left out.
- The Prometheus endpoint, which is present only with the `prometheus-metrics` feature, is left out.
- The task spawned to wait for SIGTERM, its shutdown token and `block_until_done` are concurrency that runs after the server is ready; the model ends when the server is ready to serve.
- Registering the SIGTERM handler (bin/src/hickory-dns.rs:249-251) can fail, and `async_run` then returns an error before loading any zone. The model has no effect for it and takes the registration to succeed, so that error path is not modelled.
- InfoLogged: the `RUST_LOG` environment variable is taken to be unset, so the filter is the level chosen from `--quiet` and `--debug`. A `RUST_LOG` that lets INFO through under `--quiet`, or filters it out without `--quiet`, is not modelled, and neither is a malformed one, which ends `run` with an error.
- The non-Unix branch that refuses a configured user or group is left out, because the model is the Unix build.
- `Config::read_config`, `zone.zone()`, `listen_addrs_ipv4/ipv6` and the other configuration accessors are not part of this model. Their answers are inputs: `config` is `None` when the file cannot be read, a zone name is `None` when it cannot be read, and an address list is `None` when it does not parse.
- `zone.load`, `TlsCertConfig::load`, the socket calls, `local_addr` and the `register_*` calls are effects whose success an oracle decides; what they build (authorities, certificates, sockets) is not modelled. The catalog maps each zone key to the position of the zone that serves it.
- The deny/allow networks and the TCP request timeout are passed through to the server, unread by startup, and are left out.
- The HTTPS endpoint name and path, and the QUIC endpoint name, are passed through unread and are left out.
- Zone names are strings. `LowerName` is modelled as ASCII lower-casing of the whole name (`ZoneKey`); its label structure, escapes, IDNA and the fully-qualified flag are not modelled.
- The saved set-user-ID and set-group-ID are not part of `Ids`. Whether a `setgid`/`setuid` call is permitted is the oracle's decision; `GidSet` and `UidSet` give only the ids a successful call leaves.
- `getuid`/`getgid`/`geteuid`/`getegid` read the `Host` identity. The second reading, which is only logged, is left out.
- The TLS, HTTPS and QUIC blocks are compiled only with the `__tls`, `__https` and `__quic` features (bin/src/hickory-dns.rs:340-389). The model is the build with all three features; a build without one of them ignores that transport's certificate and port settings, and this is not modelled.
- The five transport blocks of `async_run` are modelled as one loop over the transports in their source order; their per-transport differences (socket kind, certificate, port) are parameters.
- Builder chaining is not modelled: the `DigSettings` setters return `&mut Self` in the source, and here they are methods on a `DigSettings` object that return nothing.
- `Startup.AsyncRun`: does not model the part of `async_run` after the privilege drop, the signal task and `block_until_done`, because it is concurrency; the method ends when the server is ready.
