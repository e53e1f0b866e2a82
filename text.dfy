/**
 * The handful of Rust `str` operations the dig parser relies on, over `string`
 * (a sequence of Unicode scalar values): `starts_with`/`strip_prefix`,
 * `split_once` on a character, `lines` and `split_whitespace`.
 */
module Text {
  import opened Basics

  predicate HasPrefix(s: string, p: string)
  {
    |p| <= |s| && s[..|p|] == p
  }

  /** Index of the first occurrence of `c` in `s`, if any. */
  function IndexOf(s: string, c: char): (r: Option<nat>)
    ensures r.Some? ==> r.value < |s| && s[r.value] == c && c !in s[..r.value]
    ensures r.None? <==> c !in s
  {
    if s == [] then None
    else if s[0] == c then Some(0)
    else match IndexOf(s[1..], c)
      case None => None
      case Some(k) => assert s[..k + 1] == [s[0]] + s[1..][..k]; Some(k + 1)
  }

  /** `str::split_once(c)`: the text before and after the first `c`. */
  function SplitOnce(s: string, c: char): (r: Option<(string, string)>)
    ensures r.None? <==> c !in s
    ensures r.Some? ==> s == r.value.0 + [c] + r.value.1 && c !in r.value.0
  {
    match IndexOf(s, c)
    case None => None
    case Some(k) =>
      assert s == s[..k] + [c] + s[k + 1..];
      Some((s[..k], s[k + 1..]))
  }

  /** One line as `str::lines` yields it: a `\r` is dropped only before the `\n` that ends the line. */
  function StripCr(line: string): string
  {
    if line != [] && line[|line| - 1] == '\r' then line[..|line| - 1] else line
  }

  /**
   * `str::lines`: split after every `\n`; the final line ending is optional,
   * so an empty input and a trailing `\n` add no empty line.
   */
  function Lines(s: string): (r: seq<string>)
    ensures forall k :: 0 <= k < |r| ==> '\n' !in r[k]
    decreases |s|
  {
    if s == [] then []
    else match SplitOnce(s, '\n')
      case None => [s]
      case Some((line, rest)) => [StripCr(line)] + Lines(rest)
  }

  /** Each line followed by a `\n`: the text that `Lines` splits back up. */
  function Terminated(lines: seq<string>): string
  {
    if lines == [] then [] else lines[0] + "\n" + Terminated(lines[1..])
  }

  lemma {:induction false} LinesOfTerminated(lines: seq<string>)
    requires forall k :: 0 <= k < |lines| ==> '\n' !in lines[k]
    requires forall k :: 0 <= k < |lines| ==> lines[k] == [] || lines[k][|lines[k]| - 1] != '\r'
    ensures Lines(Terminated(lines)) == lines
  {
    if lines != [] {
      var s := Terminated(lines);
      var rest := Terminated(lines[1..]);
      assert s == lines[0] + ['\n'] + rest;
      assert '\n' !in lines[0];
      var k := IndexOf(s, '\n');
      assert s[|lines[0]|] == '\n';
      assert s[..|lines[0]|] == lines[0];
      assert k == Some(|lines[0]|);
      assert s[|lines[0]| + 1..] == rest;
      assert SplitOnce(s, '\n') == Some((lines[0], rest));
      LinesOfTerminated(lines[1..]);
    }
  }

  /** Lines separated by `\n`, the last one without it: a text whose final line ending is omitted. */
  function Joined(lines: seq<string>): string
  {
    if lines == [] then [] else if |lines| == 1 then lines[0] else lines[0] + "\n" + Joined(lines[1..])
  }

  /** `split_once` at a delimiter that does not occur before it. */
  lemma SplitAt(a: string, c: char, b: string)
    requires c !in a
    ensures SplitOnce(a + [c] + b, c) == Some((a, b))
  {
    var s := a + [c] + b;
    assert s[|a|] == c;
    assert s[..|a|] == a;
    assert s[|a| + 1..] == b;
  }

  /** `Lines` splits a text without a final line ending back into its lines; the last must not be empty. */
  lemma {:induction false} LinesOfJoined(lines: seq<string>)
    requires forall k :: 0 <= k < |lines| ==> '\n' !in lines[k]
    requires forall k :: 0 <= k < |lines| - 1 ==> lines[k] == [] || lines[k][|lines[k]| - 1] != '\r'
    requires lines != [] ==> lines[|lines| - 1] != []
    ensures Lines(Joined(lines)) == lines
  {
    if |lines| == 1 {
      assert '\n' !in lines[0];
    } else if lines != [] {
      var rest := Joined(lines[1..]);
      assert Joined(lines) == lines[0] + ['\n'] + rest;
      SplitAt(lines[0], '\n', rest);
      assert StripCr(lines[0]) == lines[0];
      assert forall k :: 0 <= k < |lines[1..]| ==> lines[1..][k] == lines[k + 1];
      LinesOfJoined(lines[1..]);
    }
  }

  /** Rust's `char::is_whitespace`: the Unicode White_Space property. */
  predicate IsWhitespace(c: char)
  {
    var n := c as int;
    (9 <= n <= 13) || n == 32 || n == 0x85 || n == 0xA0 || n == 0x1680
    || (0x2000 <= n <= 0x200A) || n == 0x2028 || n == 0x2029 || n == 0x202F
    || n == 0x205F || n == 0x3000
  }

  predicate NoWhitespace(w: string)
  {
    forall k :: 0 <= k < |w| ==> !IsWhitespace(w[k])
  }

  /** End of the word that starts at `i`: the first whitespace at or after `i`, or `|s|`. */
  function WordEnd(s: string, i: nat): (e: nat)
    requires i <= |s|
    ensures i <= e <= |s|
    ensures NoWhitespace(s[i..e])
    ensures e < |s| ==> IsWhitespace(s[e])
    decreases |s| - i
  {
    if i == |s| || IsWhitespace(s[i]) then i
    else
      var e := WordEnd(s, i + 1);
      assert s[i..e] == [s[i]] + s[i + 1..e];
      e
  }

  /** `str::split_whitespace`: the maximal runs of non-whitespace characters, in order. */
  function SplitWhitespace(s: string): (r: seq<string>)
    ensures forall k :: 0 <= k < |r| ==> r[k] != [] && NoWhitespace(r[k])
    decreases |s|
  {
    if s == [] then []
    else if IsWhitespace(s[0]) then SplitWhitespace(s[1..])
    else
      var e := WordEnd(s, 0);
      [s[..e]] + SplitWhitespace(s[e..])
  }

  /** Words joined by single spaces. */
  function JoinWords(words: seq<string>): string
  {
    if words == [] then []
    else if |words| == 1 then words[0]
    else words[0] + " " + JoinWords(words[1..])
  }

  lemma {:induction false} WordEndOfWord(w: string, rest: string)
    requires NoWhitespace(w)
    requires rest == [] || IsWhitespace(rest[0])
    ensures WordEnd(w + rest, 0) == |w|
  {
    var s := w + rest;
    var i := 0;
    while i < |w|
      invariant 0 <= i <= |w|
      invariant WordEnd(s, i) == WordEnd(s, 0)
    {
      assert s[i] == w[i];
      i := i + 1;
    }
  }

  /** `split_whitespace` undoes `JoinWords` for non-empty words without whitespace. */
  lemma {:induction false} SplitJoinWords(words: seq<string>)
    requires forall k :: 0 <= k < |words| ==> words[k] != [] && NoWhitespace(words[k])
    ensures SplitWhitespace(JoinWords(words)) == words
  {
    if words == [] {
    } else if |words| == 1 {
      var w := words[0];
      WordEndOfWord(w, []);
      assert w + [] == w;
      assert !IsWhitespace(w[0]);
      assert w[|w|..] == [];
    } else {
      var w := words[0];
      var tail := JoinWords(words[1..]);
      var s := w + " " + tail;
      assert s == w + (" " + tail);
      WordEndOfWord(w, " " + tail);
      assert !IsWhitespace(s[0]);
      assert s[..|w|] == w;
      assert s[|w|..] == " " + tail;
      assert (" " + tail)[1..] == tail;
      SplitJoinWords(words[1..]);
    }
  }
}
