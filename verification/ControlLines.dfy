/** Cutting a character stream into CRLF-terminated lines, independently of its packets. */
module ControlLines {
  import opened Numerals
  import opened Prelude

  predicate BreakAt(text: string, i: nat) {
    i + 1 < |text| && text[i] == '\r' && text[i + 1] == '\n'
  }

  /** `indexOf('\r\n')`: the first line break at or after `from`, or -1. */
  function IndexOfBreak(text: string, from: nat): (i: int)
    requires from <= |text|
    ensures i == -1 || (from <= i && BreakAt(text, i))
    ensures forall j: nat :: from <= j && BreakAt(text, j) ==> 0 <= i <= j
    decreases |text| - from
  {
    if from + 1 >= |text| then -1 else if BreakAt(text, from) then from else IndexOfBreak(text, from + 1)
  }

  /** The complete lines of a text, and what is left after the last of them. */
  function Cut(text: string): (r: (seq<string>, string))
    ensures IndexOfBreak(r.1, 0) == -1
    decreases |text|
  {
    var end := IndexOfBreak(text, 0);
    if end < 0 then ([], text) else
    var (lines, rest) := Cut(text[end + 2..]);
    ([text[..end]] + lines, rest)
  }

  lemma FirstBreak(text: string, i: nat)
    requires BreakAt(text, i) && forall j: nat :: j < i ==> !BreakAt(text, j)
    ensures IndexOfBreak(text, 0) == i
  {
  }

  /**
   A packet boundary anywhere in the stream, even inside a line break, makes no
   difference: cutting the first part and then its rest with the second part gives the
   lines of the whole.
   */
  lemma {:induction false} CutAppend(a: string, b: string)
    ensures Cut(a + b).0 == Cut(a).0 + Cut(Cut(a).1 + b).0
    ensures Cut(a + b).1 == Cut(Cut(a).1 + b).1
    decreases |a|
  {
    var end := IndexOfBreak(a, 0);
    if end >= 0 {
      assert forall j: nat :: j + 1 < |a| ==> (BreakAt(a + b, j) <==> BreakAt(a, j));
      FirstBreak(a + b, end);
      assert (a + b)[end + 2..] == a[end + 2..] + b;
      assert (a + b)[..end] == a[..end];
      CutAppend(a[end + 2..], b);
    }
  }

  /** Every line followed by its line break. */
  function Terminated(lines: seq<string>): string {
    if lines == [] then "" else lines[0] + "\r\n" + Terminated(lines[1..])
  }

  predicate HasBreak(text: string) {
    exists i :: 0 <= i < |text| - 1 && text[i] == '\r' && text[i + 1] == '\n'
  }

  /** Cutting takes exactly the line breaks out, and all of them. */
  lemma {:induction false} CutIsExact(text: string)
    ensures Terminated(Cut(text).0) + Cut(text).1 == text
    ensures !HasBreak(Cut(text).1) && forall i :: 0 <= i < |Cut(text).0| ==> !HasBreak(Cut(text).0[i])
    decreases |text|
  {
    hide HasBreak;
    var end := IndexOfBreak(text, 0);
    if end < 0 {
      NoBreak(text);
    } else {
      CutIsExact(text[end + 2..]);
      BreakInside(text, end);
      NoBreak(text[..end]);
      var (lines, rest) := Cut(text[end + 2..]);
      OneMoreTerminated(text[..end], lines, rest);
    }
  }

  lemma OneMoreTerminated(line: string, lines: seq<string>, rest: string)
    ensures Terminated([line] + lines) + rest == line + "\r\n" + (Terminated(lines) + rest)
  {
    assert ([line] + lines)[1..] == lines;
    var a, b := line + "\r\n", Terminated(lines);
    assert (a + b) + rest == a + (b + rest);
  }

  lemma BreakInside(text: string, end: nat)
    requires IndexOfBreak(text, 0) == end
    ensures text == text[..end] + "\r\n" + text[end + 2..]
    ensures forall j: nat :: !BreakAt(text[..end], j)
  {
    assert forall j: nat :: BreakAt(text[..end], j) ==> BreakAt(text, j);
  }

  lemma NoBreak(text: string)
    requires forall j: nat :: !BreakAt(text, j)
    ensures !HasBreak(text)
  {
    forall i | 0 <= i < |text| - 1 ensures !(text[i] == '\r' && text[i + 1] == '\n') { assert !BreakAt(text, i); }
  }

  function Concat(chunks: seq<string>): string {
    if chunks == [] then "" else Concat(chunks[..|chunks| - 1]) + chunks[|chunks| - 1]
  }

  // ----- the text patterns the reader looks for -----

  predicate HasAt(line: string, i: nat, word: string) {
    i + |word| <= |line| && line[i..i + |word|] == word
  }

  predicate StartsWith(line: string, word: string) {
    HasAt(line, 0, word)
  }

  predicate Contains(line: string, word: string) {
    exists i: nat :: i <= |line| && HasAt(line, i, word)
  }

  /** `/PROGRESS=(\d+)/`: the number after the first PROGRESS= that is followed by a digit. */
  function Progress(line: string, from: nat): Option<nat>
    requires from <= |line|
    decreases |line| - from
  {
    if from == |line| then None
    else if HasAt(line, from, "PROGRESS=") && EndOfDigits(line, from + 9) > from + 9 then
      Some(ToNumber(line[from + 9..EndOfDigits(line, from + 9)]))
    else Progress(line, from + 1)
  }

  /** `/^650[ -]`: an asynchronous event, possibly of several lines. */
  predicate IsEvent(line: string, word: string) {
    (StartsWith(line, "650 ") || StartsWith(line, "650-")) && HasAt(line, 4, word)
  }

  predicate InBase32(c: char) {
    'a' <= c <= 'z' || '2' <= c <= '7'
  }

  /** The onion service whose descriptor was uploaded. */
  function Uploaded(line: string): Option<string> {
    var end := 4 + |"HS_DESC UPLOADED "| + 56;
    if !IsEvent(line, "HS_DESC UPLOADED ") || |line| < end || !(forall i :: end - 56 <= i < end ==>
              InBase32(line[i])) then None
    else
      var past := if HasAt(line, end, ".onion") then end + 6 else end;
      if past == |line| || line[past] == ' ' then Some(line[end - 56..end]) else None
  }

  predicate CircuitBuilt(line: string) {
    IsEvent(line, "CIRC ") && var j := EndOfDigits(line, 9); j > 9 && HasAt(line, j, " BUILT")
  }

  predicate IsStatus(line: string) {
    |line| >= 4 && IsDigit(line[0]) && IsDigit(line[1]) && IsDigit(line[2]) && line[3] == ' '
  }
}
