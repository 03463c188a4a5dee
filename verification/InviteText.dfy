/**
 The signed array of an invite as JSON text (RFC 8259, sections 5 and 7): printing it,
 printing it as Android does with escaped slashes, and reading it back.
 */
module InviteText {
  import opened Numerals
  import opened Prelude

  datatype Element = Text(s: string) | Number(n: nat)

  /** No character that JSON escapes: what every field of a valid invite consists of. */
  predicate PlainChar(c: char) {
    ' ' <= c <= '~' && c != '"' && c != '\\'
  }

  predicate Plain(s: string) {
    forall i :: 0 <= i < |s| ==> PlainChar(s[i])
  }

  predicate PlainElement(e: Element) {
    e.Text? ==> Plain(e.s)
  }

  function Print(e: Element): string {
    match e
    case Text(s) => "\"" + s + "\""
    case Number(n) => Digits(n)
  }

  /** The elements from here to the closing bracket. */
  function PrintTail(es: seq<Element>): string
    requires es != []
  {
    Print(es[0]) + (if |es| == 1 then "]" else "," + PrintTail(es[1..]))
  }

  function PrintArray(es: seq<Element>): string
    requires es != []
  {
    "[" + PrintTail(es)
  }

  // ----- reading -----

  function IndexOfQuote(s: string, i: nat): (j: nat)
    requires i <= |s|
    ensures i <= j <= |s|
    ensures forall k :: i <= k < j ==> s[k] != '"' && s[k] != '\\'
    decreases |s| - i
  {
    if i == |s| || s[i] == '"' || s[i] == '\\' then i else IndexOfQuote(s, i + 1)
  }

  /** One element and the text after it. */
  function ReadOne(s: string): Option<(Element, string)> {
    if s == "" then None
    else if s[0] == '"' then
      var j := IndexOfQuote(s, 1);
      if j < |s| && s[j] == '"' then Some((Text(s[1..j]), s[j + 1..])) else None
    else
      var j := EndOfDigits(s, 0);
      if j == 0 || (s[0] == '0' && j > 1) then None else Some((Number(ToNumber(s[..j])), s[j..]))
  }

  function ReadTail(s: string): Option<seq<Element>>
    decreases |s|
  {
    var one := ReadOne(s);
    if one.None? || one.value.1 == "" then None
    else if one.value.1 == "]" then Some([one.value.0])
    else if one.value.1[0] != ',' then None
    else
      ReadOneShrinks(s);
      var more := ReadTail(one.value.1[1..]);
      if more.None? then None else Some([one.value.0] + more.value)
  }

  lemma ReadOneShrinks(s: string)
    ensures ReadOne(s).Some? ==> |ReadOne(s).value.1| < |s|
  {
  }

  function ReadArray(s: string): Option<seq<Element>> {
    if s != "" && s[0] == '[' then ReadTail(s[1..]) else None
  }

  // ----- what is printed is read back -----

  lemma QuoteFound(s: string, rest: string, i: nat)
    requires Plain(s) && 1 <= i <= |s| + 1
    ensures IndexOfQuote("\"" + s + "\"" + rest, i) == |s| + 1
    decreases |s| + 1 - i
  {
    var text := "\"" + s + "\"" + rest;
    if i <= |s| {
      assert text[i] == s[i - 1] && PlainChar(s[i - 1]);
      QuoteFound(s, rest, i + 1);
    } else {
      assert text[i] == '"';
    }
  }

  lemma ReadPrinted(e: Element, rest: string)
    requires PlainElement(e) && rest != "" && !IsDigit(rest[0])
    ensures ReadOne(Print(e) + rest) == Some((e, rest))
  {
    var text := Print(e) + rest;
    match e
    case Text(s) =>
      assert text == "\"" + s + "\"" + rest;
      QuoteFound(s, rest, 1);
      assert text[1..|s| + 1] == s && text[|s| + 2..] == rest && text[|s| + 1] == '"';
    case Number(n) =>
      DigitsFound(Digits(n), rest, 0);
      DigitsRead(n);
      assert text[..|Digits(n)|] == Digits(n) && text[|Digits(n)|..] == rest && text[0] == Digits(n)[0];
  }

  /** The round trip of the array. */
  lemma {:induction false} ReadPrintedTail(es: seq<Element>)
    requires es != [] && forall i :: 0 <= i < |es| ==> PlainElement(es[i])
    ensures ReadTail(PrintTail(es)) == Some(es)
  {
    hide ReadOne, Print;
    if |es| == 1 {
      ReadPrinted(es[0], "]");
      assert es == [es[0]];
    } else {
      var rest := "," + PrintTail(es[1..]);
      ReadPrinted(es[0], rest);
      ReadPrintedTail(es[1..]);
      assert rest[1..] == PrintTail(es[1..]) && rest != "]";
      assert es == [es[0]] + es[1..];
    }
  }

  lemma ReadPrintedArray(es: seq<Element>)
    requires es != [] && forall i :: 0 <= i < |es| ==> PlainElement(es[i])
    ensures ReadArray(PrintArray(es)) == Some(es)
  {
    ReadPrintedTail(es);
    assert PrintArray(es)[1..] == PrintTail(es);
  }

  // ----- the Android printer -----

  /** org.json writes every slash of a string as `\/`. */
  function EscapeSlashes(s: string): string {
    if s == "" then "" else EscapeSlashes(s[..|s| - 1]) + (if s[|s| - 1] == '/' then "\\/" else [s[|s| - 1]])
  }

  function PrintAndroid(e: Element): string {
    match e
    case Text(s) => "\"" + EscapeSlashes(s) + "\""
    case Number(n) => Digits(n)
  }

  function PrintAndroidTail(es: seq<Element>): string
    requires es != []
  {
    PrintAndroid(es[0]) + (if |es| == 1 then "]" else "," + PrintAndroidTail(es[1..]))
  }

  function PrintAndroidArray(es: seq<Element>): string
    requires es != []
  {
    "[" + PrintAndroidTail(es)
  }

  /** `replace("\\/", "/")`, from left to right. */
  function UnescapeSlashes(s: string): string {
    if s == "" then ""
    else if |s| >= 2 && s[0] == '\\' && s[1] == '/' then "/" + UnescapeSlashes(s[2..])
    else [s[0]] + UnescapeSlashes(s[1..])
  }

  predicate NoBackslash(s: string) {
    forall i :: 0 <= i < |s| ==> s[i] != '\\'
  }

  lemma {:induction false} EscapeAppend(a: string, b: string)
    ensures EscapeSlashes(a + b) == EscapeSlashes(a) + EscapeSlashes(b)
  {
    if b == "" {
      assert a + b == a;
    } else {
      assert (a + b)[..|a + b| - 1] == a + b[..|b| - 1];
      EscapeAppend(a, b[..|b| - 1]);
    }
  }

  lemma EscapeChar(c: char)
    ensures EscapeSlashes([c]) == if c == '/' then "\\/" else [c]
  {
    assert [c][..0] == "" && EscapeSlashes("") == "";
  }

  lemma EscapeOne(c: char, s: string)
    ensures EscapeSlashes([c] + s) == (if c == '/' then "\\/" else [c]) + EscapeSlashes(s)
  {
    hide EscapeSlashes;
    EscapeAppend([c], s);
    EscapeChar(c);
  }

  lemma {:induction false} UnescapeEscaped(s: string)
    requires NoBackslash(s)
    ensures UnescapeSlashes(EscapeSlashes(s)) == s
  {
    if s != "" {
      assert s == [s[0]] + s[1..];
      EscapeOne(s[0], s[1..]);
      UnescapeEscaped(s[1..]);
      var e := EscapeSlashes(s);
      if s[0] == '/' { assert e[2..] == EscapeSlashes(s[1..]); } else { assert e[0] != '\\' && e[1..] == EscapeSlashes(s[1..]); }
    }
  }

  /** Escaping the slashes of the fields is escaping the slashes of the whole text. */
  lemma {:induction false} AndroidEscapesAll(es: seq<Element>)
    requires es != []
    ensures PrintAndroidTail(es) == EscapeSlashes(PrintTail(es))
  {
    hide Print, PrintAndroid;
    AndroidEscapesOne(es[0]);
    if |es| == 1 {
      EscapeAppend(Print(es[0]), "]");
      EscapeOne(']', "");
    } else {
      var tail := PrintTail(es[1..]);
      AndroidEscapesAll(es[1..]);
      EscapeAppend(Print(es[0]), "," + tail);
      EscapeOne(',', tail);
    }
  }

  lemma AndroidEscapesOne(e: Element)
    ensures PrintAndroid(e) == EscapeSlashes(Print(e))
  {
    match e
    case Text(s) =>
      EscapeAppend("\"" + s, "\"");
      EscapeAppend("\"", s);
      EscapeOne('"', "");
    case Number(n) => NothingToEscape(Digits(n));
  }

  lemma {:induction false} NothingToEscape(s: string)
    requires forall i :: 0 <= i < |s| ==> s[i] != '/'
    ensures EscapeSlashes(s) == s
  {
    if s != "" { NothingToEscape(s[..|s| - 1]); }
  }

  lemma {:induction false} PrintedIsPlain(es: seq<Element>)
    requires es != [] && forall i :: 0 <= i < |es| ==> PlainElement(es[i])
    ensures NoBackslash(PrintTail(es))
  {
    var first := Print(es[0]);
    assert NoBackslash(first) by {
      if es[0].Text? { assert forall i :: 0 < i <= |es[0].s| ==>
                first[i] == es[0].s[i - 1] && PlainChar(es[0].s[i - 1]); }
    }
    if |es| > 1 { PrintedIsPlain(es[1..]); }
  }

  /** The bytes Android signs are the bytes the desktop signs. */
  lemma AndroidPrintsTheSame(es: seq<Element>)
    requires es != [] && forall i :: 0 <= i < |es| ==> PlainElement(es[i])
    ensures UnescapeSlashes(PrintAndroidArray(es)) == PrintArray(es)
  {
    AndroidEscapesAll(es);
    PrintedIsPlain(es);
    EscapeOne('[', PrintTail(es));
    UnescapeEscaped(PrintArray(es));
  }

  // ----- size -----

  function Width(e: Element): nat {
    |Print(e)|
  }

  function TotalWidth(es: seq<Element>): nat {
    if es == [] then 0 else Width(es[0]) + 1 + TotalWidth(es[1..])
  }

  lemma {:induction false} PrintedLength(es: seq<Element>)
    requires es != []
    ensures |PrintTail(es)| == TotalWidth(es)
  {
    if |es| > 1 { PrintedLength(es[1..]); }
  }
}
