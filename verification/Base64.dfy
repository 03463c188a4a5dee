/** Base64 with both alphabets (RFC 4648, sections 4 and 5). */
module Base64 {
  import opened Prelude

  type Byte = b: nat | b < 256
  type Bytes = seq<Byte>
  type Sextet = v: nat | v < 64

  function Char(v: Sextet, url: bool): char {
    if v < 26 then ('A' as int + v) as char
    else if v < 52 then ('a' as int + (v - 26)) as char
    else if v < 62 then ('0' as int + (v - 52)) as char
    else if v == 62 then (if url then '-' else '+')
    else (if url then '_' else '/')
  }

  predicate InAlphabet(c: char, url: bool) {
    'A' <= c <= 'Z' || 'a' <= c <= 'z' || '0' <= c <= '9' || (if url then c == '-' || c == '_' else c == '+' || c == '/')
  }

  /** Decoding takes either alphabet. */
  function Value(c: char): Sextet {
    if 'A' <= c <= 'Z' then c as int - 'A' as int
    else if 'a' <= c <= 'z' then c as int - 'a' as int + 26
    else if '0' <= c <= '9' then c as int - '0' as int + 52
    else if c == '-' || c == '+' then 62
    else 63
  }

  lemma ValueOfChar(v: Sextet, url: bool)
    ensures Value(Char(v, url)) == v && InAlphabet(Char(v, url), url) && Char(v, url) != '='
  {
  }

  function Padding(n: nat, url: bool): string {
    if url then "" else if n == 1 then "=" else "=="
  }

  function Encode(b: Bytes, url: bool): string {
    if |b| == 0 then ""
    else if |b| == 1 then [Char(b[0] / 4, url), Char(b[0] % 4 * 16, url)] + Padding(2, url)
    else
      var first, second := Char(b[0] / 4, url), Char(b[0] % 4 * 16 + b[1] / 16, url);
      if |b| == 2 then [first, second, Char(b[1] % 16 * 4, url)] + Padding(1, url)
      else [first, second, Char(b[1] % 16 * 4 + b[2] / 64, url), Char(b[2] % 64, url)] + Encode(b[3..], url)
  }

  /** Stops at padding and drops what does not fill a byte. */
  function Decode(s: string): Bytes {
    if |s| < 2 then [] else
    var a, b := Value(s[0]), Value(s[1]);
    var first: Byte := a * 4 + b / 16;
    if |s| == 2 || s[2] == '=' then [first] else
    var c := Value(s[2]);
    var second: Byte := b % 16 * 16 + c / 4;
    if |s| == 3 || s[3] == '=' then [first, second] else
    var third: Byte := c % 4 * 64 + Value(s[3]);
    [first, second, third] + Decode(s[4..])
  }

  lemma DecodeGroup(x: Byte, y: Byte, z: Byte, rest: string, url: bool)
    ensures var group := [Char(x / 4, url), Char(x % 4 * 16 + y / 16, url), Char(y % 16 * 4 + z / 64, url), Char(z % 64, url)];
            Decode(group + rest) == [x, y, z] + Decode(rest)
  {
    forall v: Sextet ensures Value(Char(v, url)) == v && Char(v, url) != '=' { ValueOfChar(v, url); }
    hide Char, Value;
    var group := [Char(x / 4, url), Char(x % 4 * 16 + y / 16, url), Char(y % 16 * 4 + z / 64, url), Char(z % 64, url)];
    assert (group + rest)[4..] == rest;
  }

  lemma DecodeTail(b: Bytes, url: bool)
    requires |b| < 3
    ensures Decode(Encode(b, url)) == b
  {
    forall v: Sextet ensures Value(Char(v, url)) == v && Char(v, url) != '=' { ValueOfChar(v, url); }
    hide Char, Value;
    assert b == if |b| == 0 then [] else if |b| == 1 then [b[0]] else [b[0], b[1]];
  }

  /** Decoding gives back what was encoded, with either alphabet. */
  lemma {:induction false} DecodeEncode(b: Bytes, url: bool)
    ensures Decode(Encode(b, url)) == b
  {
    if |b| < 3 {
      DecodeTail(b, url);
    } else {
      hide Char, Value, Decode;
      DecodeGroup(b[0], b[1], b[2], Encode(b[3..], url), url);
      DecodeEncode(b[3..], url);
      assert b == [b[0], b[1], b[2]] + b[3..];
    }
  }

  lemma {:induction false} EncodeLength(b: Bytes, url: bool)
    ensures |Encode(b, url)| == if url then (|b| * 4 + 2) / 3 else (|b| + 2) / 3 * 4
  {
    hide Char;
    if |b| >= 3 { EncodeLength(b[3..], url); }
  }

  /** Padding stands at the end only. */
  lemma {:induction false} EncodeAlphabet(b: Bytes, url: bool)
    ensures forall c :: c in Encode(b, url) ==> InAlphabet(c, url) || (!url && c == '=')
  {
    forall v: Sextet ensures InAlphabet(Char(v, url), url) { ValueOfChar(v, url); }
    hide Char, InAlphabet;
    if |b| >= 3 { EncodeAlphabet(b[3..], url); }
  }

  /**
   The check `decode(s).length === n && encode(decode(s)) === s`: such a text is the one
   encoding of n bytes.
   */
  predicate IsBase64(s: string, n: nat) {
    |Decode(s)| == n && Encode(Decode(s), false) == s
  }

  lemma IsBase64Exactly(s: string, n: nat)
    ensures IsBase64(s, n) <==> exists b: Bytes :: |b| == n && Encode(b, false) == s
  {
    forall b: Bytes | Encode(b, false) == s ensures Decode(s) == b { DecodeEncode(b, false); }
  }
}
