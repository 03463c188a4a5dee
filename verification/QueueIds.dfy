/**
 How the relay queue names an envelope: a UUID column filled from 32 hexadecimal digits,
 and turned back into digits for the recipient.
 */
module QueueIds {
  import opened Uuids

  predicate IsHex32(s: string) {
    |s| == 32 && forall i :: 0 <= i < 32 ==> IsHexDigit(s[i])
  }

  function Lower(c: char): char {
    if 'A' <= c <= 'Z' then (c as int + 32) as char else c
  }

  function ToLower(s: string): (r: string)
    ensures |r| == |s| && forall i :: 0 <= i < |s| ==> r[i] == Lower(s[i])
  {
    seq(|s|, i requires 0 <= i < |s| => Lower(s[i]))
  }

  lemma DashInUuid(id: string)
    ensures IsUuid(id) ==> '-' in id
  {
    if IsUuid(id) { assert id[8] == '-'; }
  }

  function HexToUuid(id: string): string
    requires IsHex32(id) || IsUuid(id)
  {
    DashInUuid(id);
    if '-' in id then id else ToLower(Dashed(id))
  }

  function Dashed(id: string): string
    requires |id| == 32
  {
    id[..8] + "-" + id[8..12] + "-" + id[12..16] + "-" + id[16..20] + "-" + id[20..32]
  }

  /** `replace(/-/g, '')`. */
  function WithoutDashes(s: string): string {
    if s == "" then "" else
    var before, c := WithoutDashes(s[..|s| - 1]), s[|s| - 1];
    if c == '-' then before else before + [c]
  }

  function UuidToHex(uuid: string): string {
    ToLower(WithoutDashes(uuid))
  }

  lemma {:induction false} DashesAppend(a: string, b: string)
    ensures WithoutDashes(a + b) == WithoutDashes(a) + WithoutDashes(b)
  {
    if b == "" {
      assert a + b == a;
    } else {
      assert (a + b)[..|a + b| - 1] == a + b[..|b| - 1];
      DashesAppend(a, b[..|b| - 1]);
    }
  }

  lemma {:induction false} NoDashes(s: string)
    requires '-' !in s
    ensures WithoutDashes(s) == s
  {
    if s != "" { NoDashes(s[..|s| - 1]); }
  }

  lemma {:induction false} LowerDashes(s: string)
    ensures WithoutDashes(ToLower(s)) == ToLower(WithoutDashes(s))
  {
    if s != "" {
      var n := |s| - 1;
      LowerDashes(s[..n]);
      assert ToLower(s)[..n] == ToLower(s[..n]);
    }
  }

  lemma FiveParts(a: string, b: string, c: string, d: string, e: string)
    requires '-' !in a && '-' !in b && '-' !in c && '-' !in d && '-' !in e
    ensures WithoutDashes(a + "-" + b + "-" + c + "-" + d + "-" + e) == a + b + c + d + e
  {
    NoDashes(a);
    NoDashes(b);
    NoDashes(c);
    NoDashes(d);
    NoDashes(e);
    assert WithoutDashes("-") == "" by { assert "-"[..0] == ""; }
    DashesAppend(a, "-");
    DashesAppend(a + "-", b);
    DashesAppend(a + "-" + b, "-");
    DashesAppend(a + "-" + b + "-", c);
    DashesAppend(a + "-" + b + "-" + c, "-");
    DashesAppend(a + "-" + b + "-" + c + "-", d);
    DashesAppend(a + "-" + b + "-" + c + "-" + d, "-");
    DashesAppend(a + "-" + b + "-" + c + "-" + d + "-", e);
  }

  lemma {:induction false} LengthWithoutDashes(s: string)
    ensures |WithoutDashes(s)| <= |s|
  {
    if s != "" { LengthWithoutDashes(s[..|s| - 1]); }
  }

  lemma {:induction false} ShorterWithDash(s: string)
    requires '-' in s
    ensures |WithoutDashes(s)| < |s|
  {
    if s[|s| - 1] != '-' { ShorterWithDash(s[..|s| - 1]); } else { LengthWithoutDashes(s[..|s| - 1]); }
  }

  lemma HexRoundTrip(id: string)
    requires IsHex32(id)
    ensures UuidToHex(HexToUuid(id)) == ToLower(id)
  {
    var a, b, c, d, e := id[..8], id[8..12], id[12..16], id[16..20], id[20..32];
    assert id == a + b + c + d + e;
    FiveParts(a, b, c, d, e);
    LowerDashes(a + "-" + b + "-" + c + "-" + d + "-" + e);
    assert ToLower(ToLower(id)) == ToLower(id);
  }

  /**
   The recipient sees the id the sender chose exactly when that was 32 lower-case hex
   digits. An id in UUID form comes back without its dashes, under another name than a
   copy delivered directly.
   */
  lemma IdSurvivesIff(id: string)
    requires IsHex32(id) || IsUuid(id)
    ensures UuidToHex(HexToUuid(id)) == id <==> IsHex32(id) && forall i :: 0 <= i < 32 ==> !('A' <= id[i] <= 'F')
    ensures HasUuidForm(HexToUuid(id))
  {
    if IsHex32(id) {
      HexRoundTrip(id);
      DashedHasForm(id);
      assert ToLower(id) == id <==> forall i :: 0 <= i < 32 ==> Lower(id[i]) == id[i];
    } else {
      assert id[8] == '-';
      ShorterWithDash(id);
    }
  }

  lemma DashedHasForm(id: string)
    requires IsHex32(id)
    ensures HasUuidForm(ToLower(Dashed(id)))
  {
    forall i | 0 <= i < 36 ensures if DashAt(i) then Dashed(id)[i] == '-' else IsHexDigit(Dashed(id)[i]) {
      var j := if i < 8 then i else if i < 13 then i - 1 else if i < 18 then i - 2 else if i < 23 then i - 3 else i - 4;
      if !DashAt(i) { assert Dashed(id)[i] == id[j]; }
    }
  }

  /** The same digit, in whatever case. */
  predicate SameDigit(c: char, d: char) {
    c == d || ('a' <= c <= 'f' && c as int == d as int + 32) || ('a' <= d <= 'f' && d as int == c as int + 32)
  }

  lemma SameLower(a: string, b: string)
    requires IsHex32(a) && IsHex32(b)
    ensures ToLower(a) == ToLower(b) <==> forall i :: 0 <= i < 32 ==> SameDigit(a[i], b[i])
  {
    forall i | 0 <= i < 32 ensures SameDigit(a[i], b[i]) <==> ToLower(a)[i] == ToLower(b)[i] {
      LowerDigits(a[i], b[i]);
    }
    assert ToLower(a) == ToLower(b) <==> forall i :: 0 <= i < 32 ==> ToLower(a)[i] == ToLower(b)[i];
  }

  lemma LowerDigits(c: char, d: char)
    requires IsHexDigit(c) && IsHexDigit(d)
    ensures SameDigit(c, d) <==> Lower(c) == Lower(d)
  {
  }

  /** Two envelopes share a row only if their ids differ in nothing but case. */
  lemma RowsAreDistinct(a: string, b: string)
    requires IsHex32(a) && IsHex32(b)
    ensures HexToUuid(a) == HexToUuid(b) <==> forall i :: 0 <= i < 32 ==> SameDigit(a[i], b[i])
  {
    SameLower(a, b);
    hide ToLower, SameDigit, Dashed;
    HexRoundTrip(a);
    HexRoundTrip(b);
    DashedLower(a);
    DashedLower(b);
  }

  lemma LowerAppend(a: string, b: string)
    ensures ToLower(a + b) == ToLower(a) + ToLower(b)
  {
  }

  lemma DashedLower(id: string)
    requires |id| == 32
    ensures ToLower(Dashed(id)) == Dashed(ToLower(id))
  {
    var a, b, c, d, e := id[..8], id[8..12], id[12..16], id[16..20], id[20..32];
    var l := ToLower(id);
    assert l[..8] == ToLower(a) && l[8..12] == ToLower(b) && l[12..16] == ToLower(c) && l[16..20] == ToLower(d) && l[20..32] == ToLower(e);
    hide ToLower;
    LowerAppend(a, "-");
    LowerAppend(a + "-", b);
    LowerAppend(a + "-" + b, "-");
    LowerAppend(a + "-" + b + "-", c);
    LowerAppend(a + "-" + b + "-" + c, "-");
    LowerAppend(a + "-" + b + "-" + c + "-", d);
    LowerAppend(a + "-" + b + "-" + c + "-" + d, "-");
    LowerAppend(a + "-" + b + "-" + c + "-" + d + "-", e);
    assert ToLower("-") == "-" by { LowerDash(); }
  }

  lemma LowerDash()
    ensures ToLower("-") == "-"
  {
  }
}
