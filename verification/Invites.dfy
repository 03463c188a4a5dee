/** Serverless invites: the schema, the signed bytes, the link and its parser. */
module Invites {
  import opened Base64
  import opened InviteText
  import opened Numerals
  import opened Prelude
  import opened Uuids

  datatype Prekey = Prekey(id: nat, publicKey: string, signature: string)

  datatype Invite = Invite(publicUid: string, username: string, onion: string, userId: string, deviceId: string,
                           signalDeviceId: nat, registrationId: nat, deviceAuthPublicKey: string, identityPublicKey: string,
                           signedPrekey: Prekey, pqLastResortPrekey: Prekey)

  // ----- the schema -----

  predicate InRange(c: char, classes: seq<(char, char)>) {
    exists i :: 0 <= i < |classes| && classes[i].0 <= c <= classes[i].1
  }

  predicate AllIn(s: string, classes: seq<(char, char)>) {
    forall i :: 0 <= i < |s| ==> InRange(s[i], classes)
  }

  const UPPER_HEX := [('A', 'F'), ('0', '9')]
  const NAME := [('a', 'z'), ('0', '9'), ('_', '_')]
  const BASE32 := [('a', 'z'), ('2', '7')]

  /** CP-XXXX-XXXX. */
  predicate IsPublicUid(s: string) {
    |s| == 12 && s[..3] == "CP-" && s[7] == '-' && AllIn(s[3..7], UPPER_HEX) && AllIn(s[8..], UPPER_HEX)
  }

  predicate IsUsername(s: string) {
    3 <= |s| <= 32 && AllIn(s, NAME)
  }

  predicate IsOnion(s: string) {
    |s| == 62 && AllIn(s[..56], BASE32) && s[56..] == ".onion"
  }

  predicate ValidPrekey(p: Prekey, keyLength: nat) {
    p.id <= 2147483647 && IsBase64(p.publicKey, keyLength) && IsBase64(p.signature, 64)
  }

  predicate Valid(v: Invite) {
    && IsPublicUid(v.publicUid) && IsUsername(v.username) && IsOnion(v.onion) && IsUuid(v.userId) && IsUuid(v.deviceId)
    && 1 <= v.signalDeviceId <= 127 && 1 <= v.registrationId <= 1073741823
    && IsBase64(v.deviceAuthPublicKey, 44) && IsBase64(v.identityPublicKey, 33)
    && ValidPrekey(v.signedPrekey, 33) && ValidPrekey(v.pqLastResortPrekey, 1569)
  }

  // ----- the signed bytes -----

  const HEADER := "cp-invite-v2"

  function Fields(v: Invite): (es: seq<Element>)
    ensures |es| == 16
  {
    [Text(HEADER), Text(v.publicUid), Text(v.username), Text(v.onion), Text(v.userId), Text(v.deviceId),
     Number(v.signalDeviceId), Number(v.registrationId), Text(v.deviceAuthPublicKey), Text(v.identityPublicKey),
     Number(v.signedPrekey.id), Text(v.signedPrekey.publicKey), Text(v.signedPrekey.signature),
     Number(v.pqLastResortPrekey.id), Text(v.pqLastResortPrekey.publicKey), Text(v.pqLastResortPrekey.signature)]
  }

  /** A JSON value of the wrong type fails the schema. */
  predicate HasShape(es: seq<Element>) {
    && |es| == 16 && es[0] == Text(HEADER)
    && forall i :: 0 <= i < 16 ==> (es[i].Number? <==> i in {6, 7, 10, 13})
  }

  function FromFields(es: seq<Element>): Invite
    requires HasShape(es)
  {
    Invite(es[1].s, es[2].s, es[3].s, es[4].s, es[5].s, es[6].n, es[7].n, es[8].s, es[9].s,
           Prekey(es[10].n, es[11].s, es[12].s), Prekey(es[13].n, es[14].s, es[15].s))
  }

  function SigningBytes(v: Invite): string {
    PrintArray(Fields(v))
  }

  /** The array as Android puts it together. */
  function AndroidFields(v: Invite): (es: seq<Element>)
    ensures |es| == 16
  {
    var s, pq := v.signedPrekey, v.pqLastResortPrekey;
    [Text("cp-invite-v2"), Text(v.publicUid), Text(v.username), Text(v.onion), Text(v.userId), Text(v.deviceId),
     Number(v.signalDeviceId), Number(v.registrationId), Text(v.deviceAuthPublicKey), Text(v.identityPublicKey)]
    + [Number(s.id), Text(s.publicKey), Text(s.signature)] + [Number(pq.id), Text(pq.publicKey), Text(pq.signature)]
  }

  /** The Android `canonical`. */
  function AndroidSigningBytes(v: Invite): string {
    UnescapeSlashes(PrintAndroidArray(AndroidFields(v)))
  }

  function Quoted(s: string): string {
    "\"" + s + "\""
  }

  /** A comma before each but the first, and the closing bracket after the last. */
  function Listed(parts: seq<string>): string
    requires parts != []
  {
    parts[0] + if |parts| == 1 then "]" else "," + Listed(parts[1..])
  }

  function Texts(es: seq<Element>): (parts: seq<string>)
    ensures |parts| == |es|
  {
    seq(|es|, i requires 0 <= i < |es| => Print(es[i]))
  }

  lemma {:induction false} TailIsListed(es: seq<Element>)
    requires es != []
    ensures PrintTail(es) == Listed(Texts(es))
  {
    if |es| > 1 {
      TailIsListed(es[1..]);
      assert Texts(es)[1..] == Texts(es[1..]);
    }
  }

  /** What is signed, as text. */
  lemma SigningText(v: Invite)
    ensures SigningBytes(v) == "[" + Listed([
              Quoted("cp-invite-v2"), Quoted(v.publicUid), Quoted(v.username), Quoted(v.onion), Quoted(v.userId),
              Quoted(v.deviceId), Digits(v.signalDeviceId), Digits(v.registrationId), Quoted(v.deviceAuthPublicKey),
              Quoted(v.identityPublicKey), Digits(v.signedPrekey.id), Quoted(v.signedPrekey.publicKey),
              Quoted(v.signedPrekey.signature), Digits(v.pqLastResortPrekey.id), Quoted(v.pqLastResortPrekey.publicKey),
              Quoted(v.pqLastResortPrekey.signature)])
  {
    var es := Fields(v);
    TailIsListed(es);
    hide Listed;
    assert Texts(es) == [
      Print(es[0]), Print(es[1]), Print(es[2]), Print(es[3]), Print(es[4]), Print(es[5]), Print(es[6]), Print(es[7]),
      Print(es[8]), Print(es[9]), Print(es[10]), Print(es[11]), Print(es[12]), Print(es[13]), Print(es[14]), Print(es[15])];
  }

  lemma RangesArePlain(s: string, classes: seq<(char, char)>)
    requires AllIn(s, classes) && (classes == UPPER_HEX || classes == NAME || classes == BASE32)
    ensures Plain(s)
  {
    forall i | 0 <= i < |s| ensures PlainChar(s[i]) {
      assert InRange(s[i], classes);
    }
  }

  lemma Base64IsPlain(s: string, n: nat)
    requires IsBase64(s, n)
    ensures Plain(s) && |s| == (n + 2) / 3 * 4
  {
    EncodeLength(Decode(s), false);
    EncodeAlphabet(Decode(s), false);
    forall i | 0 <= i < |s| ensures PlainChar(s[i]) {
      assert s[i] in s;
    }
  }

  lemma PlainAppend(a: string, b: string)
    requires Plain(a) && Plain(b)
    ensures Plain(a + b)
  {
  }

  lemma UidIsPlain(s: string)
    requires IsPublicUid(s)
    ensures Plain(s)
  {
    RangesArePlain(s[3..7], UPPER_HEX);
    RangesArePlain(s[8..], UPPER_HEX);
    assert s == "CP-" + s[3..7] + "-" + s[8..];
    PlainAppend("CP-", s[3..7]);
    PlainAppend("CP-" + s[3..7], "-");
    PlainAppend("CP-" + s[3..7] + "-", s[8..]);
  }

  lemma OnionIsPlain(s: string)
    requires IsOnion(s)
    ensures Plain(s)
  {
    RangesArePlain(s[..56], BASE32);
    assert s == s[..56] + ".onion";
    PlainAppend(s[..56], ".onion");
  }

  lemma UuidIsPlain(s: string)
    requires IsUuid(s)
    ensures Plain(s)
  {
    forall i | 0 <= i < |s| ensures PlainChar(s[i]) {
      assert s[i] != '-' ==> IsHexDigit(s[i]);
    }
  }

  lemma FieldsArePlain(v: Invite)
    requires Valid(v)
    ensures forall i :: 0 <= i < 16 ==> PlainElement(Fields(v)[i])
  {
    hide IsPublicUid, IsOnion, IsUuid, IsBase64, AllIn;
    UidIsPlain(v.publicUid);
    RangesArePlain(v.username, NAME);
    OnionIsPlain(v.onion);
    UuidIsPlain(v.userId);
    UuidIsPlain(v.deviceId);
    Base64IsPlain(v.deviceAuthPublicKey, 44);
    Base64IsPlain(v.identityPublicKey, 33);
    Base64IsPlain(v.signedPrekey.publicKey, 33);
    Base64IsPlain(v.signedPrekey.signature, 64);
    Base64IsPlain(v.pqLastResortPrekey.publicKey, 1569);
    Base64IsPlain(v.pqLastResortPrekey.signature, 64);
    assert Plain(HEADER);
  }

  lemma SameFields(v: Invite)
    ensures AndroidFields(v) == Fields(v)
  {
  }

  /** Android signs and verifies the same bytes as the desktop. */
  lemma AndroidAgrees(v: Invite)
    requires Valid(v)
    ensures AndroidSigningBytes(v) == SigningBytes(v)
  {
    FieldsArePlain(v);
    SameFields(v);
    hide Valid, Fields, AndroidFields;
    AndroidPrintsTheSame(Fields(v));
  }

  lemma SigningBytesRead(v: Invite)
    requires Valid(v)
    ensures ReadArray(SigningBytes(v)) == Some(Fields(v))
  {
    FieldsArePlain(v);
    ReadPrintedArray(Fields(v));
  }

  /** Different invites are signed as different bytes. */
  lemma SigningBytesAreInjective(v: Invite, w: Invite)
    requires Valid(v) && Valid(w) && SigningBytes(v) == SigningBytes(w)
    ensures v == w
  {
    hide Valid, SigningBytes, Fields, HasShape, FromFields;
    SigningBytesRead(v);
    SigningBytesRead(w);
    FieldsHaveShape(v);
    FieldsHaveShape(w);
  }

  /** They always fit what the parser is willing to inflate. */
  lemma SigningBytesFit(v: Invite)
    requires Valid(v)
    ensures |SigningBytes(v)| <= 8192
  {
    hide IsPublicUid, IsUuid, IsBase64, AllIn;
    var es := Fields(v);
    Base64IsPlain(v.deviceAuthPublicKey, 44);
    Base64IsPlain(v.identityPublicKey, 33);
    Base64IsPlain(v.signedPrekey.publicKey, 33);
    Base64IsPlain(v.signedPrekey.signature, 64);
    Base64IsPlain(v.pqLastResortPrekey.publicKey, 1569);
    Base64IsPlain(v.pqLastResortPrekey.signature, 64);
    forall i | 0 <= i < 16 ensures Width(es[i]) <= if i == 14 then 2094 else 128 {
      if es[i].Number? {
        assert Power10(10) == 10000000000 by { Billions(); }
        DigitsLength(es[i].n, 10);
      } else {
        FieldsAreShort(v, i);
      }
    }
    PrintedLength(es);
    WidthsAdd(es, 14);
  }

  lemma Billions()
    ensures Power10(10) == 10000000000
  {
    assert Power10(5) == 100000;
  }

  lemma FieldsAreShort(v: Invite, i: nat)
    requires Valid(v) && i < 16 && Fields(v)[i].Text? && |v.deviceAuthPublicKey| == 60 && |v.identityPublicKey| == 44
    requires |v.signedPrekey.publicKey| == 44 && |v.signedPrekey.signature| == 88
    requires |v.pqLastResortPrekey.publicKey| == 2092 && |v.pqLastResortPrekey.signature| == 88
    ensures Width(Fields(v)[i]) <= if i == 14 then 2094 else 128
  {
    hide IsBase64, AllIn;
  }

  lemma {:induction false} WidthsAdd(es: seq<Element>, long: int)
    requires forall i :: 0 <= i < |es| ==> Width(es[i]) <= if i == long then 2094 else 128
    ensures TotalWidth(es) <= 129 * |es| + if 0 <= long < |es| then 1966 else 0
  {
    if es != [] { WidthsAdd(es[1..], long - 1); }
  }

  // ----- the link -----

  /** The seed of an Ed25519 key. */
  type PrivateKey = k: Bytes | |k| == 32 witness seq(32, _ => 0)

  /** Compression and signatures, as functions. `publicOf` is the encoded public key. */
  datatype Crypto = Crypto(deflate: string -> Bytes, inflate: Bytes -> Option<string>, publicOf: PrivateKey -> string,
      sign: (PrivateKey, string) -> Bytes, verify: (string, string, Bytes) -> bool)

  /**
   Inflating undoes deflating; a signature has 64 bytes and verifies, for the bytes that
   were signed, under exactly the public key of its signer.
   */
  ghost predicate Ideal(c: Crypto) {
    && (forall s :: c.inflate(c.deflate(s)) == Some(s) && c.deflate(s) != [])
    && (forall k, s :: |c.sign(k, s)| == 64)
    && (forall k, s, pub :: c.verify(pub, s, c.sign(k, s)) <==> pub == c.publicOf(k))
  }

  datatype Failure = InviteTooLarge | InvalidInvite | InvalidSignature

  const PREFIX := "pigeon://invite?v=2&data="
  const MIDDLE := "&sig="

  function Link(c: Crypto, k: PrivateKey, bytes: string): string {
    PREFIX + Encode(c.deflate(bytes), true) + MIDDLE + Encode(c.sign(k, bytes), true)
  }

  function CreateInvite(c: Crypto, k: PrivateKey, v: Invite): Result<string, Failure> {
    if !Valid(v) then Err(InvalidInvite)
    else
      var link := Link(c, k, SigningBytes(v));
      if |link| > 2953 then Err(InviteTooLarge) else Ok(link)
  }

  function IndexOf(s: string, c: char): (i: nat)
    ensures i <= |s| && (forall j :: 0 <= j < i ==> s[j] != c) && (i < |s| ==> s[i] == c)
  {
    if s == "" || s[0] == c then 0 else 1 + IndexOf(s[1..], c)
  }

  function Split(s: string, c: char): seq<string> {
    var i := IndexOf(s, c);
    if i == |s| then [s] else [s[..i]] + Split(s[i + 1..], c)
  }

  /** The value of the first pair with this key. */
  function Get(pairs: seq<string>, key: string): Option<string> {
    if pairs == [] then None
    else
      var i := IndexOf(pairs[0], '=');
      if i < |pairs[0]| && pairs[0][..i] == key then Some(pairs[0][i + 1..]) else Get(pairs[1..], key)
  }

  predicate UrlText(s: string) {
    s != "" && forall i :: 0 <= i < |s| ==> InAlphabet(s[i], true)
  }

  const SCHEME := "pigeon://invite?"

  /** The data and the signature of a well-formed link. */
  function ReadLink(link: string): Option<(string, string)> {
    if |link| > 4096 || |link| < |SCHEME| || link[..|SCHEME|] != SCHEME then None
    else
      var pairs := Split(link[|SCHEME|..], '&');
      var v, data, sig := Get(pairs, "v"), Get(pairs, "data"), Get(pairs, "sig");
      if |pairs| != 3 || v != Some("2") || data.None? || sig.None? || !UrlText(data.value) || !UrlText(sig.value) || |sig.value| != 86
      then None else Some((data.value, sig.value))
  }

  function ParseInvite(c: Crypto, link: string): Result<Invite, Failure> {
    var parts := ReadLink(link);
    if parts.None? then Err(InvalidInvite) else
    var raw := c.inflate(Decode(parts.value.0));
    if raw.None? || |raw.value| > 8192 then Err(InvalidInvite) else
    var es := ReadArray(raw.value);
    if es.None? || !HasShape(es.value) || !Valid(FromFields(es.value)) then Err(InvalidInvite) else
    var v := FromFields(es.value);
    if !c.verify(v.deviceAuthPublicKey, SigningBytes(v), Decode(parts.value.1)) then Err(InvalidSignature) else Ok(v)
  }

  // ----- the round trip -----

  lemma IndexFound(a: string, c: char, rest: string)
    requires forall j :: 0 <= j < |a| ==> a[j] != c
    ensures IndexOf(a + [c] + rest, c) == |a|
  {
    var all := a + [c] + rest;
    assert all[|a|] == c && forall j :: 0 <= j < |a| ==> all[j] == a[j];
  }

  lemma SplitAt(a: string, c: char, rest: string)
    requires forall j :: 0 <= j < |a| ==> a[j] != c
    ensures Split(a + [c] + rest, c) == [a] + Split(rest, c)
  {
    IndexFound(a, c, rest);
    assert (a + [c] + rest)[..|a|] == a && (a + [c] + rest)[|a| + 1..] == rest;
  }

  lemma SplitLast(a: string, c: char)
    requires forall j :: 0 <= j < |a| ==> a[j] != c
    ensures Split(a, c) == [a]
  {
  }

  lemma UrlTextOf(b: Bytes)
    requires b != []
    ensures UrlText(Encode(b, true)) && |Encode(b, true)| == (|b| * 4 + 2) / 3
    ensures Without(Encode(b, true), '&')
  {
    EncodeLength(b, true);
    EncodeAlphabet(b, true);
    var s := Encode(b, true);
    forall i | 0 <= i < |s| ensures InAlphabet(s[i], true) { assert s[i] in s; }
  }

  predicate Without(s: string, c: char) {
    forall j :: 0 <= j < |s| ==> s[j] != c
  }

  lemma ThreeParts(a: string, b: string, d: string, c: char)
    requires Without(a, c) && Without(b, c) && Without(d, c)
    ensures Split(a + [c] + (b + [c] + d), c) == [a, b, d]
  {
    hide Split;
    SplitAt(a, c, b + [c] + d);
    SplitAt(b, c, d);
    SplitLast(d, c);
  }

  lemma QuerySplits(data: string, sig: string)
    requires Without(data, '&') && Without(sig, '&')
    ensures Split("v=2&data=" + data + MIDDLE + sig, '&') == ["v=2", "data=" + data, "sig=" + sig]
  {
    hide Split;
    var d, s := "data=" + data, "sig=" + sig;
    assert forall j :: 5 <= j < |d| ==> d[j] == data[j - 5];
    assert forall j :: 4 <= j < |s| ==> s[j] == sig[j - 4];
    ThreeParts("v=2", d, s, '&');
    QueryText(data, sig);
  }

  lemma QueryText(data: string, sig: string)
    ensures "v=2&data=" + data + MIDDLE + sig == "v=2" + ['&'] + (("data=" + data) + ['&'] + ("sig=" + sig))
  {
  }

  lemma PairRead(key: string, value: string, rest: seq<string>)
    requires Without(key, '=')
    ensures Get([key + "=" + value] + rest, key) == Some(value)
    ensures forall other: string :: other != key ==> Get([key + "=" + value] + rest, other) == Get(rest, other)
  {
    var pair := key + "=" + value;
    IndexFound(key, '=', value);
    assert pair[..|key|] == key && pair[|key| + 1..] == value;
    assert ([pair] + rest)[1..] == rest;
  }

  lemma PairsRead(data: string, sig: string)
    ensures var pairs := ["v=2", "data=" + data, "sig=" + sig];
            Get(pairs, "v") == Some("2") && Get(pairs, "data") == Some(data) && Get(pairs, "sig") == Some(sig)
  {
    hide Get;
    var last := ["sig" + "=" + sig];
    var two := ["data" + "=" + data] + last;
    assert "v" + "=" + "2" == "v=2" && "data" + "=" == "data=" && "sig" + "=" == "sig=";
    assert ["v=2", "data=" + data, "sig=" + sig] == ["v" + "=" + "2"] + two;
    assert last == last + [];
    PairRead("sig", sig, []);
    PairRead("data", data, last);
    PairRead("v", "2", two);
  }

  lemma LinkReadsBack(data: string, sig: string)
    requires UrlText(data) && UrlText(sig) && Without(data, '&') && Without(sig, '&') && |sig| == 86
    requires |PREFIX + data + MIDDLE + sig| <= 4096
    ensures ReadLink(PREFIX + data + MIDDLE + sig) == Some((data, sig))
  {
    hide Split, Get, UrlText;
    var link := PREFIX + data + MIDDLE + sig;
    assert link[..|SCHEME|] == SCHEME && link[|SCHEME|..] == "v=2&data=" + data + MIDDLE + sig;
    QuerySplits(data, sig);
    PairsRead(data, sig);
  }

  lemma CreatedLinkReadsBack(c: Crypto, k: PrivateKey, bytes: string)
    requires Ideal(c) && |Link(c, k, bytes)| <= 2953
    ensures ReadLink(Link(c, k, bytes)) == Some((Encode(c.deflate(bytes), true), Encode(c.sign(k, bytes), true)))
  {
    hide ReadLink, Encode, UrlText, Without;
    UrlTextOf(c.deflate(bytes));
    UrlTextOf(c.sign(k, bytes));
    LinkReadsBack(Encode(c.deflate(bytes), true), Encode(c.sign(k, bytes), true));
  }

  lemma FieldsHaveShape(v: Invite)
    ensures HasShape(Fields(v)) && FromFields(Fields(v)) == v
  {
  }

  /**
   The round trip: parsing a created link gives back the invite if, and only if, it was
   signed with the key whose public half the invite names; otherwise the signature, and
   nothing else, is refused.
   */
  lemma ParsingCreatedInvite(c: Crypto, k: PrivateKey, v: Invite)
    requires Ideal(c) && CreateInvite(c, k, v).Ok?
    ensures ParseInvite(c, CreateInvite(c, k, v).value) ==
            if v.deviceAuthPublicKey == c.publicOf(k) then Ok(v) else Err(InvalidSignature)
  {
    hide Valid, ReadLink, Link, Encode, Decode, ReadArray, SigningBytes, HasShape, FromFields, Fields;
    var bytes := SigningBytes(v);
    CreatedLinkReadsBack(c, k, bytes);
    DecodeEncode(c.deflate(bytes), true);
    DecodeEncode(c.sign(k, bytes), true);
    SigningBytesRead(v);
    SigningBytesFit(v);
    FieldsHaveShape(v);
  }

  /** The invite of a device names the public half of the key that signs it. */
  function OwnInvite(c: Crypto, k: PrivateKey, v: Invite): Result<string, Failure> {
    CreateInvite(c, k, v.(deviceAuthPublicKey := c.publicOf(k)))
  }

  /** So every link a device creates of itself is understood by whoever parses it. */
  lemma OwnInviteParses(c: Crypto, k: PrivateKey, v: Invite)
    requires Ideal(c) && OwnInvite(c, k, v).Ok?
    ensures ParseInvite(c, OwnInvite(c, k, v).value) == Ok(v.(deviceAuthPublicKey := c.publicOf(k)))
  {
    ParsingCreatedInvite(c, k, v.(deviceAuthPublicKey := c.publicOf(k)));
  }

  /** What the parser accepts is a valid invite whose own key signed exactly these bytes. */
  lemma AcceptedInvitesAreSigned(c: Crypto, link: string)
    requires ParseInvite(c, link).Ok?
    ensures var v := ParseInvite(c, link).value;
            Valid(v) && ReadLink(link).Some? && c.verify(v.deviceAuthPublicKey, SigningBytes(v),
                Decode(ReadLink(link).value.1))
  {
  }
}
