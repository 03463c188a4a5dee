/**
 One invite, two keys: the assumptions about compression and signatures can be met, the
 link signed with the device's own key parses back, and the one signed with another key
 is refused.
 */
module InviteExample {
  import opened Base64
  import opened Prelude
  import opened Invites
  import opened Uuids

  function Zeros(n: nat): (b: Bytes)
    ensures |b| == n
  {
    seq(n, _ => 0)
  }

  // ----- a compression and a signature scheme that meet the assumptions -----

  function TextBytes(s: string): Bytes {
    if s == "" then [] else
    var c := s[0] as int;
    [c / 0x1_0000, c / 256 % 256, c % 256] + TextBytes(s[1..])
  }

  function BytesText(b: Bytes): Option<string> {
    if b == [] then Some("")
    else if |b| < 3 then None
    else
      var c := (b[0] as int * 256 + b[1]) * 256 + b[2];
      var rest := BytesText(b[3..]);
      if rest.None? || !(c < 0xD800 || 0xE000 <= c < 0x11_0000) then None else Some([c as char] + rest.value)
  }

  lemma {:induction false} TextRoundTrip(s: string)
    ensures BytesText(TextBytes(s)) == Some(s)
  {
    if s != "" {
      TextRoundTrip(s[1..]);
      assert TextBytes(s)[3..] == TextBytes(s[1..]);
      assert s == [s[0]] + s[1..];
    }
  }

  /** Compresses one text well and the others not at all; signs by showing the key. */
  function Plainest(short: string): Crypto {
    Crypto((s: string) => if s == short then [0] else [1] + TextBytes(s),
           (b: Bytes) => if b == [0] then Some(short) else if b != [] && b[0] == 1 then BytesText(b[1..]) else None,
           (k: PrivateKey) => Encode(k + Zeros(12), false),
           (k: PrivateKey, s: string) => k + Zeros(32),
           (pub: string, s: string, sig: Bytes) => |sig| == 64 && Encode(sig[..32] + Zeros(12), false) == pub)
  }

  lemma PlainestIsIdeal(short: string)
    ensures Ideal(Plainest(short))
  {
    var c := Plainest(short);
    forall s ensures c.inflate(c.deflate(s)) == Some(s) && c.deflate(s) != [] {
      TextRoundTrip(s);
      assert ([1] + TextBytes(s))[1..] == TextBytes(s);
    }
    forall k, s, pub ensures c.verify(pub, s, c.sign(k, s)) <==> pub == c.publicOf(k) {
      assert (k + Zeros(32))[..32] == k;
    }
  }

  // ----- one invite -----

  const MINE: PrivateKey := Zeros(32)
  const OTHER: PrivateKey := seq(32, _ => 1)

  const USER := seq(36, i => if DashAt(i) then '-' else '8')

  const SOMEONE := Invite("CP-" + seq(4, _ => 'A') + "-" + seq(4, _ => 'A'), seq(3, _ => 'a'), seq(56, _ => 'a') + ".onion",
                          USER, USER, 1, 42, Encode(MINE + Zeros(12), false), Encode(Zeros(33), false),
                          Prekey(7, Encode(Zeros(33), false), Encode(Zeros(64), false)),
                          Prekey(8, Encode(Zeros(1569), false), Encode(Zeros(64), false)))

  lemma Encoded(b: Bytes)
    ensures IsBase64(Encode(b, false), |b|)
  {
    DecodeEncode(b, false);
  }

  lemma AllOne(c: char, n: nat, classes: seq<(char, char)>, j: nat)
    requires j < |classes| && classes[j].0 <= c <= classes[j].1
    ensures AllIn(seq(n, _ => c), classes)
  {
  }

  lemma SomeoneHasUid()
    ensures IsPublicUid(SOMEONE.publicUid)
  {
    AllOne('A', 4, UPPER_HEX, 0);
    var s, part := SOMEONE.publicUid, seq(4, _ => 'A');
    assert s[..3] == "CP-" && s[3..7] == part && s[8..] == part;
  }

  lemma SomeoneHasOnion()
    ensures IsOnion(SOMEONE.onion)
  {
    AllOne('a', 56, BASE32, 0);
    assert SOMEONE.onion[..56] == seq(56, _ => 'a');
  }

  lemma UserHasUuid()
    ensures IsUuid(USER)
  {
  }

  lemma SomeoneIsValid()
    ensures Valid(SOMEONE)
  {
    hide IsPublicUid, IsOnion, IsUuid, IsBase64, Encode, AllIn, PREFIX, MIDDLE, SCHEME;
    SomeoneHasUid();
    AllOne('a', 3, NAME, 0);
    SomeoneHasOnion();
    UserHasUuid();
    Encoded(MINE + Zeros(12));
    Encoded(Zeros(33));
    Encoded(Zeros(64));
    Encoded(Zeros(1569));
  }

  /** The publicly known half of `MINE`, and of no other key. */
  lemma KeysDiffer(c: Crypto)
    requires c == Plainest(SigningBytes(SOMEONE))
    ensures c.publicOf(MINE) == SOMEONE.deviceAuthPublicKey != c.publicOf(OTHER)
  {
    DecodeEncode(MINE + Zeros(12), false);
    DecodeEncode(OTHER + Zeros(12), false);
    assert (MINE + Zeros(12))[0] != (OTHER + Zeros(12))[0];
  }

  lemma LinkIsShort(c: Crypto, k: PrivateKey)
    requires c == Plainest(SigningBytes(SOMEONE))
    ensures CreateInvite(c, k, SOMEONE) == Ok(Link(c, k, SigningBytes(SOMEONE)))
  {
    hide SigningBytes, Valid, Encode;
    SomeoneIsValid();
    EncodeLength(c.deflate(SigningBytes(SOMEONE)), true);
    EncodeLength(c.sign(k, SigningBytes(SOMEONE)), true);
  }

  /**
   The same invite signed with both keys: both links are created, the first is understood
   and the second refused.
   */
  lemma OtherKeyIsRefused(c: Crypto)
    requires c == Plainest(SigningBytes(SOMEONE))
    ensures Ideal(c) && CreateInvite(c, MINE, SOMEONE).Ok? && CreateInvite(c, OTHER, SOMEONE).Ok?
    ensures ParseInvite(c, CreateInvite(c, MINE, SOMEONE).value) == Ok(SOMEONE)
    ensures ParseInvite(c, CreateInvite(c, OTHER, SOMEONE).value) == Err(InvalidSignature)
  {
    hide SigningBytes, CreateInvite, ParseInvite, Ideal, Link;
    PlainestIsIdeal(SigningBytes(SOMEONE));
    KeysDiffer(c);
    LinkIsShort(c, MINE);
    LinkIsShort(c, OTHER);
    ParsingCreatedInvite(c, MINE, SOMEONE);
    ParsingCreatedInvite(c, OTHER, SOMEONE);
  }
}
