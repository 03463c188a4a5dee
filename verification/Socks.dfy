/**
 The SOCKS5 handshake of the Tor transport (RFC 1928, sections 3 and 6), read from a
 socket whose packets split the stream anywhere.
 */
module Socks {
  import opened Prelude

  type Byte = b: nat | b < 256
  type Bytes = seq<Byte>

  datatype Address = V4(bytes: Bytes) | Domain(bytes: Bytes) | V6(bytes: Bytes) {
    predicate WellFormed() {
      match this
      case V4(b) => |b| == 4
      case Domain(b) => |b| <= 255
      case V6(b) => |b| == 16
    }
  }

  /** A success reply of section 6; the reserved byte is not looked at. */
  datatype Success = Success(reserved: Byte, bound: Address, port: Bytes) {
    predicate WellFormed() {
      bound.WellFormed() && |port| == 2
    }
  }

  const METHOD_REPLY: Bytes := [5, 0]

  function AddressType(a: Address): Byte {
    match a
    case V4(_) => 1
    case Domain(_) => 3
    case V6(_) => 4
  }

  /** A domain name is preceded by its length. */
  function AddressBytes(a: Address): Bytes
    requires a.WellFormed()
  {
    if a.Domain? then [|a.bytes|] + a.bytes else a.bytes
  }

  /** Section 6: VER REP RSV ATYP BND.ADDR BND.PORT. */
  function Encode(r: Success): Bytes
    requires r.WellFormed()
  {
    [5, 0, r.reserved, AddressType(r.bound)] + AddressBytes(r.bound) + r.port
  }

  /** The stream starts with what a SOCKS server sends on success, and `rest` follows. */
  ghost predicate Accepts(stream: Bytes, rest: Bytes) {
    exists r: Success :: r.WellFormed() && stream == METHOD_REPLY + Encode(r) + rest
  }

  datatype Failure = AuthFailed | PeerOffline | Invalid | Broken

  function Concat(packets: seq<Bytes>): Bytes {
    if packets == [] then [] else packets[0] + Concat(packets[1..])
  }

  class Socket {
    var buffered: Bytes
    var incoming: seq<Bytes>      // packets not yet delivered; the connection closes after them
    var written: Bytes

    constructor (packets: seq<Bytes>)
      ensures buffered == [] && incoming == packets && written == []
    {
      buffered, incoming, written := [], packets, [];
    }

    /** Everything that is still to be read. */
    function Stream(): Bytes
      reads this
    {
      buffered + Concat(incoming)
    }

    /** Takes exactly `n` bytes off the stream, waiting for packets as long as needed. */
    method Read(n: nat) returns (b: Option<Bytes>)
      modifies this`buffered, this`incoming
      ensures b.Some? <==> n <= |old(Stream())|
      ensures b.Some? ==> |b.value| == n && b.value == old(Stream())[..n] && Stream() == old(Stream())[n..]
    {
      while |buffered| < n
        invariant Stream() == old(Stream())
        decreases |incoming|
      {
        if incoming == [] { return None; }
        assert buffered + (incoming[0] + Concat(incoming[1..])) == buffered + incoming[0] + Concat(incoming[1..]);
        buffered, incoming := buffered + incoming[0], incoming[1..];
      }
      b := Some(buffered[..n]);
      assert Stream()[..n] == buffered[..n] && Stream()[n..] == buffered[n..] + Concat(incoming);
      buffered := buffered[n..];
    }

    /** The exchange itself: it ends where the first bytes of the reply say, or fails for a reason of its own. */
    method Handshake(host: Bytes, portHigh: Byte, portLow: Byte) returns (r: Result<Bytes, Failure>)
      requires |host| <= 255
      modifies this
      ensures var s := old(Stream());
              && (r.Ok? <==> End(s).Some? && End(s).value <= |s|)
              && (r.Ok? ==> r.value == Stream() == s[End(s).value..])
              && (r == Err(AuthFailed) <==> |s| >= 2 && !(s[0] == 5 && s[1] == 0))
              && (r == Err(PeerOffline) <==> |s| >= 6 && s[0] == 5 && s[1] == 0 && !(s[2] == 5 && s[3] == 0))
              && (r == Err(Invalid) <==>
                    |s| >= 6 && s[0] == 5 && s[1] == 0 && s[2] == 5 && s[3] == 0 && s[5] !in {1, 3, 4})
      ensures r == Err(AuthFailed) ==> written == old(written) + [5, 1, 0]
      ensures r.Ok? ==> written == old(written) + [5, 1, 0] + [5, 1, 0, 3, |host|] + host + [portHigh, portLow]
    {
      ghost var all := Stream();
      written := written + [5, 1, 0];
      var hello := Read(2);
      if hello.None? { return Err(Broken); }
      if hello.value[0] != 5 || hello.value[1] != 0 { return Err(AuthFailed); }
      written := written + [5, 1, 0, 3, |host|] + host + [portHigh, portLow];
      var head := Read(4);
      if head.None? { return Err(Broken); }
      assert head.value == all[2..6] && Stream() == all[6..];
      if head.value[0] != 5 || head.value[1] != 0 { return Err(PeerOffline); }
      var length: nat := 0;
      if head.value[3] == 1 { length := 4; }
      else if head.value[3] == 4 { length := 16; }
      else if head.value[3] == 3 {
        var size := Read(1);
        if size.None? { return Err(Broken); }
        length := size.value[0];
      } else { return Err(Invalid); }
      var rest := Read(length + 2);
      if rest.None? { return Err(Broken); }
      r := Ok(Stream());
    }

    /**
     Succeeds exactly on the replies of the standard, consumes exactly their bytes, and
     leaves all the rest to the connection, however the packets were cut.
     */
    method Connect(host: Bytes, portHigh: Byte, portLow: Byte) returns (r: Result<Bytes, Failure>)
      requires |host| <= 255
      modifies this
      ensures r.Ok? ==> r.value == Stream() && Accepts(old(Stream()), Stream())
      ensures forall rest :: Accepts(old(Stream()), rest) ==> r == Ok(rest)
      ensures var s := old(Stream());
              && (r == Err(AuthFailed) <==> |s| >= 2 && !(s[0] == 5 && s[1] == 0))
              && (r == Err(PeerOffline) <==> |s| >= 6 && s[0] == 5 && s[1] == 0 && !(s[2] == 5 && s[3] == 0))
              && (r == Err(Invalid) <==>
                    |s| >= 6 && s[0] == 5 && s[1] == 0 && s[2] == 5 && s[3] == 0 && s[5] !in {1, 3, 4})
      ensures r == Err(AuthFailed) ==> written == old(written) + [5, 1, 0]
      ensures r.Ok? ==> written == old(written) + [5, 1, 0] + [5, 1, 0, 3, |host|] + host + [portHigh, portLow]
    {
      Shape(Stream());
      hide Accepts, End;
      r := Handshake(host, portHigh, portLow);
    }
  }

  /** The length of the reply, as its first bytes tell it. */
  function End(s: Bytes): Option<nat> {
    if |s| < 6 || s[0] != 5 || s[1] != 0 || s[2] != 5 || s[3] != 0 then None
    else if s[5] == 1 then Some(12)
    else if s[5] == 4 then Some(24)
    else if s[5] == 3 && |s| >= 7 then (var size: nat := s[6]; Some(7 + size + 2))
    else None
  }

  lemma EncodedEnd(s: Bytes, r: Success, rest: Bytes)
    requires r.WellFormed() && s == METHOD_REPLY + Encode(r) + rest
    ensures End(s).Some? && End(s).value <= |s| && rest == s[End(s).value..]
  {
    var head: Bytes := [5, 0, 5, 0, r.reserved, AddressType(r.bound)];
    var tail := AddressBytes(r.bound) + r.port + rest;
    assert s == head + tail;
    assert s[0] == head[0] && s[1] == head[1] && s[2] == head[2] && s[3] == head[3] && s[5] == head[5];
    if r.bound.Domain? { assert s[6] == tail[0] == |r.bound.bytes|; }
    assert rest == tail[|AddressBytes(r.bound)| + 2..];
  }

  /** A stream is accepted exactly when it reaches the end its first bytes announce. */
  lemma Shape(s: Bytes)
    ensures forall rest :: Accepts(s, rest) <==> End(s).Some? && End(s).value <= |s| && rest == s[End(s).value..]
  {
    forall rest | Accepts(s, rest) ensures End(s).Some? && End(s).value <= |s| && rest == s[End(s).value..] {
      var r: Success :| r.WellFormed() && s == METHOD_REPLY + Encode(r) + rest;
      EncodedEnd(s, r, rest);
    }
    if End(s).Some? && End(s).value <= |s| { Decoded(s, End(s).value); }
  }

  lemma Decoded(s: Bytes, n: nat)
    requires End(s) == Some(n) && n <= |s|
    ensures Accepts(s, s[n..])
  {
    var bound := if s[5] == 3 then Domain(s[7..n - 2]) else if s[5] == 1 then V4(s[6..n - 2]) else V6(s[6..n - 2]);
    if s[5] == 3 { assert s[6..n - 2] == [s[6]] + s[7..n - 2]; }
    Rebuild(s, n, Success(s[4], bound, s[n - 2..n]));
  }

  lemma Rebuild(s: Bytes, n: nat, r: Success)
    requires 8 <= n <= |s| && r.WellFormed() && s[..2] == METHOD_REPLY
    requires s[2] == 5 && s[3] == 0 && s[4] == r.reserved && s[5] == AddressType(r.bound)
    requires AddressBytes(r.bound) == s[6..n - 2] && r.port == s[n - 2..n]
    ensures s == METHOD_REPLY + Encode(r) + s[n..] && Accepts(s, s[n..])
  {
    hide AddressBytes, AddressType;
    assert s[2..6] == [5, 0, r.reserved, AddressType(r.bound)];
    Cut(s, n);
  }

  lemma Cut(s: Bytes, n: nat)
    requires 8 <= n <= |s|
    ensures s == s[..2] + (s[2..6] + s[6..n - 2] + s[n - 2..n]) + s[n..]
  {
  }
}
