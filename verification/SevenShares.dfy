/**
 The seven-of-seven split of the wrapped vault key, byte by byte in place, and the
 store that scatters the shares over seven places and collects them again.

 The digest of a share is taken as injective and sealing as ideal: a sealed share opens
 with its own key and label only.
 */
module SevenShares {
  import opened Prelude

  type Bytes = seq<bv8>

  type Share = s: Bytes | |s| == 48 witness seq(48, _ => 0)

  function Zeros(n: nat): Bytes {
    seq(n, _ => 0)
  }

  function Xor(a: Bytes, b: Bytes): (r: Bytes)
    requires |a| == |b|
    ensures |r| == |a|
  {
    seq(|a|, i requires 0 <= i < |a| => a[i] ^ b[i])
  }

  /** What reconstruction computes. */
  function XorAll(shares: seq<Share>): Share {
    if shares == [] then Zeros(48) else Xor(XorAll(shares[..|shares| - 1]), shares[|shares| - 1])
  }

  // ----- algebra -----

  lemma XorLaws(a: Share, b: Share, c: Share)
    ensures Xor(a, b) == Xor(b, a) && Xor(Xor(a, b), c) == Xor(a, Xor(b, c))
    ensures Xor(a, a) == Zeros(48) && Xor(a, Zeros(48)) == a && Xor(Xor(a, b), b) == a
  {
  }

  lemma {:induction false} XorAllAppend(a: seq<Share>, b: seq<Share>)
    ensures XorAll(a + b) == Xor(XorAll(a), XorAll(b))
  {
    if b == [] {
      assert a + b == a;
      XorLaws(XorAll(a), XorAll(b), XorAll(b));
    } else {
      var n := |b| - 1;
      assert (a + b)[..|a + b| - 1] == a + b[..n];
      XorAllAppend(a, b[..n]);
      XorLaws(XorAll(a), XorAll(b[..n]), b[n]);
    }
  }

  lemma XorAllOne(s: Share)
    ensures XorAll([s]) == s
  {
    assert [s][..0] == [];
    XorLaws(s, Zeros(48), s);
  }

  /** Taking one share out and putting it last changes nothing. */
  lemma MoveToEnd(shares: seq<Share>, i: nat)
    requires i < |shares|
    ensures XorAll(shares) == Xor(XorAll(shares[..i] + shares[i + 1..]), shares[i])
  {
    hide Xor, XorAll;
    var a, s, b := shares[..i], shares[i], shares[i + 1..];
    assert shares == (a + [s]) + b;
    XorAllAppend(a + [s], b);
    XorAllAppend(a, [s]);
    XorAllOne(s);
    XorAllAppend(a, b);
    XorLaws(XorAll(a), s, XorAll(b));
    XorLaws(XorAll(a), XorAll(b), s);
    XorLaws(s, XorAll(b), s);
  }

  lemma WithoutOne<T>(before: seq<T>, t: T, after: seq<T>)
    ensures multiset(before + after) == multiset(before + [t] + after) - multiset{t}
  {
  }

  /** The last element of one arrangement, found in the other. */
  lemma Counterpart<T>(a: seq<T>, b: seq<T>) returns (i: nat)
    requires multiset(a) == multiset(b) && a != []
    ensures i < |b| && b[i] == a[|a| - 1] && multiset(a[..|a| - 1]) == multiset(b[..i] + b[i + 1..])
  {
    var n := |a| - 1;
    assert a[n] in multiset(b);
    i :| 0 <= i < |b| && b[i] == a[n];
    WithoutOne(a[..n], a[n], []);
    assert a[..n] + [] == a[..n] && a[..n] + [a[n]] + [] == a;
    WithoutOne(b[..i], a[n], b[i + 1..]);
    assert b[..i] + [a[n]] + b[i + 1..] == b;
  }

  /** The order in which the shares are presented does not matter. */
  lemma {:induction false} OrderDoesNotMatter(a: seq<Share>, b: seq<Share>)
    requires multiset(a) == multiset(b)
    ensures XorAll(a) == XorAll(b)
    decreases |a|
  {
    hide Xor;
    if a == [] {
      assert |multiset(b)| == 0;
    } else {
      var n := |a| - 1;
      var i := Counterpart(a, b);
      OrderDoesNotMatter(a[..n], b[..i] + b[i + 1..]);
      MoveToEnd(b, i);
    }
  }

  /** Six shares fix nothing: for every value exactly one seventh share reconstructs it. */
  lemma SeventhIsUnique(six: seq<Share>, seventh: Share, value: Share)
    ensures XorAll(six + [seventh]) == value <==> seventh == Xor(XorAll(six), value)
  {
    var x := XorAll(six);
    assert (six + [seventh])[..|six|] == six;
    XorLaws(x, seventh, x);
    XorLaws(x, value, x);
    XorLaws(x, x, seventh);
    XorLaws(x, x, value);
    XorLaws(seventh, Zeros(48), x);
    XorLaws(value, Zeros(48), x);
    XorLaws(Zeros(48), seventh, x);
    XorLaws(Zeros(48), value, x);
  }

  // ----- splitting and reconstructing, in place -----

  datatype Failure = InvalidWrappedKey | InvalidShard7File | RestoreRequired

  method XorInto(target: array<bv8>, share: Bytes)
    requires target.Length == |share|
    modifies target
    ensures target[..] == Xor(old(target[..]), share)
  {
    for i := 0 to target.Length
      invariant forall k :: 0 <= k < i ==> target[k] == old(target[k]) ^ share[k]
      invariant forall k :: i <= k < target.Length ==> target[k] == old(target[k])
    {
      target[i] := target[i] ^ share[i];
    }
  }

  method CopyInto(target: array<bv8>, share: Bytes)
    requires target.Length == |share|
    modifies target
    ensures target[..] == share
  {
    for i := 0 to target.Length
      invariant forall k :: 0 <= k < i ==> target[k] == share[k]
    {
      target[i] := share[i];
    }
  }

  lemma XorNothing(s: Share)
    ensures Xor(s, XorAll([])) == s
  {
    XorLaws(s, s, s);
  }

  lemma XorNext(s: Share, random: seq<Share>, k: nat)
    requires k < |random|
    ensures Xor(Xor(s, XorAll(random[..k])), random[k]) == Xor(s, XorAll(random[..k + 1]))
  {
    assert random[..k + 1][..k] == random[..k];
    XorLaws(s, XorAll(random[..k]), random[k]);
  }

  method DrawShares(random: seq<Share>) returns (shares: seq<array<bv8>>)
    ensures |shares| == |random| && (forall i :: 0 <= i < |shares| ==>
              fresh(shares[i]) && shares[i].Length == 48 && shares[i][..] == random[i])
    ensures forall i, j :: 0 <= i < j < |shares| ==> shares[i] != shares[j]
  {
    shares := [];
    for k := 0 to |random|
      invariant |shares| == k
      invariant forall i :: 0 <= i < k ==> fresh(shares[i]) && shares[i].Length == 48 && shares[i][..] == random[i]
      invariant forall i, j :: 0 <= i < j < k ==> shares[i] != shares[j]
    {
      var share := new bv8[48](i requires 0 <= i < 48 => random[k][i]);
      assert share[..] == random[k];
      shares := shares + [share];
    }
  }

  /** `random` are the six shares drawn; the seventh makes the seven reconstruct the secret. */
  method SplitSeven(secret: Bytes, random: seq<Share>) returns (r: Result<seq<array<bv8>>, Failure>)
    requires |random| == 6
    ensures r.Ok? <==> |secret| == 48
    ensures r.Err? ==> r.error == InvalidWrappedKey
    ensures r.Ok? ==>
              && |r.value| == 7 && (forall i :: 0 <= i < 7 ==> fresh(r.value[i]) && r.value[i].Length == 48)
              && (forall i, j :: 0 <= i < j < 7 ==> r.value[i] != r.value[j])
              && (forall i :: 0 <= i < 6 ==> r.value[i][..] == random[i])
              && XorAll(random + [r.value[6][..]]) == secret
  {
    if |secret| != 48 { return Err(InvalidWrappedKey); }
    hide Xor, XorAll;
    var shares := DrawShares(random);
    var last := new bv8[48](i requires 0 <= i < 48 => secret[i]);
    ghost var s: Share := secret;
    assert last[..] == s;
    XorNothing(s);
    for k := 0 to 6
      invariant last[..] == Xor(s, XorAll(random[..k]))
      invariant forall i :: 0 <= i < 6 ==> shares[i][..] == random[i]
    {
      XorNext(s, random, k);
      XorInto(last, shares[k][..]);
    }
    assert random[..6] == random;
    XorLaws(s, XorAll(random), s);
    SeventhIsUnique(random, last[..], s);
    r := Ok(shares + [last]);
  }

  /** The shares themselves. */
  function Values(found: seq<Option<Bytes>>): (shares: seq<Share>)
    requires |found| == 7 && forall i :: 0 <= i < 7 ==> found[i].Some? && |found[i].value| == 48
    ensures |shares| == 7
  {
    seq(7, i requires 0 <= i < 7 => found[i].value)
  }

  /** Refuses anything but seven shares of 48 bytes. */
  method ReconstructSeven(shares: seq<Option<Bytes>>) returns (r: Result<Share, Failure>)
    ensures r.Ok? <==> |shares| == 7 && forall i :: 0 <= i < 7 ==> shares[i].Some? && |shares[i].value| == 48
    ensures r.Ok? ==> r.value == XorAll(Values(shares))
    ensures r.Err? ==> r.error == RestoreRequired
  {
    if |shares| != 7 || exists i :: 0 <= i < |shares| && (shares[i].None? || |shares[i].value| != 48) {
      return Err(RestoreRequired);
    }
    ghost var all := Values(shares);
    var result := new bv8[48](_ => 0);
    assert result[..] == XorAll(all[..0]);
    for k := 0 to 7
      invariant result.Length == 48 && result[..] == XorAll(all[..k])
    {
      XorInto(result, shares[k].value);
      assert all[..k + 1][..k] == all[..k];
    }
    assert all[..7] == all;
    r := Ok(result[..]);
  }

  /** An externally held seventh share replaces the drawn one, and the sixth makes up for it. */
  method Rebalance(sixth: array<bv8>, seventh: array<bv8>, external: Share)
    requires sixth != seventh && sixth.Length == 48 && seventh.Length == 48
    modifies sixth, seventh
    ensures seventh[..] == external && Xor(sixth[..], seventh[..]) == Xor(old(sixth[..]), old(seventh[..]))
  {
    XorInto(sixth, Xor(seventh[..], external));
    CopyInto(seventh, external);
    XorLaws(old(sixth[..]), Xor(old(seventh[..]), external), external);
    XorLaws(old(seventh[..]), external, external);
  }

  /** Rebalancing keeps the secret. */
  lemma RebalancingKeepsTheSecret(five: seq<Share>, a: Share, b: Share, c: Share, d: Share)
    requires Xor(a, b) == Xor(c, d)
    ensures XorAll(five + [a, b]) == XorAll(five + [c, d])
  {
    LastTwo(five, a, b);
    LastTwo(five, c, d);
  }

  lemma LastTwo(five: seq<Share>, a: Share, b: Share)
    ensures XorAll(five + [a, b]) == Xor(XorAll(five), Xor(a, b))
  {
    XorAllAppend(five, [a, b]);
    assert [a, b] == [a] + [b];
    XorAllAppend([a], [b]);
    XorAllOne(a);
    XorAllOne(b);
  }

  // ----- the store -----

  type Key = nat

  datatype Sealed = Sealed(key: Key, tag: string, content: Bytes)

  function Unseal(box: Option<Sealed>, key: Key, tag: string): Option<Bytes> {
    if box.Some? && box.value.key == key && box.value.tag == tag then Some(box.value.content) else None
  }

  datatype Digest = Digest(share: Bytes)

  /** What the four files and the metadata database of a vault hold. */
  datatype Places = Places(f1: Option<Bytes>, metadata: Option<Sealed>, f3: Option<Sealed>, f4: Option<Bytes>,
      f6: Option<Sealed>)

  datatype Scattered = Scattered(clientShard: Share, fragment7: Sealed, hashes: seq<Digest>)

  /** The seven shares found for these keys. */
  function Found(places: Places, client: Option<Bytes>, fragment7: Option<Sealed>, mask: Key,
      backup: Key): (found: seq<Option<Bytes>>)
    ensures |found| == 7
  {
    [places.f1, Unseal(places.metadata, backup, "cp-shard2-db-v1"), Unseal(places.f3, backup, "cp-shard3-v1"), places.f4,
     client, Unseal(places.f6, mask, "cp-shard6-v1"), Unseal(fragment7, backup, "cp-shard7-v1")]
  }

  /** Every share is there, complete, and the one the digest was taken of. */
  predicate Genuine(found: seq<Option<Bytes>>, hashes: seq<Digest>) {
    && |found| == 7 && |hashes| == 7
    && forall i :: 0 <= i < 7 ==> found[i].Some? && |found[i].value| == 48 && hashes[i] == Digest(found[i].value)
  }

  function PlacesOf(all: seq<Share>, mask: Key, backup: Key): Places
    requires |all| == 7
  {
    Places(Some(all[0]), Some(Sealed(backup, "cp-shard2-db-v1", all[1])), Some(Sealed(backup, "cp-shard3-v1", all[2])),
           Some(all[3]), Some(Sealed(mask, "cp-shard6-v1", all[5])))
  }

  lemma PlacedSharesAreFound(all: seq<Share>, mask: Key, backup: Key)
    requires |all| == 7
    ensures var found := Found(PlacesOf(all, mask, backup), Some(all[4]), Some(Sealed(backup, "cp-shard7-v1", all[6])), mask, backup);
            Genuine(found, Digests(all)) && Values(found) == all && found[5] == Some(all[5]) && found[6] == Some(all[6])
  {
    var found := Found(PlacesOf(all, mask, backup), Some(all[4]), Some(Sealed(backup, "cp-shard7-v1", all[6])), mask,
        backup);
    assert forall i :: 0 <= i < 7 ==> found[i] == Some(all[i]);
  }

  function Digests(shares: seq<Share>): (hashes: seq<Digest>)
    ensures |hashes| == |shares|
  {
    seq(|shares|, i requires 0 <= i < |shares| => Digest(shares[i]))
  }

  class HorcruxStore {
    var places: Places
    var sessionShare: Option<Share>

    constructor ()
      ensures places == Places(None, None, None, None, None) && sessionShare == None
    {
      places, sessionShare := Places(None, None, None, None, None), None;
    }

    /** Afterwards the places hold seven genuine shares of the key, the last of them the external one if given. */
    method Scatter(wrapped: Bytes, mask: Key, backup: Key, external: Option<Bytes>, random: seq<Share>)
      returns (r: Result<Scattered, Failure>)
      requires |random| == 6
      modifies this
      ensures r.Ok? <==> |wrapped| == 48 && (external.Some? ==> |external.value| == 48)
      ensures r.Err? ==> places == old(places) && sessionShare == old(sessionShare)
      ensures r.Ok? ==>
                var found := Found(places, Some(r.value.clientShard), Some(r.value.fragment7), mask, backup);
                && Genuine(found, r.value.hashes) && sessionShare == found[5]
                && XorAll(Values(found)) == wrapped
                && (external.Some? ==> found[6] == external)
    {
      var split := SplitSeven(wrapped, random);
      if split.Err? { return Err(split.error); }
      var shares := split.value;
      if external.Some? && |external.value| != 48 { return Err(InvalidShard7File); }
      ghost var before := random[..5] + [random[5], shares[6][..]];
      assert before == random + [shares[6][..]];
      if external.Some? {
        Rebalance(shares[5], shares[6], external.value);
        RebalancingKeepsTheSecret(random[..5], random[5], before[6], shares[5][..], shares[6][..]);
      }
      var all: seq<Share> := [shares[0][..], shares[1][..], shares[2][..], shares[3][..], shares[4][..],
          shares[5][..], shares[6][..]];
      assert all == random[..5] + [shares[5][..], shares[6][..]];
      places := PlacesOf(all, mask, backup);
      sessionShare := Some(all[5]);
      r := Ok(Scattered(all[4], Sealed(backup, "cp-shard7-v1", all[6]), Digests(all)));
      PlacedSharesAreFound(all, mask, backup);
    }

    /** Succeeds exactly when all seven shares are genuine, and then rebuilds the key from them. */
    method Collect(client: Option<Bytes>, fragment7: Option<Sealed>, mask: Key, backup: Key, hashes: seq<Digest>)
      returns (r: Result<Share, Failure>)
      modifies this`sessionShare
      ensures var found := Found(places, client, fragment7, mask, backup);
              && (r.Ok? <==> Genuine(found, hashes))
              && (r.Ok? ==> r.value == XorAll(Values(found)) && sessionShare == found[5])
              && (r.Err? ==> r.error == RestoreRequired && sessionShare == old(sessionShare))
    {
      var found := Found(places, client, fragment7, mask, backup);
      if !Genuine(found, hashes) { return Err(RestoreRequired); }
      sessionShare := Some(found[5].value);
      r := ReconstructSeven(found);
    }

    method Lock()
      modifies this`sessionShare
      ensures sessionShare == None
    {
      sessionShare := None;
    }
  }

  /**
   Whatever happened to the places, to the client's share or to the relay's: if they
   still match the digests of a scatter, they reconstruct the key that was scattered.
   */
  lemma GenuineSharesDetermineTheKey(a: seq<Option<Bytes>>, b: seq<Option<Bytes>>, hashes: seq<Digest>)
    requires Genuine(a, hashes) && Genuine(b, hashes)
    ensures XorAll(Values(a)) == XorAll(Values(b))
  {
    assert forall i :: 0 <= i < 7 ==> hashes[i] == Digest(a[i].value) == Digest(b[i].value);
    assert Values(a) == Values(b);
  }

  /** Collecting after scattering, in any later state that passes the digest check, returns the wrapped key. */
  method ScatterThenCollect(store: HorcruxStore, wrapped: Share, mask: Key, backup: Key, external: Option<Share>,
      random: seq<Share>,
                            later: HorcruxStore, client: Option<Bytes>, fragment7: Option<Sealed>)
    returns (scattered: Scattered, r: Result<Share, Failure>)
    requires |random| == 6
    modifies store, later
    ensures Genuine(Found(store.places, Some(scattered.clientShard), Some(scattered.fragment7), mask, backup), scattered.hashes)
    ensures r.Ok? <==> Genuine(Found(later.places, client, fragment7, mask, backup), scattered.hashes)
    ensures r.Ok? ==> r.value == wrapped
    ensures store != later ==> later.places == old(later.places)
  {
    var s := store.Scatter(wrapped, mask, backup, if external.Some? then Some(external.value) else None, random);
    scattered := s.value;
    ghost var found := Found(store.places, Some(scattered.clientShard), Some(scattered.fragment7), mask, backup);
    r := later.Collect(client, fragment7, mask, backup, scattered.hashes);
    if r.Ok? {
      GenuineSharesDetermineTheKey(found, Found(later.places, client, fragment7, mask, backup), scattered.hashes);
    }
  }
}
