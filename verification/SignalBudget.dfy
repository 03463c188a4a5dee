/**
 The rolling budget of call signals: 30 per unordered pair of users in any 60 seconds,
 kept in a map that prunes itself and never exceeds 10000 pairs. It decides exactly as
 a naive limiter that remembers every accepted signal for ever.
 */
module SignalBudget {
  import opened Prelude

  type User = nat
  type Millis = int

  const WINDOW: Millis := 60000
  const LIMIT := 30
  const CAPACITY := 10000

  datatype Pair = Pair(low: User, high: User)

  function KeyOf(from: User, to: User): Pair {
    if from <= to then Pair(from, to) else Pair(to, from)
  }

  /** Both directions of a conversation share one key, and no other pair does. */
  lemma KeysAreUnorderedPairs(a: User, b: User, c: User, d: User)
    ensures KeyOf(a, b) == KeyOf(c, d) <==> {a, b} == {c, d}
  {
    assert {a, b} == {c, d} ==> a in {c, d} && b in {c, d} && c in {a, b} && d in {a, b};
  }

  datatype Accept = Accept(pair: Pair, at: Millis)

  function Later(times: seq<Millis>, cutoff: Millis): (r: seq<Millis>)
    ensures |r| <= |times| && forall t :: t in r ==> t in times && t > cutoff
  {
    if times == [] then [] else
    var before, t := Later(times[..|times| - 1], cutoff), times[|times| - 1];
    if t > cutoff then before + [t] else before
  }

  /** The complete, unpruned record for one pair. */
  function Times(accepts: seq<Accept>, pair: Pair): seq<Millis> {
    if accepts == [] then [] else
    var before, a := Times(accepts[..|accepts| - 1], pair), accepts[|accepts| - 1];
    if a.pair == pair then before + [a.at] else before
  }

  /** The naive limiter's view: accepted signals of the pair in the window that ends at `now`. */
  function Recent(accepts: seq<Accept>, pair: Pair, now: Millis): seq<Millis> {
    Later(Times(accepts, pair), now - WINDOW)
  }

  function Live(accepts: seq<Accept>, now: Millis): set<Pair> {
    set i | 0 <= i < |accepts| && Recent(accepts, accepts[i].pair, now) != [] :: accepts[i].pair
  }

  // ----- facts about the record -----

  lemma {:induction false} LaterAgain(times: seq<Millis>, c: Millis, d: Millis)
    requires c <= d
    ensures Later(Later(times, c), d) == Later(times, d)
  {
    if times != [] {
      var before, t := times[..|times| - 1], times[|times| - 1];
      LaterAgain(before, c, d);
      if t > c { LaterAppend(Later(before, c), t, d); }
    }
  }

  lemma LaterAppend(times: seq<Millis>, t: Millis, cutoff: Millis)
    ensures Later(times + [t], cutoff) == if t > cutoff then Later(times, cutoff) + [t] else Later(times, cutoff)
  {
    assert (times + [t])[..|times|] == times;
  }

  lemma TimesAppend(accepts: seq<Accept>, a: Accept, pair: Pair)
    ensures Times(accepts + [a], pair) == if a.pair == pair then Times(accepts, pair) + [a.at] else Times(accepts, pair)
  {
    assert (accepts + [a])[..|accepts|] == accepts;
  }

  lemma {:induction false} NothingLater(times: seq<Millis>, cutoff: Millis)
    requires forall i :: 0 <= i < |times| ==> times[i] <= cutoff
    ensures Later(times, cutoff) == []
  {
    if times != [] { NothingLater(times[..|times| - 1], cutoff); }
  }

  lemma {:induction false} LastIsLater(times: seq<Millis>, cutoff: Millis)
    requires times != [] && times[|times| - 1] > cutoff
    ensures Later(times, cutoff) != []
  {
  }

  lemma {:induction false} OnlyAccepted(accepts: seq<Accept>, pair: Pair)
    ensures Times(accepts, pair) != [] ==> exists i :: 0 <= i < |accepts| && accepts[i].pair == pair
  {
    if accepts != [] {
      var before := accepts[..|accepts| - 1];
      OnlyAccepted(before, pair);
      if accepts[|accepts| - 1].pair != pair && Times(before, pair) != [] {
        var i :| 0 <= i < |before| && before[i].pair == pair;
        assert accepts[i].pair == pair;
      }
    }
  }

  lemma LiveExactly(accepts: seq<Accept>, now: Millis, pair: Pair)
    ensures pair in Live(accepts, now) <==> Recent(accepts, pair, now) != []
  {
    OnlyAccepted(accepts, pair);
  }

  // ----- the budget -----

  /** Every accepted signal stayed within the limit when it was accepted, and time went forward. */
  ghost predicate WithinLimit(accepts: seq<Accept>) {
    && (forall i :: 0 <= i < |accepts| ==> |Recent(accepts[..i], accepts[i].pair, accepts[i].at)| < LIMIT)
    && (forall i, j :: 0 <= i <= j < |accepts| ==> accepts[i].at <= accepts[j].at)
  }

  function Within(accepts: seq<Accept>, pair: Pair, from: Millis, to: Millis): nat {
    if accepts == [] then 0 else
    var a := accepts[|accepts| - 1];
    Within(accepts[..|accepts| - 1], pair, from, to) + if a.pair == pair && from < a.at <= to then 1 else 0
  }

  lemma {:induction false} WithinIsRecent(accepts: seq<Accept>, pair: Pair, from: Millis, to: Millis, now: Millis)
    requires now - WINDOW <= from
    ensures Within(accepts, pair, from, to) <= |Recent(accepts, pair, now)|
  {
    if accepts != [] {
      var before, a := accepts[..|accepts| - 1], accepts[|accepts| - 1];
      WithinIsRecent(before, pair, from, to, now);
      if a.pair == pair { LaterAppend(Times(before, pair), a.at, now - WINDOW); }
    }
  }

  /** No window of 60 seconds, wherever it lies, contains more than 30 accepted signals of a pair. */
  lemma {:induction false} AnyWindowWithinLimit(accepts: seq<Accept>, pair: Pair, to: Millis)
    requires WithinLimit(accepts)
    ensures Within(accepts, pair, to - 60000, to) <= 30
  {
    hide Recent;
    if accepts != [] {
      var n := |accepts| - 1;
      var before, a := accepts[..n], accepts[n];
      assert forall i :: 0 <= i < n ==> before[..i] == accepts[..i] && before[i] == accepts[i];
      if a.pair == pair && to - WINDOW < a.at <= to {
        WithinIsRecent(before, pair, to - WINDOW, to, a.at);
      } else {
        AnyWindowWithinLimit(before, pair, to);
      }
    }
  }

  // ----- the pruned map against the full record -----

  function Stored(pairs: map<Pair, seq<Millis>>, k: Pair): seq<Millis> {
    if k in pairs then pairs[k] else []
  }

  /** The map forgets only what no later window can contain. */
  ghost predicate Faithful(pairs: map<Pair, seq<Millis>>, accepts: seq<Accept>, latest: Millis) {
    && (forall k :: Later(Stored(pairs, k), latest - WINDOW) == Recent(accepts, k, latest))
    && (forall k :: k in pairs ==> pairs[k] != [] && forall i :: 0 <= i < |pairs[k]| ==>
              pairs[k][i] <= pairs[k][|pairs[k]| - 1])
    && (forall i :: 0 <= i < |accepts| ==> accepts[i].at <= latest)
    && WithinLimit(accepts)
  }

  predicate Expired(times: seq<Millis>, now: Millis)
    requires times != []
  {
    times[|times| - 1] <= now - WINDOW
  }

  ghost predicate IsPruned(before: map<Pair, seq<Millis>>, after: map<Pair, seq<Millis>>, now: Millis)
    requires forall k :: k in before ==> before[k] != []
  {
    && (forall k :: k in after ==> k in before && after[k] == before[k])
    && (forall k :: k in before ==> (k in after <==> !Expired(before[k], now)))
  }

  lemma PrunedStays(before: map<Pair, seq<Millis>>, after: map<Pair, seq<Millis>>, accepts: seq<Accept>,
      latest: Millis, now: Millis, k: Pair)
    requires Faithful(before, accepts, latest) && latest <= now && IsPruned(before, after, now)
    ensures Later(Stored(after, k), now - WINDOW) == Recent(accepts, k, now)
    ensures k in after <==> Recent(accepts, k, now) != []
  {
    LaterAgain(Stored(before, k), latest - WINDOW, now - WINDOW);
    LaterAgain(Times(accepts, k), latest - WINDOW, now - WINDOW);
    if k in after {
      LastIsLater(after[k], now - WINDOW);
    } else if k in before {
      NothingLater(before[k], now - WINDOW);
    }
  }

  lemma PruneKeeps(before: map<Pair, seq<Millis>>, after: map<Pair, seq<Millis>>, accepts: seq<Accept>,
      latest: Millis, now: Millis)
    requires Faithful(before, accepts, latest) && latest <= now && IsPruned(before, after, now)
    ensures Faithful(after, accepts, now) && after.Keys == Live(accepts, now)
    ensures forall k :: Later(Stored(after, k), now - WINDOW) == Recent(accepts, k, now)
  {
    forall k ensures Later(Stored(after, k), now - WINDOW) == Recent(accepts, k, now) && (k in after <==>
              k in Live(accepts, now)) {
      PrunedStays(before, after, accepts, latest, now, k);
      LiveExactly(accepts, now, k);
    }
  }

  lemma AcceptKeepsLimit(accepts: seq<Accept>, a: Accept)
    requires WithinLimit(accepts) && |Recent(accepts, a.pair, a.at)| < LIMIT && forall i :: 0 <= i < |accepts| ==>
              accepts[i].at <= a.at
    ensures WithinLimit(accepts + [a])
  {
    hide Recent;
    var all := accepts + [a];
    assert all[..|accepts|] == accepts;
    assert forall i :: 0 <= i < |accepts| ==> all[..i] == accepts[..i] && all[i] == accepts[i];
  }

  lemma AcceptedStays(pairs: map<Pair, seq<Millis>>, accepts: seq<Accept>, now: Millis, k: Pair, p: Pair)
    requires Later(Stored(pairs, p), now - WINDOW) == Recent(accepts, p, now) && pairs.Keys == Live(accepts, now)
    ensures var all, after := accepts + [Accept(k, now)], pairs[k := Recent(accepts, k, now) + [now]];
            Later(Stored(after, p), now - WINDOW) == Recent(all, p, now) && (p in after <==> p in Live(all, now))
  {
    hide Live, Times, Later;
    TimesAppend(accepts, Accept(k, now), p);
    LiveExactly(accepts, now, p);
    LiveExactly(accepts + [Accept(k, now)], now, p);
    LaterAgain(Times(accepts, k), now - WINDOW, now - WINDOW);
    LaterAppend(Recent(accepts, k, now), now, now - WINDOW);
    LaterAppend(Times(accepts, k), now, now - WINDOW);
  }

  lemma RecentBounded(accepts: seq<Accept>, k: Pair, now: Millis)
    requires forall i :: 0 <= i < |accepts| ==> accepts[i].at <= now
    ensures var times := Recent(accepts, k, now) + [now]; forall i :: 0 <= i < |times| ==> times[i] <= now
  {
    TimesBounded(accepts, k, now);
    var times := Recent(accepts, k, now);
    forall i | 0 <= i < |times| ensures times[i] <= now {
      assert times[i] in times;
    }
  }

  lemma AcceptKeeps(pairs: map<Pair, seq<Millis>>, accepts: seq<Accept>, now: Millis, k: Pair)
    requires Faithful(pairs, accepts, now) && pairs.Keys == Live(accepts, now) && |Recent(accepts, k, now)| < LIMIT
    ensures var after := pairs[k := Recent(accepts, k, now) + [now]];
            Faithful(after, accepts + [Accept(k, now)], now) && after.Keys == Live(accepts + [Accept(k, now)], now)
  {
    hide Live, Recent, Later, WithinLimit;
    var all, after := accepts + [Accept(k, now)], pairs[k := Recent(accepts, k, now) + [now]];
    AcceptKeepsLimit(accepts, Accept(k, now));
    forall p ensures Later(Stored(after, p), now - WINDOW) == Recent(all, p, now) && (p in after <==>
              p in Live(all, now)) {
      AcceptedStays(pairs, accepts, now, k, p);
    }
    RecentBounded(accepts, k, now);
  }

  lemma {:induction false} TimesBounded(accepts: seq<Accept>, k: Pair, now: Millis)
    requires forall i :: 0 <= i < |accepts| ==> accepts[i].at <= now
    ensures forall t :: t in Times(accepts, k) ==> t <= now
  {
    if accepts != [] { TimesBounded(accepts[..|accepts| - 1], k, now); }
  }

  class Budget {
    var pairs: map<Pair, seq<Millis>>
    ghost var accepts: seq<Accept>
    ghost var latest: Millis
    ghost var forward: bool      // the clock has not gone back so far

    ghost predicate Valid()
      reads this
    {
      && |pairs| <= CAPACITY && (forall k :: k in pairs ==> pairs[k] != [])
      && (forward ==> Faithful(pairs, accepts, latest))
    }

    constructor (now: Millis)
      ensures Valid() && accepts == [] && forward && latest == now
    {
      pairs, accepts, latest, forward := map[], [], now, true;
    }

    /** The pruning loop: exactly the pairs whose last signal left the window are dropped. */
    method Prune(now: Millis)
      requires forall k :: k in pairs ==> pairs[k] != []
      modifies this`pairs
      ensures IsPruned(old(pairs), pairs, now) && |pairs| <= |old(pairs)| && forall k :: k in pairs ==> pairs[k] != []
    {
      var todo := pairs.Keys;
      while todo != {}
        invariant todo <= pairs.Keys && |pairs| <= |old(pairs)|
        invariant forall k :: k in pairs ==> k in old(pairs) && pairs[k] == old(pairs)[k]
        invariant forall k :: k in old(pairs) && k !in todo ==> (k in pairs <==> !Expired(old(pairs)[k], now))
        decreases |todo|
      {
        var k :| k in todo;
        todo := todo - {k};
        if Expired(pairs[k], now) {
          assert (pairs - {k}).Keys == pairs.Keys - {k};
          assert |(pairs - {k}).Keys| < |pairs.Keys|;
          pairs := pairs - {k};
        }
      }
    }

    /**
     Decides as the naive limiter does, as long as the clock has not gone back: accept
     when fewer than 30 signals of the pair were accepted in the last 60 seconds, unless
     that would make it the 10001st pair with a recent signal.
     */
    method Take(from: User, to: User, now: Millis) returns (ok: bool)
      requires Valid()
      modifies this
      ensures Valid() && latest == now && forward == (old(forward) && old(latest) <= now)
      ensures accepts == if ok then old(accepts) + [Accept(KeyOf(from, to), now)] else old(accepts)
      ensures forward ==> pairs.Keys == Live(accepts, now)
      ensures forward ==> (ok <==> && |Recent(old(accepts), KeyOf(from, to), now)| < 30
                                   && (KeyOf(from, to) in Live(old(accepts), now) || |Live(old(accepts), now)| < 10000))
    {
      hide Faithful, Live, Recent, Later, IsPruned;
      ghost var before := pairs;
      Prune(now);
      var k := KeyOf(from, to);
      var times := Later(Stored(pairs, k), now - WINDOW);
      forward := forward && latest <= now;
      if forward {
        PruneKeeps(before, pairs, accepts, latest, now);
        assert times == Recent(accepts, k, now);
      }
      latest := now;
      if |times| >= LIMIT || (k !in pairs && |pairs| >= CAPACITY) { return false; }
      if forward { AcceptKeeps(pairs, accepts, now, k); }
      assert k in pairs ==> pairs[k := times + [now]].Keys == pairs.Keys;
      assert k !in pairs ==> pairs[k := times + [now]].Keys == pairs.Keys + {k};
      pairs := pairs[k := times + [now]];
      accepts := accepts + [Accept(k, now)];
      ok := true;
    }
  }
}
