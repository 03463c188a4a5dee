/**
 The instance lock under concurrency. The lock row of a device is meant to change only
 by a claim. It does exactly when every upload for that device read the row; an upload
 that looked before the row existed has nothing to hold on to and may overwrite it.
 */
module InstanceLock {
  import opened Prelude
  import opened BackupStore
  import opened BackupLog

  /** Every upload that may still write this lock row has read it, and so holds it. */
  ghost predicate NoRacer(w: Relay, d: DeviceId) {
    d in w.store.locks && forall id :: id in w.uploads && ActsFor(w.uploads[id], d) ==> w.uploads[id].saw.Some?
  }

  predicate Claims(w: Relay, s: Step, d: DeviceId) {
    s.Commit? && s.id in w.uploads && w.uploads[s.id].body.content.claim && ActsFor(w.uploads[s.id], d)
  }

  /**
   The exact condition: an upload that claims nothing changes an existing lock row if
   and only if it read no lock row, names another instance and is no replay.
   */
  lemma UnclaimedChangeIff(w: Relay, s: Step, d: DeviceId)
    requires Invariant(w) && Enabled(w, s) && d in w.store.locks && !Claims(w, s, d)
    ensures d in Apply(w, s).store.locks
    ensures Apply(w, s).store.locks[d] != w.store.locks[d] <==>
            && s.Commit? && ActsFor(w.uploads[s.id], d) && w.uploads[s.id].saw == None
            && w.uploads[s.id].body.content.instance != Some(w.store.locks[d])
            && !IsReplay(w.uploads[s.id].prior, w.uploads[s.id].body)
  {
    hide EpochOk, Acks, Exclusive, Conflicts;
    if s.Commit? { assert UploadOk(w, s.id); }
  }

  /** Once nobody who missed the row is under way, nobody ever will be again. */
  lemma NoRacerStays(w: Relay, s: Step, d: DeviceId)
    requires Invariant(w) && Enabled(w, s) && NoRacer(w, d)
    ensures NoRacer(Apply(w, s), d)
  {
    hide EpochOk, Acks, Exclusive, Conflicts;
  }

  ghost predicate NobodyClaims(w: Relay, steps: seq<Step>, d: DeviceId)
    requires IsRun(w, steps)
    decreases |steps|
  {
    steps == [] || (!Claims(w, steps[0], d) && NobodyClaims(Apply(w, steps[0]), steps[1..], d))
  }

  /** From there on, only a claim changes the lock row. */
  lemma {:induction false} LockStaysUntilClaimed(w: Relay, steps: seq<Step>, d: DeviceId)
    requires Invariant(w) && NoRacer(w, d) && IsRun(w, steps) && NobodyClaims(w, steps, d)
    ensures NoRacer(After(w, steps), d) && After(w, steps).store.locks[d] == w.store.locks[d]
    decreases |steps|
  {
    hide Invariant, Enabled, Apply, Claims;
    if steps != [] {
      StepKeepsInvariant(w, steps[0]);
      NoRacerStays(w, steps[0], d);
      LockStaysOneStep(w, steps[0], d);
      LockStaysUntilClaimed(Apply(w, steps[0]), steps[1..], d);
    }
  }

  lemma LockStaysOneStep(w: Relay, s: Step, d: DeviceId)
    requires Invariant(w) && Enabled(w, s) && NoRacer(w, d) && !Claims(w, s, d)
    ensures d in Apply(w, s).store.locks && Apply(w, s).store.locks[d] == w.store.locks[d]
  {
    hide Invariant, Apply;
    UnclaimedChangeIff(w, s, d);
  }

  /** A session that ended stays ended: its token is never issued twice. */
  lemma {:induction false} EndedForGood(w: Relay, steps: seq<Step>, i: SessionId)
    requires IsRun(w, steps) && i in w.issued && i !in w.store.sessions
    ensures i !in After(w, steps).store.sessions
    decreases |steps|
  {
    if steps != [] {
      NotReopened(w, steps[0], i);
      EndedForGood(Apply(w, steps[0]), steps[1..], i);
    }
  }

  lemma NotReopened(w: Relay, s: Step, i: SessionId)
    requires Enabled(w, s) && i in w.issued && i !in w.store.sessions
    ensures i in Apply(w, s).issued && i !in Apply(w, s).store.sessions
  {
  }

  /** An upload for the device by another instance, without a claim. */
  predicate Intrudes(u: Upload, d: DeviceId, h: Instance) {
    u.body.content.device == Some(d) && u.body.content.instance != Some(h) && !u.body.content.claim
  }

  /** It has not passed the check of the lock row, and cannot. */
  ghost predicate IsStopped(w: Relay, id: nat, d: DeviceId)
    requires id in w.uploads
  {
    !Enabled(w, Prove(id)) && !ActsFor(w.uploads[id], d)
  }

  /**
   What a claim achieves. From its commit until the next claim, in every run: the
   device is bound to the claiming instance; no request of another instance passes
   authMiddleware; no upload of another instance gets past its lock check; and the
   sessions the claim found never authenticate again.
   */
  lemma ClaimIsEffective(w: Relay, id: nat, doomed: set<SessionId>, steps: seq<Step>, d: DeviceId)
    requires Invariant(w) && Enabled(w, Commit(id, doomed)) && Claims(w, Commit(id, doomed), d)
    requires var v := Apply(w, Commit(id, doomed)); NoRacer(v, d) && IsRun(v, steps) && NobodyClaims(v, steps, d)
    ensures var h := w.uploads[id].body.content.instance.value;
            var u := After(Apply(w, Commit(id, doomed)), steps);
            && Lookup(u.store.locks, d) == Some(h)
            && (forall i, instance :: Authenticates(u.store, i, instance, d) ==>
                      instance == Some(h) && i !in w.uploads[id].seen)
            && (forall j :: j in u.uploads && Intrudes(u.uploads[j], d, h) ==> IsStopped(u, j, d))
  {
    var v := Apply(w, Commit(id, doomed));
    ClaimBinds(w, id, doomed, d);
    StepKeepsInvariant(w, Commit(id, doomed));
    LockStaysUntilClaimed(v, steps, d);
    RunKeepsInvariant(v, steps);
    forall i | i in w.uploads[id].seen ensures i !in After(v, steps).store.sessions { EndedForGood(v, steps, i); }
    hide Enabled, Apply, IsRun, After, NobodyClaims, NoRacer, EpochOk, Exclusive, Acks, UploadOk, IsStopped, Intrudes;
    var u := After(v, steps);
    forall j | j in u.uploads && Intrudes(u.uploads[j], d, w.uploads[id].body.content.instance.value)
      ensures IsStopped(u, j, d)
    {
      OthersAreStopped(u, d, j);
    }
  }

  lemma ClaimBinds(w: Relay, id: nat, doomed: set<SessionId>, d: DeviceId)
    requires Invariant(w) && Enabled(w, Commit(id, doomed)) && Claims(w, Commit(id, doomed), d)
    ensures var v := Apply(w, Commit(id, doomed));
            && w.uploads[id].body.content.instance.Some?
            && Lookup(v.store.locks, d) == w.uploads[id].body.content.instance
            && w.uploads[id].seen <= v.issued && w.uploads[id].seen !! v.store.sessions.Keys
  {
    hide EpochOk, Exclusive, Acks, Conflicts;
    assert UploadOk(w, id);
  }

  lemma OthersAreStopped(w: Relay, d: DeviceId, id: nat)
    requires NoRacer(w, d) && id in w.uploads && UploadOk(w, id) && Intrudes(w.uploads[id], d, w.store.locks[d])
    ensures IsStopped(w, id, d)
  {
    hide Conflicts;
  }

  // ----- the race -----

  /** Two vaults of one device upload for the first time at once. */
  function FirstUpload(token: Token, h: Instance): Request {
    var body := Body(token, 1, Content(token, token, token, 7, Some(1), Some(h), Some(DeviceSignature(5, h)), false),
        0);
    Request(None, body, 1000, 44, WriterSignature(7, body), None)
  }

  const READING: seq<Step> := [Begin(0, FirstUpload(10, 100)), Begin(1, FirstUpload(20, 200)), Prove(0), Prove(1)]

  /** Both have looked for a lock row, and there was none. */
  ghost predicate BothLooked(w: Relay) {
    && w.store.backups == map[] && w.store.locks == map[] && w.store.sessions == map[]
    && w.uploads == map[0 := Upload(FirstUpload(10, 100).body, None, true, None, {}),
                        1 := Upload(FirstUpload(20, 200).body, None, true, None, {})]
  }

  lemma BothLook(w: Relay)
    requires Initial(w) && w.store.devices == map[1 := 5]
    ensures IsRun(w, READING) && BothLooked(After(w, READING))
  {
    var a, b := FirstUpload(10, 100), FirstUpload(20, 200);
    var w1 := Apply(w, Begin(0, a));
    var w2 := Apply(w1, Begin(1, b));
    assert SessionsOf(w.store, 1) == {};
    var w3 := Apply(w2, Prove(0));
    OneMore(w3, Prove(1), []);
    OneMore(w2, Prove(0), [Prove(1)]);
    OneMore(w1, Begin(1, b), [Prove(0), Prove(1)]);
    OneMore(w, Begin(0, a), [Begin(1, b), Prove(0), Prove(1)]);
  }

  lemma BothCommit(w: Relay)
    requires BothLooked(w)
    ensures Enabled(w, Commit(0, {}))
    ensures var bound := Apply(w, Commit(0, {}));
            && bound.store.locks == map[1 := 100]
            && Enabled(bound, Commit(1, {})) && !Claims(bound, Commit(1, {}), 1)
            && Apply(bound, Commit(1, {})).store.locks == map[1 := 200]
  {
    assert Enabled(w, Commit(0, {}));
    var bound := Apply(w, Commit(0, {}));
    assert Enabled(bound, Commit(1, {}));
    assert bound.store.locks == map[1 := 100] && bound.uploads == map[1 := w.uploads[1]];
    assert !IsReplay(w.uploads[1].prior, w.uploads[1].body);
    assert Apply(bound, Commit(1, {})).store.locks == map[1 := 100][1 := 200];
  }

  /** Both succeed; the second silently takes the device from the first, and nobody claimed. */
  lemma LockIsTakenWithoutClaim(w: Relay)
    requires Initial(w) && w.store.devices == map[1 := 5]
    ensures IsRun(w, READING) && Enabled(After(w, READING), Commit(0, {}))
    ensures var bound := Apply(After(w, READING), Commit(0, {}));
            && Lookup(bound.store.locks, 1) == Some(100)
            && Enabled(bound, Commit(1, {})) && !Claims(bound, Commit(1, {}), 1)
            && Lookup(Apply(bound, Commit(1, {})).store.locks, 1) == Some(200)
  {
    BothLook(w);
    hide IsRun, After, Initial, FirstUpload;
    BothCommit(After(w, READING));
  }

  lemma OneMore(w: Relay, s: Step, rest: seq<Step>)
    requires Enabled(w, s) && IsRun(Apply(w, s), rest)
    ensures IsRun(w, [s] + rest) && After(w, [s] + rest) == After(Apply(w, s), rest)
  {
    assert ([s] + rest)[1..] == rest;
  }
}
