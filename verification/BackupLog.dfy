/**
 Concurrent uploads on the relay, as a step system of database transactions: an
 advisory lock per lookup token, row locks taken by SELECT ... FOR UPDATE where a row
 exists, and everything a transaction writes becoming visible when it commits.

 `log` records every success answered; nothing reads it.
 */
module BackupLog {
  import opened Prelude
  import opened BackupStore

  /** An upload between its BEGIN and its COMMIT: what it has read so far. */
  datatype Upload = Upload(body: Body, prior: Option<Row>, proved: bool, saw: Option<Instance>, seen: set<SessionId>)

  datatype Event = Acked(token: Token, version: nat, content: Content) | Deleted(token: Token)

  /** A deletion between its two statements: what was signed, and how long the log was then. */
  datatype Deletion = Deletion(token: Token, version: nat, signer: Key, since: nat)

  datatype Relay = Relay(store: Store, uploads: map<nat, Upload>, deletions: map<nat, Deletion>, issued: set<SessionId>,
                         log: seq<Event>)

  datatype Step =
    | Begin(id: nat, request: Request)           // takes the token's lock and reads its row
    | Prove(id: nat)                             // checks the device proof and reads the device's lock row
    | Commit(id: nat, doomed: set<SessionId>)
    | Abort(id: nat)
    | CheckDelete(id: nat, token: Token, version: nat, signer: Key)
    | Delete(id: nat)
    | OpenSession(session: SessionId, device: DeviceId)
    | EndSession(session: SessionId)

  predicate ActsFor(u: Upload, d: DeviceId) {
    u.proved && u.body.content.device == Some(d)
  }

  /** A row that exists stays locked until the transaction that read it ends. */
  predicate HoldsLockRow(u: Upload, d: DeviceId) {
    ActsFor(u, d) && u.saw.Some?
  }

  ghost predicate LockRowFree(w: Relay, id: nat, d: DeviceId) {
    forall j :: j in w.uploads && j != id ==> !HoldsLockRow(w.uploads[j], d)
  }

  ghost predicate TokenFree(w: Relay, token: Token) {
    forall j :: j in w.uploads ==> w.uploads[j].body.token != token
  }

  predicate Ready(u: Upload) {
    HasProof(u.body.content) ==> u.proved && ProofComplete(u.body.content)
  }

  ghost predicate Enabled(w: Relay, s: Step) {
    match s
    case Begin(id, r) =>
      && id !in w.uploads && Screen(r).None? && TokenFree(w, r.body.token)
      && !Conflicts(Lookup(w.store.backups, r.body.token), r.body)
    case Prove(id) =>
      && id in w.uploads && !w.uploads[id].proved
      && var c := w.uploads[id].body.content;
         && ProofComplete(c) && ProofGenuine(w.store.devices, c) && LockRowFree(w, id, c.device.value)
         && !LockRefuses(Lookup(w.store.locks, c.device.value), c)
    case Commit(id, doomed) =>
      && id in w.uploads && Ready(w.uploads[id])
      && var u := w.uploads[id];
         && (WritesLock(u.prior, u.body) ==> LockRowFree(w, id, u.body.content.device.value))
         && (u.proved && u.body.content.device.Some? ==>
               var alive := SessionsOf(w.store, u.body.content.device.value); u.seen * alive <= doomed <= alive)
    case Abort(id) => id in w.uploads
    case CheckDelete(id, token, _, signer) =>
      id !in w.deletions && token in w.store.backups && w.store.backups[token].content.writer == signer
    case Delete(id) =>
      && id in w.deletions
      && var d := w.deletions[id];
         d.token in w.store.backups && w.store.backups[d.token].version == d.version && TokenFree(w, d.token)
    case OpenSession(session, _) => session !in w.issued
    case EndSession(_) => true
  }

  /** The version a success reports: a replay is answered with the stored one. */
  function AckOf(u: Upload): Event {
    Acked(u.body.token, if IsReplay(u.prior, u.body) then u.prior.value.version else u.body.version, u.body.content)
  }

  ghost function Apply(w: Relay, s: Step): Relay
    requires Enabled(w, s)
  {
    match s
    case Begin(id, r) => w.(uploads := w.uploads[id := Upload(r.body, Lookup(w.store.backups, r.body.token), false,
        None, {})])
    case Prove(id) =>
      var d := w.uploads[id].body.content.device.value;
      var proved := w.uploads[id].(proved := true, saw := Lookup(w.store.locks, d), seen := SessionsOf(w.store, d));
      w.(uploads := w.uploads[id := proved])
    case Commit(id, doomed) =>
      var u := w.uploads[id];
      w.(store := CommitPut(w.store, u.prior, u.body, doomed), uploads := w.uploads - {id}, log := w.log + [AckOf(u)])
    case Abort(id) => w.(uploads := w.uploads - {id})
    case CheckDelete(id, token, version, signer) =>
      w.(deletions := w.deletions[id := Deletion(token, version, signer, |w.log|)])
    case Delete(id) =>
      var token := w.deletions[id].token;
      w.(store := w.store.(backups := w.store.backups - {token}), deletions := w.deletions - {id},
         log := w.log + [Deleted(token)])
    case OpenSession(i, d) => w.(store := w.store.(sessions := w.store.sessions[i := d]), issued := w.issued + {i})
    case EndSession(i) => w.(store := w.store.(sessions := w.store.sessions - {i}))
  }

  ghost predicate IsRun(w: Relay, steps: seq<Step>)
    decreases |steps|
  {
    steps == [] || (Enabled(w, steps[0]) && IsRun(Apply(w, steps[0]), steps[1..]))
  }

  ghost function After(w: Relay, steps: seq<Step>): Relay
    requires IsRun(w, steps)
    decreases |steps|
  {
    if steps == [] then w else After(Apply(w, steps[0]), steps[1..])
  }

  ghost predicate Initial(w: Relay) {
    && w.store.backups == map[] && w.store.locks == map[] && w.store.sessions == map[]
    && w.uploads == map[] && w.deletions == map[] && w.log == []
  }

  // ----- the log of one token since its last deletion -----

  function Acks(log: seq<Event>, token: Token): seq<Event> {
    if log == [] then [] else
    var e := log[|log| - 1];
    var before := Acks(log[..|log| - 1], token);
    if e.token != token then before else if e.Deleted? then [] else before + [e]
  }

  lemma AcksNext(log: seq<Event>, e: Event, token: Token)
    ensures Acks(log + [e], token) ==
            if e.token != token then Acks(log, token) else if e.Deleted? then [] else Acks(log, token) + [e]
  {
    assert (log + [e])[..|log|] == log;
  }

  ghost predicate HasVersion(acks: seq<Event>, v: nat) {
    exists i :: 0 <= i < |acks| && acks[i].Acked? && acks[i].version == v
  }

  /** The acknowledged versions are 1, 2, ..., n; one writer; one content per version. */
  ghost predicate EpochOk(acks: seq<Event>, row: Option<Row>) {
    && (acks == [] <==> row.None?)
    && (row.Some? ==> acks[|acks| - 1] == Acked(acks[0].token, row.value.version, row.value.content))
    && (forall i :: 0 <= i < |acks| ==>
              acks[i].Acked? && 1 <= acks[i].version <= row.value.version && acks[i].content.writer == row.value.content.writer)
    && (forall i, j :: 0 <= i <= j < |acks| ==> acks[i].version <= acks[j].version)
    && (forall i, j :: 0 <= i < j < |acks| && acks[i].version == acks[j].version ==> acks[i].content == acks[j].content)
    && (row.Some? ==> forall v: nat :: 1 <= v <= row.value.version ==> HasVersion(acks, v))
  }

  ghost predicate UploadOk(w: Relay, id: nat)
    requires id in w.uploads
  {
    var u := w.uploads[id];
    && u.prior == Lookup(w.store.backups, u.body.token) && !Conflicts(u.prior, u.body)
    && (u.proved ==>
          && ProofComplete(u.body.content) && !LockRefuses(u.saw, u.body.content) && u.seen <= w.issued
          && (forall i :: i in u.seen && i in w.store.sessions ==> u.body.content.device == Some(w.store.sessions[i]))
          && (u.saw.Some? ==> Lookup(w.store.locks, u.body.content.device.value) == u.saw))
  }

  ghost predicate Exclusive(w: Relay) {
    forall i, j :: i in w.uploads && j in w.uploads && i != j ==>
      && w.uploads[i].body.token != w.uploads[j].body.token
      && !(HoldsLockRow(w.uploads[i], DeviceOf(w.uploads[i])) && HoldsLockRow(w.uploads[j], DeviceOf(w.uploads[i])))
  }

  function DeviceOf(u: Upload): DeviceId {
    if u.body.content.device.Some? then u.body.content.device.value else 0
  }

  /** Nothing of this token was deleted since the log had that length. */
  ghost predicate NotDeletedSince(log: seq<Event>, since: nat, token: Token) {
    forall i :: since <= i < |log| ==> log[i] != Deleted(token)
  }

  /** The row a deletion was signed for keeps its writer until it is deleted. */
  ghost predicate DeletionOk(w: Relay, id: nat)
    requires id in w.deletions
  {
    var d := w.deletions[id];
    d.since <= |w.log| && (NotDeletedSince(w.log, d.since, d.token) ==>
      d.token in w.store.backups && w.store.backups[d.token].content.writer == d.signer)
  }

  ghost predicate Invariant(w: Relay) {
    && Exclusive(w) && (forall id :: id in w.uploads ==> UploadOk(w, id))
    && (forall token :: EpochOk(Acks(w.log, token), Lookup(w.store.backups, token)))
    && w.store.sessions.Keys <= w.issued
    && (forall id :: id in w.deletions ==> DeletionOk(w, id))
  }

  // ----- every step keeps it -----

  /** What an unrefused upload adds to the log of its token. */
  lemma EpochGrows(acks: seq<Event>, prior: Option<Row>, b: Body, stored: Option<Row>)
    requires EpochOk(acks, prior) && !Conflicts(prior, b) && (forall i :: 0 <= i < |acks| ==> acks[i].token == b.token)
    requires stored == if IsReplay(prior, b) then prior else Some(Row(b.version, b.content, b.updatedAt))
    ensures EpochOk(acks + [Acked(b.token, stored.value.version, b.content)], stored)
  {
    var e := Acked(b.token, stored.value.version, b.content);
    var more := acks + [e];
    assert forall i :: 0 <= i < |acks| ==> more[i] == acks[i];
    forall v: nat | 1 <= v <= stored.value.version ensures HasVersion(more, v) {
      if v == stored.value.version {
        assert more[|acks|].version == v;
      } else {
        assert HasVersion(acks, v);
        var i :| 0 <= i < |acks| && acks[i].Acked? && acks[i].version == v;
        assert more[i].version == v;
      }
    }
  }

  lemma AcksOfToken(log: seq<Event>, token: Token)
    ensures forall i :: 0 <= i < |Acks(log, token)| ==> Acks(log, token)[i].token == token
  {
  }

  lemma CommitKeepsEpochs(w: Relay, id: nat, doomed: set<SessionId>, token: Token)
    requires Invariant(w) && Enabled(w, Commit(id, doomed))
    ensures var v := Apply(w, Commit(id, doomed)); EpochOk(Acks(v.log, token), Lookup(v.store.backups, token))
  {
    hide EpochOk, Conflicts, Exclusive;
    var u := w.uploads[id];
    var v := Apply(w, Commit(id, doomed));
    AcksNext(w.log, AckOf(u), token);
    AcksOfToken(w.log, token);
    assert UploadOk(w, id);
    if token == u.body.token { EpochGrows(Acks(w.log, token), u.prior, u.body, Lookup(v.store.backups, token)); }
  }

  lemma StepKeepsEpochs(w: Relay, s: Step, token: Token)
    requires Invariant(w) && Enabled(w, s)
    ensures EpochOk(Acks(Apply(w, s).log, token), Lookup(Apply(w, s).store.backups, token))
  {
    hide Exclusive, UploadOk;
    match s
    case Commit(id, doomed) => CommitKeepsEpochs(w, id, doomed, token);
    case Delete(id) => AcksNext(w.log, Deleted(w.deletions[id].token), token);
    case _ =>
  }

  lemma StepKeepsUploads(w: Relay, s: Step, id: nat)
    requires Invariant(w) && Enabled(w, s) && id in Apply(w, s).uploads
    ensures UploadOk(Apply(w, s), id)
  {
    hide EpochOk, Acks, Conflicts, DeletionOk, CommitPut;
    assert id in w.uploads ==> UploadOk(w, id);
    if s.Commit? { CommitKeepsUploads(w, s.id, s.doomed, id); }
  }

  lemma CommitKeepsUploads(w: Relay, id: nat, doomed: set<SessionId>, other: nat)
    requires Invariant(w) && Enabled(w, Commit(id, doomed)) && other in w.uploads && other != id
    ensures UploadOk(Apply(w, Commit(id, doomed)), other)
  {
    hide EpochOk, Acks, Conflicts, DeletionOk;
    assert UploadOk(w, other) && UploadOk(w, id);
  }

  lemma StepKeepsExclusive(w: Relay, s: Step)
    requires Invariant(w) && Enabled(w, s)
    ensures Exclusive(Apply(w, s))
  {
    hide EpochOk, Acks, Conflicts, CommitPut, UploadOk;
  }

  lemma StepKeepsDeletion(w: Relay, s: Step, id: nat)
    requires Invariant(w) && Enabled(w, s) && id in Apply(w, s).deletions
    ensures DeletionOk(Apply(w, s), id)
  {
    hide EpochOk, Acks, Exclusive;
    var v := Apply(w, s);
    if id in w.deletions {
      assert DeletionOk(w, id);
      assert forall i :: 0 <= i < |w.log| ==> v.log[i] == w.log[i];
      assert s.Delete? ==> v.log[|w.log|] == Deleted(w.deletions[s.id].token);
      if s.Commit? { assert UploadOk(w, s.id); }
    }
  }

  lemma StepKeepsInvariant(w: Relay, s: Step)
    requires Invariant(w) && Enabled(w, s)
    ensures Invariant(Apply(w, s))
  {
    hide EpochOk, Acks, UploadOk, Exclusive, Conflicts, DeletionOk;
    StepKeepsExclusive(w, s);
    forall id | id in Apply(w, s).deletions ensures DeletionOk(Apply(w, s), id) { StepKeepsDeletion(w, s, id); }
    forall id | id in Apply(w, s).uploads ensures UploadOk(Apply(w, s), id) { StepKeepsUploads(w, s, id); }
    forall token
      ensures EpochOk(Acks(Apply(w, s).log, token), Lookup(Apply(w, s).store.backups, token)) { StepKeepsEpochs(w, s, token); }
  }

  lemma {:induction false} RunKeepsInvariant(w: Relay, steps: seq<Step>)
    requires Invariant(w) && IsRun(w, steps)
    ensures Invariant(After(w, steps))
    decreases |steps|
  {
    hide Invariant, Enabled, Apply;
    if steps != [] {
      StepKeepsInvariant(w, steps[0]);
      RunKeepsInvariant(Apply(w, steps[0]), steps[1..]);
    }
  }

  /**
   However uploads and deletions interleave: since the last deletion of a token the
   acknowledged versions are exactly 1, 2, ..., n in order, all by one writer, and two
   acknowledgements of one version carry the same backup.
   */
  lemma BackupLogIsLinear(w: Relay, steps: seq<Step>, token: Token)
    requires Initial(w) && IsRun(w, steps)
    ensures var v := After(w, steps); EpochOk(Acks(v.log, token), Lookup(v.store.backups, token))
  {
    RunKeepsInvariant(w, steps);
  }

  /**
   A deletion takes its writer's own row, on every run, unless the token was deleted and
   used again between its two statements.
   */
  lemma DeletionTakesOwnRow(w: Relay, steps: seq<Step>, id: nat)
    requires Initial(w) && IsRun(w, steps) && Enabled(After(w, steps), Delete(id))
    requires var v := After(w, steps); NotDeletedSince(v.log, v.deletions[id].since, v.deletions[id].token)
    ensures var v := After(w, steps); v.store.backups[v.deletions[id].token].content.writer == v.deletions[id].signer
  {
    RunKeepsInvariant(w, steps);
    hide IsRun, After, EpochOk, Exclusive, Acks, UploadOk;
    assert DeletionOk(After(w, steps), id);
  }

  lemma ReplayIsIdle(v: Relay, id: nat, doomed: set<SessionId>)
    requires Invariant(v) && Enabled(v, Commit(id, doomed)) && !v.uploads[id].body.content.claim
    requires Lookup(v.store.backups, v.uploads[id].body.token).Some?
    requires v.store.backups[v.uploads[id].body.token].content == v.uploads[id].body.content
    ensures Apply(v, Commit(id, doomed)).store == v.store
  {
    hide EpochOk, Exclusive, Acks, DeletionOk, Conflicts;
    assert UploadOk(v, id);
  }

  /** A replay that claims nothing leaves every table as it was, whatever else is under way. */
  lemma ReplayChangesNothing(w: Relay, steps: seq<Step>, id: nat, doomed: set<SessionId>)
    requires Initial(w) && IsRun(w, steps) && Enabled(After(w, steps), Commit(id, doomed))
    requires var v := After(w, steps); var u := v.uploads[id];
             && !u.body.content.claim && u.body.token in v.store.backups
             && v.store.backups[u.body.token].content == u.body.content
    ensures var v := After(w, steps); Apply(v, Commit(id, doomed)).store == v.store
  {
    RunKeepsInvariant(w, steps);
    hide IsRun, After, Invariant, Initial;
    ReplayIsIdle(After(w, steps), id, doomed);
  }

  /** An upload that runs alone is a run of this system. */
  lemma PutAloneIsARun(w: Relay, id: nat, r: Request) returns (steps: seq<Step>)
    requires w.uploads == map[] && !PutAlone(w.store, r).1.Refused?
    ensures IsRun(w, steps) && After(w, steps).store == PutAlone(w.store, r).0 && After(w, steps).uploads == map[]
    ensures After(w, steps).log == w.log + [Acked(r.body.token, PutAlone(w.store, r).1.version, r.body.content)]
  {
    var c := r.body.content;
    var doomed := if c.device.Some? then SessionsOf(w.store, c.device.value) else {};
    var begun := Apply(w, Begin(id, r));
    if HasProof(c) {
      steps := [Begin(id, r), Prove(id), Commit(id, doomed)];
      var proved := Apply(begun, Prove(id));
      assert Enabled(proved, Commit(id, doomed));
      var done := Apply(proved, Commit(id, doomed));
      assert done.uploads == map[];
      assert steps[1..] == [Prove(id), Commit(id, doomed)] && steps[1..][1..] == [Commit(id, doomed)];
      assert IsRun(done, []) && IsRun(proved, [Commit(id, doomed)]) && After(proved, [Commit(id, doomed)]) == done;
      assert IsRun(begun, steps[1..]) && After(begun, steps[1..]) == done;
    } else {
      steps := [Begin(id, r), Commit(id, doomed)];
      assert Enabled(begun, Commit(id, doomed));
      var done := Apply(begun, Commit(id, doomed));
      assert done.uploads == map[];
      assert steps[1..] == [Commit(id, doomed)];
      assert IsRun(done, []) && IsRun(begun, steps[1..]) && After(begun, steps[1..]) == done;
    }
  }
}
