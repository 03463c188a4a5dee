/**
 The relay's versioned backup store: one row per lookup token, written by
 compare-and-swap on the version, and one lock row per device naming the only vault
 instance that may act for it.

 Hashes are taken as injective and a signature as its signer together with what was
 signed, so comparing digests is comparing contents.
 */
module BackupStore {
  import opened Prelude
  import opened Databases

  type Token = nat
  type DeviceId = nat
  type Instance = nat
  type Key = nat
  type SessionId = nat

  datatype DeviceSignature = DeviceSignature(key: Key, instance: Instance)

  /** Everything two uploads must share to count as the same backup. */
  datatype Content = Content(nonce: nat, ciphertext: nat, shard: nat, writer: Key, device: Option<DeviceId>,
                             instance: Option<Instance>, deviceSignature: Option<DeviceSignature>, claim: bool)

  datatype Body = Body(token: Token, version: nat, content: Content, updatedAt: nat)

  datatype WriterSignature = WriterSignature(key: Key, body: Body)

  datatype Request = Request(pathToken: Option<Token>, body: Body, size: nat, keyLength: nat,
                             signature: WriterSignature, digest: Option<nat>)

  datatype Row = Row(version: nat, content: Content, updatedAt: nat)

  /** `devices` holds the registered, unrevoked device keys. */
  datatype Store = Store(backups: map<Token, Row>, locks: map<DeviceId, Instance>,
                         sessions: map<SessionId, DeviceId>, devices: map<DeviceId, Key>)

  datatype Refusal = LookupMismatch | TooLarge | InvalidSignature | DigestMismatch | Conflict | IncompleteProof
                   | InvalidProof | VaultMoved | NotFound | Interrupted

  datatype Reply = Stored(version: nat) | Skipped(version: nat) | Refused(reason: Refusal)

  /** The checks made before a transaction is opened, in order. */
  function Screen(r: Request): Option<Refusal> {
    if r.pathToken.Some? && r.pathToken.value != r.body.token then Some(LookupMismatch)
    else if r.size < 16 || r.size > 64 * 1024 * 1024 then Some(TooLarge)
    else if r.keyLength != 44 || r.signature != WriterSignature(r.body.content.writer, r.body) then Some(InvalidSignature)
    else if r.digest.Some? && r.digest.value != r.body.content.ciphertext then Some(DigestMismatch)
    else None
  }

  function Lookup<K, V>(rows: map<K, V>, k: K): Option<V> {
    if k in rows then Some(rows[k]) else None
  }

  function VersionOf(prior: Option<Row>): nat {
    if prior.Some? then prior.value.version else 0
  }

  predicate Identical(prior: Option<Row>, b: Body) {
    prior.Some? && prior.value.content == b.content
  }

  predicate Conflicts(prior: Option<Row>, b: Body) {
    || (prior.Some? && prior.value.content.writer != b.content.writer)
    || (b.version != VersionOf(prior) + 1 && !(Identical(prior, b) && b.version == VersionOf(prior)))
  }

  predicate HasProof(c: Content) {
    c.device.Some? || c.instance.Some? || c.deviceSignature.Some?
  }

  predicate ProofComplete(c: Content) {
    c.device.Some? && c.instance.Some? && c.deviceSignature.Some?
  }

  predicate ProofGenuine(devices: map<DeviceId, Key>, c: Content)
    requires ProofComplete(c)
  {
    c.device.value in devices && c.deviceSignature.value == DeviceSignature(devices[c.device.value], c.instance.value)
  }

  /** The lock row names another instance, and the upload does not claim the device. */
  predicate LockRefuses(saw: Option<Instance>, c: Content)
    requires ProofComplete(c)
  {
    saw.Some? && saw.value != c.instance.value && !c.claim
  }

  predicate IsReplay(prior: Option<Row>, b: Body) {
    Identical(prior, b) && !b.content.claim
  }

  predicate WritesLock(prior: Option<Row>, b: Body) {
    HasProof(b.content) && !IsReplay(prior, b)
  }

  /** The committed effect of an upload; `doomed` are the sessions its DELETE found. */
  function CommitPut(s: Store, prior: Option<Row>, b: Body, doomed: set<SessionId>): Store
    requires HasProof(b.content) ==> ProofComplete(b.content)
  {
    var locked := if WritesLock(prior,
        b) then s.(locks := s.locks[b.content.device.value := b.content.instance.value]) else s;
    var ended := if HasProof(b.content) && b.content.claim then locked.(sessions := locked.sessions - doomed) else locked;
    if IsReplay(prior, b) then ended
    else ended.(backups := ended.backups[b.token := Row(b.version, b.content, b.updatedAt)])
  }

  function SessionsOf(s: Store, d: DeviceId): set<SessionId> {
    set i | i in s.sessions && s.sessions[i] == d
  }

  function ReplyTo(prior: Option<Row>, b: Body): Reply
  {
    if IsReplay(prior, b) then Skipped(prior.value.version) else Stored(b.version)
  }

  /** Why an upload that runs alone is refused. */
  function Refuses(s: Store, r: Request): Option<Refusal> {
    var prior, c := Lookup(s.backups, r.body.token), r.body.content;
    if Screen(r).Some? then Screen(r)
    else if Conflicts(prior, r.body) then Some(Conflict)
    else if !HasProof(c) then None
    else if !ProofComplete(c) then Some(IncompleteProof)
    else if !ProofGenuine(s.devices, c) then Some(InvalidProof)
    else if LockRefuses(Lookup(s.locks, c.device.value), c) then Some(VaultMoved)
    else None
  }

  function PutAlone(s: Store, r: Request): (Store, Reply) {
    if Refuses(s, r).Some? then (s, Refused(Refuses(s, r).value)) else
    var prior, c := Lookup(s.backups, r.body.token), r.body.content;
    (CommitPut(s, prior, r.body, if c.device.Some? then SessionsOf(s, c.device.value) else {}), ReplyTo(prior, r.body))
  }

  /** Where the connection to the database breaks during a deletion, if it does. */
  datatype Cut = Unbroken | BeforeDelete | AfterDelete

  /** The DELETE route: `before` is what its SELECT saw, `meanwhile` what its DELETE finds. */
  function DeleteRow(before: map<Token, Row>, meanwhile: map<Token, Row>, token: Token, version: nat, signer: Key,
      cut: Cut): (map<Token, Row>, Reply)
  {
    if token !in before || before[token].content.writer != signer then (before, Refused(NotFound))
    else if cut == BeforeDelete then (meanwhile, Refused(Interrupted))
    else
      var current := token in meanwhile && meanwhile[token].version == version;
      (if current then meanwhile - {token} else meanwhile,
       if cut == AfterDelete then Refused(Interrupted) else if current then Stored(version) else Refused(Conflict))
  }

  // ----- which uploads are accepted -----

  /** Well-formed, signed by its writer, and about the token of the path and the bytes of the digest if given. */
  ghost predicate WellMade(r: Request) {
    && (r.pathToken == None || r.pathToken == Some(r.body.token))
    && 16 <= r.size <= 67108864 && r.keyLength == 44
    && r.signature.key == r.body.content.writer && r.signature.body == r.body
    && (r.digest == None || r.digest == Some(r.body.content.ciphertext))
  }

  /** The first version, or by the same writer the next one, or the stored backup itself once more. */
  ghost predicate Succeeds(backups: map<Token, Row>, b: Body) {
    if b.token !in backups then b.version == 1 else
    var row := backups[b.token];
    && row.content.writer == b.content.writer
    && (b.version == row.version + 1 || (b.version == row.version && row.content == b.content))
  }

  /** No word about a device. */
  ghost predicate Silent(c: Content) {
    c.device == None && c.instance == None && c.deviceSignature == None
  }

  /** The instance is vouched for by the registered device. */
  ghost predicate Vouched(devices: map<DeviceId, Key>, c: Content) {
    && c.device.Some? && c.instance.Some? && c.deviceSignature.Some? && c.device.value in devices
    && c.deviceSignature.value.key == devices[c.device.value] && c.deviceSignature.value.instance == c.instance.value
  }

  /** The device is free, held by this very instance, or claimed. */
  ghost predicate MayHold(locks: map<DeviceId, Instance>, c: Content) {
    c.device.Some? && c.instance.Some? && c.device.value in locks ==>
      locks[c.device.value] == c.instance.value || c.claim
  }

  /** The four conditions of an upload that runs alone, in the order in which they are asked. */
  ghost predicate IsAccepted(s: Store, r: Request) {
    && WellMade(r) && Succeeds(s.backups, r.body)
    && (Silent(r.body.content) || (Vouched(s.devices, r.body.content) && MayHold(s.locks, r.body.content)))
  }

  /** Each refusal has its own reason, and none of the earlier ones. */
  ghost predicate IsRefusedFor(s: Store, r: Request, reason: Refusal) {
    var c := r.body.content;
    var otherToken := r.pathToken.Some? && r.pathToken.value != r.body.token;
    var fits := 16 <= r.size <= 67108864;
    var signed := r.keyLength == 44 && r.signature.key == c.writer && r.signature.body == r.body;
    match reason
    case LookupMismatch => otherToken
    case TooLarge => !otherToken && !fits
    case InvalidSignature => !otherToken && fits && !signed
    case DigestMismatch => !otherToken && fits && signed && r.digest.Some? && r.digest.value != c.ciphertext
    case Conflict => WellMade(r) && !Succeeds(s.backups, r.body)
    case IncompleteProof =>
      && WellMade(r) && Succeeds(s.backups, r.body) && !Silent(c)
      && (c.device == None || c.instance == None || c.deviceSignature == None)
    case InvalidProof =>
      && WellMade(r) && Succeeds(s.backups, r.body) && c.device.Some? && c.instance.Some? && c.deviceSignature.Some?
      && !Vouched(s.devices, c)
    case VaultMoved => WellMade(r) && Succeeds(s.backups, r.body) && Vouched(s.devices, c) && !MayHold(s.locks, c)
    case _ => false
  }

  /**
   What an accepted upload leaves: the stored backup sent again without a claim changes
   nothing; otherwise its row is stored, its device is held by its instance, and a claim
   has ended every session of the device.
   */
  ghost predicate IsStored(s: Store, t: Store, b: Body, reply: Reply) {
    var c := b.content;
    var again := b.token in s.backups && s.backups[b.token].content == c && !c.claim;
    && t.devices == s.devices
    && (reply == if again then Skipped(s.backups[b.token].version) else Stored(b.version))
    && (again ==> t == s)
    && (!again ==>
          && t.backups == s.backups[b.token := Row(b.version, c, b.updatedAt)]
          && t.locks == (if c.device.Some? && c.instance.Some? then s.locks[c.device.value := c.instance.value] else s.locks)
          && t.sessions == map i | i in s.sessions && !(c.claim && c.device == Some(s.sessions[i])) :: s.sessions[i])
  }

  lemma PutAloneAnswers(s: Store, r: Request)
    ensures !PutAlone(s, r).1.Refused? <==> IsAccepted(s, r)
    ensures forall reason :: PutAlone(s, r).1 == Refused(reason) <==> IsRefusedFor(s, r, reason)
    ensures if IsAccepted(s, r) then IsStored(s, PutAlone(s, r).0, r.body, PutAlone(s, r).1) else PutAlone(s, r).0 == s
  {
    if IsAccepted(s, r) { PutAloneStores(s, r); }
  }

  lemma PutAloneStores(s: Store, r: Request)
    requires !PutAlone(s, r).1.Refused?
    ensures IsStored(s, PutAlone(s, r).0, r.body, PutAlone(s, r).1)
  {
    var t, c := PutAlone(s, r).0, r.body.content;
    if c.device.Some? {
      assert forall i :: i in SessionsOf(s, c.device.value) <==> i in s.sessions && s.sessions[i] == c.device.value;
    }
  }

  // ----- the routes -----

  class BackupRoutes {
    const db: Database<Store>

    constructor (db: Database<Store>)
      ensures this.db == db
    {
      this.db := db;
    }

    /**
     The PUT route, statement by statement; `failsAt` is the statement at which the
     connection breaks. Refused or interrupted, it leaves every table as it was.
     */
    method Put(r: Request, failsAt: nat) returns (reply: Reply)
      requires db.savepoint == None
      modifies db
      ensures db.savepoint == None
      ensures || (db.tables, reply) == PutAlone(old(db.tables), r)
              || (reply == Refused(Interrupted) && db.tables == old(db.tables))
      ensures failsAt >= 4 ==> (!reply.Refused? <==> IsAccepted(old(db.tables), r))
      ensures failsAt >= 4 ==> forall reason :: reply == Refused(reason) <==> IsRefusedFor(old(db.tables), r, reason)
      ensures !reply.Refused? ==> IsAccepted(old(db.tables), r) && IsStored(old(db.tables), db.tables, r.body, reply)
      ensures reply.Refused? ==> db.tables == old(db.tables)
    {
      PutAloneAnswers(db.tables, r);
      hide IsAccepted, IsRefusedFor, IsStored;
      var b := r.body;
      var c := b.content;
      if Screen(r).Some? { return Refused(Screen(r).value); }
      db.Begin();
      if failsAt == 0 { db.Rollback(); return Refused(Interrupted); }
      var prior := if b.token in db.tables.backups then Some(db.tables.backups[b.token]) else None;
      var identical := prior.Some? && prior.value.content == c;
      if (prior.Some? && prior.value.content.writer != c.writer)
         || (b.version != VersionOf(prior) + 1 && !(identical && b.version == VersionOf(prior))) {
        db.Rollback();
        return Refused(Conflict);
      }
      if HasProof(c) {
        if !ProofComplete(c) { db.Rollback(); return Refused(IncompleteProof); }
        var d, h := c.device.value, c.instance.value;
        if d !in db.tables.devices || c.deviceSignature.value != DeviceSignature(db.tables.devices[d], h) {
          db.Rollback();
          return Refused(InvalidProof);
        }
        if d in db.tables.locks && db.tables.locks[d] != h && !c.claim {
          db.Rollback();
          return Refused(VaultMoved);
        }
        if !identical || c.claim { db.tables := db.tables.(locks := db.tables.locks[d := h]); }
        if failsAt == 1 { db.Rollback(); return Refused(Interrupted); }
        if c.claim {
          var doomed := set i | i in db.tables.sessions && db.tables.sessions[i] == d;
          db.tables := db.tables.(sessions := db.tables.sessions - doomed);
        }
        if failsAt == 2 { db.Rollback(); return Refused(Interrupted); }
      }
      if identical && !c.claim {
        db.Commit();
        return Skipped(prior.value.version);
      }
      db.tables := db.tables.(backups := db.tables.backups[b.token := Row(b.version, c, b.updatedAt)]);
      if failsAt == 3 { db.Rollback(); return Refused(Interrupted); }
      db.Commit();
      reply := Stored(b.version);
    }

    /**
     The DELETE route: two statements, each its own transaction. `meanwhile` is what the
     table holds when the second one comes; `cut` tells where the connection breaks.
     */
    method Delete(token: Token, version: nat, signer: Key, meanwhile: map<Token, Row>, cut: Cut) returns (reply: Reply)
      modifies db`tables
      ensures (db.tables.backups, reply) == DeleteRow(old(db.tables.backups), meanwhile, token, version, signer, cut)
      ensures db.tables == old(db.tables).(backups := db.tables.backups)
      ensures var before := old(db.tables.backups);
              var mine := token in before && before[token].content.writer == signer;
              var current := token in meanwhile && meanwhile[token].version == version;
              && (reply == Refused(NotFound) <==> !mine)
              && (reply == Refused(Interrupted) <==> mine && cut != Unbroken)
              && (reply == Refused(Conflict) <==> mine && cut == Unbroken && !current)
              && (reply == Stored(version) <==> mine && cut == Unbroken && current)
              && db.tables.backups == if !mine then before
                                      else if current && cut != BeforeDelete then meanwhile - {token} else meanwhile
    {
      if token !in db.tables.backups || db.tables.backups[token].content.writer != signer { return Refused(NotFound); }
      db.tables := db.tables.(backups := meanwhile);
      if cut == BeforeDelete { return Refused(Interrupted); }
      var rowCount := 0;
      if token in db.tables.backups && db.tables.backups[token].version == version {
        db.tables := db.tables.(backups := db.tables.backups - {token});
        rowCount := 1;
      }
      if cut == AfterDelete { return Refused(Interrupted); }
      reply := if rowCount == 1 then Stored(version) else Refused(Conflict);
    }
  }

  // ----- what a deletion promises -----

  /**
   What the status of a failed deletion tells its caller: 403 and 409 leave every row as
   it was; 500 leaves it open, since the connection can break after the DELETE.
   */
  lemma StatusTellsIff(reason: Refusal)
    requires reason in {NotFound, Conflict, Interrupted}
    ensures (forall rows, token, version, signer, cut :: DeleteRow(rows, rows, token, version, signer, cut).1 == Refused(reason)
               ==> DeleteRow(rows, rows, token, version, signer, cut).0 == rows)
            <==> reason != Interrupted
  {
    if reason == Interrupted {
      var row := Row(1, Content(0, 0, 0, 7, None, None, None, false), 0);
      var (rows, reply) := DeleteRow(map[3 := row], map[3 := row], 3, 1, 7, AfterDelete);
      assert 3 !in rows && reply == Refused(Interrupted);
      assert rows != map[3 := row];
    }
  }

  // ----- what one upload promises -----

  /**
   An upload that is not refused either replaces exactly the version before it, or is
   the very backup already stored; a replay that claims nothing changes nothing.
   */
  lemma PutReplacesItsPredecessor(s: Store, r: Request)
    requires !PutAlone(s, r).1.Refused?
    ensures var (t, reply) := PutAlone(s, r);
            var b := r.body;
            && (b.token in s.backups ==> s.backups[b.token].content.writer == b.content.writer)
            && (Identical(Lookup(s.backups, b.token), b) || b.version == VersionOf(Lookup(s.backups, b.token)) + 1)
            && (reply.Skipped? ==> && t == s && b.token in s.backups
                                   && s.backups[b.token].content == b.content && reply.version == s.backups[b.token].version)
            && (reply.Stored? ==> t.backups == s.backups[b.token := Row(b.version, b.content, b.updatedAt)])
  {
  }

  /** A lock row changes only through a claim; and after a claim its device has no old session. */
  lemma PutAloneRespectsLocks(s: Store, r: Request, d: DeviceId)
    ensures var t := PutAlone(s, r).0;
            && (d in s.locks ==> d in t.locks && (t.locks[d] != s.locks[d] ==>
                  && r.body.content.claim && r.body.content.device == Some(d)
                  && t.locks[d] == r.body.content.instance.value
                  && forall i :: i in t.sessions ==> t.sessions[i] != d))
            && (d !in s.locks && d in t.locks ==>
                      r.body.content.device == Some(d) && r.body.content.instance == Some(t.locks[d]))
  {
  }

  // ----- who may act for a device -----

  /** The instance check of authMiddleware, for a session that is otherwise in order. */
  predicate Authenticates(s: Store, session: SessionId, instance: Option<Instance>, d: DeviceId) {
    && session in s.sessions && s.sessions[session] == d && d in s.devices
    && (d in s.locks ==> instance == Some(s.locks[d]))
  }
}
