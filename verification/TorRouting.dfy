/**
 The Tor adapter behind the relay-shaped API: background transfers that outlive the
 request that started them, and may therefore outlive the session as well. Sessions
 are compared by object identity, as the source does.
 */
module TorRouting {
  import opened Prelude
  import opened VaultTables
  import opened Databases

  type VaultDatabase = Database<Tables>

  datatype Mode = DirectTorP2p | HybridTorRelay | RelayOnly

  /** What `route` answers; `PassOn` leaves the request to the relay client. */
  datatype Answer = NoContent | Unavailable | PassOn

  class Transport {
    var serverless: bool
    var stopped: bool

    constructor ()
      ensures !stopped
    {
      serverless, stopped := false, false;
    }

    method Close()
      modifies this
      ensures stopped && !serverless
    {
      serverless, stopped := false, true;
    }
  }

  /** A transfer together with everything it captured when it started. */
  datatype Job = Job(envelope: Envelope, database: VaultDatabase, transport: Transport?)

  function Elements(ids: seq<EnvelopeId>): set<EnvelopeId> {
    set e | e in ids
  }

  /** The ids an acknowledgement did not find in the inbox, each tried in turn. */
  function NotRemoved(inbox: set<EnvelopeId>, ids: seq<EnvelopeId>): (left: seq<EnvelopeId>)
    ensures forall e :: e in left ==> e in ids
    ensures forall e :: e in ids && e !in inbox ==> e in left
  {
    if ids == [] then [] else
    var before, e := NotRemoved(inbox, ids[..|ids| - 1]), ids[|ids| - 1];
    if e in inbox && e !in ids[..|ids| - 1] then before else before + [e]
  }

  /** Without duplicates, the relay is told about exactly the envelopes Tor did not bring. */
  lemma {:induction false} NotRemovedExactly(inbox: set<EnvelopeId>, ids: seq<EnvelopeId>)
    requires forall i, j :: 0 <= i < j < |ids| ==> ids[i] != ids[j]
    ensures forall e :: e in NotRemoved(inbox, ids) <==> e in ids && e !in inbox
  {
    if ids != [] {
      NotRemovedExactly(inbox, ids[..|ids| - 1]);
    }
  }

  /** The envelope has left both outboxes, and its message is no longer queued. */
  ghost predicate IsAccepted(t: Tables, u: Tables, e: EnvelopeId) {
    && u.outbox == t.outbox - {e} && u.controls == t.controls - {e} && u.messages.Keys == t.messages.Keys
    && (forall m :: m in t.messages ==>
          var moved := e in t.outbox && t.outbox[e].message == m && t.messages[m].status == Queued;
          u.messages[m] == if moved then t.messages[m].(status := Sent) else t.messages[m])
    && u.contacts == t.contacts && u.inbox == t.inbox && u.seen == t.seen && u.consumed == t.consumed
  }

  class Routing {
    var mode: Mode
    var transport: Transport?
    var database: Database?<Tables>
    var jobs: set<EnvelopeId>
    var relayPrepared: bool

    constructor ()
      ensures mode == DirectTorP2p && transport == null && database == null && jobs == {} && !relayPrepared
    {
      mode, transport, database, jobs, relayPrepared := DirectTorP2p, null, null, {}, false;
    }

    /** The deletion and the choice of what still concerns the relay are one transaction. */
    method RouteAck(ids: seq<EnvelopeId>) returns (answer: Answer, relayIds: seq<EnvelopeId>)
      requires database != null
      modifies database
      ensures database.savepoint == old(database.savepoint)
      ensures mode == RelayOnly ==> database.tables == old(database.tables) && answer == PassOn && relayIds == ids
      ensures mode != RelayOnly ==>
                && database.tables == AckInbox(old(database.tables), Elements(ids))
                && relayIds == NotRemoved(old(database.tables.inbox.Keys), ids)
                && answer == (if mode == HybridTorRelay && relayIds != [] then PassOn else NoContent)
    {
      if mode == RelayOnly { return PassOn, ids; }
      relayIds := [];
      for i := 0 to |ids|
        invariant database.savepoint == old(database.savepoint)
        invariant database.tables == AckInbox(old(database.tables), Elements(ids[..i]))
        invariant relayIds == NotRemoved(old(database.tables.inbox.Keys), ids[..i])
      {
        assert ids[..i + 1][..i] == ids[..i];
        if ids[i] in database.tables.inbox {
          database.tables := AckInbox(database.tables, {ids[i]});
        } else {
          relayIds := relayIds + [ids[i]];
        }
      }
      assert ids[..|ids|] == ids;
      answer := if mode == HybridTorRelay && relayIds != [] then PassOn else NoContent;
    }

    /** Whether a transfer is left to a background job. */
    predicate Carries(onion: bool)
      reads this, transport
    {
      (onion && transport != null && transport.serverless) || (mode == HybridTorRelay && relayPrepared)
    }

    /** Starts at most one job per envelope; nothing reaches a table here. */
    method RouteSend(x: Envelope, onion: bool) returns (answer: Answer, started: Option<Job>)
      requires database != null
      modifies this`jobs
      ensures answer == if AsksRelay(this, onion) then PassOn else Unavailable
      ensures started == if GoesToJob(this, onion) && x.id !in old(jobs) then Some(Job(x, database, transport)) else None
      ensures jobs == if GoesToJob(this, onion) then old(jobs) + {x.id} else old(jobs)
    {
      if mode == RelayOnly { return PassOn, None; }
      started := None;
      if Carries(onion) {
        if x.id !in jobs {
          jobs := jobs + {x.id};
          started := Some(Job(x, database, transport));
        }
        return Unavailable, started;
      }
      answer := if mode == HybridTorRelay then PassOn else Unavailable;
    }

    /** The session the job was started in is still the open one, and still running. */
    predicate StillOpen(job: Job)
      reads this, transport
    {
      transport == job.transport && (transport != null ==> !transport.stopped) && database == job.database
    }

    /** May the job fall back to the relay? Asked inside the serialised queue. */
    method MayUseRelay(job: Job) returns (allowed: bool)
      ensures allowed <==> mode == HybridTorRelay && relayPrepared && transport == job.transport && database == job.database
                           && (transport != null ==> !transport.stopped)
    {
      allowed := mode == HybridTorRelay && relayPrepared && StillOpen(job);
    }

    /**
     The end of a job. Only the database the job was started with can change, and only
     while it is the open one under the same running transport; the job slot is freed
     in every case.
     */
    method FinishJob(job: Job, accepted: bool)
      modifies this`jobs, job.database
      ensures jobs == old(jobs) - {job.envelope.id}
      ensures job.database.savepoint == old(job.database.savepoint)
      ensures job.database.tables ==
              (if accepted && StillOpen(job) then MarkAccepted(old(job.database.tables), job.envelope.id)
               else old(job.database.tables))
      ensures accepted && transport == job.transport && database == job.database && (transport != null ==> !transport.stopped) ==>
                IsAccepted(old(job.database.tables), job.database.tables, job.envelope.id)
    {
      if accepted && StillOpen(job) {
        var t, e := database.tables, job.envelope.id;
        var moved := map m | m in t.messages ::
          if e in t.outbox && t.outbox[e].message == m && t.messages[m].status == Queued
          then t.messages[m].(status := Sent) else t.messages[m];
        database.tables := t.(messages := moved);
        database.tables := database.tables.(outbox := t.outbox - {e});
        database.tables := database.tables.(controls := t.controls - {e});
      }
      jobs := jobs - {job.envelope.id};
    }

    /** stopTor, as it runs when the vault is locked or another one is opened. */
    method StopTor()
      modifies this`transport, transport
      ensures transport == null && (old(transport) != null ==> old(transport).stopped)
    {
      if transport != null { transport.Close(); }
      transport := null;
    }

    /** Locking: from here on no job of this session can pass its guard. */
    method Lock()
      modifies this`transport, this`database, transport
      ensures transport == null && database == null && (old(transport) != null ==> old(transport).stopped)
      ensures forall job: Job :: !StillOpen(job)
    {
      StopTor();
      database := null;
    }

    /** Unlocking, or switching vaults, always yields a new database object. */
    method Open(stored: Tables) returns (db: VaultDatabase)
      modifies this`transport, this`database, transport
      ensures fresh(db) && db.tables == stored && database == db
      ensures transport == null && (old(transport) != null ==> old(transport).stopped)
      ensures forall job: Job :: allocated(job) && old(allocated(job)) ==> !StillOpen(job)
    {
      StopTor();
      db := new Database<Tables>(stored);
      database := db;
    }
  }

  /** The envelope goes to a background job: over Tor to a peer whose onion is known, or to the prepared relay. */
  ghost predicate GoesToJob(routing: Routing, onion: bool)
    reads routing`mode, routing`transport, routing`relayPrepared, routing.transport
  {
    && routing.mode != RelayOnly
    && (|| (onion && routing.transport != null && routing.transport.serverless)
        || (routing.mode == HybridTorRelay && routing.relayPrepared))
  }

  /** The relay is asked in this request: never in the direct mode, nor for what goes to a job. */
  ghost predicate AsksRelay(routing: Routing, onion: bool)
    reads routing`mode, routing`transport, routing`relayPrepared, routing.transport
  {
    routing.mode == RelayOnly || (routing.mode == HybridTorRelay && !GoesToJob(routing, onion))
  }

  lemma AskedExcludesJob(routing: Routing, onion: bool)
    ensures AsksRelay(routing, onion) ==> !GoesToJob(routing, onion)
    ensures AsksRelay(routing, onion) ==>
              routing.mode == RelayOnly || (routing.mode == HybridTorRelay && !routing.relayPrepared)
  {
  }

  // ----- the download loop -----

  /** A downloaded chunk: its nonce and the length of its ciphertext. */
  datatype Part = Part(nonce: nat, size: nat)

  datatype Write = Write(database: VaultDatabase, index: nat, part: Part)

  /** What may happen to the session while the loop awaits something. */
  datatype Event = TorStops | TorFails | VaultLocks | VaultOpens(stored: Tables) | TorStarts

  /** What the manifest lets through. */
  predicate PartFits(nonces: seq<nat>, i: nat, answer: Option<Part>) {
    i < |nonces| && answer.Some? && answer.value.nonce == nonces[i] && answer.value.size <= 65552
  }

  /** Nothing but attempts to start what is running already. */
  predicate Harmless(events: seq<Event>) {
    forall i :: 0 <= i < |events| ==> events[i].TorStarts?
  }

  /**
   Any number of locks, unlocks, switches, failures and restarts in a row. A transport
   that is still the current one and still running belongs to an unchanged session, and
   that is so exactly when nothing has happened; one that was replaced or stopped stays so.
   */
  method Interfere(routing: Routing, events: seq<Event>)
    modifies routing`transport, routing`database, routing.transport
    ensures routing.transport == old(routing.transport) && routing.transport != null && !routing.transport.stopped ==>
              routing.database == old(routing.database)
    ensures routing.transport == old(routing.transport) || routing.transport == null || fresh(routing.transport)
    ensures old(routing.transport) != null && old(routing.transport.stopped) ==> old(routing.transport).stopped
    ensures old(routing.transport) != null && !old(routing.transport.stopped) && Harmless(events) ==>
              routing.transport == old(routing.transport) && !routing.transport.stopped
    ensures old(routing.transport) != null && !Harmless(events) ==>
              routing.transport != old(routing.transport) || routing.transport.stopped
  {
    ghost var first := routing.transport;
    for i := 0 to |events|
      invariant routing.transport == first && first != null && !first.stopped ==> routing.database == old(routing.database)
      invariant routing.transport == first || routing.transport == null || fresh(routing.transport)
      invariant first != null && old(routing.transport.stopped) ==> first.stopped
      invariant first != null && !old(routing.transport.stopped) && Harmless(events[..i]) ==>
                  routing.transport == first && !first.stopped
      invariant first != null && !Harmless(events[..i]) ==> routing.transport != first || first.stopped
    {
      assert events[..i + 1] == events[..i] + [events[i]];
      match events[i] {
        case TorStops => routing.StopTor();
        case TorFails => if routing.transport != null { routing.transport.Close(); }
        case VaultLocks => routing.Lock();
        case VaultOpens(stored) => var db := routing.Open(stored);
        case TorStarts =>
          if routing.database != null && (routing.transport == null || routing.transport.stopped) {
            routing.transport := new Transport();
          }
      }
    }
    assert events[..|events|] == events;
  }

  /**
   Downloads chunk after chunk. Anything may happen to the session before each answer
   and again between an answer and its write, which looks at the transport alone. No
   chunk reaches another database than the one the download began with, and what is
   cached is a prefix of the manifest: all of it up to the first unfit answer or the
   first thing that happens to the session, and the whole file if there is neither.
   */
  method DownloadBlob(routing: Routing, nonces: seq<nat>, answers: seq<Option<Part>>, awaiting: seq<seq<Event>>,
      queueing: seq<seq<Event>>)
    returns (written: seq<Write>, failed: bool)
    requires routing.transport != null && !routing.transport.stopped && routing.database != null
    requires |answers| == |awaiting| == |queueing| == |nonces|
    modifies routing`transport, routing`database, routing.transport
    ensures |written| <= |nonces| && (failed <==> |written| < |nonces|)
    ensures forall k :: 0 <= k < |written| ==>
              && answers[k].Some? && answers[k].value.nonce == nonces[k] && answers[k].value.size <= 65552
              && written[k] == Write(old(routing.database), k, answers[k].value)
              && Harmless(awaiting[k]) && Harmless(queueing[k])
    ensures failed ==>
              var k := |written|;
              !(&& answers[k].Some? && answers[k].value.nonce == nonces[k] && answers[k].value.size <= 65552
                && Harmless(awaiting[k]) && Harmless(queueing[k]))
  {
    hide Harmless;
    var transport := routing.transport;
    ghost var database := routing.database;
    written, failed := [], false;
    for i := 0 to |nonces|
      invariant |written| == i && routing.transport == transport && !transport.stopped && routing.database == database
      invariant forall k :: 0 <= k < i ==>
                  && PartFits(nonces, k, answers[k]) && written[k] == Write(database, k, answers[k].value)
                  && Harmless(awaiting[k]) && Harmless(queueing[k])
    {
      Interfere(routing, awaiting[i]);
      if !PartFits(nonces, i, answers[i]) { return written, true; }
      Interfere(routing, queueing[i]);
      if routing.transport != transport || transport.stopped { return written, true; }
      written := written + [Write(routing.database, i, answers[i].value)];
    }
  }
}
