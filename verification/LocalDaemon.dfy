/**
 The message operations of the desktop daemon, statement by statement on its database:
 sending, flushing the two outboxes, and receiving. The caller holds the request queue,
 so no other operation runs in between.

 Whatever can throw is a parameter: `failsAt` numbers the statement that fails. Random
 identifiers and SQLite's row numbers are parameters too, and so are the rows a SELECT
 returned.
 */
module LocalDaemon {
  import opened Prelude
  import opened VaultTables
  import opened Databases
  import opened TorRouting

  datatype Failure = ConversationNotFound | IdentityChangedBlocked | Thrown

  // ----- sending -----

  /** The contact's session counter after one more encryption, and the ciphertext that used the old value. */
  ghost predicate IsSealed(t: Tables, u: Tables, me: DeviceId, peer: DeviceId, payload: Payload, c: Ciphertext)
    requires peer in t.contacts
  {
    var Contact(changed, RatchetKey(session, index)) := t.contacts[peer];
    && u.contacts == t.contacts[peer := Contact(changed, RatchetKey(session, index + 1))]
    && c == Ciphertext(me, peer, RatchetKey(session, index), payload)
  }

  /** Sending leaves these as they were. */
  ghost predicate OthersKept(t: Tables, u: Tables) {
    u.inbox == t.inbox && u.seen == t.seen && u.consumed == t.consumed
  }

  /**
   Either the ratchet advance, the message row and the exact retry bytes are committed
   together, or nothing is: after a rollback the session counter is the old one.
   */
  method SendMessage(db: VaultDatabase, me: DeviceId, peer: DeviceId, e: EnvelopeId, m: MessageId,
                     ttl: nat, now: nat, rowid: nat, outboxRowid: nat, failsAt: nat)
    returns (r: Result<MessageId, Failure>)
    requires db.savepoint == None
    modifies db
    ensures db.savepoint == None
    ensures r.Ok? <==> Usable(old(db.tables), peer) && failsAt >= 4
    ensures r.Ok? ==> r.value == m && db.tables == CommitSend(old(db.tables), me, peer, e, m, ttl, now, rowid, outboxRowid)
    ensures r.Ok? ==>
              && var t := old(db.tables);
                 var deadline := if ttl == 0 then None else Some(now + 1000 * ttl);
                 var row := Message(rowid, peer, true, Queued, deadline, None, None);
                 && t.contacts[peer].identityChanged == false && db.tables.messages == t.messages[m := row]
                 && e in db.tables.outbox && IsSealed(t, db.tables, me, peer, Text(m, ttl), db.tables.outbox[e].ciphertext)
                 && db.tables.outbox == t.outbox[e := OutboxRow(outboxRowid, m, peer, db.tables.outbox[e].ciphertext, now)]
                 && db.tables.controls == t.controls && OthersKept(t, db.tables)
    ensures r.Err? ==> db.tables == old(db.tables)
    ensures r == Err(ConversationNotFound) <==> peer !in old(db.tables.contacts)
    ensures r == Err(IdentityChangedBlocked) <==> peer in old(db.tables.contacts) && old(db.tables.contacts)[peer].identityChanged
  {
    if peer !in db.tables.contacts { return Err(ConversationNotFound); }
    if db.tables.contacts[peer].identityChanged { return Err(IdentityChangedBlocked); }
    db.Begin();
    if failsAt == 0 { db.Rollback(); return Err(Thrown); }
    var sealed := Ciphertext(me, peer, db.tables.contacts[peer].next, Text(m, ttl));
    var c := db.tables.contacts[peer];
    db.tables := db.tables.(contacts := db.tables.contacts[peer := c.(next := c.next.(index := c.next.index + 1))]);
    if failsAt == 1 { db.Rollback(); return Err(Thrown); }
    var disappearAt := if ttl == 0 then None else Some(now + ttl * 1000);
    db.tables := db.tables.(messages := db.tables.messages[m := Message(rowid, peer, true, Queued, disappearAt, None, None)]);
    if failsAt == 2 { db.Rollback(); return Err(Thrown); }
    db.tables := db.tables.(outbox := db.tables.outbox[e := OutboxRow(outboxRowid, m, peer, sealed, now)]);
    if failsAt == 3 { db.Rollback(); return Err(Thrown); }
    db.Commit();
    r := Ok(m);
  }

  /** Runs inside the transaction of its caller, and leaves rolling back to it. */
  method QueueControl(db: VaultDatabase, me: DeviceId, peer: DeviceId, e: EnvelopeId, payload: Payload, now: nat,
      rowid: nat)
    returns (r: Result<EnvelopeId, Failure>)
    modifies db`tables
    ensures r.Ok? <==> Usable(old(db.tables), peer)
    ensures r.Ok? ==> db.tables == CommitControl(old(db.tables), me, peer, e, payload, now, rowid)
    ensures r.Ok? ==>
              && var t := old(db.tables);
                 && t.contacts[peer].identityChanged == false && r.value == e
                 && e in db.tables.controls && IsSealed(t, db.tables, me, peer, payload, db.tables.controls[e].ciphertext)
                 && db.tables.controls == t.controls[e := ControlRow(rowid, peer, db.tables.controls[e].ciphertext, now,
                      match payload case Typing(expiresAt) => Some(expiresAt) case _ => None)]
                 && db.tables.messages == t.messages && db.tables.outbox == t.outbox && OthersKept(t, db.tables)
    ensures r.Err? ==> db.tables == old(db.tables)
  {
    if peer !in db.tables.contacts || db.tables.contacts[peer].identityChanged { return Err(IdentityChangedBlocked); }
    var c := db.tables.contacts[peer];
    var sealed := Ciphertext(me, peer, c.next, payload);
    db.tables := db.tables.(contacts := db.tables.contacts[peer := c.(next := c.next.(index := c.next.index + 1))]);
    var expiry := if payload.Typing? then Some(payload.expiresAt) else None;
    db.tables := db.tables.(controls := db.tables.controls[e := ControlRow(rowid, peer, sealed, now, expiry)]);
    r := Ok(e);
  }

  // ----- flushing -----

  /** What the SELECT of flushOutbox returns: the eligible rows, in order. */
  ghost predicate IsQueue(t: Tables, now: nat, queued: seq<EnvelopeId>) {
    && (forall i :: 0 <= i < |queued| ==> queued[i] in t.outbox && Eligible(t, queued[i], now))
    && (forall e :: Eligible(t, e, now) ==> e in queued)
    && (forall i, j :: 0 <= i < j < |queued| ==>
              queued[i] != queued[j] && !Before(t.outbox[queued[j]], t.outbox[queued[i]]))
  }

  /** The request bodies of the selected rows. */
  ghost function Bodies(t: Tables, me: DeviceId, queued: seq<EnvelopeId>): (bodies: seq<Envelope>)
    requires forall i :: 0 <= i < |queued| ==> queued[i] in t.outbox
    ensures |bodies| == |queued|
  {
    seq(|queued|, i requires 0 <= i < |queued| => OutboxEnvelope(me, queued[i], t.outbox[queued[i]]))
  }

  /** The first row of the answer is the head the delivery model speaks of. */
  lemma QueueStartsWithHead(t: Tables, now: nat, queued: seq<EnvelopeId>)
    requires IsQueue(t, now, queued) && queued != []
    ensures IsHead(t, queued[0], now)
  {
    forall f | Eligible(t, f, now) ensures !Before(t.outbox[f], t.outbox[queued[0]]) {
      assert f in queued;
    }
  }

  /** A message status after the envelopes in `sent` were accepted by the relay. */
  function StatusAfter(t: Tables, sent: seq<EnvelopeId>, m: MessageId): Status
    requires m in t.messages
  {
    if exists e :: e in sent && e in t.outbox && t.outbox[e].message == m then Sent else t.messages[m].status
  }

  ghost predicate FlushedTo(t: Tables, sent: seq<EnvelopeId>, t': Tables) {
    && t' == t.(messages := t'.messages, outbox := t.outbox - Elements(sent))
    && t'.messages.Keys == t.messages.Keys
    && forall m :: m in t.messages ==> t'.messages[m] == t.messages[m].(status := StatusAfter(t, sent, m))
  }

  lemma FlushNothing(t: Tables)
    ensures FlushedTo(t, [], t)
  {
  }

  lemma FlushNext(t: Tables, sent: seq<EnvelopeId>, t': Tables, e: EnvelopeId)
    requires FlushedTo(t, sent, t') && e in t.outbox && e !in sent
    ensures e in t'.outbox && t'.outbox[e] == t.outbox[e] && FlushedTo(t, sent + [e], MarkSent(t', e))
  {
    var u := MarkSent(t', e);
    assert Elements(sent + [e]) == Elements(sent) + {e};
    assert u.outbox == t.outbox - Elements(sent + [e]);
    forall m | m in t.messages
      ensures m in u.messages && u.messages[m] == t.messages[m].(status := StatusAfter(t, sent + [e], m))
    {
      assert forall f :: f in sent + [e] <==> f in sent || f == e;
    }
  }

  method RecordSent(db: VaultDatabase, e: EnvelopeId, m: MessageId)
    requires e in db.tables.outbox && db.tables.outbox[e].message == m
    modifies db`tables
    ensures db.tables == MarkSent(old(db.tables), e)
  {
    if m in db.tables.messages {
      db.tables := db.tables.(messages := db.tables.messages[m := db.tables.messages[m].(status := Sent)]);
    }
    db.tables := db.tables.(outbox := db.tables.outbox - {e});
  }

  /**
   Posts the queue in order and stops at the first row that the relay is not asked about
   or does not accept: the rows before it are sent and gone, the rest is untouched. If
   that row goes to a job, it is the one job started, unless it is already under way.
   */
  method FlushOutbox(db: VaultDatabase, routing: Routing, me: DeviceId, now: nat, queued: seq<EnvelopeId>,
                     onions: set<DeviceId>, relayAnswers: seq<bool>)
    returns (sent: nat, posted: seq<Envelope>, started: seq<Job>)
    requires db.savepoint == None && routing.database == db && IsQueue(db.tables, now, queued)
             && |relayAnswers| == |queued|
    modifies db, routing`jobs
    ensures sent <= |queued| && db.savepoint == None && FlushedTo(old(db.tables), queued[..sent], db.tables)
    ensures forall i :: 0 <= i < sent ==>
              relayAnswers[i] && AsksRelay(routing, old(db.tables).outbox[queued[i]].mailbox in onions)
    ensures sent < |queued| ==>
              !(relayAnswers[sent] && AsksRelay(routing, old(db.tables).outbox[queued[sent]].mailbox in onions))
    ensures var asked := sent < |queued| && AsksRelay(routing, old(db.tables).outbox[queued[sent]].mailbox in onions);
            |posted| == (if asked then sent + 1 else sent) && posted == Bodies(old(db.tables), me, queued)[..|posted|]
    ensures started == if sent < |queued| && GoesToJob(routing, old(db.tables).outbox[queued[sent]].mailbox in onions)
                          && queued[sent] !in old(routing.jobs)
                       then [Job(Bodies(old(db.tables), me, queued)[sent], db, routing.transport)] else []
    ensures routing.jobs == old(routing.jobs) + (set job | job in started :: job.envelope.id)
    ensures routing.mode == DirectTorP2p || (routing.mode == HybridTorRelay && routing.relayPrepared) ==>
              sent == 0 && posted == [] && db.tables == old(db.tables)
  {
    hide FlushedTo, MarkSent, Eligible, Before, GoesToJob, AsksRelay;
    var selected := db.tables.outbox;
    FlushNothing(db.tables);
    assert queued[..0] == [];
    sent, posted, started := 0, [], [];
    for i := 0 to |queued|
      invariant db.savepoint == None && sent == i && started == [] && |posted| == i && routing.jobs == old(routing.jobs)
      invariant FlushedTo(old(db.tables), queued[..i], db.tables)
      invariant forall k :: 0 <= k < i ==> relayAnswers[k] && AsksRelay(routing, selected[queued[k]].mailbox in onions)
      invariant posted == Bodies(old(db.tables), me, queued)[..i]
      invariant i == 0 ==> db.tables == old(db.tables)
      invariant i > 0 ==> routing.mode == RelayOnly || (routing.mode == HybridTorRelay && !routing.relayPrepared)
      invariant routing.database == db
    {
      var e := queued[i];
      assert e !in queued[..i];
      var row := selected[e];
      var x := OutboxEnvelope(me, e, row);
      AskedExcludesJob(routing, row.mailbox in onions);
      var answer, job := routing.RouteSend(x, row.mailbox in onions);
      if job.Some? { started := [job.value]; }
      if answer != PassOn { break; }
      assert x == Bodies(old(db.tables), me, queued)[i];
      posted := posted + [x];
      if !relayAnswers[i] { break; }
      FlushNext(old(db.tables), queued[..i], db.tables, e);
      assert queued[..i] + [e] == queued[..i + 1];
      RecordSent(db, e, row.message);
      sent := sent + 1;
    }
  }

  /** ORDER BY created_at, rowid. */
  predicate InOrder(a: ControlRow, b: ControlRow) {
    a.createdAt < b.createdAt || (a.createdAt == b.createdAt && a.rowid <= b.rowid)
  }

  /** What the SELECT of flushControls returns. */
  ghost predicate IsControlQueue(t: Tables, rows: seq<EnvelopeId>) {
    && (forall e :: e in rows <==> e in t.controls && Usable(t, t.controls[e].mailbox))
    && (forall i, j :: 0 <= i < j < |rows| ==> rows[i] != rows[j] && InOrder(t.controls[rows[i]], t.controls[rows[j]]))
  }

  /** Drops a row only if it expired or the relay took it, and stops at the first refusal. */
  method FlushControls(db: VaultDatabase, routing: Routing, me: DeviceId, now: nat, rows: seq<EnvelopeId>,
                       onions: set<DeviceId>, relayAnswers: seq<bool>)
    returns (done: nat, started: seq<Job>)
    requires routing.database == db && IsControlQueue(db.tables, rows) && |relayAnswers| == |rows|
    modifies db, routing`jobs
    ensures done <= |rows| && db.savepoint == old(db.savepoint)
    ensures db.tables == old(db.tables).(controls := old(db.tables).controls - Elements(rows[..done]))
    ensures forall i :: 0 <= i < done ==>
              || Passed(old(db.tables).controls[rows[i]].expiresAt, now)
              || (relayAnswers[i] && AsksRelay(routing, old(db.tables).controls[rows[i]].mailbox in onions))
    ensures done < |rows| ==>
              && !Passed(old(db.tables).controls[rows[done]].expiresAt, now)
              && !(relayAnswers[done] && AsksRelay(routing, old(db.tables).controls[rows[done]].mailbox in onions))
    ensures started == if done < |rows| && GoesToJob(routing, old(db.tables).controls[rows[done]].mailbox in onions)
                          && rows[done] !in old(routing.jobs)
                       then [Job(ControlEnvelope(me, rows[done], old(db.tables).controls[rows[done]]), db, routing.transport)]
                       else []
    ensures routing.jobs == old(routing.jobs) + (set job | job in started :: job.envelope.id)
  {
    hide GoesToJob, AsksRelay, Usable, Passed, InOrder;
    done, started := 0, [];
    for i := 0 to |rows|
      invariant done == i && started == [] && db.savepoint == old(db.savepoint) && routing.database == db
      invariant routing.jobs == old(routing.jobs)
      invariant db.tables == old(db.tables).(controls := old(db.tables).controls - Elements(rows[..i]))
      invariant forall k :: 0 <= k < i ==>
                  || Passed(old(db.tables).controls[rows[k]].expiresAt, now)
                  || (relayAnswers[k] && AsksRelay(routing, old(db.tables).controls[rows[k]].mailbox in onions))
    {
      var e := rows[i];
      assert e in rows && e !in rows[..i];
      assert Elements(rows[..i + 1]) == Elements(rows[..i]) + {e};
      var row := db.tables.controls[e];
      if Passed(row.expiresAt, now) {
        db.tables := DropControl(db.tables, e);
        done := done + 1;
        continue;
      }
      AskedExcludesJob(routing, row.mailbox in onions);
      var answer, job := routing.RouteSend(ControlEnvelope(me, e, row), row.mailbox in onions);
      if job.Some? { started := [job.value]; }
      if answer != PassOn || !relayAnswers[i] { return; }
      db.tables := DropControl(db.tables, e);
      done := done + 1;
    }
  }
}
