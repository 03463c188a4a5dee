/**
 The Signal sessions: no two committed envelopes ever use the same key, although a
 rolled-back transaction gives its index back; and a vault has used up the key of an
 envelope exactly when it has that envelope in seen_envelope_ids.
 */
module DeliveryRatchet {
  import opened Prelude
  import opened VaultTables
  import opened DeliveryWorld
  import opened DeliveryBase
  import opened DeliveryBaseSteps

  type Vaults = map<DeviceId, Tables>

  function KeyOf(r: Trace, e: EnvelopeId): RatchetKey
    requires e in r.history
  {
    r.history[e].envelope.ciphertext.key
  }

  /** The sending counter of the key's session, as long as it is current, is past this key. */
  ghost predicate KeyUsed(v: Vaults, r: Trace, k: RatchetKey) {
    && k.session in r.owners
    && var (a, b) := r.owners[k.session];
       a in v && b in v[a].contacts && v[a].contacts[b].next.session == k.session ==>
                 k.index < v[a].contacts[b].next.index
  }

  ghost predicate SessionsOwned(v: Vaults, r: Trace) {
    forall d, b :: d in v && b in v[d].contacts ==>
      v[d].contacts[b].next.session in r.owners && r.owners[v[d].contacts[b].next.session] == (d, b)
  }

  ghost predicate HistoryKeys(v: Vaults, r: Trace) {
    && (forall e :: e in r.history ==> KeyUsed(v, r, KeyOf(r, e)))
    && (forall e, f :: e in r.history && f in r.history && e != f ==> KeyOf(r, e) != KeyOf(r, f))
  }

  ghost predicate ConsumedKeys(v: Vaults, r: Trace) {
    && (forall d, k :: d in v && k in v[d].consumed ==> KeyUsed(v, r, k))
    && (forall e :: e in r.history && r.history[e].envelope.mailbox in v ==>
          (e in v[r.history[e].envelope.mailbox].seen <==> KeyOf(r, e) in v[r.history[e].envelope.mailbox].consumed))
  }

  ghost predicate Ratchets(v: Vaults, r: Trace) {
    SessionsOwned(v, r) && HistoryKeys(v, r) && ConsumedKeys(v, r)
  }

  /** Nothing a ratchet depends on has changed. */
  ghost predicate SameRatchet(t: Tables, t': Tables) {
    && t'.contacts.Keys == t.contacts.Keys
    && (forall b :: b in t.contacts ==> t'.contacts[b].next == t.contacts[b].next)
    && t'.seen == t.seen && t'.consumed == t.consumed
  }

  lemma RatchetsStay(v: Vaults, r: Trace, u: Vaults, q: Trace)
    requires Ratchets(v, r) && q.history == r.history && q.owners == r.owners
    requires u.Keys == v.Keys && forall d :: d in v ==> SameRatchet(v[d], u[d])
    ensures Ratchets(u, q)
  {
    forall e | e in q.history ensures KeyUsed(u, q, KeyOf(q, e)) {
      assert KeyUsed(v, r, KeyOf(r, e));
    }
    forall d, k | d in u && k in u[d].consumed ensures KeyUsed(u, q, k) {
      assert KeyUsed(v, r, k);
    }
  }

  /** Establishing a session starts a new counter under a fresh session. */
  lemma NewSessionKeeps(v: Vaults, r: Trace, d: DeviceId, peer: DeviceId, session: nat)
    requires Ratchets(v, r) && d in v && session !in r.owners
    ensures Ratchets(v[d := Renew(v[d], peer, session)], r.(owners := r.owners[session := (d, peer)]))
  {
    var u, q := v[d := Renew(v[d], peer, session)], r.(owners := r.owners[session := (d, peer)]);
    assert SessionsOwned(u, q);
    forall e | e in q.history ensures KeyUsed(u, q, KeyOf(q, e)) {
      assert KeyUsed(v, r, KeyOf(r, e));
    }
    forall c, k | c in u && k in u[c].consumed ensures KeyUsed(u, q, k) {
      assert KeyUsed(v, r, k);
    }
  }

  /** The tables after encrypting once for `peer`, whatever else was inserted. */
  ghost predicate EncryptedOnce(t: Tables, t': Tables, peer: DeviceId)
    requires peer in t.contacts
  {
    t'.contacts == AdvanceRatchet(t, peer).contacts && t'.seen == t.seen && t'.consumed == t.consumed
  }

  /** Committing an encryption: the new key is new, and the counter moves past it. */
  lemma EncryptionKeeps(v: Vaults, r: Trace, d: DeviceId, t': Tables, peer: DeviceId, e: EnvelopeId, payload: Payload,
      deadline: Option<nat>, cause: Option<EnvelopeId>)
    requires Ratchets(v, r) && d in v && peer in v[d].contacts && e !in r.history && EncryptedOnce(v[d], t', peer)
    requires forall c :: c in v ==> e !in v[c].seen
    ensures Ratchets(v[d := t'], Add(r, NewEnvelope(v[d], d, peer, e, payload), deadline, cause))
  {
    hide SessionsOwned;
    var x := NewEnvelope(v[d], d, peer, e, payload);
    var u, q := v[d := t'], Add(r, x, deadline, cause);
    NextIsUnused(v, r, d, peer);
    AdvanceKeepsSessions(v, r, d, t', peer, q);
    forall k | KeyUsed(v, r, k) ensures KeyUsed(u, q, k) && k != x.ciphertext.key {
    }
    assert KeyUsed(u, q, x.ciphertext.key) by { NextIsUsedUp(v, r, d, t', peer, q); }
    assert HistoryKeys(u, q);
    assert ConsumedKeys(u, q) by {
      forall f | f in q.history && q.history[f].envelope.mailbox in u
        ensures f in u[q.history[f].envelope.mailbox].seen <==> KeyOf(q, f) in u[q.history[f].envelope.mailbox].consumed
      {
        var c := q.history[f].envelope.mailbox;
        assert forall k :: k in v[c].consumed ==> KeyUsed(v, r, k);
      }
    }
  }

  lemma NextIsUnused(v: Vaults, r: Trace, d: DeviceId, peer: DeviceId)
    requires SessionsOwned(v, r) && d in v && peer in v[d].contacts
    ensures !KeyUsed(v, r, v[d].contacts[peer].next)
  {
  }

  lemma NextIsUsedUp(v: Vaults, r: Trace, d: DeviceId, t': Tables, peer: DeviceId, q: Trace)
    requires SessionsOwned(v, r) && d in v && peer in v[d].contacts && EncryptedOnce(v[d], t', peer)
             && q.owners == r.owners
    ensures KeyUsed(v[d := t'], q, v[d].contacts[peer].next)
  {
  }

  lemma AdvanceKeepsSessions(v: Vaults, r: Trace, d: DeviceId, t': Tables, peer: DeviceId, q: Trace)
    requires SessionsOwned(v, r) && d in v && peer in v[d].contacts && EncryptedOnce(v[d], t', peer)
             && q.owners == r.owners
    ensures SessionsOwned(v[d := t'], q)
  {
  }

  /** Opening an envelope uses its key and records its id together. */
  lemma OpeningKeeps(v: Vaults, r: Trace, d: DeviceId, t': Tables, x: Envelope)
    requires Ratchets(v, r) && d in v && Genuine(r, x) && x.mailbox == d
    requires t'.contacts == v[d].contacts && t'.seen == v[d].seen + {x.id}
             && t'.consumed == v[d].consumed + {x.ciphertext.key}
    ensures Ratchets(v[d := t'], r)
  {
    var u := v[d := t'];
    forall k | KeyUsed(v, r, k) ensures KeyUsed(u, r, k) {
    }
    assert KeyUsed(v, r, KeyOf(r, x.id));
  }

  lemma ReceivingKeeps(v: Vaults, r: Trace, now: nat, d: DeviceId, x: Envelope, draw: Draw)
    requires Ratchets(v, r) && d in v && GenuineOut(r, x) && x.mailbox == d && Opens(v[d], d, x)
             && x.ciphertext.payload.Text?
    requires draw.receipt !in r.history && forall c :: c in v ==> draw.receipt !in v[c].seen
    ensures Ratchets(v[d := CommitReceive(v[d], d, x, now, draw)],
                     Add(r, NewEnvelope(v[d], d, x.sender, draw.receipt,
                         DeliveredReceipt(x.ciphertext.payload.message)), None, Some(x.id)))
  {
    hide Ratchets;
    var m := x.ciphertext.payload.message;
    var o := Opened(v[d], x, now, draw);
    var t' := CommitControl(o, d, x.sender, draw.receipt, DeliveredReceipt(m), now, draw.receiptRowid);
    OpenedElsewhere(v[d], x, now, draw);
    OpeningKeeps(v, r, d, o, x);
    EncryptionKeeps(v[d := o], r, d, t', x.sender, draw.receipt, DeliveredReceipt(m), None, Some(x.id));
    assert v[d := o][d := t'] == v[d := t'];
    assert t' == CommitReceive(v[d], d, x, now, draw);
    assert NewEnvelope(o, d, x.sender, draw.receipt, DeliveredReceipt(m)) == NewEnvelope(v[d], d, x.sender,
        draw.receipt, DeliveredReceipt(m));
  }

  lemma UnknownIsUnseen(w: World, e: EnvelopeId)
    requires Base(w) && e !in w.trace.history
    ensures forall c :: c in w.vaults ==> e !in w.vaults[c].seen
  {
    forall c | c in w.vaults ensures e !in w.vaults[c].seen {
      assert VaultOk(w.trace, w.now, c, w.vaults[c]);
    }
  }

  lemma TransactKeepsRatchets(w: World, d: DeviceId, a: Transaction)
    requires Base(w) && Ratchets(w.vaults, w.trace) && d in w.vaults
    requires CanTransact(w.net, w.trace, w.now, d, w.vaults[d], a)
    ensures var v := ApplyTransaction(w, d, a); Ratchets(v.vaults, v.trace)
  {
    hide Ratchets, Base;
    var t := w.vaults[d];
    var v := ApplyTransaction(w, d, a);
    match a
    case AddContact(peer, session) => NewSessionKeeps(w.vaults, w.trace, d, peer, session);
    case SendMessage(peer, e, m, ttl, rowid, outboxRowid) =>
      UnknownIsUnseen(w, e);
      EncryptionKeeps(w.vaults, w.trace, d, v.vaults[d], peer, e, Text(m, ttl), DeadlineFor(ttl, w.now), None);
    case QueueControl(peer, e, payload, rowid) =>
      UnknownIsUnseen(w, e);
      EncryptionKeeps(w.vaults, w.trace, d, v.vaults[d], peer, e, payload, None, None);
    case Receive(x, draw) =>
      PendingHere(w, d, x);
      if x.ciphertext.payload.Text? {
        UnknownIsUnseen(w, draw.receipt);
        ReceivingKeeps(w.vaults, w.trace, w.now, d, x, draw);
        var r := Add(w.trace, NewEnvelope(t, d, x.sender, draw.receipt,
            DeliveredReceipt(x.ciphertext.payload.message)), None, Some(x.id));
        RatchetsStay(v.vaults, r, v.vaults, v.trace);
      } else {
        OpenedElsewhere(t, x, w.now, draw);
        OpeningKeeps(w.vaults, w.trace, d, v.vaults[d], x);
      }
    case _ => RatchetsStay(w.vaults, w.trace, v.vaults, v.trace);
  }

  lemma PendingHere(w: World, d: DeviceId, x: Envelope)
    requires Base(w) && d in w.vaults && Pending(w.net, w.vaults[d], d, x)
    ensures GenuineOut(w.trace, x) && x.mailbox == d
  {
    PendingIsGenuine(w.net, w.trace, w.now, d, w.vaults[d], x);
  }

  lemma StepKeepsRatchets(w: World, s: Step)
    requires Base(w) && Ratchets(w.vaults, w.trace) && Enabled(w, s)
    ensures Ratchets(Apply(w, s).vaults, Apply(w, s).trace)
  {
    hide Ratchets, Base, CanTransact, TablesAfter, TraceAfter, SameRatchet;
    match s
    case Transact(p, a) => TransactKeepsRatchets(w, VaultOf(w, p), a);
    case _ =>
      OtherStepsLeaveRatchets(w, s);
      RatchetsStay(w.vaults, w.trace, Apply(w, s).vaults, Apply(w, s).trace);
  }

  lemma OtherStepsLeaveRatchets(w: World, s: Step)
    requires Enabled(w, s) && !s.Transact?
    ensures var v := Apply(w, s);
            && v.trace.history == w.trace.history && v.trace.owners == w.trace.owners && v.vaults.Keys == w.vaults.Keys
            && forall d :: d in w.vaults ==> SameRatchet(w.vaults[d], v.vaults[d])
  {
    hide SameRatchet, MarkAccepted, AckInbox, Deposit;
    forall d | d in w.vaults ensures SameRatchet(w.vaults[d], Apply(w, s).vaults[d]) {
      RatchetUntouched(w.vaults[d]);
    }
  }

  lemma RatchetUntouched(t: Tables)
    ensures SameRatchet(t, t)
    ensures forall e :: SameRatchet(t, MarkAccepted(t, e))
    ensures forall ids :: SameRatchet(t, AckInbox(t, ids))
    ensures forall x :: SameRatchet(t, Deposit(t, x))
  {
  }
}
