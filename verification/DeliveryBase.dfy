/**
 The bookkeeping part of the delivery invariant: every copy of an envelope, wherever
 it is, is the envelope committed at creation; the rows of a vault agree with the
 history; row order is creation order.
 */
module DeliveryBase {
  import opened Prelude
  import opened VaultTables
  import opened DeliveryWorld

  /** Bit for bit the envelope committed under this id. */
  ghost predicate Genuine(r: Trace, x: Envelope) {
    x.id in r.history && r.history[x.id].envelope == x
  }

  ghost predicate GenuineOut(r: Trace, x: Envelope) {
    Genuine(r, x) && x.id in r.started
  }

  ghost predicate RecordOk(r: Trace, e: EnvelopeId)
    requires e in r.history
  {
    var x := r.history[e].envelope;
    && x.id == e && x.sender in r.devices && x.mailbox in r.devices
    && x.ciphertext.sender == x.sender && x.ciphertext.recipient == x.mailbox
    && x.ephemeral == x.ciphertext.payload.Typing?
    && r.history[e].order < r.count
    && (x.ciphertext.payload.Text? ==>
          var m := x.ciphertext.payload.message; m in r.letters && r.letters[m] == e)
  }

  ghost predicate TraceOk(r: Trace) {
    && (forall e :: e in r.history ==> RecordOk(r, e))
    && (forall e, f :: e in r.history && f in r.history && e != f ==> r.history[e].order != r.history[f].order)
    && (forall m :: m in r.letters ==> IsLetter(r, m, r.letters[m]))
    && (forall e :: e in r.started ==> e in r.history)
  }

  ghost predicate IsLetter(r: Trace, m: MessageId, e: EnvelopeId) {
    && e in r.history
    && var p := r.history[e].envelope.ciphertext.payload; p.Text? && p.message == m
  }

  // ----- rows of one vault -----

  ghost predicate InboxOk(r: Trace, d: DeviceId, t: Tables) {
    && (forall e :: e in t.inbox ==> t.inbox[e].id == e && GenuineOut(r, t.inbox[e]) && t.inbox[e].mailbox == d)
    && (forall e :: e in t.seen ==> e in r.history && r.history[e].envelope.mailbox == d && e in r.started)
  }

  ghost predicate OutboxRowOk(r: Trace, now: nat, d: DeviceId, t: Tables, e: EnvelopeId)
    requires e in t.outbox
  {
    var row := t.outbox[e];
    && Genuine(r, OutboxEnvelope(d, e, row))
    && row.ciphertext.payload.Text? && row.ciphertext.payload.message == row.message
    && row.message in t.messages && t.messages[row.message].outgoing
    && row.createdAt <= now
  }

  ghost predicate OutboxOk(r: Trace, now: nat, d: DeviceId, t: Tables) {
    && (forall e :: e in t.outbox ==> OutboxRowOk(r, now, d, t, e))
    && (forall e, f :: e in t.outbox && f in t.outbox && Earlier(r, e, f) ==> Before(t.outbox[e], t.outbox[f]))
  }

  /** Creation order. */
  ghost predicate Earlier(r: Trace, e: EnvelopeId, f: EnvelopeId) {
    e in r.history && f in r.history && r.history[e].order < r.history[f].order
  }

  ghost predicate ControlsOk(r: Trace, d: DeviceId, t: Tables) {
    forall e :: e in t.controls ==>
      Genuine(r, ControlEnvelope(d, e, t.controls[e])) && !t.controls[e].ciphertext.payload.Text?
  }

  /** A sent message belongs to the envelope that carries it. */
  ghost predicate SentOk(r: Trace, d: DeviceId, m: MessageId, row: Message) {
    && m in r.letters && r.letters[m] in r.history
    && var c := r.history[r.letters[m]];
       && c.envelope.sender == d && c.envelope.mailbox == row.peer && c.deadline == row.disappearAt
       && row.remote == None
  }

  /** A received message belongs to an envelope that was opened here. */
  ghost predicate ReceivedOk(r: Trace, t: Tables, row: Message) {
    && row.source.Some? && row.source.value in t.seen && row.source.value in r.history
    && var x := r.history[row.source.value].envelope;
       x.sender == row.peer && x.ciphertext.payload.Text? && row.remote == Some(x.ciphertext.payload.message)
  }

  ghost predicate MessagesOk(r: Trace, d: DeviceId, t: Tables) {
    && (forall m :: m in t.messages ==>
          if t.messages[m].outgoing then SentOk(r, d, m, t.messages[m]) else ReceivedOk(r, t, t.messages[m]))
    && (forall m, n :: m in t.messages && n in t.messages && t.messages[m].outgoing && t.messages[n].outgoing && SentBefore(r, m, n)
          ==> t.messages[m].rowid < t.messages[n].rowid)
  }

  ghost predicate SentBefore(r: Trace, m: MessageId, n: MessageId) {
    m in r.letters && n in r.letters && Earlier(r, r.letters[m], r.letters[n])
  }

  ghost predicate VaultOk(r: Trace, now: nat, d: DeviceId, t: Tables) {
    && (forall p :: p in t.contacts ==> p in r.devices)
    && InboxOk(r, d, t) && OutboxOk(r, now, d, t) && ControlsOk(r, d, t) && MessagesOk(r, d, t)
  }

  // ----- the rest of the world -----

  ghost predicate NetworkOk(n: Network, r: Trace) {
    && (forall x :: x in n.posted ==> GenuineOut(r, x))
    && (forall x :: x in n.relayPosted ==> GenuineOut(r, x))
    && (forall x :: x in n.pushed ==> GenuineOut(r, x))
    && (forall e :: e in n.relay ==>
          && n.relay[e].envelope.id == e && GenuineOut(r, n.relay[e].envelope) && !n.relay[e].envelope.ephemeral
          && e in n.relayDue && n.relayDue[e] <= n.relay[e].expiresAt)
    && (forall e :: e in n.accepted ==> e in r.history)
  }

  ghost predicate ProcessOk(r: Trace, process: Process) {
    && (process.open.Some? ==> process.open.value.vault in r.devices)
    && (forall job :: job in process.running ==> GenuineOut(r, job.envelope))
  }

  ghost predicate HostOk(h: Host, r: Trace) {
    forall p :: p in h.processes ==> ProcessOk(r, h.processes[p])
  }

  ghost predicate VaultsOk(w: World) {
    forall d :: d in w.vaults ==> VaultOk(w.trace, w.now, d, w.vaults[d])
  }

  ghost predicate Base(w: World) {
    && w.vaults.Keys == w.trace.devices
    && TraceOk(w.trace) && NetworkOk(w.net, w.trace) && HostOk(w.host, w.trace) && VaultsOk(w)
  }

  // ----- frames: what is recorded is never changed or forgotten -----

  ghost predicate Grows(r: Trace, q: Trace) {
    && r.devices == q.devices && r.count <= q.count && r.started <= q.started
    && (forall e :: e in r.history ==> e in q.history && q.history[e] == r.history[e])
    && (forall m :: m in r.letters ==> m in q.letters && q.letters[m] == r.letters[m])
  }

  lemma InboxStays(r: Trace, q: Trace, d: DeviceId, t: Tables)
    requires InboxOk(r, d, t) && Grows(r, q)
    ensures InboxOk(q, d, t)
  {
  }

  lemma OutboxStays(r: Trace, q: Trace, now: nat, later: nat, d: DeviceId, t: Tables)
    requires OutboxOk(r, now, d, t) && Grows(r, q) && now <= later
    ensures OutboxOk(q, later, d, t)
  {
    forall e | e in t.outbox ensures OutboxRowOk(q, later, d, t, e) {
      assert OutboxRowOk(r, now, d, t, e);
    }
    forall e, f | e in t.outbox && f in t.outbox && Earlier(q, e, f) ensures Before(t.outbox[e], t.outbox[f]) {
      assert OutboxRowOk(r, now, d, t, e) && OutboxRowOk(r, now, d, t, f);
      assert Earlier(r, e, f);
    }
  }

  lemma ControlsStay(r: Trace, q: Trace, d: DeviceId, t: Tables)
    requires ControlsOk(r, d, t) && Grows(r, q)
    ensures ControlsOk(q, d, t)
  {
  }

  lemma MessagesStay(r: Trace, q: Trace, d: DeviceId, t: Tables)
    requires MessagesOk(r, d, t) && Grows(r, q)
    ensures MessagesOk(q, d, t)
  {
    forall m, n | m in t.messages && n in t.messages && t.messages[m].outgoing && t.messages[n].outgoing && SentBefore(q, m, n)
      ensures t.messages[m].rowid < t.messages[n].rowid
    {
      assert SentOk(r, d, m, t.messages[m]) && SentOk(r, d, n, t.messages[n]);
      assert SentBefore(r, m, n);
    }
  }

  lemma VaultStays(r: Trace, q: Trace, now: nat, later: nat, d: DeviceId, t: Tables)
    requires VaultOk(r, now, d, t) && Grows(r, q) && now <= later
    ensures VaultOk(q, later, d, t)
  {
    hide InboxOk, OutboxOk, ControlsOk, MessagesOk;
    InboxStays(r, q, d, t);
    OutboxStays(r, q, now, later, d, t);
    ControlsStay(r, q, d, t);
    MessagesStay(r, q, d, t);
  }

  lemma NetworkStays(n: Network, r: Trace, q: Trace)
    requires NetworkOk(n, r) && Grows(r, q)
    ensures NetworkOk(n, q)
  {
  }

  lemma HostStays(h: Host, r: Trace, q: Trace)
    requires HostOk(h, r) && Grows(r, q)
    ensures HostOk(h, q)
  {
  }

  /** The shape of every step: the trace grows, and each part is in order afterwards. */
  lemma Assemble(w: World, v: World)
    requires Base(w) && Grows(w.trace, v.trace) && w.now <= v.now
    requires v.vaults.Keys == w.vaults.Keys
    requires TraceOk(v.trace) && NetworkOk(v.net, v.trace) && HostOk(v.host, v.trace)
    requires forall d :: d in w.vaults && v.vaults[d] != w.vaults[d] ==> VaultOk(v.trace, v.now, d, v.vaults[d])
    ensures Base(v)
  {
    hide VaultOk, TraceOk, NetworkOk, HostOk;
    forall d | d in v.vaults ensures VaultOk(v.trace, v.now, d, v.vaults[d]) {
      if v.vaults[d] == w.vaults[d] { VaultStays(w.trace, v.trace, w.now, v.now, d, w.vaults[d]); }
    }
  }
}
