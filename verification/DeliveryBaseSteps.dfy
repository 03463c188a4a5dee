/** Every step keeps the bookkeeping invariant. */
module DeliveryBaseSteps {
  import opened Prelude
  import opened VaultTables
  import opened DeliveryWorld
  import opened DeliveryBase

  // ----- the trace -----

  /** Adding a fresh envelope. */
  ghost predicate MayAdd(r: Trace, x: Envelope) {
    && x.id !in r.history && x.sender in r.devices && x.mailbox in r.devices
    && x.ciphertext.sender == x.sender && x.ciphertext.recipient == x.mailbox
    && x.ephemeral == x.ciphertext.payload.Typing?
    && (x.ciphertext.payload.Text? ==> x.ciphertext.payload.message !in r.letters)
  }

  lemma AddKeeps(r: Trace, x: Envelope, deadline: Option<nat>, cause: Option<EnvelopeId>)
    requires TraceOk(r) && MayAdd(r, x)
    ensures TraceOk(Add(r, x, deadline, cause)) && Grows(r, Add(r, x, deadline, cause))
  {
    var q := Add(r, x, deadline, cause);
    forall e | e in q.history ensures RecordOk(q, e) {
      if e != x.id { assert RecordOk(r, e); }
    }
    forall e, f | e in q.history && f in q.history && e != f ensures q.history[e].order != q.history[f].order {
      if e != x.id { assert RecordOk(r, e); }
      if f != x.id { assert RecordOk(r, f); }
    }
    forall m | m in q.letters ensures IsLetter(q, m, q.letters[m]) {
      if m in r.letters { assert IsLetter(r, m, r.letters[m]); }
    }
  }

  /** The added envelope is the youngest of all. */
  lemma AddedIsYoungest(r: Trace, x: Envelope, deadline: Option<nat>, cause: Option<EnvelopeId>)
    requires TraceOk(r) && x.id !in r.history
    ensures forall f :: f in r.history ==> Earlier(Add(r, x, deadline, cause), f, x.id)
  {
    forall f | f in r.history ensures Earlier(Add(r, x, deadline, cause), f, x.id) {
      assert RecordOk(r, f);
    }
  }

  lemma AddressedInside(r: Trace, now: nat, d: DeviceId, t: Tables)
    requires VaultOk(r, now, d, t)
    ensures forall p :: p in t.contacts ==> p in r.devices
  {
  }

  /** Sessions and shown rows play no part in the bookkeeping. */
  lemma Aside(r: Trace, q: Trace)
    requires TraceOk(r) && q == r.(owners := q.owners, shown := q.shown)
    ensures TraceOk(q) && Grows(r, q)
  {
  }

  lemma GrowsFurther(r: Trace, p: Trace, q: Trace)
    requires Grows(r, p) && Grows(p, q)
    ensures Grows(r, q)
  {
  }

  lemma TransactionKeepsTrace(n: Network, r: Trace, now: nat, d: DeviceId, t: Tables, a: Transaction)
    requires TraceOk(r) && VaultOk(r, now, d, t) && d in r.devices && CanTransact(n, r, now, d, t, a)
    ensures TraceOk(TraceAfter(n, r, now, d, t, a)) && Grows(r, TraceAfter(n, r, now, d, t, a))
  {
    hide TraceOk, VaultOk, Grows, Pending, Decrypts;
    AddressedInside(r, now, d, t);
    Aside(r, r);
    match a
    case AddContact(_, _) => Aside(r, TraceAfter(n, r, now, d, t, a));
    case SendMessage(peer, e, m, ttl, _, _) => AddKeeps(r, NewEnvelope(t, d, peer, e, Text(m, ttl)), DeadlineFor(ttl,
        now), None);
    case QueueControl(peer, e, payload, _) => AddKeeps(r, NewEnvelope(t, d, peer, e, payload), None, None);
    case Receive(x, draw) =>
      if x.ciphertext.payload.Text? {
        var receipt := NewEnvelope(t, d, x.sender, draw.receipt, DeliveredReceipt(x.ciphertext.payload.message));
        AddKeeps(r, receipt, None, Some(x.id));
        Aside(Add(r, receipt, None, Some(x.id)), TraceAfter(n, r, now, d, t, a));
        GrowsFurther(r, Add(r, receipt, None, Some(x.id)), TraceAfter(n, r, now, d, t, a));
      }
    case _ =>
  }

  // ----- one table at a time -----

  lemma NotYetInOutbox(r: Trace, now: nat, d: DeviceId, t: Tables, e: EnvelopeId)
    requires OutboxOk(r, now, d, t) && e !in r.history
    ensures e !in t.outbox
  {
    assert forall f :: f in t.outbox ==> OutboxRowOk(r, now, d, t, f);
  }

  lemma AddOutboxRow(q: Trace, now: nat, d: DeviceId, t: Tables, t': Tables, e: EnvelopeId)
    requires OutboxOk(q, now, d, t) && e !in t.outbox && e in t'.outbox && t'.outbox == t.outbox[e := t'.outbox[e]]
    requires AboveOutbox(t, t'.outbox[e].rowid) && t'.outbox[e].createdAt == now && OutboxRowOk(q, now, d, t', e)
    requires forall m :: m in t.messages && t.messages[m].outgoing ==> m in t'.messages && t'.messages[m].outgoing
    requires forall f :: f in t.outbox ==> Earlier(q, f, e)
    ensures OutboxOk(q, now, d, t')
  {
    forall f | f in t'.outbox ensures OutboxRowOk(q, now, d, t', f) {
      if f != e { assert OutboxRowOk(q, now, d, t, f); }
    }
    forall f, g | f in t'.outbox && g in t'.outbox && Earlier(q, f, g) ensures Before(t'.outbox[f], t'.outbox[g]) {
      assert f == e ==> g == e || Earlier(q, g, e);
      if g == e { assert OutboxRowOk(q, now, d, t, f); }
    }
  }

  /** Rows leave the outbox, or messages change but stay sent. */
  lemma FewerOutboxRows(q: Trace, now: nat, d: DeviceId, t: Tables, t': Tables)
    requires OutboxOk(q, now, d, t)
    requires forall e :: e in t'.outbox ==> e in t.outbox && t'.outbox[e] == t.outbox[e]
    requires forall e :: e in t'.outbox && t'.outbox[e].message in t.messages && t.messages[t'.outbox[e].message].outgoing
                         ==> t'.outbox[e].message in t'.messages && t'.messages[t'.outbox[e].message].outgoing
    ensures OutboxOk(q, now, d, t')
  {
    forall f | f in t'.outbox ensures OutboxRowOk(q, now, d, t', f) {
      assert OutboxRowOk(q, now, d, t, f);
    }
  }

  lemma AddSentMessage(q: Trace, d: DeviceId, t: Tables, t': Tables, m: MessageId)
    requires MessagesOk(q, d, t) && m !in t.messages && m in t'.messages
             && t'.messages == t.messages[m := t'.messages[m]]
    requires t'.seen == t.seen && AboveMessages(t, t'.messages[m].rowid)
    requires t'.messages[m].outgoing && SentOk(q, d, m, t'.messages[m])
    requires forall n :: n in t.messages && t.messages[n].outgoing ==> SentBefore(q, n, m)
    ensures MessagesOk(q, d, t')
  {
    forall n | n in t'.messages
      ensures if t'.messages[n].outgoing then SentOk(q, d, n, t'.messages[n]) else ReceivedOk(q, t', t'.messages[n])
    {
      if n != m && !t.messages[n].outgoing { assert ReceivedOk(q, t, t.messages[n]); }
    }
    forall a, b | a in t'.messages && b in t'.messages && t'.messages[a].outgoing && t'.messages[b].outgoing && SentBefore(q, a, b)
      ensures t'.messages[a].rowid < t'.messages[b].rowid
    {
      assert a == m ==> b == m || SentBefore(q, b, m);
    }
  }

  /** Only statuses change, messages are deleted, more envelopes are seen, or a received row is added. */
  ghost predicate Tamer(q: Trace, t: Tables, t': Tables) {
    && t.seen <= t'.seen
    && forall m :: m in t'.messages ==>
         if m in t.messages then t'.messages[m] == t.messages[m].(status := t'.messages[m].status)
         else !t'.messages[m].outgoing && ReceivedOk(q, t', t'.messages[m])
  }

  lemma TamerMessages(q: Trace, d: DeviceId, t: Tables, t': Tables)
    requires MessagesOk(q, d, t) && Tamer(q, t, t')
    ensures MessagesOk(q, d, t')
  {
    forall n | n in t'.messages
      ensures if t'.messages[n].outgoing then SentOk(q, d, n, t'.messages[n]) else ReceivedOk(q, t', t'.messages[n])
    {
      if n in t.messages {
        if t.messages[n].outgoing { assert SentOk(q, d, n, t.messages[n]); } else { assert ReceivedOk(q, t, t.messages[n]); }
      }
    }
  }

  lemma AddControl(q: Trace, d: DeviceId, t: Tables, t': Tables, e: EnvelopeId)
    requires ControlsOk(q, d, t) && e in t'.controls && t'.controls == t.controls[e := t'.controls[e]]
    requires Genuine(q, ControlEnvelope(d, e, t'.controls[e])) && !t'.controls[e].ciphertext.payload.Text?
    ensures ControlsOk(q, d, t')
  {
  }

  lemma FewerControls(q: Trace, d: DeviceId, t: Tables, t': Tables)
    requires ControlsOk(q, d, t)
    requires forall e :: e in t'.controls ==> e in t.controls && t'.controls[e] == t.controls[e]
    ensures ControlsOk(q, d, t')
  {
  }

  lemma MoreSeen(q: Trace, d: DeviceId, t: Tables, t': Tables, x: Envelope)
    requires InboxOk(q, d, t) && t'.inbox == t.inbox && t'.seen == t.seen + {x.id} && GenuineOut(q, x) && x.mailbox == d
    ensures InboxOk(q, d, t')
  {
  }

  // ----- transactions -----

  lemma SendKeeps(r: Trace, now: nat, d: DeviceId, t: Tables, peer: DeviceId, e: EnvelopeId, m: MessageId, ttl: nat,
      rowid: nat, outboxRowid: nat)
    requires TraceOk(r) && VaultOk(r, now, d, t) && d in r.devices && Usable(t, peer)
    requires e !in r.history && m !in r.letters && m !in t.messages && AboveMessages(t, rowid)
             && AboveOutbox(t, outboxRowid)
    ensures var q := Add(r, NewEnvelope(t, d, peer, e, Text(m, ttl)), DeadlineFor(ttl, now), None);
            VaultOk(q, now, d, CommitSend(t, d, peer, e, m, ttl, now, rowid, outboxRowid))
  {
    hide InboxOk, OutboxOk, ControlsOk, MessagesOk, TraceOk;
    var x := NewEnvelope(t, d, peer, e, Text(m, ttl));
    var q := Add(r, x, DeadlineFor(ttl, now), None);
    var t' := CommitSend(t, d, peer, e, m, ttl, now, rowid, outboxRowid);
    AddKeeps(r, x, DeadlineFor(ttl, now), None);
    VaultStays(r, q, now, now, d, t);
    NotYetInOutbox(r, now, d, t, e);
    SendIsYoungest(r, now, d, t, x, DeadlineFor(ttl, now));
    AddOutboxRow(q, now, d, t, t', e);
    AddSentMessage(q, d, t, t', m);
    InboxSame(q, d, t, t');
    FewerControls(q, d, t, t');
  }

  lemma InboxSame(q: Trace, d: DeviceId, t: Tables, t': Tables)
    requires InboxOk(q, d, t) && t'.inbox == t.inbox && t'.seen == t.seen
    ensures InboxOk(q, d, t')
  {
  }

  lemma SendIsYoungest(r: Trace, now: nat, d: DeviceId, t: Tables, x: Envelope, deadline: Option<nat>)
    requires TraceOk(r) && VaultOk(r, now, d, t) && MayAdd(r, x) && x.ciphertext.payload.Text?
    ensures var q := Add(r, x, deadline, None);
            && (forall f :: f in t.outbox ==> Earlier(q, f, x.id))
            && (forall n :: n in t.messages && t.messages[n].outgoing ==>
                      SentBefore(q, n, x.ciphertext.payload.message))
  {
    var q := Add(r, x, deadline, None);
    AddedIsYoungest(r, x, deadline, None);
    forall f | f in t.outbox ensures Earlier(q, f, x.id) {
      assert OutboxRowOk(r, now, d, t, f);
    }
    forall n | n in t.messages && t.messages[n].outgoing ensures SentBefore(q, n, x.ciphertext.payload.message) {
      assert SentOk(r, d, n, t.messages[n]);
    }
  }

  lemma QueueKeeps(r: Trace, now: nat, d: DeviceId, t: Tables, peer: DeviceId, e: EnvelopeId, payload: Payload,
      rowid: nat, cause: Option<EnvelopeId>)
    requires TraceOk(r) && VaultOk(r, now, d, t) && d in r.devices && Usable(t, peer)
    requires e !in r.history && !payload.Text?
    ensures var q := Add(r, NewEnvelope(t, d, peer, e, payload), None, cause);
            TraceOk(q) && Grows(r, q) && VaultOk(q, now, d, CommitControl(t, d, peer, e, payload, now, rowid))
  {
    hide InboxOk, OutboxOk, ControlsOk, MessagesOk, TraceOk;
    var x := NewEnvelope(t, d, peer, e, payload);
    var q := Add(r, x, None, cause);
    var t' := CommitControl(t, d, peer, e, payload, now, rowid);
    AddKeeps(r, x, None, cause);
    VaultStays(r, q, now, now, d, t);
    AddControl(q, d, t, t', e);
    InboxSame(q, d, t, t');
    FewerOutboxRows(q, now, d, t, t');
    TamerMessages(q, d, t, t');
  }

  /** Statuses move, rows leave: what every accepting or deleting transaction does. */
  ghost predicate Shrinks(t: Tables, t': Tables) {
    && t'.contacts.Keys <= t.contacts.Keys && t'.inbox == t.inbox && t'.seen == t.seen
    && (forall e :: e in t'.outbox ==> e in t.outbox && t'.outbox[e] == t.outbox[e])
    && (forall e :: e in t'.outbox && t'.outbox[e].message in t.messages ==> t'.outbox[e].message in t'.messages)
    && (forall e :: e in t'.controls ==> e in t.controls && t'.controls[e] == t.controls[e])
    && (forall m :: m in t'.messages ==>
              m in t.messages && t'.messages[m] == t.messages[m].(status := t'.messages[m].status))
  }

  lemma ShrinkKeeps(r: Trace, now: nat, d: DeviceId, t: Tables, t': Tables)
    requires VaultOk(r, now, d, t) && Shrinks(t, t')
    ensures VaultOk(r, now, d, t')
  {
    hide InboxOk, OutboxOk, ControlsOk, MessagesOk;
    InboxSame(r, d, t, t');
    FewerOutboxRows(r, now, d, t, t');
    FewerControls(r, d, t, t');
    TamerMessages(r, d, t, t');
  }

  /** The part of receiving that queues no receipt. */
  function Opened(t: Tables, x: Envelope, now: nat, draw: Draw): Tables {
    var unlocked := ConsumeKey(t, x.ciphertext.key);
    match x.ciphertext.payload
    case Text(m, _) => MarkSeen(StoreReceived(unlocked, x, now, draw), x.id)
    case DeliveredReceipt(m) => MarkSeen(ApplyDelivered(unlocked, x.sender, m), x.id)
    case ReadReceipt(m) => MarkSeen(ApplyRead(unlocked, x.sender, m), x.id)
    case _ => MarkSeen(unlocked, x.id)
  }

  lemma StoringIsTame(r: Trace, now: nat, t: Tables, x: Envelope, draw: Draw)
    requires Genuine(r, x) && x.ciphertext.payload.Text? && draw.message !in t.messages
    ensures Tamer(r, t, Opened(t, x, now, draw)) && KeepsSent(t, Opened(t, x, now, draw))
  {
  }

  lemma DeliveredIsTame(r: Trace, now: nat, t: Tables, x: Envelope, draw: Draw)
    requires x.ciphertext.payload.DeliveredReceipt?
    ensures Tamer(r, t, Opened(t, x, now, draw)) && KeepsSent(t, Opened(t, x, now, draw))
  {
  }

  lemma ReadIsTame(r: Trace, now: nat, t: Tables, x: Envelope, draw: Draw)
    requires x.ciphertext.payload.ReadReceipt?
    ensures Tamer(r, t, Opened(t, x, now, draw)) && KeepsSent(t, Opened(t, x, now, draw))
  {
  }

  ghost predicate KeepsSent(t: Tables, t': Tables) {
    forall m :: m in t.messages ==> m in t'.messages && t'.messages[m].outgoing == t.messages[m].outgoing
  }

  lemma OpenedIsTame(r: Trace, now: nat, t: Tables, x: Envelope, draw: Draw)
    requires Genuine(r, x) && (x.ciphertext.payload.Text? ==> draw.message !in t.messages)
    ensures Tamer(r, t, Opened(t, x, now, draw)) && KeepsSent(t, Opened(t, x, now, draw))
  {
    if x.ciphertext.payload.Text? { StoringIsTame(r, now, t, x, draw); }
    else if x.ciphertext.payload.DeliveredReceipt? { DeliveredIsTame(r, now, t, x, draw); }
    else if x.ciphertext.payload.ReadReceipt? { ReadIsTame(r, now, t, x, draw); }
  }

  lemma OpenedElsewhere(t: Tables, x: Envelope, now: nat, draw: Draw)
    ensures var t' := Opened(t, x, now, draw);
            && t'.contacts == t.contacts && t'.outbox == t.outbox && t'.controls == t.controls && t'.inbox == t.inbox
            && t'.seen == t.seen + {x.id} && t'.consumed == t.consumed + {x.ciphertext.key}
  {
    match x.ciphertext.payload
    case Text(_, _) =>
    case DeliveredReceipt(_) =>
    case ReadReceipt(_) =>
    case _ =>
  }

  lemma OpenedKeeps(r: Trace, now: nat, d: DeviceId, t: Tables, x: Envelope, draw: Draw)
    requires VaultOk(r, now, d, t) && GenuineOut(r, x) && x.mailbox == d
    requires x.ciphertext.payload.Text? ==> draw.message !in t.messages
    ensures VaultOk(r, now, d, Opened(t, x, now, draw))
  {
    hide InboxOk, OutboxOk, ControlsOk, MessagesOk, Tamer, StoreReceived, ApplyDelivered, ApplyRead;
    var t' := Opened(t, x, now, draw);
    OpenedIsTame(r, now, t, x, draw);
    OpenedElsewhere(t, x, now, draw);
    MoreSeen(r, d, t, t', x);
    FewerOutboxRows(r, now, d, t, t');
    FewerControls(r, d, t, t');
    TamerMessages(r, d, t, t');
  }

  lemma ReceiveKeeps(r: Trace, now: nat, d: DeviceId, t: Tables, x: Envelope, draw: Draw)
    requires TraceOk(r) && VaultOk(r, now, d, t) && d in r.devices && Opens(t, d, x) && GenuineOut(r, x)
             && x.mailbox == d
    requires x.ciphertext.payload.Text? ==> draw.message !in t.messages && draw.receipt !in r.history
    ensures var q := if x.ciphertext.payload.Text?
                     then Add(r, NewEnvelope(t, d, x.sender, draw.receipt, DeliveredReceipt(x.ciphertext.payload.message)), None, Some(x.id))
                     else r;
            VaultOk(q, now, d, CommitReceive(t, d, x, now, draw))
  {
    hide VaultOk, TraceOk;
    OpenedKeeps(r, now, d, t, x, draw);
    if x.ciphertext.payload.Text? {
      var u := Opened(t, x, now, draw);
      QueueKeeps(r, now, d, u, x.sender, draw.receipt, DeliveredReceipt(x.ciphertext.payload.message),
          draw.receiptRowid, Some(x.id));
      assert CommitReceive(t, d, x, now, draw)
          == CommitControl(u, d, x.sender, draw.receipt, DeliveredReceipt(x.ciphertext.payload.message), now, draw.receiptRowid);
    }
  }

  lemma PendingIsGenuine(n: Network, r: Trace, now: nat, d: DeviceId, t: Tables, x: Envelope)
    requires NetworkOk(n, r) && VaultOk(r, now, d, t) && Pending(n, t, d, x)
    ensures GenuineOut(r, x) && x.mailbox == d
  {
  }

  lemma ForgetShrinks(r: Trace, now: nat, d: DeviceId, t: Tables, m: MessageId)
    requires VaultOk(r, now, d, t)
    ensures Shrinks(t, Forget(t, m))
  {
  }

  lemma TransactionKeepsVault(n: Network, r: Trace, now: nat, d: DeviceId, t: Tables, a: Transaction)
    requires TraceOk(r) && NetworkOk(n, r) && VaultOk(r, now, d, t) && d in r.devices && CanTransact(n, r, now, d, t, a)
    ensures VaultOk(TraceAfter(n, r, now, d, t, a), now, d, TablesAfter(n, r, now, d, t, a))
  {
    hide TraceOk, NetworkOk, InboxOk, OutboxOk, ControlsOk, MessagesOk, CommitReceive, Opens;
    match a
    case AddContact(peer, session) =>
      TransactionKeepsTrace(n, r, now, d, t, a);
      VaultStays(r, TraceAfter(n, r, now, d, t, a), now, now, d, t);
      NewContactKeeps(TraceAfter(n, r, now, d, t, a), now, d, t, Renew(t, peer, session), peer);
    case SetIdentityChanged(peer, _) => ShrinkKeeps(r, now, d, t, TablesAfter(n, r, now, d, t, a));
    case SendMessage(peer, e, m, ttl, rowid, outboxRowid) => SendKeeps(r, now, d, t, peer, e, m, ttl, rowid,
        outboxRowid);
    case QueueControl(peer, e, payload, rowid) => QueueKeeps(r, now, d, t, peer, e, payload, rowid, None);
    case DropExpiredControl(e) => ShrinkKeeps(r, now, d, t, DropControl(t, e));
    case RelayOnlyDone(e) => ShrinkKeeps(r, now, d, t, MarkSent(t, e));
    case RelayOnlyControlDone(e) => ShrinkKeeps(r, now, d, t, DropControl(t, e));
    case Receive(x, draw) =>
      PendingIsGenuine(n, r, now, d, t, x);
      ReceiveKeeps(r, now, d, t, x, draw);
      ShownAside(TraceAfter(n, r, now, d, t, a), r, now, d, t, x, draw);
    case Disappear(m) =>
      ForgetShrinks(r, now, d, t, m);
      ShrinkKeeps(r, now, d, t, Forget(t, m));
  }

  /** The record of shown rows plays no part in the bookkeeping. */
  lemma ShownAside(q: Trace, r: Trace, now: nat, d: DeviceId, t: Tables, x: Envelope, draw: Draw)
    requires Opens(t, d, x)
    requires var p := if x.ciphertext.payload.Text?
                      then Add(r, NewEnvelope(t, d, x.sender, draw.receipt, DeliveredReceipt(x.ciphertext.payload.message)), None, Some(x.id))
                      else r;
             && VaultOk(p, now, d, CommitReceive(t, d, x, now, draw))
             && q == p.(shown := q.shown)
    ensures VaultOk(q, now, d, CommitReceive(t, d, x, now, draw))
  {
    var p := if x.ciphertext.payload.Text?
             then Add(r, NewEnvelope(t, d, x.sender, draw.receipt, DeliveredReceipt(x.ciphertext.payload.message)), None, Some(x.id))
             else r;
    VaultStays(p, q, now, now, d, CommitReceive(t, d, x, now, draw));
  }

  lemma NewContactKeeps(r: Trace, now: nat, d: DeviceId, t: Tables, t': Tables, peer: DeviceId)
    requires VaultOk(r, now, d, t) && peer in r.devices
    requires t'.contacts.Keys == t.contacts.Keys + {peer} && t' == t.(contacts := t'.contacts)
    ensures VaultOk(r, now, d, t')
  {
    hide InboxOk, OutboxOk, ControlsOk, MessagesOk;
    InboxSame(r, d, t, t');
    FewerOutboxRows(r, now, d, t, t');
    FewerControls(r, d, t, t');
    TamerMessages(r, d, t, t');
  }

  // ----- steps -----

  lemma AcceptShrinks(t: Tables, e: EnvelopeId)
    ensures Shrinks(t, MarkAccepted(t, e))
  {
  }

  lemma AckKeeps(r: Trace, now: nat, d: DeviceId, t: Tables, ids: set<EnvelopeId>)
    requires VaultOk(r, now, d, t)
    ensures VaultOk(r, now, d, AckInbox(t, ids))
  {
    hide OutboxOk, ControlsOk, MessagesOk;
    var t' := AckInbox(t, ids);
    FewerOutboxRows(r, now, d, t, t');
    FewerControls(r, d, t, t');
    TamerMessages(r, d, t, t');
  }

  lemma DepositKeeps(r: Trace, now: nat, t: Tables, x: Envelope)
    requires VaultOk(r, now, x.mailbox, t) && GenuineOut(r, x)
    ensures VaultOk(r, now, x.mailbox, Deposit(t, x))
  {
    hide OutboxOk, ControlsOk, MessagesOk;
    var t' := Deposit(t, x);
    FewerOutboxRows(r, now, x.mailbox, t, t');
    FewerControls(r, x.mailbox, t, t');
    TamerMessages(r, x.mailbox, t, t');
  }

  /** An envelope is taken from the outbox or the controls of the open vault. */
  lemma StartKeeps(w: World, p: nat, x: Envelope)
    requires Base(w) && IsOpen(w, p) && Genuine(w.trace, x)
    ensures var v := ApplyStart(w, p, x);
            TraceOk(v.trace) && Grows(w.trace, v.trace) && HostOk(v.host, v.trace) && NetworkOk(v.net, v.trace)
  {
    hide VaultsOk, NetworkOk;
    var v := ApplyStart(w, p, x);
    StartedMore(w.trace, v.trace, x);
    NetworkStays(w.net, w.trace, v.trace);
    HostStays(w.host, w.trace, v.trace);
  }

  lemma StartedMore(r: Trace, q: Trace, x: Envelope)
    requires TraceOk(r) && Genuine(r, x) && q == r.(started := q.started)
             && r.started <= q.started <= r.started + {x.id}
    ensures TraceOk(q) && Grows(r, q)
  {
  }

  lemma OutboxIsGenuine(r: Trace, now: nat, d: DeviceId, t: Tables)
    requires VaultOk(r, now, d, t)
    ensures forall e :: e in t.outbox ==> Genuine(r, OutboxEnvelope(d, e, t.outbox[e]))
    ensures forall e :: e in t.controls ==> Genuine(r, ControlEnvelope(d, e, t.controls[e]))
  {
    forall e | e in t.outbox ensures Genuine(r, OutboxEnvelope(d, e, t.outbox[e])) {
      assert OutboxRowOk(r, now, d, t, e);
    }
  }

  lemma RelayOnlyPostKeeps(w: World, p: nat, x: Envelope, at: nat)
    requires Base(w) && Enabled(w, RelayOnlyPost(p, x, at))
    ensures Base(Apply(w, RelayOnlyPost(p, x, at))) && Grows(w.trace, Apply(w, RelayOnlyPost(p, x, at)).trace)
  {
    hide VaultOk, TraceOk, NetworkOk, HostOk;
    var v := Apply(w, RelayOnlyPost(p, x, at));
    OutboxIsGenuine(w.trace, w.now, VaultOf(w, p), TablesOf(w, p));
    StartedMore(w.trace, v.trace, x);
    NetworkStays(w.net, w.trace, v.trace);
    RelayPostedMore(w.net, v.trace, x);
    HostStays(w.host, w.trace, v.trace);
    Assemble(w, v);
  }

  lemma RelayPostedMore(n: Network, r: Trace, x: Envelope)
    requires NetworkOk(n, r) && GenuineOut(r, x)
    ensures NetworkOk(n.(relayPosted := n.relayPosted + {x}), r)
    ensures NetworkOk(n.(posted := n.posted + {x}), r)
  {
  }

  lemma RelayStoreKeeps(n: Network, r: Trace, x: Envelope, expiresAt: nat)
    requires NetworkOk(n, r) && GenuineOut(r, x)
    ensures NetworkOk(RelayStore(n, x, expiresAt), r)
  {
  }

  lemma FewerRelayRows(n: Network, r: Trace, n': Network)
    requires NetworkOk(n, r) && n' == n.(relay := n'.relay, accepted := n'.accepted)
    requires forall e :: e in n'.relay ==> e in n.relay && n'.relay[e] == n.relay[e]
    requires forall e :: e in n'.accepted ==> e in r.history
    ensures NetworkOk(n', r)
  {
  }

  lemma RunningIsGenuine(w: World, p: nat, job: Job)
    requires Base(w) && IsRunning(w, p, job)
    ensures GenuineOut(w.trace, job.envelope)
  {
    assert ProcessOk(w.trace, w.host.processes[p]);
  }

  lemma TransactKeeps(w: World, p: nat, a: Transaction)
    requires Base(w) && Enabled(w, Transact(p, a))
    ensures Base(Apply(w, Transact(p, a))) && Grows(w.trace, Apply(w, Transact(p, a)).trace)
  {
    hide VaultOk, TraceOk, NetworkOk, HostOk, CanTransact, TablesAfter, TraceAfter;
    var d, t := VaultOf(w, p), TablesOf(w, p);
    var v := Apply(w, Transact(p, a));
    TransactionKeepsTrace(w.net, w.trace, w.now, d, t, a);
    TransactionKeepsVault(w.net, w.trace, w.now, d, t, a);
    NetworkStays(w.net, w.trace, v.trace);
    HostStays(w.host, w.trace, v.trace);
    Assemble(w, v);
  }

  lemma FlushKeeps(w: World, s: Step)
    requires Base(w) && Enabled(w, s) && (s.FlushOutbox? || s.FlushControl?)
    ensures Base(Apply(w, s)) && Grows(w.trace, Apply(w, s).trace)
  {
    hide VaultOk, TraceOk, NetworkOk, HostOk;
    OutboxIsGenuine(w.trace, w.now, VaultOf(w, s.p), TablesOf(w, s.p));
    var d, t := VaultOf(w, s.p), TablesOf(w, s.p);
    StartKeeps(w, s.p, if s.FlushOutbox? then OutboxEnvelope(d, s.e, t.outbox[s.e]) else ControlEnvelope(d, s.e,
        t.controls[s.e]));
    Assemble(w, Apply(w, s));
  }

  lemma JobKeeps(w: World, s: Step)
    requires Base(w) && Enabled(w, s) && (s.PostToPeer? || s.PostToRelay? || s.FinishJob?)
    ensures Base(Apply(w, s)) && Grows(w.trace, Apply(w, s).trace)
  {
    hide VaultOk, TraceOk, NetworkOk;
    var v := Apply(w, s);
    Reflexive(w.trace);
    RunningIsGenuine(w, s.p, s.job);
    RelayPostedMore(w.net, w.trace, s.job.envelope);
    if s.FinishJob? {
      EndKeeps(w.host, w.trace, s.p, s.job);
      if v.vaults != w.vaults {
        AcceptShrinks(TablesOf(w, s.p), s.job.envelope.id);
        ShrinkKeeps(w.trace, w.now, VaultOf(w, s.p), TablesOf(w, s.p), MarkAccepted(TablesOf(w, s.p),
            s.job.envelope.id));
      }
    }
    Assemble(w, v);
  }

  lemma Reflexive(r: Trace)
    ensures Grows(r, r)
  {
  }

  lemma EndKeeps(h: Host, r: Trace, p: nat, job: Job)
    requires HostOk(h, r) && p in h.processes
    ensures HostOk(EndJob(h, p, job), r)
  {
    assert ProcessOk(r, h.processes[p]);
  }

  lemma HostStepKeeps(h: Host, r: Trace, s: Step)
    requires HostOk(h, r)
    requires s.OpenVault? ==> s.d in r.devices
    ensures HostOk(HostAfter(h, s), r)
  {
    forall p | p in HostAfter(h, s).processes ensures ProcessOk(r, HostAfter(h, s).processes[p]) {
      assert p in h.processes ==> ProcessOk(r, h.processes[p]);
    }
  }

  lemma PostedIsGenuine(n: Network, r: Trace, x: Envelope)
    requires NetworkOk(n, r)
    ensures x in n.posted ==> GenuineOut(r, x) && NetworkOk(n.(accepted := n.accepted + {x.id}), r)
    ensures x in n.relayPosted ==> GenuineOut(r, x)
  {
  }

  lemma QueueShrinks(n: Network, r: Trace, d: DeviceId, ids: set<EnvelopeId>, now: nat)
    requires NetworkOk(n, r)
    ensures NetworkOk(RelayAck(n, d, ids), r) && NetworkOk(RelayCleanup(n, now), r)
  {
    FewerRelayRows(n, r, RelayAck(n, d, ids));
    FewerRelayRows(n, r, RelayCleanup(n, now));
  }

  lemma ArrivalKeeps(w: World, s: Step)
    requires Base(w) && Enabled(w, s)
    requires s.PeerReceives? || s.RelayReceives? || s.Acknowledge? || s.RelayForgets? || s.RelayExpires?
    ensures Base(Apply(w, s)) && Grows(w.trace, Apply(w, s).trace)
  {
    hide VaultOk, TraceOk, HostOk, NetworkOk, GenuineOut, Grows, Deposit, AckInbox, RelayStore, RelayAck, RelayCleanup;
    Reflexive(w.trace);
    match s
    case PeerReceives(x) =>
      PostedIsGenuine(w.net, w.trace, x);
      DepositKeeps(w.trace, w.now, w.vaults[x.mailbox], x);
      Assemble(w, Apply(w, s));
    case RelayReceives(x, ttl) =>
      PostedIsGenuine(w.net, w.trace, x);
      RelayStoreKeeps(w.net, w.trace, x, w.now + ttl);
      Assemble(w, Apply(w, s));
    case Acknowledge(p, ids) =>
      AckKeeps(w.trace, w.now, VaultOf(w, p), TablesOf(w, p), ids);
      Assemble(w, Apply(w, s));
    case RelayForgets(d, ids) =>
      QueueShrinks(w.net, w.trace, d, ids, 0);
      Assemble(w, Apply(w, s));
    case RelayExpires =>
      QueueShrinks(w.net, w.trace, 0, {}, w.now);
      Assemble(w, Apply(w, s));
  }

  lemma StepKeepsBase(w: World, s: Step)
    requires Base(w) && Enabled(w, s)
    ensures Base(Apply(w, s)) && Grows(w.trace, Apply(w, s).trace)
  {
    hide VaultOk, TraceOk, NetworkOk, HostOk, Grows;
    match s
    case Transact(p, a) => TransactKeeps(w, p, a);
    case FlushOutbox(_, _, _) => FlushKeeps(w, s);
    case FlushControl(_, _) => FlushKeeps(w, s);
    case RelayOnlyPost(p, x, at) => RelayOnlyPostKeeps(w, p, x, at);
    case PostToPeer(_, _) => JobKeeps(w, s);
    case PostToRelay(_, _) => JobKeeps(w, s);
    case FinishJob(_, _, _) => JobKeeps(w, s);
    case PeerReceives(_) => ArrivalKeeps(w, s);
    case RelayReceives(_, _) => ArrivalKeeps(w, s);
    case Acknowledge(_, _) => ArrivalKeeps(w, s);
    case RelayForgets(_, _) => ArrivalKeeps(w, s);
    case RelayExpires => ArrivalKeeps(w, s);
    case Tick(_) => Reflexive(w.trace); Assemble(w, Apply(w, s));
    case _ => Reflexive(w.trace); HostStepKeeps(w.host, w.trace, s); Assemble(w, Apply(w, s));
  }

  lemma InitialIsBase(w: World)
    requires Initial(w)
    ensures Base(w)
  {
  }
}
