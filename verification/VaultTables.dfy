/**
 The SQL tables of one vault database, and every transaction the delivery code
 runs on them, as functions from table contents to table contents.

 A table is a map from its primary key to its row; `rowid` is SQLite's hidden row
 number, which grows with every insertion and therefore gives insertion order.
 Identifiers are numbers: only their equality matters.
 */
module VaultTables {
  import opened Prelude

  type DeviceId = nat
  type EnvelopeId = nat
  type MessageId = nat

  /** What a Signal ciphertext carries once it is decrypted. */
  datatype Payload =
    | Text(message: MessageId, ttlSeconds: nat)
    | DeliveredReceipt(upTo: MessageId)
    | ReadReceipt(upTo: MessageId)
    | Typing(expiresAt: nat)
    | Profile

  /** The position of a ciphertext in a Signal session: a per-session counter. */
  datatype RatchetKey = RatchetKey(session: nat, index: nat)

  /** An ideal ciphertext: it can be unlocked by `recipient` only, once, with its own key. */
  datatype Ciphertext = Ciphertext(sender: DeviceId, recipient: DeviceId, key: RatchetKey, payload: Payload)

  /** The request body of `/api/messages/send`, with the authenticated sender added. */
  datatype Envelope = Envelope(id: EnvelopeId, sender: DeviceId, mailbox: DeviceId, ciphertext: Ciphertext,
      ephemeral: bool)

  datatype Contact = Contact(identityChanged: bool, next: RatchetKey)

  datatype Status = Queued | Sent | Delivered | Read | Received

  /** `remote` is the row of message_links that belongs to a received message. */
  datatype Message = Message(rowid: nat, peer: DeviceId, outgoing: bool, status: Status,
                             disappearAt: Option<nat>, source: Option<EnvelopeId>, remote: Option<MessageId>)

  datatype OutboxRow = OutboxRow(rowid: nat, message: MessageId, mailbox: DeviceId, ciphertext: Ciphertext,
      createdAt: nat)

  datatype ControlRow = ControlRow(rowid: nat, mailbox: DeviceId, ciphertext: Ciphertext, createdAt: nat,
      expiresAt: Option<nat>)

  datatype Tables = Tables(
    contacts: map<DeviceId, Contact>,
    messages: map<MessageId, Message>,
    outbox: map<EnvelopeId, OutboxRow>,
    controls: map<EnvelopeId, ControlRow>,
    inbox: map<EnvelopeId, Envelope>,
    seen: set<EnvelopeId>,
    consumed: set<RatchetKey>)

  const EMPTY := Tables(map[], map[], map[], map[], map[], {}, {})

  /** A fresh row number: SQLite hands out numbers above every present one. */
  ghost predicate AboveMessages(t: Tables, rowid: nat) {
    forall m :: m in t.messages ==> t.messages[m].rowid < rowid
  }

  ghost predicate AboveOutbox(t: Tables, rowid: nat) {
    forall e :: e in t.outbox ==> t.outbox[e].rowid < rowid
  }

  ghost predicate AboveControls(t: Tables, rowid: nat) {
    forall e :: e in t.controls ==> t.controls[e].rowid < rowid
  }

  /** A contact the code agrees to encrypt for. */
  predicate Usable(t: Tables, peer: DeviceId) {
    peer in t.contacts && !t.contacts[peer].identityChanged
  }

  // ----- sending -----

  function EncryptFor(t: Tables, me: DeviceId, peer: DeviceId, payload: Payload): Ciphertext
    requires peer in t.contacts
  {
    Ciphertext(me, peer, t.contacts[peer].next, payload)
  }

  /** The session record libsignal saves after encrypting one message. */
  function AdvanceRatchet(t: Tables, peer: DeviceId): Tables
    requires peer in t.contacts
  {
    var c := t.contacts[peer];
    t.(contacts := t.contacts[peer := c.(next := c.next.(index := c.next.index + 1))])
  }

  function DeadlineFor(ttlSeconds: nat, now: nat): Option<nat> {
    if ttlSeconds == 0 then None else Some(now + ttlSeconds * 1000)
  }

  /** The committed effect of sendMessage on the tables. */
  function CommitSend(t: Tables, me: DeviceId, peer: DeviceId, e: EnvelopeId, m: MessageId,
                      ttlSeconds: nat, now: nat, rowid: nat, outboxRowid: nat): Tables
    requires peer in t.contacts
  {
    var sealed := EncryptFor(t, me, peer, Text(m, ttlSeconds));
    var row := Message(rowid, peer, true, Queued, DeadlineFor(ttlSeconds, now), None, None);
    AdvanceRatchet(t, peer).(
      messages := t.messages[m := row],
      outbox := t.outbox[e := OutboxRow(outboxRowid, m, peer, sealed, now)])
  }

  /** The effect of queueControl inside the transaction of its caller. */
  function CommitControl(t: Tables, me: DeviceId, peer: DeviceId, e: EnvelopeId, payload: Payload,
                         now: nat, rowid: nat): Tables
    requires peer in t.contacts
  {
    var expiry := if payload.Typing? then Some(payload.expiresAt) else None;
    AdvanceRatchet(t, peer).(
      controls := t.controls[e := ControlRow(rowid, peer, EncryptFor(t, me, peer, payload), now, expiry)])
  }

  /** The last message received from `peer`: the one a read receipt names. */
  ghost predicate IsLastReceived(t: Tables, peer: DeviceId, m: MessageId) {
    && m in t.messages && t.messages[m].peer == peer && !t.messages[m].outgoing && t.messages[m].remote.Some?
    && forall n :: n in t.messages && t.messages[n].peer == peer && !t.messages[n].outgoing && t.messages[n].remote.Some?
                   ==> t.messages[n].rowid <= t.messages[m].rowid
  }

  // ----- flushing -----

  function OutboxEnvelope(me: DeviceId, e: EnvelopeId, row: OutboxRow): Envelope {
    Envelope(e, me, row.mailbox, row.ciphertext, false)
  }

  function ControlEnvelope(me: DeviceId, e: EnvelopeId, row: ControlRow): Envelope {
    Envelope(e, me, row.mailbox, row.ciphertext, row.expiresAt.Some?)
  }

  /** The WHERE clause of flushOutbox. */
  predicate Eligible(t: Tables, e: EnvelopeId, now: nat) {
    && e in t.outbox
    && t.outbox[e].message in t.messages
    && var m := t.messages[t.outbox[e].message];
       Usable(t, m.peer) && !Passed(m.disappearAt, now)
  }

  /** ORDER BY created_at, rowid. */
  predicate Before(a: OutboxRow, b: OutboxRow) {
    a.createdAt < b.createdAt || (a.createdAt == b.createdAt && a.rowid < b.rowid)
  }

  /** The first row flushOutbox looks at. */
  ghost predicate IsHead(t: Tables, e: EnvelopeId, now: nat) {
    && Eligible(t, e, now)
    && forall f :: Eligible(t, f, now) ==> !Before(t.outbox[f], t.outbox[e])
  }

  /** A background job learned that the peer or the relay has the envelope. */
  function MarkAccepted(t: Tables, e: EnvelopeId): Tables {
    var messages' := map m | m in t.messages ::
      if e in t.outbox && t.outbox[e].message == m && t.messages[m].status == Queued
      then t.messages[m].(status := Sent) else t.messages[m];
    t.(messages := messages', outbox := t.outbox - {e}, controls := t.controls - {e})
  }

  /** The relay answered 2xx inside flushOutbox: the status is overwritten whatever it was. */
  function MarkSent(t: Tables, e: EnvelopeId): Tables
    requires e in t.outbox
  {
    var m := t.outbox[e].message;
    t.(messages := if m in t.messages then t.messages[m := t.messages[m].(status := Sent)] else t.messages,
       outbox := t.outbox - {e})
  }

  function DropControl(t: Tables, e: EnvelopeId): Tables {
    t.(controls := t.controls - {e})
  }

  // ----- receiving -----

  /** Decryption succeeds exactly for a ciphertext of that contact whose key was not used yet. */
  predicate Decrypts(t: Tables, me: DeviceId, x: Envelope) {
    x.ciphertext.sender == x.sender && x.ciphertext.recipient == me && x.ciphertext.key !in t.consumed
  }

  function ConsumeKey(t: Tables, key: RatchetKey): Tables {
    t.(consumed := t.consumed + {key})
  }

  /** `delivered` receipt: only a queued or sent message of that conversation moves. */
  function ApplyDelivered(t: Tables, peer: DeviceId, upTo: MessageId): Tables {
    t.(messages := map m | m in t.messages ::
      if m == upTo && t.messages[m].peer == peer && t.messages[m].outgoing && t.messages[m].status in {Queued, Sent}
      then t.messages[m].(status := Delivered) else t.messages[m])
  }

  /** `read` receipt: the named message and every earlier one sent in the conversation. */
  predicate ReadUpTo(t: Tables, peer: DeviceId, upTo: MessageId, m: MessageId) {
    && m in t.messages && t.messages[m].peer == peer && t.messages[m].outgoing
    && upTo in t.messages && t.messages[upTo].peer == peer && t.messages[upTo].outgoing
    && t.messages[m].rowid <= t.messages[upTo].rowid
  }

  function ApplyRead(t: Tables, peer: DeviceId, upTo: MessageId): Tables {
    t.(messages := map m | m in t.messages ::
      if ReadUpTo(t, peer, upTo, m) then t.messages[m].(status := Read) else t.messages[m])
  }

  function MarkSeen(t: Tables, e: EnvelopeId): Tables {
    t.(seen := t.seen + {e})
  }

  /** The disappearing timer a received message may carry. */
  function AgreedTtl(ttlSeconds: nat): nat {
    if ttlSeconds in {3600, 86400, 604800} then ttlSeconds else 0
  }

  /** Identifiers a receiving transaction draws: the local message row and the receipt. */
  datatype Draw = Draw(message: MessageId, rowid: nat, receipt: EnvelopeId, receiptRowid: nat)

  function StoreReceived(t: Tables, x: Envelope, now: nat, draw: Draw): Tables
    requires x.ciphertext.payload.Text?
  {
    var p := x.ciphertext.payload;
    var row := Message(draw.rowid, x.sender, false, Received, DeadlineFor(AgreedTtl(p.ttlSeconds), now), Some(x.id),
        Some(p.message));
    t.(messages := t.messages[draw.message := row])
  }

  /** Whether syncMessages gets as far as decrypting this envelope. */
  predicate Opens(t: Tables, me: DeviceId, x: Envelope) {
    x.id !in t.seen && Usable(t, x.sender) && Decrypts(t, me, x)
  }

  /** The committed effect of processing one pending envelope. */
  function CommitReceive(t: Tables, me: DeviceId, x: Envelope, now: nat, draw: Draw): Tables
    requires Opens(t, me, x)
  {
    var unlocked := ConsumeKey(t, x.ciphertext.key);
    match x.ciphertext.payload
    case Text(m, _) =>
      var stored := StoreReceived(unlocked, x, now, draw);
      MarkSeen(CommitControl(stored, me, x.sender, draw.receipt, DeliveredReceipt(m), now, draw.receiptRowid), x.id)
    case DeliveredReceipt(m) => MarkSeen(ApplyDelivered(unlocked, x.sender, m), x.id)
    case ReadReceipt(m) => MarkSeen(ApplyRead(unlocked, x.sender, m), x.id)
    case Typing(_) => MarkSeen(unlocked, x.id)
    case Profile => MarkSeen(unlocked, x.id)
  }

  function AckInbox(t: Tables, ids: set<EnvelopeId>): Tables {
    t.(inbox := t.inbox - ids)
  }

  /** INSERT OR IGNORE INTO tor_inbox. */
  function Deposit(t: Tables, x: Envelope): Tables {
    if x.id in t.inbox then t else t.(inbox := t.inbox[x.id := x])
  }

  /** Deleting a message deletes its outbox row with it. */
  function Forget(t: Tables, m: MessageId): Tables {
    t.(messages := t.messages - {m},
       outbox := map e | e in t.outbox && t.outbox[e].message != m :: t.outbox[e])
  }
}
