/**
 Message statuses are honest: `sent` and `read` messages have landed (or, for `read`,
 may have timed out), and a `delivered` message was opened by the peer. Outside the
 relay-only mode a status never goes back.
 */
module DeliveryStatus {
  import opened Prelude
  import opened VaultTables
  import opened DeliveryWorld
  import opened DeliveryBase
  import opened DeliveryBaseSteps
  import opened DeliveryLedger
  import opened DeliveryOrder
  import opened DeliveryEffects

  function Rank(s: Status): nat {
    match s
    case Queued => 0
    case Sent => 1
    case Delivered => 2
    case Read => 3
    case Received => 0
  }

  /** What the status of the message carried by `e` claims. */
  ghost predicate Honest(w: World, e: EnvelopeId, s: Status)
    requires e in w.trace.history
  {
    match s
    case Sent => Landed(w, e)
    case Delivered => SeenBy(w, w.trace.history[e].envelope.mailbox, e)
    case Read => Landed(w, e) || TimedOut(w, e)
    case _ => true
  }

  ghost predicate MessageHonest(w: World, m: MessageId, row: Message) {
    row.outgoing ==> m in w.trace.letters && w.trace.letters[m] in w.trace.history && Honest(w, w.trace.letters[m], row.status)
  }

  ghost predicate Statuses(w: World) {
    forall d, m :: d in w.vaults && m in w.vaults[d].messages ==> MessageHonest(w, m, w.vaults[d].messages[m])
  }

  lemma HonestyStays(w: World, s: Step, m: MessageId, row: Message)
    requires Base(w) && Enabled(w, s) && MessageHonest(w, m, row)
    ensures MessageHonest(Apply(w, s), m, row)
  {
    hide Base, Enabled, Apply, Landed;
    if row.outgoing {
      var e := w.trace.letters[m];
      StepKeepsBase(w, s);
      StepKeepsSeen(w, s);
      if Landed(w, e) { StepKeepsLanded(w, s, e); }
      ClockRuns(w, s);
    }
  }

  lemma ClockRuns(w: World, s: Step)
    requires Enabled(w, s)
    ensures w.now <= Apply(w, s).now && Apply(w, s).vaults.Keys == w.vaults.Keys
  {
    hide CanTransact, TablesAfter, TraceAfter;
  }

  // ----- what each transaction does to a status -----

  lemma AcceptedIsHonest(w: World, d: DeviceId, e: EnvelopeId, m: MessageId)
    requires Base(w) && Ledger(w) && Statuses(w) && d in w.vaults && e in w.net.accepted && m in w.vaults[d].messages
    ensures MessageHonest(w, m, MarkAccepted(w.vaults[d], e).messages[m])
    ensures e in w.vaults[d].outbox ==> MessageHonest(w, m, MarkSent(w.vaults[d], e).messages[m])
  {
    hide Landed, TraceOk, NetworkOk, HostOk, InboxOk, ControlsOk;
    var t := w.vaults[d];
    assert VaultOk(w.trace, w.now, d, t);
    assert MessageHonest(w, m, t.messages[m]);
    AcceptedIsKnown(w, e);
    if e in t.outbox {
      assert OutboxRowOk(w.trace, w.now, d, t, e);
      TextCarried(w.trace, e);
    }
  }

  /** A genuine `delivered` receipt moves only a message its author has opened. */
  lemma DeliveredIsHonest(w: World, d: DeviceId, x: Envelope, t: Tables, m: MessageId)
    requires Base(w) && Effects(w) && d in w.vaults && Genuine(w.trace, x) && x.mailbox == d
    requires x.ciphertext.payload.DeliveredReceipt? && m in t.messages && MessageHonest(w, m, t.messages[m])
    ensures MessageHonest(w, m, ApplyDelivered(t, x.sender, x.ciphertext.payload.upTo).messages[m])
  {
    hide Landed, NetworkOk, HostOk, VaultsOk, ShownOnce;
    assert Answers(w, x.id);
    TextCarried(w.trace, w.trace.history[x.id].cause.value);
  }

  /** Everything up to a message the peer has opened was sent off or timed out. */
  lemma UpToIsHonest(w: World, d: DeviceId, upTo: MessageId, m: MessageId)
    requires Base(w) && Ledger(w) && InOrder(w) && d in w.vaults && m in w.vaults[d].messages
             && upTo in w.vaults[d].messages
    requires w.vaults[d].messages[m].outgoing && w.vaults[d].messages[upTo].outgoing
    requires w.vaults[d].messages[m].peer == w.vaults[d].messages[upTo].peer
    requires w.vaults[d].messages[m].rowid <= w.vaults[d].messages[upTo].rowid
    requires upTo in w.trace.letters && SeenBy(w, w.vaults[d].messages[upTo].peer, w.trace.letters[upTo])
    ensures m in w.trace.letters && w.trace.letters[m] in w.trace.history
    ensures Landed(w, w.trace.letters[m]) || TimedOut(w, w.trace.letters[m])
  {
    hide NetworkOk, HostOk, OutboxOk, Effects;
    var r, t := w.trace, w.vaults[d];
    assert VaultOk(r, w.now, d, t);
    assert SentOk(r, d, m, t.messages[m]) && SentOk(r, d, upTo, t.messages[upTo]);
    var e, f := r.letters[m], r.letters[upTo];
    assert IsLetter(r, m, e) && IsLetter(r, upTo, f);
    assert RecordOk(r, e);
    if e != f {
      assert !SentBefore(r, upTo, m);
      assert Precedes(r, e, f);
      assert VaultOk(r, w.now, t.messages[upTo].peer, w.vaults[t.messages[upTo].peer]);
      assert Cleared(w, e);
      TextIsNoControl(w, d, e);
      assert Accounted(w, e);
    }
  }

  lemma TextIsNoControl(w: World, d: DeviceId, e: EnvelopeId)
    requires Base(w) && d in w.vaults && e in w.trace.history && w.trace.history[e].envelope.ciphertext.payload.Text?
    ensures e !in w.vaults[d].controls
  {
    assert VaultOk(w.trace, w.now, d, w.vaults[d]);
  }

  lemma ReadIsHonest(w: World, d: DeviceId, x: Envelope, t: Tables, m: MessageId)
    requires Base(w) && Ledger(w) && InOrder(w) && Effects(w) && d in w.vaults && Genuine(w.trace, x) && x.mailbox == d
    requires t.messages == w.vaults[d].messages
    requires x.ciphertext.payload.ReadReceipt? && m in t.messages && MessageHonest(w, m, t.messages[m])
    ensures MessageHonest(w, m, ApplyRead(t, x.sender, x.ciphertext.payload.upTo).messages[m])
  {
    hide Base, Ledger, InOrder, Landed, ShownOnce, AnsweredOnce;
    var upTo := x.ciphertext.payload.upTo;
    if ReadUpTo(t, x.sender, upTo, m) {
      assert Names(w, x.id, upTo);
      UpToIsHonest(w, d, upTo, m);
    }
  }

  /** The messages of the vault after opening an envelope, before any receipt is queued. */
  lemma OpenedIsHonest(w: World, d: DeviceId, x: Envelope, draw: Draw, m: MessageId)
    requires Base(w) && Ledger(w) && InOrder(w) && Effects(w) && Statuses(w)
    requires d in w.vaults && Genuine(w.trace, x) && x.mailbox == d
    requires m in Opened(w.vaults[d], x, w.now, draw).messages
    ensures MessageHonest(w, m, Opened(w.vaults[d], x, w.now, draw).messages[m])
  {
    hide Base, Ledger, InOrder, Effects, MessageHonest, ApplyDelivered, ApplyRead;
    var t := w.vaults[d];
    var unlocked := ConsumeKey(t, x.ciphertext.key);
    match x.ciphertext.payload
    case Text(_, _) => StoredIsHonest(w, t, x, draw, m);
    case DeliveredReceipt(n) =>
      SameMessages(unlocked, x.sender, n, m);
      DeliveredIsHonest(w, d, x, unlocked, m);
    case ReadReceipt(n) =>
      SameMessages(unlocked, x.sender, n, m);
      ReadIsHonest(w, d, x, unlocked, m);
    case _ =>
  }

  lemma SameMessages(t: Tables, peer: DeviceId, n: MessageId, m: MessageId)
    ensures m in ApplyDelivered(t, peer, n).messages <==> m in t.messages
    ensures m in ApplyRead(t, peer, n).messages <==> m in t.messages
  {
  }

  lemma StoredIsHonest(w: World, t: Tables, x: Envelope, draw: Draw, m: MessageId)
    requires x.ciphertext.payload.Text? && m in Opened(t, x, w.now, draw).messages
    requires m in t.messages ==> MessageHonest(w, m, t.messages[m])
    ensures MessageHonest(w, m, Opened(t, x, w.now, draw).messages[m])
  {
  }

  lemma ReceivedMessages(t: Tables, d: DeviceId, x: Envelope, now: nat, draw: Draw)
    requires Opens(t, d, x)
    ensures CommitReceive(t, d, x, now, draw).messages == Opened(t, x, now, draw).messages
  {
  }

  lemma TransactionIsHonest(w: World, d: DeviceId, a: Transaction, m: MessageId)
    requires Base(w) && Ledger(w) && InOrder(w) && Effects(w) && Statuses(w) && d in w.vaults
    requires CanTransact(w.net, w.trace, w.now, d, w.vaults[d], a) && !a.SendMessage?
    requires m in TablesAfter(w.net, w.trace, w.now, d, w.vaults[d], a).messages
    ensures MessageHonest(w, m, TablesAfter(w.net, w.trace, w.now, d, w.vaults[d], a).messages[m])
  {
    hide Base, Ledger, InOrder, Effects, MessageHonest, CommitReceive, Opened, Opens, Pending, MarkSent;
    match a
    case RelayOnlyDone(e) =>
      MarkSentMessages(w.vaults[d], e);
      AcceptedIsHonest(w, d, e, m);
    case Receive(x, draw) =>
      PendingIsGenuineHere(w, d, x);
      ReceivedMessages(w.vaults[d], d, x, w.now, draw);
      OpenedIsHonest(w, d, x, draw, m);
    case _ =>
  }

  lemma MarkSentMessages(t: Tables, e: EnvelopeId)
    requires e in t.outbox
    ensures MarkSent(t, e).messages.Keys == t.messages.Keys
  {
  }

  lemma SentIsHonest(w: World, d: DeviceId, a: Transaction, m: MessageId)
    requires Base(w) && Statuses(w) && d in w.vaults && a.SendMessage?
    requires CanTransact(w.net, w.trace, w.now, d, w.vaults[d], a)
    requires m in ApplyTransaction(w, d, a).vaults[d].messages && m !in w.vaults[d].messages
    ensures MessageHonest(ApplyTransaction(w, d, a), m, ApplyTransaction(w, d, a).vaults[d].messages[m])
  {
  }

  lemma StepKeepsStatuses(w: World, s: Step)
    requires Base(w) && Ledger(w) && InOrder(w) && Effects(w) && Statuses(w) && Enabled(w, s)
    ensures Statuses(Apply(w, s))
  {
    hide Base, Ledger, InOrder, Effects, MessageHonest, CanTransact, TablesAfter, TraceAfter, MarkAccepted;
    var v := Apply(w, s);
    forall d, m | d in v.vaults && m in v.vaults[d].messages ensures MessageHonest(v, m, v.vaults[d].messages[m]) {
      if s.Transact? && VaultOf(w, s.p) == d {
        TransactStatus(w, s, m);
      } else {
        if s.FinishJob? && v.vaults[d] != w.vaults[d] {
          AcceptedMessages(w.vaults[d], s.job.envelope.id);
          AcceptedIsHonest(w, d, s.job.envelope.id, m);
        }
        HonestyStays(w, s, m, v.vaults[d].messages[m]);
      }
    }
  }

  lemma AcceptedMessages(t: Tables, e: EnvelopeId)
    ensures MarkAccepted(t, e).messages.Keys == t.messages.Keys
  {
  }

  lemma TransactStatus(w: World, s: Step, m: MessageId)
    requires Base(w) && Ledger(w) && InOrder(w) && Effects(w) && Statuses(w) && Enabled(w, s) && s.Transact?
    requires m in Apply(w, s).vaults[VaultOf(w, s.p)].messages
    ensures MessageHonest(Apply(w, s), m, Apply(w, s).vaults[VaultOf(w, s.p)].messages[m])
  {
    hide Base, Ledger, InOrder, Effects, MessageHonest, CanTransact, TraceAfter, CommitReceive, MarkSent;
    var d := VaultOf(w, s.p);
    var row := Apply(w, s).vaults[d].messages[m];
    if s.action.SendMessage? {
      if m in w.vaults[d].messages {
        SendLeavesOthers(w, d, s.action, m);
        HonestyStays(w, s, m, row);
      } else {
        SentIsHonest(w, d, s.action, m);
      }
    } else {
      TransactionIsHonest(w, d, s.action, m);
      HonestyStays(w, s, m, row);
    }
  }

  lemma SendLeavesOthers(w: World, d: DeviceId, a: Transaction, m: MessageId)
    requires d in w.vaults && a.SendMessage? && CanTransact(w.net, w.trace, w.now, d, w.vaults[d], a)
             && m in w.vaults[d].messages
    ensures m in ApplyTransaction(w, d, a).vaults[d].messages
            && ApplyTransaction(w, d, a).vaults[d].messages[m] == w.vaults[d].messages[m]
  {
  }

  // ----- statuses only climb -----

  /** Every message that stays keeps its direction, and its status does not go back. */
  ghost predicate Climbs(t: Tables, t': Tables) {
    forall m :: m in t.messages && m in t'.messages && t.messages[m].outgoing ==>
      t'.messages[m].outgoing && Rank(t.messages[m].status) <= Rank(t'.messages[m].status)
  }

  lemma TransactionClimbs(n: Network, r: Trace, now: nat, d: DeviceId, t: Tables, a: Transaction)
    requires CanTransact(n, r, now, d, t, a) && !a.RelayOnlyDone?
    ensures Climbs(t, TablesAfter(n, r, now, d, t, a))
  {
    if a.Receive? {
      ReceivedMessages(t, d, a.x, now, a.draw);
      OpeningClimbs(t, a.x, now, a.draw);
    }
  }

  lemma OpeningClimbs(t: Tables, x: Envelope, now: nat, draw: Draw)
    requires x.ciphertext.payload.Text? ==> draw.message !in t.messages
    ensures Climbs(t, Opened(t, x, now, draw))
  {
    match x.ciphertext.payload
    case Text(_, _) =>
    case DeliveredReceipt(_) =>
    case ReadReceipt(_) =>
    case _ =>
  }

  lemma AcceptingClimbs(t: Tables, e: EnvelopeId)
    ensures Climbs(t, MarkAccepted(t, e))
  {
  }

  lemma StepClimbs(w: World, s: Step)
    requires Enabled(w, s) && !(s.Transact? && s.action.RelayOnlyDone?)
    ensures forall d :: d in w.vaults ==> Climbs(w.vaults[d], Apply(w, s).vaults[d])
  {
    hide CanTransact, TablesAfter, TraceAfter, MarkAccepted;
    match s
    case Transact(p, a) => TransactionClimbs(w.net, w.trace, w.now, VaultOf(w, p), TablesOf(w, p), a);
    case FinishJob(p, job, _) => if IsOpen(w, p) { AcceptingClimbs(TablesOf(w, p), job.envelope.id); }
    case _ =>
  }

  /** The relay's answer comes while its message is at most `sent`. */
  ghost predicate IsTimely(w: World, s: Step)
    requires Enabled(w, s)
  {
    s.Transact? && s.action.RelayOnlyDone? ==>
      var t := TablesOf(w, s.p);
      var m := t.outbox[s.action.e].message;
      m in t.messages && t.messages[m].outgoing ==> Rank(t.messages[m].status) <= Rank(Sent)
  }

  /** One step lets no status fall, if and only if it is timely. */
  lemma StepClimbsIff(w: World, s: Step)
    requires Enabled(w, s)
    ensures (forall d :: d in w.vaults ==> Climbs(w.vaults[d], Apply(w, s).vaults[d])) <==> IsTimely(w, s)
  {
    hide Climbs;
    if s.Transact? && s.action.RelayOnlyDone? {
      var d := VaultOf(w, s.p);
      RelayOnlyClimbsIff(w.vaults[d], s.action.e);
      forall c | c in w.vaults && c != d ensures Climbs(w.vaults[c], Apply(w, s).vaults[c]) {
        ClimbsItself(w.vaults[c]);
      }
    } else {
      hide CanTransact, TablesAfter, TraceAfter;
      StepClimbs(w, s);
    }
  }

  lemma ClimbsItself(t: Tables)
    ensures Climbs(t, t)
  {
  }

  /**
   The relay-only answer writes `sent` over any status. It goes back exactly when the
   message had already been delivered or read, and this is the one step that can.
   */
  lemma RelayOnlyClimbsIff(t: Tables, e: EnvelopeId)
    requires e in t.outbox
    ensures Climbs(t, MarkSent(t, e)) <==>
            (t.outbox[e].message in t.messages && t.messages[t.outbox[e].message].outgoing
             ==> Rank(t.messages[t.outbox[e].message].status) <= Rank(Sent))
  {
    var m := t.outbox[e].message;
    if m in t.messages && t.messages[m].outgoing {
      assert MarkSent(t, e).messages[m].status == Sent;
    }
  }
}
