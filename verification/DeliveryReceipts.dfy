/**
 Receipts are heeded and statuses are earned: what a vault shows of its sent messages is
 what the receipts it has opened tell it, and a message still queued is still in the
 outbox, to be tried again.
 */
module DeliveryReceipts {
  import opened Prelude
  import opened VaultTables
  import opened DeliveryWorld
  import opened DeliveryBase
  import opened DeliveryBaseSteps
  import opened DeliveryLedger
  import opened DeliveryEffects
  import opened DeliveryStatus
  import opened DeliveryTheorems

  ghost predicate IsSent(t: Tables, m: MessageId) {
    m in t.messages && t.messages[m].outgoing
  }

  /** Sent in the same conversation, not after the other one. */
  ghost predicate UpTo(t: Tables, u: MessageId, m: MessageId) {
    && IsSent(t, m) && IsSent(t, u)
    && t.messages[m].peer == t.messages[u].peer && t.messages[m].rowid <= t.messages[u].rowid
  }

  ghost predicate HeedsDelivered(t: Tables, m: MessageId) {
    IsSent(t, m) ==> t.messages[m].status == Delivered || t.messages[m].status == Read
  }

  ghost predicate HeedsRead(t: Tables, u: MessageId) {
    forall m :: UpTo(t, u, m) ==> t.messages[m].status == Read
  }

  ghost predicate Shows(t: Tables, p: Payload) {
    match p
    case DeliveredReceipt(m) => HeedsDelivered(t, m)
    case ReadReceipt(u) => HeedsRead(t, u)
    case _ => true
  }

  /** Every receipt opened here shows. */
  ghost predicate Heeds(r: Trace, t: Tables) {
    forall c :: c in t.seen && c in r.history ==> Shows(t, r.history[c].envelope.ciphertext.payload)
  }

  ghost predicate Heeded(w: World) {
    forall d :: d in w.vaults ==> Heeds(w.trace, w.vaults[d])
  }

  /** A receipt that says so was opened here. */
  ghost predicate ToldDelivered(r: Trace, t: Tables, m: MessageId) {
    exists c :: c in t.seen && c in r.history && r.history[c].envelope.ciphertext.payload == DeliveredReceipt(m)
  }

  /** A read receipt of the peer was opened here that names this message or a later one. */
  ghost predicate ToldRead(r: Trace, t: Tables, peer: DeviceId, m: MessageId) {
    exists c :: c in t.seen && c in r.history && SaysRead(r, c, peer, m)
  }

  ghost predicate SaysRead(r: Trace, c: EnvelopeId, peer: DeviceId, m: MessageId)
    requires c in r.history
  {
    var x := r.history[c].envelope;
    && x.sender == peer && x.ciphertext.payload.ReadReceipt?
    && x.ciphertext.payload.upTo in r.letters && m in r.letters && !SentBefore(r, x.ciphertext.payload.upTo, m)
  }

  ghost predicate RowEarned(r: Trace, t: Tables, m: MessageId)
    requires m in t.messages
  {
    var row := t.messages[m];
    row.outgoing ==>
      match row.status
      case Queued => m in r.letters && r.letters[m] in t.outbox && t.outbox[r.letters[m]].message == m
      case Sent => true
      case Delivered => ToldDelivered(r, t, m)
      case Read => ToldRead(r, t, row.peer, m)
      case Received => false
  }

  /** Every status of a sent message is accounted for. */
  ghost predicate Earned(r: Trace, t: Tables) {
    forall m :: m in t.messages ==> RowEarned(r, t, m)
  }

  ghost predicate AllEarned(w: World) {
    forall d :: d in w.vaults ==> Earned(w.trace, w.vaults[d])
  }

  // ----- statuses are earned -----

  /** What was told stays told. */
  lemma ToldStays(r: Trace, q: Trace, t: Tables, u: Tables, peer: DeviceId, m: MessageId)
    requires Grows(r, q) && t.seen <= u.seen && (forall e :: e in r.letters.Values ==> e in r.history)
    ensures ToldDelivered(r, t, m) ==> ToldDelivered(q, u, m)
    ensures ToldRead(r, t, peer, m) ==> ToldRead(q, u, peer, m)
  {
    if ToldRead(r, t, peer, m) {
      var c :| c in t.seen && c in r.history && SaysRead(r, c, peer, m);
      assert c in u.seen && c in q.history && SaysRead(q, c, peer, m);
    }
    if ToldDelivered(r, t, m) {
      var c :| c in t.seen && c in r.history && r.history[c].envelope.ciphertext.payload == DeliveredReceipt(m);
      assert c in u.seen && c in q.history;
    }
  }

  lemma LettersInHistory(r: Trace)
    requires TraceOk(r)
    ensures forall e :: e in r.letters.Values ==> e in r.history
  {
    assert forall m :: m in r.letters ==> IsLetter(r, m, r.letters[m]);
  }

  /** The row is the same and, if queued, still in the outbox. */
  lemma RowStaysEarned(r: Trace, q: Trace, t: Tables, u: Tables, m: MessageId)
    requires TraceOk(r) && Grows(r, q) && t.seen <= u.seen && m in t.messages && m in u.messages
    requires u.messages[m] == t.messages[m] && RowEarned(r, t, m)
    requires t.messages[m].outgoing && t.messages[m].status == Queued && m in r.letters && r.letters[m] in t.outbox ==>
               r.letters[m] in u.outbox && u.outbox[r.letters[m]] == t.outbox[r.letters[m]]
    ensures RowEarned(q, u, m)
  {
    hide ToldDelivered, ToldRead, TraceOk;
    LettersInHistory(r);
    ToldStays(r, q, t, u, t.messages[m].peer, m);
  }

  lemma QuietKeepsEarned(r: Trace, q: Trace, t: Tables, u: Tables)
    requires TraceOk(r) && Grows(r, q) && u.messages == t.messages && u.outbox == t.outbox && u.seen == t.seen && Earned(r, t)
    ensures Earned(q, u)
  {
    hide RowEarned, TraceOk;
    forall m | m in u.messages ensures RowEarned(q, u, m) {
      RowStaysEarned(r, q, t, u, m);
    }
  }

  lemma AcceptingKeepsEarned(r: Trace, t: Tables, e: EnvelopeId)
    requires TraceOk(r) && Grows(r, r) && Earned(r, t)
    ensures Earned(r, MarkAccepted(t, e))
    ensures e in t.outbox ==> Earned(r, MarkSent(t, e))
  {
    hide TraceOk, ToldDelivered, ToldRead;
    var u := MarkAccepted(t, e);
    forall m | m in u.messages ensures RowEarned(r, u, m) {
      assert RowEarned(r, t, m);
      if u.messages[m] == t.messages[m] { RowStaysEarned(r, r, t, u, m); }
    }
    if e in t.outbox {
      var v := MarkSent(t, e);
      forall m | m in v.messages ensures RowEarned(r, v, m) {
        assert RowEarned(r, t, m);
        if v.messages[m] == t.messages[m] { RowStaysEarned(r, r, t, v, m); }
      }
    }
  }

  lemma ForgettingKeepsEarned(r: Trace, t: Tables, m: MessageId)
    requires TraceOk(r) && Grows(r, r) && Earned(r, t)
    ensures Earned(r, Forget(t, m))
  {
    hide TraceOk, ToldDelivered, ToldRead;
    var u := Forget(t, m);
    forall n | n in u.messages ensures RowEarned(r, u, n) {
      assert RowEarned(r, t, n);
      RowStaysEarned(r, r, t, u, n);
    }
  }

  lemma SendingKeepsEarned(n: Network, r: Trace, now: nat, d: DeviceId, t: Tables, a: Transaction)
    requires TraceOk(r) && Earned(r, t) && a.SendMessage? && CanTransact(n, r, now, d, t, a)
    requires Grows(r, TraceAfter(n, r, now, d, t, a))
    ensures Earned(TraceAfter(n, r, now, d, t, a), TablesAfter(n, r, now, d, t, a))
  {
    hide ToldDelivered, ToldRead;
    var q, u := TraceAfter(n, r, now, d, t, a), TablesAfter(n, r, now, d, t, a);
    LettersInHistory(r);
    hide TraceOk;
    forall m | m in u.messages ensures RowEarned(q, u, m) {
      if m != a.m {
        assert RowEarned(r, t, m);
        RowStaysEarned(r, q, t, u, m);
      }
    }
  }

  lemma OpeningAddsReceived(t: Tables, x: Envelope, now: nat, draw: Draw)
    requires x.ciphertext.payload.Text? ==> draw.message !in t.messages
    ensures var u := Opened(t, x, now, draw);
            && u.outbox == t.outbox && u.seen == t.seen + {x.id} && t.messages.Keys <= u.messages.Keys
            && forall m :: m in u.messages && m !in t.messages ==> !u.messages[m].outgoing
  {
  }

  /** Opening an envelope: a row that moves was told to by this very envelope. */
  lemma OpeningKeepsEarned(r: Trace, q: Trace, now: nat, d: DeviceId, t: Tables, x: Envelope, draw: Draw)
    requires TraceOk(r) && Grows(r, q) && MessagesOk(r, d, t) && Earned(r, t) && Genuine(r, x)
    requires x.ciphertext.payload.Text? ==> draw.message !in t.messages
    ensures Earned(q, Opened(t, x, now, draw))
  {
    hide TraceOk, RowEarned, Opened, MessagesOk, Grows, Genuine;
    var u := Opened(t, x, now, draw);
    OpeningAddsReceived(t, x, now, draw);
    forall m | m in u.messages ensures RowEarned(q, u, m) {
      if m !in t.messages {
        ReceivedIsEarned(q, u, m);
      } else if u.messages[m] == t.messages[m] {
        RowStaysEarned(r, q, t, u, m);
      } else {
        MovedIsTold(r, q, now, d, t, x, draw, m);
      }
    }
  }

  lemma ReceivedIsEarned(r: Trace, t: Tables, m: MessageId)
    requires m in t.messages && !t.messages[m].outgoing
    ensures RowEarned(r, t, m)
  {
  }

  lemma MovedIsTold(r: Trace, q: Trace, now: nat, d: DeviceId, t: Tables, x: Envelope, draw: Draw, m: MessageId)
    requires Grows(r, q) && MessagesOk(r, d, t) && Genuine(r, x) && m in t.messages
    requires x.ciphertext.payload.Text? ==> draw.message !in t.messages
    requires m in Opened(t, x, now, draw).messages && Opened(t, x, now, draw).messages[m] != t.messages[m]
    ensures RowEarned(q, Opened(t, x, now, draw), m)
  {
    hide Grows, MessagesOk, RowEarned;
    GrowsAt(r, q, x.id);
    match x.ciphertext.payload
    case DeliveredReceipt(_) => DeliveredIsTold(r, q, now, t, x, draw, m);
    case ReadReceipt(_) => ReadIsTold(r, q, now, d, t, x, draw, m);
    case _ =>
  }

  lemma DeliveredIsTold(r: Trace, q: Trace, now: nat, t: Tables, x: Envelope, draw: Draw, m: MessageId)
    requires x.id in q.history && q.history[x.id].envelope == x && x.ciphertext.payload.DeliveredReceipt? && m in t.messages
    requires m in Opened(t, x, now, draw).messages && Opened(t, x, now, draw).messages[m] != t.messages[m]
    ensures RowEarned(q, Opened(t, x, now, draw), m)
  {
    hide ToldRead;
    assert x.id in Opened(t, x, now, draw).seen;
  }

  lemma ReadIsTold(r: Trace, q: Trace, now: nat, d: DeviceId, t: Tables, x: Envelope, draw: Draw, m: MessageId)
    requires Grows(r, q) && MessagesOk(r, d, t)
    requires x.id in q.history && q.history[x.id].envelope == x && x.ciphertext.payload.ReadReceipt? && m in t.messages
    requires m in Opened(t, x, now, draw).messages && Opened(t, x, now, draw).messages[m] != t.messages[m]
    ensures RowEarned(q, Opened(t, x, now, draw), m)
  {
    hide ToldDelivered;
    var u, upTo := Opened(t, x, now, draw), x.ciphertext.payload.upTo;
    assert ReadUpTo(t, x.sender, upTo, m);
    NotSentBefore(r, q, d, t, upTo, m);
    assert x.id in u.seen && SaysRead(q, x.id, x.sender, m);
  }

  lemma NotSentBefore(r: Trace, q: Trace, d: DeviceId, t: Tables, upTo: MessageId, m: MessageId)
    requires Grows(r, q) && MessagesOk(r, d, t) && IsSent(t, m) && IsSent(t, upTo)
    requires t.messages[m].rowid <= t.messages[upTo].rowid
    ensures upTo in q.letters && m in q.letters && !SentBefore(q, upTo, m)
  {
    assert SentOk(r, d, m, t.messages[m]) && SentOk(r, d, upTo, t.messages[upTo]);
    assert !SentBefore(r, upTo, m);
  }

  lemma TransactKeepsEarned(w: World, s: Step)
    requires Base(w) && AllEarned(w) && Enabled(w, s) && s.Transact?
    ensures Earned(Apply(w, s).trace, Apply(w, s).vaults[VaultOf(w, s.p)])
  {
    hide Earned, Grows, TraceOk, InboxOk, OutboxOk, ControlsOk, MessagesOk, NetworkOk, HostOk, Opened, CommitReceive, MarkSent,
        Forget, Opens, Pending;
    var d, t, q := VaultOf(w, s.p), TablesOf(w, s.p), Apply(w, s).trace;
    assert VaultOk(w.trace, w.now, d, t);
    GrowsItself(w.trace);
    StepKeepsBase(w, s);
    match s.action
    case SendMessage(_, _, _, _, _, _) => SendingKeepsEarned(w.net, w.trace, w.now, d, t, s.action);
    case RelayOnlyDone(e) => AcceptingKeepsEarned(w.trace, t, e);
    case Disappear(m) => ForgettingKeepsEarned(w.trace, t, m);
    case Receive(x, draw) =>
      PendingIsGenuineHere(w, d, x);
      OpeningKeepsEarned(w.trace, q, w.now, d, t, x, draw);
      ReceiveElsewhere(t, d, x, w.now, draw);
      OpenedElsewhere(t, d, x, w.now, draw);
      GrowsItself(q);
      QuietKeepsEarned(q, q, Opened(t, x, w.now, draw), CommitReceive(t, d, x, w.now, draw));
    case _ => QuietKeepsEarned(w.trace, q, t, Apply(w, s).vaults[d]);
  }

  lemma GrowsItself(r: Trace)
    ensures Grows(r, r)
  {
  }

  lemma OpenedElsewhere(t: Tables, d: DeviceId, x: Envelope, now: nat, draw: Draw)
    requires Opens(t, d, x)
    ensures var u, v := Opened(t, x, now, draw), CommitReceive(t, d, x, now, draw);
            u.messages == v.messages && u.outbox == v.outbox && u.seen == v.seen
  {
  }

  /** Only transactions and completions touch these tables. */
  lemma OthersAreQuiet(w: World, s: Step, d: DeviceId)
    requires Enabled(w, s) && d in w.vaults && !(s.Transact? && VaultOf(w, s.p) == d) && !s.FinishJob?
    ensures d in Apply(w, s).vaults
    ensures var t, u := w.vaults[d], Apply(w, s).vaults[d];
            u.messages == t.messages && u.outbox == t.outbox && u.seen == t.seen
  {
    hide CanTransact, TablesAfter, TraceAfter, HostAfter, IsHead, RelayOnlyRow;
  }

  lemma FinishKeepsEarned(w: World, s: Step, d: DeviceId)
    requires TraceOk(w.trace) && AllEarned(w) && Enabled(w, s) && d in w.vaults && s.FinishJob?
    ensures Earned(w.trace, Apply(w, s).vaults[d]) && Apply(w, s).trace == w.trace
  {
    hide TraceOk, Earned, MarkAccepted, SameSession;
    if Apply(w, s).vaults[d] != w.vaults[d] {
      GrowsItself(w.trace);
      AcceptingKeepsEarned(w.trace, w.vaults[d], s.job.envelope.id);
    }
  }

  lemma StepKeepsEarned(w: World, s: Step)
    requires Base(w) && AllEarned(w) && Enabled(w, s)
    ensures AllEarned(Apply(w, s))
  {
    var v := Apply(w, s);
    StepKeepsBase(w, s);
    ClockRuns(w, s);
    hide Earned, Grows, Enabled, Apply, TraceOk, NetworkOk, HostOk, VaultsOk;
    forall d | d in v.vaults ensures Earned(v.trace, v.vaults[d]) {
      assert Earned(w.trace, w.vaults[d]);
      if s.FinishJob? {
        FinishKeepsEarned(w, s, d);
      } else if s.Transact? && IsOpen(w, s.p) && VaultOf(w, s.p) == d {
        TransactKeepsEarned(w, s);
      } else {
        ProcessIsOpen(w, s);
        OthersAreQuiet(w, s, d);
        QuietKeepsEarned(w.trace, v.trace, w.vaults[d], v.vaults[d]);
      }
    }
  }

  lemma ProcessIsOpen(w: World, s: Step)
    requires Enabled(w, s)
    ensures s.Transact? ==> IsOpen(w, s.p)
  {
  }

  // ----- receipts are heeded -----

  /** Sent rows stay who they are, their statuses climb, and none appears. */
  ghost predicate Follows(t: Tables, u: Tables) {
    forall m :: IsSent(u, m) ==>
      && IsSent(t, m) && u.messages[m].peer == t.messages[m].peer && u.messages[m].rowid == t.messages[m].rowid
      && Rank(t.messages[m].status) <= Rank(u.messages[m].status)
  }

  lemma FollowingShows(t: Tables, u: Tables, p: Payload)
    requires Follows(t, u) && Shows(t, p)
    ensures Shows(u, p)
  {
    match p
    case ReadReceipt(n) => forall m | UpTo(u, n, m) ensures u.messages[m].status == Read { assert UpTo(t, n, m); }
    case _ =>
  }

  lemma FollowingHeeds(r: Trace, q: Trace, t: Tables, u: Tables)
    requires Grows(r, q) && Follows(t, u) && u.seen == t.seen && Heeds(r, t) && (forall e :: e in t.seen ==> e in r.history)
    ensures Heeds(q, u)
  {
    hide Follows, Shows;
    forall c | c in u.seen && c in q.history ensures Shows(u, q.history[c].envelope.ciphertext.payload) {
      FollowingShows(t, u, r.history[c].envelope.ciphertext.payload);
    }
  }

  /** A new message comes after every one that a read receipt can cover. */
  lemma SendingShows(t: Tables, u: Tables, m: MessageId, row: Message, p: Payload)
    requires u.messages == t.messages[m := row] && m !in t.messages && AboveMessages(t, row.rowid) && Shows(t, p)
    requires p.DeliveredReceipt? || p.ReadReceipt? ==> p.upTo != m
    ensures Shows(u, p)
  {
    match p
    case ReadReceipt(n) => forall k | UpTo(u, n, k) ensures u.messages[k].status == Read { assert UpTo(t, n, k); }
    case _ =>
  }

  lemma SendingHeeds(w: World, d: DeviceId, a: Transaction)
    requires Base(w) && Effects(w) && d in w.vaults && a.SendMessage? && Heeds(w.trace, w.vaults[d])
    requires CanTransact(w.net, w.trace, w.now, d, w.vaults[d], a)
    requires Grows(w.trace, ApplyTransaction(w, d, a).trace)
    ensures Heeds(ApplyTransaction(w, d, a).trace, ApplyTransaction(w, d, a).vaults[d])
  {
    var t, v := w.vaults[d], ApplyTransaction(w, d, a);
    var u := v.vaults[d];
    hide Shows, Grows, Effects, Base;
    forall c | c in u.seen && c in v.trace.history ensures Shows(u, v.trace.history[c].envelope.ciphertext.payload) {
      SeenIsKnown(w, d, c);
      GrowsAt(w.trace, v.trace, c);
      ReceiptNamesLetter(w, c);
      SendingShows(t, u, a.m, u.messages[a.m], w.trace.history[c].envelope.ciphertext.payload);
    }
  }

  lemma SeenIsKnown(w: World, d: DeviceId, c: EnvelopeId)
    requires Base(w) && d in w.vaults && c in w.vaults[d].seen
    ensures c in w.trace.history && w.trace.history[c].envelope.mailbox == d
  {
    assert VaultOk(w.trace, w.now, d, w.vaults[d]);
  }

  /** What a receipt names, and who wrote it. */
  lemma ReceiptNamesLetter(w: World, c: EnvelopeId)
    requires Base(w) && Effects(w) && c in w.trace.history
    ensures var x := w.trace.history[c].envelope;
            x.ciphertext.payload.DeliveredReceipt? || x.ciphertext.payload.ReadReceipt? ==>
              && var m := x.ciphertext.payload.upTo;
                 && m in w.trace.letters && w.trace.letters[m] in w.trace.history
                 && w.trace.history[w.trace.letters[m]].envelope.mailbox == x.sender
  {
    hide NetworkOk, HostOk, ShownOnce, AnsweredOnce, VaultsOk;
    var x := w.trace.history[c].envelope;
    match x.ciphertext.payload
    case DeliveredReceipt(m) =>
      assert Answers(w, c);
      TextCarried(w.trace, w.trace.history[c].cause.value);
    case ReadReceipt(m) =>
      assert Names(w, c, m);
      SeenIsKnown(w, x.sender, w.trace.letters[m]);
    case _ =>
  }

  lemma OpeningFollows(t: Tables, x: Envelope, now: nat, draw: Draw)
    requires x.ciphertext.payload.Text? ==> draw.message !in t.messages
    ensures Follows(t, Opened(t, x, now, draw))
  {
    OpeningClimbs(t, x, now, draw);
    var u := Opened(t, x, now, draw);
    forall m | IsSent(u, m)
      ensures IsSent(t, m) && u.messages[m].peer == t.messages[m].peer && u.messages[m].rowid == t.messages[m].rowid
    {
      OpeningRevivesNothing(t, x, now, draw, m);
      OpeningKeepsIdentity(t, x, now, draw, m);
    }
    hide Opened;
  }

  lemma OpeningKeepsIdentity(t: Tables, x: Envelope, now: nat, draw: Draw, m: MessageId)
    requires m in t.messages && m in Opened(t, x, now, draw).messages && (x.ciphertext.payload.Text? ==> draw.message !in t.messages)
    ensures var a, b := t.messages[m], Opened(t, x, now, draw).messages[m]; a.peer == b.peer && a.rowid == b.rowid
  {
  }

  /** The receipt just opened moves its rows. */
  lemma OpenedShows(r: Trace, t: Tables, x: Envelope, now: nat, draw: Draw)
    requires Earned(r, t)
    requires var p := x.ciphertext.payload;
             (p.DeliveredReceipt? || p.ReadReceipt?) && IsSent(t, p.upTo) ==> t.messages[p.upTo].peer == x.sender
    ensures Shows(Opened(t, x, now, draw), x.ciphertext.payload)
  {
    var u := Opened(t, x, now, draw);
    match x.ciphertext.payload
    case DeliveredReceipt(m) => if IsSent(t, m) { assert RowEarned(r, t, m); }
    case ReadReceipt(n) =>
      forall m | UpTo(u, n, m) ensures u.messages[m].status == Read { assert ReadUpTo(t, x.sender, n, m); }
    case _ =>
  }

  lemma OneMoreHeeds(r: Trace, t: Tables, u: Tables, x: Envelope)
    requires Heeds(r, t) && Follows(t, u) && u.seen == t.seen + {x.id} && Genuine(r, x) && Shows(u, x.ciphertext.payload)
    ensures Heeds(r, u)
  {
    hide Shows, Follows;
    forall c | c in u.seen && c in r.history ensures Shows(u, r.history[c].envelope.ciphertext.payload) {
      if c != x.id { FollowingShows(t, u, r.history[c].envelope.ciphertext.payload); }
    }
  }

  lemma NamedWasSentToPeer(w: World, d: DeviceId, x: Envelope)
    requires Base(w) && Effects(w) && d in w.vaults && Genuine(w.trace, x)
    requires x.ciphertext.payload.DeliveredReceipt? || x.ciphertext.payload.ReadReceipt?
    ensures IsSent(w.vaults[d], x.ciphertext.payload.upTo) ==> w.vaults[d].messages[x.ciphertext.payload.upTo].peer == x.sender
  {
    hide Base, Effects;
    ReceiptNamesLetter(w, x.id);
    if IsSent(w.vaults[d], x.ciphertext.payload.upTo) { SentToMailbox(w, d, x.ciphertext.payload.upTo); }
  }

  lemma OpeningHeeds(w: World, d: DeviceId, x: Envelope, draw: Draw)
    requires Base(w) && Effects(w) && d in w.vaults && Heeds(w.trace, w.vaults[d]) && Earned(w.trace, w.vaults[d])
    requires Genuine(w.trace, x) && x.mailbox == d && (x.ciphertext.payload.Text? ==> draw.message !in w.vaults[d].messages)
    ensures Heeds(w.trace, Opened(w.vaults[d], x, w.now, draw))
  {
    hide Opened, Shows, Base, Effects, Earned, Follows, IsSent, Heeds, Genuine;
    var t, p := w.vaults[d], x.ciphertext.payload;
    if p.DeliveredReceipt? || p.ReadReceipt? { NamedWasSentToPeer(w, d, x); }
    OpenedShows(w.trace, t, x, w.now, draw);
    OpeningFollows(t, x, w.now, draw);
    OpeningAddsReceived(t, x, w.now, draw);
    OneMoreHeeds(w.trace, t, Opened(t, x, w.now, draw), x);
  }

  lemma CanReceive(w: World, d: DeviceId, x: Envelope, draw: Draw)
    requires d in w.vaults && CanTransact(w.net, w.trace, w.now, d, w.vaults[d], Receive(x, draw))
    ensures Pending(w.net, w.vaults[d], d, x) && Opens(w.vaults[d], d, x)
    ensures x.ciphertext.payload.Text? ==> draw.message !in w.vaults[d].messages
  {
    hide Pending, Opens;
  }

  lemma SeenAreKnown(w: World, d: DeviceId)
    requires Base(w) && d in w.vaults
    ensures forall c :: c in w.vaults[d].seen ==> c in w.trace.history
  {
    hide Base;
    forall c | c in w.vaults[d].seen ensures c in w.trace.history { SeenIsKnown(w, d, c); }
  }

  lemma ReceivingHeeds(w: World, d: DeviceId, x: Envelope, draw: Draw, q: Trace)
    requires Base(w) && Effects(w) && d in w.vaults && Heeds(w.trace, w.vaults[d]) && Earned(w.trace, w.vaults[d])
    requires CanTransact(w.net, w.trace, w.now, d, w.vaults[d], Receive(x, draw)) && Grows(w.trace, q)
    ensures Opens(w.vaults[d], d, x) && Heeds(q, CommitReceive(w.vaults[d], d, x, w.now, draw))
  {
    hide Opened, Base, Effects, Earned, Follows, Heeds, CommitReceive, Opens, Pending, Grows, CanTransact;
    var t := w.vaults[d];
    CanReceive(w, d, x, draw);
    PendingIsGenuineHere(w, d, x);
    SeenAreKnown(w, d);
    OpeningHeeds(w, d, x, draw);
    OpenedElsewhere(t, d, x, w.now, draw);
    OpeningAddsReceived(t, x, w.now, draw);
    SameFollows(Opened(t, x, w.now, draw), CommitReceive(t, d, x, w.now, draw));
    FollowingHeeds(w.trace, q, Opened(t, x, w.now, draw), CommitReceive(t, d, x, w.now, draw));
  }

  lemma SentToMailbox(w: World, d: DeviceId, m: MessageId)
    requires Base(w) && d in w.vaults && IsSent(w.vaults[d], m)
    ensures m in w.trace.letters && w.trace.letters[m] in w.trace.history
    ensures w.trace.history[w.trace.letters[m]].envelope.mailbox == w.vaults[d].messages[m].peer
  {
    hide NetworkOk, HostOk, TraceOk;
    assert VaultOk(w.trace, w.now, d, w.vaults[d]);
    assert SentOk(w.trace, d, m, w.vaults[d].messages[m]);
  }

  lemma AcceptingFollows(t: Tables, e: EnvelopeId, m: MessageId)
    ensures Follows(t, MarkAccepted(t, e)) && Follows(t, Forget(t, m))
  {
  }

  lemma RelayOnlyFollows(t: Tables, e: EnvelopeId)
    requires e in t.outbox && Climbs(t, MarkSent(t, e))
    ensures Follows(t, MarkSent(t, e))
  {
  }

  lemma SameFollows(t: Tables, u: Tables)
    requires u.messages == t.messages
    ensures Follows(t, u)
  {
  }

  /** Everything but sending and receiving. */
  lemma PlainTransactHeeds(w: World, d: DeviceId, a: Transaction, q: Trace)
    requires Base(w) && d in w.vaults && Heeds(w.trace, w.vaults[d]) && Grows(w.trace, q)
    requires CanTransact(w.net, w.trace, w.now, d, w.vaults[d], a) && !a.SendMessage? && !a.Receive?
    requires a.RelayOnlyDone? ==> Climbs(w.vaults[d], TablesAfter(w.net, w.trace, w.now, d, w.vaults[d], a))
    ensures Heeds(q, TablesAfter(w.net, w.trace, w.now, d, w.vaults[d], a))
  {
    hide Base, Heeds, Follows, Climbs, Grows, MarkSent, Forget, Usable;
    var t := w.vaults[d];
    var u := TablesAfter(w.net, w.trace, w.now, d, t, a);
    SeenAreKnown(w, d);
    match a {
      case RelayOnlyDone(e) =>
        RelayOnlyFollows(t, e);
        MarkSentKeepsSeen(t, e);
      case Disappear(m) =>
        AcceptingFollows(t, 0, m);
        MarkSentKeepsSeen(t, 0);
      case _ => SameFollows(t, u);
    }
    FollowingHeeds(w.trace, q, t, u);
  }

  lemma TransactHeeds(w: World, s: Step)
    requires Base(w) && Effects(w) && AllEarned(w) && Heeded(w) && Enabled(w, s) && s.Transact? && IsTimely(w, s)
    ensures Heeds(Apply(w, s).trace, Apply(w, s).vaults[VaultOf(w, s.p)])
  {
    hide Base, Effects, Earned, Heeds, Climbs, Grows, CanTransact, TablesAfter, TraceAfter, IsTimely;
    var d := VaultOf(w, s.p);
    StepKeepsBase(w, s);
    StepClimbsIff(w, s);
    match s.action
    case SendMessage(_, _, _, _, _, _) => SendingHeeds(w, d, s.action);
    case Receive(x, draw) =>
      ReceivingHeeds(w, d, x, draw, Apply(w, s).trace);
      ReceiveTables(w, d, x, draw);
    case _ => PlainTransactHeeds(w, d, s.action, Apply(w, s).trace);
  }

  lemma ReceiveTables(w: World, d: DeviceId, x: Envelope, draw: Draw)
    requires d in w.vaults && CanTransact(w.net, w.trace, w.now, d, w.vaults[d], Receive(x, draw))
    ensures Opens(w.vaults[d], d, x)
    ensures TablesAfter(w.net, w.trace, w.now, d, w.vaults[d], Receive(x, draw)) == CommitReceive(w.vaults[d], d, x, w.now, draw)
  {
    hide Opens, CommitReceive, Pending;
  }

  lemma MarkSentKeepsSeen(t: Tables, e: EnvelopeId)
    ensures e in t.outbox ==> MarkSent(t, e).seen == t.seen
    ensures forall m :: Forget(t, m).seen == t.seen
    ensures MarkAccepted(t, e).seen == t.seen
  {
  }

  lemma StepKeepsHeeded(w: World, s: Step)
    requires Base(w) && Effects(w) && AllEarned(w) && Heeded(w) && Enabled(w, s) && IsTimely(w, s)
    ensures Heeded(Apply(w, s))
  {
    var v := Apply(w, s);
    StepKeepsBase(w, s);
    ClockRuns(w, s);
    ProcessIsOpen(w, s);
    forall d | d in v.vaults ensures Heeds(v.trace, v.vaults[d]) {
      assert Heeds(w.trace, w.vaults[d]);
      forall c | c in w.vaults[d].seen ensures c in w.trace.history { SeenIsKnown(w, d, c); }
      hide Base, Effects, Earned, Heeds, Grows, Enabled, Apply, IsTimely, Follows;
      if s.FinishJob? {
        FinishFollows(w, s, d);
        FollowingHeeds(w.trace, v.trace, w.vaults[d], v.vaults[d]);
      } else if s.Transact? && VaultOf(w, s.p) == d {
        TransactHeeds(w, s);
      } else {
        OthersAreQuiet(w, s, d);
        SameFollows(w.vaults[d], v.vaults[d]);
        FollowingHeeds(w.trace, v.trace, w.vaults[d], v.vaults[d]);
      }
    }
  }

  lemma FinishFollows(w: World, s: Step, d: DeviceId)
    requires Enabled(w, s) && d in w.vaults && s.FinishJob?
    ensures Follows(w.vaults[d], Apply(w, s).vaults[d]) && Apply(w, s).vaults[d].seen == w.vaults[d].seen
  {
    hide MarkAccepted, SameSession, Follows;
    AcceptingFollows(w.vaults[d], s.job.envelope.id, 0);
    MarkSentKeepsSeen(w.vaults[d], s.job.envelope.id);
    SameFollows(w.vaults[d], w.vaults[d]);
  }

  // ----- on every run -----

  lemma InitialIsEarned(w: World)
    requires Initial(w)
    ensures AllEarned(w) && Heeded(w)
  {
  }

  lemma {:induction false} RunKeepsEarned(w: World, steps: seq<Step>)
    requires Invariant(w) && AllEarned(w) && IsRun(w, steps)
    ensures AllEarned(After(w, steps))
    decreases |steps|
  {
    if steps != [] {
      assert Base(w);
      hide Base, Invariant, AllEarned, Enabled, Apply;
      StepKeepsInvariant(w, steps[0]);
      StepKeepsEarned(w, steps[0]);
      RunKeepsEarned(Apply(w, steps[0]), steps[1..]);
    }
  }

  lemma {:induction false} RunKeepsHeeded(w: World, steps: seq<Step>)
    requires Invariant(w) && AllEarned(w) && Heeded(w) && IsRun(w, steps) && CompletionsAreTimely(w, steps)
    ensures Heeded(After(w, steps))
    decreases |steps|
  {
    if steps != [] {
      assert Base(w) && Effects(w);
      hide Base, Effects, Invariant, AllEarned, Heeded, Enabled, Apply, IsTimely;
      StepKeepsInvariant(w, steps[0]);
      StepKeepsEarned(w, steps[0]);
      StepKeepsHeeded(w, steps[0]);
      RunKeepsHeeded(Apply(w, steps[0]), steps[1..]);
    }
  }

  /**
   A `delivered` receipt that was opened shows for as long as its message is there, on
   every run without late relay-only answers.
   */
  lemma DeliveredReceiptShows(w: World, steps: seq<Step>, d: DeviceId, c: EnvelopeId, m: MessageId)
    requires Initial(w) && IsRun(w, steps) && CompletionsAreTimely(w, steps)
    requires var v := After(w, steps);
             && d in v.vaults && c in v.vaults[d].seen && c in v.trace.history
             && v.trace.history[c].envelope.ciphertext.payload == DeliveredReceipt(m)
    ensures var messages := After(w, steps).vaults[d].messages;
            m in messages && messages[m].outgoing ==> messages[m].status == Delivered || messages[m].status == Read
  {
    InitialInvariant(w);
    InitialIsEarned(w);
    hide Invariant, AllEarned, IsRun, After, CompletionsAreTimely;
    RunKeepsHeeded(w, steps);
    assert Heeds(After(w, steps).trace, After(w, steps).vaults[d]);
  }

  /** So does a read receipt, for its message and all those sent before it in the conversation. */
  lemma ReadReceiptShows(w: World, steps: seq<Step>, d: DeviceId, c: EnvelopeId, u: MessageId, m: MessageId)
    requires Initial(w) && IsRun(w, steps) && CompletionsAreTimely(w, steps)
    requires var v := After(w, steps);
             && d in v.vaults && c in v.vaults[d].seen && c in v.trace.history
             && v.trace.history[c].envelope.ciphertext.payload == ReadReceipt(u)
    requires var messages := After(w, steps).vaults[d].messages;
             && u in messages && messages[u].outgoing && m in messages && messages[m].outgoing
             && messages[m].peer == messages[u].peer && messages[m].rowid <= messages[u].rowid
    ensures After(w, steps).vaults[d].messages[m].status == Read
  {
    InitialInvariant(w);
    InitialIsEarned(w);
    hide Invariant, AllEarned, IsRun, After, CompletionsAreTimely;
    RunKeepsHeeded(w, steps);
    var v := After(w, steps);
    assert Heeds(v.trace, v.vaults[d]);
    assert HeedsRead(v.vaults[d], u) && UpTo(v.vaults[d], u, m);
  }

  /**
   And in every mode no status comes from nowhere: a queued message is still in the outbox,
   `delivered` was reported by a receipt for it, and `read` by one of the peer that names it
   or a message not sent before it.
   */
  lemma StatusesAreEarned(w: World, steps: seq<Step>, d: DeviceId, m: MessageId)
    requires Initial(w) && IsRun(w, steps)
    requires d in After(w, steps).vaults && m in After(w, steps).vaults[d].messages
             && After(w, steps).vaults[d].messages[m].outgoing
    ensures var v := After(w, steps);
            var t := v.vaults[d];
            match t.messages[m].status
            case Queued => m in v.trace.letters && v.trace.letters[m] in t.outbox && t.outbox[v.trace.letters[m]].message == m
            case Sent => true
            case Delivered => ToldDelivered(v.trace, t, m)
            case Read => ToldRead(v.trace, t, t.messages[m].peer, m)
            case Received => false
  {
    InitialInvariant(w);
    InitialIsEarned(w);
    hide Invariant, IsRun, After;
    RunKeepsEarned(w, steps);
    var v := After(w, steps);
    assert Earned(v.trace, v.vaults[d]);
    assert RowEarned(v.trace, v.vaults[d], m);
  }
}
