/**
 Exactly-once effects: an envelope is shown at most once, is answered by at most one
 `delivered` receipt, and every receipt tells the truth about its author's vault.
 */
module DeliveryEffects {
  import opened Prelude
  import opened VaultTables
  import opened DeliveryWorld
  import opened DeliveryBase
  import opened DeliveryBaseSteps
  import opened DeliveryLedger

  ghost predicate SeenBy(w: World, d: DeviceId, e: EnvelopeId) {
    d in w.vaults && e in w.vaults[d].seen
  }

  ghost predicate ShownOnce(w: World) {
    forall d, e :: w.trace.shown[(d, e)] <= 1 && (w.trace.shown[(d, e)] == 1 ==> SeenBy(w, d, e))
  }

  /** A `delivered` receipt answers a text its author has opened. */
  ghost predicate Answers(w: World, c: EnvelopeId)
    requires c in w.trace.history
  {
    var r := w.trace.history[c];
    && r.cause.Some? && r.cause.value in w.trace.history
    && var x := w.trace.history[r.cause.value].envelope;
       && x.ciphertext.payload.Text? && x.mailbox == r.envelope.sender && x.sender == r.envelope.mailbox
       && r.envelope.ciphertext.payload == DeliveredReceipt(x.ciphertext.payload.message)
       && SeenBy(w, r.envelope.sender, r.cause.value)
  }

  /** A read receipt names a text its author has opened. */
  ghost predicate Names(w: World, c: EnvelopeId, m: MessageId)
    requires c in w.trace.history
  {
    var x := w.trace.history[c].envelope;
    && m in w.trace.letters && IsLetter(w.trace, m, w.trace.letters[m])
    && w.trace.history[w.trace.letters[m]].envelope.sender == x.mailbox
    && SeenBy(w, x.sender, w.trace.letters[m])
  }

  ghost predicate ReceiptsTrue(w: World) {
    && (forall c :: c in w.trace.history && w.trace.history[c].envelope.ciphertext.payload.DeliveredReceipt? ==>
              Answers(w, c))
    && (forall c :: c in w.trace.history && w.trace.history[c].envelope.ciphertext.payload.ReadReceipt? ==>
          Names(w, c, w.trace.history[c].envelope.ciphertext.payload.upTo))
  }

  ghost predicate AnsweredOnce(w: World) {
    && (forall c :: c in w.trace.history && w.trace.history[c].cause.Some? ==> Answers(w, c))
    && (forall b, c :: b in w.trace.history && c in w.trace.history && b != c && w.trace.history[b].cause.Some?
          ==> w.trace.history[b].cause != w.trace.history[c].cause)
  }

  ghost predicate Effects(w: World) {
    ShownOnce(w) && ReceiptsTrue(w) && AnsweredOnce(w)
  }

  ghost predicate SeenGrows(w: World, v: World) {
    forall d, e :: SeenBy(w, d, e) ==> SeenBy(v, d, e)
  }

  lemma StepKeepsSeen(w: World, s: Step)
    requires Enabled(w, s)
    ensures SeenGrows(w, Apply(w, s))
  {
    hide CanTransact, TablesAfter, TraceAfter;
    match s
    case Transact(p, a) => TransactionKeepsLanded(w.net, w.trace, w.now, VaultOf(w, p), TablesOf(w, p), a);
    case _ =>
  }

  lemma TruthStays(w: World, v: World, c: EnvelopeId)
    requires Grows(w.trace, v.trace) && SeenGrows(w, v) && c in w.trace.history
    ensures Answers(w, c) ==> Answers(v, c)
    ensures forall m :: Names(w, c, m) ==> Names(v, c, m)
  {
  }

  /** The history, the letters and the shown rows are the same. */
  lemma QuietKeepsEffects(w: World, v: World)
    requires Effects(w) && Grows(w.trace, v.trace) && SeenGrows(w, v)
    requires v.trace.history.Keys == w.trace.history.Keys && v.trace.shown == w.trace.shown
    ensures Effects(v)
  {
    hide Answers, Names, SeenBy;
    forall c | c in v.trace.history ensures Answers(w, c) ==> Answers(v, c) {
      TruthStays(w, v, c);
    }
    forall c | c in v.trace.history ensures forall m :: Names(w, c, m) ==> Names(v, c, m) {
      TruthStays(w, v, c);
    }
    forall d, e | v.trace.shown[(d, e)] == 1 ensures SeenBy(v, d, e) {
      assert SeenBy(w, d, e);
    }
  }

  /** One envelope is added, and at most one row is shown. */
  lemma AddingKeepsEffects(w: World, v: World, c: EnvelopeId)
    requires Effects(w) && Grows(w.trace, v.trace) && SeenGrows(w, v)
    requires c !in w.trace.history && v.trace.history.Keys == w.trace.history.Keys + {c}
    requires v.trace.history[c].cause.Some? ==>
               && Answers(v, c) && !SeenBy(w, v.trace.history[c].envelope.sender, v.trace.history[c].cause.value)
    requires v.trace.history[c].envelope.ciphertext.payload.DeliveredReceipt? ==> v.trace.history[c].cause.Some?
    requires v.trace.history[c].envelope.ciphertext.payload.ReadReceipt? ==>
              Names(v, c, v.trace.history[c].envelope.ciphertext.payload.upTo)
    requires ShownOnce(v)
    ensures Effects(v)
  {
    hide Names;
    forall b | b in w.trace.history ensures Answers(w, b) ==> Answers(v, b) {
      TruthStays(w, v, b);
    }
    forall b | b in w.trace.history ensures forall m :: Names(w, b, m) ==> Names(v, b, m) {
      TruthStays(w, v, b);
    }
    forall a, b | a in v.trace.history && b in v.trace.history && a != b && v.trace.history[a].cause.Some?
      ensures v.trace.history[a].cause != v.trace.history[b].cause
    {
      assert a != c ==> Answers(w, a);
      assert b in w.trace.history && w.trace.history[b].cause.Some? ==> Answers(w, b);
    }
  }

  lemma SendKeepsEffects(w: World, d: DeviceId, a: Transaction)
    requires Base(w) && Effects(w) && d in w.vaults && CanTransact(w.net, w.trace, w.now, d, w.vaults[d], a) && (a.SendMessage? || a.QueueControl?)
    requires Grows(w.trace, ApplyTransaction(w, d, a).trace) && SeenGrows(w, ApplyTransaction(w, d, a))
    ensures Effects(ApplyTransaction(w, d, a))
  {
    hide Effects, Answers, Names, Grows, TraceOk, NetworkOk, HostOk, InboxOk, OutboxOk, ControlsOk;
    var v := ApplyTransaction(w, d, a);
    if a.QueueControl? && a.payload.ReadReceipt? { ReadReceiptIsTrue(w, d, a); }
    ShownStays(w, v);
    AddingKeepsEffects(w, v, a.e);
  }

  lemma ShownStays(w: World, v: World)
    requires Effects(w) && SeenGrows(w, v) && v.trace.shown == w.trace.shown
    ensures ShownOnce(v)
  {
    forall d, e | v.trace.shown[(d, e)] == 1 ensures SeenBy(v, d, e) {
      assert SeenBy(w, d, e);
    }
  }

  lemma ReadReceiptIsTrue(w: World, d: DeviceId, a: Transaction)
    requires Base(w) && d in w.vaults && CanTransact(w.net, w.trace, w.now, d, w.vaults[d], a)
    requires a.QueueControl? && a.payload.ReadReceipt?
    ensures a.e in ApplyTransaction(w, d, a).trace.history && Names(ApplyTransaction(w, d, a), a.e, a.payload.upTo)
  {
    hide Base;
    LastReceivedWasSeen(w, d, a.peer, a.payload.upTo);
  }

  lemma LastReceivedWasSeen(w: World, d: DeviceId, peer: DeviceId, upTo: MessageId)
    requires Base(w) && d in w.vaults && MayQueue(w.vaults[d], peer, ReadReceipt(upTo))
    ensures upTo in w.trace.letters && IsLetter(w.trace, upTo, w.trace.letters[upTo])
    ensures w.trace.history[w.trace.letters[upTo]].envelope.sender == peer && SeenBy(w, d, w.trace.letters[upTo])
  {
    hide NetworkOk, HostOk, InboxOk, OutboxOk, ControlsOk;
    var t := w.vaults[d];
    assert VaultOk(w.trace, w.now, d, t);
    var m :| IsLastReceived(t, peer, m) && t.messages[m].remote == Some(upTo);
    assert ReceivedOk(w.trace, t, t.messages[m]);
    TextCarried(w.trace, t.messages[m].source.value);
  }

  lemma ReceiveKeepsEffects(w: World, d: DeviceId, a: Transaction)
    requires Base(w) && Effects(w) && d in w.vaults && CanTransact(w.net, w.trace, w.now, d, w.vaults[d], a)
    requires a.Receive? && a.x.ciphertext.payload.Text?
    requires Grows(w.trace, ApplyTransaction(w, d, a).trace) && SeenGrows(w, ApplyTransaction(w, d, a))
    ensures Effects(ApplyTransaction(w, d, a))
  {
    hide Names, TraceOk, NetworkOk, HostOk, VaultsOk, ReceiptsTrue, AnsweredOnce;
    var v := ApplyTransaction(w, d, a);
    PendingIsGenuineHere(w, d, a.x);
    ReceiveElsewhere(w.vaults[d], d, a.x, w.now, a.draw);
    assert !SeenBy(w, d, a.x.id) && SeenBy(v, d, a.x.id);
    assert ShownOnce(v) by {
      forall c, e | v.trace.shown[(c, e)] == 1 && (c, e) != (d, a.x.id) ensures SeenBy(v, c, e) {
        assert SeenBy(w, c, e);
      }
    }
    assert Answers(v, a.draw.receipt);
    AddingKeepsEffects(w, v, a.draw.receipt);
  }

  lemma PendingIsGenuineHere(w: World, d: DeviceId, x: Envelope)
    requires Base(w) && d in w.vaults && Pending(w.net, w.vaults[d], d, x)
    ensures GenuineOut(w.trace, x) && x.mailbox == d
  {
    PendingIsGenuine(w.net, w.trace, w.now, d, w.vaults[d], x);
  }

  lemma StepKeepsEffects(w: World, s: Step)
    requires Base(w) && Effects(w) && Enabled(w, s)
    ensures Effects(Apply(w, s))
  {
    hide Base, Effects, Grows, SeenGrows, IsHead, Opens, Pending, RelayOnlyRow, TablesAfter;
    var v := Apply(w, s);
    StepKeepsBase(w, s);
    StepKeepsSeen(w, s);
    match s
    case Transact(p, a) =>
      if a.SendMessage? || a.QueueControl? { SendKeepsEffects(w, VaultOf(w, p), a); }
      else if a.Receive? && a.x.ciphertext.payload.Text? { ReceiveKeepsEffects(w, VaultOf(w, p), a); }
      else { QuietKeepsEffects(w, v); }
    case _ => QuietKeepsEffects(w, v);
  }
}
