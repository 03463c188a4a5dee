/**
 Conservation: a committed envelope that is not ephemeral is always still held by its
 sender, or has reached the relay queue, the peer's inbox or the peer's
 seen_envelope_ids, unless a deadline of its own has passed.
 */
module DeliveryLedger {
  import opened Prelude
  import opened VaultTables
  import opened DeliveryWorld
  import opened DeliveryBase
  import opened DeliveryBaseSteps

  /** Still in one of the two outboxes of the vault that wrote it. */
  ghost predicate Held(w: World, e: EnvelopeId)
    requires e in w.trace.history
  {
    var d := w.trace.history[e].envelope.sender;
    d in w.vaults && (e in w.vaults[d].outbox || e in w.vaults[d].controls)
  }

  /** Opened by the peer, in the peer's inbox, in the relay queue, or expired there. */
  ghost predicate Landed(w: World, e: EnvelopeId)
    requires e in w.trace.history
  {
    var d := w.trace.history[e].envelope.mailbox;
    || (d in w.vaults && (e in w.vaults[d].seen || e in w.vaults[d].inbox))
    || e in w.net.relay
    || (e in w.net.relayDue && w.net.relayDue[e] < w.now)
  }

  ghost predicate TimedOut(w: World, e: EnvelopeId)
    requires e in w.trace.history
  {
    Passed(w.trace.history[e].deadline, w.now)
  }

  ghost predicate Accounted(w: World, e: EnvelopeId)
    requires e in w.trace.history
  {
    w.trace.history[e].envelope.ephemeral || Held(w, e) || Landed(w, e) || TimedOut(w, e)
  }

  ghost predicate Ledger(w: World) {
    && (forall e :: e in w.trace.history ==> Accounted(w, e))
    && (forall e :: e in w.net.accepted && e in w.trace.history ==>
              w.trace.history[e].envelope.ephemeral || Landed(w, e))
  }

  // ----- what has landed stays landed -----

  ghost predicate TablesKeepLanded(t: Tables, t': Tables) {
    t.seen <= t'.seen && forall e :: e in t.inbox ==> e in t'.inbox || e in t'.seen
  }

  ghost predicate NetworkKeepsLanded(w: World, v: World) {
    && (forall e :: e in w.net.relayDue ==> e in v.net.relayDue && v.net.relayDue[e] <= w.net.relayDue[e])
    && (forall e :: e in w.net.relay && e !in v.net.relay && e in w.trace.history ==>
          || (e in w.net.relayDue && w.net.relayDue[e] < v.now)
          || (w.trace.history[e].envelope.mailbox in v.vaults && e in v.vaults[w.trace.history[e].envelope.mailbox].seen))
  }

  lemma LandedStays(w: World, v: World, e: EnvelopeId)
    requires e in w.trace.history && Landed(w, e) && Grows(w.trace, v.trace) && w.now <= v.now
    requires v.vaults.Keys == w.vaults.Keys && forall d :: d in w.vaults ==> TablesKeepLanded(w.vaults[d], v.vaults[d])
    requires NetworkKeepsLanded(w, v)
    ensures Landed(v, e)
  {
  }

  lemma TransactionKeepsLanded(n: Network, r: Trace, now: nat, d: DeviceId, t: Tables, a: Transaction)
    requires CanTransact(n, r, now, d, t, a)
    ensures TablesKeepLanded(t, TablesAfter(n, r, now, d, t, a))
  {
    if a.Receive? { ReceiveElsewhere(t, d, a.x, now, a.draw); }
  }

  /** What receiving does outside the message rows. */
  lemma ReceiveElsewhere(t: Tables, d: DeviceId, x: Envelope, now: nat, draw: Draw)
    requires Opens(t, d, x)
    ensures var t' := CommitReceive(t, d, x, now, draw);
            && t'.inbox == t.inbox && t'.outbox == t.outbox && t'.seen == t.seen + {x.id}
            && forall e :: e in t.controls ==> e in t'.controls
  {
  }

  lemma TablesReflexive(t: Tables)
    ensures TablesKeepLanded(t, t)
  {
  }

  lemma RowsNamed(w: World, e: EnvelopeId)
    requires Base(w) && e in w.net.relay && e in w.trace.history
    ensures e in w.net.relayDue && w.net.relayDue[e] <= w.net.relay[e].expiresAt
    ensures w.net.relay[e].envelope.mailbox == w.trace.history[e].envelope.mailbox
  {
  }

  lemma VaultsKeepLanded(w: World, s: Step)
    requires Enabled(w, s)
    ensures Apply(w, s).vaults.Keys == w.vaults.Keys && w.now <= Apply(w, s).now
    ensures forall d :: d in w.vaults ==> TablesKeepLanded(w.vaults[d], Apply(w, s).vaults[d])
  {
    hide CanTransact, TablesAfter, TraceAfter, TablesKeepLanded, MarkAccepted, AckInbox, Deposit;
    forall d | d in w.vaults ensures TablesKeepLanded(w.vaults[d], Apply(w, s).vaults[d]) {
      TablesReflexive(w.vaults[d]);
      match s
      case Transact(p, a) => TransactionKeepsLanded(w.net, w.trace, w.now, VaultOf(w, p), TablesOf(w, p), a);
      case Acknowledge(p, ids) => AckKeepsLanded(TablesOf(w, p), ids);
      case PeerReceives(x) => DepositKeepsLanded(w.vaults[x.mailbox], x);
      case FinishJob(p, job, _) => if IsOpen(w, p) { AcceptKeepsLanded(TablesOf(w, p), job.envelope.id); }
      case _ =>
    }
  }

  lemma RelayKeepsLanded(w: World, s: Step)
    requires Base(w) && Enabled(w, s)
    ensures NetworkKeepsLanded(w, Apply(w, s))
  {
    hide Base, CanTransact, TablesAfter, TraceAfter, MarkAccepted, Deposit;
    forall f | f in w.net.relay && f in w.trace.history
      ensures f in w.net.relayDue && w.net.relayDue[f] <= w.net.relay[f].expiresAt
      ensures w.net.relay[f].envelope.mailbox == w.trace.history[f].envelope.mailbox
    {
      RowsNamed(w, f);
    }
  }

  lemma StepKeepsLanded(w: World, s: Step, e: EnvelopeId)
    requires Base(w) && Enabled(w, s) && e in w.trace.history && Landed(w, e)
    ensures e in Apply(w, s).trace.history && Landed(Apply(w, s), e)
  {
    hide Base, Enabled, Apply, TablesKeepLanded, NetworkKeepsLanded, Landed, Grows;
    StepKeepsBase(w, s);
    GrowsAt(w.trace, Apply(w, s).trace, e);
    VaultsKeepLanded(w, s);
    RelayKeepsLanded(w, s);
    LandedStays(w, Apply(w, s), e);
  }

  lemma GrowsAt(r: Trace, q: Trace, e: EnvelopeId)
    requires Grows(r, q) && e in r.history
    ensures e in q.history && q.history[e] == r.history[e]
  {
  }

  lemma AckKeepsLanded(t: Tables, ids: set<EnvelopeId>)
    requires ids <= t.seen
    ensures TablesKeepLanded(t, AckInbox(t, ids))
  {
  }

  lemma DepositKeepsLanded(t: Tables, x: Envelope)
    ensures TablesKeepLanded(t, Deposit(t, x))
  {
  }

  lemma AcceptKeepsLanded(t: Tables, e: EnvelopeId)
    ensures TablesKeepLanded(t, MarkAccepted(t, e))
  {
  }

  // ----- what leaves an outbox has landed or timed out -----

  /** Leaving both outboxes is legitimate in this transaction. */
  lemma TransactionReleases(w: World, d: DeviceId, a: Transaction, e: EnvelopeId)
    requires Base(w) && Ledger(w) && d in w.vaults && CanTransact(w.net, w.trace, w.now, d, w.vaults[d], a)
    requires e in w.trace.history && w.trace.history[e].envelope.sender == d && Held(w, e)
    ensures var t' := ApplyTransaction(w, d, a).vaults[d];
            w.trace.history[e].envelope.ephemeral || Landed(w, e) || TimedOut(w, e) || e in t'.outbox || e in t'.controls
  {
    hide Landed, TraceOk, NetworkOk, HostOk, InboxOk;
    var t := w.vaults[d];
    assert VaultOk(w.trace, w.now, d, t);
    match a
    case DropExpiredControl(f) =>
    case RelayOnlyDone(f) => AcceptedIsKnown(w, f);
    case RelayOnlyControlDone(f) => AcceptedIsKnown(w, f);
    case Receive(x, draw) => ReceiveElsewhere(t, d, x, w.now, draw);
    case Disappear(m) => if e in t.outbox { assert OutboxRowOk(w.trace, w.now, d, t, e); TextCarried(w.trace, e); }
    case _ =>
  }

  lemma AcceptedIsKnown(w: World, e: EnvelopeId)
    requires Base(w) && Ledger(w) && e in w.net.accepted
    ensures e in w.trace.history && (w.trace.history[e].envelope.ephemeral || Landed(w, e))
  {
  }

  lemma TextCarried(r: Trace, e: EnvelopeId)
    requires TraceOk(r) && e in r.history && r.history[e].envelope.ciphertext.payload.Text?
    ensures var m := r.history[e].envelope.ciphertext.payload.message; m in r.letters && r.letters[m] == e
  {
    assert RecordOk(r, e);
  }

  /** A transaction commits its new envelope together with the row that holds it. */
  lemma NewIsHeld(w: World, d: DeviceId, a: Transaction, e: EnvelopeId)
    requires Base(w) && d in w.vaults && CanTransact(w.net, w.trace, w.now, d, w.vaults[d], a)
    requires e !in w.trace.history && e in ApplyTransaction(w, d, a).trace.history
    ensures Held(ApplyTransaction(w, d, a), e)
  {
  }

  /** Only transactions and completions touch what is held. */
  lemma OthersKeepHeld(w: World, s: Step, e: EnvelopeId)
    requires Enabled(w, s) && !s.Transact? && !s.FinishJob? && e in w.trace.history && Held(w, e)
    requires e in Apply(w, s).trace.history && Apply(w, s).trace.history[e] == w.trace.history[e]
    ensures Held(Apply(w, s), e)
  {
    hide CanTransact, TablesAfter, TraceAfter, RelayStore, RelayCleanup, RelayAck, HostAfter;
  }

  lemma StepKeepsHeld(w: World, s: Step, e: EnvelopeId)
    requires Base(w) && Ledger(w) && Enabled(w, s) && e in w.trace.history && Held(w, e)
    ensures e in Apply(w, s).trace.history && Accounted(Apply(w, s), e)
  {
    hide Base, CanTransact, TablesAfter, TraceAfter, Landed, Grows, RelayStore, RelayCleanup, RelayAck, HostAfter;
    StepKeepsBase(w, s);
    GrowsAt(w.trace, Apply(w, s).trace, e);
    if Landed(w, e) {
      StepKeepsLanded(w, s, e);
    } else {
      match s
      case Transact(p, a) =>
        var d := VaultOf(w, p);
        if w.trace.history[e].envelope.sender == d { TransactionReleases(w, d, a, e); }
      case FinishJob(p, job, acceptance) => if acceptance { AcceptedIsKnown(w, job.envelope.id); }
      case _ => OthersKeepHeld(w, s, e);
    }
  }

  lemma StepKeepsLedger(w: World, s: Step)
    requires Base(w) && Ledger(w) && Enabled(w, s)
    ensures Ledger(Apply(w, s))
  {
    hide Base, CanTransact, TablesAfter, TraceAfter, Landed, Held, Grows;
    var v := Apply(w, s);
    StepKeepsBase(w, s);
    forall e | e in v.trace.history ensures Accounted(v, e) {
      if e in w.trace.history {
        GrowsAt(w.trace, v.trace, e);
        if Held(w, e) { StepKeepsHeld(w, s, e); } else if Landed(w, e) { StepKeepsLanded(w, s, e); }
      } else {
        NewIsHeld(w, VaultOf(w, s.p), s.action, e);
      }
    }
    forall e | e in v.net.accepted && e in v.trace.history
      ensures v.trace.history[e].envelope.ephemeral || Landed(v, e)
    {
      AcceptedStays(w, s, e);
    }
  }

  lemma AcceptedStays(w: World, s: Step, e: EnvelopeId)
    requires Base(w) && Ledger(w) && Enabled(w, s) && e in Apply(w, s).net.accepted && e in Apply(w, s).trace.history
    ensures Apply(w, s).trace.history[e].envelope.ephemeral || Landed(Apply(w, s), e)
  {
    hide CanTransact, TablesAfter, TraceAfter, Grows, HostOk, TraceOk, VaultsOk;
    var v := Apply(w, s);
    StepKeepsBase(w, s);
    if e in w.net.accepted {
      AcceptedIsKnown(w, e);
      GrowsAt(w.trace, v.trace, e);
      if Landed(w, e) { StepKeepsLanded(w, s, e); }
    }
  }
}
