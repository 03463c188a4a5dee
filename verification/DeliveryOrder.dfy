/**
 Order of first transfers: within a conversation a text is first sent anywhere only
 after every earlier text left the outbox or passed its disappearing deadline.
 */
module DeliveryOrder {
  import opened Prelude
  import opened VaultTables
  import opened DeliveryWorld
  import opened DeliveryBase
  import opened DeliveryBaseSteps
  import opened DeliveryLedger

  /** Two texts of one conversation, in creation order. */
  ghost predicate Precedes(r: Trace, e: EnvelopeId, f: EnvelopeId) {
    && Earlier(r, e, f)
    && r.history[e].envelope.ciphertext.payload.Text? && r.history[f].envelope.ciphertext.payload.Text?
    && r.history[e].envelope.sender == r.history[f].envelope.sender
    && r.history[e].envelope.mailbox == r.history[f].envelope.mailbox
  }

  ghost predicate Cleared(w: World, e: EnvelopeId)
    requires e in w.trace.history
  {
    var d := w.trace.history[e].envelope.sender;
    (d in w.vaults ==> e !in w.vaults[d].outbox) || TimedOut(w, e)
  }

  ghost predicate InOrder(w: World) {
    forall e, f :: f in w.trace.started && Precedes(w.trace, e, f) ==> Cleared(w, e)
  }

  /** Everything ahead of the row flushOutbox picks has timed out. */
  lemma HeadIsFirst(w: World, d: DeviceId, at: nat, e: EnvelopeId, f: EnvelopeId)
    requires Base(w) && d in w.vaults && at <= w.now && IsHead(w.vaults[d], f, at)
    requires Precedes(w.trace, e, f) && w.trace.history[e].envelope.sender == d && e in w.vaults[d].outbox
    ensures TimedOut(w, e)
  {
    var r, t := w.trace, w.vaults[d];
    assert VaultOk(r, w.now, d, t);
    assert OutboxRowOk(r, w.now, d, t, e) && OutboxRowOk(r, w.now, d, t, f);
    TextCarried(r, e);
    TextCarried(r, f);
    assert SentOk(r, d, t.outbox[e].message, t.messages[t.outbox[e].message]);
    assert SentOk(r, d, t.outbox[f].message, t.messages[t.outbox[f].message]);
    assert !Eligible(t, e, at);
  }

  /** No step puts a known envelope into an outbox, and no deadline is taken back. */
  lemma ClearedStays(w: World, s: Step, e: EnvelopeId)
    requires Base(w) && Enabled(w, s) && e in w.trace.history && Cleared(w, e)
    ensures e in Apply(w, s).trace.history && Cleared(Apply(w, s), e)
  {
    hide Base, CanTransact, TablesAfter, TraceAfter, Grows;
    var v := Apply(w, s);
    StepKeepsBase(w, s);
    GrowsAt(w.trace, v.trace, e);
    match s
    case Transact(p, a) => OutboxOnlyGrowsByFresh(w.net, w.trace, w.now, VaultOf(w, p), TablesOf(w, p), a, e);
    case _ =>
  }

  lemma OutboxOnlyGrowsByFresh(n: Network, r: Trace, now: nat, d: DeviceId, t: Tables, a: Transaction, e: EnvelopeId)
    requires CanTransact(n, r, now, d, t, a) && e in r.history
    ensures e in TablesAfter(n, r, now, d, t, a).outbox ==> e in t.outbox
  {
    if a.Receive? { ReceiveElsewhere(t, d, a.x, now, a.draw); }
  }

  /** The envelopes a step newly starts: the head of an outbox, or a control. */
  lemma StartedBy(w: World, s: Step, e: EnvelopeId, f: EnvelopeId)
    requires Base(w) && Enabled(w, s) && f in Apply(w, s).trace.started && f !in w.trace.started
    requires Precedes(w.trace, e, f)
    ensures Cleared(w, e)
  {
    hide VaultOk, TraceOk, NetworkOk, HostOk, CanTransact, TablesAfter, IsHead;
    match s
    case FlushOutbox(p, g, at) => StartedHead(w, VaultOf(w, p), at, e, f);
    case FlushControl(p, g) => ControlIsNoText(w, VaultOf(w, p), f);
    case RelayOnlyPost(p, x, at) =>
      if x.id in TablesOf(w, p).controls { ControlIsNoText(w, VaultOf(w, p), f); } else { StartedHead(w, VaultOf(w, p), at, e, f); }
    case _ =>
  }

  lemma StartedHead(w: World, d: DeviceId, at: nat, e: EnvelopeId, f: EnvelopeId)
    requires Base(w) && d in w.vaults && at <= w.now && IsHead(w.vaults[d], f, at) && Precedes(w.trace, e, f)
    ensures Cleared(w, e)
  {
    assert VaultOk(w.trace, w.now, d, w.vaults[d]);
    assert OutboxRowOk(w.trace, w.now, d, w.vaults[d], f);
    if e in w.vaults[d].outbox { HeadIsFirst(w, d, at, e, f); }
  }

  lemma ControlIsNoText(w: World, d: DeviceId, f: EnvelopeId)
    requires Base(w) && d in w.vaults && f in w.vaults[d].controls
    ensures f in w.trace.history && !w.trace.history[f].envelope.ciphertext.payload.Text?
  {
    assert VaultOk(w.trace, w.now, d, w.vaults[d]);
  }

  /** A started envelope is known, and nothing created later precedes it. */
  lemma PrecedesBefore(w: World, s: Step, e: EnvelopeId, f: EnvelopeId)
    requires Base(w) && Enabled(w, s) && f in Apply(w, s).trace.started && Precedes(Apply(w, s).trace, e, f)
    ensures Precedes(w.trace, e, f)
  {
    hide Base, Enabled, Apply, Grows, Precedes;
    StepKeepsBase(w, s);
    StartedKnown(w, s, f);
    if s.Transact? { AddedIsLast(w, s.p, s.action, e, f); } else { HistoryStays(w, s, e, f); }
  }

  lemma HistoryStays(w: World, s: Step, e: EnvelopeId, f: EnvelopeId)
    requires Enabled(w, s) && !s.Transact? && Precedes(Apply(w, s).trace, e, f)
    ensures Precedes(w.trace, e, f)
  {
  }

  lemma AddedIsLast(w: World, p: nat, a: Transaction, e: EnvelopeId, f: EnvelopeId)
    requires Base(w) && Enabled(w, Transact(p, a)) && f in w.trace.history
             && Precedes(Apply(w, Transact(p, a)).trace, e, f)
    ensures Precedes(w.trace, e, f)
  {
    hide NetworkOk, HostOk, VaultsOk, TablesAfter, Opens, Pending, AboveMessages, AboveOutbox;
    assert RecordOk(w.trace, f);
  }

  lemma StartedKnown(w: World, s: Step, f: EnvelopeId)
    requires Base(w) && Enabled(w, s) && f in Apply(w, s).trace.started
    ensures f in w.trace.history
  {
    hide NetworkOk, HostOk, VaultOk, IsHead, CanTransact, TablesAfter;
    match s
    case FlushOutbox(p, e, at) => HeadIsThere(TablesOf(w, p), e, at); OutboxIsGenuine(w.trace, w.now, VaultOf(w, p),
        TablesOf(w, p));
    case FlushControl(p, _) => OutboxIsGenuine(w.trace, w.now, VaultOf(w, p), TablesOf(w, p));
    case RelayOnlyPost(p, x, at) => HeadInOutbox(TablesOf(w, p), VaultOf(w, p), at, x); OutboxIsGenuine(w.trace,
        w.now, VaultOf(w, p), TablesOf(w, p));
    case _ =>
  }

  lemma HeadIsThere(t: Tables, e: EnvelopeId, now: nat)
    requires IsHead(t, e, now)
    ensures e in t.outbox
  {
  }

  lemma HeadInOutbox(t: Tables, d: DeviceId, now: nat, x: Envelope)
    requires RelayOnlyRow(t, d, now, x)
    ensures || (x.id in t.outbox && x == OutboxEnvelope(d, x.id, t.outbox[x.id]))
            || (x.id in t.controls && x == ControlEnvelope(d, x.id, t.controls[x.id]))
  {
  }

  lemma StepKeepsOrder(w: World, s: Step)
    requires Base(w) && InOrder(w) && Enabled(w, s)
    ensures InOrder(Apply(w, s))
  {
    hide Base, Enabled, Apply, Cleared, Precedes;
    var v := Apply(w, s);
    PrecedesAreKnown(v.trace);
    forall e, f | f in v.trace.started && Precedes(v.trace, e, f) ensures Cleared(v, e) {
      PrecedesBefore(w, s, e, f);
      PrecedesAreKnown(w.trace);
      if f !in w.trace.started { StartedBy(w, s, e, f); }
      ClearedStays(w, s, e);
    }
  }

  lemma PrecedesAreKnown(r: Trace)
    ensures forall e, f :: Precedes(r, e, f) ==> e in r.history && f in r.history
  {
  }
}
