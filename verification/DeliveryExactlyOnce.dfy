/**
 Exactly once, on the tables: every text that was opened got one message row and one
 receipt, and no two received rows come from the same envelope.
 */
module DeliveryExactlyOnce {
  import opened Prelude
  import opened VaultTables
  import opened DeliveryWorld
  import opened DeliveryBase
  import opened DeliveryBaseSteps
  import opened DeliveryLedger
  import opened DeliveryEffects
  import opened DeliveryStatus
  import opened DeliveryTheorems
  import opened DeliveryReceipts

  ghost predicate IsReceived(t: Tables, m: MessageId) {
    m in t.messages && !t.messages[m].outgoing
  }

  /** Received rows come from envelopes seen and counted, each from another one. */
  ghost predicate RowsShown(r: Trace, d: DeviceId, t: Tables) {
    && (forall m :: IsReceived(t, m) ==>
          var s := t.messages[m].source; s.Some? && s.value in t.seen && r.shown[(d, s.value)] == 1)
    && (forall m, n :: IsReceived(t, m) && IsReceived(t, n) && m != n ==> t.messages[m].source != t.messages[n].source)
  }

  ghost predicate HasReceipt(r: Trace, e: EnvelopeId) {
    exists c :: c in r.history && r.history[c].cause == Some(e)
  }

  /** Every text seen was shown and answered. */
  ghost predicate TextsAnswered(r: Trace, d: DeviceId, t: Tables) {
    forall e :: e in t.seen && e in r.history && r.history[e].envelope.ciphertext.payload.Text? ==>
      r.shown[(d, e)] == 1 && HasReceipt(r, e)
  }

  ghost predicate Once(r: Trace, d: DeviceId, t: Tables) {
    RowsShown(r, d, t) && TextsAnswered(r, d, t)
  }

  ghost predicate AllOnce(w: World) {
    forall d :: d in w.vaults ==> Once(w.trace, d, w.vaults[d])
  }

  /** No received row appears or changes its origin. */
  ghost predicate NoneAppears(t: Tables, u: Tables) {
    && u.seen == t.seen
    && forall m :: IsReceived(u, m) ==> IsReceived(t, m) && u.messages[m].source == t.messages[m].source
  }

  lemma ReceiptStays(r: Trace, q: Trace, e: EnvelopeId)
    requires Grows(r, q) && HasReceipt(r, e)
    ensures HasReceipt(q, e)
  {
    var c :| c in r.history && r.history[c].cause == Some(e);
    assert c in q.history && q.history[c].cause == Some(e);
  }

  lemma QuietKeepsOnce(r: Trace, q: Trace, d: DeviceId, t: Tables, u: Tables)
    requires Grows(r, q) && NoneAppears(t, u) && Once(r, d, t) && (forall e :: e in t.seen ==> e in r.history)
    requires forall e :: q.shown[(d, e)] == r.shown[(d, e)]
    ensures Once(q, d, u)
  {
    hide HasReceipt;
    forall e | e in u.seen && e in q.history && q.history[e].envelope.ciphertext.payload.Text?
      ensures q.shown[(d, e)] == 1 && HasReceipt(q, e)
    {
      assert e in r.history && q.history[e] == r.history[e];
      ReceiptStays(r, q, e);
    }
  }

  /** The row that is stored, and the receipt that answers it, are the first. */
  lemma StoringOnce(r: Trace, q: Trace, d: DeviceId, t: Tables, u: Tables, e: EnvelopeId, m: MessageId, c: EnvelopeId)
    requires Grows(r, q) && Once(r, d, t) && (forall f :: f in t.seen ==> f in r.history)
    requires e !in t.seen && u.seen == t.seen + {e} && r.shown[(d, e)] == 0 && q.shown == r.shown + multiset{(d, e)}
    requires m !in t.messages && m in u.messages && u.messages == t.messages[m := u.messages[m]]
    requires !u.messages[m].outgoing && u.messages[m].source == Some(e)
    requires c in q.history && q.history[c].cause == Some(e)
    ensures Once(q, d, u)
  {
    assert HasReceipt(q, e);
    hide HasReceipt;
    forall f | f in u.seen && f in q.history && q.history[f].envelope.ciphertext.payload.Text?
      ensures q.shown[(d, f)] == 1 && HasReceipt(q, f)
    {
      if f != e {
        assert f in r.history && q.history[f] == r.history[f];
        ReceiptStays(r, q, f);
      }
    }
    forall k | IsReceived(u, k) ensures u.messages[k].source.Some? && q.shown[(d, u.messages[k].source.value)] == 1 {
      assert k != m ==> IsReceived(t, k);
    }
  }

  lemma StoringKeepsOnce(w: World, d: DeviceId, x: Envelope, draw: Draw)
    requires Base(w) && Effects(w) && d in w.vaults && Once(w.trace, d, w.vaults[d]) && x.ciphertext.payload.Text?
    requires CanTransact(w.net, w.trace, w.now, d, w.vaults[d], Receive(x, draw))
    requires Grows(w.trace, ApplyTransaction(w, d, Receive(x, draw)).trace)
    ensures var v := ApplyTransaction(w, d, Receive(x, draw)); Once(v.trace, d, v.vaults[d])
  {
    hide Base, Effects, CanTransact, TablesAfter, TraceAfter, Once, Grows;
    var v := ApplyTransaction(w, d, Receive(x, draw));
    SeenAreKnown(w, d);
    StoredRows(w, d, x, draw);
    NotShownYet(w, d, x);
    StoringOnce(w.trace, v.trace, d, w.vaults[d], v.vaults[d], x.id, draw.message, draw.receipt);
  }

  lemma OpeningOnce(r: Trace, d: DeviceId, t: Tables, u: Tables, e: EnvelopeId)
    requires Once(r, d, t) && e in r.history && !r.history[e].envelope.ciphertext.payload.Text? && u.seen == t.seen + {e}
    requires forall m :: IsReceived(u, m) ==> IsReceived(t, m) && u.messages[m].source == t.messages[m].source
    ensures Once(r, d, u)
  {
    hide HasReceipt;
  }

  lemma NotShownYet(w: World, d: DeviceId, x: Envelope)
    requires Effects(w) && d in w.vaults && x.id !in w.vaults[d].seen
    ensures w.trace.shown[(d, x.id)] == 0
  {
    assert !SeenBy(w, d, x.id);
  }

  lemma StoredRows(w: World, d: DeviceId, x: Envelope, draw: Draw)
    requires d in w.vaults && x.ciphertext.payload.Text?
    requires CanTransact(w.net, w.trace, w.now, d, w.vaults[d], Receive(x, draw))
    ensures var t, v := w.vaults[d], ApplyTransaction(w, d, Receive(x, draw));
            var u, q := v.vaults[d], v.trace;
            && x.id !in t.seen && u.seen == t.seen + {x.id} && draw.message !in t.messages && draw.message in u.messages
            && !u.messages[draw.message].outgoing && u.messages[draw.message].source == Some(x.id)
            && u.messages == t.messages[draw.message := u.messages[draw.message]]
            && q.shown == w.trace.shown + multiset{(d, x.id)}
            && draw.receipt in q.history && q.history[draw.receipt].cause == Some(x.id)
  {
    hide Pending, Passed;
  }

  lemma ReceiptsAppearNowhere(t: Tables, d: DeviceId, x: Envelope, now: nat, draw: Draw)
    requires Opens(t, d, x) && !x.ciphertext.payload.Text?
    ensures var u := CommitReceive(t, d, x, now, draw);
            && u.seen == t.seen + {x.id}
            && forall m :: IsReceived(u, m) ==> IsReceived(t, m) && u.messages[m].source == t.messages[m].source
  {
  }

  lemma OtherReceiveKeepsOnce(w: World, d: DeviceId, x: Envelope, draw: Draw)
    requires Base(w) && d in w.vaults && Once(w.trace, d, w.vaults[d]) && !x.ciphertext.payload.Text?
    requires CanTransact(w.net, w.trace, w.now, d, w.vaults[d], Receive(x, draw))
    ensures Opens(w.vaults[d], d, x) && Once(w.trace, d, CommitReceive(w.vaults[d], d, x, w.now, draw))
  {
    hide Base, CanTransact, CommitReceive, Opens, Pending, Once;
    CanReceive(w, d, x, draw);
    PendingIsGenuineHere(w, d, x);
    ReceiptsAppearNowhere(w.vaults[d], d, x, w.now, draw);
    OpeningOnce(w.trace, d, w.vaults[d], CommitReceive(w.vaults[d], d, x, w.now, draw), x.id);
  }

  lemma PlainNoneAppears(n: Network, r: Trace, now: nat, d: DeviceId, t: Tables, a: Transaction)
    requires CanTransact(n, r, now, d, t, a) && !a.Receive?
    ensures NoneAppears(t, TablesAfter(n, r, now, d, t, a)) && TraceAfter(n, r, now, d, t, a).shown == r.shown
  {
  }

  lemma AcceptedNoneAppears(t: Tables, e: EnvelopeId)
    ensures NoneAppears(t, MarkAccepted(t, e))
  {
  }

  lemma TransactKeepsOnce(w: World, s: Step)
    requires Base(w) && Effects(w) && AllOnce(w) && Enabled(w, s) && s.Transact?
    ensures Once(Apply(w, s).trace, VaultOf(w, s.p), Apply(w, s).vaults[VaultOf(w, s.p)])
  {
    hide Base, Effects, Once, Grows, CanTransact, TablesAfter, TraceAfter, NoneAppears;
    var d, t := VaultOf(w, s.p), TablesOf(w, s.p);
    assert Once(w.trace, d, t);
    StepKeepsBase(w, s);
    SeenAreKnown(w, d);
    if s.action.Receive? {
      if s.action.x.ciphertext.payload.Text? {
        StoringKeepsOnce(w, d, s.action.x, s.action.draw);
      } else {
        OtherReceiveKeepsOnce(w, d, s.action.x, s.action.draw);
        ReceiveTables(w, d, s.action.x, s.action.draw);
        SameTrace(w, d, s.action.x, s.action.draw);
      }
    } else {
      PlainNoneAppears(w.net, w.trace, w.now, d, t, s.action);
      QuietKeepsOnce(w.trace, Apply(w, s).trace, d, t, Apply(w, s).vaults[d]);
    }
  }

  lemma SameTrace(w: World, d: DeviceId, x: Envelope, draw: Draw)
    requires d in w.vaults && CanTransact(w.net, w.trace, w.now, d, w.vaults[d], Receive(x, draw)) && !x.ciphertext.payload.Text?
    ensures TraceAfter(w.net, w.trace, w.now, d, w.vaults[d], Receive(x, draw)) == w.trace
  {
  }

  lemma ShownElsewhere(w: World, s: Step, d: DeviceId)
    requires Enabled(w, s) && d in w.vaults && !(s.Transact? && VaultOf(w, s.p) == d)
    ensures d in Apply(w, s).vaults
    ensures forall e :: Apply(w, s).trace.shown[(d, e)] == w.trace.shown[(d, e)]
    ensures NoneAppears(w.vaults[d], Apply(w, s).vaults[d])
  {
    hide CanTransact, TablesAfter, HostAfter, IsHead, RelayOnlyRow, MarkAccepted, SameSession;
    if s.FinishJob? { AcceptedNoneAppears(w.vaults[d], s.job.envelope.id); }
  }

  lemma StepKeepsOnce(w: World, s: Step)
    requires Base(w) && Effects(w) && AllOnce(w) && Enabled(w, s)
    ensures AllOnce(Apply(w, s))
  {
    var v := Apply(w, s);
    StepKeepsBase(w, s);
    ClockRuns(w, s);
    ProcessIsOpen(w, s);
    hide Base, Effects, Once, Grows, Enabled, Apply, NoneAppears;
    forall d | d in v.vaults ensures Once(v.trace, d, v.vaults[d]) {
      assert Once(w.trace, d, w.vaults[d]);
      if s.Transact? && VaultOf(w, s.p) == d {
        TransactKeepsOnce(w, s);
      } else {
        ShownElsewhere(w, s, d);
        SeenAreKnown(w, d);
        QuietKeepsOnce(w.trace, v.trace, d, w.vaults[d], v.vaults[d]);
      }
    }
  }

  lemma {:induction false} RunKeepsOnce(w: World, steps: seq<Step>)
    requires Invariant(w) && AllOnce(w) && IsRun(w, steps)
    ensures AllOnce(After(w, steps))
    decreases |steps|
  {
    if steps != [] {
      assert Base(w) && Effects(w);
      hide Base, Effects, Invariant, AllOnce, Enabled, Apply;
      StepKeepsInvariant(w, steps[0]);
      StepKeepsOnce(w, steps[0]);
      RunKeepsOnce(Apply(w, steps[0]), steps[1..]);
    }
  }

  lemma InitialIsOnce(w: World)
    requires Initial(w)
    ensures AllOnce(w)
  {
  }

  lemma BaseAndEffects(w: World)
    requires Invariant(w)
    ensures Base(w) && Effects(w)
  {
  }

  lemma OneAnswer(w: World, c: EnvelopeId)
    requires Effects(w) && c in w.trace.history && w.trace.history[c].cause.Some?
    ensures Answers(w, c)
    ensures forall b :: b in w.trace.history && w.trace.history[b].cause == w.trace.history[c].cause ==> b == c
  {
  }

  /**
   On every run, a text that a vault has opened was inserted as a message row exactly once
   and answered by exactly one receipt, which reports this very message to its sender.
   */
  lemma OpenedTextsOnce(w: World, steps: seq<Step>, d: DeviceId, e: EnvelopeId) returns (c: EnvelopeId)
    requires Initial(w) && IsRun(w, steps)
    requires var v := After(w, steps);
             d in v.vaults && e in v.vaults[d].seen && e in v.trace.history && v.trace.history[e].envelope.ciphertext.payload.Text?
    ensures After(w, steps).trace.shown[(d, e)] == 1
    ensures var r := After(w, steps).trace;
            var x := r.history[e].envelope;
            && c in r.history && r.history[c].cause == Some(e) && (forall b :: b in r.history && r.history[b].cause == Some(e) ==> b == c)
            && r.history[c].envelope.sender == d && r.history[c].envelope.mailbox == x.sender
            && r.history[c].envelope.ciphertext.payload == DeliveredReceipt(x.ciphertext.payload.message)
  {
    InitialIsOnce(w);
    InitialInvariant(w);
    hide Invariant, IsRun, After, Base, Effects;
    RunKeepsOnce(w, steps);
    RunKeepsInvariant(w, steps);
    var v := After(w, steps);
    BaseAndEffects(v);
    assert Once(v.trace, d, v.vaults[d]) && HasReceipt(v.trace, e);
    c :| c in v.trace.history && v.trace.history[c].cause == Some(e);
    SeenIsKnown(v, d, e);
    OneAnswer(v, c);
  }

  /** And no two received rows of a vault come from the same envelope, on every run. */
  lemma RowsComeFromDistinctEnvelopes(w: World, steps: seq<Step>, d: DeviceId, m: MessageId, n: MessageId)
    requires Initial(w) && IsRun(w, steps) && d in After(w, steps).vaults && m != n
    requires var messages := After(w, steps).vaults[d].messages;
             m in messages && n in messages && !messages[m].outgoing && !messages[n].outgoing
    ensures var messages := After(w, steps).vaults[d].messages;
            && messages[m].source.Some? && messages[n].source.Some? && messages[m].source != messages[n].source
            && After(w, steps).trace.shown[(d, messages[m].source.value)] == 1
  {
    InitialIsOnce(w);
    InitialInvariant(w);
    hide Invariant, IsRun, After;
    RunKeepsOnce(w, steps);
    var t := After(w, steps).vaults[d];
    assert Once(After(w, steps).trace, d, t) && IsReceived(t, m) && IsReceived(t, n);
  }
}
