/**
 The receive loop of the daemon refines the step system: whatever faults strike, a
 round of syncMessages followed by its acknowledgement is a run of the model, so every
 guarantee proved about runs holds for it.
 */
module DaemonRefinement {
  import opened Prelude
  import opened VaultTables
  import opened DeliveryWorld
  import opened DeliveryTheorems
  import opened LocalDaemon
  import opened Receiving
  import opened TorRouting

  /** Random identifiers that were never used, and row numbers SQLite would hand out. */
  ghost predicate DrawFits(t: Tables, x: Envelope, draw: Draw) {
    x.ciphertext.payload.Text? ==>
      draw.message !in t.messages && AboveMessages(t, draw.rowid) && AboveControls(t, draw.receiptRowid)
  }

  ghost predicate DrawsFit(t: Tables, me: DeviceId, xs: seq<Envelope>, now: nat, draws: seq<Draw>, faults: set<nat>)
    requires |draws| == |xs|
  {
    forall i :: 0 <= i < |xs| ==> DrawFits(ProcessAll(t, me, xs[..i], now, draws[..i], faults).tables, xs[i], draws[i])
  }

  ghost predicate ReceiptsAreNew(r: Trace, draws: seq<Draw>) {
    && (forall i :: 0 <= i < |draws| ==> draws[i].receipt !in r.history)
    && (forall i, j :: 0 <= i < j < |draws| ==> draws[i].receipt != draws[j].receipt)
  }

  /** Nothing but the open vault and the trace moved. */
  ghost predicate OnlyVault(w: World, v: World, d: DeviceId, t: Tables) {
    d in w.vaults && v == w.(vaults := w.vaults[d := t], trace := v.trace)
  }

  lemma {:induction false} RunThen(w: World, steps: seq<Step>, s: Step)
    requires IsRun(w, steps) && Enabled(After(w, steps), s)
    ensures IsRun(w, steps + [s]) && After(w, steps + [s]) == Apply(After(w, steps), s)
    decreases |steps|
  {
    hide Enabled, Apply;
    var all := steps + [s];
    if steps == [] {
      assert all[1..] == [] && IsRun(Apply(w, s), []);
    } else {
      RunThen(Apply(w, steps[0]), steps[1..], s);
      assert all[0] == steps[0] && all[1..] == steps[1..] + [s];
    }
  }

  /** One round of the loop is one `Receive` step, or no step at all. */
  lemma RoundIsAStep(w: World, p: nat, o: Outcome, x: Envelope, draw: Draw, fault: bool) returns (s: Option<Step>)
    requires IsOpen(w, p) && TablesOf(w, p) == o.tables && Pending(w.net, o.tables, VaultOf(w, p), x)
    requires DrawFits(o.tables, x, draw) && draw.receipt !in w.trace.history
    ensures var d := VaultOf(w, p);
            var t' := ProcessOne(o, d, x, w.now, draw, fault).tables;
            && (s.None? ==> t' == o.tables)
            && (s.Some? ==> && s.value == Transact(p, Receive(x, draw)) && Enabled(w, s.value)
                            && OnlyVault(w, Apply(w, s.value), d, t')
                            && Apply(w, s.value).trace.history.Keys <= w.trace.history.Keys + {draw.receipt})
  {
    hide Opens, CommitReceive, Pending;
    if x.id in o.tables.seen || fault || !Opens(o.tables, VaultOf(w, p), x) { return None; }
    s := Some(Transact(p, Receive(x, draw)));
  }

  lemma ExtendRun(w: World, p: nat, sofar: seq<Step>, o: Outcome, x: Envelope, draw: Draw,
      fault: bool) returns (steps: seq<Step>)
    requires IsOpen(w, p) && IsRun(w, sofar) && OnlyVault(w, After(w, sofar), VaultOf(w, p), o.tables)
    requires Pending(w.net, o.tables, VaultOf(w, p), x) && DrawFits(o.tables, x, draw)
             && draw.receipt !in After(w, sofar).trace.history
    ensures IsRun(w, steps)
            && OnlyVault(w, After(w, steps), VaultOf(w, p), ProcessOne(o, VaultOf(w, p), x, w.now, draw, fault).tables)
    ensures After(w, steps).trace.history.Keys <= After(w, sofar).trace.history.Keys + {draw.receipt}
  {
    hide Enabled, Apply, ProcessOne, DrawFits, Pending, IsRun, After;
    var s := RoundIsAStep(After(w, sofar), p, o, x, draw, fault);
    if s.None? { return sofar; }
    RunThen(w, sofar, s.value);
    return sofar + [s.value];
  }

  lemma StillPending(n: Network, t: Tables, u: Tables, d: DeviceId, x: Envelope)
    requires Pending(n, t, d, x) && u.inbox == t.inbox
    ensures Pending(n, u, d, x)
  {
  }

  lemma DrawsFitBefore(t: Tables, me: DeviceId, xs: seq<Envelope>, now: nat, draws: seq<Draw>, faults: set<nat>)
    requires |draws| == |xs| && xs != [] && DrawsFit(t, me, xs, now, draws, faults)
    ensures var n := |xs| - 1;
            && DrawsFit(t, me, xs[..n], now, draws[..n], faults)
            && DrawFits(ProcessAll(t, me, xs[..n], now, draws[..n], faults).tables, xs[n], draws[n])
  {
    hide DrawFits, ProcessAll;
    var n := |xs| - 1;
    forall i | 0 <= i < n
      ensures DrawFits(ProcessAll(t, me, xs[..n][..i], now, draws[..n][..i], faults).tables, xs[..n][i], draws[..n][i])
    {
      assert xs[..n][..i] == xs[..i] && draws[..n][..i] == draws[..i];
    }
  }

  ghost function Receipts(draws: seq<Draw>): set<EnvelopeId> {
    set i | 0 <= i < |draws| :: draws[i].receipt
  }

  lemma ReceiptsBefore(r: Trace, draws: seq<Draw>)
    requires ReceiptsAreNew(r, draws) && draws != []
    ensures var n := |draws| - 1;
            && ReceiptsAreNew(r, draws[..n]) && draws[n].receipt !in r.history.Keys + Receipts(draws[..n])
            && Receipts(draws) == Receipts(draws[..n]) + {draws[n].receipt}
  {
    var n := |draws| - 1;
    forall e | e in Receipts(draws) ensures e in Receipts(draws[..n]) + {draws[n].receipt} {
      var i :| 0 <= i < |draws| && draws[i].receipt == e;
      assert i < n ==> draws[..n][i].receipt == e;
    }
  }

  lemma {:induction false} SyncIsARun(w: World, p: nat, xs: seq<Envelope>, draws: seq<Draw>,
      faults: set<nat>) returns (steps: seq<Step>)
    requires IsOpen(w, p) && |draws| == |xs| && ReceiptsAreNew(w.trace, draws)
    requires forall i :: 0 <= i < |xs| ==> Pending(w.net, TablesOf(w, p), VaultOf(w, p), xs[i])
    requires DrawsFit(TablesOf(w, p), VaultOf(w, p), xs, w.now, draws, faults)
    ensures IsRun(w, steps)
            && OnlyVault(w, After(w, steps), VaultOf(w, p), ProcessAll(TablesOf(w, p), VaultOf(w, p), xs, w.now, draws, faults).tables)
    ensures After(w, steps).trace.history.Keys <= w.trace.history.Keys + Receipts(draws)
    decreases |xs|
  {
    var d, t := VaultOf(w, p), TablesOf(w, p);
    if xs == [] {
      assert w.vaults[d := t] == w.vaults;
      return [];
    }
    hide Enabled, Apply, ProcessOne, DrawFits, DrawsFit, ReceiptsAreNew, Receipts, Pending, IsRun, After;
    var n := |xs| - 1;
    DrawsFitBefore(t, d, xs, w.now, draws, faults);
    ReceiptsBefore(w.trace, draws);
    var sofar := SyncIsARun(w, p, xs[..n], draws[..n], faults);
    var o := ProcessAll(t, d, xs[..n], w.now, draws[..n], faults);
    AcksAreSeen(t, d, xs[..n], w.now, draws[..n], faults);
    StillPending(w.net, t, o.tables, d, xs[n]);
    steps := ExtendRun(w, p, sofar, o, xs[n], draws[n], n in faults);
  }

  /** The ids `route` deletes from the inbox. */
  function InboxIds(mode: Mode, acks: seq<EnvelopeId>): set<EnvelopeId> {
    if mode == RelayOnly then {} else Elements(acks)
  }

  /** The ids the relay is told about: all of them, those Tor did not bring, or none. */
  function RelayIds(mode: Mode, inbox: set<EnvelopeId>, acks: seq<EnvelopeId>): set<EnvelopeId> {
    match mode
    case RelayOnly => Elements(acks)
    case HybridTorRelay => Elements(NotRemoved(inbox, acks))
    case DirectTorP2p => {}
  }

  /**
   A whole round, in every mode: from a reachable world, receiving and then
   acknowledging is a run, whether or not the request to the relay gets through, and
   leads to a world that again has every delivery guarantee.
   */
  lemma SyncAndAckIsARun(w: World, p: nat, xs: seq<Envelope>, draws: seq<Draw>, faults: set<nat>, mode: Mode,
      reached: bool) returns (steps: seq<Step>)
    requires Invariant(w) && IsOpen(w, p) && |draws| == |xs| && ReceiptsAreNew(w.trace, draws)
    requires forall i :: 0 <= i < |xs| ==> Pending(w.net, TablesOf(w, p), VaultOf(w, p), xs[i])
    requires DrawsFit(TablesOf(w, p), VaultOf(w, p), xs, w.now, draws, faults)
    ensures var d := VaultOf(w, p);
            var o := ProcessAll(TablesOf(w, p), d, xs, w.now, draws, faults);
            var told := RelayIds(mode, o.tables.inbox.Keys, o.acks);
            && IsRun(w, steps) && Invariant(After(w, steps))
            && After(w, steps).vaults == w.vaults[d := AckInbox(o.tables, InboxIds(mode, o.acks))]
            && After(w, steps).net == if reached then RelayAck(w.net, d, told) else w.net
  {
    hide Invariant, ProcessAll, Pending;
    var d, t := VaultOf(w, p), TablesOf(w, p);
    var received := SyncIsARun(w, p, xs, draws, faults);
    var o := ProcessAll(t, d, xs, w.now, draws, faults);
    AcksAreSeen(t, d, xs, w.now, draws, faults);
    var ack := Acknowledge(p, InboxIds(mode, o.acks));
    assert Enabled(After(w, received), ack);
    RunThen(w, received, ack);
    steps := received + [ack];
    if reached {
      var forget := RelayForgets(d, RelayIds(mode, o.tables.inbox.Keys, o.acks));
      assert Enabled(After(w, steps), forget);
      RunThen(w, steps, forget);
      steps := steps + [forget];
    }
    RunKeepsInvariant(w, steps);
  }
}
