/** The delivery guarantees, on every run of the system from empty vaults. */
module DeliveryTheorems {
  import opened Prelude
  import opened VaultTables
  import opened DeliveryWorld
  import opened DeliveryBase
  import opened DeliveryBaseSteps
  import opened DeliveryRatchet
  import opened DeliveryLedger
  import opened DeliveryOrder
  import opened DeliveryEffects
  import opened DeliveryStatus
  import opened DeliveryFencing

  /** While nothing was ever posted to the relay, the relay knows nothing. */
  ghost predicate RelayUnused(n: Network) {
    n.relayPosted == {} ==> n.relay == map[] && n.relayDue == map[] && n.pushed == {}
  }

  ghost predicate Invariant(w: World) {
    && Base(w) && Ratchets(w.vaults, w.trace) && Ledger(w) && InOrder(w) && Effects(w) && Statuses(w)
    && Fences(w.host) && RelayUnused(w.net)
  }

  lemma StepKeepsRelayUnused(w: World, s: Step)
    requires RelayUnused(w.net) && Enabled(w, s)
    ensures RelayUnused(Apply(w, s).net)
  {
    hide CanTransact, TablesAfter, TraceAfter;
  }

  lemma StepKeepsInvariant(w: World, s: Step)
    requires Invariant(w) && Enabled(w, s)
    ensures Invariant(Apply(w, s))
  {
    hide Base, Ratchets, Ledger, InOrder, Effects, Statuses, Fences, RelayUnused, Enabled, Apply;
    StepKeepsBase(w, s);
    StepKeepsRatchets(w, s);
    StepKeepsLedger(w, s);
    StepKeepsOrder(w, s);
    StepKeepsEffects(w, s);
    StepKeepsStatuses(w, s);
    StepKeepsFences(w, s);
    StepKeepsRelayUnused(w, s);
  }

  lemma InitialInvariant(w: World)
    requires Initial(w)
    ensures Invariant(w)
  {
    InitialIsBase(w);
  }

  lemma {:induction false} RunKeepsInvariant(w: World, steps: seq<Step>)
    requires Invariant(w) && IsRun(w, steps)
    ensures Invariant(After(w, steps))
    decreases |steps|
  {
    hide Invariant, Enabled, Apply;
    if steps != [] {
      StepKeepsInvariant(w, steps[0]);
      RunKeepsInvariant(Apply(w, steps[0]), steps[1..]);
    }
  }

  lemma Reached(w: World, steps: seq<Step>)
    requires Initial(w) && IsRun(w, steps)
    ensures Invariant(After(w, steps))
  {
    InitialInvariant(w);
    RunKeepsInvariant(w, steps);
  }

  /**
   Nothing is lost: whatever is posted, lost, duplicated, delayed, crashed, locked or
   rolled back, a committed envelope that is not ephemeral is in its sender's outboxes,
   in the relay queue, in the peer's inbox or in the peer's seen_envelope_ids, unless its
   disappearing deadline or the relay's expiry has passed.
   */
  lemma Conservation(w: World, steps: seq<Step>, e: EnvelopeId)
    requires Initial(w) && IsRun(w, steps) && e in After(w, steps).trace.history
    requires !After(w, steps).trace.history[e].envelope.ephemeral
    ensures var v := After(w, steps);
            var x := v.trace.history[e].envelope;
            && x.sender in v.vaults && x.mailbox in v.vaults
            && (|| e in v.vaults[x.sender].outbox || e in v.vaults[x.sender].controls
                || e in v.net.relay || e in v.vaults[x.mailbox].inbox || e in v.vaults[x.mailbox].seen
                || Passed(v.trace.history[e].deadline, v.now)
                || (e in v.net.relayDue && v.net.relayDue[e] < v.now))
  {
    Reached(w, steps);
    var v := After(w, steps);
    assert RecordOk(v.trace, e) && Accounted(v, e);
  }

  ghost predicate RowsGenuine(r: Trace, d: DeviceId, t: Tables) {
    && (forall e :: e in t.outbox ==> Genuine(r, OutboxEnvelope(d, e, t.outbox[e])))
    && (forall e :: e in t.controls ==> Genuine(r, ControlEnvelope(d, e, t.controls[e])))
    && (forall e :: e in t.inbox ==> Genuine(r, t.inbox[e]))
  }

  ghost predicate InFlightGenuine(r: Trace, n: Network) {
    && (forall x :: x in n.posted + n.relayPosted + n.pushed ==> Genuine(r, x))
    && (forall e :: e in n.relay ==> Genuine(r, n.relay[e].envelope))
  }

  lemma RowsAreGenuine(r: Trace, now: nat, d: DeviceId, t: Tables)
    requires VaultOk(r, now, d, t)
    ensures RowsGenuine(r, d, t)
  {
    OutboxIsGenuine(r, now, d, t);
  }

  ghost predicate EveryCopyGenuine(w: World) {
    && (forall d :: d in w.vaults ==> RowsGenuine(w.trace, d, w.vaults[d]))
    && (forall p, job :: IsRunning(w, p, job) ==> Genuine(w.trace, job.envelope))
    && InFlightGenuine(w.trace, w.net)
  }

  lemma CopiesAreGenuine(w: World)
    requires Base(w)
    ensures EveryCopyGenuine(w)
  {
    hide TraceOk, VaultOk, RowsGenuine;
    forall d | d in w.vaults ensures RowsGenuine(w.trace, d, w.vaults[d]) {
      RowsAreGenuine(w.trace, w.now, d, w.vaults[d]);
    }
    forall p, job | IsRunning(w, p, job) ensures Genuine(w.trace, job.envelope) {
      assert ProcessOk(w.trace, w.host.processes[p]);
    }
  }

  /**
   Retries never encrypt again: every copy of an envelope, in an outbox, an inbox, a
   running job, a packet, a push or the relay, is the one committed at creation.
   */
  lemma RetriesKeepTheBytes(w: World, steps: seq<Step>)
    requires Initial(w) && IsRun(w, steps)
    ensures EveryCopyGenuine(After(w, steps))
  {
    hide Base, IsRun, After, Initial, EveryCopyGenuine, Ratchets, Ledger, InOrder, Effects, Statuses, Fences,
        RelayUnused;
    Reached(w, steps);
    CopiesAreGenuine(After(w, steps));
  }

  /** Two committed envelopes never share a ratchet key, whatever was rolled back in between. */
  lemma KeysAreNeverShared(w: World, steps: seq<Step>, e: EnvelopeId, f: EnvelopeId)
    requires Initial(w) && IsRun(w, steps) && e != f
    requires e in After(w, steps).trace.history && f in After(w, steps).trace.history
    ensures KeyOf(After(w, steps).trace, e) != KeyOf(After(w, steps).trace, f)
  {
    Reached(w, steps);
    hide IsRun, After;
  }

  /** The peer's ratchet has used up an envelope exactly when the envelope is marked seen. */
  lemma OpenedExactlyWhenSeen(w: World, steps: seq<Step>, e: EnvelopeId)
    requires Initial(w) && IsRun(w, steps) && e in After(w, steps).trace.history
    ensures var v := After(w, steps);
            var d := v.trace.history[e].envelope.mailbox;
            d in v.vaults && (e in v.vaults[d].seen <==> KeyOf(v.trace, e) in v.vaults[d].consumed)
  {
    Reached(w, steps);
    hide IsRun, After;
    assert RecordOk(After(w, steps).trace, e);
  }

  /** At most one message row and at most one `delivered` receipt per envelope, ever. */
  lemma ShownAndAnsweredOnce(w: World, steps: seq<Step>, d: DeviceId, e: EnvelopeId, b: EnvelopeId, c: EnvelopeId)
    requires Initial(w) && IsRun(w, steps)
    ensures var v := After(w, steps);
            && v.trace.shown[(d, e)] <= 1
            && (v.trace.shown[(d, e)] == 1 ==> d in v.vaults && e in v.vaults[d].seen)
            && (b in v.trace.history && c in v.trace.history && v.trace.history[b].cause == Some(e) == v.trace.history[c].cause ==> b == c)
  {
    Reached(w, steps);
    hide IsRun, After;
  }

  /** And no two receipts of one vault ever report the same message as delivered. */
  lemma DeliveredOnce(w: World, steps: seq<Step>, b: EnvelopeId, c: EnvelopeId)
    requires Initial(w) && IsRun(w, steps)
    requires var r := After(w, steps).trace;
             && b in r.history && c in r.history
             && r.history[b].envelope.ciphertext.payload.DeliveredReceipt?
             && r.history[c].envelope.ciphertext.payload == r.history[b].envelope.ciphertext.payload
    ensures b == c
  {
    Reached(w, steps);
    var v := After(w, steps);
    hide IsRun, After, Ratchets, Ledger, InOrder, Statuses, Fences, NetworkOk, HostOk, VaultsOk;
    assert Answers(v, b) && Answers(v, c);
    TextCarried(v.trace, v.trace.history[b].cause.value);
    TextCarried(v.trace, v.trace.history[c].cause.value);
  }

  /**
   First transfers keep conversation order: when a transfer of a text was ever started,
   every earlier text of the conversation has landed or passed its deadline.
   */
  lemma FirstTransfersInOrder(w: World, steps: seq<Step>, e: EnvelopeId, f: EnvelopeId)
    requires Initial(w) && IsRun(w, steps)
    requires f in After(w, steps).trace.started && Precedes(After(w, steps).trace, e, f)
    ensures e in After(w, steps).trace.history
    ensures Landed(After(w, steps), e) || TimedOut(After(w, steps), e)
  {
    Reached(w, steps);
    var v := After(w, steps);
    hide IsRun, After, Ratchets, Statuses, Fences, Effects, NetworkOk, HostOk;
    assert Cleared(v, e) && Accounted(v, e) && RecordOk(v.trace, e);
    TextIsNoControl(v, v.trace.history[e].envelope.sender, e);
  }

  /** A status tells the truth, on every run and in every mode. */
  lemma StatusIsHonest(w: World, steps: seq<Step>, d: DeviceId, m: MessageId)
    requires Initial(w) && IsRun(w, steps)
    requires d in After(w, steps).vaults && m in After(w, steps).vaults[d].messages
             && After(w, steps).vaults[d].messages[m].outgoing
    ensures var v := After(w, steps);
            var row := v.vaults[d].messages[m];
            && m in v.trace.letters && v.trace.letters[m] in v.trace.history && row.peer in v.vaults
            && var e := v.trace.letters[m];
               && v.trace.history[e].envelope.sender == d && v.trace.history[e].envelope.mailbox == row.peer
               && v.trace.history[e].deadline == row.disappearAt
               && (row.status == Delivered ==> e in v.vaults[row.peer].seen)
               && (row.status == Sent ==> Landed(v, e))
               && (row.status == Read ==> Landed(v, e) || TimedOut(v, e))
  {
    Reached(w, steps);
    var v := After(w, steps);
    hide IsRun, After, Ratchets, Ledger, InOrder, Fences, Effects, NetworkOk, HostOk, Landed, InboxOk, OutboxOk,
        ControlsOk;
    assert MessageHonest(v, m, v.vaults[d].messages[m]);
    assert VaultOk(v.trace, v.now, d, v.vaults[d]);
    assert SentOk(v.trace, d, m, v.vaults[d].messages[m]);
    assert RecordOk(v.trace, v.trace.letters[m]);
  }

  /** While the relay is not used, `read` means accepted by the peer, or expired. */
  lemma ReadInDirectMode(w: World, steps: seq<Step>, d: DeviceId, m: MessageId)
    requires Initial(w) && IsRun(w, steps) && After(w, steps).net.relayPosted == {}
    requires d in After(w, steps).vaults && m in After(w, steps).vaults[d].messages
    requires After(w, steps).vaults[d].messages[m].outgoing && After(w, steps).vaults[d].messages[m].status == Read
    ensures var v := After(w, steps);
            var row := v.vaults[d].messages[m];
            && m in v.trace.letters && row.peer in v.vaults
            && var e := v.trace.letters[m];
               e in v.vaults[row.peer].inbox || e in v.vaults[row.peer].seen || Passed(row.disappearAt, v.now)
  {
    StatusIsHonest(w, steps, d, m);
    Reached(w, steps);
    hide IsRun, After, Initial, Invariant;
    RelayIsEmpty(After(w, steps));
  }

  lemma RelayIsEmpty(w: World)
    requires Invariant(w) && w.net.relayPosted == {}
    ensures w.net.relay == map[] && w.net.relayDue == map[]
  {
    hide Base, Ratchets, Ledger, InOrder, Effects, Statuses, Fences;
  }

  // ----- statuses over a run -----

  ghost predicate TorOnly(steps: seq<Step>) {
    forall i :: 0 <= i < |steps| ==> !(steps[i].Transact? && steps[i].action.RelayOnlyDone?)
  }

  /** Every relay-only completion of the run finds its message at most `sent`. */
  ghost predicate CompletionsAreTimely(w: World, steps: seq<Step>)
    requires IsRun(w, steps)
    decreases |steps|
  {
    steps == [] || (IsTimely(w, steps[0]) && CompletionsAreTimely(Apply(w, steps[0]), steps[1..]))
  }

  /** No step of the run lets the status of a sent message fall. */
  ghost predicate NoStatusFalls(w: World, steps: seq<Step>)
    requires IsRun(w, steps)
    decreases |steps|
  {
    steps == [] ||
    ((forall d :: d in w.vaults && d in Apply(w, steps[0]).vaults ==> Climbs(w.vaults[d], Apply(w, steps[0]).vaults[d]))
     && NoStatusFalls(Apply(w, steps[0]), steps[1..]))
  }

  /** The exact condition, over any run and in every mode. */
  lemma {:induction false} StatusesClimbIff(w: World, steps: seq<Step>)
    requires IsRun(w, steps)
    ensures NoStatusFalls(w, steps) <==> CompletionsAreTimely(w, steps)
    decreases |steps|
  {
    hide Enabled, Apply, IsTimely, Climbs;
    if steps != [] {
      ClockRuns(w, steps[0]);
      StepClimbsIff(w, steps[0]);
      StatusesClimbIff(Apply(w, steps[0]), steps[1..]);
    }
  }

  lemma {:induction false} TorRunsAreTimely(w: World, steps: seq<Step>)
    requires IsRun(w, steps) && TorOnly(steps)
    ensures CompletionsAreTimely(w, steps)
    decreases |steps|
  {
    hide Enabled, Apply;
    if steps != [] {
      assert !(steps[0].Transact? && steps[0].action.RelayOnlyDone?);
      assert TorOnly(steps[1..]) by { forall i | 0 <= i < |steps[1..]| ensures steps[1..][i] == steps[i + 1] {} }
      TorRunsAreTimely(Apply(w, steps[0]), steps[1..]);
    }
  }

  ghost predicate IsOutgoing(w: World, d: DeviceId, m: MessageId) {
    d in w.vaults && m in w.vaults[d].messages && w.vaults[d].messages[m].outgoing
  }

  /** A sent message that was deleted never comes back. */
  lemma NoRevival(w: World, s: Step, d: DeviceId, m: MessageId)
    requires Enabled(w, s) && m in w.trace.letters && d in w.vaults && !IsOutgoing(w, d, m)
    ensures !IsOutgoing(Apply(w, s), d, m) && d in Apply(w, s).vaults
  {
    hide CanTransact, TablesAfter, TraceAfter;
    if s.Transact? && VaultOf(w, s.p) == d && IsOutgoing(Apply(w, s), d, m) {
      TransactionRevivesNothing(w.net, w.trace, w.now, d, w.vaults[d], s.action, m);
    }
  }

  lemma TransactionRevivesNothing(n: Network, r: Trace, now: nat, d: DeviceId, t: Tables, a: Transaction, m: MessageId)
    requires CanTransact(n, r, now, d, t, a) && m in r.letters
    requires m in TablesAfter(n, r, now, d, t, a).messages && TablesAfter(n, r, now, d, t, a).messages[m].outgoing
    ensures m in t.messages && t.messages[m].outgoing
  {
    if a.Receive? {
      ReceivedMessages(t, d, a.x, now, a.draw);
      OpeningRevivesNothing(t, a.x, now, a.draw, m);
    }
  }

  lemma OpeningRevivesNothing(t: Tables, x: Envelope, now: nat, draw: Draw, m: MessageId)
    requires m in Opened(t, x, now, draw).messages && Opened(t, x, now, draw).messages[m].outgoing
    ensures m in t.messages && t.messages[m].outgoing
  {
    match x.ciphertext.payload
    case Text(_, _) =>
    case DeliveredReceipt(_) =>
    case ReadReceipt(_) =>
    case _ =>
  }

  lemma {:induction false} GoneForGood(w: World, steps: seq<Step>, d: DeviceId, m: MessageId)
    requires Invariant(w) && IsRun(w, steps) && m in w.trace.letters && d in w.vaults && !IsOutgoing(w, d, m)
    ensures !IsOutgoing(After(w, steps), d, m)
    decreases |steps|
  {
    hide Invariant, Enabled, Apply, IsOutgoing;
    if steps != [] {
      NoRevival(w, steps[0], d, m);
      LettersStay(w, steps[0], m);
      StepKeepsInvariant(w, steps[0]);
      GoneForGood(Apply(w, steps[0]), steps[1..], d, m);
    }
  }

  lemma LettersStay(w: World, s: Step, m: MessageId)
    requires Invariant(w) && Enabled(w, s) && m in w.trace.letters
    ensures m in Apply(w, s).trace.letters
  {
    hide Ratchets, Ledger, InOrder, Effects, Statuses, Fences, RelayUnused, Base, Apply;
    StepKeepsBase(w, s);
  }

  lemma {:induction false} RunClimbs(w: World, steps: seq<Step>, d: DeviceId, m: MessageId)
    requires Invariant(w) && IsRun(w, steps) && CompletionsAreTimely(w, steps)
    requires IsOutgoing(w, d, m) && IsOutgoing(After(w, steps), d, m)
    ensures Rank(w.vaults[d].messages[m].status) <= Rank(After(w, steps).vaults[d].messages[m].status)
    decreases |steps|
  {
    hide Invariant, Enabled, Apply, IsTimely;
    if steps != [] {
      var v := Apply(w, steps[0]);
      SentHasLetter(w, d, m);
      StepClimbsIff(w, steps[0]);
      ClockRuns(w, steps[0]);
      StepKeepsInvariant(w, steps[0]);
      LettersStay(w, steps[0], m);
      if !IsOutgoing(v, d, m) { GoneForGood(v, steps[1..], d, m); }
      RunClimbs(v, steps[1..], d, m);
    }
  }

  lemma SentHasLetter(w: World, d: DeviceId, m: MessageId)
    requires Invariant(w) && IsOutgoing(w, d, m)
    ensures m in w.trace.letters
  {
    hide Base, Ratchets, Ledger, InOrder, Effects, Fences, RelayUnused, Honest;
    assert MessageHonest(w, m, w.vaults[d].messages[m]);
  }

  /** While completions are timely, statuses climb over any stretch of any run. */
  lemma StatusesClimb(w: World, before: seq<Step>, later: seq<Step>, d: DeviceId, m: MessageId)
    requires Initial(w) && IsRun(w, before) && IsRun(After(w, before), later)
    requires CompletionsAreTimely(After(w, before), later)
    requires IsOutgoing(After(w, before), d, m) && IsOutgoing(After(After(w, before), later), d, m)
    ensures Rank(After(w, before).vaults[d].messages[m].status) <=
            Rank(After(After(w, before), later).vaults[d].messages[m].status)
  {
    hide Invariant, IsRun, After, Initial, CompletionsAreTimely;
    Reached(w, before);
    RunClimbs(After(w, before), later, d, m);
  }

  /** In particular always in the Tor modes, which know no such completion. */
  lemma StatusOnlyClimbs(w: World, before: seq<Step>, later: seq<Step>, d: DeviceId, m: MessageId)
    requires Initial(w) && IsRun(w, before) && IsRun(After(w, before), later) && TorOnly(later)
    requires IsOutgoing(After(w, before), d, m) && IsOutgoing(After(After(w, before), later), d, m)
    ensures Rank(After(w, before).vaults[d].messages[m].status) <=
            Rank(After(After(w, before), later).vaults[d].messages[m].status)
  {
    hide IsRun, After, Initial, CompletionsAreTimely;
    TorRunsAreTimely(After(w, before), later);
    StatusesClimb(w, before, later, d, m);
  }

  // ----- jobs -----

  /** At most one transfer per envelope in a process, whatever is locked, switched or retried. */
  lemma OneJobPerEnvelope(w: World, steps: seq<Step>, p: nat, a: Job, b: Job)
    requires Initial(w) && IsRun(w, steps) && IsRunning(After(w, steps), p, a) && IsRunning(After(w, steps), p, b)
    requires a.envelope.id == b.envelope.id
    ensures a == b
  {
    Reached(w, steps);
    hide IsRun, After;
    assert OneJobEach(After(w, steps).host.processes[p]);
  }

  /**
   A job that completes changes only the vault it was started for, only in the same
   database and transport session, and only after its envelope was accepted.
   */
  lemma LateCompletionsAreFenced(w: World, steps: seq<Step>, p: nat, job: Job, acceptance: bool, d: DeviceId)
    requires Initial(w) && IsRun(w, steps) && Enabled(After(w, steps), FinishJob(p, job, acceptance))
             && d in After(w, steps).vaults
    requires Apply(After(w, steps), FinishJob(p, job, acceptance)).vaults[d] != After(w, steps).vaults[d]
    ensures var v := After(w, steps);
            && d == job.envelope.sender && v.host.processes[p].open == Some(Session(d, job.handle))
            && v.host.processes[p].transport == job.transport && (job.transport.Some? ==>
                      job.transport.value !in v.host.stopped)
            && Apply(v, FinishJob(p, job, acceptance)).vaults[d] == MarkAccepted(v.vaults[d], job.envelope.id)
            && job.envelope.id in v.trace.history && (job.envelope.ephemeral || Landed(v, job.envelope.id))
  {
    Reached(w, steps);
    var v := After(w, steps);
    hide IsRun, After, MarkAccepted, Landed;
    FinishIsFenced(v, p, job, acceptance, d);
    assert HandlesOk(v.host, v.host.processes[p]);
    RunningIsGenuine(v, p, job);
    AcceptedIsKnown(v, job.envelope.id);
  }
}
