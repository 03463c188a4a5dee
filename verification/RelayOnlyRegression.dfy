/**
 A run, from empty vaults, in which a delivered message is shown as merely sent again.
 The relay stores the message but its answer is lost; the peer receives it and its
 receipt comes back; the retry, which the relay answers with success, then writes
 `sent` over `delivered`.
 */
module RelayOnlyRegression {
  import opened Prelude
  import opened VaultTables
  import opened DeliveryWorld
  import opened DeliveryStatus
  import opened DeliveryTheorems

  /** The message of vault 0 to vault 1, and the receipt for it. */
  const LETTER := Envelope(5, 0, 1, Ciphertext(0, 1, RatchetKey(100, 0), Text(7, 0)), false)
  const RECEIPT := Envelope(6, 1, 0, Ciphertext(1, 0, RatchetKey(101, 0), DeliveredReceipt(7)), false)

  const DRAW := Draw(8, 1, 6, 1)

  const OPENING: seq<Step> := [OpenVault(0, 0, 10), OpenVault(1, 1, 11),
                               Transact(0, AddContact(1, 100)), Transact(1, AddContact(0, 101))]
  const SENDING: seq<Step> := [Transact(0, SendMessage(1, 5, 7, 0, 1, 1)), RelayOnlyPost(0, LETTER, 0), RelayReceives(LETTER, 1000)]
  const RECEIVING: seq<Step> := [Transact(1, Receive(LETTER, DRAW)), RelayOnlyPost(1, RECEIPT, 0), RelayReceives(RECEIPT, 1000)]
  const ANSWERING: seq<Step> := [Transact(0, Receive(RECEIPT, DRAW)), RelayOnlyPost(0, LETTER, 0), RelayReceives(LETTER, 1000)]

  // ----- the two vaults on the way -----

  const SENDER0 := EMPTY.(contacts := map[1 := Contact(false, RatchetKey(100, 0))])
  const PEER0 := EMPTY.(contacts := map[0 := Contact(false, RatchetKey(101, 0))])
  const ROW := Message(1, 1, true, Queued, None, None, None)
  const SENDER1 := SENDER0.(contacts := map[1 := Contact(false, RatchetKey(100, 1))], messages := map[7 := ROW],
                            outbox := map[5 := OutboxRow(1, 7, 1, LETTER.ciphertext, 0)])
  const SENDER2 := SENDER1.(messages := map[7 := ROW.(status := Delivered)], seen := {6}, consumed := {RatchetKey(101, 0)})

  ghost predicate BothOpen(w: World) {
    && w.now == 0 && 0 in w.host.processes && 1 in w.host.processes && w.vaults.Keys == {0, 1} && w.trace.devices == {0, 1}
    && w.host.processes[0].open == Some(Session(0, 10)) && w.host.processes[1].open == Some(Session(1, 11))
  }

  ghost predicate Ready(w: World) {
    && BothOpen(w) && w.vaults == map[0 := SENDER0, 1 := PEER0]
    && w.trace.history == map[] && w.trace.letters == map[] && w.net == Network({}, {}, {}, map[], map[], {})
  }

  ghost predicate Stored(w: World) {
    && BothOpen(w) && w.vaults == map[0 := SENDER1, 1 := PEER0]
    && w.trace.history.Keys == {5} && LETTER in w.net.pushed && 5 in w.net.relay && 5 in w.net.accepted
  }

  ghost predicate Answered(w: World) {
    && BothOpen(w) && w.vaults[0] == SENDER1 && w.trace.history.Keys == {5, 6}
    && RECEIPT in w.net.pushed && 5 in w.net.relay && 5 in w.net.accepted
  }

  ghost predicate Retried(w: World) {
    BothOpen(w) && w.vaults[0] == SENDER2 && 5 in w.net.accepted
  }

  lemma OneMore(w: World, s: Step, rest: seq<Step>)
    requires Enabled(w, s) && IsRun(Apply(w, s), rest)
    ensures IsRun(w, [s] + rest) && After(w, [s] + rest) == After(Apply(w, s), rest)
  {
    assert ([s] + rest)[1..] == rest;
  }

  lemma {:induction false} RunConcat(w: World, a: seq<Step>, b: seq<Step>)
    requires IsRun(w, a) && IsRun(After(w, a), b)
    ensures IsRun(w, a + b) && After(w, a + b) == After(After(w, a), b)
    decreases |a|
  {
    hide Enabled, Apply;
    if a == [] {
      assert a + b == b;
    } else {
      RunConcat(Apply(w, a[0]), a[1..], b);
      OneMore(w, a[0], a[1..] + b);
      assert a + b == [a[0]] + (a[1..] + b);
    }
  }

  /** Three steps in a row. */
  lemma Three(w: World, a: Step, b: Step, c: Step)
    requires Enabled(w, a) && Enabled(Apply(w, a), b) && Enabled(Apply(Apply(w, a), b), c)
    ensures IsRun(w, [a, b, c]) && After(w, [a, b, c]) == Apply(Apply(Apply(w, a), b), c)
  {
    hide Enabled, Apply;
    OneMore(Apply(Apply(w, a), b), c, []);
    OneMore(Apply(w, a), b, [c]);
    OneMore(w, a, [b, c]);
  }

  ghost predicate Fresh(w: World) {
    Initial(w) && w.now == 0 && w.vaults.Keys == {0, 1} && w.host.processes == map[0 := IDLE, 1 := IDLE]
  }

  lemma BothUnlock(w: World)
    requires Fresh(w)
    ensures Enabled(w, OPENING[0]) && Enabled(Apply(w, OPENING[0]), OPENING[1])
    ensures var v := Apply(Apply(w, OPENING[0]), OPENING[1]);
            BothOpen(v) && v.vaults == w.vaults && v.net == w.net && v.trace == w.trace
  {
  }

  lemma BothMeet(v: World)
    requires BothOpen(v) && v.vaults == map[0 := EMPTY, 1 := EMPTY] && v.net == Network({}, {}, {}, map[], map[], {})
    requires v.trace.history == map[] && v.trace.letters == map[] && v.trace.owners == map[]
    ensures Enabled(v, OPENING[2]) && Enabled(Apply(v, OPENING[2]), OPENING[3])
    ensures Ready(Apply(Apply(v, OPENING[2]), OPENING[3]))
  {
    var u := Apply(v, OPENING[2]);
    assert u.vaults[0] == SENDER0;
    assert Apply(u, OPENING[3]).vaults[1] == PEER0;
  }

  lemma Opens(w: World)
    requires Fresh(w)
    ensures IsRun(w, OPENING) && Ready(After(w, OPENING))
  {
    hide Ready, Enabled, Apply;
    BothUnlock(w);
    var v := Apply(Apply(w, OPENING[0]), OPENING[1]);
    assert v.vaults == map[0 := EMPTY, 1 := EMPTY];
    BothMeet(v);
    Three(Apply(w, OPENING[0]), OPENING[1], OPENING[2], OPENING[3]);
    OneMore(w, OPENING[0], [OPENING[1], OPENING[2], OPENING[3]]);
    assert OPENING == [OPENING[0]] + [OPENING[1], OPENING[2], OPENING[3]];
  }

  lemma SenderWrites(w: World)
    requires Ready(w)
    ensures Enabled(w, SENDING[0])
    ensures var a := Apply(w, SENDING[0]);
            a.vaults == map[0 := SENDER1, 1 := PEER0] && BothOpen(a) && a.net == w.net && a.trace.history.Keys == {5}
  {
    assert Apply(w, SENDING[0]).vaults[0] == SENDER1;
  }

  lemma Sends(w: World)
    requires Ready(w)
    ensures IsRun(w, SENDING) && Stored(After(w, SENDING))
  {
    SenderWrites(w);
    hide CanTransact, TablesAfter, TraceAfter;
    assert IsHead(SENDER1, 5, 0) && OutboxEnvelope(0, 5, SENDER1.outbox[5]) == LETTER;
    Three(w, SENDING[0], SENDING[1], SENDING[2]);
    assert SENDING == [SENDING[0], SENDING[1], SENDING[2]];
  }

  /** The peer opens the letter and queues the receipt. */
  lemma PeerOpens(w: World)
    requires Stored(w)
    ensures Enabled(w, RECEIVING[0])
    ensures var a := Apply(w, RECEIVING[0]);
            && a.vaults[0] == SENDER1 && BothOpen(a) && a.net == w.net && a.trace.history.Keys == {5, 6}
            && a.vaults[1].controls == map[6 := ControlRow(1, 0, RECEIPT.ciphertext, 0, None)] && VaultTables.Usable(a.vaults[1], 0)
  {
  }

  lemma Receives(w: World)
    requires Stored(w)
    ensures IsRun(w, RECEIVING) && Answered(After(w, RECEIVING))
  {
    PeerOpens(w);
    hide CanTransact, TablesAfter, TraceAfter;
    var a := Apply(w, RECEIVING[0]);
    assert ControlEnvelope(1, 6, a.vaults[1].controls[6]) == RECEIPT;
    Three(w, RECEIVING[0], RECEIVING[1], RECEIVING[2]);
    assert RECEIVING == [RECEIVING[0], RECEIVING[1], RECEIVING[2]];
  }

  lemma SenderHears(w: World)
    requires Answered(w)
    ensures Enabled(w, ANSWERING[0])
    ensures var a := Apply(w, ANSWERING[0]); a.vaults[0] == SENDER2 && BothOpen(a) && a.net == w.net
  {
  }

  lemma Retries(w: World)
    requires Answered(w)
    ensures IsRun(w, ANSWERING) && Retried(After(w, ANSWERING))
  {
    SenderHears(w);
    hide CanTransact, TablesAfter, TraceAfter;
    assert IsHead(SENDER2, 5, 0) && OutboxEnvelope(0, 5, SENDER2.outbox[5]) == LETTER;
    Three(w, ANSWERING[0], ANSWERING[1], ANSWERING[2]);
    assert ANSWERING == [ANSWERING[0], ANSWERING[1], ANSWERING[2]];
  }

  const REGRESSION: seq<Step> := OPENING + SENDING + RECEIVING + ANSWERING

  lemma LateAnswer(v: World)
    requires Retried(v)
    ensures var late := Transact(0, RelayOnlyDone(5));
            && Enabled(v, late) && !IsTimely(v, late)
            && IsOutgoing(v, 0, 7) && v.vaults[0].messages[7].status == Delivered
            && IsOutgoing(Apply(v, late), 0, 7) && Apply(v, late).vaults[0].messages[7].status == Sent
  {
  }

  /** The late answer finds the message delivered, and takes that back. */
  lemma DeliveredBecomesSent(w: World)
    requires Fresh(w)
    ensures IsRun(w, REGRESSION)
    ensures var v := After(w, REGRESSION);
            var late := Transact(0, RelayOnlyDone(5));
            && Enabled(v, late) && !IsTimely(v, late)
            && IsOutgoing(v, 0, 7) && v.vaults[0].messages[7].status == Delivered
            && IsOutgoing(Apply(v, late), 0, 7) && Apply(v, late).vaults[0].messages[7].status == Sent
  {
    hide Fresh, Ready, Stored, Answered, Retried, IsRun, After, Enabled, Apply, IsTimely;
    Opens(w);
    Sends(After(w, OPENING));
    RunConcat(w, OPENING, SENDING);
    Receives(After(w, OPENING + SENDING));
    RunConcat(w, OPENING + SENDING, RECEIVING);
    Retries(After(w, OPENING + SENDING + RECEIVING));
    RunConcat(w, OPENING + SENDING + RECEIVING, ANSWERING);
    LateAnswer(After(w, REGRESSION));
  }
}
