/** Receiving: the loop of syncMessages, one transaction per pending envelope. */
module Receiving {
  import opened Prelude
  import opened VaultTables
  import opened Databases
  import opened TorRouting
  import opened LocalDaemon

  datatype Outcome = Outcome(tables: Tables, acks: seq<EnvelopeId>, received: nat)

  /** One round: already seen, refused, rolled back, or committed and acknowledged. */
  function ProcessOne(o: Outcome, me: DeviceId, x: Envelope, now: nat, draw: Draw, fault: bool): Outcome {
    if x.id in o.tables.seen then o.(acks := o.acks + [x.id])
    else if fault || !Opens(o.tables, me, x) then o
    else Outcome(CommitReceive(o.tables, me, x, now, draw), o.acks + [x.id], o.received + 1)
  }

  function ProcessAll(t: Tables, me: DeviceId, xs: seq<Envelope>, now: nat, draws: seq<Draw>,
      faults: set<nat>): (o: Outcome)
    requires |draws| == |xs|
  {
    if xs == [] then Outcome(t, [], 0) else
    var n := |xs| - 1;
    ProcessOne(ProcessAll(t, me, xs[..n], now, draws[..n], faults), me, xs[n], now, draws[n], n in faults)
  }

  /** The points at which the transaction of one envelope can fail, its COMMIT included. */
  const POINTS := 6

  function Faults(failsAt: seq<nat>): set<nat> {
    set i | 0 <= i < |failsAt| && failsAt[i] < POINTS
  }

  // ----- what one committed envelope does, row by row -----

  /** The receipt names this row: the text it acknowledges, sent to the receipt's author. */
  ghost predicate Acknowledged(t: Tables, peer: DeviceId, named: MessageId, m: MessageId) {
    m == named && m in t.messages && t.messages[m].outgoing && t.messages[m].peer == peer
  }

  /** Everything sent in the conversation up to the named message, which must still be there. */
  ghost predicate Covered(t: Tables, peer: DeviceId, named: MessageId, m: MessageId) {
    && m in t.messages && t.messages[m].outgoing && t.messages[m].peer == peer
    && Acknowledged(t, peer, named, named) && t.messages[m].rowid <= t.messages[named].rowid
  }

  /** A status changes in exactly the rows of `moved`. */
  ghost predicate OnlyStatus(t: Tables, u: Tables, moved: set<MessageId>, status: Status) {
    && u.messages.Keys == t.messages.Keys && moved <= t.messages.Keys
    && forall m :: m in t.messages ==>
         u.messages[m] == if m in moved then t.messages[m].(status := status) else t.messages[m]
  }

  /** The new message row, with its timer, and the receipt that goes back. */
  ghost predicate TextStored(t: Tables, u: Tables, me: DeviceId, x: Envelope, now: nat, draw: Draw)
    requires x.ciphertext.payload.Text? && x.sender in t.contacts
  {
    var Text(m, ttl) := x.ciphertext.payload;
    var Contact(changed, RatchetKey(session, index)) := t.contacts[x.sender];
    var deadline := if ttl == 3600 || ttl == 86400 || ttl == 604800 then Some(now + 1000 * ttl) else None;
    && u.messages == t.messages[draw.message := Message(draw.rowid, x.sender, false, Received, deadline, Some(x.id), Some(m))]
    && u.contacts == t.contacts[x.sender := Contact(changed, RatchetKey(session, index + 1))]
    && u.controls == t.controls[draw.receipt := ControlRow(draw.receiptRowid, x.sender,
          Ciphertext(me, x.sender, RatchetKey(session, index), DeliveredReceipt(m)), now, None)]
  }

  /**
   The whole effect of one envelope: its key is used up, its id is seen, and beyond that
   a text is stored and answered, a `delivered` receipt moves its message if that was
   queued or sent, a `read` receipt moves everything it covers, and the rest changes
   nothing.
   */
  ghost predicate IsReceived(t: Tables, u: Tables, me: DeviceId, x: Envelope, now: nat, draw: Draw)
    requires x.sender in t.contacts
  {
    && u.consumed == t.consumed + {x.ciphertext.key} && u.seen == t.seen + {x.id}
    && u.inbox == t.inbox && u.outbox == t.outbox
    && (!x.ciphertext.payload.Text? ==> u.contacts == t.contacts && u.controls == t.controls)
    && match x.ciphertext.payload
       case Text(_, _) => TextStored(t, u, me, x, now, draw)
       case DeliveredReceipt(named) =>
         var moved := set m | m in t.messages && Acknowledged(t, x.sender, named, m)
                              && (t.messages[m].status == Queued || t.messages[m].status == Sent);
         OnlyStatus(t, u, moved, Delivered)
       case ReadReceipt(named) =>
         var moved := set m | m in t.messages && Covered(t, x.sender, named, m);
         OnlyStatus(t, u, moved, Read)
       case _ => u.messages == t.messages
  }

  /** A ciphertext of a trusted contact, for this device, whose key was never used. */
  ghost predicate CanBeOpened(t: Tables, me: DeviceId, x: Envelope) {
    && x.sender in t.contacts && !t.contacts[x.sender].identityChanged
    && x.ciphertext.sender == x.sender && x.ciphertext.recipient == me && x.ciphertext.key !in t.consumed
  }

  lemma CommitIsReceived(t: Tables, me: DeviceId, x: Envelope, now: nat, draw: Draw)
    requires Opens(t, me, x)
    ensures IsReceived(t, CommitReceive(t, me, x, now, draw), me, x, now, draw)
  {
    var unlocked := ConsumeKey(t, x.ciphertext.key);
    match x.ciphertext.payload
    case Text(m, ttl) => assert 1000 * ttl == ttl * 1000;
    case DeliveredReceipt(named) => assert ApplyDelivered(unlocked, x.sender, named).messages.Keys == t.messages.Keys;
    case ReadReceipt(named) => assert ApplyRead(unlocked, x.sender, named).messages.Keys == t.messages.Keys;
    case _ =>
  }

  /** The message row, the link to the sender's message, and the receipt. */
  method StoreText(db: VaultDatabase, me: DeviceId, x: Envelope, now: nat, draw: Draw, failsAt: nat) returns (stored: bool)
    requires x.ciphertext.payload.Text? && Usable(db.tables, x.sender)
    modifies db`tables
    ensures stored <==> failsAt != 2 && failsAt != 3
    ensures stored ==>
              db.tables == CommitControl(StoreReceived(old(db.tables), x, now, draw), me, x.sender, draw.receipt,
                                         DeliveredReceipt(x.ciphertext.payload.message), now, draw.receiptRowid)
  {
    var Text(m, ttl) := x.ciphertext.payload;
    var deadline := if ttl in {3600, 86400, 604800} then Some(now + ttl * 1000) else None;
    var row := Message(draw.rowid, x.sender, false, Received, deadline, Some(x.id), None);
    db.tables := db.tables.(messages := db.tables.messages[draw.message := row]);
    if failsAt == 2 { return false; }
    db.tables := db.tables.(messages := db.tables.messages[draw.message := row.(remote := Some(m))]);
    if failsAt == 3 { return false; }
    var queued := QueueControl(db, me, x.sender, draw.receipt, DeliveredReceipt(m), now, draw.receiptRowid);
    stored := true;
  }

  /**
   The body of one transaction, statement by statement; a failure at any of them rolls
   everything back, the consumed key and the queued receipt included.
   */
  method ReceiveOne(db: VaultDatabase, me: DeviceId, x: Envelope, now: nat, draw: Draw, failsAt: nat)
    returns (committed: bool)
    requires db.savepoint == None && x.id !in db.tables.seen && Usable(db.tables, x.sender)
    modifies db
    ensures db.savepoint == None
    ensures committed <==> failsAt >= POINTS && CanBeOpened(old(db.tables), me, x)
    ensures if committed then IsReceived(old(db.tables), db.tables, me, x, now, draw) else db.tables == old(db.tables)
    ensures committed ==> Opens(old(db.tables), me, x) && db.tables == CommitReceive(old(db.tables), me, x, now, draw)
  {
    if Opens(db.tables, me, x) { CommitIsReceived(db.tables, me, x, now, draw); }
    hide IsReceived;
    db.Begin();
    if !Decrypts(db.tables, me, x) || failsAt == 0 { db.Rollback(); return false; }
    db.tables := db.tables.(consumed := db.tables.consumed + {x.ciphertext.key});
    if failsAt == 1 { db.Rollback(); return false; }
    match x.ciphertext.payload {
      case Text(_, _) =>
        var stored := StoreText(db, me, x, now, draw, failsAt);
        if !stored { db.Rollback(); return false; }
      case DeliveredReceipt(m) => db.tables := ApplyDelivered(db.tables, x.sender, m);
      case ReadReceipt(m) => db.tables := ApplyRead(db.tables, x.sender, m);
      case Typing(_) =>
      case Profile =>
    }
    if failsAt <= 4 { db.Rollback(); return false; }
    db.tables := db.tables.(seen := db.tables.seen + {x.id});
    if failsAt == 5 { db.Rollback(); return false; }
    db.Commit();
    committed := true;
  }

  /** One round of the loop: already seen, broken off and rolled back, not to be opened, or received. */
  ghost predicate IsRound(t: Tables, u: Tables, me: DeviceId, x: Envelope, now: nat, draw: Draw, fails: bool) {
    if x.id in t.seen || fails || !CanBeOpened(t, me, x) then u == t else IsReceived(t, u, me, x, now, draw)
  }

  /**
   The loop, through the table contents `rounds` between its rounds: exactly the
   acknowledged envelopes are the ones marked seen.
   */
  method SyncMessages(db: VaultDatabase, me: DeviceId, pending: seq<Envelope>, now: nat, draws: seq<Draw>,
      failsAt: seq<nat>)
    returns (received: nat, acks: seq<EnvelopeId>, ghost rounds: seq<Tables>)
    requires db.savepoint == None && |draws| == |pending| == |failsAt|
    modifies db
    ensures db.savepoint == None
    ensures |rounds| == |pending| + 1 && rounds[0] == old(db.tables) && rounds[|pending|] == db.tables
    ensures forall i :: 0 <= i < |pending| ==>
              IsRound(rounds[i], rounds[i + 1], me, pending[i], now, draws[i], failsAt[i] < POINTS)
    ensures Outcome(db.tables, acks, received) == ProcessAll(old(db.tables), me, pending, now, draws, Faults(failsAt))
    ensures forall i :: 0 <= i < |pending| ==> (pending[i].id in acks <==> pending[i].id in db.tables.seen)
    ensures forall e :: e in acks ==> e in db.tables.seen
    ensures db.tables.inbox == old(db.tables.inbox) && db.tables.outbox == old(db.tables.outbox)
  {
    hide CommitReceive, Opens, IsReceived, CanBeOpened;
    received, acks, rounds := 0, [], [db.tables];
    for i := 0 to |pending|
      invariant db.savepoint == None
      invariant |rounds| == i + 1 && rounds[0] == old(db.tables) && rounds[i] == db.tables
      invariant forall k :: 0 <= k < i ==>
                  IsRound(rounds[k], rounds[k + 1], me, pending[k], now, draws[k], failsAt[k] < POINTS)
      invariant Outcome(db.tables, acks, received) == ProcessAll(old(db.tables), me, pending[..i], now, draws[..i], Faults(failsAt))
    {
      assert pending[..i + 1][..i] == pending[..i] && draws[..i + 1][..i] == draws[..i];
      var x := pending[i];
      if x.id in db.tables.seen {
        acks := acks + [x.id];
        rounds := rounds + [db.tables];
        continue;
      }
      UsableFirst(db.tables, me, x);
      if !Usable(db.tables, x.sender) {
        rounds := rounds + [db.tables];
        continue;
      }
      var committed := ReceiveOne(db, me, x, now, draws[i], failsAt[i]);
      rounds := rounds + [db.tables];
      if committed {
        received := received + 1;
        acks := acks + [x.id];
      }
    }
    assert pending[..|pending|] == pending && draws[..|draws|] == draws;
    AcksAreSeen(old(db.tables), me, pending, now, draws, Faults(failsAt));
  }

  lemma UsableFirst(t: Tables, me: DeviceId, x: Envelope)
    ensures Opens(t, me, x) ==> Usable(t, x.sender)
    ensures CanBeOpened(t, me, x) ==> Usable(t, x.sender)
    ensures Opens(t, me, x) <==> x.id !in t.seen && CanBeOpened(t, me, x)
  {
  }

  /** What decides whether an envelope can be opened: trust and used keys, nothing else. */
  ghost predicate SameTrust(t: Tables, u: Tables) {
    u.contacts.Keys == t.contacts.Keys && forall d :: d in t.contacts ==> u.contacts[d].identityChanged == t.contacts[d].identityChanged
  }

  lemma RoundKeeps(o: Outcome, me: DeviceId, x: Envelope, now: nat, draw: Draw, fault: bool)
    ensures var p := ProcessOne(o, me, x, now, draw, fault);
            && SameTrust(o.tables, p.tables)
            && (if x.id !in o.tables.seen && !fault && CanBeOpened(o.tables, me, x)
                then p.tables.seen == o.tables.seen + {x.id} && p.tables.consumed == o.tables.consumed + {x.ciphertext.key}
                     && p.received == o.received + 1
                else p.tables == o.tables && p.received == o.received)
  {
    UsableFirst(o.tables, me, x);
    if Opens(o.tables, me, x) { CommitIsReceived(o.tables, me, x, now, draw); }
  }

  /** One id, one envelope; one key, one id. */
  ghost predicate Distinct(xs: seq<Envelope>) {
    forall i, j :: 0 <= i < j < |xs| ==>
      if xs[i].id == xs[j].id then xs[i] == xs[j] else xs[i].ciphertext.key != xs[j].ciphertext.key
  }

  /** Among these, this one had a round that was not broken off. */
  ghost predicate HadItsRound(xs: seq<Envelope>, faults: set<nat>, x: Envelope) {
    exists j :: 0 <= j < |xs| && xs[j] == x && j !in faults
  }

  /** What the loop has opened after these envelopes, told from the tables before it. */
  ghost predicate OpenedExactly(t: Tables, u: Tables, me: DeviceId, xs: seq<Envelope>, faults: set<nat>) {
    && SameTrust(t, u) && t.seen <= u.seen
    && (forall i :: 0 <= i < |xs| ==>
          (xs[i].id in u.seen <==> xs[i].id in t.seen || (CanBeOpened(t, me, xs[i]) && HadItsRound(xs, faults, xs[i]))))
    && (forall e :: e in u.seen - t.seen ==> exists i :: 0 <= i < |xs| && xs[i].id == e)
    && t.consumed <= u.consumed
    && (forall k :: k in u.consumed - t.consumed ==>
          exists i :: 0 <= i < |xs| && xs[i].ciphertext.key == k && xs[i].id in u.seen)
  }

  /** Before its round, an envelope was seen for one of the two reasons, and its chances are what they were. */
  lemma BeforeItsRound(t: Tables, u: Tables, me: DeviceId, xs: seq<Envelope>, faults: set<nat>)
    requires xs != [] && Distinct(xs) && OpenedExactly(t, u, me, xs[..|xs| - 1], faults)
    ensures var n := |xs| - 1; var x := xs[n];
            && (x.id in u.seen <==> x.id in t.seen || (CanBeOpened(t, me, x) && HadItsRound(xs[..n], faults, x)))
            && (x.id !in u.seen ==> (CanBeOpened(u, me, x) <==> CanBeOpened(t, me, x)))
  {
    var n := |xs| - 1;
    var x, before := xs[n], xs[..n];
    assert forall i :: 0 <= i < n ==> before[i] == xs[i];
    if CanBeOpened(t, me, x) && x.ciphertext.key in u.consumed {
      assert x.ciphertext.key in u.consumed - t.consumed;
      var j :| 0 <= j < n && before[j].ciphertext.key == x.ciphertext.key && before[j].id in u.seen;
      assert xs[j].id == x.id;
    }
    hide CanBeOpened;
    if HadItsRound(before, faults, x) {
      var j :| 0 <= j < n && before[j] == x && j !in faults;
    }
    if x.id in u.seen && x.id !in t.seen {
      assert x.id in u.seen - t.seen;
      var j :| 0 <= j < n && before[j].id == x.id;
      assert xs[j] == x;
      assert CanBeOpened(t, me, before[j]) && HadItsRound(before, faults, before[j]);
    }
  }

  lemma NextRound(t: Tables, u: Tables, v: Tables, me: DeviceId, xs: seq<Envelope>, faults: set<nat>)
    requires xs != [] && Distinct(xs)
    requires OpenedExactly(t, u, me, xs[..|xs| - 1], faults) && SameTrust(u, v)
    requires var n := |xs| - 1; var x := xs[n];
             if x.id !in u.seen && n !in faults && CanBeOpened(u, me, x)
             then v.seen == u.seen + {x.id} && v.consumed == u.consumed + {x.ciphertext.key}
             else v.seen == u.seen && v.consumed == u.consumed
    ensures OpenedExactly(t, v, me, xs, faults)
  {
    var n := |xs| - 1;
    var x, before := xs[n], xs[..n];
    assert forall i :: 0 <= i < n ==> before[i] == xs[i];
    hide CanBeOpened, HadItsRound;
    BeforeItsRound(t, u, me, xs, faults);
    forall i | 0 <= i <= n
      ensures xs[i].id in v.seen <==> xs[i].id in t.seen || (CanBeOpened(t, me, xs[i]) && HadItsRound(xs, faults, xs[i]))
    {
      RoundOf(xs, faults, xs[i]);
      if i < n {
        assert xs[i].id in u.seen <==>
               xs[i].id in t.seen || (CanBeOpened(t, me, before[i]) && HadItsRound(before, faults, before[i]));
      }
    }
    forall e | e in v.seen - t.seen ensures exists i :: 0 <= i < |xs| && xs[i].id == e {
      if e in u.seen {
        assert e in u.seen - t.seen;
        var i :| 0 <= i < n && before[i].id == e;
        assert xs[i].id == e;
      } else {
        assert xs[n].id == e;
      }
    }
    forall k | k in v.consumed - t.consumed
      ensures exists i :: 0 <= i < |xs| && xs[i].ciphertext.key == k && xs[i].id in v.seen
    {
      if k in u.consumed {
        assert k in u.consumed - t.consumed;
        var i :| 0 <= i < n && before[i].ciphertext.key == k && before[i].id in u.seen;
        assert xs[i].ciphertext.key == k && xs[i].id in v.seen;
      } else {
        assert xs[n].ciphertext.key == k && xs[n].id in v.seen;
      }
    }
  }

  lemma RoundOf(xs: seq<Envelope>, faults: set<nat>, x: Envelope)
    requires xs != []
    ensures var n := |xs| - 1;
            HadItsRound(xs, faults, x) <==> HadItsRound(xs[..n], faults, x) || (n !in faults && xs[n] == x)
  {
    var n := |xs| - 1;
    if HadItsRound(xs[..n], faults, x) {
      var j :| 0 <= j < n && xs[..n][j] == x && j !in faults;
      assert xs[j] == x;
    }
    if j :| 0 <= j < n && xs[j] == x && j !in faults { assert xs[..n][j] == x; }
  }

  /**
   What a whole synchronisation opens: exactly the envelopes of trusted contacts with
   unused keys whose transaction went through; and it counts them.
   */
  lemma {:induction false} SyncOpensExactly(t: Tables, me: DeviceId, xs: seq<Envelope>, now: nat, draws: seq<Draw>,
      faults: set<nat>)
    requires |draws| == |xs| && Distinct(xs)
    ensures var o := ProcessAll(t, me, xs, now, draws, faults);
            OpenedExactly(t, o.tables, me, xs, faults) && o.received == |o.tables.seen - t.seen|
  {
    hide OpenedExactly, CanBeOpened, ProcessOne;
    if xs == [] {
      NothingOpened(t, me, faults);
    } else {
      var n := |xs| - 1;
      var before := ProcessAll(t, me, xs[..n], now, draws[..n], faults);
      var o := ProcessAll(t, me, xs, now, draws, faults);
      SyncOpensExactly(t, me, xs[..n], now, draws[..n], faults);
      RoundKeeps(before, me, xs[n], now, draws[n], n in faults);
      NextRound(t, before.tables, o.tables, me, xs, faults);
      AcksAreSeen(t, me, xs[..n], now, draws[..n], faults);
      if o.received != before.received {
        assert o.tables.seen - t.seen == (before.tables.seen - t.seen) + {xs[n].id};
      }
    }
  }

  lemma NothingOpened(t: Tables, me: DeviceId, faults: set<nat>)
    ensures OpenedExactly(t, t, me, [], faults)
  {
  }

  lemma OneRound(o: Outcome, me: DeviceId, x: Envelope, now: nat, draw: Draw, fault: bool)
    ensures var p := ProcessOne(o, me, x, now, draw, fault);
            && o.tables.seen <= p.tables.seen <= o.tables.seen + {x.id}
            && (x.id in p.acks || p.acks == o.acks) && (p.acks == o.acks || p.acks == o.acks + [x.id])
            && (p.acks == o.acks + [x.id] <==> x.id in p.tables.seen) && (p.acks == o.acks ==> p == o)
            && p.tables.inbox == o.tables.inbox && p.tables.outbox == o.tables.outbox
  {
    assert |o.acks + [x.id]| == |o.acks| + 1;
  }

  /** What is acknowledged is seen, and what is pending and seen is acknowledged. */
  lemma {:induction false} AcksAreSeen(t: Tables, me: DeviceId, xs: seq<Envelope>, now: nat, draws: seq<Draw>,
      faults: set<nat>)
    requires |draws| == |xs|
    ensures var o := ProcessAll(t, me, xs, now, draws, faults);
            && t.seen <= o.tables.seen
            && (forall e :: e in o.acks ==> e in o.tables.seen)
            && (forall i :: 0 <= i < |xs| && xs[i].id in o.tables.seen ==> xs[i].id in o.acks)
            && (forall e :: e in o.tables.seen - t.seen ==> e in o.acks)
            && o.tables.inbox == t.inbox && o.tables.outbox == t.outbox
  {
    hide ProcessOne;
    if xs != [] {
      var n := |xs| - 1;
      AcksAreSeen(t, me, xs[..n], now, draws[..n], faults);
      OneRound(ProcessAll(t, me, xs[..n], now, draws[..n], faults), me, xs[n], now, draws[n], n in faults);
      assert forall i :: 0 <= i < n ==> xs[i] == xs[..n][i];
    }
  }

  /** Redelivery after everything was seen acknowledges again and changes no table. */
  lemma {:induction false} RedeliveryChangesNothing(t: Tables, me: DeviceId, xs: seq<Envelope>, now: nat,
      draws: seq<Draw>, faults: set<nat>)
    requires |draws| == |xs| && forall i :: 0 <= i < |xs| ==> xs[i].id in t.seen
    ensures var o := ProcessAll(t, me, xs, now, draws, faults);
            o.tables == t && o.received == 0 && o.acks == seq(|xs|, i requires 0 <= i < |xs| => xs[i].id)
  {
    if xs != [] {
      var n := |xs| - 1;
      RedeliveryChangesNothing(t, me, xs[..n], now, draws[..n], faults);
    }
  }
}
