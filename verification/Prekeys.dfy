/**
 One-time prekeys on the relay: uploads that overwrite rows in place, and any number of
 concurrent bundle transactions that pick a row with FOR UPDATE SKIP LOCKED and mark it
 consumed when they commit.

 Uploads are numbered in the order they took effect. What is handed out once is an
 upload; the same bytes uploaded again are a new one.
 */
module Prekeys {
  import opened Prelude
  import opened Databases

  type DeviceId = nat
  type PublicKey = seq<bv8>

  datatype Table = Classical | PostQuantum

  datatype Kind = OneTime | LastResort

  /** The unique constraint: a device's prekey id in one of the two tables. */
  datatype Slot = Slot(table: Table, device: DeviceId, id: nat)

  datatype Row = Row(kind: Kind, key: PublicKey, consumed: bool)

  type Rows = map<Slot, Row>

  datatype Item = Item(slot: Slot, kind: Kind, key: PublicKey)

  /** INSERT ... ON CONFLICT DO UPDATE: an existing row keeps its kind. */
  function Upsert(rows: Rows, item: Item): Rows {
    if item.slot in rows then rows[item.slot := Row(rows[item.slot].kind, item.key, false)]
    else rows[item.slot := Row(item.kind, item.key, false)]
  }

  function UpsertAll(rows: Rows, items: seq<Item>): Rows {
    if items == [] then rows else Upsert(UpsertAll(rows, items[..|items| - 1]), items[|items| - 1])
  }

  /** The rows a bundle may hand out. */
  predicate Available(rows: Rows, slot: Slot) {
    slot in rows && !rows[slot].consumed
  }

  function Consume(rows: Rows, slots: set<Slot>): Rows {
    map s | s in rows :: if s in slots then rows[s].(consumed := true) else rows[s]
  }

  // ----- the upload route -----

  /** One transaction: all rows, or after a failure none. */
  method Upload(db: Database<Rows>, items: seq<Item>, failsAt: nat) returns (ok: bool)
    requires db.savepoint == None
    modifies db
    ensures db.savepoint == None && (ok <==> failsAt > |items|)
    ensures db.tables == if ok then UpsertAll(old(db.tables), items) else old(db.tables)
  {
    db.Begin();
    for i := 0 to |items|
      invariant db.savepoint == Some(old(db.tables)) && db.tables == UpsertAll(old(db.tables), items[..i])
                && failsAt >= i
    {
      if failsAt == i { db.Rollback(); return false; }
      assert items[..i + 1][..i] == items[..i];
      var item := items[i];
      var kind := if item.slot in db.tables then db.tables[item.slot].kind else item.kind;
      db.tables := db.tables[item.slot := Row(kind, item.key, false)];
    }
    assert items[..|items|] == items;
    if failsAt == |items| { db.Rollback(); return false; }
    db.Commit();
    ok := true;
  }

  // ----- concurrent bundles -----

  /** A bundle transaction and the rows it holds locked. */
  datatype Bundle = Bundle(device: DeviceId, classical: Option<Slot>, postQuantum: Option<Slot>)

  function Taken(b: Bundle): set<Slot> {
    (if b.classical.Some? then {b.classical.value} else {}) + (if b.postQuantum.Some? then {b.postQuantum.value} else {})
  }

  /**
   `origin` is the upload each row holds, `handed` the commit that handed an upload out,
   and `replaced` are the uploads overwritten before anyone received them.
   */
  datatype World = World(rows: Rows, bundles: map<nat, Bundle>, uploads: seq<Item>, origin: map<Slot, nat>,
      handed: map<nat, nat>, replaced: set<nat>, commits: nat)

  datatype Step =
    | Begin(id: nat, device: DeviceId)
    | Take(id: nat, slot: Slot)
    | Commit(id: nat)
    | Abort(id: nat)
    | UploadOne(item: Item)

  ghost predicate Locked(w: World, slot: Slot) {
    exists id :: id in w.bundles && slot in Taken(w.bundles[id])
  }

  predicate IsLastResortOf(rows: Rows, s: Slot, d: DeviceId) {
    s in rows && s.table == PostQuantum && s.device == d && rows[s].kind == LastResort
  }

  ghost predicate HasLastResort(rows: Rows, d: DeviceId) {
    exists s :: IsLastResortOf(rows, s, d)
  }

  /**
   SKIP LOCKED finds an available one-time row nobody holds, or nothing. Without a
   last-resort row a bundle is rolled back. An upload waits for the rows it overwrites.
   */
  ghost predicate Enabled(w: World, s: Step) {
    match s
    case Begin(id, _) => id !in w.bundles
    case Take(id, slot) =>
      && id in w.bundles && slot.device == w.bundles[id].device
      && (if slot.table == Classical then w.bundles[id].classical == None else w.bundles[id].postQuantum == None)
      && Available(w.rows, slot) && w.rows[slot].kind == OneTime && !Locked(w, slot)
    case Commit(id) => id in w.bundles && HasLastResort(w.rows, w.bundles[id].device)
    case Abort(id) => id in w.bundles
    case UploadOne(item) => !Locked(w, item.slot) && (item.kind == LastResort ==> item.slot.table == PostQuantum)
  }

  function Origins(w: World, slots: set<Slot>): set<nat> {
    set s | s in slots && s in w.origin :: w.origin[s]
  }

  ghost function Apply(w: World, s: Step): World
    requires Enabled(w, s)
  {
    match s
    case Begin(id, device) => w.(bundles := w.bundles[id := Bundle(device, None, None)])
    case Take(id, slot) =>
      var b := w.bundles[id];
      w.(bundles := w.bundles[id := if slot.table == Classical then b.(classical := Some(slot)) else b.(postQuantum := Some(slot))])
    case Commit(id) =>
      var taken := Taken(w.bundles[id]);
      var out := Origins(w, taken);
      w.(rows := Consume(w.rows, taken), bundles := w.bundles - {id}, commits := w.commits + 1,
         handed := map n | n in w.handed.Keys + out :: if n in out then w.commits else w.handed[n])
    case Abort(id) => w.(bundles := w.bundles - {id})
    case UploadOne(item) =>
      w.(rows := Upsert(w.rows, item), uploads := w.uploads + [item], origin := w.origin[item.slot := |w.uploads|],
         replaced := if Available(w.rows, item.slot) && item.slot in w.origin then w.replaced + {w.origin[item.slot]}
                     else w.replaced)
  }

  ghost predicate IsRun(w: World, steps: seq<Step>)
    decreases |steps|
  {
    steps == [] || (Enabled(w, steps[0]) && IsRun(Apply(w, steps[0]), steps[1..]))
  }

  ghost function After(w: World, steps: seq<Step>): World
    requires IsRun(w, steps)
    decreases |steps|
  {
    if steps == [] then w else After(Apply(w, steps[0]), steps[1..])
  }

  ghost predicate Initial(w: World) {
    w == World(map[], map[], [], map[], map[], {}, 0)
  }

  /** The upload is what its row holds, and has not been handed out. */
  predicate Waits(w: World, n: nat) {
    && n < |w.uploads| && w.uploads[n].slot in w.origin && w.origin[w.uploads[n].slot] == n
    && Available(w.rows, w.uploads[n].slot)
  }

  predicate IsFirst(uploads: seq<Item>, n: int) {
    0 <= n < |uploads| && forall m :: 0 <= m < n ==> uploads[m].slot != uploads[n].slot
  }

  /** A row holds the latest upload to its slot and has the kind of the first. */
  ghost predicate RowsOk(w: World) {
    && w.origin.Keys == w.rows.Keys
    && (forall s :: s in w.rows ==> w.origin[s] < |w.uploads| && w.uploads[w.origin[s]].slot == s
                                    && w.uploads[w.origin[s]].key == w.rows[s].key)
    && (forall n :: 0 <= n < |w.uploads| ==> w.uploads[n].slot in w.rows && n <= w.origin[w.uploads[n].slot])
    && (forall n :: IsFirst(w.uploads, n) ==> w.rows[w.uploads[n].slot].kind == w.uploads[n].kind)
  }

  ghost predicate FlagsOk(w: World) {
    && w.origin.Keys == w.rows.Keys
    && (forall s :: s in w.rows ==> (w.rows[s].consumed <==> w.origin[s] in w.handed) && w.origin[s] !in w.replaced)
    && (forall s :: s in w.rows && w.rows[s].kind == LastResort ==> !w.rows[s].consumed && s.table == PostQuantum)
  }

  ghost predicate BundleOk(rows: Rows, b: Bundle) {
    && (forall s :: s in Taken(b) ==> Available(rows, s) && rows[s].kind == OneTime && s.device == b.device)
    && (b.classical.Some? ==> b.classical.value.table == Classical)
    && (b.postQuantum.Some? ==> b.postQuantum.value.table == PostQuantum)
  }

  /** Every upload is in exactly one place: handed out, replaced, or still waiting. */
  ghost predicate Partition(w: World) {
    && w.handed.Keys !! w.replaced
    && (forall n :: n in w.handed ==> n < |w.uploads| && w.handed[n] < w.commits)
    && (forall n :: n in w.replaced ==> n < |w.uploads|)
    && (forall n :: 0 <= n < |w.uploads| && n !in w.handed && n !in w.replaced ==> Waits(w, n))
  }

  ghost predicate Invariant(w: World) {
    && RowsOk(w) && FlagsOk(w) && Partition(w) && (forall id :: id in w.bundles ==> BundleOk(w.rows, w.bundles[id]))
    && (forall i, j :: i in w.bundles && j in w.bundles && i != j ==> Taken(w.bundles[i]) !! Taken(w.bundles[j]))
  }

  /** Rows hold different uploads, so an upload is handed out exactly with its row. */
  lemma OriginsFollowRows(w: World, slots: set<Slot>)
    requires RowsOk(w)
    ensures forall s :: s in w.rows ==> (w.origin[s] in Origins(w, slots) <==> s in slots)
  {
  }

  lemma CommitKeepsRows(w: World, id: nat)
    requires RowsOk(w) && Enabled(w, Commit(id))
    ensures RowsOk(Apply(w, Commit(id)))
  {
    hide Origins, Taken, IsFirst, HasLastResort;
  }

  lemma CommitKeepsFlags(w: World, id: nat)
    requires Invariant(w) && Enabled(w, Commit(id))
    ensures FlagsOk(Apply(w, Commit(id)))
  {
    hide Waits, Origins, Taken, IsFirst, HasLastResort, Partition;
    assert BundleOk(w.rows, w.bundles[id]);
    OriginsFollowRows(w, Taken(w.bundles[id]));
  }

  lemma UploadKeepsRows(w: World, item: Item)
    requires Invariant(w) && Enabled(w, UploadOne(item))
    ensures RowsOk(Apply(w, UploadOne(item)))
  {
    hide Waits, BundleOk, FlagsOk, Partition, Locked, Available, IsFirst, Taken, HasLastResort;
    UploadKeepsKinds(w, item);
    UploadKeepsOrigins(w, item);
  }

  lemma UploadKeepsOrigins(w: World, item: Item)
    requires RowsOk(w) && Enabled(w, UploadOne(item))
    ensures var v := Apply(w, UploadOne(item));
            && v.origin.Keys == v.rows.Keys
            && (forall s :: s in v.rows ==> v.origin[s] < |v.uploads| && v.uploads[v.origin[s]].slot == s
                                            && v.uploads[v.origin[s]].key == v.rows[s].key)
            && (forall n :: 0 <= n < |v.uploads| ==> v.uploads[n].slot in v.rows && n <= v.origin[v.uploads[n].slot])
  {
    hide Available, Locked, IsFirst;
  }

  lemma UploadKeepsKinds(w: World, item: Item)
    requires RowsOk(w) && Enabled(w, UploadOne(item))
    ensures var v := Apply(w, UploadOne(item));
            forall n :: IsFirst(v.uploads, n) ==>
              v.uploads[n].slot in v.rows && v.rows[v.uploads[n].slot].kind == v.uploads[n].kind
  {
    hide Locked, Available;
    var v := Apply(w, UploadOne(item));
    if item.slot in w.rows { assert v.uploads[w.origin[item.slot]].slot == item.slot; }
    forall n | IsFirst(v.uploads, n)
      ensures v.uploads[n].slot in v.rows && v.rows[v.uploads[n].slot].kind == v.uploads[n].kind {
      if n < |w.uploads| {
        assert forall m :: 0 <= m < n ==> w.uploads[m] == v.uploads[m];
        assert IsFirst(w.uploads, n);
      }
    }
  }

  lemma UploadKeepsFlags(w: World, item: Item)
    requires Invariant(w) && Enabled(w, UploadOne(item))
    ensures FlagsOk(Apply(w, UploadOne(item)))
  {
    hide Waits, BundleOk, IsFirst;
  }

  lemma CommitKeepsWaiting(w: World, id: nat)
    requires RowsOk(w) && Partition(w) && Enabled(w, Commit(id))
    ensures var v := Apply(w, Commit(id));
            forall n :: 0 <= n < |v.uploads| && n !in v.handed && n !in v.replaced ==> Waits(v, n)
  {
    hide IsFirst, Taken;
    var taken := Taken(w.bundles[id]);
    OriginsFollowRows(w, taken);
    var v := Apply(w, Commit(id));
    forall n | 0 <= n < |v.uploads| && n !in v.handed && n !in v.replaced ensures Waits(v, n) {
      assert Waits(w, n);
      assert v.uploads[n].slot !in taken;
    }
  }

  lemma CommitKeepsPartition(w: World, id: nat)
    requires Invariant(w) && Enabled(w, Commit(id))
    ensures Partition(Apply(w, Commit(id)))
  {
    hide IsFirst, Taken, Waits, HasLastResort, Available;
    CommitKeepsWaiting(w, id);
  }

  lemma UploadKeepsPartition(w: World, item: Item)
    requires Invariant(w) && Enabled(w, UploadOne(item))
    ensures Partition(Apply(w, UploadOne(item)))
  {
    hide IsFirst, BundleOk;
    var v := Apply(w, UploadOne(item));
    forall n | 0 <= n < |v.uploads| && n !in v.handed && n !in v.replaced ensures Waits(v, n) {
      if n < |w.uploads| { assert Waits(w, n); }
    }
  }

  lemma StepKeepsBundle(w: World, s: Step, id: nat)
    requires Invariant(w) && Enabled(w, s) && id in Apply(w, s).bundles
    ensures BundleOk(Apply(w, s).rows, Apply(w, s).bundles[id])
  {
    hide RowsOk, FlagsOk, Partition, BundleOk, Consume, Upsert, Taken;
    match s
    case Begin(_, device) => NewBundle(w.rows, device);
    case Take(i, slot) => if i == id { TakeKeepsBundle(w.rows, w.bundles[id], slot); }
    case Commit(i) => ConsumeKeepsBundle(w.rows, w.bundles[id], Taken(w.bundles[i]));
    case Abort(_) =>
    case UploadOne(item) => UpsertKeepsBundle(w.rows, w.bundles[id], item);
  }

  lemma NewBundle(rows: Rows, device: DeviceId)
    ensures BundleOk(rows, Bundle(device, None, None))
  {
  }

  lemma TakeKeepsBundle(rows: Rows, b: Bundle, slot: Slot)
    requires BundleOk(rows, b) && Available(rows, slot) && rows[slot].kind == OneTime && slot.device == b.device
    ensures BundleOk(rows, if slot.table == Classical then b.(classical := Some(slot)) else b.(postQuantum := Some(slot)))
  {
  }

  lemma ConsumeKeepsBundle(rows: Rows, b: Bundle, slots: set<Slot>)
    requires BundleOk(rows, b) && Taken(b) !! slots
    ensures BundleOk(Consume(rows, slots), b)
  {
  }

  lemma UpsertKeepsBundle(rows: Rows, b: Bundle, item: Item)
    requires BundleOk(rows, b) && item.slot !in Taken(b)
    ensures BundleOk(Upsert(rows, item), b)
  {
  }

  lemma StepKeepsDisjoint(w: World, s: Step)
    requires Invariant(w) && Enabled(w, s)
    ensures var b := Apply(w, s).bundles; forall i, j :: i in b && j in b && i != j ==> Taken(b[i]) !! Taken(b[j])
  {
    hide RowsOk, FlagsOk, Partition, BundleOk;
    if s.Take? { assert forall i :: i in w.bundles ==> s.slot !in Taken(w.bundles[i]); }
  }

  lemma BundlesAside(w: World, bundles: map<nat, Bundle>)
    ensures var v := w.(bundles := bundles);
            (RowsOk(w) ==> RowsOk(v)) && (FlagsOk(w) ==> FlagsOk(v)) && (Partition(w) ==> Partition(v))
  {
    hide IsFirst;
    assert forall n :: Waits(w, n) ==> Waits(w.(bundles := bundles), n);
  }

  lemma InitialIsInvariant(w: World)
    requires Initial(w)
    ensures Invariant(w)
  {
  }

  lemma StepKeepsTables(w: World, s: Step)
    requires Invariant(w) && Enabled(w, s)
    ensures RowsOk(Apply(w, s)) && FlagsOk(Apply(w, s)) && Partition(Apply(w, s))
  {
    hide BundleOk, RowsOk, FlagsOk, Partition, Locked, Taken, HasLastResort;
    match s
    case Commit(id) =>
      CommitKeepsRows(w, id);
      CommitKeepsFlags(w, id);
      CommitKeepsPartition(w, id);
    case UploadOne(item) =>
      UploadKeepsRows(w, item);
      UploadKeepsFlags(w, item);
      UploadKeepsPartition(w, item);
    case _ => BundlesAside(w, Apply(w, s).bundles);
  }

  lemma StepKeepsInvariant(w: World, s: Step)
    requires Invariant(w) && Enabled(w, s)
    ensures Invariant(Apply(w, s))
  {
    StepKeepsTables(w, s);
    forall id | id in Apply(w, s).bundles
      ensures BundleOk(Apply(w, s).rows, Apply(w, s).bundles[id]) { StepKeepsBundle(w, s, id); }
    StepKeepsDisjoint(w, s);
    hide BundleOk, RowsOk, FlagsOk, Partition, Enabled, Apply, Taken;
  }

  lemma {:induction false} RunKeepsInvariant(w: World, steps: seq<Step>)
    requires Invariant(w) && IsRun(w, steps)
    ensures Invariant(After(w, steps))
    decreases |steps|
  {
    hide Invariant, Enabled, Apply;
    if steps != [] {
      StepKeepsInvariant(w, steps[0]);
      RunKeepsInvariant(Apply(w, steps[0]), steps[1..]);
    }
  }

  /** Over every interleaving each upload is handed out, replaced, or waiting, and only one of these. */
  lemma EveryUploadIsAccountedFor(w: World, steps: seq<Step>, n: nat)
    requires Initial(w) && IsRun(w, steps) && n < |After(w, steps).uploads|
    ensures var v := After(w, steps);
            && (n in v.handed || n in v.replaced || Waits(v, n))
            && !(n in v.handed && n in v.replaced) && !(n in v.handed && Waits(v, n)) && !(n in v.replaced && Waits(v, n))
  {
    InitialIsInvariant(w);
    RunKeepsInvariant(w, steps);
  }

  /**
   No upload is handed out twice: what a committing bundle takes was in no earlier one,
   afterwards belongs to that bundle for ever, and is the latest upload to its slot. So
   an earlier bundle can have had the same key only from another upload of it.
   */
  lemma NeverHandedOutTwice(w: World, before: seq<Step>, id: nat, later: seq<Step>, s: Slot)
    requires Initial(w) && IsRun(w, before) && Enabled(After(w, before), Commit(id))
             && IsRun(Apply(After(w, before), Commit(id)), later)
    requires s in Taken(After(w, before).bundles[id])
    ensures var u := After(w, before);
            && s in u.rows && s in u.origin && u.origin[s] < |u.uploads|
            && u.uploads[u.origin[s]].slot == s && u.uploads[u.origin[s]].key == u.rows[s].key
            && u.origin[s] !in u.handed && (forall n :: 0 <= n < |u.uploads| && u.uploads[n].slot == s ==> n <= u.origin[s])
    ensures var u, v := After(w, before), After(Apply(After(w, before), Commit(id)), later);
            u.origin[s] in v.handed && v.handed[u.origin[s]] == u.commits
  {
    hide Invariant;
    InitialIsInvariant(w);
    RunKeepsInvariant(w, before);
    var u := After(w, before);
    CommitHandsOut(u, id, s);
    StepKeepsInvariant(u, Commit(id));
    HandedStays(Apply(u, Commit(id)), later, u.origin[s]);
  }

  lemma CommitHandsOut(u: World, id: nat, s: Slot)
    requires Invariant(u) && Enabled(u, Commit(id)) && s in Taken(u.bundles[id])
    ensures s in u.rows && s in u.origin && u.origin[s] < |u.uploads|
            && u.uploads[u.origin[s]].slot == s && u.uploads[u.origin[s]].key == u.rows[s].key
    ensures u.origin[s] !in u.handed && (forall n :: 0 <= n < |u.uploads| && u.uploads[n].slot == s ==> n <= u.origin[s])
    ensures var v := Apply(u, Commit(id)); u.origin[s] in v.handed && v.handed[u.origin[s]] == u.commits
  {
    hide IsFirst, Taken, Waits;
    assert BundleOk(u.rows, u.bundles[id]);
    OriginsFollowRows(u, Taken(u.bundles[id]));
  }

  lemma {:induction false} HandedStays(w: World, steps: seq<Step>, n: nat)
    requires Invariant(w) && IsRun(w, steps) && n in w.handed
    ensures n in After(w, steps).handed && After(w, steps).handed[n] == w.handed[n]
    decreases |steps|
  {
    hide Invariant;
    if steps != [] {
      StepKeepsInvariant(w, steps[0]);
      StepKeepsHanded(w, steps[0], n);
      HandedStays(Apply(w, steps[0]), steps[1..], n);
    }
  }

  lemma StepKeepsHanded(w: World, s: Step, n: nat)
    requires Invariant(w) && Enabled(w, s) && n in w.handed
    ensures n in Apply(w, s).handed && Apply(w, s).handed[n] == w.handed[n]
  {
    if s.Commit? {
      hide IsFirst, Waits;
      assert BundleOk(w.rows, w.bundles[s.id]);
    }
  }

  // ----- kinds and repeated uploads -----

  /** A last-resort row stays one, unconsumed, whatever is uploaded over it. */
  lemma {:induction false} LastResortStays(w: World, steps: seq<Step>, s: Slot, d: DeviceId)
    requires Invariant(w) && IsRun(w, steps) && IsLastResortOf(w.rows, s, d)
    ensures IsLastResortOf(After(w, steps).rows, s, d) && !After(w, steps).rows[s].consumed
    decreases |steps|
  {
    hide RowsOk, Partition, BundleOk, Taken, Enabled, Apply;
    if steps != [] {
      StepKeepsInvariant(w, steps[0]);
      KindStays(w, steps[0], s, d);
      LastResortStays(Apply(w, steps[0]), steps[1..], s, d);
    }
  }

  lemma KindStays(w: World, step: Step, s: Slot, d: DeviceId)
    requires Enabled(w, step) && s in w.rows
    ensures IsLastResortOf(Apply(w, step).rows, s, d) <==> IsLastResortOf(w.rows, s, d)
  {
    hide Locked, HasLastResort, Taken;
  }

  lemma {:induction false} FirstUpload(uploads: seq<Item>, n: nat) returns (m: nat)
    requires n < |uploads|
    ensures m <= n && IsFirst(uploads, m) && uploads[m].slot == uploads[n].slot
  {
    if k :| 0 <= k < n && uploads[k].slot == uploads[n].slot {
      m := FirstUpload(uploads, k);
    } else {
      m := n;
    }
  }

  /**
   A device has a last-resort row exactly when a last-resort key was the first upload to
   its slot: sent to the id of a one-time key it becomes a one-time key.
   */
  lemma LastResortOfferedIff(w: World, steps: seq<Step>, d: DeviceId)
    requires Initial(w) && IsRun(w, steps)
    ensures var v := After(w, steps);
            HasLastResort(v.rows, d) <==>
            exists n :: IsFirst(v.uploads, n) && v.uploads[n].kind == LastResort && v.uploads[n].slot.device == d
  {
    InitialIsInvariant(w);
    RunKeepsInvariant(w, steps);
    LastResortRows(After(w, steps), d);
  }

  lemma LastResortRows(v: World, d: DeviceId)
    requires RowsOk(v) && FlagsOk(v)
    ensures HasLastResort(v.rows, d) <==>
            exists n :: IsFirst(v.uploads, n) && v.uploads[n].kind == LastResort && v.uploads[n].slot.device == d
  {
    if HasLastResort(v.rows, d) {
      var s :| IsLastResortOf(v.rows, s, d);
      var m := FirstUpload(v.uploads, v.origin[s]);
      assert v.uploads[m].kind == LastResort;
    }
    if n :| IsFirst(v.uploads, n) && v.uploads[n].kind == LastResort && v.uploads[n].slot.device == d {
      assert IsLastResortOf(v.rows, v.uploads[n].slot, d);
    }
  }

  function NextBundle(item: Item, id: nat): seq<Step> {
    [UploadOne(item), Begin(id, item.slot.device), Take(id, item.slot), Commit(id)]
  }

  /**
   What is uploaded to a row, new key or old and of either kind, can be handed out by the
   next bundle exactly when the row's kind is one-time, consumed or not.
   */
  lemma UploadGoesOutIff(v: World, item: Item, id: nat)
    requires item.slot in v.rows && !Locked(v, item.slot) && id !in v.bundles
    requires HasLastResort(v.rows, item.slot.device) && (item.kind == LastResort ==> item.slot.table == PostQuantum)
    ensures IsRun(v, NextBundle(item, id)) <==> v.rows[item.slot].kind == OneTime
    ensures v.rows[item.slot].kind == OneTime ==>
              && After(v, NextBundle(item, id)).handed == v.handed[|v.uploads| := v.commits]
              && After(v, NextBundle(item, id)).uploads == v.uploads + [item]
              && After(v, NextBundle(item, id)).rows == Consume(Upsert(v.rows, item), {item.slot})
              && After(v, NextBundle(item, id)).bundles == v.bundles
              && After(v, NextBundle(item, id)).commits == v.commits + 1
  {
    hide Enabled, Apply, Locked, HasLastResort;
    FourSteps(v, NextBundle(item, id));
    hide IsRun, After;
    UploadThenBegin(v, item, id);
    TakeThenCommit(Apply(Apply(v, UploadOne(item)), Begin(id, item.slot.device)), item.slot, id);
  }

  lemma {:induction false} RunsAppend(w: World, a: seq<Step>, b: seq<Step>)
    requires IsRun(w, a) && IsRun(After(w, a), b)
    ensures IsRun(w, a + b) && After(w, a + b) == After(After(w, a), b)
    decreases |a|
  {
    hide Enabled, Apply;
    if a == [] {
      assert a + b == b;
    } else {
      assert (a + b)[1..] == a[1..] + b;
      RunsAppend(Apply(w, a[0]), a[1..], b);
    }
  }

  const PLAIN := Slot(PostQuantum, 0, 1)
  const LAST := Slot(PostQuantum, 0, 2)

  /** A device with a last-resort row and a one-time row. */
  lemma FirstUploads(w: World, key: PublicKey) returns (steps: seq<Step>)
    requires Initial(w)
    ensures IsRun(w, steps)
    ensures var v := After(w, steps);
            && v.bundles == map[] && v.handed == map[] && |v.uploads| == 2 && v.commits == 0
            && v.rows == map[LAST := Row(LastResort, key, false), PLAIN := Row(OneTime, key, false)]
  {
    steps := [UploadOne(Item(LAST, LastResort, key))] + [UploadOne(Item(PLAIN, OneTime, key))];
    var v := Apply(w, UploadOne(Item(LAST, LastResort, key)));
    AfterOneUpload(w, Item(LAST, LastResort, key));
    AfterOneUpload(v, Item(PLAIN, OneTime, key));
    RunsAppend(w, [UploadOne(Item(LAST, LastResort, key))], [UploadOne(Item(PLAIN, OneTime, key))]);
  }

  lemma AfterOneUpload(w: World, item: Item)
    requires Enabled(w, UploadOne(item))
    ensures IsRun(w, [UploadOne(item)]) && After(w, [UploadOne(item)]) == Apply(w, UploadOne(item))
  {
    hide Enabled, Apply;
    var steps := [UploadOne(item)];
    assert steps[1..] == [];
    assert IsRun(Apply(w, steps[0]), []);
    AfterOne(w, steps);
  }

  /**
   A run in which two bundles carry the same key: it is uploaded again after the first,
   once more as one-time key, as after a lost reply, or as the last-resort key.
   */
  lemma SameKeyGoesOutTwice(w: World, key: PublicKey, again: Kind) returns (steps: seq<Step>)
    requires Initial(w)
    ensures IsRun(w, steps)
    ensures var v := After(w, steps);
            && v.handed == map[2 := 0, 3 := 1] && |v.uploads| == 4
            && v.uploads[2] == Item(PLAIN, OneTime, key) && v.uploads[3] == Item(PLAIN, again, key)
  {
    hide IsRun, After, Enabled, Apply, NextBundle;
    steps := FirstUploads(w, key);
    var v := After(w, steps);
    assert IsLastResortOf(v.rows, LAST, 0);
    UploadGoesOutIff(v, Item(PLAIN, OneTime, key), 0);
    RunsAppend(w, steps, NextBundle(Item(PLAIN, OneTime, key), 0));
    steps := steps + NextBundle(Item(PLAIN, OneTime, key), 0);
    var u := After(w, steps);
    assert IsLastResortOf(u.rows, LAST, 0);
    UploadGoesOutIff(u, Item(PLAIN, again, key), 1);
    RunsAppend(w, steps, NextBundle(Item(PLAIN, again, key), 1));
    steps := steps + NextBundle(Item(PLAIN, again, key), 1);
  }

  /** A bundle has begun, holds nothing yet, and the row is free. */
  ghost predicate Begun(w: World, s: Slot, id: nat) {
    && id in w.bundles && w.bundles[id] == Bundle(s.device, None, None) && s in w.origin && Available(w.rows, s)
    && !Locked(w, s) && HasLastResort(w.rows, s.device)
  }

  lemma UploadThenBegin(v: World, item: Item, id: nat)
    requires item.slot in v.rows && !Locked(v, item.slot) && id !in v.bundles
    requires HasLastResort(v.rows, item.slot.device) && (item.kind == LastResort ==> item.slot.table == PostQuantum)
    ensures Enabled(v, UploadOne(item)) && Enabled(Apply(v, UploadOne(item)), Begin(id, item.slot.device))
    ensures var w := Apply(Apply(v, UploadOne(item)), Begin(id, item.slot.device));
            && Begun(w, item.slot, id) && w.rows[item.slot].kind == v.rows[item.slot].kind
            && w.rows == Upsert(v.rows, item) && w.bundles == v.bundles[id := Bundle(item.slot.device, None, None)]
            && w.origin[item.slot] == |v.uploads| && w.handed == v.handed && w.uploads == v.uploads + [item]
            && w.commits == v.commits
  {
    var lr :| IsLastResortOf(v.rows, lr, item.slot.device);
    var w := Apply(Apply(v, UploadOne(item)), Begin(id, item.slot.device));
    assert IsLastResortOf(w.rows, lr, item.slot.device);
    assert forall i :: i in w.bundles && i != id ==> w.bundles[i] == v.bundles[i];
  }

  lemma TakeThenCommit(w: World, s: Slot, id: nat)
    requires Begun(w, s, id)
    ensures Enabled(w, Take(id, s)) <==> w.rows[s].kind == OneTime
    ensures Enabled(w, Take(id, s)) ==>
              && Enabled(Apply(w, Take(id, s)), Commit(id))
              && var v := Apply(Apply(w, Take(id, s)), Commit(id));
                 && v.handed == w.handed[w.origin[s] := w.commits] && v.uploads == w.uploads
                 && v.rows == Consume(w.rows, {s}) && v.bundles == w.bundles - {id} && v.commits == w.commits + 1
  {
    if Enabled(w, Take(id, s)) {
      var u := Apply(w, Take(id, s));
      assert Taken(u.bundles[id]) == {s};
      assert Origins(u, {s}) == {w.origin[s]};
    }
  }

  lemma AfterOne(w: World, steps: seq<Step>)
    requires |steps| == 1 && IsRun(w, steps)
    ensures After(w, steps) == Apply(w, steps[0])
  {
    hide Enabled, Apply;
    assert steps[1..] == [];
    assert forall v :: IsRun(v, []) && After(v, []) == v;
  }

  lemma FourSteps(v: World, steps: seq<Step>)
    requires |steps| == 4
    ensures IsRun(v, steps) <==> Enabled(v, steps[0]) && var v1 := Apply(v, steps[0]);
                                 Enabled(v1, steps[1]) && var v2 := Apply(v1, steps[1]);
                                 Enabled(v2, steps[2]) && Enabled(Apply(v2, steps[2]), steps[3])
    ensures IsRun(v, steps) ==> After(v, steps) == Apply(Apply(Apply(Apply(v, steps[0]), steps[1]), steps[2]), steps[3])
  {
    hide Enabled, Apply;
    assert forall w :: IsRun(w, []);
    var rest := steps[1..];
    assert rest[0] == steps[1] && rest[1..] == steps[2..] && steps[2..][1..] == steps[3..] && steps[3..][1..] == [];
    if Enabled(v, steps[0]) {
      var v1 := Apply(v, steps[0]);
      assert IsRun(v, steps) <==> IsRun(v1, rest);
      if Enabled(v1, steps[1]) {
        var v2 := Apply(v1, steps[1]);
        assert IsRun(v1, rest) <==> IsRun(v2, steps[2..]);
        if Enabled(v2, steps[2]) {
          var v3 := Apply(v2, steps[2]);
          assert IsRun(v2, steps[2..]) <==> IsRun(v3, steps[3..]);
          assert IsRun(v3, steps[3..]) <==> Enabled(v3, steps[3]);
          if Enabled(v3, steps[3]) {
            AfterOne(v3, steps[3..]);
            assert After(v, steps) == After(v1, rest) == After(v2, steps[2..]) == After(v3, steps[3..]);
          }
        }
      }
    }
  }

  // ----- signed prekeys -----

  datatype Signed = Signed(device: DeviceId, uploadedAt: int)

  /** ORDER BY uploaded_at DESC LIMIT 1. */
  ghost predicate IsLatest(rows: map<nat, Signed>, d: DeviceId, id: nat) {
    && id in rows && rows[id].device == d
    && forall j :: j in rows && rows[j].device == d ==> rows[j].uploadedAt <= rows[id].uploadedAt
  }

  /** `kept` is what DISTINCT ON (device_id) selected: one latest row of every device. */
  ghost predicate IsCleanup(rows: map<nat, Signed>, after: map<nat, Signed>, now: int, kept: map<DeviceId, nat>) {
    && (forall id :: id in rows ==> rows[id].device in kept)
    && (forall d :: d in kept ==> IsLatest(rows, d, kept[d]))
    && after == map id | id in rows && (rows[id].uploadedAt >= now - 30 * 86400000 || kept[rows[id].device] == id) :: rows[id]
  }

  /**
   Cleanup never takes the signed prekey a bundle returns: what is latest afterwards was
   latest before, every device that had one still has one, and with distinct upload
   times it is the same.
   */
  lemma CleanupKeepsTheLatest(rows: map<nat, Signed>, after: map<nat, Signed>, now: int, kept: map<DeviceId, nat>,
      d: DeviceId, id: nat)
    requires IsCleanup(rows, after, now, kept)
    ensures IsLatest(after, d, id) ==> IsLatest(rows, d, id)
    ensures IsLatest(rows, d, id) ==> exists j :: IsLatest(after, d, j)
    ensures IsLatest(rows, d, id) && (forall j :: IsLatest(rows, d, j) ==> j == id) ==> IsLatest(after, d, id)
  {
    if d in kept {
      assert kept[d] in after;
      assert IsLatest(after, d, kept[d]);
    }
  }
}
