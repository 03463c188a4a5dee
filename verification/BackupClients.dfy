/**
 Several desktop clients of one backup token: each captures snapshots, uploads them one
 after the other in the order they were captured, and signs a version only when its
 turn comes. Requests and replies may be lost, delayed or duplicated, uploads may fail
 or outlive a lock, and a client may crash before it saved the version it reached.

 The relay is the row of that token, changed by `CommitRow`; the token is not deleted.
 Captures are numbered; the number stands for the fresh nonce of the encryption.
 */
module BackupClients {
  import opened Prelude
  import opened BackupStore

  /** `known` records which capture the client wrote or downloaded as which version. */
  datatype Client = Client(version: nat, saved: nat, queue: seq<nat>, fetched: Option<nat>, known: map<nat, nat>)

  datatype Capture = Capture(client: nat, content: Content)

  /** `written[v - 1]` is the capture stored as version v; `sentAt` the relay's version when a capture was sent. */
  datatype World = World(token: Token, writer: Key, row: Option<Row>, clients: map<nat, Client>, captures: map<nat,
      Capture>, count: nat,
                         posted: map<nat, Body>, answered: set<nat>, written: seq<nat>, sentAt: map<nat, nat>)

  datatype Step =
    | NewClient(c: nat)
    | CaptureSnapshot(c: nat, content: Content)
    | Send(c: nat, updatedAt: nat)
    | Arrive(k: nat)
    | Settle(c: nat)
    | GiveUp(c: nat)
    | Fetch(c: nat)
    | Adopt(c: nat)
    | Save(c: nat)
    | Crash(c: nat)

  /** What a committed upload leaves in the token's row. */
  function CommitRow(row: Option<Row>, b: Body): Option<Row> {
    if IsReplay(row, b) then row else Some(Row(b.version, b.content, b.updatedAt))
  }

  /** Every upload the relay commits changes its token's row in this way. */
  lemma CommitRowIsCommitPut(s: Store, b: Body, doomed: set<SessionId>)
    requires HasProof(b.content) ==> ProofComplete(b.content)
    ensures var prior := Lookup(s.backups, b.token);
            Lookup(CommitPut(s, prior, b, doomed).backups, b.token) == CommitRow(prior, b)
  {
  }

  predicate HasHead(w: World, c: nat) {
    c in w.clients && w.clients[c].queue != []
  }

  function Head(w: World, c: nat): nat
    requires HasHead(w, c)
  {
    w.clients[c].queue[0]
  }

  ghost predicate Enabled(w: World, s: Step) {
    match s
    case NewClient(c) => c !in w.clients
    case CaptureSnapshot(c, content) => c in w.clients && content.nonce == w.count && content.writer == w.writer
    case Send(c, _) => HasHead(w, c) && Head(w, c) in w.captures && Head(w, c) !in w.posted
    case Arrive(k) => k in w.posted && !Conflicts(w.row, w.posted[k])
    case Settle(c) => HasHead(w, c) && Head(w, c) in w.answered && Head(w, c) in w.posted
    case GiveUp(c) => HasHead(w, c)
    case Fetch(c) => c in w.clients && w.row.Some? && VersionOf(w.row) <= |w.written| && VersionOf(w.row) > 0
    case Adopt(c) => c in w.clients && w.clients[c].fetched.Some?
    case Save(c) => c in w.clients
    case Crash(c) => c in w.clients
  }

  function Put(w: World, c: nat, client: Client): World {
    w.(clients := w.clients[c := client])
  }

  ghost function Apply(w: World, s: Step): World
    requires Enabled(w, s)
  {
    match s
    case NewClient(c) => Put(w, c, Client(0, 0, [], None, map[]))
    case CaptureSnapshot(c, content) =>
      Put(w, c, w.clients[c].(queue := w.clients[c].queue + [w.count])).(captures := w.captures[w.count := Capture(c,
          content)], count := w.count + 1)
    case Send(c, updatedAt) =>
      var k := Head(w, c);
      w.(posted := w.posted[k := Body(w.token, w.clients[c].version + 1, w.captures[k].content, updatedAt)],
         sentAt := w.sentAt[k := |w.written|])
    case Arrive(k) =>
      var isNew := w.posted[k].version == VersionOf(w.row) + 1 && !Identical(w.row, w.posted[k]);
      w.(row := CommitRow(w.row, w.posted[k]), answered := w.answered + {k},
         written := if isNew then w.written + [k] else w.written)
    case Settle(c) =>
      var v := w.posted[Head(w, c)].version;
      Put(w, c, w.clients[c].(version := v, queue := w.clients[c].queue[1..], known := w.clients[c].known[v := Head(w,
          c)]))
    case GiveUp(c) => Put(w, c, w.clients[c].(queue := w.clients[c].queue[1..]))
    case Fetch(c) =>
      var v := VersionOf(w.row);
      Put(w, c, w.clients[c].(fetched := Some(v), known := w.clients[c].known[v := w.written[v - 1]]))
    case Adopt(c) => Put(w, c, w.clients[c].(version := w.clients[c].fetched.value, fetched := None))
    case Save(c) => Put(w, c, w.clients[c].(saved := w.clients[c].version))
    case Crash(c) => Put(w, c, w.clients[c].(version := w.clients[c].saved, queue := [], fetched := None))
  }

  ghost predicate IsRun(w: World, steps: seq<Step>)
    decreases |steps|
  {
    steps == [] || (Enabled(w, steps[0]) && IsRun(Apply(w, steps[0]), steps[1..]))
  }

  ghost function After(w: World, steps: seq<Step>): World
    requires IsRun(w, steps)
    decreases |steps|
  {
    if steps == [] then w else After(Apply(w, steps[0]), steps[1..])
  }

  ghost predicate Initial(w: World) {
    w == World(w.token, w.writer, None, map[], map[], 0, map[], {}, [], map[])
  }

  // ----- invariant -----

  /** A version the client may build on: none, or one it wrote or downloaded. */
  predicate Knows(written: seq<nat>, known: map<nat, nat>, v: nat) {
    v <= |written| && (v > 0 ==> v in known && known[v] == written[v - 1])
  }

  ghost predicate KnownOk(written: seq<nat>, known: map<nat, nat>) {
    forall v :: v in known ==> 1 <= v <= |written| && known[v] == written[v - 1]
  }

  ghost predicate ClientOk(written: seq<nat>, client: Client) {
    && KnownOk(written, client.known)
    && Knows(written, client.known, client.version) && Knows(written, client.known, client.saved)
    && (client.fetched.Some? ==> Knows(written, client.known, client.fetched.value))
  }

  ghost predicate CaptureOk(w: World, k: nat) {
    && k in w.captures && k < w.count && w.captures[k].client in w.clients
    && w.captures[k].content.nonce == k && w.captures[k].content.writer == w.writer
  }

  ghost predicate PostedOk(w: World, k: nat) {
    && k in w.posted && CaptureOk(w, k) && w.posted[k].content == w.captures[k].content && w.posted[k].token == w.token
    && k in w.sentAt && 1 <= w.posted[k].version <= w.sentAt[k] + 1 <= |w.written| + 1
    && Knows(w.written, w.clients[w.captures[k].client].known, w.posted[k].version - 1)
  }

  /** Version by version, the row's history is what was posted. */
  ghost predicate WrittenOk(written: seq<nat>, row: Option<Row>, posted: map<nat, Body>, answered: set<nat>) {
    && (forall v :: 0 <= v < |written| ==> written[v] in posted && posted[written[v]].version == v + 1)
    && |written| == VersionOf(row) && (row.Some? <==> written != [])
    && (row.Some? ==> row.value.content == posted[written[|written| - 1]].content)
    && (forall k :: k in answered ==> k in posted && 1 <= posted[k].version <= |written| && written[posted[k].version - 1] == k)
  }

  predicate Mine(captures: map<nat, Capture>, c: nat, k: nat) {
    k in captures && captures[k].client == c
  }

  /** Captures wait in the order they were made, behind everything already sent. */
  ghost predicate QueueOk(captures: map<nat, Capture>, posted: map<nat, Body>, c: nat, q: seq<nat>) {
    && (forall i :: 0 <= i < |q| ==> Mine(captures, c, q[i]) && (i > 0 ==> q[i] !in posted))
    && (forall i, j :: 0 <= i < j < |q| ==> q[i] < q[j])
    && (forall i, k :: 0 <= i < |q| && q[i] !in posted && k in posted && Mine(captures, c, k) ==> k < q[i])
  }

  predicate SameClient(w: World, j: nat, k: nat) {
    j in w.captures && k in w.captures && w.captures[j].client == w.captures[k].client
  }

  /** Later captures were sent no earlier. */
  ghost predicate SentInOrder(w: World) {
    forall j, k :: j in w.posted && k in w.posted && j < k && SameClient(w, j, k) ==>
              j in w.sentAt && k in w.sentAt && w.sentAt[j] <= w.sentAt[k]
  }

  /** An upload is accepted after it was sent. */
  ghost predicate SentBefore(written: seq<nat>, sentAt: map<nat, nat>) {
    forall v :: 0 <= v < |written| ==> written[v] in sentAt && sentAt[written[v]] <= v
  }

  ghost predicate Invariant(w: World) {
    && (forall k :: k in w.captures ==> CaptureOk(w, k))
    && (forall k :: k in w.posted ==> PostedOk(w, k))
    && WrittenOk(w.written, w.row, w.posted, w.answered)
    && (forall c :: c in w.clients ==>
              ClientOk(w.written, w.clients[c]) && QueueOk(w.captures, w.posted, c, w.clients[c].queue))
    && SentInOrder(w) && SentBefore(w.written, w.sentAt)
  }

  // ----- every step keeps it -----

  /** The only upload that can arrive again is the last one written: its nonce is its own. */
  lemma ReplayIsTheLast(w: World, k: nat)
    requires Invariant(w) && Enabled(w, Arrive(k))
    ensures Identical(w.row, w.posted[k]) ==>
              |w.written| > 0 && w.written[|w.written| - 1] == k && w.posted[k].version == |w.written|
    ensures !Identical(w.row, w.posted[k]) ==> w.posted[k].version == |w.written| + 1
  {
    hide QueueOk, ClientOk, SentInOrder, Knows;
    assert PostedOk(w, k);
    if Identical(w.row, w.posted[k]) { assert PostedOk(w, w.written[|w.written| - 1]); }
  }

  lemma ArriveKeepsWritten(w: World, k: nat)
    requires Invariant(w) && Enabled(w, Arrive(k))
    ensures var v := Apply(w, Arrive(k)); WrittenOk(v.written, v.row, v.posted, v.answered) && w.written <= v.written
  {
    hide QueueOk, ClientOk, SentInOrder, Knows, PostedOk, CaptureOk, Conflicts;
    ReplayIsTheLast(w, k);
  }

  lemma MorePosted(written: seq<nat>, row: Option<Row>, posted: map<nat, Body>, answered: set<nat>, k: nat, b: Body)
    requires WrittenOk(written, row, posted, answered) && k !in posted
    ensures WrittenOk(written, row, posted[k := b], answered)
  {
  }

  lemma StepKeepsWritten(w: World, s: Step)
    requires Invariant(w) && Enabled(w, s)
    ensures var v := Apply(w, s); WrittenOk(v.written, v.row, v.posted, v.answered) && w.written <= v.written
  {
    hide QueueOk, ClientOk, SentInOrder, Knows, PostedOk, CaptureOk, Conflicts, CommitRow, WrittenOk;
    match s
    case Arrive(k) => ArriveKeepsWritten(w, k);
    case Send(c, _) => MorePosted(w.written, w.row, w.posted, w.answered, Head(w, c), Apply(w, s).posted[Head(w, c)]);
    case _ =>
  }

  /** The written versions only grow, so what was known stays known. */
  lemma ClientStays(written: seq<nat>, more: seq<nat>, client: Client)
    requires ClientOk(written, client) && written <= more
    ensures ClientOk(more, client)
  {
  }

  lemma SettledIsWritten(w: World, c: nat)
    requires Invariant(w) && Enabled(w, Settle(c))
    ensures var v := w.posted[Head(w, c)].version; 1 <= v <= |w.written| && w.written[v - 1] == Head(w, c)
  {
    hide QueueOk, ClientOk, SentInOrder, Knows, PostedOk, CaptureOk;
  }

  lemma Learns(written: seq<nat>, known: map<nat, nat>, v: nat, n: nat)
    requires KnownOk(written, known) && 1 <= v <= |written|
    ensures KnownOk(written, known[v := written[v - 1]]) && Knows(written, known[v := written[v - 1]], v)
    ensures Knows(written, known, n) ==> Knows(written, known[v := written[v - 1]], n)
  {
  }

  lemma StepKeepsClient(w: World, s: Step, c: nat)
    requires Invariant(w) && Enabled(w, s) && c in Apply(w, s).clients
    ensures ClientOk(Apply(w, s).written, Apply(w, s).clients[c])
  {
    hide QueueOk, SentInOrder, PostedOk, CaptureOk, Conflicts, CommitRow, WrittenOk, Knows, KnownOk;
    StepKeepsWritten(w, s);
    if c in w.clients { ClientStays(w.written, Apply(w, s).written, w.clients[c]); }
    match s
    case NewClient(_) => NobodyKnows(w.written);
    case Settle(d) =>
      SettledIsWritten(w, d);
      LearnsAll(w.written, w.clients[d], w.posted[Head(w, d)].version);
    case Fetch(d) => LearnsAll(w.written, w.clients[d], VersionOf(w.row));
    case _ =>
  }

  lemma NobodyKnows(written: seq<nat>)
    ensures KnownOk(written, map[]) && Knows(written, map[], 0)
  {
  }

  lemma LearnsAll(written: seq<nat>, client: Client, v: nat)
    requires ClientOk(written, client) && 1 <= v <= |written|
    ensures ClientOk(written, client.(known := client.known[v := written[v - 1]]))
    ensures Knows(written, client.known[v := written[v - 1]], v)
  {
    hide Knows, KnownOk;
    Learns(written, client.known, v, client.version);
    Learns(written, client.known, v, client.saved);
    if client.fetched.Some? { Learns(written, client.known, v, client.fetched.value); }
  }

  lemma KnowledgeStays(w: World, s: Step, c: nat, n: nat)
    requires Invariant(w) && Enabled(w, s) && c in w.clients && Knows(w.written, w.clients[c].known, n)
    ensures c in Apply(w, s).clients && Knows(Apply(w, s).written, Apply(w, s).clients[c].known, n)
  {
    hide QueueOk, SentInOrder, PostedOk, CaptureOk, Conflicts, CommitRow, WrittenOk, Knows, KnownOk;
    StepKeepsWritten(w, s);
    match s
    case Settle(d) => SettledIsWritten(w, d); Learns(w.written, w.clients[d].known, w.posted[Head(w, d)].version, n);
    case Fetch(d) => Learns(w.written, w.clients[d].known, VersionOf(w.row), n);
    case _ => KnowsMore(w.written, Apply(w, s).written, w.clients[c].known, n);
  }

  lemma KnowsMore(written: seq<nat>, more: seq<nat>, known: map<nat, nat>, n: nat)
    requires Knows(written, known, n) && written <= more
    ensures Knows(more, known, n)
  {
  }

  lemma StepKeepsCapture(w: World, s: Step, k: nat)
    requires Invariant(w) && Enabled(w, s) && k in Apply(w, s).captures
    ensures CaptureOk(Apply(w, s), k)
  {
    hide QueueOk, SentInOrder, PostedOk, Conflicts, CommitRow, WrittenOk, ClientOk;
    if k in w.captures { assert CaptureOk(w, k); }
  }

  lemma StepKeepsPosted(w: World, s: Step, k: nat)
    requires Invariant(w) && Enabled(w, s) && k in Apply(w, s).posted
    ensures PostedOk(Apply(w, s), k)
  {
    hide QueueOk, SentInOrder, Conflicts, CommitRow, WrittenOk, Knows, KnownOk, Identical;
    StepKeepsWritten(w, s);
    if k in w.posted {
      assert PostedOk(w, k);
      StepKeepsCapture(w, s, k);
      KnowledgeStays(w, s, w.captures[k].client, w.posted[k].version - 1);
    } else {
      SendPosts(w, s.c, s.updatedAt);
    }
  }

  lemma SendPosts(w: World, c: nat, updatedAt: nat)
    requires Invariant(w) && Enabled(w, Send(c, updatedAt))
    ensures PostedOk(Apply(w, Send(c, updatedAt)), Head(w, c))
  {
    hide SentInOrder, Conflicts, CommitRow, WrittenOk, KnownOk;
    assert QueueOk(w.captures, w.posted, c, w.clients[c].queue);
    assert CaptureOk(w, Head(w, c));
    assert ClientOk(w.written, w.clients[c]);
  }

  lemma StepKeepsQueue(w: World, s: Step, c: nat)
    requires Invariant(w) && Enabled(w, s) && c in Apply(w, s).clients
    ensures QueueOk(Apply(w, s).captures, Apply(w, s).posted, c, Apply(w, s).clients[c].queue)
  {
    hide SentInOrder, Conflicts, CommitRow, WrittenOk, ClientOk, Knows, PostedOk, CaptureOk, QueueOk, Identical;
    match s
    case NewClient(d) => EmptyQueue(w.captures, w.posted, c);
    case Crash(d) => EmptyQueue(w.captures, w.posted, c);
    case Settle(d) => ShorterQueue(w.captures, w.posted, d, w.clients[d].queue);
    case GiveUp(d) => ShorterQueue(w.captures, w.posted, d, w.clients[d].queue);
    case CaptureSnapshot(d, content) =>
      CapturesBelow(w);
      MoreCaptures(w.captures, w.posted, c, if c in w.clients then w.clients[c].queue else [], w.count, Capture(d,
          content));
    case Send(d, _) => SendingQueue(w.captures, w.posted, c, w.clients[c].queue, Head(w, d), Apply(w,
        s).posted[Head(w, d)], d, w.clients[d].queue);
    case _ =>
  }

  lemma EmptyQueue(captures: map<nat, Capture>, posted: map<nat, Body>, c: nat)
    ensures QueueOk(captures, posted, c, [])
  {
  }

  lemma ShorterQueue(captures: map<nat, Capture>, posted: map<nat, Body>, c: nat, q: seq<nat>)
    requires QueueOk(captures, posted, c, q) && q != []
    ensures QueueOk(captures, posted, c, q[1..])
  {
    assert forall i :: 0 <= i < |q| - 1 ==> q[1..][i] == q[i + 1];
  }

  lemma CapturesBelow(w: World)
    requires Invariant(w)
    ensures w.count !in w.captures && w.count !in w.posted && forall k :: k in w.captures ==> k < w.count
    ensures forall k :: k in w.posted ==> k in w.captures
  {
    hide QueueOk, SentInOrder, WrittenOk, ClientOk, Knows;
    assert CaptureOk(w, w.count) || w.count !in w.captures;
    assert forall k :: k in w.captures ==> CaptureOk(w, k);
    assert forall k :: k in w.posted ==> PostedOk(w, k);
  }

  /** A new capture is the youngest: it may join the end of its client's queue, and no other queue minds. */
  lemma MoreCaptures(captures: map<nat, Capture>, posted: map<nat, Body>, c: nat, q: seq<nat>, n: nat, capture: Capture)
    requires QueueOk(captures, posted, c, q) && n !in captures && n !in posted
    requires (forall k :: k in captures ==> k < n) && forall k :: k in posted ==> k in captures
    ensures QueueOk(captures[n := capture], posted, c, q)
    ensures capture.client == c ==> QueueOk(captures[n := capture], posted, c, q + [n])
  {
    assert forall i :: 0 <= i < |q| ==> Mine(captures, c, q[i]);
  }

  lemma SendingQueue(captures: map<nat, Capture>, posted: map<nat, Body>, c: nat, q: seq<nat>, k: nat, b: Body,
      d: nat, p: seq<nat>)
    requires QueueOk(captures, posted, c, q) && QueueOk(captures, posted, d, p) && p != [] && k == p[0] && (c == d ==> q == p)
    ensures QueueOk(captures, posted[k := b], c, q)
  {
    assert Mine(captures, d, k);
    assert forall i :: 0 <= i < |q| ==> Mine(captures, c, q[i]);
  }

  lemma StepKeepsSentInOrder(w: World, s: Step)
    requires Invariant(w) && Enabled(w, s)
    ensures SentInOrder(Apply(w, s))
  {
    hide Conflicts, CommitRow, WrittenOk, ClientOk, Knows, Identical, QueueOk, PostedOk;
    CapturesBelow(w);
    if s.Send? { SendIsLatest(w, s.c); }
  }

  lemma SendIsLatest(w: World, c: nat)
    requires Invariant(w) && HasHead(w, c) && Head(w, c) !in w.posted
    ensures forall k :: k in w.posted ==> k in w.sentAt && w.sentAt[k] <= |w.written|
    ensures forall k :: k in w.posted && SameClient(w, k, Head(w, c)) ==> k < Head(w, c)
  {
    hide SentInOrder, WrittenOk, ClientOk, Knows;
    assert QueueOk(w.captures, w.posted, c, w.clients[c].queue);
    assert Mine(w.captures, c, Head(w, c));
    assert forall k :: k in w.posted ==> PostedOk(w, k);
  }

  lemma StepKeepsSentBefore(w: World, s: Step)
    requires Invariant(w) && Enabled(w, s)
    ensures SentBefore(Apply(w, s).written, Apply(w, s).sentAt)
  {
    hide Conflicts, CommitRow, ClientOk, Knows, Identical, QueueOk, SentInOrder;
    if s.Arrive? { assert PostedOk(w, s.k); }
  }

  lemma StepKeepsInvariant(w: World, s: Step)
    requires Invariant(w) && Enabled(w, s)
    ensures Invariant(Apply(w, s))
  {
    hide QueueOk, ClientOk, SentInOrder, SentBefore, PostedOk, CaptureOk, WrittenOk, Enabled, Apply;
    StepKeepsWritten(w, s);
    StepKeepsSentInOrder(w, s);
    StepKeepsSentBefore(w, s);
    var v := Apply(w, s);
    forall c | c in v.clients
      ensures ClientOk(v.written, v.clients[c]) && QueueOk(v.captures, v.posted, c, v.clients[c].queue)
    {
      StepKeepsClient(w, s, c);
      StepKeepsQueue(w, s, c);
    }
    forall k | k in v.captures ensures CaptureOk(v, k) { StepKeepsCapture(w, s, k); }
    forall k | k in v.posted ensures PostedOk(v, k) { StepKeepsPosted(w, s, k); }
  }

  lemma {:induction false} RunKeepsInvariant(w: World, steps: seq<Step>)
    requires Invariant(w) && IsRun(w, steps)
    ensures Invariant(After(w, steps))
    decreases |steps|
  {
    hide Invariant, Enabled, Apply;
    if steps != [] {
      StepKeepsInvariant(w, steps[0]);
      RunKeepsInvariant(Apply(w, steps[0]), steps[1..]);
    }
  }

  lemma Reached(w: World, steps: seq<Step>)
    requires Initial(w) && IsRun(w, steps)
    ensures Invariant(After(w, steps))
  {
    assert Invariant(w);
    hide Invariant;
    RunKeepsInvariant(w, steps);
  }

  // ----- the agreement between clients and relay -----

  /** No client ever believes in a version the relay has not reached. */
  lemma StoredVersionNeverAhead(w: World, steps: seq<Step>, c: nat)
    requires Initial(w) && IsRun(w, steps) && c in After(w, steps).clients
    ensures After(w, steps).clients[c].version <= VersionOf(After(w, steps).row)
  {
    Reached(w, steps);
    hide IsRun, After, QueueOk, PostedOk, CaptureOk, SentInOrder;
  }

  /** The client that sent this upload knew the version it replaces, as it stands. */
  ghost predicate BuildsOnKnown(w: World, k: nat) {
    && k in w.posted && k in w.captures && w.captures[k].client in w.clients
    && ReplyTo(w.row, w.posted[k]).version == w.posted[k].version
    && (!Identical(w.row, w.posted[k]) ==>
          Knows(w.written, w.clients[w.captures[k].client].known, VersionOf(w.row)))
  }

  lemma ArrivalBuildsOnKnown(w: World, k: nat)
    requires Invariant(w) && Enabled(w, Arrive(k))
    ensures BuildsOnKnown(w, k)
  {
    ReplayIsTheLast(w, k);
    hide QueueOk, ClientOk, SentInOrder, Knows;
    assert PostedOk(w, k);
  }

  /**
   No unseen overwrite: whenever an upload becomes version n + 1, its client had itself
   written or downloaded version n as it stands. And the version the relay reports is
   the one the client signed, which is the one it stores.
   */
  lemma NoUnseenOverwrite(w: World, steps: seq<Step>, k: nat)
    requires Initial(w) && IsRun(w, steps) && Enabled(After(w, steps), Arrive(k))
    ensures BuildsOnKnown(After(w, steps), k)
  {
    Reached(w, steps);
    hide Invariant, IsRun, After, Enabled, BuildsOnKnown;
    ArrivalBuildsOnKnown(After(w, steps), k);
  }

  lemma WrittenInOrder(w: World, a: nat, b: nat)
    requires Invariant(w) && 1 <= a < b <= |w.written| && SameClient(w, w.written[a - 1], w.written[b - 1])
    ensures w.written[a - 1] < w.written[b - 1]
  {
    hide QueueOk, ClientOk, Knows;
    var j, k := w.written[a - 1], w.written[b - 1];
    assert PostedOk(w, j) && PostedOk(w, k);
    assert w.posted[j].version == a && w.posted[k].version == b;
  }

  /** The accepted versions of one client are in the order its snapshots were captured. */
  lemma AcceptedInCaptureOrder(w: World, steps: seq<Step>, a: nat, b: nat)
    requires Initial(w) && IsRun(w, steps) && 1 <= a < b <= |After(w, steps).written|
    requires SameClient(After(w, steps), After(w, steps).written[a - 1], After(w, steps).written[b - 1])
    ensures After(w, steps).written[a - 1] < After(w, steps).written[b - 1]
  {
    Reached(w, steps);
    hide Invariant, IsRun, After;
    WrittenInOrder(After(w, steps), a, b);
  }
}
