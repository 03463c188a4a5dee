/**
 Attachment downloads beside the send jobs: every run of the delivery system with any
 number of downloads going on in its processes, through locks, unlocks, vault switches,
 transport restarts and crashes at any point, also between an answer and its write.

 A download captures its transport; before each write only the transport is compared.
 */
module DownloadFencing {
  import opened Prelude
  import opened VaultTables
  import W = DeliveryWorld

  type BlobId = nat

  /** A chunk as it arrives: its nonce and the length of its ciphertext. */
  datatype Part = Part(nonce: nat, size: nat)

  /** A running download, with the session it was started in. */
  datatype Download = Download(vault: DeviceId, handle: nat, transport: nat, next: nat, answer: Option<Part>, torn: bool)

  datatype Key = Key(process: nat, blob: BlobId)

  /** A row of tor_download_chunks. */
  datatype Row = Row(vault: DeviceId, blob: BlobId, index: nat)

  /** One write, with the database it went to and the session of its download. */
  datatype Write = Write(row: Row, handle: nat, begunIn: DeviceId, begunAt: nat)

  /** `installed` tells under which database object each transport was started. */
  datatype World = World(base: W.World, manifests: map<BlobId, seq<nat>>, running: map<Key, Download>,
                         cache: map<Row, Part>, installed: map<nat, nat>, writes: set<Write>)

  datatype Step =
    | Delivery(step: W.Step)                     // anything the delivery system does
    | Start(key: Key)
    | Answer(key: Key, part: Part)               // from the peer or from the relay, whenever it arrives
    | WriteChunk(key: Key)
    | Stop(key: Key)                             // finished, or given up
    | DeleteChunks(vault: DeviceId, blob: BlobId)

  function ProcessOf(w: World, key: Key): W.Process
    requires key.process in w.base.host.processes
  {
    w.base.host.processes[key.process]
  }

  /** The guard of the write: the captured transport is the current one and has not been stopped. */
  predicate TransportHolds(w: World, key: Key) {
    && key in w.running && key.process in w.base.host.processes
    && ProcessOf(w, key).transport == Some(w.running[key].transport)
    && w.running[key].transport !in w.base.host.stopped
  }

  /** The guard of the relay fallback, which looks at the database as well. */
  predicate SessionHolds(w: World, key: Key) {
    TransportHolds(w, key) && ProcessOf(w, key).open.Some? && ProcessOf(w, key).open.value.handle == w.running[key].handle
  }

  predicate PartFits(nonces: seq<nat>, i: nat, part: Part) {
    i < |nonces| && part.nonce == nonces[i] && part.size <= 65552
  }

  ghost predicate Enabled(w: World, s: Step) {
    match s
    case Delivery(step) => W.Enabled(w.base, step)
    case Start(key) =>
      && key !in w.running && key.blob in w.manifests && W.IsOpen(w.base, key.process)
      && ProcessOf(w, key).transport.Some? && ProcessOf(w, key).transport.value !in w.base.host.stopped
    case Answer(key, _) => key in w.running && w.running[key].answer == None
    case WriteChunk(key) =>
      && TransportHolds(w, key) && W.IsOpen(w.base, key.process) && key.blob in w.manifests
      && w.running[key].answer.Some? && PartFits(w.manifests[key.blob], w.running[key].next, w.running[key].answer.value)
    case Stop(key) => key in w.running
    case DeleteChunks(d, _) => d in w.base.vaults
  }

  ghost function Apply(w: World, s: Step): World
    requires Enabled(w, s)
  {
    match s
    case Delivery(step) =>
      w.(base := W.Apply(w.base, step),
         running := if step.Crash? then map k | k in w.running && k.process != step.p :: w.running[k] else w.running,
         installed := if step.StartTransport?
                      then w.installed[step.transport := w.base.host.processes[step.p].open.value.handle] else w.installed)
    case Start(key) =>
      var q := ProcessOf(w, key);
      w.(running := w.running[key := Download(q.open.value.vault, q.open.value.handle, q.transport.value, 0, None, false)])
    case Answer(key, part) => w.(running := w.running[key := w.running[key].(answer := Some(part))])
    case WriteChunk(key) =>
      var d, open := w.running[key], ProcessOf(w, key).open.value;
      var row := Row(open.vault, key.blob, d.next);
      w.(cache := w.cache[row := d.answer.value], writes := w.writes + {Write(row, open.handle, d.vault, d.handle)},
         running := w.running[key := d.(next := d.next + 1, answer := None)])
    case Stop(key) => w.(running := w.running - {key})
    case DeleteChunks(d, blob) =>
      w.(cache := map r | r in w.cache && !(r.vault == d && r.blob == blob) :: w.cache[r],
         running := map k | k in w.running ::
           if w.running[k].vault == d && k.blob == blob then w.running[k].(torn := true) else w.running[k])
  }

  ghost predicate IsRun(w: World, steps: seq<Step>)
    decreases |steps|
  {
    steps == [] || (Enabled(w, steps[0]) && IsRun(Apply(w, steps[0]), steps[1..]))
  }

  ghost function After(w: World, steps: seq<Step>): World
    requires IsRun(w, steps)
    decreases |steps|
  {
    if steps == [] then w else After(Apply(w, steps[0]), steps[1..])
  }

  ghost predicate Initial(w: World) {
    W.Initial(w.base) && w.running == map[] && w.cache == map[] && w.installed == map[] && w.writes == {}
  }

  // ----- invariant -----

  /** A transport that is current and running was started under the database now open. */
  ghost predicate ProcessOk(h: W.Host, installed: map<nat, nat>, q: W.Process) {
    q.transport.Some? ==>
      && q.transport.value in h.transports
      && (q.transport.value !in h.stopped ==>
            && q.open.Some? && q.transport.value in installed && installed[q.transport.value] == q.open.value.handle)
  }

  ghost predicate HostOk(h: W.Host, installed: map<nat, nat>) {
    && (forall p :: p in h.processes ==> ProcessOk(h, installed, h.processes[p]))
    && (forall t :: t in installed ==> t in h.transports)
    && (forall p :: p in h.processes && h.processes[p].open.Some? ==>
          var s := h.processes[p].open.value; s.handle in h.handles && h.handles[s.handle] == s.vault)
  }

  ghost predicate DownloadOk(w: World, key: Key)
    requires key in w.running
  {
    var d := w.running[key];
    && key.blob in w.manifests && d.next <= |w.manifests[key.blob]|
    && d.transport in w.installed && w.installed[d.transport] == d.handle
    && d.handle in w.base.host.handles && w.base.host.handles[d.handle] == d.vault
    && (!d.torn ==> forall i :: 0 <= i < d.next ==> Row(d.vault, key.blob, i) in w.cache)
  }

  ghost predicate CacheOk(w: World) {
    && (forall r :: r in w.cache ==> r.blob in w.manifests && PartFits(w.manifests[r.blob], r.index, w.cache[r]))
    && (forall x :: x in w.writes ==> x.row.vault == x.begunIn && x.handle == x.begunAt)
  }

  ghost predicate Invariant(w: World) {
    HostOk(w.base.host, w.installed) && (forall key :: key in w.running ==> DownloadOk(w, key)) && CacheOk(w)
  }

  /** Jobs come and go without touching the session or the transports. */
  ghost predicate SameSessions(h: W.Host, g: W.Host) {
    && g.processes.Keys == h.processes.Keys && g.handles == h.handles && g.transports == h.transports && g.stopped == h.stopped
    && forall p :: p in h.processes ==>
         g.processes[p].open == h.processes[p].open && g.processes[p].transport == h.processes[p].transport
  }

  ghost predicate IsSessionStep(s: W.Step) {
    s.OpenVault? || s.LockVault? || s.Crash? || s.StartTransport? || s.StopTransport?
  }

  lemma OtherStepsKeepSessions(w: W.World, s: W.Step)
    requires W.Enabled(w, s) && !IsSessionStep(s)
    ensures SameSessions(w.host, W.Apply(w, s).host)
  {
    hide W.CanTransact, W.TablesAfter, W.TraceAfter;
  }

  lemma SessionStepKeepsHost(h: W.Host, installed: map<nat, nat>, s: W.Step)
    requires HostOk(h, installed) && IsSessionStep(s) && !s.StartTransport?
    requires s.OpenVault? ==> s.handle !in h.handles
    ensures HostOk(W.HostAfter(h, s), installed)
    ensures forall x :: x in h.handles ==> x in W.HostAfter(h, s).handles && W.HostAfter(h, s).handles[x] == h.handles[x]
  {
    var g := W.HostAfter(h, s);
    forall p | p in g.processes ensures ProcessOk(g, installed, g.processes[p]) {
      assert p in h.processes ==> ProcessOk(h, installed, h.processes[p]);
    }
  }

  lemma StartKeepsHost(h: W.Host, installed: map<nat, nat>, p: nat, t: nat)
    requires HostOk(h, installed) && p in h.processes && h.processes[p].open.Some? && t !in h.transports
    ensures HostOk(W.HostAfter(h, W.StartTransport(p, t)), installed[t := h.processes[p].open.value.handle])
  {
    var g, more := W.HostAfter(h, W.StartTransport(p, t)), installed[t := h.processes[p].open.value.handle];
    forall q | q in g.processes ensures ProcessOk(g, more, g.processes[q]) {
      assert q in h.processes && ProcessOk(h, installed, h.processes[q]);
    }
  }

  lemma SessionsKeepHost(h: W.Host, g: W.Host, installed: map<nat, nat>)
    requires HostOk(h, installed) && SameSessions(h, g)
    ensures HostOk(g, installed)
  {
    forall p | p in g.processes ensures ProcessOk(g, installed, g.processes[p]) {
      assert ProcessOk(h, installed, h.processes[p]);
    }
  }

  /** What every delivery step leaves of sessions and transports. */
  lemma DeliveryKeepsHost(w: World, s: W.Step)
    requires HostOk(w.base.host, w.installed) && W.Enabled(w.base, s)
    ensures var v := Apply(w, Delivery(s));
            && HostOk(v.base.host, v.installed)
            && (forall t :: t in w.installed ==> t in v.installed && v.installed[t] == w.installed[t])
            && (forall x :: x in w.base.host.handles ==>
                  x in v.base.host.handles && v.base.host.handles[x] == w.base.host.handles[x])
  {
    hide HostOk, W.CanTransact, W.TablesAfter, W.TraceAfter, W.HostAfter;
    if s.StartTransport? {
      StartKeepsHost(w.base.host, w.installed, s.p, s.transport);
      StartIsNew(w, s);
    } else if IsSessionStep(s) {
      SessionStepKeepsHost(w.base.host, w.installed, s);
    } else {
      OtherStepsKeepSessions(w.base, s);
      SessionsKeepHost(w.base.host, W.Apply(w.base, s).host, w.installed);
    }
  }

  lemma StartIsNew(w: World, s: W.Step)
    requires HostOk(w.base.host, w.installed) && W.Enabled(w.base, s) && s.StartTransport?
    ensures s.transport !in w.installed && W.HostAfter(w.base.host, s).handles == w.base.host.handles
  {
  }

  lemma DeliveryKeepsDownload(w: World, s: W.Step, key: Key)
    requires Invariant(w) && W.Enabled(w.base, s) && key in Apply(w, Delivery(s)).running
    ensures DownloadOk(Apply(w, Delivery(s)), key)
  {
    DeliveryKeepsHost(w, s);
    assert DownloadOk(w, key);
    hide HostOk, W.Enabled, W.Apply;
  }

  /** The transport alone tells the whole session: the write needs no look at the database. */
  lemma TransportTellsSession(w: World, key: Key)
    requires Invariant(w) && TransportHolds(w, key)
    ensures SessionHolds(w, key)
    ensures ProcessOf(w, key).open == Some(W.Session(w.running[key].vault, w.running[key].handle))
  {
    assert DownloadOk(w, key) && ProcessOk(w.base.host, w.installed, ProcessOf(w, key));
  }

  lemma WriteKeepsDownload(w: World, key: Key, k: Key)
    requires Invariant(w) && Enabled(w, WriteChunk(key)) && k in w.running
    ensures DownloadOk(Apply(w, WriteChunk(key)), k)
  {
    TransportTellsSession(w, key);
    assert DownloadOk(w, key) && DownloadOk(w, k);
    hide HostOk, CacheOk;
  }

  lemma WriteKeepsCache(w: World, key: Key)
    requires Invariant(w) && Enabled(w, WriteChunk(key))
    ensures CacheOk(Apply(w, WriteChunk(key)))
  {
    TransportTellsSession(w, key);
    hide HostOk, DownloadOk;
  }

  lemma DeleteKeepsDownload(w: World, d: DeviceId, blob: BlobId, key: Key)
    requires Invariant(w) && d in w.base.vaults && key in w.running
    ensures DownloadOk(Apply(w, DeleteChunks(d, blob)), key)
  {
    assert DownloadOk(w, key);
    hide HostOk, CacheOk;
  }

  lemma StartKeepsDownload(w: World, key: Key, k: Key)
    requires Invariant(w) && Enabled(w, Start(key)) && k in Apply(w, Start(key)).running
    ensures DownloadOk(Apply(w, Start(key)), k)
  {
    if k != key { assert DownloadOk(w, k); } else { assert ProcessOk(w.base.host, w.installed, ProcessOf(w, key)); }
    hide CacheOk;
  }

  lemma StepKeepsDownload(w: World, s: Step, key: Key)
    requires Invariant(w) && Enabled(w, s) && key in Apply(w, s).running
    ensures DownloadOk(Apply(w, s), key)
  {
    match s
    case Delivery(step) => DeliveryKeepsDownload(w, step, key);
    case Start(k) => StartKeepsDownload(w, k, key);
    case WriteChunk(k) => WriteKeepsDownload(w, k, key);
    case DeleteChunks(d, blob) => DeleteKeepsDownload(w, d, blob, key);
    case _ => assert DownloadOk(w, key);
  }

  lemma StepKeepsCache(w: World, s: Step)
    requires Invariant(w) && Enabled(w, s)
    ensures CacheOk(Apply(w, s)) && HostOk(Apply(w, s).base.host, Apply(w, s).installed)
  {
    hide HostOk, DownloadOk, W.Enabled, W.Apply;
    match s
    case Delivery(step) => DeliveryKeepsHost(w, step);
    case WriteChunk(key) => WriteKeepsCache(w, key);
    case _ =>
  }

  lemma StepKeepsInvariant(w: World, s: Step)
    requires Invariant(w) && Enabled(w, s)
    ensures Invariant(Apply(w, s))
  {
    hide HostOk, DownloadOk, CacheOk, Enabled, Apply;
    StepKeepsCache(w, s);
    forall key | key in Apply(w, s).running ensures DownloadOk(Apply(w, s), key) { StepKeepsDownload(w, s, key); }
  }

  lemma {:induction false} RunKeepsInvariant(w: World, steps: seq<Step>)
    requires Invariant(w) && IsRun(w, steps)
    ensures Invariant(After(w, steps))
    decreases |steps|
  {
    hide Invariant, Enabled, Apply;
    if steps != [] {
      StepKeepsInvariant(w, steps[0]);
      RunKeepsInvariant(Apply(w, steps[0]), steps[1..]);
    }
  }

  lemma Reached(w: World, steps: seq<Step>)
    requires Initial(w) && IsRun(w, steps)
    ensures Invariant(After(w, steps))
  {
    assert Invariant(w);
    hide Invariant;
    RunKeepsInvariant(w, steps);
  }

  // ----- the guarantees, on every run -----

  /**
   The fence: on every run, the guard on the transport and the guard on the whole session
   let the same downloads through, and a download that passes finds the very database it
   was started with.
   */
  lemma GuardsAgree(w: World, steps: seq<Step>, key: Key)
    requires Initial(w) && IsRun(w, steps)
    ensures var v := After(w, steps);
            && (TransportHolds(v, key) <==> SessionHolds(v, key))
            && (TransportHolds(v, key) ==>
                  ProcessOf(v, key).open == Some(W.Session(v.running[key].vault, v.running[key].handle)))
  {
    Reached(w, steps);
    var v := After(w, steps);
    hide IsRun, After, Invariant;
    if TransportHolds(v, key) { TransportTellsSession(v, key); }
  }

  /** Every chunk ever cached went to the database its download began with, and fits its manifest. */
  lemma ChunksGoHome(w: World, steps: seq<Step>)
    requires Initial(w) && IsRun(w, steps)
    ensures var v := After(w, steps);
            && (forall x :: x in v.writes ==> x.row.vault == x.begunIn && x.handle == x.begunAt)
            && (forall r :: r in v.cache ==>
                  && r.blob in v.manifests && r.index < |v.manifests[r.blob]|
                  && v.cache[r].nonce == v.manifests[r.blob][r.index] && v.cache[r].size <= 65552)
  {
    Reached(w, steps);
  }

  /** What a running download has written is a prefix of its manifest, unless it was deleted meanwhile. */
  lemma DownloadedIsAPrefix(w: World, steps: seq<Step>, key: Key, i: nat)
    requires Initial(w) && IsRun(w, steps) && key in After(w, steps).running && !After(w, steps).running[key].torn
    requires i < After(w, steps).running[key].next
    ensures var v := After(w, steps);
            var row := Row(v.running[key].vault, key.blob, i);
            key.blob in v.manifests && row in v.cache && PartFits(v.manifests[key.blob], i, v.cache[row])
  {
    Reached(w, steps);
    hide IsRun, After;
    assert DownloadOk(After(w, steps), key);
  }

  /** Chunks of a blob in a vault have no gap. */
  ghost predicate NoGap(w: World, d: DeviceId, blob: BlobId) {
    forall i, j :: 0 <= i < j && Row(d, blob, j) in w.cache ==> Row(d, blob, i) in w.cache
  }

  /**
   The cache has no gap exactly as long as no write comes after its predecessor was
   deleted: this step keeps the absence of gaps if and only if the chunk before is there.
   */
  lemma WriteKeepsNoGapIff(w: World, key: Key)
    requires Invariant(w) && Enabled(w, WriteChunk(key)) && NoGap(w, w.running[key].vault, key.blob)
    ensures var d := w.running[key];
            NoGap(Apply(w, WriteChunk(key)), d.vault, key.blob) <==>
            d.next == 0 || Row(d.vault, key.blob, d.next - 1) in w.cache
  {
    TransportTellsSession(w, key);
    hide HostOk, CacheOk, DownloadOk;
    var d, v := w.running[key], Apply(w, WriteChunk(key));
    assert Row(d.vault, key.blob, d.next) in v.cache;
  }

  /** No chunks are deleted under a download that is still adding to them. */
  ghost predicate Undisturbed(w: World, steps: seq<Step>)
    requires IsRun(w, steps)
    decreases |steps|
  {
    steps == [] || (LeavesDownloads(w, steps[0]) && Undisturbed(Apply(w, steps[0]), steps[1..]))
  }

  ghost predicate LeavesDownloads(w: World, s: Step) {
    s.DeleteChunks? ==> forall k :: k in w.running ==> !(k.blob == s.blob && w.running[k].vault == s.vault)
  }

  ghost predicate Whole(w: World) {
    (forall d, blob :: NoGap(w, d, blob)) && forall k :: k in w.running ==> !w.running[k].torn
  }

  lemma StepKeepsWhole(w: World, s: Step)
    requires Invariant(w) && Enabled(w, s) && Whole(w) && LeavesDownloads(w, s)
    ensures Whole(Apply(w, s))
  {
    hide HostOk, CacheOk, W.Enabled, W.Apply;
    forall d, blob ensures NoGap(Apply(w, s), d, blob) {
      assert NoGap(w, d, blob);
      if s.WriteChunk? {
        TransportTellsSession(w, s.key);
        assert DownloadOk(w, s.key);
        assert NoGap(w, w.running[s.key].vault, s.key.blob);
      }
    }
  }

  /** Then every cache is, at every moment of every run, a prefix of its manifest. */
  lemma {:induction false} CachesHaveNoGaps(w: World, steps: seq<Step>)
    requires Invariant(w) && Whole(w) && IsRun(w, steps) && Undisturbed(w, steps)
    ensures Whole(After(w, steps))
    decreases |steps|
  {
    hide Invariant, Whole, Enabled, Apply, LeavesDownloads;
    if steps != [] {
      StepKeepsWhole(w, steps[0]);
      StepKeepsInvariant(w, steps[0]);
      CachesHaveNoGaps(Apply(w, steps[0]), steps[1..]);
    }
  }
}
