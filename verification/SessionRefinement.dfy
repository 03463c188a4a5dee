/**
 The daemon on the heap refines the step system: sending and flushing in a Tor mode,
 completing a transfer, locking and unlocking are runs of the model. Objects are named
 by numbers; the model compares names where the source compares objects.
 */
module SessionRefinement {
  import opened Prelude
  import opened VaultTables
  import opened Databases
  import W = DeliveryWorld
  import opened TorRouting
  import opened LocalDaemon
  import DaemonRefinement

  /** A name for every database and transport object seen so far. */
  datatype Naming = Naming(handles: map<VaultDatabase, nat>, transports: map<Transport, nat>) {
    ghost predicate Injective() {
      && (forall a, b :: a in handles && b in handles && handles[a] == handles[b] ==> a == b)
      && (forall a, b :: a in transports && b in transports && transports[a] == transports[b] ==> a == b)
    }

    ghost predicate Knows(job: Job) {
      job.database in handles && (job.transport != null ==> job.transport in transports)
    }

    ghost function NameOf(t: Transport?): Option<nat>
      requires t != null ==> t in transports
    {
      if t == null then None else Some(transports[t])
    }

    ghost function Model(job: Job): W.Job
      requires Knows(job)
    {
      W.Job(job.envelope, handles[job.database], NameOf(job.transport))
    }
  }

  /** Process `p` of the world is what this routing object and its database hold. */
  ghost predicate Mirrors(w: W.World, p: nat, r: Routing, n: Naming)
    reads r, r.database, r.transport
  {
    && n.Injective() && p in w.host.processes
    && (r.transport != null ==> r.transport in n.transports
                                && (r.transport.stopped <==> n.transports[r.transport] in w.host.stopped))
    && (r.database != null ==> r.database in n.handles)
    && var q := w.host.processes[p];
       && q.jobs == r.jobs && q.transport == n.NameOf(r.transport)
       && (r.database == null <==> q.open == None)
       && (r.database != null ==> && q.open.value.handle == n.handles[r.database] && W.IsOpen(w, p)
                                  && W.TablesOf(w, p) == r.database.tables)
  }

  /** Completing a transfer, however late, is the model's step. */
  method Complete(ghost w: W.World, p: nat, r: Routing, job: Job, accepted: bool, ghost n: Naming)
    requires Mirrors(w, p, r, n) && n.Knows(job) && W.IsRunning(w, p, n.Model(job))
    requires accepted ==> job.envelope.id in w.net.accepted
    modifies r`jobs, job.database
    ensures W.Enabled(w, W.FinishJob(p, n.Model(job), accepted))
    ensures Mirrors(W.Apply(w, W.FinishJob(p, n.Model(job), accepted)), p, r, n)
  {
    r.FinishJob(job, accepted);
  }

  /** Sending is one step when it succeeds, and no step when anything in it fails. */
  method Send(ghost w: W.World, p: nat, r: Routing, db: VaultDatabase, me: DeviceId, peer: DeviceId, e: EnvelopeId,
      m: MessageId, ttl: nat, now: nat, rowid: nat, outboxRowid: nat, failsAt: nat, ghost n: Naming)
    returns (sent: Result<MessageId, Failure>, ghost steps: seq<W.Step>)
    requires Mirrors(w, p, r, n) && r.database == db && db.savepoint == None && W.VaultOf(w, p) == me && now == w.now
    requires W.CanTransact(w.net, w.trace, w.now, me, db.tables, W.SendMessage(peer, e, m, ttl, rowid, outboxRowid))
    modifies db
    ensures db.savepoint == None && W.IsRun(w, steps) && |steps| <= 1 && Mirrors(W.After(w, steps), p, r, n)
    ensures sent.Ok? <==> steps == [W.Transact(p, W.SendMessage(peer, e, m, ttl, rowid, outboxRowid))]
  {
    ghost var step := W.Transact(p, W.SendMessage(peer, e, m, ttl, rowid, outboxRowid));
    sent := SendMessage(db, me, peer, e, m, ttl, now, rowid, outboxRowid, failsAt);
    steps := [];
    if sent.Ok? {
      DaemonRefinement.RunThen(w, [], step);
      steps := [step];
    }
  }

  /** A flush in a Tor mode starts at most the job of the head, as the model's step does. */
  method Flush(ghost w: W.World, p: nat, r: Routing, db: VaultDatabase, me: DeviceId, now: nat, queued: seq<EnvelopeId>,
      onions: set<DeviceId>, relayAnswers: seq<bool>, ghost n: Naming)
    returns (started: seq<Job>, ghost steps: seq<W.Step>)
    requires Mirrors(w, p, r, n) && r.database == db && db.savepoint == None && W.VaultOf(w, p) == me && now <= w.now
    requires r.mode == DirectTorP2p || (r.mode == HybridTorRelay && r.relayPrepared)
    requires IsQueue(db.tables, now, queued) && |relayAnswers| == |queued|
    modifies db, r`jobs
    ensures db.savepoint == None && W.IsRun(w, steps) && Mirrors(W.After(w, steps), p, r, n)
    ensures steps == if queued != [] && queued[0] !in old(r.jobs) && GoesToJob(r, old(db.tables).outbox[queued[0]].mailbox in onions)
                     then [W.FlushOutbox(p, queued[0], now)] else []
    ensures started != [] <==> steps != []
    ensures forall job :: job in started ==> n.Knows(job) && W.IsRunning(W.After(w, steps), p, n.Model(job))
  {
    var sent, posted;
    sent, posted, started := FlushOutbox(db, r, me, now, queued, onions, relayAnswers);
    steps := [];
    if started != [] {
      ghost var step := W.FlushOutbox(p, queued[0], now);
      QueueStartsWithHead(db.tables, now, queued);
      DaemonRefinement.RunThen(w, [], step);
      steps := [step];
      var job := started[0];
      assert started == [job] && n.Knows(job);
      assert n.Model(job) in W.Apply(w, step).host.processes[p].running;
    }
  }

  /** Locking the vault is the model's step. */
  method Lock(ghost w: W.World, p: nat, r: Routing, ghost n: Naming)
    requires Mirrors(w, p, r, n)
    modifies r`transport, r`database, r.transport
    ensures W.Enabled(w, W.LockVault(p)) && Mirrors(W.Apply(w, W.LockVault(p)), p, r, n)
  {
    r.Lock();
  }

  /** Unlocking, or switching to another vault, gives the new database object a name of its own. */
  method Open(ghost w: W.World, p: nat, r: Routing, d: DeviceId, stored: Tables, ghost handle: nat, ghost n: Naming)
    returns (db: VaultDatabase, ghost more: Naming)
    requires Mirrors(w, p, r, n) && d in w.vaults && stored == w.vaults[d]
    requires handle !in w.host.handles && handle !in n.handles.Values
    modifies r`transport, r`database, r.transport
    ensures W.Enabled(w, W.OpenVault(p, d, handle)) && r.database == db
    ensures more == n.(handles := n.handles[db := handle]) && Mirrors(W.Apply(w, W.OpenVault(p, d, handle)), p, r, more)
  {
    ghost var before := n.handles;
    db := r.Open(stored);
    more := n.(handles := n.handles[db := handle]);
    assert forall a :: a in before ==> before[a] in before.Values;
  }
}
