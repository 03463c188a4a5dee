/**
 Job fencing: a process runs at most one transfer per envelope, and a transfer that
 completes late touches the tables of no session but the one it was started in.
 */
module DeliveryFencing {
  import opened Prelude
  import opened VaultTables
  import opened DeliveryWorld

  ghost predicate RunsJob(process: Process, e: EnvelopeId) {
    exists job :: job in process.running && job.envelope.id == e
  }

  ghost predicate OneJobEach(process: Process) {
    && (forall job :: job in process.running ==> job.envelope.id in process.jobs)
    && (forall e :: e in process.jobs ==> RunsJob(process, e))
    && (forall a, b :: a in process.running && b in process.running && a.envelope.id == b.envelope.id ==> a == b)
  }

  /** Handles stand for the vault they were opened on. */
  ghost predicate HandlesOk(h: Host, process: Process) {
    && (process.open.Some? ==>
          process.open.value.handle in h.handles && h.handles[process.open.value.handle] == process.open.value.vault)
    && (forall job :: job in process.running ==>
          job.handle in h.handles && h.handles[job.handle] == job.envelope.sender)
  }

  ghost predicate Fences(h: Host) {
    forall p :: p in h.processes ==> OneJobEach(h.processes[p]) && HandlesOk(h, h.processes[p])
  }

  lemma OneMoreJob(process: Process, job: Job)
    requires OneJobEach(process) && job.envelope.id !in process.jobs
    ensures OneJobEach(process.(jobs := process.jobs + {job.envelope.id}, running := process.running + {job}))
  {
    var more := process.(jobs := process.jobs + {job.envelope.id}, running := process.running + {job});
    forall e | e in more.jobs ensures RunsJob(more, e) {
      if e == job.envelope.id { assert job in more.running; } else { Witness(process, more, e); }
    }
  }

  lemma StartKeepsFences(h: Host, p: nat, x: Envelope)
    requires Fences(h) && p in h.processes && h.processes[p].open.Some? && x.sender == h.processes[p].open.value.vault
    ensures Fences(StartJob(h, p, x))
  {
    hide OneJobEach;
    if x.id !in h.processes[p].jobs {
      OneMoreJob(h.processes[p], Job(x, h.processes[p].open.value.handle, h.processes[p].transport));
    }
  }

  lemma Witness(before: Process, process: Process, e: EnvelopeId)
    requires RunsJob(before, e) && forall job :: job in before.running && job.envelope.id == e ==>
              job in process.running
    ensures RunsJob(process, e)
  {
    var job :| job in before.running && job.envelope.id == e;
    assert job in process.running;
  }

  lemma EndKeepsFences(h: Host, p: nat, job: Job)
    requires Fences(h) && p in h.processes && job in h.processes[p].running
    ensures Fences(EndJob(h, p, job))
  {
    var process := EndJob(h, p, job).processes[p];
    forall e | e in process.jobs ensures RunsJob(process, e) {
      Witness(h.processes[p], process, e);
    }
  }

  lemma HostStepKeepsFences(h: Host, s: Step)
    requires Fences(h) && (s.OpenVault? ==> s.handle !in h.handles)
    ensures Fences(HostAfter(h, s))
  {
    var g := HostAfter(h, s);
    forall p | p in g.processes ensures OneJobEach(g.processes[p]) && HandlesOk(g, g.processes[p]) {
      if p in h.processes {
        assert OneJobEach(h.processes[p]) && HandlesOk(h, h.processes[p]);
        forall e | e in g.processes[p].jobs ensures RunsJob(g.processes[p], e) {
          Witness(h.processes[p], g.processes[p], e);
        }
      }
    }
  }

  lemma StepKeepsFences(w: World, s: Step)
    requires Fences(w.host) && Enabled(w, s)
    ensures Fences(Apply(w, s).host)
  {
    hide Fences, CanTransact, TablesAfter, TraceAfter, IsHead;
    match s
    case FlushOutbox(p, e, at) => IsThere(TablesOf(w, p), e, at); StartKeepsFences(w.host, p,
        OutboxEnvelope(VaultOf(w, p), e, TablesOf(w, p).outbox[e]));
    case FlushControl(p, e) => StartKeepsFences(w.host, p, ControlEnvelope(VaultOf(w, p), e, TablesOf(w,
        p).controls[e]));
    case FinishJob(p, job, _) => EndKeepsFences(w.host, p, job);
    case _ => HostStepKeepsFences(w.host, s);
  }

  lemma IsThere(t: Tables, e: EnvelopeId, now: nat)
    requires IsHead(t, e, now)
    ensures e in t.outbox
  {
  }

  /** What a completion may touch. */
  lemma FinishIsFenced(w: World, p: nat, job: Job, acceptance: bool, d: DeviceId)
    requires Fences(w.host) && Enabled(w, FinishJob(p, job, acceptance)) && d in w.vaults
    requires Apply(w, FinishJob(p, job, acceptance)).vaults[d] != w.vaults[d]
    ensures d == job.envelope.sender && SameSession(w.host, w.host.processes[p], job)
            && job.envelope.id in w.net.accepted
    ensures w.host.handles[w.host.processes[p].open.value.handle] == d == w.host.handles[job.handle]
    ensures Apply(w, FinishJob(p, job, acceptance)).vaults[d] == MarkAccepted(w.vaults[d], job.envelope.id)
  {
    assert HandlesOk(w.host, w.host.processes[p]);
  }
}
