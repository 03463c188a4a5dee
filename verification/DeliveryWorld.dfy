/**
 Durable delivery as a step system: any number of vaults and daemon processes, a
 network that loses, delays, reorders and duplicates what is posted, and the relay
 queue. Every step is one critical section of a daemon, one arrival at a peer or at
 the relay, or one failure. A transaction that rolls back and a reply that is lost
 change nothing and are therefore no step of their own.

 `Trace` only records what happened; no step consults it except to draw fresh
 identifiers.
 */
module DeliveryWorld {
  import opened Prelude
  import opened VaultTables

  /** What was committed when an envelope was created. */
  datatype Record = Record(envelope: Envelope, order: nat, deadline: Option<nat>, cause: Option<EnvelopeId>)

  datatype Trace = Trace(
    devices: set<DeviceId>,
    history: map<EnvelopeId, Record>,
    count: nat,
    letters: map<MessageId, EnvelopeId>,       // the envelope that carries a sent message
    owners: map<nat, (DeviceId, DeviceId)>,    // who opened a Signal session, and to whom
    started: set<EnvelopeId>,                  // envelopes a transfer was ever started for
    shown: multiset<(DeviceId, EnvelopeId)>)   // received message rows ever inserted

  datatype RelayRow = RelayRow(envelope: Envelope, expiresAt: nat)

  /** Everything in flight: posted copies may arrive any number of times, in any order. */
  datatype Network = Network(
    posted: set<Envelope>,
    relayPosted: set<Envelope>,
    accepted: set<EnvelopeId>,                 // a 2xx answer was sent
    relay: map<EnvelopeId, RelayRow>,
    relayDue: map<EnvelopeId, nat>,            // earliest expiry the relay ever gave an envelope
    pushed: set<Envelope>)

  /** One unlocked vault: `handle` is the identity of the database object. */
  datatype Session = Session(vault: DeviceId, handle: nat)

  /** A background transfer together with the session it was started in. */
  datatype Job = Job(envelope: Envelope, handle: nat, transport: Option<nat>)

  datatype Process = Process(open: Option<Session>, transport: Option<nat>, jobs: set<EnvelopeId>, running: set<Job>)

  const IDLE := Process(None, None, {}, {})

  datatype Host = Host(
    processes: map<nat, Process>,
    handles: map<nat, DeviceId>,               // every database object ever opened
    transports: set<nat>,                      // every transport object ever created
    stopped: set<nat>)

  datatype World = World(now: nat, vaults: map<DeviceId, Tables>, net: Network, host: Host, trace: Trace)

  /** A transaction on the open vault. */
  datatype Transaction =
    | AddContact(peer: DeviceId, session: nat)
    | SetIdentityChanged(peer: DeviceId, changed: bool)
    | SendMessage(peer: DeviceId, e: EnvelopeId, m: MessageId, ttl: nat, rowid: nat, outboxRowid: nat)
    | QueueControl(peer: DeviceId, e: EnvelopeId, payload: Payload, rowid: nat)
    | DropExpiredControl(e: EnvelopeId)
    | RelayOnlyDone(e: EnvelopeId)
    | RelayOnlyControlDone(e: EnvelopeId)
    | Receive(x: Envelope, draw: Draw)
    | Disappear(m: MessageId)

  datatype Step =
    | Transact(p: nat, action: Transaction)
    | FlushOutbox(p: nat, e: EnvelopeId, at: nat)                 // `at`: when the rows were selected
    | FlushControl(p: nat, e: EnvelopeId)
    | RelayOnlyPost(p: nat, x: Envelope, at: nat)
    | Acknowledge(p: nat, ids: set<EnvelopeId>)                    // ids leave the inbox
    | RelayForgets(d: DeviceId, ids: set<EnvelopeId>)              // an acknowledgement reaches the relay, if ever
    | PostToPeer(p: nat, job: Job)
    | PostToRelay(p: nat, job: Job)
    | FinishJob(p: nat, job: Job, acceptance: bool)
    | OpenVault(p: nat, d: DeviceId, handle: nat)
    | LockVault(p: nat)
    | Crash(p: nat)
    | StartTransport(p: nat, transport: nat)
    | StopTransport(p: nat, forget: bool)
    | PeerReceives(x: Envelope)
    | RelayReceives(x: Envelope, ttl: nat)
    | RelayExpires
    | Tick(ms: nat)

  // ----- looking at a world -----

  predicate IsOpen(w: World, p: nat) {
    && p in w.host.processes && w.host.processes[p].open.Some?
    && w.host.processes[p].open.value.vault in w.vaults
  }

  function VaultOf(w: World, p: nat): DeviceId
    requires IsOpen(w, p)
  {
    w.host.processes[p].open.value.vault
  }

  function TablesOf(w: World, p: nat): Tables
    requires IsOpen(w, p)
  {
    w.vaults[VaultOf(w, p)]
  }

  /** The guard a finished job evaluates before it touches a table. */
  predicate SameSession(h: Host, process: Process, job: Job) {
    && process.open.Some? && process.open.value.handle == job.handle
    && process.transport == job.transport
    && (job.transport.Some? ==> job.transport.value !in h.stopped)
  }

  predicate IsRunning(w: World, p: nat, job: Job) {
    p in w.host.processes && job in w.host.processes[p].running
  }

  /** Where syncMessages can find an envelope: its own inbox, the relay queue, or a push. */
  predicate Pending(n: Network, t: Tables, d: DeviceId, x: Envelope) {
    || (x.id in t.inbox && t.inbox[x.id] == x)
    || (x.id in n.relay && n.relay[x.id].envelope == x && x.mailbox == d)
    || (x in n.pushed && x.mailbox == d)
  }

  // ----- transactions -----

  ghost predicate CanTransact(n: Network, r: Trace, now: nat, d: DeviceId, t: Tables, a: Transaction) {
    match a
    case AddContact(peer, session) => peer in r.devices && session !in r.owners
    case SetIdentityChanged(peer, _) => peer in t.contacts
    case SendMessage(peer, e, m, _, rowid, outboxRowid) =>
      && Usable(t, peer) && e !in r.history && m !in r.letters && m !in t.messages
      && AboveMessages(t, rowid) && AboveOutbox(t, outboxRowid)
    case QueueControl(peer, e, payload, rowid) =>
      Usable(t, peer) && e !in r.history && AboveControls(t, rowid) && MayQueue(t, peer, payload)
    case DropExpiredControl(e) => e in t.controls && Passed(t.controls[e].expiresAt, now)
    case RelayOnlyDone(e) => e in t.outbox && e in n.accepted
    case RelayOnlyControlDone(e) => e in t.controls && e in n.accepted
    case Receive(x, draw) =>
      && Pending(n, t, d, x) && Opens(t, d, x)
      && (x.ciphertext.payload.Text? ==>
            && draw.receipt !in r.history && draw.message !in t.messages
            && AboveMessages(t, draw.rowid) && AboveControls(t, draw.receiptRowid))
    case Disappear(m) => m in t.messages && Passed(t.messages[m].disappearAt, now)
  }

  /** What the control and profile routes queue. A read receipt names the last received message. */
  ghost predicate MayQueue(t: Tables, peer: DeviceId, payload: Payload) {
    match payload
    case ReadReceipt(upTo) => exists m :: IsLastReceived(t, peer, m) && t.messages[m].remote == Some(upTo)
    case Typing(_) => true
    case Profile => true
    case _ => false
  }

  function Renew(t: Tables, peer: DeviceId, session: nat): Tables {
    var changed := peer in t.contacts && t.contacts[peer].identityChanged;
    t.(contacts := t.contacts[peer := Contact(changed, RatchetKey(session, 0))])
  }

  ghost function TablesAfter(n: Network, r: Trace, now: nat, d: DeviceId, t: Tables, a: Transaction): Tables
    requires CanTransact(n, r, now, d, t, a)
  {
    match a
    case AddContact(peer, session) => Renew(t, peer, session)
    case SetIdentityChanged(peer,
        changed) => t.(contacts := t.contacts[peer := t.contacts[peer].(identityChanged := changed)])
    case SendMessage(peer, e, m, ttl, rowid, outboxRowid) => CommitSend(t, d, peer, e, m, ttl, now, rowid, outboxRowid)
    case QueueControl(peer, e, payload, rowid) => CommitControl(t, d, peer, e, payload, now, rowid)
    case DropExpiredControl(e) => DropControl(t, e)
    case RelayOnlyDone(e) => MarkSent(t, e)
    case RelayOnlyControlDone(e) => DropControl(t, e)
    case Receive(x, draw) => CommitReceive(t, d, x, now, draw)
    case Disappear(m) => Forget(t, m)
  }

  function Add(r: Trace, x: Envelope, deadline: Option<nat>, cause: Option<EnvelopeId>): Trace {
    var p := x.ciphertext.payload;
    r.(history := r.history[x.id := Record(x, r.count, deadline, cause)], count := r.count + 1,
       letters := if p.Text? then r.letters[p.message := x.id] else r.letters)
  }

  function NewEnvelope(t: Tables, d: DeviceId, peer: DeviceId, e: EnvelopeId, payload: Payload): Envelope
    requires peer in t.contacts
  {
    Envelope(e, d, peer, EncryptFor(t, d, peer, payload), payload.Typing?)
  }

  ghost function TraceAfter(n: Network, r: Trace, now: nat, d: DeviceId, t: Tables, a: Transaction): Trace
    requires CanTransact(n, r, now, d, t, a)
  {
    match a
    case AddContact(peer, session) => r.(owners := r.owners[session := (d, peer)])
    case SendMessage(peer, e, m, ttl, _, _) => Add(r, NewEnvelope(t, d, peer, e, Text(m, ttl)), DeadlineFor(ttl, now),
        None)
    case QueueControl(peer, e, payload, _) => Add(r, NewEnvelope(t, d, peer, e, payload), None, None)
    case Receive(x, draw) =>
      if x.ciphertext.payload.Text? then
        var receipt := NewEnvelope(t, d, x.sender, draw.receipt, DeliveredReceipt(x.ciphertext.payload.message));
        Add(r, receipt, None, Some(x.id)).(shown := r.shown + multiset{(d, x.id)})
      else r
    case _ => r
  }

  // ----- the other critical sections -----

  function StartJob(h: Host, p: nat, x: Envelope): Host
    requires p in h.processes && h.processes[p].open.Some?
  {
    var process := h.processes[p];
    if x.id in process.jobs then h else
    var job := Job(x, process.open.value.handle, process.transport);
    h.(processes := h.processes[p := process.(jobs := process.jobs + {x.id}, running := process.running + {job})])
  }

  function EndJob(h: Host, p: nat, job: Job): Host
    requires p in h.processes
  {
    var process := h.processes[p];
    h.(processes := h.processes[p := process.(jobs := process.jobs - {job.envelope.id}, running := process.running - {job})])
  }

  /** stopTor: the transport object is closed for good, and usually forgotten. */
  function CloseTransport(h: Host, p: nat, forget: bool, open: Option<Session>): Host
    requires p in h.processes
  {
    var process := h.processes[p];
    h.(processes := h.processes[p := process.(transport := if forget then None else process.transport, open := open)],
       stopped := if process.transport.Some? then h.stopped + {process.transport.value} else h.stopped)
  }

  function RelayAck(n: Network, d: DeviceId, ids: set<EnvelopeId>): Network {
    n.(relay := map e | e in n.relay && !(e in ids && n.relay[e].envelope.mailbox == d) :: n.relay[e])
  }

  /** INSERT ... ON CONFLICT DO NOTHING, then a push; typing is pushed but never stored. */
  function RelayStore(n: Network, x: Envelope, expiresAt: nat): Network {
    var heard := n.(accepted := n.accepted + {x.id}, pushed := n.pushed + {x});
    if x.ephemeral || x.id in n.relay then heard else
    heard.(relay := n.relay[x.id := RelayRow(x, expiresAt)],
           relayDue := if x.id in n.relayDue && n.relayDue[x.id] <= expiresAt then n.relayDue else n.relayDue[x.id := expiresAt])
  }

  function RelayCleanup(n: Network, now: nat): Network {
    n.(relay := map e | e in n.relay && n.relay[e].expiresAt >= now :: n.relay[e])
  }

  /** A row the relay-only loop posts: the head of the outbox, or a control. */
  ghost predicate RelayOnlyRow(t: Tables, d: DeviceId, now: nat, x: Envelope) {
    || (IsHead(t, x.id, now) && x == OutboxEnvelope(d, x.id, t.outbox[x.id]))
    || (x.id in t.controls && Usable(t, t.controls[x.id].mailbox) && x == ControlEnvelope(d, x.id, t.controls[x.id]))
  }

  // ----- the step relation -----

  ghost predicate Enabled(w: World, s: Step) {
    match s
    case Transact(p, a) => IsOpen(w, p) && CanTransact(w.net, w.trace, w.now, VaultOf(w, p), TablesOf(w, p), a)
    case FlushOutbox(p, e, at) => IsOpen(w, p) && at <= w.now && IsHead(TablesOf(w, p), e, at)
    case FlushControl(p, e) =>
      && IsOpen(w, p) && e in TablesOf(w, p).controls && Usable(TablesOf(w, p), TablesOf(w, p).controls[e].mailbox)
      && !Passed(TablesOf(w, p).controls[e].expiresAt, w.now)
    case RelayOnlyPost(p, x, at) => IsOpen(w, p) && at <= w.now && RelayOnlyRow(TablesOf(w, p), VaultOf(w, p), at, x)
    case Acknowledge(p, ids) => IsOpen(w, p) && ids <= TablesOf(w, p).seen
    case RelayForgets(d, ids) => d in w.vaults && ids <= w.vaults[d].seen
    case PostToPeer(p, job) => IsRunning(w, p, job)
    case PostToRelay(p, job) => IsRunning(w, p, job) && SameSession(w.host, w.host.processes[p], job)
    case FinishJob(p, job, acceptance) => IsRunning(w, p, job) && (acceptance ==> job.envelope.id in w.net.accepted)
    case OpenVault(p, d, handle) => p in w.host.processes && d in w.vaults && handle !in w.host.handles
    case LockVault(p) => p in w.host.processes
    case Crash(p) => p in w.host.processes
    case StartTransport(p, transport) =>
      && p in w.host.processes && w.host.processes[p].open.Some? && transport !in w.host.transports
      && (w.host.processes[p].transport.Some? ==> w.host.processes[p].transport.value in w.host.stopped)
    case StopTransport(p, _) => p in w.host.processes
    case PeerReceives(x) => x in w.net.posted && x.mailbox in w.vaults
    case RelayReceives(x, _) => x in w.net.relayPosted
    case RelayExpires => true
    case Tick(_) => true
  }

  ghost function Apply(w: World, s: Step): World
    requires Enabled(w, s)
  {
    match s
    case Transact(p, a) => ApplyTransaction(w, VaultOf(w, p), a)
    case FlushOutbox(p, e, _) => ApplyStart(w, p, OutboxEnvelope(VaultOf(w, p), e, TablesOf(w, p).outbox[e]))
    case FlushControl(p, e) => ApplyStart(w, p, ControlEnvelope(VaultOf(w, p), e, TablesOf(w, p).controls[e]))
    case RelayOnlyPost(p, x, _) =>
      w.(net := w.net.(relayPosted := w.net.relayPosted + {x}), trace := w.trace.(started := w.trace.started + {x.id}))
    case Acknowledge(p, ids) => w.(vaults := w.vaults[VaultOf(w, p) := AckInbox(TablesOf(w, p), ids)])
    case RelayForgets(d, ids) => w.(net := RelayAck(w.net, d, ids))
    case PostToPeer(p, job) => w.(net := w.net.(posted := w.net.posted + {job.envelope}))
    case PostToRelay(p, job) => w.(net := w.net.(relayPosted := w.net.relayPosted + {job.envelope}))
    case FinishJob(p, job, acceptance) => ApplyFinish(w, p, job, acceptance)
    case PeerReceives(x) =>
      w.(vaults := w.vaults[x.mailbox := Deposit(w.vaults[x.mailbox], x)], net := w.net.(accepted := w.net.accepted + {x.id}))
    case RelayReceives(x, ttl) => w.(net := RelayStore(w.net, x, w.now + ttl))
    case RelayExpires => w.(net := RelayCleanup(w.net, w.now))
    case Tick(ms) => w.(now := w.now + ms)
    case _ => w.(host := HostAfter(w.host, s))
  }

  ghost function ApplyTransaction(w: World, d: DeviceId, a: Transaction): World
    requires d in w.vaults && CanTransact(w.net, w.trace, w.now, d, w.vaults[d], a)
  {
    w.(vaults := w.vaults[d := TablesAfter(w.net, w.trace, w.now, d, w.vaults[d], a)],
       trace := TraceAfter(w.net, w.trace, w.now, d, w.vaults[d], a))
  }

  function ApplyStart(w: World, p: nat, x: Envelope): World
    requires IsOpen(w, p)
  {
    w.(host := StartJob(w.host, p, x),
       trace := if x.id in w.host.processes[p].jobs then w.trace else w.trace.(started := w.trace.started + {x.id}))
  }

  function ApplyFinish(w: World, p: nat, job: Job, acceptance: bool): World
    requires p in w.host.processes
  {
    var over := w.(host := EndJob(w.host, p, job));
    if acceptance && IsOpen(w, p) && SameSession(w.host, w.host.processes[p], job)
    then over.(vaults := w.vaults[VaultOf(w, p) := MarkAccepted(TablesOf(w, p), job.envelope.id)])
    else over
  }

  /** Unlocking, locking and crashing concern one process only. */
  function HostAfter(h: Host, s: Step): Host {
    match s
    case OpenVault(p, d, handle) =>
      if p in h.processes then CloseTransport(h, p, true, Some(Session(d, handle))).(handles := h.handles[handle := d]) else h
    case LockVault(p) => if p in h.processes then CloseTransport(h, p, true, None) else h
    case Crash(p) => h.(processes := h.processes[p := IDLE])
    case StartTransport(p, transport) =>
      if p in h.processes
      then h.(processes := h.processes[p := h.processes[p].(transport := Some(transport))], transports := h.transports + {transport})
      else h
    case StopTransport(p, forget) => if p in h.processes then CloseTransport(h, p, forget, h.processes[p].open) else h
    case _ => h
  }

  // ----- runs -----

  /** Every vault empty, every process locked, nothing sent yet. */
  ghost predicate Initial(w: World) {
    && (forall d :: d in w.vaults ==> w.vaults[d] == EMPTY)
    && (forall p :: p in w.host.processes ==> w.host.processes[p] == IDLE)
    && w.host.handles == map[] && w.host.transports == {} && w.host.stopped == {}
    && w.net == Network({}, {}, {}, map[], map[], {})
    && w.trace == Trace(w.vaults.Keys, map[], 0, map[], map[], {}, multiset{})
  }

  /** Whether `steps` can be taken one after the other from `w`. */
  ghost predicate IsRun(w: World, steps: seq<Step>)
    decreases |steps|
  {
    steps == [] || (Enabled(w, steps[0]) && IsRun(Apply(w, steps[0]), steps[1..]))
  }

  ghost function After(w: World, steps: seq<Step>): World
    requires IsRun(w, steps)
    decreases |steps|
  {
    if steps == [] then w else After(Apply(w, steps[0]), steps[1..])
  }
}
