/**
 The promise chain that serialises the daemon: each critical section waits for the one
 that arrived before it, and its release lets the next one in.
 */
module RequestChain {
  type Ticket = nat

  /** `arrived` in order; a section is inside between entering and being released. */
  datatype Chain = Chain(arrived: seq<Ticket>, entered: set<Ticket>, released: set<Ticket>)

  datatype Step = Arrive(t: Ticket) | Enter(t: Ticket) | Release(t: Ticket)

  predicate At(c: Chain, i: nat, t: Ticket) {
    i < |c.arrived| && c.arrived[i] == t
  }

  ghost predicate Enabled(c: Chain, s: Step) {
    match s
    case Arrive(t) => t !in c.arrived
    case Enter(t) => t !in c.entered && exists i: nat :: At(c, i, t) && (i == 0 || c.arrived[i - 1] in c.released)
    case Release(t) => t in c.arrived
  }

  function Apply(c: Chain, s: Step): Chain {
    match s
    case Arrive(t) => c.(arrived := c.arrived + [t])
    case Enter(t) => c.(entered := c.entered + {t})
    case Release(t) => c.(released := c.released + {t})
  }

  predicate Inside(c: Chain, t: Ticket) {
    t in c.entered && t !in c.released
  }

  /** A section gives up its place only after it got in. */
  predicate Orderly(c: Chain, s: Step) {
    s.Release? ==> s.t in c.entered
  }

  ghost predicate IsOrderlyRun(c: Chain, steps: seq<Step>)
    decreases |steps|
  {
    steps == [] || (Enabled(c, steps[0]) && Orderly(c, steps[0]) && IsOrderlyRun(Apply(c, steps[0]), steps[1..]))
  }

  function After(c: Chain, steps: seq<Step>): Chain
    decreases |steps|
  {
    if steps == [] then c else After(Apply(c, steps[0]), steps[1..])
  }

  /** Whoever entered, everyone before was released: the chain is a queue. */
  ghost predicate InTurn(c: Chain) {
    && (forall i, j :: 0 <= i < j < |c.arrived| ==> c.arrived[i] != c.arrived[j])
    && (forall t :: t in c.entered ==> t in c.arrived)
    && (forall t :: t in c.released ==> t in c.entered)
    && (forall i, j :: 0 <= i < j < |c.arrived| && c.arrived[j] in c.entered ==> c.arrived[i] in c.released)
  }

  lemma StepKeepsTurn(c: Chain, s: Step)
    requires InTurn(c) && Enabled(c, s) && Orderly(c, s)
    ensures InTurn(Apply(c, s))
  {
    if s.Enter? {
      var k: nat :| At(c, k, s.t) && (k == 0 || c.arrived[k - 1] in c.released);
      assert forall i :: 0 <= i < k - 1 ==> c.arrived[k - 1] in c.entered && c.arrived[i] in c.released;
    }
  }

  lemma {:induction false} RunKeepsTurn(c: Chain, steps: seq<Step>)
    requires InTurn(c) && IsOrderlyRun(c, steps)
    ensures InTurn(After(c, steps))
    decreases |steps|
  {
    hide Enabled, InTurn;
    if steps != [] {
      StepKeepsTurn(c, steps[0]);
      RunKeepsTurn(Apply(c, steps[0]), steps[1..]);
    }
  }

  /** Two critical sections never overlap, and they run in the order in which they arrived. */
  lemma SectionsNeverOverlap(steps: seq<Step>, t: Ticket, u: Ticket)
    requires IsOrderlyRun(Chain([], {}, {}), steps)
    requires Inside(After(Chain([], {}, {}), steps), t) && Inside(After(Chain([], {}, {}), steps), u)
    ensures t == u
  {
    RunKeepsTurn(Chain([], {}, {}), steps);
    var c := After(Chain([], {}, {}), steps);
    assert t in c.arrived && u in c.arrived;
  }

  /**
   The condition is needed: whenever someone is inside and two more wait, releasing the
   first of these before it got in lets the second in as well.
   */
  lemma EarlyReleaseOverlaps(c: Chain, i: nat)
    requires InTurn(c) && i + 2 < |c.arrived| && Inside(c, c.arrived[i])
    ensures var r := Release(c.arrived[i + 1]);
            && Enabled(c, r) && !Orderly(c, r)
            && Enabled(Apply(c, r), Enter(c.arrived[i + 2]))
            && Inside(Apply(Apply(c, r), Enter(c.arrived[i + 2])), c.arrived[i + 2])
            && Inside(Apply(Apply(c, r), Enter(c.arrived[i + 2])), c.arrived[i])
  {
    assert c.arrived[i + 1] !in c.entered && c.arrived[i + 2] !in c.entered;
    assert At(Apply(c, Release(c.arrived[i + 1])), i + 2, c.arrived[i + 2]);
  }
}
