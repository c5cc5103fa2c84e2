/** How the sockets of one punch are shared out: the budget, group and channel arithmetic
    of `punch_connection` (src/punch/strategy.rs). */
module PunchBudget {
  import opened Wrappers

  /** Local ports held per target. Slot 0, the bound port, always exists. */
  function PortsPerTarget(parallel: nat, budget: nat, targets: nat): (p: nat)
    ensures 1 <= p <= Max(1, parallel)
  {
    Min(Max(1, parallel), Max(1, budget / Max(1, targets)))
  }

  /** How many groups of targets are served at a time. */
  function Groups(targets: nat, budget: nat, ports: nat): (g: nat)
    ensures g <= targets && (targets > 0 ==> g > 0)
  {
    Min(targets, Max(1, Max(1, budget) / Max(1, ports)))
  }

  predicate Rotating(targets: nat, budget: nat, ports: nat) {
    Groups(targets, budget, ports) < targets && ports == 1
  }

  function Capacity(targets: nat, ports: nat): nat {
    Max(4, targets * ports + 2)
  }

  lemma QuotientTimes(a: nat, b: nat)
    requires b > 0
    ensures (a / b) * b <= a < (a / b + 1) * b
  {
    assert a == (a / b) * b + a % b;
    assert (a / b + 1) * b == (a / b) * b + b;
  }

  /** The budget is used up: as many ports per target, and then as many groups, as it allows. */
  lemma NoneToSpare(targets: nat, parallel: nat, budget: nat, p: nat, g: nat)
    requires 1 <= p <= Max(1, parallel) && 1 <= g <= targets
    ensures p <= PortsPerTarget(parallel, budget, targets) <==> p == 1 || p * targets <= budget
    ensures g <= Groups(targets, budget, p) <==> g == 1 || g * p <= Max(1, budget)
  {
    var most := Max(1, budget);
    AtMostQuotient(budget, targets, p);
    AtMostQuotient(most, p, g);
  }

  lemma AtMostQuotient(a: nat, b: nat, x: nat)
    requires b > 0
    ensures x <= a / b <==> x * b <= a
  {
    QuotientTimes(a, b);
    if x <= a / b { MulMonotone(x, a / b, b); } else { MulMonotone(a / b + 1, x, b); }
  }

  /** Never more sockets at a time than the budget, or the one that always exists. */
  lemma SocketsWithinBudget(targets: nat, parallel: nat, budget: nat)
    requires targets > 0
    ensures var ports := PortsPerTarget(parallel, budget, targets);
            Groups(targets, budget, ports) * ports <= Max(1, budget)
  {
    var ports := PortsPerTarget(parallel, budget, targets);
    var groups := Groups(targets, budget, ports);
    var most := Max(1, budget);
    var share := most / ports;
    QuotientTimes(most, ports);
    QuotientTimes(budget, targets);
    if share >= 1 {
      MulMonotone(groups, share, ports);
    } else {
      assert ports > most;
      assert budget / targets >= ports;
      ProductBound(ports, targets, budget);
    }
  }

  lemma ProductBound(ports: nat, targets: nat, budget: nat)
    requires targets > 0 && ports <= budget / targets
    ensures ports <= budget
  {
    QuotientTimes(budget, targets);
    MulMonotone(ports, budget / targets, targets);
    MulMonotone(1, targets, ports);
  }

  /** Targets take turns exactly where there are more of them than sockets allowed; then
      each is served from a single port. Fewer groups than targets always means turns, so
      the branch for groups without turns never runs. */
  lemma TurnsOnlyWhenShort(targets: nat, parallel: nat, budget: nat)
    requires targets > 0
    ensures var ports := PortsPerTarget(parallel, budget, targets);
            && (Rotating(targets, budget, ports) <==> targets > Max(1, budget))
            && (targets > Max(1, budget) ==> ports == 1)
            && (Groups(targets, budget, ports) < targets ==> Rotating(targets, budget, ports))
  {
    var ports := PortsPerTarget(parallel, budget, targets);
    var most := Max(1, budget);
    var q := budget / targets;
    QuotientTimes(budget, targets);
    QuotientTimes(most, ports);
    if targets > most {
      if q >= 1 { MulMonotone(1, q, targets); }
      assert ports == 1;
    } else {
      EachGetsPorts(targets, ports, budget);
    }
  }

  /** Enough for all: every target is a group of its own. */
  lemma EachGetsPorts(targets: nat, ports: nat, budget: nat)
    requires 0 < targets <= Max(1, budget) && 1 <= ports <= Max(1, budget / targets)
    ensures Groups(targets, budget, ports) == targets
  {
    var most := Max(1, budget);
    var share := most / ports;
    QuotientTimes(budget, targets);
    QuotientTimes(most, ports);
    if ports > 1 {
      MulMonotone(ports, budget / targets, targets);
      assert ports * targets <= budget;
      if share < targets {
        MulMonotone(share + 1, targets, ports);
        assert targets * ports == ports * targets;
      }
    }
  }

  /** Every connector sends at most one candidate and the listener at most one: however few
      have been taken out, the channel has room for the next. */
  lemma ChannelNeverFull(targets: nat, parallel: nat, budget: nat, sent: nat, taken: nat)
    requires targets > 0 && taken <= sent
    ensures var ports := PortsPerTarget(parallel, budget, targets);
            sent < Groups(targets, budget, ports) * ports + 1 ==> sent - taken < Capacity(targets, ports)
  {
    var ports := PortsPerTarget(parallel, budget, targets);
    MulMonotone(Groups(targets, budget, ports), targets, ports);
  }

  // ---------- groups ----------

  /** Every `step`-th target from the g-th on. */
  function Strided<T>(ts: seq<T>, g: nat, step: nat): seq<T>
    requires step > 0
    decreases Max(0, |ts| - g)
  {
    if g >= |ts| then [] else [ts[g]] + Strided(ts, g + step, step)
  }

  lemma {:induction false} StridedAt<T>(ts: seq<T>, g: nat, step: nat, k: nat)
    requires step > 0
    ensures k < |Strided(ts, g, step)| <==> g + k * step < |ts|
    ensures k < |Strided(ts, g, step)| ==> Strided(ts, g, step)[k] == ts[g + k * step]
    decreases k
  {
    if k > 0 {
      assert g + k * step == (g + step) + (k - 1) * step;
      if g < |ts| { StridedAt(ts, g + step, step, k - 1); } else { MulMonotone(0, k, step); }
    }
  }

  /** Every target is served by exactly one group, at exactly one place in it, and no group
      is empty. */
  lemma GroupsPartition<T>(ts: seq<T>, groups: nat, i: nat, g: nat, k: nat)
    requires 0 < groups <= |ts| && i < |ts| && g < groups
    ensures Strided(ts, g, groups) != []
    ensures i / groups < |Strided(ts, i % groups, groups)|
         && Strided(ts, i % groups, groups)[i / groups] == ts[i]
    ensures g + k * groups == i <==> g == i % groups && k == i / groups
  {
    var q, r := i / groups, i % groups;
    assert q * groups + r == i;
    StridedAt(ts, g, groups, 0);
    StridedAt(ts, r, groups, q);
    hide Strided;
    if g + k * groups == i { Place(k, g, groups); }
  }

  /** What a connector task is started with. */
  datatype Connector<T> = Connector(targets: seq<T>, group: nat, slot: nat)

  /** The connectors in the order they are started: group by group, slot by slot. */
  method StartConnectors<T>(ts: seq<T>, groups: nat, ports: nat) returns (started: seq<Connector<T>>)
    requires ports > 0 && groups <= |ts|
    ensures |started| == groups * ports
    ensures forall n: nat :: n < |started| ==>
              started[n] == Connector(Strided(ts, n / ports, groups), n / ports, n % ports)
  {
    started := [];
    var group := 0;
    while group < groups
      invariant 0 <= group <= groups && |started| == group * ports
      invariant forall n: nat :: n < |started| ==>
                  started[n] == Connector(Strided(ts, n / ports, groups), n / ports, n % ports)
    {
      var mine := Strided(ts, group, groups);
      var slot := 0;
      while slot < ports
        invariant 0 <= slot <= ports && |started| == group * ports + slot
        invariant forall n: nat :: n < |started| ==>
                    started[n] == Connector(Strided(ts, n / ports, groups), n / ports, n % ports)
      {
        Place(group, slot, ports);
        started := started + [Connector(mine, group, slot)];
        slot := slot + 1;
      }
      group := group + 1;
      assert group * ports == (group - 1) * ports + ports;
    }
  }

  lemma Place(group: nat, slot: nat, ports: nat)
    requires slot < ports
    ensures (group * ports + slot) / ports == group && (group * ports + slot) % ports == slot
  {
    var n := group * ports + slot;
    var q := n / ports;
    assert n == q * ports + n % ports;
    assert (q + 1) * ports == q * ports + ports && (group + 1) * ports == group * ports + ports;
    if q < group { MulMonotone(q + 1, group, ports); }
    if group < q { MulMonotone(group + 1, q, ports); }
  }

  /** Which target of its group a connector aims at after so many turns. */
  function Aim(turns: nat, size: nat): nat
    requires size > 0
  {
    if turns == 0 then 0 else (Aim(turns - 1, size) + 1) % size
  }

  /** Turn by turn every target of the group comes up, each once in a round. */
  lemma {:induction false} TurnsVisitAll(turns: nat, size: nat)
    requires size > 0
    ensures Aim(turns, size) == turns % size
  {
    if turns > 0 {
      TurnsVisitAll(turns - 1, size);
      NextTurn((turns - 1) / size, (turns - 1) % size, size);
      assert turns - 1 == (turns - 1) / size * size + (turns - 1) % size;
    }
  }

  lemma NextTurn(q: nat, r: nat, size: nat)
    requires r < size
    ensures (q * size + r + 1) % size == (r + 1) % size
  {
    if r + 1 < size {
      Place(q, r + 1, size);
      Place(0, r + 1, size);
    } else {
      assert q * size + r + 1 == (q + 1) * size + 0;
      Place(q + 1, 0, size);
      Place(1, 0, size);
    }
  }
}
