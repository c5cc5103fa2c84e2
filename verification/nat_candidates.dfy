/** Which ports of the peer to try: `build_candidate_ports` of server/nat_analyzer.py. */
module NatCandidates {
  import opened Wrappers
  import opened Rounding

  /** What the function reads of an analysis. */
  datatype Estimate = Estimate(
    needsScan: bool, scanStart: int, scanEnd: int,
    minPort: int, maxPort: int, predicted: int, randomLike: bool)

  predicate Usable(a: Estimate) {
    a.needsScan && 0 < a.scanStart <= a.scanEnd
  }

  /** The prediction lies in the range, as the analysis leaves it. */
  predicate Centred(a: Estimate) {
    Usable(a) && a.scanStart <= a.predicted <= a.scanEnd
  }

  function Total(a: Estimate): int {
    a.scanEnd - a.scanStart + 1
  }

  function Consecutive(from: int, count: int): (s: seq<int>)
    ensures |s| == Max(0, count) && forall i :: 0 <= i < |s| ==> s[i] == from + i
  {
    seq(Max(0, count), i => from + i)
  }

  // ---------- thinning out a band ----------

  /** The band without its margin, or the whole range where that leaves nothing. */
  function BandStart(a: Estimate): int {
    if Min(a.scanEnd, a.maxPort) <= Max(a.scanStart, a.minPort) then a.scanStart else Max(a.scanStart, a.minPort)
  }

  function BandEnd(a: Estimate): int {
    if Min(a.scanEnd, a.maxPort) <= Max(a.scanStart, a.minPort) then a.scanEnd else Min(a.scanEnd, a.maxPort)
  }

  function Offset(i: nat, span: nat, rest: nat): int
    requires rest > 0
  {
    if rest == 1 then 0 else HalfEven(i * span, rest - 1)
  }

  /** The first `n` of `rest` ports spread over a band. */
  function Spread(start: int, span: nat, rest: nat, n: nat): (s: seq<int>)
    requires n <= rest
    ensures |s| == n && forall i :: 0 <= i < n ==> s[i] == start + Offset(i, span, rest)
  {
    seq(n, i requires 0 <= i < n => start + Offset(i, span, rest))
  }

  /** `add_port`: a port outside the range, or seen already, is dropped. */
  function Added(ports: seq<int>, port: int, lo: int, hi: int): seq<int> {
    if port < lo || port > hi || port in ports then ports else ports + [port]
  }

  function AddedAll(ports: seq<int>, more: seq<int>, lo: int, hi: int): seq<int>
    decreases |more|
  {
    if more == [] then ports
    else Added(AddedAll(ports, more[..|more| - 1], lo, hi), more[|more| - 1], lo, hi)
  }

  /** The window around the prediction, pushed back at the upper end. */
  function WindowStart(a: Estimate, budget: int): int {
    var centre := if a.predicted != 0 then a.predicted else (a.scanStart + a.scanEnd) / 2;
    var start := Max(a.scanStart, centre - budget / 2);
    if start + budget - 1 > a.scanEnd then Max(a.scanStart, a.scanEnd - budget + 1) else start
  }

  function WindowEnd(a: Estimate, budget: int): int {
    var centre := if a.predicted != 0 then a.predicted else (a.scanStart + a.scanEnd) / 2;
    Min(a.scanEnd, Max(a.scanStart, centre - budget / 2) + budget - 1)
  }

  function Thinned(a: Estimate, budget: int): seq<int>
    requires Usable(a)
  {
    var first := Added([], a.predicted, a.scanStart, a.scanEnd);
    var rest := Max(0, budget - |first|);
    var span := BandEnd(a) - BandStart(a);
    AddedAll(first, Spread(BandStart(a), span, rest, rest), a.scanStart, a.scanEnd)
  }

  function Candidates(a: Estimate, budget: int): seq<int> {
    if !Usable(a) then []
    else if Total(a) <= budget then Consecutive(a.scanStart, Total(a))
    else if a.randomLike then Thinned(a, budget)
    else Consecutive(WindowStart(a, budget), WindowEnd(a, budget) - WindowStart(a, budget) + 1)
  }

  // ---------- as the relay builds it, port by port ----------

  method AddPort(ports: seq<int>, seen: set<int>, port: int, a: Estimate) returns (p: seq<int>, s: set<int>)
    requires seen == set q | q in ports
    ensures p == Added(ports, port, a.scanStart, a.scanEnd)
    ensures s == set q | q in p
  {
    if port < a.scanStart || port > a.scanEnd || port in seen { return ports, seen; }
    return ports + [port], seen + {port};
  }

  method WholeRange(a: Estimate) returns (ports: seq<int>)
    requires Usable(a)
    ensures ports == Consecutive(a.scanStart, Total(a))
  {
    var seen: set<int> := {};
    ports := [];
    var p := a.scanStart;
    while p < a.scanEnd + 1
      invariant a.scanStart <= p <= a.scanEnd + 1
      invariant ports == Consecutive(a.scanStart, p - a.scanStart)
      invariant seen == set q | q in ports
    {
      ports, seen := AddPort(ports, seen, p, a);
      p := p + 1;
    }
  }

  method SpreadOver(a: Estimate, first: seq<int>, start: int, span: nat, rest: nat) returns (ports: seq<int>)
    ensures ports == AddedAll(first, Spread(start, span, rest, rest), a.scanStart, a.scanEnd)
  {
    var seen := set q | q in first;
    ports := first;
    var i := 0;
    while i < rest
      invariant 0 <= i <= rest
      invariant ports == AddedAll(first, Spread(start, span, rest, i), a.scanStart, a.scanEnd)
      invariant seen == set q | q in ports
    {
      var offset := if rest == 1 then 0 else HalfEven(i * span, rest - 1);
      ghost var before := Spread(start, span, rest, i);
      OneMorePoint(start, span, rest, i);
      assert (before + [start + offset])[..i] == before;
      ports, seen := AddPort(ports, seen, start + offset, a);
      i := i + 1;
    }
  }

  lemma OneMorePoint(start: int, span: nat, rest: nat, i: nat)
    requires i < rest
    ensures Spread(start, span, rest, i + 1) == Spread(start, span, rest, i) + [start + Offset(i, span, rest)]
  {
  }

  method BuildCandidatePorts(a: Estimate, budget: int) returns (ports: seq<int>)
    ensures ports == Candidates(a, budget)
  {
    if !a.needsScan || a.scanStart <= 0 || a.scanEnd <= 0 || a.scanEnd < a.scanStart { return []; }
    hide AddedAll, Spread, Consecutive, WindowStart, WindowEnd;
    if a.randomLike {
      var total := a.scanEnd - a.scanStart + 1;
      if total <= budget {
        ports := WholeRange(a);
        return;
      }
      var bandStart, bandEnd := Max(a.scanStart, a.minPort), Min(a.scanEnd, a.maxPort);
      if bandEnd <= bandStart {
        bandStart, bandEnd := a.scanStart, a.scanEnd;
      }
      var seen: set<int>;
      ports, seen := AddPort([], {}, a.predicted, a);
      var rest := budget - |ports|;
      if rest > 0 && bandEnd - bandStart >= 0 {
        ports := SpreadOver(a, ports, bandStart, bandEnd - bandStart, rest);
      } else {
        NothingToAdd(a, ports, bandStart, bandEnd - bandStart);
      }
      return;
    }
    ports := Window(a, budget);
  }

  method Window(a: Estimate, budget: int) returns (ports: seq<int>)
    requires Usable(a) && !a.randomLike
    ensures ports == Candidates(a, budget)
  {
    var total := a.scanEnd - a.scanStart + 1;
    if total <= budget {
      ports := Consecutive(a.scanStart, total);
      return;
    }
    var centre := if a.predicted != 0 then a.predicted else (a.scanStart + a.scanEnd) / 2;
    var half := budget / 2;
    var start := Max(a.scanStart, centre - half);
    var end := start + budget - 1;
    if end > a.scanEnd {
      end := a.scanEnd;
      start := Max(a.scanStart, end - budget + 1);
    }
    ports := Consecutive(start, end + 1 - start);
  }

  lemma NothingToAdd(a: Estimate, ports: seq<int>, start: int, span: nat)
    ensures AddedAll(ports, Spread(start, span, 0, 0), a.scanStart, a.scanEnd) == ports
  {
  }

  // ---------- distinct, in range, within the budget ----------

  ghost predicate Distinct(s: seq<int>) {
    forall i, j :: 0 <= i < j < |s| ==> s[i] != s[j]
  }

  ghost predicate Within(s: seq<int>, lo: int, hi: int) {
    forall i :: 0 <= i < |s| ==> lo <= s[i] <= hi
  }

  /** Ports that get in, in any order they are offered. */
  lemma {:induction false} AddedAllKeeps(ports: seq<int>, more: seq<int>, lo: int, hi: int)
    requires Distinct(ports) && Within(ports, lo, hi)
    ensures var r := AddedAll(ports, more, lo, hi);
            && Distinct(r) && Within(r, lo, hi) && |ports| <= |r| <= |ports| + |more| && r[..|ports|] == ports
            && (forall k :: |ports| <= k < |r| ==> r[k] in more)
            && (forall k :: 0 <= k < |more| && lo <= more[k] <= hi ==> more[k] in r)
    decreases |more|
  {
    if more != [] {
      AddedAllKeeps(ports, more[..|more| - 1], lo, hi);
    }
  }

  /** Every candidate is in the scan range, and none is named twice. */
  lemma CandidatesAreDistinct(a: Estimate, budget: int)
    ensures Distinct(Candidates(a, budget)) && Within(Candidates(a, budget), a.scanStart, a.scanEnd)
  {
    if Usable(a) && Total(a) > budget && a.randomLike {
      var first := Added([], a.predicted, a.scanStart, a.scanEnd);
      var rest := Max(0, budget - |first|);
      AddedAllKeeps(first, Spread(BandStart(a), BandEnd(a) - BandStart(a), rest, rest), a.scanStart, a.scanEnd);
    }
  }

  /** The budget is kept, except that a random-like peer gets its prediction even for
      a budget of nothing. */
  lemma BudgetKept(a: Estimate, budget: int)
    requires Centred(a)
    ensures |Candidates(a, budget)| <= Max(0, budget) <==> !(a.randomLike && budget < 1)
  {
    if Total(a) > budget && a.randomLike {
      var first := Added([], a.predicted, a.scanStart, a.scanEnd);
      var rest := Max(0, budget - |first|);
      AddedAllKeeps(first, Spread(BandStart(a), BandEnd(a) - BandStart(a), rest, rest), a.scanStart, a.scanEnd);
    }
  }

  /** With room for all, all are named; otherwise a point forecast gets a window of
      exactly the budget, without a gap, around its prediction. */
  lemma WindowHoldsPrediction(a: Estimate, budget: int)
    requires Centred(a) && !a.randomLike && 1 <= budget
    ensures var c := Candidates(a, budget);
            && |c| == Min(Total(a), budget) && c == Consecutive(c[0], |c|) && a.predicted in c
  {
    var c := Candidates(a, budget);
    assert a.predicted == c[a.predicted - c[0]];
  }

  /** The prediction is in the middle of its window, unless an end of the range cuts it off. */
  lemma WindowIsCentred(a: Estimate, budget: int)
    requires Centred(a) && !a.randomLike && 1 <= budget < Total(a)
    ensures var c := Candidates(a, budget);
            && |c| == budget
            && (a.scanStart < c[0] && c[budget - 1] < a.scanEnd ==>
                  2 * a.predicted - 1 <= c[0] + c[budget - 1] <= 2 * a.predicted)
  {
    var start, end := WindowStart(a, budget), WindowEnd(a, budget);
    assert Candidates(a, budget) == Consecutive(start, end - start + 1);
    hide Candidates;
  }

  // ---------- a random-like peer with a short budget ----------

  predicate Short(a: Estimate, budget: int) {
    Centred(a) && a.randomLike && 1 <= budget < Total(a)
  }

  function ShortSpread(a: Estimate, budget: int): seq<int>
    requires Usable(a) && budget >= 1
  {
    Spread(BandStart(a), BandEnd(a) - BandStart(a), budget - 1, budget - 1)
  }

  lemma ShortIsThinned(a: Estimate, budget: int)
    requires Short(a, budget)
    ensures Candidates(a, budget) == AddedAll([a.predicted], ShortSpread(a, budget), a.scanStart, a.scanEnd)
  {
    assert Added([], a.predicted, a.scanStart, a.scanEnd) == [a.predicted];
    hide AddedAll, Spread;
    assert Max(0, budget - 1) == budget - 1;
  }

  /** The band lies in the range, and so does every point spread over it. */
  lemma SpreadInBand(a: Estimate, rest: nat, i: nat)
    requires Usable(a) && i < rest
    ensures a.scanStart <= BandStart(a) <= BandEnd(a) <= a.scanEnd
    ensures 0 <= Offset(i, BandEnd(a) - BandStart(a), rest) <= BandEnd(a) - BandStart(a)
  {
    var span := BandEnd(a) - BandStart(a);
    if rest > 1 {
      EndsExact(span, rest);
      MulMonotone(0, i, span);
      MulMonotone(i, rest - 1, span);
      HalfEvenMonotone(0 * span, i * span, rest - 1);
      HalfEvenMonotone(i * span, (rest - 1) * span, rest - 1);
    }
  }

  /** The first point is the lower end, the last one exactly the upper end. */
  lemma EndsExact(span: nat, rest: nat)
    requires rest >= 2
    ensures HalfEven(0 * span, rest - 1) == 0 && HalfEven((rest - 1) * span, rest - 1) == span
  {
    ExactMultiple(0, rest - 1);
    ExactMultiple(span, rest - 1);
    assert (rest - 1) * span == span * (rest - 1);
  }

  lemma ExactMultiple(n: int, den: int)
    requires den > 0
    ensures HalfEven(n * den, den) == n
  {
    var r := HalfEven(n * den, den);
    MulOrder(r, n, den);
    MulOrder(n, r, den);
    MulOrder(r + 1, n, den);
    MulOrder(n + 1, r, den);
    assert (r + 1) * den == r * den + den && (n + 1) * den == n * den + den;
  }

  /** Steps of at least one port: no two points round to the same port. */
  lemma {:induction false} NoCollision(span: nat, rest: nat, i: nat, j: nat)
    requires rest >= 2 && span >= rest - 1 && i < j < rest
    ensures Offset(i, span, rest) < Offset(j, span, rest)
    decreases j - i
  {
    var den := rest - 1;
    assert j * span == (j - 1) * span + span;
    if span == den {
      ExactMultiple(i, den);
      ExactMultiple(j, den);
    } else {
      StepUp((j - 1) * span, j * span, den);
      if i < j - 1 { NoCollision(span, rest, i, j - 1); }
    }
  }

  /** Neighbouring points are at most the step, rounded up, apart. */
  lemma GapBounded(span: nat, rest: nat, i: nat, ceil: nat)
    requires rest >= 2 && i + 1 < rest && span <= ceil * (rest - 1)
    ensures Offset(i + 1, span, rest) <= Offset(i, span, rest) + ceil
  {
    var den := rest - 1;
    assert (i + 1) * span == i * span + span;
    if span == ceil * den {
      assert i * span == (i * ceil) * den && (i + 1) * span == (i * ceil + ceil) * den;
      ExactMultiple(i * ceil, den);
      ExactMultiple(i * ceil + ceil, den);
    } else {
      StepBounded(i * span, (i + 1) * span, den, ceil);
    }
  }

  /** The last point at or below a place in the band is less than a step below it. */
  lemma {:induction false} PointBelow(span: nat, rest: nat, x: nat, ceil: nat, n: nat) returns (i: nat)
    requires rest >= 2 && 1 <= ceil && span <= ceil * (rest - 1)
    requires 1 <= n <= rest && x < Offset(n - 1, span, rest) + ceil
    ensures i < n && Offset(i, span, rest) <= x < Offset(i, span, rest) + ceil
    decreases n
  {
    i := n - 1;
    if x < Offset(n - 1, span, rest) {
      if n == 1 {
        EndsExact(span, rest);
      } else {
        GapBounded(span, rest, n - 2, ceil);
        i := PointBelow(span, rest, x, ceil, n - 1);
      }
    }
  }

  lemma {:induction false} CountAdded(p: int, more: seq<int>, lo: int, hi: int)
    requires Distinct(more) && Within(more, lo, hi) && lo <= p <= hi
    ensures |AddedAll([p], more, lo, hi)| == 1 + |more| - (if p in more then 1 else 0)
    decreases |more|
  {
    if more != [] {
      var init, last := more[..|more| - 1], more[|more| - 1];
      CountAdded(p, init, lo, hi);
      AddedAllKeeps([p], init, lo, hi);
      var r := AddedAll([p], init, lo, hi);
      assert last !in init;
      assert p in more <==> p in init || p == last by { assert more == init + [last]; }
      assert last in r <==> last == p by {
        assert r[0] == p;
        forall k | 0 <= k < |r| && r[k] == last ensures k == 0 {}
      }
    }
  }

  lemma InShortSpread(a: Estimate, budget: int, p: int)
    requires Short(a, budget) && p in ShortSpread(a, budget)
    ensures BandStart(a) <= p <= BandEnd(a)
  {
    var spread := ShortSpread(a, budget);
    var i :| 0 <= i < |spread| && spread[i] == p;
    SpreadInBand(a, budget - 1, i);
    hide Offset, BandStart, BandEnd;
  }

  /** The prediction comes first, every other candidate is one the observed band, without
      its margin, holds, and the budget is kept. */
  lemma ShortList(a: Estimate, budget: int)
    requires Short(a, budget)
    ensures var c := Candidates(a, budget);
            && 1 <= |c| <= budget && c[0] == a.predicted
            && (forall k :: 1 <= k < |c| ==> BandStart(a) <= c[k] <= BandEnd(a))
  {
    var spread := ShortSpread(a, budget);
    ShortIsThinned(a, budget);
    AddedAllKeeps([a.predicted], spread, a.scanStart, a.scanEnd);
    var c := Candidates(a, budget);
    hide Candidates, AddedAll, Offset, BandStart, BandEnd, Distinct, Within;
    assert c[0] == c[..1][0];
    forall k | 1 <= k < |c| ensures BandStart(a) <= c[k] <= BandEnd(a) {
      InShortSpread(a, budget, c[k]);
    }
  }

  /** Where the scan range reaches over all that was observed, that is the band. */
  lemma BandIsObserved(a: Estimate)
    requires Usable(a) && a.scanStart <= a.minPort < a.maxPort <= a.scanEnd
    ensures BandStart(a) == a.minPort && BandEnd(a) == a.maxPort
  {
  }

  /** Where the band has a port for every point, none of the budget is lost to rounding:
      only a point that falls on the prediction itself is saved. */
  lemma ShortListIsFull(a: Estimate, budget: int)
    requires Short(a, budget) && BandEnd(a) - BandStart(a) >= budget - 2
    ensures var c := Candidates(a, budget);
            budget - 1 <= |c| <= budget
            && (|c| == budget <==>
                  a.predicted !in ShortSpread(a, budget))
  {
    var span := BandEnd(a) - BandStart(a);
    var spread := ShortSpread(a, budget);
    ShortIsThinned(a, budget);
    hide Candidates, Thinned, AddedAll, Offset;
    assert Distinct(spread) by {
      forall i, j | 0 <= i < j < |spread| ensures spread[i] != spread[j] {
        NoCollision(span, budget - 1, i, j);
      }
    }
    assert Within(spread, a.scanStart, a.scanEnd) by {
      forall i | 0 <= i < |spread| ensures a.scanStart <= spread[i] <= a.scanEnd {
        SpreadInBand(a, budget - 1, i);
      }
    }
    hide Distinct, Within;
    CountAdded(a.predicted, spread, a.scanStart, a.scanEnd);
  }

  lemma {:induction false} OfferedIsIn(ports: seq<int>, more: seq<int>, lo: int, hi: int, i: nat)
    requires i < |more| && lo <= more[i] <= hi
    ensures more[i] in AddedAll(ports, more, lo, hi)
    decreases |more|
  {
    if i < |more| - 1 { OfferedIsIn(ports, more[..|more| - 1], lo, hi, i); }
  }

  /** Every point of the spread is among the candidates. */
  lemma PointListed(a: Estimate, budget: int, i: nat)
    requires Short(a, budget) && i < budget - 1
    ensures BandStart(a) + Offset(i, BandEnd(a) - BandStart(a), budget - 1) in Candidates(a, budget)
  {
    ShortIsThinned(a, budget);
    SpreadInBand(a, budget - 1, i);
    hide Candidates, AddedAll, Offset, BandStart, BandEnd;
    OfferedIsIn([a.predicted], ShortSpread(a, budget), a.scanStart, a.scanEnd, i);
  }

  /** Both ends of the band are tried, and of any `ceil` neighbouring ports of the band
      one is, where `ceil` is the step rounded up. With a step of at most one port that
      is the whole band. */
  lemma BandIsCovered(a: Estimate, budget: int, port: int, ceil: nat)
    requires Short(a, budget) && budget >= 3 && BandStart(a) <= port <= BandEnd(a)
    requires 1 <= ceil && BandEnd(a) - BandStart(a) <= ceil * (budget - 2)
    ensures BandStart(a) in Candidates(a, budget) && BandEnd(a) in Candidates(a, budget)
    ensures exists c :: c in Candidates(a, budget) && c <= port < c + ceil
  {
    var span, rest := BandEnd(a) - BandStart(a), budget - 1;
    EndsExact(span, rest);
    PointListed(a, budget, 0);
    PointListed(a, budget, rest - 1);
    var i := PointBelow(span, rest, port - BandStart(a), ceil, rest);
    PointListed(a, budget, i);
  }

  /** Where the scan range reaches over all that was observed, nothing else but the prediction
      is tried, and with room for three ports both extremes are. */
  lemma OnlyObservedTried(a: Estimate, budget: int)
    requires Short(a, budget) && a.scanStart <= a.minPort < a.maxPort <= a.scanEnd
    ensures var c := Candidates(a, budget);
            && 1 <= |c| <= budget && c[0] == a.predicted
            && (forall k :: 1 <= k < |c| ==> a.minPort <= c[k] <= a.maxPort)
            && (budget >= 3 ==> a.minPort in c && a.maxPort in c)
  {
    BandIsObserved(a);
    ShortList(a, budget);
    if budget >= 3 {
      hide *;
      assert 1 * (a.maxPort - a.minPort) <= (budget - 2) * (a.maxPort - a.minPort) by {
        MulMonotone(1, budget - 2, a.maxPort - a.minPort);
      }
      assert (a.maxPort - a.minPort) * (budget - 2) == (budget - 2) * (a.maxPort - a.minPort);
      BandIsCovered(a, budget, a.minPort, a.maxPort - a.minPort);
    }
  }

  lemma WholeBandWhenItFits(a: Estimate, budget: int, port: int)
    requires Short(a, budget) && budget >= 3 && BandStart(a) <= port <= BandEnd(a)
    requires BandEnd(a) - BandStart(a) <= budget - 2
    ensures port in Candidates(a, budget)
  {
    BandIsCovered(a, budget, port, 1);
    var c :| c in Candidates(a, budget) && c <= port < c + 1;
    assert c == port;
  }
}
