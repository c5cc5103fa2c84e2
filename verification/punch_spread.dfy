/** Where the targets come from, in which order, and how thinning spreads over them: `build_targets`
    of src/punch/strategy.rs. */
module PunchSpread {
  import opened Wrappers
  import opened Rounding
  import opened PunchTargets
  import N = NatEstimate

  // ---------- what is collected ----------

  /** The first place an address occurs at. */
  predicate FirstAt(infos: seq<Info>, k: nat, addr: Addr) {
    k < |infos| && infos[k].addr == Some(addr) && forall j :: 0 <= j < k ==> infos[j].addr != Some(addr)
  }

  predicate Marked(info: Info, sameNetwork: bool) {
    info.local || (sameNetwork && info.addr.Some? && IsPrivate(info.addr.value))
  }

  lemma FirstAtInPart(infos: seq<Info>, n: nat, k: nat, addr: Addr)
    requires k < n <= |infos|
    ensures FirstAt(infos[..n], k, addr) <==> FirstAt(infos, k, addr)
  {
  }

  lemma OneFirst(infos: seq<Info>, k: nat, l: nat, addr: Addr)
    requires FirstAt(infos, k, addr) && FirstAt(infos, l, addr)
    ensures k == l
  {
  }

  /** The target the i-th of them was made of. */
  lemma {:induction false} OriginOf(infos: seq<Info>, sameNetwork: bool, i: nat) returns (k: nat)
    requires i < |Collected(infos, sameNetwork)|
    ensures var t := Collected(infos, sameNetwork)[i];
            FirstAt(infos, k, t.addr) && t.lan == Marked(infos[k], sameNetwork)
    decreases |infos|
  {
    var n := |infos| - 1;
    var before := Collected(infos[..n], sameNetwork);
    if i < |before| {
      k := OriginOf(infos[..n], sameNetwork, i);
      FirstAtInPart(infos, n, k, before[i].addr);
    } else {
      k := n;
      var addr := infos[n].addr.value;
      forall j | 0 <= j < n ensures infos[j].addr != Some(addr) {
        if infos[j].addr == Some(addr) { Remembered(infos[..n], sameNetwork, j); }
      }
    }
  }

  /** An address that parses is known from there on. */
  lemma {:induction false} Remembered(infos: seq<Info>, sameNetwork: bool, j: nat)
    requires j < |infos| && infos[j].addr.Some?
    ensures Knows(Collected(infos, sameNetwork), infos[j].addr.value)
    decreases |infos|
  {
    var n := |infos| - 1;
    var before, after := Collected(infos[..n], sameNetwork), Collected(infos, sameNetwork);
    if j < n {
      Remembered(infos[..n], sameNetwork, j);
      var i :| 0 <= i < |before| && before[i].addr == infos[j].addr.value;
      assert after[i] == before[i];
    } else if !Knows(before, infos[j].addr.value) {
      assert after[|before|].addr == infos[j].addr.value;
    }
  }

  /** Exactly the addresses that parse are collected, each marked as where it occurs first. */
  lemma CollectedExactly(infos: seq<Info>, sameNetwork: bool, t: Target)
    ensures t in Collected(infos, sameNetwork)
            <==> exists k: nat :: FirstAt(infos, k, t.addr) && t.lan == Marked(infos[k], sameNetwork)
  {
    var c := Collected(infos, sameNetwork);
    if t in c {
      var i :| 0 <= i < |c| && c[i] == t;
      var k := OriginOf(infos, sameNetwork, i);
    }
    forall k: nat | FirstAt(infos, k, t.addr) && t.lan == Marked(infos[k], sameNetwork) ensures t in c {
      Remembered(infos, sameNetwork, k);
      var i :| 0 <= i < |c| && c[i].addr == t.addr;
      var l := OriginOf(infos, sameNetwork, i);
      OneFirst(infos, k, l, t.addr);
      assert c[i] == t;
    }
  }

  /** They stay in the order in which they first occur. */
  lemma {:induction false} CollectedInOrder(infos: seq<Info>, sameNetwork: bool, i: nat, j: nat, k: nat, l: nat)
    requires i < j < |Collected(infos, sameNetwork)|
    requires FirstAt(infos, k, Collected(infos, sameNetwork)[i].addr)
    requires FirstAt(infos, l, Collected(infos, sameNetwork)[j].addr)
    ensures k < l
    decreases |infos|
  {
    var n := |infos| - 1;
    var before, after := Collected(infos[..n], sameNetwork), Collected(infos, sameNetwork);
    var p := OriginOf(infos[..n], sameNetwork, i);
    FirstAtInPart(infos, n, p, before[i].addr);
    OneFirst(infos, k, p, after[i].addr);
    if j < |before| {
      var q := OriginOf(infos[..n], sameNetwork, j);
      FirstAtInPart(infos, n, q, before[j].addr);
      OneFirst(infos, l, q, after[j].addr);
      CollectedInOrder(infos[..n], sameNetwork, i, j, k, l);
    } else {
      assert infos[n].addr == Some(after[j].addr) && !Knows(before, after[j].addr);
      if l < n { Remembered(infos[..n], sameNetwork, l); }
    }
  }

  function Number(addr: Addr): nat
    requires addr.V4?
  {
    ((addr.a * 256 + addr.b) * 256 + addr.c) * 256 + addr.d
  }

  /** The three blocks of section 3 of RFC 1918, as ranges of 32-bit numbers. */
  lemma PrivateBlocks(addr: Addr)
    requires addr.V4? && addr.a < 256 && addr.b < 256 && addr.c < 256 && addr.d < 256
    ensures IsPrivate(addr) <==>
              || Number(V4(10, 0, 0, 0, 0)) <= Number(addr) <= Number(V4(10, 255, 255, 255, 0))
              || Number(V4(172, 16, 0, 0, 0)) <= Number(addr) <= Number(V4(172, 31, 255, 255, 0))
              || Number(V4(192, 168, 0, 0, 0)) <= Number(addr) <= Number(V4(192, 168, 255, 255, 0))
  {
    assert Number(addr) == addr.a * 16777216 + addr.b * 65536 + addr.c * 256 + addr.d;
  }

  /** With the extremes the relay observed as its edges, the band holds every port observed, and none
      beyond them. */
  lemma ObservedIsInside(ports: seq<int>, t: Target)
    requires N.PositivePorts(ports) && ports != []
    ensures N.MinOf(ports) > 0 && N.MaxOf(ports) > 0
    ensures var band := Band(N.MinOf(ports), N.MaxOf(ports));
            && (t.addr.port in ports ==> InBand(t, band))
            && (t.addr.port < N.MinOf(ports) || t.addr.port > N.MaxOf(ports) ==> !InBand(t, band))
  {
    N.ExtremesBound(ports);
    if t.addr.port in ports { N.Within(ports, t.addr.port); }
    hide N.MinOf, N.MaxOf;
  }

  // ---------- picks lie evenly ----------

  lemma GapOfPicks(i: nat, count: nat, len: nat, gap: nat)
    requires count > 0 && len > 0 && len <= gap * count
    ensures Index(i + 1, count, len) <= Index(i, count, len) + gap
  {
    assert (i + 1) * len == i * len + len;
    RoundedGap(i * len, (i + 1) * len, count, gap);
    hide HalfAway;
  }

  lemma RoundedGap(num: nat, num': nat, den: nat, gap: nat)
    requires den > 0 && num' <= num + gap * den
    ensures HalfAway(num', den) <= HalfAway(num, den) + gap
  {
    var r, r' := HalfAway(num, den), HalfAway(num', den);
    assert (r + gap + 1) * den == r * den + gap * den + den;
    hide HalfAway;
    if r' >= r + gap + 1 { MulMonotone(r + gap + 1, r', den); }
  }

  lemma FirstPick(count: nat, len: nat)
    requires count > 0 && len > 0
    ensures Index(0, count, len) == 0
  {
    var z := HalfAway(0 * len, count);
    if z >= 1 { MulMonotone(1, z, count); }
  }

  lemma LastPick(count: nat, len: nat, gap: nat)
    requires count > 0 && len > 0 && gap > 0 && len <= gap * count
    ensures Index(count - 1, count, len) >= len - gap
  {
    var num := (count - 1) * len;
    var r := HalfAway(num, count);
    assert num == len * count - len;
    assert (len - gap - 1) * count == len * count - gap * count - count;
    hide HalfAway;
    if r <= len - gap - 1 { MulMonotone(r, len - gap - 1, count); }
  }

  /** One of any `gap` neighbouring places is picked. */
  lemma {:induction false} PickWithin(count: nat, len: nat, gap: nat, from: nat, n: nat) returns (i: nat)
    requires count > 0 && len > 0 && len <= gap * count
    requires n < count && from <= Index(n, count, len)
    ensures i <= n && from <= Index(i, count, len) && (i == 0 || Index(i, count, len) < from + gap)
    decreases n
  {
    i := n;
    if n > 0 {
      GapOfPicks(n - 1, count, len, gap);
      if from <= Index(n - 1, count, len) { i := PickWithin(count, len, gap, from, n - 1); }
    }
  }

  lemma {:induction false} PickKnown(out: seq<Target>, source: seq<Target>, count: nat, n: nat, i: nat)
    requires source != [] && i < n <= count
    ensures Knows(Picked(out, source, count, n), source[Index(i, count, |source|)].addr)
    decreases n
  {
    var before, t := Picked(out, source, count, n - 1), source[Index(n - 1, count, |source|)];
    if i < n - 1 {
      PickKnown(out, source, count, n - 1, i);
      hide Picked, Index;
      StillKnown(before, t, source[Index(i, count, |source|)].addr);
    } else {
      hide Picked, Index;
      NowKnown(before, t);
    }
  }

  lemma StillKnown(ts: seq<Target>, t: Target, addr: Addr)
    requires Knows(ts, addr)
    ensures Knows(PushNew(ts, t), addr)
  {
    var i :| 0 <= i < |ts| && ts[i].addr == addr;
    assert PushNew(ts, t)[i].addr == addr;
  }

  lemma NowKnown(ts: seq<Target>, t: Target)
    ensures Knows(PushNew(ts, t), t.addr)
  {
    if !Knows(ts, t.addr) { assert PushNew(ts, t)[|ts|].addr == t.addr; }
  }

  /** Not cut off, but thinned out: of any `gap` neighbouring targets one is taken, where `gap` is
      the step rounded up. */
  lemma TakenEvenly(out: seq<Target>, source: seq<Target>, count: nat, gap: nat, from: nat) returns (k: nat)
    requires count > 0 && gap > 0 && |source| <= gap * count && from + gap <= |source|
    ensures from <= k < from + gap && Knows(Take(out, source, count), source[k].addr)
  {
    FirstPick(count, |source|);
    LastPick(count, |source|, gap);
    var i := PickWithin(count, |source|, gap, from, count - 1);
    PickKnown(out, source, count, count, i);
    k := Index(i, count, |source|);
  }

  // ---------- and so does thinning ----------

  lemma {:induction false} BandedOf(ts: seq<Target>, us: seq<Target>, band: Band, inside: bool)
    ensures Banded(ts + us, band, inside) == Banded(ts, band, inside) + Banded(us, band, inside)
    decreases |us|
  {
    if us == [] {
      assert ts + us == ts;
    } else {
      assert (ts + us)[..|ts + us| - 1] == ts + us[..|us| - 1];
      BandedOf(ts, us[..|us| - 1], band, inside);
    }
  }

  lemma BandedBetween(ts: seq<Target>, x: nat, y: nat, band: Band, inside: bool)
    requires x <= y <= |ts|
    ensures Banded(ts, band, inside)
         == Banded(ts[..x], band, inside) + Banded(ts[x..y], band, inside) + Banded(ts[y..], band, inside)
  {
    BandedOf(ts[..x] + ts[x..y], ts[y..], band, inside);
    BandedOf(ts[..x], ts[x..y], band, inside);
    assert ts == ts[..x] + ts[x..y] + ts[y..];
  }

  lemma {:induction false} AllOutside(ts: seq<Target>, band: Band)
    requires Banded(ts, band, true) == []
    ensures Banded(ts, band, false) == ts
    decreases |ts|
  {
    if ts != [] {
      AllOutside(ts[..|ts| - 1], band);
      assert ts == ts[..|ts| - 1] + [ts[|ts| - 1]];
    }
  }

  /** How much of the budget is left for one part of the rest: the band is drawn on first. */
  function Room(head: seq<Target>, rest: seq<Target>, band: Band, max: nat, inside: bool): int {
    max - |head| - if inside then 0 else |Banded(rest, band, true)|
  }

  /** What the result of filling up is: one part thinned out, or taken whole before the other is. */
  lemma FilledIs(head: seq<Target>, rest: seq<Target>, band: Band, max: nat)
    requires Fillable(head, rest, max)
    ensures var inner, outer := Banded(rest, band, true), Banded(rest, band, false);
            Filled(head, rest, band, max) ==
              if inner == [] then Take(head, outer, max - |head|)
              else if |inner| >= max - |head| then Take(head, inner, max - |head|)
              else Take(head + inner, outer, max - |head| - |inner|)
  {
    var inner, outer, count := Banded(rest, band, true), Banded(rest, band, false), max - |head|;
    assert Distinct(head) && Distinct(rest) && Apart(head, rest) && 0 <= count < |rest|;
    BandTaken(head, rest, band, max);
    hide Distinct, Apart, Banded, Take, Filled, Fillable, Taken;
    if inner == [] {
      AllOutside(rest, band);
      TakeIsExact(head, rest, count);
      TakenSize(head, rest, count, Take(head, rest, count));
      FilledFromRest(head, rest, band, max);
    } else if |inner| >= count {
      TakenSize(head, inner, count, Take(head, inner, count));
      FilledAtOnce(head, rest, band, max);
    } else {
      TakenWhole(head, inner, count, Take(head, inner, count));
      FilledTwice(head, rest, band, max);
    }
  }

  lemma FilledTwice(head: seq<Target>, rest: seq<Target>, band: Band, max: nat)
    requires |head| + |Banded(rest, band, true)| < max && Banded(rest, band, true) != []
    requires Take(head, Banded(rest, band, true), max - |head|) == head + Banded(rest, band, true)
    ensures Filled(head, rest, band, max)
         == Take(head + Banded(rest, band, true), Banded(rest, band, false), max - |head| - |Banded(rest, band, true)|)
  {
  }

  lemma PartEvenly(head: seq<Target>, rest: seq<Target>, band: Band, max: nat, inside: bool, from: nat, gap: nat)
    returns (k: nat)
    requires Fillable(head, rest, max) && 0 < gap && from + gap <= |Banded(rest, band, inside)|
    requires |Banded(rest, band, inside)| <= gap * Room(head, rest, band, max, inside)
    ensures from <= k < from + gap && Knows(Filled(head, rest, band, max), Banded(rest, band, inside)[k].addr)
  {
    var inner, outer, count := Banded(rest, band, true), Banded(rest, band, false), max - |head|;
    RoomNeeded(|Banded(rest, band, inside)|, gap, Room(head, rest, band, max, inside));
    FilledIs(head, rest, band, max);
    BandKeptWhole(head, rest, band, max);
    hide Banded, Filled, Take, Fillable, Knows;
    if !inside {
      k := TakenEvenly(if inner == [] then head else head + inner, outer, count - |inner|, gap, from);
    } else if |inner| < count {
      k := from;
      KnownInPrefix(head, inner, Filled(head, rest, band, max), from);
    } else {
      k := TakenEvenly(head, inner, count, gap, from);
    }
  }

  /** Of any stretch of the rest with `gap` targets of one part, one of them is kept. */
  lemma FilledEvenly(head: seq<Target>, rest: seq<Target>, band: Band, max: nat, inside: bool, x: nat, y: nat, gap: nat)
    returns (t: Target)
    requires Fillable(head, rest, max) && x <= y <= |rest|
    requires 0 < gap <= |Banded(rest[x..y], band, inside)|
    requires |Banded(rest, band, inside)| <= gap * Room(head, rest, band, max, inside)
    ensures t in Banded(rest[x..y], band, inside) && Knows(Filled(head, rest, band, max), t.addr)
  {
    var before, stretch := Banded(rest[..x], band, inside), Banded(rest[x..y], band, inside);
    var after := Banded(rest[y..], band, inside);
    BandedBetween(rest, x, y, band, inside);
    hide *;
    var k := PartEvenly(head, rest, band, max, inside, |before|, gap);
    t := InMiddle(before, stretch, after, k);
  }

  lemma InMiddle(before: seq<Target>, stretch: seq<Target>, after: seq<Target>, k: nat) returns (t: Target)
    requires |before| <= k < |before| + |stretch|
    ensures t in stretch && t == (before + stretch + after)[k]
  {
    t := stretch[k - |before|];
  }

  lemma RoomNeeded(len: nat, gap: nat, room: int)
    requires 0 < len <= gap * room
    ensures room > 0
  {
    if room <= 0 { MulMonotone(room, 0, gap); }
  }

  /** Where the band does not fill the budget, all of it is kept behind the fixed part. */
  lemma BandKeptWhole(head: seq<Target>, rest: seq<Target>, band: Band, max: nat)
    requires Fillable(head, rest, max)
    ensures var inner := Banded(rest, band, true);
            0 < |inner| < max - |head| ==> head + inner <= Filled(head, rest, band, max)
  {
    hide Banded, Filled, Take, Fillable, Distinct, Taken;
    var inner, outer := Banded(rest, band, true), Banded(rest, band, false);
    FilledIs(head, rest, band, max);
    if 0 < |inner| < max - |head| {
      var once, count := head + inner, max - |head| - |inner|;
      RestTaken(head, rest, band, max);
      TakenKeeps(once, outer, count, Take(once, outer, count));
    }
  }

  lemma TakenKeeps(out: seq<Target>, source: seq<Target>, count: nat, r: seq<Target>)
    requires Taken(out, source, count, r)
    ensures out <= r
  {
  }

  lemma KnownInPrefix(head: seq<Target>, inner: seq<Target>, r: seq<Target>, i: nat)
    requires i < |inner| && head + inner <= r
    ensures Knows(r, inner[i].addr)
  {
    assert r[|head| + i] == (head + inner)[|head| + i] == inner[i];
  }

  lemma SliceOfRest(all: seq<Target>, from: nat, x: nat, y: nat)
    requires from <= x <= y <= |all|
    ensures all[from..][x - from..y - from] == all[x..y]
  {
  }

  lemma PartsFillable(all: seq<Target>, fixed: nat, most: nat)
    requires Distinct(all) && fixed <= most < |all|
    ensures Fillable(all[..fixed], all[fixed..], most)
  {
  }

  lemma ThinnedIs(all: seq<Target>, band: Band, most: nat)
    requires most < |all|
    ensures FixedCount(all, most) <= most
    ensures var fixed := FixedCount(all, most);
            Thinned(all, band, most) == Filled(all[..fixed], all[fixed..], band, most)
  {
    hide Filled, Lans;
  }

  lemma ThinnedEvenly(all: seq<Target>, band: Band, most: nat, inside: bool, x: nat, y: nat, gap: nat)
    returns (t: Target)
    requires Distinct(all) && most < |all| && FixedCount(all, most) <= x <= y <= |all|
    requires 0 < gap <= |Banded(all[x..y], band, inside)|
    requires var fixed := FixedCount(all, most);
             |Banded(all[fixed..], band, inside)| <= gap * Room(all[..fixed], all[fixed..], band, most, inside)
    ensures t in Banded(all[x..y], band, inside) && Knows(Thinned(all, band, most), t.addr)
  {
    var fixed := FixedCount(all, most);
    assert fixed <= most;
    hide *;
    var head, rest := all[..fixed], all[fixed..];
    SliceOfRest(all, fixed, x, y);
    PartsFillable(all, fixed, most);
    ThinnedIs(all, band, most);
    t := FilledEvenly(head, rest, band, most, inside, x - fixed, y - fixed, gap);
  }

  /** Thinning spreads over all of what it thins: behind the fixed part, of any stretch of the list
      that has `gap` targets inside the observed band, or outside of it, one of them is kept, where
      `gap` is the number of such targets for each one there is room for, rounded up. */
  lemma ThinningIsEven(
    infos: seq<Info>, sameNetwork: bool, band: Band, max: nat, inside: bool, x: nat, y: nat, gap: nat)
    requires |LanFirst(Collected(infos, sameNetwork))| > Max(1, max)
    requires FixedCount(LanFirst(Collected(infos, sameNetwork)), Max(1, max)) <= x <= y
             <= |LanFirst(Collected(infos, sameNetwork))|
    requires var all := LanFirst(Collected(infos, sameNetwork));
             var fixed := FixedCount(all, Max(1, max));
             && 0 < gap <= |Banded(all[x..y], band, inside)|
             && |Banded(all[fixed..], band, inside)|
                <= gap * Room(all[..fixed], all[fixed..], band, Max(1, max), inside)
    ensures var all := LanFirst(Collected(infos, sameNetwork));
            exists t :: t in Banded(all[x..y], band, inside) && t in Targets(infos, sameNetwork, band, Some(max))
  {
    var c := Collected(infos, sameNetwork);
    var all, r := LanFirst(c), Targets(infos, sameNetwork, band, Some(max));
    CollectedDistinct(infos, sameNetwork);
    LanFirstDistinct(c);
    TargetsAreDistinct(infos, sameNetwork, band, Some(max));
    assert r == Thinned(all, band, Max(1, max));
    hide *;
    var t := ThinnedEvenly(all, band, Max(1, max), inside, x, y, gap);
    BandedInList(all, x, y, band, inside, t);
    KnownIsIn(c, r, t);
  }

  lemma KnownIsIn(ts: seq<Target>, some: seq<Target>, t: Target)
    requires Distinct(ts) && t in ts && Knows(some, t.addr) && forall u :: u in some ==> u in ts
    ensures t in some
  {
    var i :| 0 <= i < |some| && some[i].addr == t.addr;
    SameAddress(ts, some[i], t);
  }

  lemma BandedInList(all: seq<Target>, x: nat, y: nat, band: Band, inside: bool, t: Target)
    requires x <= y <= |all| && t in Banded(all[x..y], band, inside)
    ensures t in all
  {
    BandedMembers(all[x..y], band, inside);
    hide Banded, InBand;
  }

  lemma SameAddress(ts: seq<Target>, t: Target, u: Target)
    requires Distinct(ts) && t in ts && u in ts && t.addr == u.addr
    ensures t == u
  {
    var i :| 0 <= i < |ts| && ts[i] == t;
    var j :| 0 <= j < |ts| && ts[j] == u;
  }
}
