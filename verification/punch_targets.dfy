/** Which addresses of the peer are tried: `build_targets` of src/punch/strategy.rs. */
module PunchTargets {
  import opened Wrappers
  import opened Rounding

  datatype Addr = V4(a: nat, b: nat, c: nat, d: nat, port: nat) | V6(ip: string, port: nat)

  /** An address as the relay sent it; one that does not parse is None. */
  datatype Info = Info(addr: Option<Addr>, local: bool)

  datatype Target = Target(addr: Addr, lan: bool)

  /** Observed smallest and largest port of the peer; 0 for not known. */
  datatype Band = Band(lo: nat, hi: nat)

  predicate IsPrivate(addr: Addr) {
    addr.V4? && (addr.a == 10 || (addr.a == 172 && 16 <= addr.b <= 31) || (addr.a == 192 && addr.b == 168))
  }

  predicate InBand(t: Target, band: Band) {
    band.lo > 0 && band.hi >= band.lo && band.lo <= t.addr.port <= band.hi
  }

  // ---------- the specification ----------

  predicate Knows(ts: seq<Target>, addr: Addr) {
    exists i :: 0 <= i < |ts| && ts[i].addr == addr
  }

  function PushNew(ts: seq<Target>, t: Target): seq<Target> {
    if Knows(ts, t.addr) then ts else ts + [t]
  }

  function Collected(infos: seq<Info>, sameNetwork: bool): seq<Target>
    decreases |infos|
  {
    if infos == [] then []
    else
      var ts, info := Collected(infos[..|infos| - 1], sameNetwork), infos[|infos| - 1];
      if info.addr.None? then ts
      else PushNew(ts, Target(info.addr.value, info.local || (sameNetwork && IsPrivate(info.addr.value))))
  }

  function Lans(ts: seq<Target>, lan: bool): seq<Target>
    decreases |ts|
  {
    if ts == [] then []
    else Lans(ts[..|ts| - 1], lan) + if ts[|ts| - 1].lan == lan then [ts[|ts| - 1]] else []
  }

  /** `sort_by_key(!is_lan)`, which is stable. */
  function LanFirst(ts: seq<Target>): seq<Target> {
    Lans(ts, true) + Lans(ts, false)
  }

  function Banded(ts: seq<Target>, band: Band, inside: bool): seq<Target>
    decreases |ts|
  {
    if ts == [] then []
    else Banded(ts[..|ts| - 1], band, inside) + if InBand(ts[|ts| - 1], band) == inside then [ts[|ts| - 1]] else []
  }

  function Index(i: nat, count: nat, len: nat): (k: nat)
    requires count > 0 && len > 0
    ensures k < len
  {
    Min(HalfAway(i * len, count), len - 1)
  }

  /** The first `n` of `count` evenly spaced picks. */
  function Picked(out: seq<Target>, source: seq<Target>, count: nat, n: nat): seq<Target>
    requires source != [] && (n > 0 ==> count > 0)
  {
    if n == 0 then out else PushNew(Picked(out, source, count, n - 1), source[Index(n - 1, count, |source|)])
  }

  function Take(out: seq<Target>, source: seq<Target>, count: nat): seq<Target> {
    if count == 0 || source == [] then out else Picked(out, source, count, count)
  }

  function FixedCount(ts: seq<Target>, max: nat): nat
  {
    Min(|Lans(ts, true)| + 1, max)
  }

  /** Fills up a fixed part, from the observed band first. */
  function Filled(head: seq<Target>, rest: seq<Target>, band: Band, max: nat): seq<Target>
    requires |head| <= max
  {
    var inner, outer := Banded(rest, band, true), Banded(rest, band, false);
    var once := Take(head, if inner == [] then rest else inner, max - |head|);
    if |once| < max then Take(once, outer, max - |once|) else once
  }

  function Thinned(ts: seq<Target>, band: Band, max: nat): seq<Target>
    requires max < |ts|
  {
    var fixed := FixedCount(ts, max);
    Filled(ts[..fixed], ts[fixed..], band, max)
  }

  function Targets(infos: seq<Info>, sameNetwork: bool, band: Band, max: Option<nat>): seq<Target> {
    var all := LanFirst(Collected(infos, sameNetwork));
    if max.Some? && |all| > Max(1, max.value) then Thinned(all, band, Max(1, max.value)) else all
  }

  // ---------- as the client builds the list ----------

  method HasAddr(ts: seq<Target>, addr: Addr) returns (known: bool)
    ensures known == Knows(ts, addr)
  {
    var i := 0;
    while i < |ts|
      invariant 0 <= i <= |ts|
      invariant forall k :: 0 <= k < i ==> ts[k].addr != addr
    {
      if ts[i].addr == addr { return true; }
      i := i + 1;
    }
    return false;
  }

  method TakeEvenly(out: seq<Target>, source: seq<Target>, count: nat) returns (r: seq<Target>)
    ensures r == Take(out, source, count)
  {
    r := out;
    if count == 0 || source == [] { return; }
    var i := 0;
    while i < count
      invariant 0 <= i <= count
      invariant r == Picked(out, source, count, i)
    {
      var idx := Min(HalfAway(i * |source|, count), |source| - 1);
      var known := HasAddr(r, source[idx].addr);
      if !known { r := r + [source[idx]]; }
      i := i + 1;
    }
  }

  method Collect(infos: seq<Info>, sameNetwork: bool) returns (out: seq<Target>)
    ensures out == Collected(infos, sameNetwork)
  {
    out := [];
    var i := 0;
    while i < |infos|
      invariant 0 <= i <= |infos|
      invariant out == Collected(infos[..i], sameNetwork)
    {
      assert infos[..i + 1][..i] == infos[..i];
      if infos[i].addr.Some? {
        var addr := infos[i].addr.value;
        var known := HasAddr(out, addr);
        if !known { out := out + [Target(addr, infos[i].local || (sameNetwork && IsPrivate(addr)))]; }
      }
      i := i + 1;
    }
    assert infos[..i] == infos;
  }

  method Thin(all: seq<Target>, band: Band, max: nat) returns (out: seq<Target>)
    requires max < |all|
    ensures out == Thinned(all, band, max)
  {
    hide Banded, Lans, Take;
    var fixed := Min(|Lans(all, true)| + 1, max);
    var rest := all[fixed..];
    out := all[..fixed];
    var inner, outer := Banded(rest, band, true), Banded(rest, band, false);
    out := TakeEvenly(out, if inner == [] then rest else inner, max - |out|);
    if |out| < max {
      out := TakeEvenly(out, outer, max - |out|);
    }
  }

  method BuildTargets(infos: seq<Info>, sameNetwork: bool, band: Band, max: Option<nat>) returns (out: seq<Target>)
    ensures out == Targets(infos, sameNetwork, band, max)
  {
    hide Thinned, LanFirst, Collected;
    out := Collect(infos, sameNetwork);
    out := LanFirst(out);
    if max.Some? && |out| > Max(1, max.value) {
      out := Thin(out, band, Max(1, max.value));
    }
  }

  // ---------- no two targets alike ----------

  ghost predicate Distinct(ts: seq<Target>) {
    forall i, j :: 0 <= i < j < |ts| ==> ts[i].addr != ts[j].addr
  }

  ghost predicate Apart(ts: seq<Target>, us: seq<Target>) {
    forall i, j :: 0 <= i < |ts| && 0 <= j < |us| ==> ts[i].addr != us[j].addr
  }

  lemma {:induction false} CollectedDistinct(infos: seq<Info>, sameNetwork: bool)
    ensures Distinct(Collected(infos, sameNetwork))
    decreases |infos|
  {
    if infos != [] { CollectedDistinct(infos[..|infos| - 1], sameNetwork); }
  }

  lemma {:induction false} LansMembers(ts: seq<Target>, lan: bool)
    ensures forall t :: t in Lans(ts, lan) ==> t.lan == lan && t in ts
    decreases |ts|
  {
    if ts != [] { LansMembers(ts[..|ts| - 1], lan); }
  }

  lemma {:induction false} LansContain(ts: seq<Target>, t: Target)
    requires t in ts
    ensures t in Lans(ts, t.lan)
    decreases |ts|
  {
    if t != ts[|ts| - 1] {
      assert t in ts[..|ts| - 1];
      LansContain(ts[..|ts| - 1], t);
    }
  }

  lemma {:induction false} LansDistinct(ts: seq<Target>, lan: bool)
    requires Distinct(ts)
    ensures Distinct(Lans(ts, lan))
    ensures forall t :: t in ts && t.lan == lan ==> t in Lans(ts, lan)
    decreases |ts|
  {
    forall t | t in ts && t.lan == lan ensures t in Lans(ts, lan) { LansContain(ts, t); }
    LansApart(ts, lan);
  }

  lemma {:induction false} LansApart(ts: seq<Target>, lan: bool)
    requires Distinct(ts)
    ensures Distinct(Lans(ts, lan))
    decreases |ts|
  {
    if ts != [] {
      LansApart(ts[..|ts| - 1], lan);
      LansMembers(ts[..|ts| - 1], lan);
      LastIsNew(ts, Lans(ts[..|ts| - 1], lan));
    }
  }

  lemma LastIsNew(ts: seq<Target>, some: seq<Target>)
    requires Distinct(ts) && ts != [] && forall t :: t in some ==> t in ts[..|ts| - 1]
    ensures forall i :: 0 <= i < |some| ==> some[i].addr != ts[|ts| - 1].addr
  {
    forall i | 0 <= i < |some| ensures some[i].addr != ts[|ts| - 1].addr {
      assert some[i] in some;
      var k :| 0 <= k < |ts| - 1 && ts[k] == some[i];
    }
  }

  lemma {:induction false} LansCount(ts: seq<Target>)
    ensures |Lans(ts, true)| + |Lans(ts, false)| == |ts|
    decreases |ts|
  {
    if ts != [] { LansCount(ts[..|ts| - 1]); }
  }

  lemma LanFirstDistinct(ts: seq<Target>)
    requires Distinct(ts)
    ensures Distinct(LanFirst(ts)) && |LanFirst(ts)| == |ts|
    ensures forall t :: t in ts <==> t in LanFirst(ts)
  {
    LansDistinct(ts, true);
    LansDistinct(ts, false);
    LansMembers(ts, true);
    LansMembers(ts, false);
    LansCount(ts);
    forall i, j | 0 <= i < |Lans(ts, true)| && 0 <= j < |Lans(ts, false)|
      ensures Lans(ts, true)[i].addr != Lans(ts, false)[j].addr
    {
      var t, u := Lans(ts, true)[i], Lans(ts, false)[j];
      var k :| 0 <= k < |ts| && ts[k] == t;
      var l :| 0 <= l < |ts| && ts[l] == u;
      assert k != l;
    }
  }

  lemma {:induction false} BandedMembers(ts: seq<Target>, band: Band, inside: bool)
    ensures forall t :: t in Banded(ts, band, inside) ==> InBand(t, band) == inside && t in ts
    decreases |ts|
  {
    if ts != [] { BandedMembers(ts[..|ts| - 1], band, inside); }
  }

  lemma {:induction false} BandedDistinct(ts: seq<Target>, band: Band, inside: bool)
    requires Distinct(ts)
    ensures Distinct(Banded(ts, band, inside))
    ensures forall t :: t in ts && InBand(t, band) == inside ==> t in Banded(ts, band, inside)
    decreases |ts|
  {
    if ts != [] {
      BandedDistinct(ts[..|ts| - 1], band, inside);
      BandedMembers(ts[..|ts| - 1], band, inside);
      LastIsNew(ts, Banded(ts[..|ts| - 1], band, inside));
    }
  }

  lemma {:induction false} BandedCount(ts: seq<Target>, band: Band)
    ensures |Banded(ts, band, true)| + |Banded(ts, band, false)| == |ts|
    decreases |ts|
  {
    if ts != [] { BandedCount(ts[..|ts| - 1], band); }
  }

  // ---------- even picks are exact ----------

  /** Enough to choose from: the picks go up by at least one each time. */
  lemma PicksRise(i: nat, count: nat, len: nat)
    requires len >= count > 0 && i + 1 < count
    ensures HalfAway(i * len, count) < HalfAway((i + 1) * len, count)
  {
    var r, r' := HalfAway(i * len, count), HalfAway((i + 1) * len, count);
    assert (i + 1) * len == i * len + len;
    if r' <= r { MulMonotone(r', r, count); }
  }

  lemma PickInside(i: nat, count: nat, len: nat)
    requires len >= count > 0 && i < count
    ensures HalfAway(i * len, count) < len
  {
    var r := HalfAway(i * len, count);
    assert (i + 1) * len == i * len + len;
    MulMonotone(i + 1, count, len);
    assert count * len == len * count;
    if r >= len { MulMonotone(len, r, count); }
  }

  /** Too few to choose from: no pick is skipped, and the last one is the end. */
  lemma PicksCreep(i: nat, count: nat, len: nat)
    requires 0 < len < count && i + 1 < count
    ensures HalfAway((i + 1) * len, count) <= HalfAway(i * len, count) + 1
  {
    var r, r' := HalfAway(i * len, count), HalfAway((i + 1) * len, count);
    assert (i + 1) * len == i * len + len;
    assert (r + 2) * count == r * count + 2 * count;
    if r' >= r + 2 { MulMonotone(r + 2, r', count); }
  }

  lemma PickEnds(count: nat, len: nat)
    requires 0 < len < count
    ensures HalfAway(0 * len, count) == 0 && HalfAway((count - 1) * len, count) >= len - 1
  {
    var r, z := HalfAway((count - 1) * len, count), HalfAway(0 * len, count);
    assert (count - 1) * len == len * count - len;
    assert (len - 2) * count == len * count - 2 * count;
    if r <= len - 2 { MulMonotone(r, len - 2, count); }
    if z >= 1 { MulMonotone(1, z, count); }
  }

  function Picks(source: seq<Target>, count: nat, n: nat): (r: seq<Target>)
    requires source != [] && n <= count
    ensures |r| == n && forall k :: 0 <= k < n ==> r[k] == source[Index(k, count, |source|)]
  {
    seq(n, k requires 0 <= k < n => source[Index(k, count, |source|)])
  }

  lemma {:induction false} IndexRises(i: nat, j: nat, count: nat, len: nat)
    requires len >= count > 0 && i < j < count
    ensures Index(i, count, len) < Index(j, count, len)
    decreases j
  {
    PicksRise(j - 1, count, len);
    PickInside(j - 1, count, len);
    PickInside(j, count, len);
    if i < j - 1 { IndexRises(i, j - 1, count, len); }
  }

  lemma Fresh(ts: seq<Target>, us: seq<Target>, t: Target)
    requires forall i :: 0 <= i < |ts| ==> ts[i].addr != t.addr
    requires forall i :: 0 <= i < |us| ==> us[i].addr != t.addr
    ensures !Knows(ts + us, t.addr)
  {
  }

  lemma OneMorePick(source: seq<Target>, count: nat, n: nat)
    requires source != [] && 0 < n <= count
    ensures Picks(source, count, n) == Picks(source, count, n - 1) + [source[Index(n - 1, count, |source|)]]
  {
  }

  /** With enough to choose from, every pick is a new one. */
  lemma {:induction false} PickedAll(out: seq<Target>, source: seq<Target>, count: nat, n: nat)
    requires Distinct(source) && Apart(out, source) && 0 < count <= |source| && n <= count
    ensures Picked(out, source, count, n) == out + Picks(source, count, n)
  {
    if n > 0 {
      var k := Index(n - 1, count, |source|);
      var before := Picks(source, count, n - 1);
      PickedAll(out, source, count, n - 1);
      hide Picks, Index;
      forall i | 0 <= i < n - 1 ensures before[i].addr != source[k].addr {
        IndexRises(i, n - 1, count, |source|);
      }
      Fresh(out, before, source[k]);
      OneMorePick(source, count, n);
    }
  }

  /** With too few, the picks go through them in order and leave none out. */
  lemma {:induction false} PickedPrefix(out: seq<Target>, source: seq<Target>, count: nat, n: nat)
    requires Distinct(source) && Apart(out, source) && 0 < |source| < count && 0 < n <= count
    ensures Picked(out, source, count, n) == out + source[..Index(n - 1, count, |source|) + 1]
  {
    var k := Index(n - 1, count, |source|);
    if n == 1 {
      PickEnds(count, |source|);
      Fresh(out, [], source[0]);
      assert out + [] == out;
    } else {
      var j := Index(n - 2, count, |source|);
      PickedPrefix(out, source, count, n - 1);
      PicksCreep(n - 2, count, |source|);
      NotBack(n - 2, count, |source|);
      assert k == j || k == j + 1;
      hide Index;
      var before := out + source[..j + 1];
      if k == j {
        assert before[|out| + j] == source[j];
        assert Knows(before, source[k].addr);
      } else {
        Fresh(out, source[..j + 1], source[k]);
        assert source[..k + 1] == source[..j + 1] + [source[k]];
      }
    }
  }

  lemma NotBack(i: nat, count: nat, len: nat)
    requires count > 0 && len > 0
    ensures Index(i, count, len) <= Index(i + 1, count, len)
  {
    var r, r' := HalfAway(i * len, count), HalfAway((i + 1) * len, count);
    assert (i + 1) * len == i * len + len;
    assert (r' + 1) * count == r' * count + count;
    if r' < r { MulMonotone(r' + 1, r, count); }
  }

  /** What taking evenly promises: exactly so many more targets, none twice, and all of
      them where the budget reaches that far. */
  predicate Taken(out: seq<Target>, source: seq<Target>, count: nat, r: seq<Target>) {
    && |r| == |out| + Min(count, |source|) && r[..|out|] == out
    && (forall k :: |out| <= k < |r| ==> r[k] in source)
    && (count >= |source| ==> r == out + source)
  }

  lemma TakeIsExact(out: seq<Target>, source: seq<Target>, count: nat)
    requires Distinct(out) && Distinct(source) && Apart(out, source)
    ensures Distinct(Take(out, source, count)) && Taken(out, source, count, Take(out, source, count))
  {
    if source == [] {
      assert out + source == out;
    } else if 0 < count <= |source| {
      PickedAll(out, source, count, count);
      PicksDistinct(out, source, count);
      hide Picked;
      if count == |source| { AllInOrder(source); }
    } else if count > |source| {
      PickedPrefix(out, source, count, count);
      PickEnds(count, |source|);
      hide Picked;
      assert source[..|source|] == source;
    }
  }

  lemma PicksDistinct(out: seq<Target>, source: seq<Target>, count: nat)
    requires Distinct(out) && Distinct(source) && Apart(out, source) && 0 < count <= |source|
    ensures Distinct(out + Picks(source, count, count))
  {
    var picks := Picks(source, count, count);
    forall i, j | 0 <= i < j < count ensures picks[i].addr != picks[j].addr {
      IndexRises(i, j, count, |source|);
    }
    hide Picks, Index;
  }

  lemma AllInOrder(source: seq<Target>)
    requires source != []
    ensures Picks(source, |source|, |source|) == source
  {
    var n := |source|;
    forall k | 0 <= k < n ensures Index(k, n, n) == k {
      assert (k * n) % n == 0 by { MultipleOf(k, n); }
      MulOrder(HalfAway(k * n, n), k, n);
      MulOrder(k, HalfAway(k * n, n), n);
    }
  }

  lemma MultipleOf(k: nat, n: nat)
    requires n > 0
    ensures (k * n) % n == 0
  {
    var q := (k * n) / n;
    assert (q + 1) * n == q * n + n && (k + 1) * n == k * n + n;
    if q < k { MulMonotone(q + 1, k, n); }
    if q > k { MulMonotone(k + 1, q, n); }
  }

  // ---------- thinning is exact ----------

  /** The two parts of the rest do not overlap, and the fixed part overlaps neither. */
  lemma PartsApart(head: seq<Target>, rest: seq<Target>, band: Band)
    requires Distinct(rest) && Apart(head, rest)
    ensures var inner, outer := Banded(rest, band, true), Banded(rest, band, false);
            && Distinct(inner) && Distinct(outer) && Apart(head, inner) && Apart(head, outer) && Apart(inner, outer)
            && |inner| + |outer| == |rest|
  {
    BandedDistinct(rest, band, true);
    BandedDistinct(rest, band, false);
    BandedCount(rest, band);
    BandedMembers(rest, band, true);
    BandedMembers(rest, band, false);
    var inner, outer := Banded(rest, band, true), Banded(rest, band, false);
    ApartFrom(head, rest, inner);
    ApartFrom(head, rest, outer);
    forall i, j | 0 <= i < |inner| && 0 <= j < |outer| ensures inner[i].addr != outer[j].addr {
      var k :| 0 <= k < |rest| && rest[k] == inner[i];
      var l :| 0 <= l < |rest| && rest[l] == outer[j];
      assert k != l;
    }
  }

  lemma ApartFrom(head: seq<Target>, rest: seq<Target>, some: seq<Target>)
    requires Apart(head, rest) && forall j :: 0 <= j < |some| ==> some[j] in rest
    ensures Apart(head, some)
  {
    forall i, j | 0 <= i < |head| && 0 <= j < |some| ensures head[i].addr != some[j].addr {
      var k :| 0 <= k < |rest| && rest[k] == some[j];
    }
  }

  lemma ApartJoined(ts: seq<Target>, us: seq<Target>, vs: seq<Target>)
    requires Apart(ts, vs) && Apart(us, vs)
    ensures Apart(ts + us, vs)
  {
  }

  /** Exactly `max` different targets, the fixed part first, and one outside the band only
      once every one inside is kept, or where none is inside. */
  predicate WellFilled(head: seq<Target>, rest: seq<Target>, band: Band, max: nat, r: seq<Target>) {
    && |r| == max && head <= r
    && (forall k :: |head| <= k < |r| ==> r[k] in rest)
    && ((exists k :: |head| <= k < |r| && !InBand(r[k], band)) ==>
          (forall t :: t in rest && InBand(t, band) ==> t in r))
  }

  ghost predicate Fillable(head: seq<Target>, rest: seq<Target>, max: nat) {
    Distinct(head) && Distinct(rest) && Apart(head, rest) && |head| <= max < |head| + |rest|
  }

  /** No target is inside the band: the picks come from all of the rest. */
  lemma FilledFromAny(head: seq<Target>, rest: seq<Target>, band: Band, max: nat)
    requires Fillable(head, rest, max) && Banded(rest, band, true) == []
    ensures Distinct(Filled(head, rest, band, max)) && WellFilled(head, rest, band, max, Filled(head, rest, band, max))
  {
    NoInner(rest, band);
    assert |head| <= max < |head| + |rest|;
    TakeIsExact(head, rest, max - |head|);
    hide Take, Distinct, Apart, Banded, InBand, Taken, WellFilled, Fillable, Filled;
    var r := Take(head, rest, max - |head|);
    TakenSize(head, rest, max - |head|, r);
    FilledFromRest(head, rest, band, max);
    NoneInside(head, rest, r, max - |head|, band);
  }

  lemma NoInner(rest: seq<Target>, band: Band)
    requires Banded(rest, band, true) == []
    ensures forall t :: t in rest ==> !InBand(t, band)
    decreases |rest|
  {
    if rest != [] { NoInner(rest[..|rest| - 1], band); }
  }

  lemma FilledFromRest(head: seq<Target>, rest: seq<Target>, band: Band, max: nat)
    requires |head| <= max && Banded(rest, band, true) == [] && |Take(head, rest, max - |head|)| == max
    ensures Filled(head, rest, band, max) == Take(head, rest, max - |head|)
  {
  }

  lemma NoneInside(head: seq<Target>, rest: seq<Target>, r: seq<Target>, count: nat, band: Band)
    requires Taken(head, rest, count, r) && |r| == |head| + count && forall t :: t in rest ==> !InBand(t, band)
    ensures WellFilled(head, rest, band, |r|, r)
  {
  }

  lemma BandTaken(head: seq<Target>, rest: seq<Target>, band: Band, max: nat)
    requires Fillable(head, rest, max)
    ensures var inner := Banded(rest, band, true);
            var once := Take(head, inner, max - |head|);
            Distinct(once) && Taken(head, inner, max - |head|, once)
  {
    PartsApart(head, rest, band);
    hide Distinct, Apart, Banded, Take, Taken;
    TakeIsExact(head, Banded(rest, band, true), max - |head|);
  }

  /** The band alone fills the budget. */
  lemma FilledFromBand(head: seq<Target>, rest: seq<Target>, band: Band, max: nat)
    requires Fillable(head, rest, max)
    requires Banded(rest, band, true) != [] && |Banded(rest, band, true)| >= max - |head|
    ensures Distinct(Filled(head, rest, band, max)) && WellFilled(head, rest, band, max, Filled(head, rest, band, max))
  {
    BandTaken(head, rest, band, max);
    InnerInRest(rest, band);
    assert |head| <= max;
    hide Take, Distinct, Apart, Banded, InBand, Taken, WellFilled, Filled, Fillable;
    var inner := Banded(rest, band, true);
    var r := Take(head, inner, max - |head|);
    TakenSize(head, inner, max - |head|, r);
    FilledAtOnce(head, rest, band, max);
    AllFrom(head, inner, r, max - |head|, rest, band);
  }

  lemma FilledAtOnce(head: seq<Target>, rest: seq<Target>, band: Band, max: nat)
    requires |head| <= max && Banded(rest, band, true) != []
    requires |Take(head, Banded(rest, band, true), max - |head|)| == max
    ensures Filled(head, rest, band, max) == Take(head, Banded(rest, band, true), max - |head|)
  {
  }

  lemma InnerInRest(rest: seq<Target>, band: Band)
    ensures var inner := Banded(rest, band, true);
            forall i :: 0 <= i < |inner| ==> InBand(inner[i], band) && inner[i] in rest
  {
    BandedMembers(rest, band, true);
  }

  lemma TakenSize(out: seq<Target>, source: seq<Target>, count: nat, r: seq<Target>)
    requires Taken(out, source, count, r)
    ensures |r| == |out| + Min(count, |source|)
  {
  }

  lemma AllFrom(head: seq<Target>, inner: seq<Target>, r: seq<Target>, count: nat, rest: seq<Target>, band: Band)
    requires Taken(head, inner, count, r)
    requires forall i :: 0 <= i < |inner| ==> InBand(inner[i], band) && inner[i] in rest
    ensures |r| == |head| + count && count <= |inner| ==> WellFilled(head, rest, band, |r|, r)
  {
    hide InBand;
    forall k | |head| <= k < |r| ensures InBand(r[k], band) && r[k] in rest {
      var i :| 0 <= i < |inner| && inner[i] == r[k];
    }
  }

  /** The band does not fill the budget: all of it is kept, then the rest is drawn on. */
  lemma FilledBeyondBand(head: seq<Target>, rest: seq<Target>, band: Band, max: nat)
    requires Fillable(head, rest, max)
    requires 0 < |Banded(rest, band, true)| < max - |head|
    ensures Distinct(Filled(head, rest, band, max)) && WellFilled(head, rest, band, max, Filled(head, rest, band, max))
  {
    var inner, outer := Banded(rest, band, true), Banded(rest, band, false);
    var once := head + inner;
    var r := Take(once, outer, max - |once|);
    BandTaken(head, rest, band, max);
    RestTaken(head, rest, band, max);
    assert Filled(head, rest, band, max) == r by { hide Banded, Take, Distinct, Apart; }
    BandedDistinct(rest, band, true);
    BandedMembers(rest, band, true);
    BandedMembers(rest, band, false);
    hide Take, Distinct, Apart, Banded, Filled;
    JoinedMembers(once, outer, r, max - |once|, rest, head, inner);
  }

  lemma RestTaken(head: seq<Target>, rest: seq<Target>, band: Band, max: nat)
    requires Fillable(head, rest, max) && |Banded(rest, band, true)| < max - |head|
    ensures var inner, outer := Banded(rest, band, true), Banded(rest, band, false);
            var once := head + inner;
            var r := Take(once, outer, max - |once|);
            Distinct(r) && Taken(once, outer, max - |once|, r) && |r| == max
  {
    var inner, outer := Banded(rest, band, true), Banded(rest, band, false);
    var once, count := head + inner, max - |head| - |inner|;
    PartsApart(head, rest, band);
    BandTaken(head, rest, band, max);
    TakenWhole(head, inner, max - |head|, Take(head, inner, max - |head|));
    assert |head| + |rest| > max;
    hide Take, Distinct, Apart, Banded, Taken, Fillable;
    ApartJoined(head, inner, outer);
    TakeIsExact(once, outer, count);
    TakenSize(once, outer, count, Take(once, outer, count));
  }

  lemma TakenWhole(out: seq<Target>, source: seq<Target>, count: nat, r: seq<Target>)
    requires Taken(out, source, count, r) && count >= |source|
    ensures r == out + source
  {
  }

  lemma JoinedMembers(
    once: seq<Target>, outer: seq<Target>, r: seq<Target>, count: nat,
    rest: seq<Target>, head: seq<Target>, inner: seq<Target>)
    requires once == head + inner && Taken(once, outer, count, r)
    requires (forall i :: 0 <= i < |inner| ==> inner[i] in rest) && (forall i :: 0 <= i < |outer| ==> outer[i] in rest)
    ensures head <= r && (forall k :: |head| <= k < |r| ==> r[k] in rest) && (forall t :: t in inner ==> t in r)
  {
    assert forall k :: 0 <= k < |once| ==> r[k] == once[k];
    forall k | |head| <= k < |r| ensures r[k] in rest {
      if k < |once| { assert r[k] == inner[k - |head|]; } else {
        var i :| 0 <= i < |outer| && outer[i] == r[k];
      }
    }
    forall t | t in inner ensures t in r {
      var i :| 0 <= i < |inner| && inner[i] == t;
      assert r[|head| + i] == t;
    }
  }

  lemma FilledWell(head: seq<Target>, rest: seq<Target>, band: Band, max: nat)
    requires Fillable(head, rest, max)
    ensures Distinct(Filled(head, rest, band, max)) && WellFilled(head, rest, band, max, Filled(head, rest, band, max))
  {
    hide Filled, WellFilled, Fillable, Banded;
    var inner := Banded(rest, band, true);
    if inner == [] { FilledFromAny(head, rest, band, max); }
    else if |inner| >= max - |head| { FilledFromBand(head, rest, band, max); }
    else { FilledBeyondBand(head, rest, band, max); }
  }

  lemma ThinnedWell(all: seq<Target>, band: Band, max: nat)
    requires Distinct(all) && 0 < max < |all|
    ensures var fixed := FixedCount(all, max);
            && fixed <= max && Distinct(Thinned(all, band, max))
            && WellFilled(all[..fixed], all[fixed..], band, max, Thinned(all, band, max))
  {
    var fixed := FixedCount(all, max);
    assert forall i :: 0 <= i < |all| - fixed ==> all[fixed..][i] == all[fixed + i];
    hide Filled, WellFilled, Lans;
    FilledWell(all[..fixed], all[fixed..], band, max);
  }

  // ---------- what the client is promised ----------

  /** No target twice, and every one is an address the relay sent. */
  lemma TargetsAreDistinct(infos: seq<Info>, sameNetwork: bool, band: Band, max: Option<nat>)
    ensures Distinct(Targets(infos, sameNetwork, band, max))
    ensures forall t :: t in Targets(infos, sameNetwork, band, max) ==> t in Collected(infos, sameNetwork)
  {
    var c := Collected(infos, sameNetwork);
    var all := LanFirst(c);
    CollectedDistinct(infos, sameNetwork);
    LanFirstDistinct(c);
    if max.Some? && |all| > Max(1, max.value) {
      hide LanFirst, Collected, Thinned;
      ThinnedWell(all, band, Max(1, max.value));
    }
  }

  /** No LAN target behind one that is not. */
  lemma LanComesFirst(infos: seq<Info>, sameNetwork: bool, band: Band, max: Option<nat>, i: nat, j: nat)
    requires i < j < |Targets(infos, sameNetwork, band, max)|
    ensures var r := Targets(infos, sameNetwork, band, max); r[j].lan ==> r[i].lan
  {
    var c := Collected(infos, sameNetwork);
    var all := LanFirst(c);
    CollectedDistinct(infos, sameNetwork);
    LanFirstDistinct(c);
    LansMembers(c, true);
    LansMembers(c, false);
    LansOfLanFirst(c);
    var n := |Lans(c, true)|;
    forall k | 0 <= k < |all| ensures all[k].lan <==> k < n {
      if k < n { assert all[k] in Lans(c, true); } else { assert all[k] in Lans(c, false); }
    }
    if max.Some? && |all| > Max(1, max.value) {
      ThinnedWell(all, band, Max(1, max.value));
      hide Collected, LanFirst, Thinned, Lans, Distinct;
      LanPrefix(all, band, Max(1, max.value), Thinned(all, band, Max(1, max.value)), n, i, j);
    }
  }

  lemma LanPrefix(all: seq<Target>, band: Band, most: nat, r: seq<Target>, n: nat, i: nat, j: nat)
    requires most < |all| && n == |Lans(all, true)| && i < j < |r|
    requires forall k :: 0 <= k < |all| ==> (all[k].lan <==> k < n)
    requires WellFilled(all[..FixedCount(all, most)], all[FixedCount(all, most)..], band, most, r)
    ensures r[j].lan ==> r[i].lan
  {
    var fixed := FixedCount(all, most);
    hide Lans, InBand;
    if j < fixed {
      assert r[i] == all[..fixed][i] == all[i] && r[j] == all[..fixed][j] == all[j];
    } else {
      var k :| 0 <= k < |all| - fixed && all[fixed..][k] == r[j];
      assert r[j] == all[fixed + k];
    }
  }

  /** Thinning keeps exactly as many as allowed, and nothing is dropped without need. */
  lemma ThinningIsExact(infos: seq<Info>, sameNetwork: bool, band: Band, max: Option<nat>)
    ensures var c, r := Collected(infos, sameNetwork), Targets(infos, sameNetwork, band, max);
            && |r| == (if max.Some? then Min(|c|, Max(1, max.value)) else |c|)
            && (|r| == |c| ==> forall t :: t in c ==> t in r)
  {
    var c := Collected(infos, sameNetwork);
    CollectedDistinct(infos, sameNetwork);
    LanFirstDistinct(c);
    hide LanFirst, Collected, Thinned;
    if max.Some? && |c| > Max(1, max.value) { ThinnedWell(LanFirst(c), band, Max(1, max.value)); }
  }

  /** A LAN target is dropped only where LAN targets alone exceed the limit. */
  lemma LanDroppedOnlyForLan(infos: seq<Info>, sameNetwork: bool, band: Band, max: nat)
    requires |Collected(infos, sameNetwork)| > Max(1, max)
    ensures var c, r := Collected(infos, sameNetwork), Targets(infos, sameNetwork, band, Some(max));
            (forall t :: t in c && t.lan ==> t in r) <==> |Lans(c, true)| <= Max(1, max)
  {
    var c := Collected(infos, sameNetwork);
    var all, most := LanFirst(c), Max(1, max);
    var lans := Lans(c, true);
    CollectedDistinct(infos, sameNetwork);
    LanFirstDistinct(c);
    LansDistinct(c, true);
    LansMembers(c, true);
    LansOfLanFirst(c);
    assert lans <= all by { hide Lans; }
    hide *;
    ThinnedWell(all, band, most);
    LanDropped(c, all, lans, band, most, Thinned(all, band, most));
  }

  lemma LanDropped(c: seq<Target>, all: seq<Target>, lans: seq<Target>, band: Band, most: nat, r: seq<Target>)
    requires most < |all| && lans == Lans(all, true) && lans <= all && Distinct(all)
    requires WellFilled(all[..FixedCount(all, most)], all[FixedCount(all, most)..], band, most, r)
    requires (forall t :: t in c && t.lan ==> t in lans) && (forall t :: t in lans ==> t in c && t.lan)
    ensures (forall t :: t in c && t.lan ==> t in r) <==> |lans| <= most
  {
    hide *;
    if |lans| <= most {
      LansKept(c, all, lans, band, most, r);
    } else {
      LanLost(all, lans, band, most, r);
      assert lans[most] in lans;
    }
  }

  /** The first target that is not LAN keeps its place behind the LAN targets, if there is room. */
  lemma FirstOtherIsKept(infos: seq<Info>, sameNetwork: bool, band: Band, max: Option<nat>)
    requires |Lans(Collected(infos, sameNetwork), true)| < |Collected(infos, sameNetwork)|
    requires max.Some? ==> |Lans(Collected(infos, sameNetwork), true)| < Max(1, max.value)
    ensures var c, r := Collected(infos, sameNetwork), Targets(infos, sameNetwork, band, max);
            var n := |Lans(c, true)|;
            n < |r| && Lans(c, false) != [] && r[n] == Lans(c, false)[0]
  {
    var c := Collected(infos, sameNetwork);
    var all, n := LanFirst(c), |Lans(c, true)|;
    CollectedDistinct(infos, sameNetwork);
    LanFirstDistinct(c);
    LansCount(c);
    LansOfLanFirst(c);
    assert all[n] == Lans(c, false)[0];
    if max.Some? && |all| > Max(1, max.value) {
      hide Collected, LanFirst, Thinned, Lans, Distinct;
      ThinnedWell(all, band, Max(1, max.value));
      FixedStays(all, Thinned(all, band, Max(1, max.value)), band, Max(1, max.value), n);
    }
  }

  lemma FixedStays(all: seq<Target>, r: seq<Target>, band: Band, most: nat, n: nat)
    requires most < |all| && n < FixedCount(all, most)
    requires WellFilled(all[..FixedCount(all, most)], all[FixedCount(all, most)..], band, most, r)
    ensures n < |r| && r[n] == all[n]
  {
    assert r[n] == all[..FixedCount(all, most)][n];
  }

  lemma LansKept(c: seq<Target>, all: seq<Target>, lans: seq<Target>, band: Band, most: nat, r: seq<Target>)
    requires |lans| <= most < |all| && lans == Lans(all, true) && lans <= all
    requires WellFilled(all[..FixedCount(all, most)], all[FixedCount(all, most)..], band, most, r)
    requires forall t :: t in c && t.lan ==> t in lans
    ensures forall t :: t in c && t.lan ==> t in r
  {
    var fixed := FixedCount(all, most);
    forall t | t in c && t.lan ensures t in r {
      var i :| 0 <= i < |lans| && lans[i] == t;
      assert r[i] == all[..fixed][i] == lans[i];
    }
  }

  lemma LanLost(all: seq<Target>, lans: seq<Target>, band: Band, most: nat, r: seq<Target>)
    requires most < |lans| && lans == Lans(all, true) && lans <= all && Distinct(all)
    requires WellFilled(all[..FixedCount(all, most)], all[FixedCount(all, most)..], band, most, r)
    ensures lans[most] !in r
  {
    assert FixedCount(all, most) == most && r == all[..most];
    forall k | 0 <= k < |r| ensures r[k] != lans[most] { assert r[k] == all[k] && all[most] == lans[most]; }
  }

  lemma {:induction false} LansOf(ts: seq<Target>, us: seq<Target>, lan: bool)
    ensures Lans(ts + us, lan) == Lans(ts, lan) + Lans(us, lan)
    decreases |us|
  {
    if us == [] {
      assert ts + us == ts;
    } else {
      assert (ts + us)[..|ts + us| - 1] == ts + us[..|us| - 1];
      LansOf(ts, us[..|us| - 1], lan);
    }
  }

  lemma {:induction false} LansAlike(ts: seq<Target>, lan: bool, which: bool)
    requires forall i :: 0 <= i < |ts| ==> ts[i].lan == which
    ensures Lans(ts, lan) == if lan == which then ts else []
    decreases |ts|
  {
    if ts != [] {
      var init, last := ts[..|ts| - 1], ts[|ts| - 1];
      assert ts == init + [last] && Lans(ts, lan) == Lans(init, lan) + if last.lan == lan then [last] else [];
      hide Lans;
      LansAlike(init, lan, which);
    }
  }

  lemma LansOfLanFirst(ts: seq<Target>)
    ensures Lans(LanFirst(ts), true) == Lans(ts, true)
  {
    LansOf(Lans(ts, true), Lans(ts, false), true);
    LansMembers(ts, true);
    LansMembers(ts, false);
    LansAlike(Lans(ts, true), true, true);
    LansAlike(Lans(ts, false), true, false);
  }

  /** Behind the LAN targets and the first other one, a target outside the observed band is
      kept only if every one inside is. */
  lemma BandComesFirst(infos: seq<Info>, sameNetwork: bool, band: Band, max: nat, k: nat, t: Target)
    requires |Collected(infos, sameNetwork)| > Max(1, max)
    requires var r := Targets(infos, sameNetwork, band, Some(max));
             |Lans(Collected(infos, sameNetwork), true)| < k < |r| && !InBand(r[k], band)
    requires t in Collected(infos, sameNetwork) && InBand(t, band)
    ensures t in Targets(infos, sameNetwork, band, Some(max))
  {
    var c := Collected(infos, sameNetwork);
    var all, most := LanFirst(c), Max(1, max);
    CollectedDistinct(infos, sameNetwork);
    LanFirstDistinct(c);
    LansOfLanFirst(c);
    ThinnedWell(all, band, most);
    hide Collected, Thinned, LanFirst, Lans, Distinct;
    BandKept(all, band, most, Thinned(all, band, most), k, t);
  }

  lemma BandKept(all: seq<Target>, band: Band, most: nat, r: seq<Target>, k: nat, t: Target)
    requires FixedCount(all, most) <= |all| && FixedCount(all, most) <= k < |r| && !InBand(r[k], band)
    requires WellFilled(all[..FixedCount(all, most)], all[FixedCount(all, most)..], band, most, r)
    requires t in all && InBand(t, band)
    ensures t in r
  {
    hide InBand;
    var fixed := FixedCount(all, most);
    var i :| 0 <= i < |all| && all[i] == t;
    if i < fixed { assert r[i] == all[..fixed][i]; } else { assert all[fixed..][i - fixed] == t; }
  }
}
