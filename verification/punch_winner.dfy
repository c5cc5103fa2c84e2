/** Which of several punched connections is kept: `is_better` and the choice in
    `punch_connection` (src/punch/strategy.rs), on keys from the pre-handshake
    (src/punch/helpers.rs). Both ends have to keep the same one without talking. */
module PunchWinner {
  import opened Wrappers
  import opened TransferProtocol
  import PunchTargets

  // ---------- the key ----------

  const MAGIC: seq<Byte> := [0x48, 0x50, 0x43, 0x48]
  const VERSION: Byte := 2

  type Key = (U64, U64)

  function Hello(own: U64): (s: seq<Byte>)
    ensures |s| == 13
  {
    MAGIC + [VERSION] + PutUint(own, 8)
  }

  function KeyOf(own: U64, peer: U64): Key {
    if own <= peer then (own, peer) else (peer, own)
  }

  /** The key a side computes from its own number and the bytes it reads. */
  function KeyFrom(own: U64, bytes: seq<Byte>): Option<Key>
    requires |bytes| == 13
  {
    if bytes[..4] != MAGIC || bytes[4] != VERSION then None else Some(KeyOf(own, GetU64(bytes[5..])))
  }

  /** One side of `pre_handshake`: what it writes, and the key it returns for what it reads. */
  method PreHandshake(own: U64, incoming: array<Byte>) returns (sent: array<Byte>, key: Option<Key>)
    requires incoming.Length == 13
    ensures fresh(sent) && sent[..] == Hello(own)
    ensures key == KeyFrom(own, incoming[..])
  {
    var out := new Byte[13];
    var number := PutUint(own, 8);
    var i := 0;
    while i < 4
      invariant 0 <= i <= 4 && out[..i] == MAGIC[..i]
    {
      out[i] := MAGIC[i];
      i := i + 1;
    }
    out[4] := VERSION;
    i := 0;
    while i < 8
      invariant 0 <= i <= 8 && out[..5] == MAGIC + [VERSION] && out[5..5 + i] == number[..i]
    {
      out[5 + i] := number[i];
      i := i + 1;
    }
    assert out[..] == out[..5] + out[5..13];
    sent := out;
    if incoming[..4] != MAGIC || incoming[4] != VERSION { return sent, None; }
    var foreign := new Byte[8];
    i := 0;
    while i < 8
      invariant 0 <= i <= 8 && foreign[..i] == incoming[5..5 + i] && sent[..] == Hello(own)
    {
      foreign[i] := incoming[5 + i];
      i := i + 1;
    }
    assert foreign[..] == foreign[..8] == incoming[5..13];
    assert incoming[5..13] == incoming[..][5..];
    var peer := GetU64(foreign[..]);
    key := Some(if own <= peer then (own, peer) else (peer, own));
  }

  /** Each end reads what the other wrote: both get the same key, the ordered pair. */
  lemma KeyIsSymmetric(a: U64, b: U64)
    ensures KeyFrom(a, Hello(b)) == KeyFrom(b, Hello(a)) == Some(KeyOf(a, b))
  {
    Widths();
    GetAfterPut(a, 8);
    GetAfterPut(b, 8);
    assert Hello(a)[..4] == MAGIC && Hello(b)[..4] == MAGIC;
    assert Hello(a)[5..] == PutUint(a, 8) && Hello(b)[5..] == PutUint(b, 8);
  }

  /** A key comes only of a greeting, and is the pair with the number in it. */
  lemma KeyOnlyFromHello(own: U64, bytes: seq<Byte>)
    requires |bytes| == 13
    ensures KeyFrom(own, bytes).Some? <==> exists peer: U64 :: bytes == Hello(peer)
    ensures forall peer: U64 :: bytes == Hello(peer) ==> KeyFrom(own, bytes) == Some(KeyOf(own, peer))
  {
    Widths();
    if KeyFrom(own, bytes).Some? {
      PutAfterGet(bytes[5..]);
      assert bytes == bytes[..4] + [bytes[4]] + bytes[5..];
      assert bytes == Hello(GetU64(bytes[5..]));
    }
    forall peer: U64 | bytes == Hello(peer) ensures KeyFrom(own, bytes) == Some(KeyOf(own, peer)) {
      KeyIsSymmetric(own, peer);
    }
  }

  /** The key stands for the two numbers, whichever end computes it, and for no others. */
  lemma KeyTellsPair(a: U64, b: U64, c: U64, d: U64)
    ensures KeyOf(a, b) == KeyOf(c, d) <==> (a == c && b == d) || (a == d && b == c)
    ensures KeyOf(a, b).0 <= KeyOf(a, b).1
  {
  }

  // ---------- the choice ----------

  datatype Candidate = Candidate(lan: bool, key: Key)

  predicate KeyLess(a: Key, b: Key) {
    a.0 < b.0 || (a.0 == b.0 && a.1 < b.1)
  }

  /** `is_better`. */
  predicate IsBetter(fresher: Candidate, cur: Candidate, preferLan: bool) {
    if preferLan && fresher.lan != cur.lan then fresher.lan else KeyLess(fresher.key, cur.key)
  }

  function Best(cs: seq<Candidate>, preferLan: bool): (w: Candidate)
    requires cs != []
    decreases |cs|
  {
    if |cs| == 1 then cs[0]
    else
      var cur := Best(cs[..|cs| - 1], preferLan);
      if IsBetter(cs[|cs| - 1], cur, preferLan) then cs[|cs| - 1] else cur
  }

  /** The whole choice: a preferred LAN connection that comes first ends it at once. */
  function Chosen(cs: seq<Candidate>, preferLan: bool): Candidate
    requires cs != []
  {
    if preferLan && cs[0].lan then cs[0] else Best(cs, preferLan)
  }

  /** The client's loop over the candidates in the order they arrive. */
  method Choose(arrivals: seq<Candidate>, preferLan: bool) returns (winner: Candidate, seen: nat, switched: bool)
    requires arrivals != []
    ensures winner == Chosen(arrivals, preferLan)
    ensures seen == if preferLan && arrivals[0].lan then 1 else |arrivals|
    ensures !switched ==> winner == arrivals[0]
  {
    winner, seen, switched := arrivals[0], 1, false;
    if !(preferLan && winner.lan) {
      while seen < |arrivals|
        invariant 1 <= seen <= |arrivals|
        invariant winner == Best(arrivals[..seen], preferLan)
        invariant !switched ==> winner == arrivals[0]
      {
        var c := arrivals[seen];
        ghost var next := arrivals[..seen + 1];
        assert next[..|next| - 1] == arrivals[..seen] && next[|next| - 1] == c;
        seen := seen + 1;
        if IsBetter(c, winner, preferLan) {
          winner, switched := c, true;
        }
      }
      assert arrivals[..seen] == arrivals;
    }
  }

  // ---------- the order of arrival does not matter ----------

  ghost predicate DistinctKeys(cs: seq<Candidate>) {
    forall i, j :: 0 <= i < j < |cs| ==> cs[i].key != cs[j].key
  }

  ghost predicate SameCandidates(cs: seq<Candidate>, ds: seq<Candidate>) {
    |cs| == |ds| && forall c :: c in cs <==> c in ds
  }

  ghost predicate LeastOf(w: Candidate, cs: seq<Candidate>, preferLan: bool) {
    w in cs && forall c :: c in cs ==> c == w || IsBetter(w, c, preferLan)
  }

  /** The kept candidate is better than every other one. */
  lemma {:induction false} BestIsLeast(cs: seq<Candidate>, preferLan: bool)
    requires cs != [] && DistinctKeys(cs)
    ensures LeastOf(Best(cs, preferLan), cs, preferLan)
    decreases |cs|
  {
    if |cs| > 1 {
      var init, last := cs[..|cs| - 1], cs[|cs| - 1];
      BestIsLeast(init, preferLan);
      var cur := Best(init, preferLan);
      var k :| 0 <= k < |init| && init[k] == cur;
      assert cs[k] == cur;
      forall c | c in cs ensures c == Best(cs, preferLan) || IsBetter(Best(cs, preferLan), c, preferLan) {
        if c != last { assert c in init; }
      }
    }
  }

  /** There is only one such. */
  lemma LeastIsUnique(w: Candidate, v: Candidate, cs: seq<Candidate>, preferLan: bool)
    requires LeastOf(w, cs, preferLan) && LeastOf(v, cs, preferLan)
    ensures w == v
  {
    assert w != v ==> IsBetter(w, v, preferLan) && IsBetter(v, w, preferLan);
  }

  /** Without the early exit, any order of arrival leads to the same connection. */
  lemma OrderDoesNotMatter(cs: seq<Candidate>, ds: seq<Candidate>, preferLan: bool)
    requires cs != [] && DistinctKeys(cs) && DistinctKeys(ds) && SameCandidates(cs, ds)
    ensures Best(cs, preferLan) == Best(ds, preferLan)
  {
    BestIsLeast(cs, preferLan);
    BestIsLeast(ds, preferLan);
    var v := Best(ds, preferLan);
    assert LeastOf(v, cs, preferLan);
    LeastIsUnique(Best(cs, preferLan), v, cs, preferLan);
  }

  ghost predicate AtMostOneLan(cs: seq<Candidate>) {
    forall i, j :: 0 <= i < j < |cs| ==> !(cs[i].lan && cs[j].lan)
  }

  ghost predicate AlwaysAgrees(cs: seq<Candidate>, preferLan: bool)
    requires cs != []
  {
    forall ds: seq<Candidate> :: ds != [] && DistinctKeys(ds) && SameCandidates(cs, ds) ==>
      Chosen(ds, preferLan) == Chosen(cs, preferLan)
  }

  function MovedToFront(cs: seq<Candidate>, i: nat): seq<Candidate>
    requires i < |cs|
  {
    [cs[i]] + cs[..i] + cs[i + 1..]
  }

  /** Where the k-th candidate stood before the i-th was moved to the front. */
  function Before(k: nat, i: nat): nat {
    if k == 0 then i else if k <= i then k - 1 else k
  }

  /** Where it stands afterwards. */
  function After(k: nat, i: nat): nat {
    if k == i then 0 else if k < i then k + 1 else k
  }

  lemma MovedAt(cs: seq<Candidate>, i: nat, k: nat)
    requires i < |cs| && k < |cs|
    ensures |MovedToFront(cs, i)| == |cs|
    ensures MovedToFront(cs, i)[k] == cs[Before(k, i)] && MovedToFront(cs, i)[After(k, i)] == cs[k]
  {
  }

  lemma FrontHas(cs: seq<Candidate>, i: nat, c: Candidate)
    requires i < |cs| && c in cs
    ensures c in MovedToFront(cs, i)
  {
    var k :| 0 <= k < |cs| && cs[k] == c;
    MovedAt(cs, i, k);
    hide MovedToFront;
    assert MovedToFront(cs, i)[After(k, i)] == c;
  }

  lemma FrontHasNoOther(cs: seq<Candidate>, i: nat, c: Candidate)
    requires i < |cs| && c in MovedToFront(cs, i)
    ensures c in cs
  {
    MovedAt(cs, i, 0);
    hide MovedToFront;
    var k :| 0 <= k < |cs| && MovedToFront(cs, i)[k] == c;
    MovedAt(cs, i, k);
  }

  lemma FrontIsSame(cs: seq<Candidate>, i: nat)
    requires i < |cs| && DistinctKeys(cs)
    ensures SameCandidates(cs, MovedToFront(cs, i)) && DistinctKeys(MovedToFront(cs, i))
  {
    var ds := MovedToFront(cs, i);
    MovedAt(cs, i, 0);
    hide MovedToFront;
    forall c | c in cs ensures c in ds { FrontHas(cs, i, c); }
    forall c | c in ds ensures c in cs { FrontHasNoOther(cs, i, c); }
    forall j, k | 0 <= j < k < |ds| ensures ds[j].key != ds[k].key {
      MovedAt(cs, i, j);
      MovedAt(cs, i, k);
    }
  }

  /** A single LAN candidate wins by either way. */
  lemma ChosenIsBest(cs: seq<Candidate>, preferLan: bool)
    requires cs != [] && DistinctKeys(cs) && (!preferLan || AtMostOneLan(cs))
    ensures Chosen(cs, preferLan) == Best(cs, preferLan)
  {
    if preferLan && cs[0].lan {
      BestIsLeast(cs, preferLan);
      forall c | c in cs ensures c == cs[0] || IsBetter(cs[0], c, preferLan) {
        var i :| 0 <= i < |cs| && cs[i] == c;
        assert i > 0 ==> !cs[i].lan;
      }
      assert LeastOf(cs[0], cs, preferLan);
      LeastIsUnique(cs[0], Best(cs, preferLan), cs, preferLan);
    }
  }

  lemma {:induction false} OneLanStays(cs: seq<Candidate>, ds: seq<Candidate>)
    requires AtMostOneLan(cs) && DistinctKeys(ds) && SameCandidates(cs, ds)
    ensures AtMostOneLan(ds)
  {
    forall i, j | 0 <= i < j < |ds| ensures !(ds[i].lan && ds[j].lan) {
      assert ds[i] in cs && ds[j] in cs;
      var k :| 0 <= k < |cs| && cs[k] == ds[i];
      var l :| 0 <= l < |cs| && cs[l] == ds[j];
      assert k != l;
    }
  }

  /** With the early exit, two sides that see the same candidates with the same marks keep
      the same one in every order exactly if LAN is not preferred or at most one is LAN. */
  lemma AgreementNeedsOneLan(cs: seq<Candidate>, preferLan: bool)
    requires cs != [] && DistinctKeys(cs)
    ensures AlwaysAgrees(cs, preferLan) <==> !preferLan || AtMostOneLan(cs)
  {
    if !preferLan || AtMostOneLan(cs) {
      forall ds: seq<Candidate> | ds != [] && DistinctKeys(ds) && SameCandidates(cs, ds)
        ensures Chosen(ds, preferLan) == Chosen(cs, preferLan)
      {
        if preferLan { OneLanStays(cs, ds); }
        ChosenIsBest(cs, preferLan);
        ChosenIsBest(ds, preferLan);
        OrderDoesNotMatter(cs, ds, preferLan);
      }
    } else {
      var i, j :| 0 <= i < j < |cs| && cs[i].lan && cs[j].lan;
      FrontIsSame(cs, i);
      FrontIsSame(cs, j);
      assert Chosen(MovedToFront(cs, i), true) == cs[i];
      assert Chosen(MovedToFront(cs, j), true) == cs[j];
    }
  }

  // ---------- the two ends of the same connections ----------

  /** A list one end may receive its candidates in. */
  ghost predicate IsOrderOf(order: seq<Candidate>, cs: seq<Candidate>) {
    order != [] && DistinctKeys(order) && SameCandidates(cs, order)
  }

  /** Whatever order each end sees its own list in, both keep the same connection. */
  ghost predicate AlwaysMeet(cs: seq<Candidate>, ds: seq<Candidate>, preferLan: bool) {
    forall a, b :: IsOrderOf(a, cs) && IsOrderOf(b, ds) ==> Chosen(a, preferLan).key == Chosen(b, preferLan).key
  }

  /** The same connections in the same places, each end with marks of its own. */
  ghost predicate SameKeys(cs: seq<Candidate>, ds: seq<Candidate>) {
    |cs| == |ds| && forall i :: 0 <= i < |cs| ==> cs[i].key == ds[i].key
  }

  ghost predicate HasLeastKey(cs: seq<Candidate>, i: nat)
    requires i < |cs|
  {
    forall j :: 0 <= j < |cs| ==> j == i || KeyLess(cs[i].key, cs[j].key)
  }

  ghost predicate NoLan(cs: seq<Candidate>) {
    forall i :: 0 <= i < |cs| ==> !cs[i].lan
  }

  /** What one end marks, the other marks too, or it marks nothing and keeps that one for its key. */
  ghost predicate MarksMeet(cs: seq<Candidate>, ds: seq<Candidate>)
    requires |cs| == |ds|
  {
    forall i :: 0 <= i < |cs| && cs[i].lan ==> ds[i].lan || (NoLan(ds) && HasLeastKey(ds, i))
  }

  /** The condition under which the choice of the two ends is the same. */
  ghost predicate MarksAllow(cs: seq<Candidate>, ds: seq<Candidate>)
    requires |cs| == |ds|
  {
    AtMostOneLan(cs) && AtMostOneLan(ds) && MarksMeet(cs, ds) && MarksMeet(ds, cs)
  }

  /** A candidate that beats the others is kept in every order. */
  lemma KeptInEveryOrder(cs: seq<Candidate>, order: seq<Candidate>, i: nat, preferLan: bool)
    requires DistinctKeys(cs) && IsOrderOf(order, cs) && (!preferLan || AtMostOneLan(cs))
    requires i < |cs| && LeastOf(cs[i], cs, preferLan)
    ensures Chosen(order, preferLan) == cs[i]
  {
    if preferLan { OneLanStays(cs, order); }
    ChosenIsBest(order, preferLan);
    OrderDoesNotMatter(cs, order, preferLan);
    BestIsLeast(cs, preferLan);
    LeastIsUnique(cs[i], Best(cs, preferLan), cs, preferLan);
  }

  /** Where the marks allow it, what beats the others at one end beats them at the other. */
  lemma LeastAtBoth(cs: seq<Candidate>, ds: seq<Candidate>, i: nat, preferLan: bool)
    requires SameKeys(cs, ds) && DistinctKeys(cs) && (!preferLan || MarksAllow(cs, ds))
    requires i < |cs| && LeastOf(cs[i], cs, preferLan)
    ensures LeastOf(ds[i], ds, preferLan)
  {
    forall d | d in ds ensures d == ds[i] || IsBetter(ds[i], d, preferLan) {
      var j :| 0 <= j < |ds| && ds[j] == d;
      assert cs[j] in cs;
      if j != i && preferLan {
        assert IsBetter(cs[i], cs[j], true);
        assert !(cs[i].lan && cs[j].lan) && !(ds[i].lan && ds[j].lan);
      }
    }
  }

  /** If the ends always meet, one of them cannot mark two connections. */
  lemma MeetingNeedsOneLan(cs: seq<Candidate>, ds: seq<Candidate>)
    requires ds != [] && DistinctKeys(cs) && DistinctKeys(ds) && AlwaysMeet(cs, ds, true)
    ensures AtMostOneLan(cs)
  {
    forall i, j | 0 <= i < j < |cs| ensures !(cs[i].lan && cs[j].lan) {
      FrontIsSame(cs, i);
      FrontIsSame(cs, j);
      assert IsOrderOf(MovedToFront(cs, i), cs) && IsOrderOf(MovedToFront(cs, j), cs) && IsOrderOf(ds, ds);
      assert cs[i].lan ==> Chosen(ds, true).key == cs[i].key;
      assert cs[j].lan ==> Chosen(ds, true).key == cs[j].key;
    }
  }

  /** If the ends always meet, a marked connection is kept by the other end as well. */
  lemma MeetingNeedsMark(cs: seq<Candidate>, ds: seq<Candidate>, i: nat)
    requires SameKeys(cs, ds) && DistinctKeys(cs) && DistinctKeys(ds) && AlwaysMeet(cs, ds, true)
    requires i < |cs| && cs[i].lan && !ds[i].lan
    ensures NoLan(ds) && HasLeastKey(ds, i)
  {
    FrontIsSame(cs, i);
    assert IsOrderOf(MovedToFront(cs, i), cs);
    forall k | 0 <= k < |ds| ensures !ds[k].lan {
      FrontIsSame(ds, k);
      assert IsOrderOf(MovedToFront(ds, k), ds);
    }
    assert IsOrderOf(ds, ds);
    BestIsLeast(ds, true);
    var w := Best(ds, true);
    var k :| 0 <= k < |ds| && ds[k] == w;
    assert k == i;
    assert forall j :: 0 <= j < |ds| ==> ds[j] in ds;
  }

  lemma MeetingIsMutual(cs: seq<Candidate>, ds: seq<Candidate>, preferLan: bool)
    requires AlwaysMeet(cs, ds, preferLan)
    ensures AlwaysMeet(ds, cs, preferLan)
  {
    forall a, b | IsOrderOf(a, ds) && IsOrderOf(b, cs)
      ensures Chosen(a, preferLan).key == Chosen(b, preferLan).key
    {
      assert IsOrderOf(b, cs) && IsOrderOf(a, ds);
    }
  }

  lemma MeetingNeedsMarks(cs: seq<Candidate>, ds: seq<Candidate>)
    requires cs != [] && SameKeys(cs, ds) && DistinctKeys(cs) && DistinctKeys(ds) && AlwaysMeet(cs, ds, true)
    ensures MarksAllow(cs, ds)
  {
    MeetingIsMutual(cs, ds, true);
    MeetingNeedsOneLan(cs, ds);
    MeetingNeedsOneLan(ds, cs);
    forall i | 0 <= i < |cs| && cs[i].lan && !ds[i].lan ensures NoLan(ds) && HasLeastKey(ds, i) {
      MeetingNeedsMark(cs, ds, i);
    }
    forall i | 0 <= i < |ds| && ds[i].lan && !cs[i].lan ensures NoLan(cs) && HasLeastKey(cs, i) {
      MeetingNeedsMark(ds, cs, i);
    }
  }

  lemma MarksMakeThemMeet(cs: seq<Candidate>, ds: seq<Candidate>, preferLan: bool)
    requires cs != [] && SameKeys(cs, ds) && DistinctKeys(cs) && DistinctKeys(ds)
    requires !preferLan || MarksAllow(cs, ds)
    ensures AlwaysMeet(cs, ds, preferLan)
  {
    BestIsLeast(cs, preferLan);
    var i :| 0 <= i < |cs| && cs[i] == Best(cs, preferLan);
    LeastAtBoth(cs, ds, i, preferLan);
    forall a, b | IsOrderOf(a, cs) && IsOrderOf(b, ds)
      ensures Chosen(a, preferLan).key == Chosen(b, preferLan).key
    {
      KeptInEveryOrder(cs, a, i, preferLan);
      KeptInEveryOrder(ds, b, i, preferLan);
    }
  }

  // ---------- the marks of the two ends ----------

  /** How an end came by a connection: it reached one of its targets, which the relay may
      have named as local, or its listener accepted it from some address. */
  datatype Via = Connected(local: bool, target: PunchTargets.Addr) | Accepted(peer: PunchTargets.Addr)

  /** The LAN mark; `sameNetwork` is one answer of the relay, the same for both ends. */
  predicate Marked(via: Via, sameNetwork: bool) {
    match via
    case Connected(local, target) => local || (sameNetwork && PunchTargets.IsPrivate(target))
    case Accepted(peer) => PunchTargets.IsPrivate(peer)
  }

  /** One connection between the ends A and B. */
  datatype Punched = Punched(key: Key, a: Via, b: Via)

  function AtA(ps: seq<Punched>, sameNetwork: bool): seq<Candidate> {
    seq(|ps|, i requires 0 <= i < |ps| => Candidate(Marked(ps[i].a, sameNetwork), ps[i].key))
  }

  function AtB(ps: seq<Punched>, sameNetwork: bool): seq<Candidate> {
    seq(|ps|, i requires 0 <= i < |ps| => Candidate(Marked(ps[i].b, sameNetwork), ps[i].key))
  }

  ghost predicate OwnKeys(ps: seq<Punched>) {
    forall i, j :: 0 <= i < j < |ps| ==> ps[i].key != ps[j].key
  }

  /** The address at the other end, as this end sees it. */
  function FarAddress(via: Via): PunchTargets.Addr {
    match via
    case Connected(_, target) => target
    case Accepted(peer) => peer
  }

  /** What one attempt can bring about: a listener stops after one connection, one of the ends
      of a connection has connected, the relay names local targets only to peers in the same network,
      and what A sees in all its connections are addresses of B, never those under which B sees A. */
  ghost predicate CanArise(ps: seq<Punched>, sameNetwork: bool) {
    && OwnKeys(ps)
    && (forall i, j :: 0 <= i < j < |ps| ==> !(ps[i].a.Accepted? && ps[j].a.Accepted?))
    && (forall i, j :: 0 <= i < j < |ps| ==> !(ps[i].b.Accepted? && ps[j].b.Accepted?))
    && (forall i :: 0 <= i < |ps| ==> !(ps[i].a.Accepted? && ps[i].b.Accepted?))
    && (forall i, j :: 0 <= i < |ps| && 0 <= j < |ps| ==> FarAddress(ps[i].a) != FarAddress(ps[j].b))
    && (forall i :: 0 <= i < |ps| && ps[i].a.Connected? && ps[i].a.local ==> sameNetwork)
    && (forall i :: 0 <= i < |ps| && ps[i].b.Connected? && ps[i].b.local ==> sameNetwork)
  }

  /** Both ends keep the same connection, in whatever orders they see their candidates, exactly
      if LAN is not preferred or each end marks at most one connection, and that one is marked
      at the other end too or is the one the other end, marking none, keeps for its key. */
  lemma EndsAgree(ps: seq<Punched>, sameNetwork: bool, preferLan: bool)
    requires ps != [] && OwnKeys(ps)
    ensures AlwaysMeet(AtA(ps, sameNetwork), AtB(ps, sameNetwork), preferLan) <==>
            !preferLan || MarksAllow(AtA(ps, sameNetwork), AtB(ps, sameNetwork))
  {
    var cs, ds := AtA(ps, sameNetwork), AtB(ps, sameNetwork);
    assert SameKeys(cs, ds) && DistinctKeys(cs) && DistinctKeys(ds);
    hide AtA, AtB;
    if !preferLan || MarksAllow(cs, ds) {
      MarksMakeThemMeet(cs, ds, preferLan);
    } else if AlwaysMeet(cs, ds, preferLan) {
      MeetingNeedsMarks(cs, ds);
    }
  }

  /** What the accepting end sees fits what the connecting end was told: a private address
      exactly if the target was named local or is private in a shared network. */
  predicate AcceptedFits(local: bool, target: PunchTargets.Addr, peer: PunchTargets.Addr, sameNetwork: bool) {
    if PunchTargets.IsPrivate(peer) then local || (sameNetwork && PunchTargets.IsPrivate(target))
    else !local && (sameNetwork ==> !PunchTargets.IsPrivate(target))
  }

  /** The same of two ends that both connected, or whatever they did. */
  predicate Fits(a: Via, b: Via, sameNetwork: bool) {
    match (a, b)
    case (Connected(local, target), Accepted(peer)) => AcceptedFits(local, target, peer, sameNetwork)
    case (Accepted(peer), Connected(local, target)) => AcceptedFits(local, target, peer, sameNetwork)
    case (Accepted(p), Accepted(q)) => PunchTargets.IsPrivate(p) == PunchTargets.IsPrivate(q)
    case (Connected(l, t), Connected(m, u)) =>
      if l == m then l || (sameNetwork ==> PunchTargets.IsPrivate(t) == PunchTargets.IsPrivate(u))
      else sameNetwork && PunchTargets.IsPrivate(if l then u else t)
  }

  /** The ends mark all connections alike exactly if what they were told and saw fits, for each of
      them; then they always meet exactly if LAN is not preferred or at most one is marked. */
  lemma MarksAgree(ps: seq<Punched>, sameNetwork: bool, preferLan: bool)
    requires ps != [] && OwnKeys(ps)
    ensures (forall i :: 0 <= i < |ps| ==> Fits(ps[i].a, ps[i].b, sameNetwork))
       <==> AtA(ps, sameNetwork) == AtB(ps, sameNetwork)
    ensures (forall i :: 0 <= i < |ps| ==> Fits(ps[i].a, ps[i].b, sameNetwork)) ==>
              (AlwaysMeet(AtA(ps, sameNetwork), AtB(ps, sameNetwork), preferLan)
               <==> !preferLan || AtMostOneLan(AtA(ps, sameNetwork)))
  {
    var cs, ds := AtA(ps, sameNetwork), AtB(ps, sameNetwork);
    forall i | 0 <= i < |ps| ensures Fits(ps[i].a, ps[i].b, sameNetwork) <==> cs[i] == ds[i] {}
    EndsAgree(ps, sameNetwork, preferLan);
  }

  /** Two peers in one network whose addresses are not private ones: A reaches B's local address
      and B accepts from A's, and over their common public address the two connect to each other. */
  function CampusPair(): seq<Punched> {
    var localA, localB := PunchTargets.V4(141, 30, 1, 9, 5001), PunchTargets.V4(141, 30, 1, 7, 5000);
    var publicA, publicB := PunchTargets.V4(84, 1, 2, 3, 6001), PunchTargets.V4(84, 1, 2, 3, 6000);
    [Punched((3, 4), Connected(true, localB), Accepted(localA)),
     Punched((1, 2), Connected(false, publicB), Connected(false, publicA))]
  }

  /** The ends need not give a connection the same mark, and then can keep different ones. */
  lemma MarksCanDiffer()
    ensures CanArise(CampusPair(), true)
    ensures Chosen(AtA(CampusPair(), true), true).key == (3, 4)
    ensures Chosen(AtB(CampusPair(), true), true).key == (1, 2)
    ensures !AlwaysMeet(AtA(CampusPair(), true), AtB(CampusPair(), true), true)
  {
    var cs, ds := AtA(CampusPair(), true), AtB(CampusPair(), true);
    assert ds[..1] == [ds[0]];
    assert Best([ds[0]], true) == ds[0];
    assert IsOrderOf(cs, cs) && IsOrderOf(ds, ds);
  }
}
