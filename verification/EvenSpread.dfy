/** The EVENSPREAD policy: virtual replicas are spread over zones (pkg/common/scheduler/statefulset/scheduler.go). */
module EvenSpread {
  import opened Options
  import opened PodNames
  import opened Placements
  import opened Arithmetic
  import opened Snapshots
  import opened FillUp

  // ----- zones -----

  /** Lexicographic order on names. */
  predicate Leq(a: string, b: string) {
    a == "" || (b != "" && (a[0] < b[0] || (a[0] == b[0] && Leq(a[1..], b[1..]))))
  }

  lemma {:induction false} LeqOrder(a: string, b: string, c: string)
    ensures Leq(a, b) || Leq(b, a)
    ensures Leq(a, b) && Leq(b, a) ==> a == b
    ensures Leq(a, b) && Leq(b, c) ==> Leq(a, c)
  {
    if a != "" && b != "" {
      if c != "" { LeqOrder(a[1..], b[1..], c[1..]); } else { LeqOrder(a[1..], b[1..], c); }
      if a[0] == b[0] && a[1..] == b[1..] {
        assert a == [a[0]] + a[1..] == b;
      }
    }
  }

  function InsertZone(z: string, zs: seq<string>): seq<string> {
    if zs == [] then [z]
    else if z == zs[0] then zs
    else if Leq(z, zs[0]) then [z] + zs
    else [zs[0]] + InsertZone(z, zs[1..])
  }

  /** The names of the zones holding placements, sorted. */
  function ZonesOf(ps: seq<Placement>): seq<string> {
    if ps == [] then [] else InsertZone(ps[0].zoneName, ZonesOf(ps[1..]))
  }

  predicate Ascending(zs: seq<string>) {
    forall i, j :: 0 <= i < j < |zs| ==> Leq(zs[i], zs[j]) && zs[i] != zs[j]
  }

  lemma {:induction false} InsertZoneLaw(z: string, zs: seq<string>)
    requires Ascending(zs)
    ensures Ascending(InsertZone(z, zs))
    ensures forall x :: x in InsertZone(z, zs) <==> x == z || x in zs
  {
    if zs != [] && z != zs[0] {
      if Leq(z, zs[0]) {
        forall j | 0 <= j < |zs| ensures Leq(z, zs[j]) && z != zs[j] {
          LeqOrder(z, zs[0], zs[j]);
          LeqOrder(zs[0], zs[j], zs[j]);
        }
      } else {
        InsertZoneLaw(z, zs[1..]);
        var r := InsertZone(z, zs[1..]);
        LeqOrder(z, zs[0], z);
        forall j | 0 <= j < |r| ensures Leq(zs[0], r[j]) && zs[0] != r[j] {
          assert r[j] in r;
          if r[j] != z {
            var i :| 0 <= i < |zs[1..]| && zs[1..][i] == r[j];
            assert zs[i + 1] == r[j];
          }
        }
      }
    }
  }

  /** The zone list is sorted, without repetition, and names exactly the zones recorded in the placements. */
  lemma {:induction false} ZonesOfLaw(ps: seq<Placement>)
    ensures Ascending(ZonesOf(ps))
    ensures forall z :: z in ZonesOf(ps) <==> exists i :: 0 <= i < |ps| && ps[i].zoneName == z
  {
    if ps != [] {
      ZonesOfLaw(ps[1..]);
      InsertZoneLaw(ps[0].zoneName, ZonesOf(ps[1..]));
      forall z ensures z in ZonesOf(ps) <==> exists i :: 0 <= i < |ps| && ps[i].zoneName == z {
        if i :| 0 <= i < |ps[1..]| && ps[1..][i].zoneName == z {
          assert ps[i + 1].zoneName == z;
        }
        if i :| 0 <= i < |ps| && ps[i].zoneName == z && i > 0 {
          assert ps[1..][i - 1].zoneName == z;
        }
      }
    }
  }

  /** The placements recorded in one zone, in list order. */
  function InZoneOnly(ps: seq<Placement>, z: string): seq<Placement> {
    if ps == [] then []
    else (if ps[0].zoneName == z then [ps[0]] else []) + InZoneOnly(ps[1..], z)
  }

  /** The placements zone by zone. */
  function Regroup(ps: seq<Placement>, zones: seq<string>): seq<Placement> {
    if zones == [] then [] else InZoneOnly(ps, zones[0]) + Regroup(ps, zones[1..])
  }

  function Restrict(w: Placement -> int, zones: seq<string>): Placement -> int {
    (p: Placement) => if p.zoneName in zones then w(p) else 0
  }

  lemma {:induction false} WeightInZone(ps: seq<Placement>, z: string, w: Placement -> int)
    ensures Weight(InZoneOnly(ps, z), w) == Weight(ps, Restrict(w, [z]))
  {
    if ps != [] {
      WeightInZone(ps[1..], z, w);
      WeightConcat(if ps[0].zoneName == z then [ps[0]] else [], InZoneOnly(ps[1..], z), w);
      WeightOne(ps[0], w);
    }
  }

  lemma {:induction false} WeightPlus(ps: seq<Placement>, u: Placement -> int, v: Placement -> int, w: Placement -> int)
    requires forall i :: 0 <= i < |ps| ==> w(ps[i]) == u(ps[i]) + v(ps[i])
    ensures Weight(ps, w) == Weight(ps, u) + Weight(ps, v)
  {
    if ps != [] { WeightPlus(ps[1..], u, v, w); }
  }

  lemma {:induction false} WeightRegrouped(ps: seq<Placement>, zones: seq<string>, w: Placement -> int)
    requires Ascending(zones)
    ensures Weight(Regroup(ps, zones), w) == Weight(ps, Restrict(w, zones))
  {
    if zones == [] {
      WeightZero(ps);
      WeightEqual(ps, Restrict(w, []), (p: Placement) => 0);
    } else {
      WeightRegrouped(ps, zones[1..], w);
      WeightInZone(ps, zones[0], w);
      WeightConcat(InZoneOnly(ps, zones[0]), Regroup(ps, zones[1..]), w);
      assert forall z :: z in zones <==> z == zones[0] || z in zones[1..];
      assert zones[0] !in zones[1..];
      WeightPlus(ps, Restrict(w, [zones[0]]), Restrict(w, zones[1..]), Restrict(w, zones));
    }
  }

  /** Grouping by zone only reorders: every count over the placements stays the same. */
  lemma RegroupKeepsWeight(ps: seq<Placement>, w: Placement -> int)
    ensures Weight(Regroup(ps, ZonesOf(ps)), w) == Weight(ps, w)
  {
    ZonesOfLaw(ps);
    WeightRegrouped(ps, ZonesOf(ps), w);
    assert forall i :: 0 <= i < |ps| ==> ps[i].zoneName in ZonesOf(ps);
    WeightEqual(ps, Restrict(w, ZonesOf(ps)), w);
  }

  lemma {:induction false} InZoneOnlyLaw(ps: seq<Placement>, z: string)
    ensures forall i :: 0 <= i < |InZoneOnly(ps, z)| ==>
            InZoneOnly(ps, z)[i] in ps && InZoneOnly(ps, z)[i].zoneName == z
    ensures forall i :: 0 <= i < |ps| && ps[i].zoneName == z ==> ps[i] in InZoneOnly(ps, z)
    ensures ZoneTotal(InZoneOnly(ps, z), z) == ZoneTotal(ps, z)
  {
    if ps != [] {
      InZoneOnlyLaw(ps[1..], z);
      assert InZoneOnly(ps, z) == (if ps[0].zoneName == z then [ps[0]] else []) + InZoneOnly(ps[1..], z);
      WeightConcat(if ps[0].zoneName == z then [ps[0]] else [], InZoneOnly(ps[1..], z), InZone(z));
      WeightOne(ps[0], InZone(z));
      assert forall i :: 1 <= i < |ps| ==> ps[i] == ps[1..][i - 1];
    }
  }

  // ----- scale-up on the vpod's own pods -----

  /** An allocation inside one zone, with the running total of the zone. */
  datatype Zoned = Zoned(alloc: Alloc, total: int)

  function SpreadOne(s: Zoned, p: Placement, spread: int): Zoned {
    var a := s.alloc;
    var f := a.snap.Free(Ord(p));
    if a.left >= 0 && f > 0 && s.total < spread then
      var n := Min(a.left, Min(f, spread - s.total));
      Zoned(Give(a, Ord(p), n, Placement(p.podName, p.zoneName, p.vreplicas + n)), s.total + n)
    else Zoned(a.(placed := a.placed + [p]), s.total)
  }

  function SpreadZone(s: Zoned, ps: seq<Placement>, spread: int): Zoned
    decreases ps
  {
    if ps == [] then s else SpreadZone(SpreadOne(s, ps[0], spread), ps[1..], spread)
  }

  function SpreadZones(a: Alloc, ps: seq<Placement>, zones: seq<string>, spread: int): Alloc
    decreases zones
  {
    if zones == [] then a
    else
      var z := zones[0];
      SpreadZones(SpreadZone(Zoned(a, ZoneTotal(ps, z)), InZoneOnly(ps, z), spread).alloc, ps, zones[1..], spread)
  }

  /** As Raises, and every entry stays in its zone. */
  ghost predicate RaisesInPlace(before: seq<Placement>, after: seq<Placement>) {
    Raises(before, after) && forall i :: 0 <= i < |before| ==> before[i].zoneName == after[i].zoneName
  }

  lemma SpreadOneLaw(s: Zoned, p: Placement, spread: int)
    requires 0 <= s.alloc.left
    ensures var a, t := s.alloc, SpreadOne(s, p, spread);
            && Extends(a, [p], t.alloc)
            && s.total <= t.total <= Max(s.total, spread)
            && (exists q :: t.alloc.placed == a.placed + [q] && q.podName == p.podName && q.zoneName == p.zoneName
                            && q.vreplicas == p.vreplicas + t.total - s.total)
            && (t.alloc.left > 0 ==> t.alloc.snap.Free(Ord(p)) <= 0 || spread <= t.total)
  {
    hide OrdinalFromPodName;
    var a, t := s.alloc, SpreadOne(s, p, spread);
    var f := a.snap.Free(Ord(p));
    WeightOne(p, Replicas());
    if f > 0 && s.total < spread {
      var n := Min(a.left, Min(f, spread - s.total));
      var q := Placement(p.podName, p.zoneName, p.vreplicas + n);
      GiveExtends(a, [p], n, q);
      assert t.alloc.placed == a.placed + [q];
    } else {
      GiveExtends(a, [p], 0, p);
      assert t.alloc.placed == a.placed + [p];
    }
  }

  lemma {:induction false} SpreadZoneLaw(s: Zoned, ps: seq<Placement>, z: string, spread: int)
    requires 0 <= s.alloc.left && forall i :: 0 <= i < |ps| ==> ps[i].zoneName == z
    ensures var a, t := s.alloc, SpreadZone(s, ps, spread);
            && Extends(a, ps, t.alloc)
            && s.total <= t.total <= Max(s.total, spread)
            && a.placed <= t.alloc.placed && RaisesInPlace(ps, t.alloc.placed[|a.placed|..])
            && ZoneTotal(t.alloc.placed, z) == ZoneTotal(a.placed, z) + ZoneTotal(ps, z) + t.total - s.total
            && (forall x :: x != z ==> ZoneTotal(t.alloc.placed, x) == ZoneTotal(a.placed, x))
            && (t.alloc.left > 0 ==> forall i :: 0 <= i < |ps| ==>
                 t.alloc.snap.Free(Ord(ps[i])) <= 0 || spread <= t.total)
    decreases ps
  {
    hide OrdinalFromPodName, Extends, SpreadOne;
    if ps == [] {
      ExtendsNothing(s.alloc);
    } else {
      var a, s1, t := s.alloc, SpreadOne(s, ps[0], spread), SpreadZone(s, ps, spread);
      SpreadOneLaw(s, ps[0], spread);
      var q :| s1.alloc.placed == a.placed + [q] && q.podName == ps[0].podName && q.zoneName == ps[0].zoneName
               && q.vreplicas == ps[0].vreplicas + s1.total - s.total;
      ExtendsLeft(a, [ps[0]], s1.alloc);
      SpreadZoneLaw(s1, ps[1..], z, spread);
      ExtendsLeft(s1.alloc, ps[1..], t.alloc);
      ExtendsThen(a, [ps[0]], s1.alloc, ps[1..], t.alloc);
      assert [ps[0]] + ps[1..] == ps;
      assert t.alloc.placed[|a.placed|..][1..] == t.alloc.placed[|s1.alloc.placed|..];
      assert t.alloc.placed[|a.placed|] == q;
      forall x ensures ZoneTotal(s1.alloc.placed, x) == ZoneTotal(a.placed, x) + if x == z then q.vreplicas else 0 {
        WeightAppend(a.placed, q, InZone(x));
      }
      ExtendsFalls(s1.alloc, ps[1..], t.alloc, Ord(ps[0]));
    }
  }

  /** What the run over the zones leaves behind. */
  ghost predicate SpreadsOver(a: Alloc, ps: seq<Placement>, zones: seq<string>, spread: int, b: Alloc) {
    && Extends(a, Regroup(ps, zones), b)
    && a.placed <= b.placed && RaisesInPlace(Regroup(ps, zones), b.placed[|a.placed|..])
    && (forall z :: z !in zones ==> ZoneTotal(b.placed, z) == ZoneTotal(a.placed, z))
    && (forall z :: z in zones ==>
          ZoneTotal(a.placed, z) + ZoneTotal(ps, z) <= ZoneTotal(b.placed, z)
          <= ZoneTotal(a.placed, z) + Max(ZoneTotal(ps, z), spread))
  }

  lemma {:induction false} SpreadZonesLaw(a: Alloc, ps: seq<Placement>, zones: seq<string>, spread: int)
    requires 0 <= a.left && Ascending(zones)
    ensures SpreadsOver(a, ps, zones, spread, SpreadZones(a, ps, zones, spread))
    decreases zones
  {
    hide OrdinalFromPodName, Extends, InZoneOnly, SpreadZone, RaisesInPlace, Weight;
    if zones == [] {
      ExtendsNothing(a);
      assert a.placed[|a.placed|..] == [];
      RaisesNothing();
    } else {
      var z := zones[0];
      var own := InZoneOnly(ps, z);
      var t := SpreadZone(Zoned(a, ZoneTotal(ps, z)), own, spread);
      var b := SpreadZones(a, ps, zones, spread);
      InZoneOnlyLaw(ps, z);
      SpreadZoneLaw(Zoned(a, ZoneTotal(ps, z)), own, z, spread);
      ExtendsLeft(a, own, t.alloc);
      SpreadZonesLaw(t.alloc, ps, zones[1..], spread);
      ExtendsThen(a, own, t.alloc, Regroup(ps, zones[1..]), b);
      RaisesConcat(own, Regroup(ps, zones[1..]), a.placed, t.alloc.placed, b.placed);
      assert forall x :: x in zones <==> x == z || x in zones[1..];
      assert z !in zones[1..];
    }
  }

  lemma RaisesNothing()
    ensures RaisesInPlace([], [])
  {
  }

  lemma RaisesConcat(ps: seq<Placement>, qs: seq<Placement>, a: seq<Placement>, b: seq<Placement>, c: seq<Placement>)
    requires a <= b && RaisesInPlace(ps, b[|a|..]) && b <= c && RaisesInPlace(qs, c[|b|..])
    ensures a <= c && RaisesInPlace(ps + qs, c[|a|..])
  {
    assert c[|a|..] == b[|a|..] + c[|b|..];
  }

  /** While replicas are left over, a pod of the vpod still has room only if its zone has reached the spread. */
  lemma {:induction false} SpreadZonesFull(a: Alloc, ps: seq<Placement>, zones: seq<string>, spread: int, p: Placement)
    requires 0 <= a.left && Ascending(zones) && p in ps && p.zoneName in zones
    requires forall z :: z in zones ==> ZoneTotal(a.placed, z) == 0
    ensures var b := SpreadZones(a, ps, zones, spread);
            b.left > 0 ==> b.snap.Free(Ord(p)) <= 0 || spread <= ZoneTotal(b.placed, p.zoneName)
    decreases zones
  {
    hide OrdinalFromPodName, ExtendsAt;
    var z := zones[0];
    var own := InZoneOnly(ps, z);
    var t := SpreadZone(Zoned(a, ZoneTotal(ps, z)), own, spread);
    var b := SpreadZones(a, ps, zones, spread);
    InZoneOnlyLaw(ps, z);
    SpreadZoneLaw(Zoned(a, ZoneTotal(ps, z)), own, z, spread);
    SpreadZonesLaw(t.alloc, ps, zones[1..], spread);
    assert z !in zones[1..];
    if p.zoneName == z {
      assert p in own;
      ExtendsFalls(t.alloc, Regroup(ps, zones[1..]), b, Ord(p));
    } else {
      assert p.zoneName in zones[1..];
      SpreadZonesFull(t.alloc, ps, zones[1..], spread, p);
    }
  }

  // ----- scale-up on other pods -----

  /** Where pods run, and in which zones nodes are. */
  datatype Cluster = Cluster(podToNode: map<string, string>, nodeToZone: map<string, string>)

  function ZoneOfPod(c: Cluster, podName: string): Option<string> {
    if podName in c.podToNode && c.podToNode[podName] in c.nodeToZone then Some(c.nodeToZone[c.podToNode[podName]])
    else None
  }

  function SpreadNewOne(a: Alloc, c: Cluster, name: string, ordinal: nat, spread: int): Alloc {
    var f := a.snap.Free(ordinal);
    if f <= 0 then a
    else
      var podName := PodNameFromOrdinal(name, ordinal);
      match ZoneOfPod(c, podName)
      case None => a
      case Some(z) =>
        var total := ZoneTotal(a.placed, z);
        if total >= spread then a
        else
          var n := Min(a.left, Min(f, spread - total));
          Give(a, ordinal, n, Placement(podName, z, n))
  }

  function SpreadNew(a: Alloc, c: Cluster, name: string, ordinal: nat, replicas: int, spread: int): Alloc
    decreases replicas - ordinal
  {
    if ordinal >= replicas then a
    else
      var b := SpreadNewOne(a, c, name, ordinal, spread);
      if b.left == 0 then b else SpreadNew(b, c, name, ordinal + 1, replicas, spread)
  }

  function AddReplicasEvenSpread(
    snap: Snapshot, c: Cluster, name: string, replicas: int, diff: int, ps: seq<Placement>, spread: int): Alloc
  {
    var a := SpreadZones(Alloc(snap, [], diff), ps, ZonesOf(ps), spread);
    if a.left > 0 then SpreadNew(a, c, name, 0, replicas, spread) else a
  }

  /** The pod has room and runs in a known zone that has not reached the spread. */
  predicate CanTake(a: Alloc, c: Cluster, name: string, o: nat, spread: int) {
    var z := ZoneOfPod(c, PodNameFromOrdinal(name, o));
    a.snap.Free(o) > 0 && z.Some? && ZoneTotal(a.placed, z.value) < spread
  }

  /** Other pods are taken at most once each, only if they can take something, and only up to the spread. */
  ghost predicate TakesSpread(a: Alloc, c: Cluster, name: string, from: nat, to: int, spread: int, b: Alloc) {
    && a.placed <= b.placed
    && (forall i :: |a.placed| <= i < |b.placed| ==>
          && Canonical(name, b.placed[i]) && 0 < b.placed[i].vreplicas
          && ZoneOfPod(c, b.placed[i].podName) == Some(b.placed[i].zoneName))
    && (forall o: nat ::
          Listings(b.placed, o)
          <= Listings(a.placed, o) + if from <= o < to && CanTake(a, c, name, o, spread) then 1 else 0)
    && (forall z :: ZoneTotal(a.placed, z) <= ZoneTotal(b.placed, z) <= Max(ZoneTotal(a.placed, z), spread))
    && (b.left > 0 ==> forall o: nat :: from <= o < to ==> !CanTake(b, c, name, o, spread))
    && (forall i, o: nat :: |a.placed| <= i < |b.placed| && from <= o < Ord(b.placed[i]) ==>
          !CanTake(b, c, name, o, spread))
  }

  lemma SpreadNewOneLaw(a: Alloc, c: Cluster, name: string, ordinal: nat, spread: int)
    requires 0 < a.left && ordinal <= MAX_INT32
    ensures var b := SpreadNewOne(a, c, name, ordinal, spread);
            && Extends(a, [], b)
            && TakesSpread(a, c, name, ordinal, ordinal + 1, spread, b)
            && (b.left == 0 ==> forall to: int :: ordinal < to ==> TakesSpread(a, c, name, ordinal, to, spread, b))
  {
    hide OrdinalFromPodName, PodNameFromOrdinal, ExtendsAt, Extends;
    var b := SpreadNewOne(a, c, name, ordinal, spread);
    OrdinalRoundTrip(name, ordinal);
    if CanTake(a, c, name, ordinal, spread) {
      var z := ZoneOfPod(c, PodNameFromOrdinal(name, ordinal)).value;
      var n := Min(a.left, Min(a.snap.Free(ordinal), spread - ZoneTotal(a.placed, z)));
      var p := Placement(PodNameFromOrdinal(name, ordinal), z, n);
      assert b == Give(a, ordinal, n, p);
      GiveExtends(a, [], n, p);
      forall o: nat ensures Listings(b.placed, o) == Listings(a.placed, o) + if o == ordinal then 1 else 0 {
        WeightAppend(a.placed, p, ListedOn(o));
      }
      forall x ensures ZoneTotal(b.placed, x) == ZoneTotal(a.placed, x) + if x == z then n else 0 {
        WeightAppend(a.placed, p, InZone(x));
      }
    } else {
      ExtendsNothing(a);
    }
  }

  lemma SpreadThen(a: Alloc, c: Cluster, name: string, ordinal: nat, to: int, spread: int, a1: Alloc, b: Alloc)
    requires ordinal < to && a1.left > 0 && Extends(a, [], a1) && Extends(a1, [], b)
    requires TakesSpread(a, c, name, ordinal, ordinal + 1, spread, a1)
    requires TakesSpread(a1, c, name, ordinal + 1, to, spread, b)
    ensures TakesSpread(a, c, name, ordinal, to, spread, b)
  {
    hide OrdinalFromPodName, PodNameFromOrdinal, ExtendsAt, Extends, Listings, ZoneTotal, Canonical;
    forall i | |a.placed| <= i < |b.placed|
      ensures Canonical(name, b.placed[i]) && 0 < b.placed[i].vreplicas
      ensures ZoneOfPod(c, b.placed[i].podName) == Some(b.placed[i].zoneName)
    {
      if i < |a1.placed| { assert b.placed[i] == a1.placed[i]; }
    }
    forall o: nat ensures b.snap.Free(o) <= a1.snap.Free(o) <= a.snap.Free(o) {
      ExtendsFalls(a, [], a1, o);
      ExtendsFalls(a1, [], b, o);
    }
    forall o: nat
      ensures CanTake(a1, c, name, o, spread) ==> CanTake(a, c, name, o, spread)
      ensures CanTake(b, c, name, o, spread) ==> CanTake(a1, c, name, o, spread)
    {
      var z := ZoneOfPod(c, PodNameFromOrdinal(name, o));
      if z.Some? {
        assert ZoneTotal(a.placed, z.value) <= ZoneTotal(a1.placed, z.value) <= ZoneTotal(b.placed, z.value);
      }
    }
    assert forall z :: ZoneTotal(a1.placed, z) <= Max(ZoneTotal(a.placed, z), spread);
  }

  lemma {:induction false} SpreadNewLaw(a: Alloc, c: Cluster, name: string, ordinal: nat, replicas: int, spread: int)
    requires 0 < a.left && replicas <= MAX_INT32
    ensures Extends(a, [], SpreadNew(a, c, name, ordinal, replicas, spread))
    ensures TakesSpread(a, c, name, ordinal, replicas, spread, SpreadNew(a, c, name, ordinal, replicas, spread))
    decreases replicas - ordinal
  {
    hide OrdinalFromPodName, PodNameFromOrdinal, SpreadNewOne, Extends;
    if ordinal >= replicas {
      ExtendsNothing(a);
    } else {
      var a1 := SpreadNewOne(a, c, name, ordinal, spread);
      SpreadNewOneLaw(a, c, name, ordinal, spread);
      ExtendsLeft(a, [], a1);
      if a1.left != 0 {
        var b := SpreadNew(a1, c, name, ordinal + 1, replicas, spread);
        SpreadNewLaw(a1, c, name, ordinal + 1, replicas, spread);
        ExtendsThen(a, [], a1, [], b);
        var none: seq<Placement> := [];
        assert none + none == none;
        SpreadThen(a, c, name, ordinal, replicas, spread, a1, b);
      }
    }
  }

  // ----- EVENSPREAD scale-up as a whole -----

  /** The pod is still in the statefulset and is known to run in another zone than the one recorded. */
  predicate Moved(c: Cluster, p: Placement, replicas: int) {
    Ord(p) < replicas && ZoneOfPod(c, p.podName).Some? && ZoneOfPod(c, p.podName).value != p.zoneName
  }

  /** No listed pod of the statefulset has moved to another zone. */
  predicate ZonesMatch(c: Cluster, ps: seq<Placement>, replicas: int) {
    forall i :: 0 <= i < |ps| ==> !Moved(c, ps[i], replicas)
  }

  lemma SpreadFromStart(snap: Snapshot, diff: int, name: string, ps: seq<Placement>, spread: int)
    requires 0 <= diff && WellPlaced(name, ps)
    ensures var a0, a := Alloc(snap, [], diff), SpreadZones(Alloc(snap, [], diff), ps, ZonesOf(ps), spread);
            && Extends(a0, ps, a) && WellPlaced(name, a.placed)
            && RaisesInPlace(Regroup(ps, ZonesOf(ps)), a.placed)
            && (forall z :: ZoneTotal(ps, z) <= ZoneTotal(a.placed, z) <= Max(ZoneTotal(ps, z), spread))
            && (forall o: nat :: Listings(a.placed, o) == Listings(ps, o))
  {
    hide OrdinalFromPodName, PodNameFromOrdinal, SpreadZones;
    var zones := ZonesOf(ps);
    var a0, a := Alloc(snap, [], diff), SpreadZones(Alloc(snap, [], diff), ps, zones, spread);
    ZonesOfLaw(ps);
    SpreadZonesLaw(a0, ps, zones, spread);
    assert a.placed[|a0.placed|..] == a.placed;
    RegroupKeepsWeight(ps, Replicas());
    forall o: nat
      ensures ExtendsAt(a0, ps, a, o) && Listings(a.placed, o) == Listings(ps, o)
    {
      assert ExtendsAt(a0, Regroup(ps, zones), a, o);
      RegroupKeepsWeight(ps, OnOrdinal(o));
      RegroupKeepsWeight(ps, ListedOn(o));
      RaisedListings(Regroup(ps, zones), a.placed, o);
    }
    RegroupIsCanonical(name, ps, zones);
    forall i | 0 <= i < |a.placed| ensures Canonical(name, a.placed[i]) {
      assert Canonical(name, Regroup(ps, zones)[i]);
    }
    forall z | z !in zones ensures ZoneTotal(ps, z) == 0 {
      WeightZero(ps);
      WeightEqual(ps, InZone(z), (p: Placement) => 0);
    }
  }

  lemma {:induction false} RegroupIsCanonical(name: string, ps: seq<Placement>, zones: seq<string>)
    requires AllCanonical(name, ps)
    ensures AllCanonical(name, Regroup(ps, zones))
    decreases zones
  {
    hide OrdinalFromPodName, PodNameFromOrdinal, Canonical;
    if zones != [] {
      InZoneOnlyLaw(ps, zones[0]);
      RegroupIsCanonical(name, ps, zones[1..]);
    }
  }

  /** EVENSPREAD scale-up: nothing is lost, no pod is given more than it has, every zone stays within the spread
      unless it was beyond it already, and replicas are left over only if every pod in a known zone is full or its
      zone has reached the spread. If recorded zones are current, or a single zone may take everything, no pod is
      listed twice. */
  lemma AddReplicasEvenSpreadLaw(
    snap: Snapshot, c: Cluster, name: string, replicas: int, diff: int, ps: seq<Placement>, spread: int)
    requires 0 <= diff && WellPlaced(name, ps) && replicas <= MAX_INT32
    ensures var r := AddReplicasEvenSpread(snap, c, name, replicas, diff, ps, spread);
            && Extends(Alloc(snap, [], diff), ps, r)
            && AllCanonical(name, r.placed)
            && (forall z :: ZoneTotal(ps, z) <= ZoneTotal(r.placed, z) <= Max(ZoneTotal(ps, z), spread))
            && (r.left > 0 ==> forall o: nat :: o < replicas ==> !CanTake(r, c, name, o, spread))
            && (ZonesMatch(c, ps, replicas) || Total(ps) + diff <= spread ==> WellPlaced(name, r.placed))
  {
    hide OrdinalFromPodName, PodNameFromOrdinal, ExtendsAt, SpreadZones, SpreadNew, Extends, Canonical;
    var a0 := Alloc(snap, [], diff);
    var a := SpreadZones(a0, ps, ZonesOf(ps), spread);
    SpreadFromStart(snap, diff, name, ps, spread);
    ExtendsLeft(a0, ps, a);
    if a.left > 0 {
      var r := SpreadNew(a, c, name, 0, replicas, spread);
      SpreadNewLaw(a, c, name, 0, replicas, spread);
      ExtendsThen(a0, ps, a, [], r);
      assert ps + [] == ps;
      forall i | 0 <= i < |r.placed| ensures Canonical(name, r.placed[i]) {
        if i < |a.placed| { assert r.placed[i] == a.placed[i]; }
      }
      if ZonesMatch(c, ps, replicas) || Total(ps) + diff <= spread {
        forall o: nat ensures Listings(r.placed, o) <= 1 {
          if Listings(ps, o) == 1 && o < replicas { PlacedCannotTake(snap, c, name, replicas, diff, ps, spread, o); }
        }
      }
    }
  }

  /** A pod of the vpod in its recorded zone has either no room left or a full zone, so it is not taken again. */
  lemma PlacedCannotTake(
    snap: Snapshot, c: Cluster, name: string, replicas: int, diff: int, ps: seq<Placement>, spread: int, o: nat)
    requires 0 <= diff && WellPlaced(name, ps) && Listings(ps, o) == 1 && o < replicas <= MAX_INT32
    requires ZonesMatch(c, ps, replicas) || Total(ps) + diff <= spread
    ensures var a := SpreadZones(Alloc(snap, [], diff), ps, ZonesOf(ps), spread);
            a.left > 0 ==> !CanTake(a, c, name, o, spread)
  {
    hide OrdinalFromPodName, PodNameFromOrdinal, SpreadZones;
    ListedSomewhere(ps, o);
    var i :| 0 <= i < |ps| && Ord(ps[i]) == o;
    assert Canonical(name, ps[i]);
    assert ZonesMatch(c, ps, replicas) ==> !Moved(c, ps[i], replicas);
    ZonesOfLaw(ps);
    SpreadZonesFull(Alloc(snap, [], diff), ps, ZonesOf(ps), spread, ps[i]);
    if Total(ps) + diff <= spread {
      SpreadFromStart(snap, diff, name, ps, spread);
      ZoneWithinTotal(name, SpreadZones(Alloc(snap, [], diff), ps, ZonesOf(ps), spread).placed, ps[i].zoneName);
    }
  }

  lemma ZoneWithinTotal(name: string, ps: seq<Placement>, z: string)
    requires AllCanonical(name, ps)
    ensures 0 <= ZoneTotal(ps, z) <= Total(ps)
  {
    hide OrdinalFromPodName, PodNameFromOrdinal;
    WeightMonotone(ps, InZone(z), Replicas());
    WeightNonNegative(ps, InZone(z));
  }

  // ----- the order in which pods are used -----

  /** A pod of a zone gains only if something is left to place and the zone is below the spread. */
  lemma {:induction false} GainInZone(s: Zoned, ps: seq<Placement>, spread: int, j: nat)
    requires 0 <= s.alloc.left && j < |ps|
    ensures var t := SpreadZone(s, ps, spread);
            && |t.alloc.placed| == |s.alloc.placed| + |ps| && s.alloc.placed <= t.alloc.placed
            && (t.alloc.placed[|s.alloc.placed| + j].vreplicas > ps[j].vreplicas ==>
                 0 < s.alloc.left && s.total < spread)
    decreases ps
  {
    hide OrdinalFromPodName, Extends, SpreadOne;
    var s1, t, n := SpreadOne(s, ps[0], spread), SpreadZone(s, ps, spread), |s.alloc.placed|;
    SpreadOneLaw(s, ps[0], spread);
    ExtendsLeft(s.alloc, [ps[0]], s1.alloc);
    GainNeeds(s, ps[0], spread);
    assert |s1.alloc.placed| == n + 1 && s.alloc.placed <= s1.alloc.placed;
    assert s1.alloc.placed[n].vreplicas == ps[0].vreplicas + s1.total - s.total;
    if |ps| > 1 {
      GainInZone(s1, ps[1..], spread, if j > 0 then j - 1 else 0);
    } else {
      assert ps[1..] == [];
      assert t == SpreadZone(s1, [], spread) == s1;
    }
    assert t.alloc.placed[n] == s1.alloc.placed[n];
  }

  lemma GainNeeds(s: Zoned, p: Placement, spread: int)
    requires 0 <= s.alloc.left
    ensures SpreadOne(s, p, spread).total > s.total ==> 0 < s.alloc.left && s.total < spread
  {
    hide OrdinalFromPodName;
  }

  /** In a zone, a pod gains only after those listed before it are full. */
  lemma {:induction false} SpreadZoneOrder(s: Zoned, ps: seq<Placement>, z: string, spread: int, i: nat, j: nat)
    requires 0 <= s.alloc.left && i < j < |ps| && forall k :: 0 <= k < |ps| ==> ps[k].zoneName == z
    ensures var t := SpreadZone(s, ps, spread);
            && |t.alloc.placed| == |s.alloc.placed| + |ps|
            && (t.alloc.placed[|s.alloc.placed| + j].vreplicas > ps[j].vreplicas ==>
                  t.alloc.snap.Free(Ord(ps[i])) <= 0)
    decreases ps
  {
    hide OrdinalFromPodName, Extends, SpreadOne;
    var s1, t := SpreadOne(s, ps[0], spread), SpreadZone(s, ps, spread);
    SpreadOneLaw(s, ps[0], spread);
    ExtendsLeft(s.alloc, [ps[0]], s1.alloc);
    GainInZone(s1, ps[1..], spread, j - 1);
    if i > 0 {
      SpreadZoneOrder(s1, ps[1..], z, spread, i - 1, j - 1);
    } else {
      SpreadZoneLaw(s1, ps[1..], z, spread);
      ExtendsFalls(s1.alloc, ps[1..], t.alloc, Ord(ps[0]));
    }
  }

  lemma {:induction false} GainInZones(a: Alloc, ps: seq<Placement>, zones: seq<string>, spread: int, j: nat)
    requires 0 <= a.left && Ascending(zones) && j < |Regroup(ps, zones)|
    ensures var b := SpreadZones(a, ps, zones, spread);
            && |b.placed| == |a.placed| + |Regroup(ps, zones)|
            && (b.placed[|a.placed| + j].vreplicas > Regroup(ps, zones)[j].vreplicas ==> 0 < a.left)
    decreases zones
  {
    hide OrdinalFromPodName, Extends, InZoneOnly, SpreadZone, Weight;
    var own, rest := InZoneOnly(ps, zones[0]), Regroup(ps, zones[1..]);
    var s := Zoned(a, ZoneTotal(ps, zones[0]));
    var t, b := SpreadZone(s, own, spread), SpreadZones(a, ps, zones, spread);
    InZoneOnlyLaw(ps, zones[0]);
    SpreadZoneLaw(s, own, zones[0], spread);
    ExtendsLeft(a, own, t.alloc);
    SpreadZonesLaw(t.alloc, ps, zones[1..], spread);
    if j < |own| {
      GainInZone(s, own, spread, j);
      assert b.placed[|a.placed| + j] == t.alloc.placed[|a.placed| + j];
    } else {
      GainInZones(t.alloc, ps, zones[1..], spread, j - |own|);
    }
  }

  /** Zones are visited in name order: a pod gains only after every one visited before it is full or in a zone at the
      spread. */
  lemma {:induction false} SpreadZonesOrder(
    a: Alloc, ps: seq<Placement>, zones: seq<string>, spread: int, i: nat, j: nat)
    requires 0 <= a.left && Ascending(zones) && i < j < |Regroup(ps, zones)|
    requires forall z :: z in zones ==> ZoneTotal(a.placed, z) == 0
    ensures var b, r := SpreadZones(a, ps, zones, spread), Regroup(ps, zones);
            && |b.placed| == |a.placed| + |r|
            && (b.placed[|a.placed| + j].vreplicas > r[j].vreplicas ==>
                  b.snap.Free(Ord(r[i])) <= 0 || spread <= ZoneTotal(b.placed, r[i].zoneName))
    decreases zones
  {
    hide OrdinalFromPodName, Extends, InZoneOnly, SpreadZone, Weight;
    var z, own := zones[0], InZoneOnly(ps, zones[0]);
    var s := Zoned(a, ZoneTotal(ps, z));
    var t, b := SpreadZone(s, own, spread), SpreadZones(a, ps, zones, spread);
    InZoneOnlyLaw(ps, z);
    SpreadZoneLaw(s, own, z, spread);
    ExtendsLeft(a, own, t.alloc);
    SpreadZonesLaw(t.alloc, ps, zones[1..], spread);
    GainInZones(a, ps, zones, spread, j);
    assert z !in zones[1..];
    if i >= |own| {
      SpreadZonesOrder(t.alloc, ps, zones[1..], spread, i - |own|, j - |own|);
    } else {
      ExtendsFalls(t.alloc, Regroup(ps, zones[1..]), b, Ord(own[i]));
      if j < |own| {
        SpreadZoneOrder(s, own, z, spread, i, j);
        assert b.placed[|a.placed| + j] == t.alloc.placed[|a.placed| + j];
      } else {
        GainInZones(t.alloc, ps, zones[1..], spread, j - |own|);
      }
    }
  }

  /** Which pods an EVENSPREAD scale-up uses. The vpod's own pods come first, zone by zone in name order and in list
      order within a zone; each gains only after those before it are full or in a zone at the spread. Another pod is
      used only after all own pods are, and after every pod with a lower ordinal that can take something. */
  lemma AddReplicasEvenSpreadOrder(
    snap: Snapshot, c: Cluster, name: string, replicas: int, diff: int, ps: seq<Placement>, spread: int)
    requires 0 <= diff && WellPlaced(name, ps) && replicas <= MAX_INT32
    ensures var r, own := AddReplicasEvenSpread(snap, c, name, replicas, diff, ps, spread), Regroup(ps, ZonesOf(ps));
            && |own| <= |r.placed| && RaisesInPlace(own, r.placed[..|own|])
            && (forall i, j :: 0 <= i < j < |own| && r.placed[j].vreplicas > own[j].vreplicas ==>
                  r.snap.Free(Ord(own[i])) <= 0 || spread <= ZoneTotal(r.placed, own[i].zoneName))
            && (|own| < |r.placed| ==> forall i :: 0 <= i < |own| ==>
                  r.snap.Free(Ord(own[i])) <= 0 || spread <= ZoneTotal(r.placed, own[i].zoneName))
            && (forall j, o: nat :: |own| <= j < |r.placed| && o < Ord(r.placed[j]) ==> !CanTake(r, c, name, o, spread))
            && (forall j :: |own| <= j < |r.placed| ==> ZoneOfPod(c, r.placed[j].podName) == Some(r.placed[j].zoneName))
  {
    hide OrdinalFromPodName, PodNameFromOrdinal, SpreadZones, SpreadNew, Extends, Canonical, Weight, ZonesOf, Regroup,
         CanTake, Once;
    var a0, zones := Alloc(snap, [], diff), ZonesOf(ps);
    var own, a := Regroup(ps, zones), SpreadZones(a0, ps, zones, spread);
    var r := AddReplicasEvenSpread(snap, c, name, replicas, diff, ps, spread);
    ZonesOfLaw(ps);
    SpreadFromStart(snap, diff, name, ps, spread);
    ExtendsLeft(a0, ps, a);
    if a.left > 0 { SpreadNewLaw(a, c, name, 0, replicas, spread); } else { ExtendsNothing(a); }
    assert r.placed[..|own|] == a.placed;
    forall z ensures ZoneTotal([], z) == 0 { WeightNil(InZone(z)); }
    forall i, j | 0 <= i < j < |own| && r.placed[j].vreplicas > own[j].vreplicas
      ensures r.snap.Free(Ord(own[i])) <= 0 || spread <= ZoneTotal(r.placed, own[i].zoneName)
    {
      SpreadZonesOrder(a0, ps, zones, spread, i, j);
      assert r.placed[j] == a.placed[j];
      ExtendsFalls(a, [], r, Ord(own[i]));
    }
    if a.left > 0 {
      RegroupIsOwn(ps, zones);
      forall i | 0 <= i < |own|
        ensures r.snap.Free(Ord(own[i])) <= 0 || spread <= ZoneTotal(r.placed, own[i].zoneName)
      {
        SpreadZonesFull(a0, ps, zones, spread, own[i]);
        ExtendsFalls(a, [], r, Ord(own[i]));
      }
    }
  }

  // ----- a pod that has moved is listed again -----

  /** Of all pods only the one with ordinal o has room. */
  predicate RoomOnlyOn(snap: Snapshot, o: nat) {
    forall x: nat :: x <= MAX_INT32 && x != o ==> snap.Free(x) <= 0
  }

  lemma {:induction false} RaisedEverywhere(before: seq<Placement>, after: seq<Placement>, o: nat)
    requires Raises(before, after)
    ensures CountAt(before, o) <= CountAt(after, o)
    ensures CountAt(before, o) == CountAt(after, o) ==>
              forall i :: 0 <= i < |before| && Ord(before[i]) == o ==> before[i].vreplicas == after[i].vreplicas
  {
    hide OrdinalFromPodName;
    if before != [] {
      RaisedEverywhere(before[1..], after[1..], o);
      assert forall i :: 1 <= i < |before| ==> before[i] == before[1..][i - 1] && after[i] == after[1..][i - 1];
    }
  }

  /** If only the pod with ordinal o gains, and it is recorded in zone z, pod and zone gain all there is to gain. */
  lemma {:induction false} OneGainsAll(before: seq<Placement>, after: seq<Placement>, o: nat, z: string)
    requires RaisesInPlace(before, after)
    requires forall i :: 0 <= i < |before| ==>
               if Ord(before[i]) == o then before[i].zoneName == z else before[i].vreplicas == after[i].vreplicas
    ensures ZoneTotal(after, z) - ZoneTotal(before, z) == Total(after) - Total(before)
    ensures CountAt(after, o) - CountAt(before, o) == Total(after) - Total(before)
    ensures forall y :: y != z ==> ZoneTotal(after, y) == ZoneTotal(before, y)
  {
    hide OrdinalFromPodName;
    if before != [] {
      assert forall i :: 1 <= i < |before| ==> before[i] == before[1..][i - 1] && after[i] == after[1..][i - 1];
      OneGainsAll(before[1..], after[1..], o, z);
      forall y | y != z ensures ZoneTotal(after, y) == ZoneTotal(before, y) {
        assert ZoneTotal(after, y) == InZone(y)(after[0]) + ZoneTotal(after[1..], y);
        assert ZoneTotal(before, y) == InZone(y)(before[0]) + ZoneTotal(before[1..], y);
      }
    }
  }

  lemma {:induction false} RegroupIsOwn(ps: seq<Placement>, zones: seq<string>)
    ensures forall j :: 0 <= j < |Regroup(ps, zones)| ==> Regroup(ps, zones)[j] in ps
    decreases zones
  {
    hide InZoneOnly;
    if zones != [] {
      InZoneOnlyLaw(ps, zones[0]);
      RegroupIsOwn(ps, zones[1..]);
    }
  }

  /** With room on one of the vpod's pods only, the first pass changes that entry and no other. */
  lemma FirstPassGains(snap: Snapshot, name: string, diff: int, ps: seq<Placement>, spread: int, i: nat)
    requires 0 <= diff && WellPlaced(name, ps) && i < |ps| && RoomOnlyOn(snap, Ord(ps[i]))
    ensures var a := SpreadZones(Alloc(snap, [], diff), ps, ZonesOf(ps), spread);
            && ZoneTotal(a.placed, ps[i].zoneName) == ZoneTotal(ps, ps[i].zoneName) + diff - a.left
            && a.snap.Free(Ord(ps[i])) == snap.Free(Ord(ps[i])) - (diff - a.left)
            && forall y :: y != ps[i].zoneName ==> ZoneTotal(a.placed, y) == ZoneTotal(ps, y)
  {
    hide OrdinalFromPodName, PodNameFromOrdinal, SpreadZones, Weight, AllCanonical, ZonesOf, Regroup;
    var o, z, r := Ord(ps[i]), ps[i].zoneName, Regroup(ps, ZonesOf(ps));
    var a0, a := Alloc(snap, [], diff), SpreadZones(Alloc(snap, [], diff), ps, ZonesOf(ps), spread);
    SpreadFromStart(snap, diff, name, ps, spread);
    RegroupIsOwn(ps, ZonesOf(ps));
    forall j | 0 <= j < |r|
      ensures if Ord(r[j]) == o then r[j].zoneName == z else r[j].vreplicas == a.placed[j].vreplicas
    {
      var k :| 0 <= k < |ps| && ps[k] == r[j];
      if Ord(r[j]) == o {
        if k < i { TwiceListed(ps, k, i); } else if i < k { TwiceListed(ps, i, k); }
      } else {
        var x := Ord(r[j]);
        WeightNil(OnOrdinal(x));
        assert ExtendsAt(a0, ps, a, x);
        RegroupKeepsWeight(ps, OnOrdinal(x));
        RaisedEverywhere(r, a.placed, x);
      }
    }
    OneGainsAll(r, a.placed, o, z);
    WeightNil(Replicas());
    WeightNil(OnOrdinal(o));
    RegroupKeepsWeight(ps, Replicas());
    RegroupKeepsWeight(ps, OnOrdinal(o));
    forall y ensures ZoneTotal(r, y) == ZoneTotal(ps, y) { RegroupKeepsWeight(ps, InZone(y)); }
    assert ExtendsAt(a0, ps, a, o);
  }

  lemma {:induction false} SpreadNewSkips(
    a: Alloc, c: Cluster, name: string, from: nat, o: nat, replicas: int, spread: int)
    requires from <= o < replicas && a.left != 0 && forall x: nat :: from <= x < o ==> a.snap.Free(x) <= 0
    ensures SpreadNew(a, c, name, from, replicas, spread) == SpreadNew(a, c, name, o, replicas, spread)
    decreases o - from
  {
    hide OrdinalFromPodName, PodNameFromOrdinal;
    if from < o { SpreadNewSkips(a, c, name, from + 1, o, replicas, spread); }
  }

  /** The second pass takes the pod once more, now in the zone it runs in. */
  lemma SecondPassListsAgain(a: Alloc, c: Cluster, name: string, o: nat, replicas: int, spread: int)
    requires 0 < a.left && o < replicas <= MAX_INT32 && RoomOnlyOn(a.snap, o) && CanTake(a, c, name, o, spread)
    ensures Listings(SpreadNew(a, c, name, 0, replicas, spread).placed, o) > Listings(a.placed, o)
  {
    hide OrdinalFromPodName, PodNameFromOrdinal, Weight;
    var b, z := SpreadNewOne(a, c, name, o, spread), ZoneOfPod(c, PodNameFromOrdinal(name, o)).value;
    var n := Min(a.left, Min(a.snap.Free(o), spread - ZoneTotal(a.placed, z)));
    var p := Placement(PodNameFromOrdinal(name, o), z, n);
    OrdinalRoundTrip(name, o);
    WeightAppend(a.placed, p, ListedOn(o));
    SpreadNewSkips(a, c, name, 0, o, replicas, spread);
    if b.left != 0 {
      SpreadNewLaw(b, c, name, o + 1, replicas, spread);
      ListingsOfPrefix(b.placed, SpreadNew(b, c, name, o + 1, replicas, spread).placed, o);
    }
  }

  /** A pod that has moved is listed twice once its recorded zone reaches the spread while the pod still has room. */
  lemma MovedIsListedTwice(
    snap: Snapshot, c: Cluster, name: string, replicas: int, diff: int, ps: seq<Placement>, spread: int, i: nat)
    requires WellPlaced(name, ps) && replicas <= MAX_INT32 && i < |ps| && Moved(c, ps[i], replicas)
    requires RoomOnlyOn(snap, Ord(ps[i])) && Total(ps) < spread
    requires spread - ZoneTotal(ps, ps[i].zoneName) < diff <= snap.Free(Ord(ps[i]))
    ensures Listings(AddReplicasEvenSpread(snap, c, name, replicas, diff, ps, spread).placed, Ord(ps[i])) >= 2
  {
    hide OrdinalFromPodName, PodNameFromOrdinal, SpreadZones, SpreadNew, Weight, ExtendsAt;
    var o, z := Ord(ps[i]), ps[i].zoneName;
    var a0, a := Alloc(snap, [], diff), SpreadZones(Alloc(snap, [], diff), ps, ZonesOf(ps), spread);
    assert Canonical(name, ps[i]);
    ZoneWithinTotal(name, ps, z);
    ZoneWithinTotal(name, ps, ZoneOfPod(c, ps[i].podName).value);
    SpreadFromStart(snap, diff, name, ps, spread);
    FirstPassGains(snap, name, diff, ps, spread, i);
    EntryIsListed(ps, i);
    forall x: nat | x <= MAX_INT32 && x != o ensures a.snap.Free(x) <= 0 { ExtendsFalls(a0, ps, a, x); }
    SecondPassListsAgain(a, c, name, o, replicas, spread);
  }

  /** A snapshot that some other vpods beside one placed at ps can bring about: no pod is overcommitted. */
  ghost predicate Plausible(snap: Snapshot, ps: seq<Placement>) {
    0 < snap.capacity && forall x: nat :: x <= MAX_INT32 ==> 0 <= snap.Free(x) <= snap.capacity - CountAt(ps, x)
  }

  function RoomOnly(o: nat, n: nat, capacity: int): Snapshot {
    Snapshot(seq(MAX_INT32 + 1, x => if x == o then n else 0), capacity)
  }

  lemma RoomOnlyIsPlausible(name: string, ps: seq<Placement>, o: nat, n: nat)
    requires AllCanonical(name, ps) && 0 < n && o <= MAX_INT32
    ensures var snap := RoomOnly(o, n, Total(ps) + n);
            Plausible(snap, ps) && RoomOnlyOn(snap, o) && snap.Free(o) == n
  {
    hide OrdinalFromPodName, PodNameFromOrdinal, Weight, AllCanonical;
    var snap := RoomOnly(o, n, Total(ps) + n);
    forall x: nat | x <= MAX_INT32 ensures 0 <= snap.Free(x) <= snap.capacity - CountAt(ps, x) {
      CountsNonNegative(name, ps, x);
    }
    CountsNonNegative(name, ps, o);
  }

  /** Whatever is free, wanted and allowed per zone, no pod is listed twice: this holds exactly if no pod has moved. */
  lemma ListedOnceIffZonesMatch(c: Cluster, name: string, replicas: int, ps: seq<Placement>)
    requires WellPlaced(name, ps) && replicas <= MAX_INT32
    ensures ZonesMatch(c, ps, replicas) <==>
            forall snap, diff: nat, spread :: Plausible(snap, ps) ==>
              Once(AddReplicasEvenSpread(snap, c, name, replicas, diff, ps, spread).placed)
  {
    hide OrdinalFromPodName, PodNameFromOrdinal, AddReplicasEvenSpread, Plausible, Weight, RoomOnly, Moved;
    if ZonesMatch(c, ps, replicas) {
      forall snap, diff: nat, spread
        ensures Once(AddReplicasEvenSpread(snap, c, name, replicas, diff, ps, spread).placed)
      {
        AddReplicasEvenSpreadLaw(snap, c, name, replicas, diff, ps, spread);
      }
    } else {
      var i :| 0 <= i < |ps| && Moved(c, ps[i], replicas);
      var o, diff, spread := Ord(ps[i]), Total(ps) + 2, Total(ps) + 1;
      ZoneWithinTotal(name, ps, ps[i].zoneName);
      RoomOnlyIsPlausible(name, ps, o, diff);
      var snap := RoomOnly(o, diff, Total(ps) + diff);
      MovedIsListedTwice(snap, c, name, replicas, diff, ps, spread, i);
      assert !Once(AddReplicasEvenSpread(snap, c, name, replicas, diff, ps, spread).placed);
    }
  }

  // ----- scale-down -----

  /** A removal in progress: replicas still to remove, the running total of the zone, and the entries kept. */
  datatype Shedding = Shedding(left: int, total: int, kept: seq<Placement>)

  function ShedOne(s: Shedding, p: Placement, spread: int): Shedding {
    if s.left > 0 && s.total >= spread then
      var n := Min(s.left, Min(p.vreplicas, s.total - spread));
      if 0 < n < p.vreplicas then
        Shedding(s.left - n, s.total - n, s.kept + [Placement(p.podName, p.zoneName, p.vreplicas - n)])
      else if n >= p.vreplicas then Shedding(s.left - p.vreplicas, s.total - p.vreplicas, s.kept)
      else s.(kept := s.kept + [p])
    else s.(kept := s.kept + [p])
  }

  /** The pods of one zone, from the last listed to the first. */
  function ShedZone(s: Shedding, ps: seq<Placement>, spread: int): Shedding
    decreases ps
  {
    if ps == [] then s else ShedZone(ShedOne(s, ps[|ps| - 1], spread), ps[..|ps| - 1], spread)
  }

  function ShedZones(left: int, kept: seq<Placement>, ps: seq<Placement>, zones: seq<string>, spread: int): Shedding
    decreases zones
  {
    if zones == [] then Shedding(left, 0, kept)
    else
      var t := ShedZone(Shedding(left, ZoneTotal(ps, zones[0]), kept), InZoneOnly(ps, zones[0]), spread);
      ShedZones(t.left, t.kept, ps, zones[1..], spread)
  }

  function RemoveReplicasEvenSpread(diff: int, ps: seq<Placement>, spread: int): seq<Placement> {
    ShedZones(diff, [], ps, ZonesOf(ps), spread).kept
  }

  /** What a zone may lose without falling below the spread. */
  function Excess(ps: seq<Placement>, zones: seq<string>, spread: int): int {
    if zones == [] then 0 else Pos(ZoneTotal(ps, zones[0]) - spread) + Excess(ps, zones[1..], spread)
  }

  lemma {:induction false} ShedZoneLaw(name: string, s: Shedding, ps: seq<Placement>, z: string, spread: int)
    requires 0 <= s.left && AllCanonical(name, ps) && forall i :: 0 <= i < |ps| ==> ps[i].zoneName == z
    ensures var t := ShedZone(s, ps, spread);
            var removed := Min(Min(s.left, Pos(s.total - spread)), Total(ps));
            && t.left == s.left - removed
            && Total(t.kept) == Total(s.kept) + Total(ps) - removed
            && ZoneTotal(t.kept, z) == ZoneTotal(s.kept, z) + Total(ps) - removed
            && (forall x :: x != z ==> ZoneTotal(t.kept, x) == ZoneTotal(s.kept, x))
            && (AllCanonical(name, s.kept) ==> AllCanonical(name, t.kept))
    decreases ps
  {
    hide OrdinalFromPodName, PodNameFromOrdinal, Weight;
    if ps == [] {
      WeightNil(Replicas());
    } else {
      var p, rest := ps[|ps| - 1], ps[..|ps| - 1];
      var s1 := ShedOne(s, p, spread);
      WeightLast(ps, Replicas());
      WeightNonNegative(rest, Replicas());
      assert Canonical(name, p);
      if s1.kept != s.kept {
        var q := s1.kept[|s.kept|];
        assert s1.kept == s.kept + [q] && q.zoneName == z && Canonical(name, q);
        WeightAppend(s.kept, q, Replicas());
        forall x ensures ZoneTotal(s1.kept, x) == ZoneTotal(s.kept, x) + if x == z then q.vreplicas else 0 {
          WeightAppend(s.kept, q, InZone(x));
        }
      }
      ShedZoneLaw(name, s1, rest, z, spread);
    }
  }

  lemma {:induction false} ShedZoneShrinks(name: string, s: Shedding, ps: seq<Placement>, spread: int, o: nat)
    requires 0 <= s.left && AllCanonical(name, ps)
    ensures var t := ShedZone(s, ps, spread);
            && 0 <= t.left
            && CountAt(s.kept, o) <= CountAt(t.kept, o) <= CountAt(s.kept, o) + CountAt(ps, o)
            && Listings(s.kept, o) <= Listings(t.kept, o) <= Listings(s.kept, o) + Listings(ps, o)
    decreases ps
  {
    hide OrdinalFromPodName, PodNameFromOrdinal;
    if ps != [] {
      var p, rest := ps[|ps| - 1], ps[..|ps| - 1];
      var s1 := ShedOne(s, p, spread);
      WeightLast(ps, OnOrdinal(o));
      WeightLast(ps, ListedOn(o));
      assert Canonical(name, p);
      if s1.kept != s.kept {
        var q := s1.kept[|s.kept|];
        assert s1.kept == s.kept + [q];
        WeightAppend(s.kept, q, OnOrdinal(o));
        WeightAppend(s.kept, q, ListedOn(o));
      }
      ShedZoneShrinks(name, s1, rest, spread, o);
    }
  }

  /** Once enough is removed, or the zone is at the spread, every count stays. */
  lemma {:induction false} ShedNothing(name: string, s: Shedding, ps: seq<Placement>, spread: int, o: nat)
    requires AllCanonical(name, ps) && 0 <= s.left && (s.left == 0 || s.total <= spread)
    ensures CountAt(ShedZone(s, ps, spread).kept, o) == CountAt(s.kept, o) + CountAt(ps, o)
    decreases ps
  {
    hide OrdinalFromPodName, PodNameFromOrdinal;
    if ps != [] {
      var p, rest := ps[|ps| - 1], ps[..|ps| - 1];
      var s1 := ShedOne(s, p, spread);
      assert Canonical(name, p);
      WeightLast(ps, OnOrdinal(o));
      WeightAppend(s.kept, p, OnOrdinal(o));
      ShedNothing(name, s1, rest, spread, o);
    }
  }

  /** In a zone replicas are removed from the last listed pod to the first: a pod loses some only after every later
      one lost all. */
  lemma {:induction false} ShedsFromEnd(name: string, s: Shedding, ps: seq<Placement>, spread: int, i: nat, j: nat)
    requires 0 <= s.left && WellPlaced(name, ps) && i < j < |ps|
    requires CountAt(s.kept, Ord(ps[i])) == 0 && CountAt(s.kept, Ord(ps[j])) == 0
    ensures var r := ShedZone(s, ps, spread).kept;
            CountAt(r, Ord(ps[j])) > 0 ==> CountAt(r, Ord(ps[i])) == ps[i].vreplicas
    decreases ps
  {
    hide OrdinalFromPodName, PodNameFromOrdinal, Weight;
    var n := |ps| - 1;
    var p, rest := ps[n], ps[..n];
    var s1 := ShedOne(s, p, spread);
    PrefixIsWellPlaced(name, ps, n);
    assert Canonical(name, p) && rest[i] == ps[i];
    if Ord(p) == Ord(ps[i]) { TwiceListed(ps, i, n); }
    if s1.kept != s.kept {
      var q := s1.kept[|s.kept|];
      assert s1.kept == s.kept + [q] && Ord(q) == Ord(p);
      WeightAppend(s.kept, q, OnOrdinal(Ord(ps[i])));
      WeightAppend(s.kept, q, OnOrdinal(Ord(ps[j])));
    }
    if j < n {
      assert rest[j] == ps[j];
      if Ord(p) == Ord(ps[j]) { TwiceListed(ps, j, n); }
      ShedsFromEnd(name, s1, rest, spread, i, j);
    } else if s1.kept != s.kept {
      ShedNothing(name, s1, rest, spread, Ord(ps[i]));
      CountOfEntry(name, rest, i);
    } else {
      ShedZoneShrinks(name, s1, rest, spread, Ord(p));
      CountOfEntry(name, ps, n);
      WeightLast(ps, OnOrdinal(Ord(p)));
    }
  }

  /** The placements of a zone keep their order. */
  lemma {:induction false} InZoneOnlyOrder(ps: seq<Placement>, z: string, i: nat, j: nat) returns (x: nat, y: nat)
    requires i < j < |ps| && ps[i].zoneName == z && ps[j].zoneName == z
    ensures var own := InZoneOnly(ps, z); x < y < |own| && own[x] == ps[i] && own[y] == ps[j]
  {
    var first, rest := if ps[0].zoneName == z then [ps[0]] else [], InZoneOnly(ps[1..], z);
    assert InZoneOnly(ps, z) == first + rest;
    hide InZoneOnly;
    assert ps[1..][j - 1] == ps[j];
    if i > 0 {
      assert ps[1..][i - 1] == ps[i];
      x, y := InZoneOnlyOrder(ps[1..], z, i - 1, j - 1);
      x, y := x + |first|, y + |first|;
    } else {
      InZoneOnlyLaw(ps[1..], z);
      var k :| 0 <= k < |rest| && rest[k] == ps[j];
      x, y := 0, k + 1;
    }
  }

  lemma OwnTotal(name: string, ps: seq<Placement>, z: string)
    requires AllCanonical(name, ps)
    ensures var own := InZoneOnly(ps, z);
            && Total(own) == ZoneTotal(ps, z) && AllCanonical(name, own)
            && forall i :: 0 <= i < |own| ==> own[i].zoneName == z
  {
    hide OrdinalFromPodName, PodNameFromOrdinal, Canonical;
    InZoneOnlyLaw(ps, z);
    WeightEqual(InZoneOnly(ps, z), InZone(z), Replicas());
  }

  /** The effect of the run over the zones. */
  ghost predicate ShedsOver(
    left: int, kept: seq<Placement>, ps: seq<Placement>, zones: seq<string>, spread: int, t: Shedding)
  {
    && t.left == left - Min(left, Excess(ps, zones, spread))
    && Total(t.kept) == Total(kept) + Total(Regroup(ps, zones)) - (left - t.left)
    && (forall z :: z in zones ==> ZoneTotal(t.kept, z) >= ZoneTotal(kept, z) + Min(ZoneTotal(ps, z), spread))
    && (forall z :: z !in zones ==> ZoneTotal(t.kept, z) == ZoneTotal(kept, z))
  }

  lemma {:induction false} ShedZonesLaw(
    name: string, left: int, kept: seq<Placement>, ps: seq<Placement>, zones: seq<string>, spread: int)
    requires 0 <= left && 0 <= spread && AllCanonical(name, ps) && AllCanonical(name, kept) && Ascending(zones)
    ensures var t := ShedZones(left, kept, ps, zones, spread);
            ShedsOver(left, kept, ps, zones, spread, t) && AllCanonical(name, t.kept)
    decreases zones
  {
    hide OrdinalFromPodName, PodNameFromOrdinal, Canonical, Weight, InZoneOnly, ShedZone;
    if zones == [] {
      WeightNil(Replicas());
    } else {
      var z, own := zones[0], InZoneOnly(ps, zones[0]);
      var s := Shedding(left, ZoneTotal(ps, z), kept);
      var t1 := ShedZone(s, own, spread);
      OwnTotal(name, ps, z);
      OwnIsNonNegative(name, own);
      ShedZoneLaw(name, s, own, z, spread);
      ShedZonesLaw(name, t1.left, t1.kept, ps, zones[1..], spread);
      ExcessNonNegative(ps, zones[1..], spread);
      WeightConcat(own, Regroup(ps, zones[1..]), Replicas());
      assert forall x :: x in zones <==> x == z || x in zones[1..];
      assert z !in zones[1..];
    }
  }

  lemma {:induction false} ShedZonesShrinks(
    name: string, left: int, kept: seq<Placement>, ps: seq<Placement>, zones: seq<string>, spread: int, o: nat)
    requires 0 <= left && AllCanonical(name, ps)
    ensures var t := ShedZones(left, kept, ps, zones, spread);
            && CountAt(kept, o) <= CountAt(t.kept, o) <= CountAt(kept, o) + CountAt(Regroup(ps, zones), o)
            && Listings(t.kept, o) <= Listings(kept, o) + Listings(Regroup(ps, zones), o)
    decreases zones
  {
    hide OrdinalFromPodName, PodNameFromOrdinal, Canonical, InZoneOnly, ShedZone;
    if zones != [] {
      var z, own := zones[0], InZoneOnly(ps, zones[0]);
      var s := Shedding(left, ZoneTotal(ps, z), kept);
      var t1 := ShedZone(s, own, spread);
      OwnTotal(name, ps, z);
      ShedZoneShrinks(name, s, own, spread, o);
      ShedZonesShrinks(name, t1.left, t1.kept, ps, zones[1..], spread, o);
      WeightConcat(own, Regroup(ps, zones[1..]), OnOrdinal(o));
      WeightConcat(own, Regroup(ps, zones[1..]), ListedOn(o));
    }
  }

  lemma OwnIsNonNegative(name: string, ps: seq<Placement>)
    requires AllCanonical(name, ps)
    ensures 0 <= Total(ps)
  {
    hide OrdinalFromPodName, PodNameFromOrdinal;
    WeightNonNegative(ps, Replicas());
  }

  lemma {:induction false} ExcessNonNegative(ps: seq<Placement>, zones: seq<string>, spread: int)
    ensures 0 <= Excess(ps, zones, spread)
  {
    if zones != [] { ExcessNonNegative(ps, zones[1..], spread); }
  }

  lemma {:induction false} InZoneWellPlaced(name: string, ps: seq<Placement>, z: string)
    requires WellPlaced(name, ps)
    ensures WellPlaced(name, InZoneOnly(ps, z))
  {
    hide OrdinalFromPodName, PodNameFromOrdinal, Canonical, Weight;
    var own := InZoneOnly(ps, z);
    InZoneOnlyLaw(ps, z);
    forall o: nat ensures Listings(own, o) <= 1 {
      WeightInZone(ps, z, ListedOn(o));
      WeightMonotone(ps, Restrict(ListedOn(o), [z]), ListedOn(o));
      assert Listings(ps, o) <= 1;
    }
  }

  /** Zones that are not visited hold nothing on the pod of an entry recorded elsewhere. */
  lemma OtherZonesEmpty(name: string, ps: seq<Placement>, zones: seq<string>, i: nat)
    requires WellPlaced(name, ps) && i < |ps| && ps[i].zoneName !in zones && Ascending(zones)
    ensures CountAt(Regroup(ps, zones), Ord(ps[i])) == 0
    ensures forall z :: z in zones ==> CountAt(InZoneOnly(ps, z), Ord(ps[i])) == 0
  {
    hide OrdinalFromPodName, PodNameFromOrdinal, Canonical, Weight;
    var o := Ord(ps[i]);
    forall k | 0 <= k < |ps| && Ord(ps[k]) == o ensures k == i {
      if k < i { TwiceListed(ps, k, i); } else if i < k { TwiceListed(ps, i, k); }
    }
    WeightZero(ps);
    WeightRegrouped(ps, zones, OnOrdinal(o));
    WeightEqual(ps, Restrict(OnOrdinal(o), zones), (p: Placement) => 0);
    forall z | z in zones ensures CountAt(InZoneOnly(ps, z), o) == 0 {
      WeightInZone(ps, z, OnOrdinal(o));
      WeightEqual(ps, Restrict(OnOrdinal(o), [z]), (p: Placement) => 0);
    }
  }

  /** The same over all zones. */
  lemma {:induction false} ShedZonesFromEnd(
    name: string, left: int, kept: seq<Placement>, ps: seq<Placement>, zones: seq<string>, spread: int, i: nat, j: nat)
    requires 0 <= left && WellPlaced(name, ps) && Ascending(zones) && i < j < |ps|
    requires ps[i].zoneName == ps[j].zoneName && ps[i].zoneName in zones
    requires CountAt(kept, Ord(ps[i])) == 0 && CountAt(kept, Ord(ps[j])) == 0
    ensures var r := ShedZones(left, kept, ps, zones, spread).kept;
            CountAt(r, Ord(ps[j])) > 0 ==> CountAt(r, Ord(ps[i])) == ps[i].vreplicas
    decreases zones
  {
    hide OrdinalFromPodName, PodNameFromOrdinal, Canonical, Weight, InZoneOnly, ShedZone, Regroup, Once;
    var z, own := zones[0], InZoneOnly(ps, zones[0]);
    var s := Shedding(left, ZoneTotal(ps, z), kept);
    var t := ShedZone(s, own, spread);
    InZoneWellPlaced(name, ps, z);
    assert z !in zones[1..];
    ShedZoneShrinks(name, s, own, spread, Ord(ps[i]));
    ShedZoneShrinks(name, s, own, spread, Ord(ps[j]));
    if ps[i].zoneName == z {
      var x, y := InZoneOnlyOrder(ps, z, i, j);
      ShedsFromEnd(name, s, own, spread, x, y);
      OtherZonesEmpty(name, ps, zones[1..], i);
      OtherZonesEmpty(name, ps, zones[1..], j);
      ShedZonesShrinks(name, t.left, t.kept, ps, zones[1..], spread, Ord(ps[i]));
      ShedZonesShrinks(name, t.left, t.kept, ps, zones[1..], spread, Ord(ps[j]));
    } else {
      assert Ascending([z]);
      OtherZonesEmpty(name, ps, [z], i);
      OtherZonesEmpty(name, ps, [z], j);
      ShedZonesFromEnd(name, t.left, t.kept, ps, zones[1..], spread, i, j);
    }
  }

  /** Zones are visited in name order: a zone loses some only after every earlier one is down to the spread. */
  lemma {:induction false} ShedZonesInOrder(
    name: string, left: int, kept: seq<Placement>, ps: seq<Placement>, zones: seq<string>, spread: int, x: nat, y: nat)
    requires 0 <= left && 0 <= spread && AllCanonical(name, ps) && AllCanonical(name, kept) && Ascending(zones)
    requires x < y < |zones| && forall z :: z in zones ==> ZoneTotal(kept, z) == 0
    ensures var r := ShedZones(left, kept, ps, zones, spread).kept;
            ZoneTotal(r, zones[y]) < ZoneTotal(ps, zones[y]) ==> ZoneTotal(r, zones[x]) <= spread
    decreases zones
  {
    hide OrdinalFromPodName, PodNameFromOrdinal, Canonical, Weight, InZoneOnly, ShedZone;
    var z, own := zones[0], InZoneOnly(ps, zones[0]);
    var s := Shedding(left, ZoneTotal(ps, z), kept);
    var t := ShedZone(s, own, spread);
    OwnTotal(name, ps, z);
    OwnIsNonNegative(name, own);
    ShedZoneLaw(name, s, own, z, spread);
    assert z !in zones[1..];
    ShedZonesLaw(name, t.left, t.kept, ps, zones[1..], spread);
    if x > 0 {
      assert zones[1..][x - 1] == zones[x] && zones[1..][y - 1] == zones[y];
      ShedZonesInOrder(name, t.left, t.kept, ps, zones[1..], spread, x - 1, y - 1);
    } else if t.left == 0 {
      assert zones[1..][y - 1] == zones[y];
      ShedZonesNothing(name, t.kept, ps, zones[1..], spread, zones[y]);
    }
  }

  lemma {:induction false} ShedZonesNothing(
    name: string, kept: seq<Placement>, ps: seq<Placement>, zones: seq<string>, spread: int, x: string)
    requires 0 <= spread && AllCanonical(name, ps) && AllCanonical(name, kept) && Ascending(zones) && x in zones
    ensures ZoneTotal(ShedZones(0, kept, ps, zones, spread).kept, x) == ZoneTotal(kept, x) + ZoneTotal(ps, x)
    decreases zones
  {
    hide OrdinalFromPodName, PodNameFromOrdinal, Canonical, Weight, InZoneOnly, ShedZone;
    var z, own := zones[0], InZoneOnly(ps, zones[0]);
    var t := ShedZone(Shedding(0, ZoneTotal(ps, z), kept), own, spread);
    OwnTotal(name, ps, z);
    OwnIsNonNegative(name, own);
    ShedZoneLaw(name, Shedding(0, ZoneTotal(ps, z), kept), own, z, spread);
    assert z !in zones[1..];
    ShedZonesLaw(name, t.left, t.kept, ps, zones[1..], spread);
    if x != z { ShedZonesNothing(name, t.kept, ps, zones[1..], spread, x); }
  }

  /** Which pods an EVENSPREAD scale-down takes from: zones in name order, each down to the spread before the next is
      touched, and in each zone the last listed pod first. */
  lemma RemoveReplicasEvenSpreadOrder(name: string, diff: int, ps: seq<Placement>, spread: int)
    requires 0 <= diff && 0 <= spread && WellPlaced(name, ps)
    ensures var r, zones := RemoveReplicasEvenSpread(diff, ps, spread), ZonesOf(ps);
            && (forall i, j :: 0 <= i < j < |ps| && ps[i].zoneName == ps[j].zoneName && CountAt(r, Ord(ps[j])) > 0 ==>
                  CountAt(r, Ord(ps[i])) == ps[i].vreplicas)
            && (forall x, y :: 0 <= x < y < |zones| && ZoneTotal(r, zones[y]) < ZoneTotal(ps, zones[y]) ==>
                  ZoneTotal(r, zones[x]) <= spread)
  {
    hide OrdinalFromPodName, PodNameFromOrdinal, Canonical, Weight, ShedZones, ZonesOf;
    var r, zones := RemoveReplicasEvenSpread(diff, ps, spread), ZonesOf(ps);
    ZonesOfLaw(ps);
    forall i, j | 0 <= i < j < |ps| && ps[i].zoneName == ps[j].zoneName && CountAt(r, Ord(ps[j])) > 0
      ensures CountAt(r, Ord(ps[i])) == ps[i].vreplicas
    {
      WeightNil(OnOrdinal(Ord(ps[i])));
      WeightNil(OnOrdinal(Ord(ps[j])));
      ShedZonesFromEnd(name, diff, [], ps, zones, spread, i, j);
    }
    forall x, y | 0 <= x < y < |zones| && ZoneTotal(r, zones[y]) < ZoneTotal(ps, zones[y])
      ensures ZoneTotal(r, zones[x]) <= spread
    {
      forall z ensures ZoneTotal([], z) == 0 { WeightNil(InZone(z)); }
      ShedZonesInOrder(name, diff, [], ps, zones, spread, x, y);
    }
  }

  /** EVENSPREAD scale-down: exactly as much is removed as the zones hold beyond the spread, up to what was asked; every
      zone keeps what it had or at least the spread; no pod's count rises and no pod is listed twice. */
  lemma RemoveReplicasEvenSpreadLaw(name: string, diff: int, ps: seq<Placement>, spread: int)
    requires 0 <= diff && 0 <= spread && WellPlaced(name, ps)
    ensures var r := RemoveReplicasEvenSpread(diff, ps, spread);
            && Total(r) == Total(ps) - Min(diff, Excess(ps, ZonesOf(ps), spread))
            && (Total(r) == Total(ps) - diff <==> diff <= Excess(ps, ZonesOf(ps), spread))
            && (forall z :: ZoneTotal(r, z) >= Min(ZoneTotal(ps, z), spread))
            && WellPlaced(name, r)
            && forall o: nat :: ShrinksAt(ps, r, o)
  {
    hide OrdinalFromPodName, PodNameFromOrdinal, Canonical, ShedZones;
    var zones := ZonesOf(ps);
    var r := RemoveReplicasEvenSpread(diff, ps, spread);
    ZonesOfLaw(ps);
    ShedZonesLaw(name, diff, [], ps, zones, spread);
    RegroupKeepsWeight(ps, Replicas());
    forall o: nat ensures ShrinksAt(ps, r, o) && Listings(r, o) <= 1 {
      ShedZonesShrinks(name, diff, [], ps, zones, spread, o);
      RegroupKeepsWeight(ps, OnOrdinal(o));
      RegroupKeepsWeight(ps, ListedOn(o));
    }
    forall z | z !in zones ensures ZoneTotal(ps, z) == 0 {
      WeightZero(ps);
      WeightEqual(ps, InZone(z), (p: Placement) => 0);
    }
  }

  lemma {:induction false} ExcessBound(name: string, ps: seq<Placement>, zones: seq<string>, spread: int)
    requires AllCanonical(name, ps)
    ensures Excess(ps, zones, spread) >= Total(Regroup(ps, zones)) - |zones| * spread
  {
    hide OrdinalFromPodName, PodNameFromOrdinal, Canonical, Weight, InZoneOnly;
    if zones == [] {
      assert Regroup(ps, zones) == [];
      WeightNil(Replicas());
    } else {
      var own := InZoneOnly(ps, zones[0]);
      ExcessBound(name, ps, zones[1..], spread);
      OwnTotal(name, ps, zones[0]);
      WeightConcat(own, Regroup(ps, zones[1..]), Replicas());
      assert |zones| * spread == |zones[1..]| * spread + spread;
    }
  }

  lemma FloorTimes(v: nat, n: int, k: nat)
    requires 0 < n && k <= n
    ensures k * (v / n) <= v
  {
    FloorLaw(v, n);
    MulMonotone(k, n, v / n);
  }

  /** With at most as many zones in use as the cluster has, scaling down to v removes exactly the surplus. */
  lemma ScaleDownIsExact(name: string, v: nat, numZones: int, ps: seq<Placement>)
    requires WellPlaced(name, ps) && 0 < numZones && v < Total(ps) && |ZonesOf(ps)| <= numZones
    ensures var r := RemoveReplicasEvenSpread(Total(ps) - v, ps, v / numZones);
            && Total(r) == v
            && forall z :: ZoneTotal(r, z) >= Min(ZoneTotal(ps, z), v / numZones)
  {
    hide OrdinalFromPodName, PodNameFromOrdinal, RemoveReplicasEvenSpread;
    var spread := v / numZones;
    assert 0 <= spread;
    RemoveReplicasEvenSpreadLaw(name, Total(ps) - v, ps, spread);
    ExcessBound(name, ps, ZonesOf(ps), spread);
    RegroupKeepsWeight(ps, Replicas());
    FloorTimes(v, numZones, |ZonesOf(ps)|);
  }
}
