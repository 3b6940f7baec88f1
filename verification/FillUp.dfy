/** Handing out free capacity: what every allocation keeps, and the MAXFILLUP policy
    (pkg/common/scheduler/statefulset/scheduler.go). */
module FillUp {
  import opened PodNames
  import opened Placements
  import opened Arithmetic
  import opened Sums
  import opened Snapshots

  /** An allocation in progress: the snapshot, the placements listed so far, and the virtual replicas still to place. */
  datatype Alloc = Alloc(snap: Snapshot, placed: seq<Placement>, left: int)

  /** Take n from the pod with the given ordinal and list the entry that records it. */
  function Give(a: Alloc, ordinal: nat, n: int, entry: Placement): Alloc {
    Alloc(a.snap.SetFree(ordinal, a.snap.Free(ordinal) - n), a.placed + [entry], a.left - n)
  }

  // ----- what every allocation keeps -----

  /** On one ordinal: what was listed before and the placements `base` taken over from the vpod, plus the capacity given
      away, is what is listed now; and a pod never gives more than it has. */
  ghost predicate ExtendsAt(a: Alloc, base: seq<Placement>, b: Alloc, o: nat) {
    && b.snap.Free(o) + CountAt(b.placed, o) == a.snap.Free(o) + CountAt(a.placed, o) + CountAt(base, o)
    && Min(a.snap.Free(o), 0) <= b.snap.Free(o) <= a.snap.Free(o)
  }

  ghost predicate Extends(a: Alloc, base: seq<Placement>, b: Alloc) {
    && 0 <= b.left <= a.left
    && b.snap.capacity == a.snap.capacity
    && Total(b.placed) + b.left == Total(a.placed) + Total(base) + a.left
    && forall o: nat :: ExtendsAt(a, base, b, o)
  }

  lemma ExtendsNothing(a: Alloc)
    requires 0 <= a.left
    ensures Extends(a, [], a)
  {
  }

  lemma ExtendsThen(a: Alloc, ps: seq<Placement>, b: Alloc, qs: seq<Placement>, c: Alloc)
    requires Extends(a, ps, b) && Extends(b, qs, c)
    ensures Extends(a, ps + qs, c)
  {
    WeightConcat(ps, qs, Replicas());
    forall o: nat ensures ExtendsAt(a, ps + qs, c, o) {
      assert ExtendsAt(a, ps, b, o) && ExtendsAt(b, qs, c, o);
      WeightConcat(ps, qs, OnOrdinal(o));
    }
  }

  /** Listing an entry of the vpod with n more than it had, or a new pod with n. */
  lemma GiveExtends(a: Alloc, base: seq<Placement>, n: int, entry: Placement)
    requires 0 <= n <= a.left && (n == 0 || n <= a.snap.Free(Ord(entry)))
    requires base == [] || (|base| == 1 && Ord(base[0]) == Ord(entry))
    requires entry.vreplicas == Total(base) + n
    ensures Extends(a, base, Give(a, Ord(entry), n, entry))
    ensures n == 0 && base == [entry] ==> Extends(a, base, a.(placed := a.placed + [entry]))
  {
    hide OrdinalFromPodName;
    var b := Give(a, Ord(entry), n, entry);
    WeightAppend(a.placed, entry, Replicas());
    if base != [] { WeightOne(base[0], Replicas()); }
    assert base != [] ==> base == [base[0]];
    forall o: nat ensures ExtendsAt(a, base, b, o) {
      WeightAppend(a.placed, entry, OnOrdinal(o));
      if base != [] { WeightOne(base[0], OnOrdinal(o)); }
    }
    if n == 0 && base == [entry] {
      var c := a.(placed := a.placed + [entry]);
      forall o: nat ensures ExtendsAt(a, base, c, o) {
        assert ExtendsAt(a, base, b, o);
      }
    }
  }

  // ----- MAXFILLUP scale-up -----

  /** A pod the vpod is already placed on. */
  function FillOne(a: Alloc, p: Placement): Alloc {
    var f := a.snap.Free(Ord(p));
    if a.left >= 0 && f > 0 then
      var n := Min(f, a.left);
      Give(a, Ord(p), n, Placement(p.podName, "", p.vreplicas + n))
    else a.(placed := a.placed + [p])
  }

  function FillExisting(a: Alloc, ps: seq<Placement>): Alloc
    decreases ps
  {
    if ps == [] then a else FillExisting(FillOne(a, ps[0]), ps[1..])
  }

  /** A pod of the statefulset, in ordinal order. */
  function FillNewOne(a: Alloc, name: string, ordinal: nat): Alloc {
    var f := a.snap.Free(ordinal);
    if f > 0 then
      var n := Min(f, a.left);
      Give(a, ordinal, n, Placement(PodNameFromOrdinal(name, ordinal), "", n))
    else a
  }

  function FillNew(a: Alloc, name: string, ordinal: nat, replicas: int): Alloc
    decreases replicas - ordinal
  {
    if ordinal >= replicas then a
    else
      var b := FillNewOne(a, name, ordinal);
      if b.left == 0 then b else FillNew(b, name, ordinal + 1, replicas)
  }

  function AddReplicas(snap: Snapshot, name: string, replicas: int, diff: int, ps: seq<Placement>): Alloc {
    var a := FillExisting(Alloc(snap, [], diff), ps);
    if a.left > 0 then FillNew(a, name, 0, replicas) else a
  }

  lemma FillOneExtends(a: Alloc, p: Placement)
    requires 0 <= a.left
    ensures Extends(a, [p], FillOne(a, p))
    ensures FillOne(a, p).left > 0 ==> FillOne(a, p).snap.Free(Ord(p)) <= 0
  {
    hide OrdinalFromPodName;
    WeightOne(p, Replicas());
    var f := a.snap.Free(Ord(p));
    if f > 0 {
      GiveExtends(a, [p], Min(f, a.left), Placement(p.podName, "", p.vreplicas + Min(f, a.left)));
    } else {
      GiveExtends(a, [p], 0, p);
    }
  }

  /** Every pod of the vpod stays listed, in the same order, with a count that is not lower. */
  ghost predicate Raises(before: seq<Placement>, after: seq<Placement>) {
    && |before| == |after|
    && forall i :: 0 <= i < |before| ==>
       before[i].podName == after[i].podName && before[i].vreplicas <= after[i].vreplicas
  }

  lemma {:induction false} FillExistingLaw(a: Alloc, ps: seq<Placement>)
    requires 0 <= a.left
    ensures var b := FillExisting(a, ps);
            && Extends(a, ps, b)
            && a.placed <= b.placed && Raises(ps, b.placed[|a.placed|..])
            && (b.left > 0 ==> forall i :: 0 <= i < |ps| ==> b.snap.Free(Ord(ps[i])) <= 0)
    decreases ps
  {
    hide OrdinalFromPodName, ExtendsAt;
    if ps == [] {
      ExtendsNothing(a);
    } else {
      var a1 := FillOne(a, ps[0]);
      var b := FillExisting(a, ps);
      FillOneExtends(a, ps[0]);
      FillExistingLaw(a1, ps[1..]);
      ExtendsThen(a, [ps[0]], a1, ps[1..], b);
      assert [ps[0]] + ps[1..] == ps;
      assert b.placed[|a.placed|..][1..] == b.placed[|a1.placed|..];
      assert b.placed[|a.placed|] == a1.placed[|a.placed|];
      if b.left > 0 {
        ExtendsFalls(a1, ps[1..], b, Ord(ps[0]));
      }
    }
  }

  lemma ExtendsFalls(a: Alloc, base: seq<Placement>, b: Alloc, o: nat)
    requires Extends(a, base, b)
    ensures ExtendsAt(a, base, b, o)
    ensures Min(a.snap.Free(o), 0) <= b.snap.Free(o) <= a.snap.Free(o)
  {
  }

  lemma FillNewOneLaw(a: Alloc, name: string, ordinal: nat)
    requires 0 < a.left && ordinal <= MAX_INT32
    ensures var b := FillNewOne(a, name, ordinal);
            && Extends(a, [], b)
            && (b.left > 0 ==> b.snap.Free(ordinal) <= 0)
            && (a.snap.Free(ordinal) <= 0 ==> b == a)
            && (a.snap.Free(ordinal) > 0 ==>
                  exists p :: b.placed == a.placed + [p] && Canonical(name, p) && Ord(p) == ordinal && 0 < p.vreplicas)
            && forall o: nat :: o != ordinal ==> b.snap.Free(o) == a.snap.Free(o)
  {
    hide OrdinalFromPodName, PodNameFromOrdinal;
    var f := a.snap.Free(ordinal);
    OrdinalRoundTrip(name, ordinal);
    if f > 0 {
      var n := Min(f, a.left);
      var p := Placement(PodNameFromOrdinal(name, ordinal), "", n);
      GiveExtends(a, [], n, p);
      assert FillNewOne(a, name, ordinal).placed == a.placed + [p] && Canonical(name, p);
    } else {
      ExtendsNothing(a);
    }
  }

  /** Pods not yet used by the vpod are taken in ordinal order, each at most once and only while it has room. */
  ghost predicate TakesLowest(a: Alloc, name: string, from: nat, to: int, b: Alloc) {
    && a.placed <= b.placed
    && (forall i :: |a.placed| <= i < |b.placed| ==> Canonical(name, b.placed[i]) && 0 < b.placed[i].vreplicas)
    && (forall o: nat ::
          Listings(b.placed, o) <= Listings(a.placed, o) + if from <= o < to && a.snap.Free(o) > 0 then 1 else 0)
    && (forall o: nat :: !(from <= o < to) ==> b.snap.Free(o) == a.snap.Free(o))
    && (forall o: nat, o': nat :: from <= o' < o && b.snap.Free(o) != a.snap.Free(o) ==> b.snap.Free(o') <= 0)
    && (b.left > 0 ==> forall o: nat :: from <= o < to ==> b.snap.Free(o) <= 0)
  }

  lemma {:induction false} FillNewLaw(a: Alloc, name: string, ordinal: nat, replicas: int)
    requires 0 < a.left && replicas <= MAX_INT32
    ensures Extends(a, [], FillNew(a, name, ordinal, replicas))
    ensures TakesLowest(a, name, ordinal, replicas, FillNew(a, name, ordinal, replicas))
    decreases replicas - ordinal
  {
    hide OrdinalFromPodName, PodNameFromOrdinal, FillNewOne, Extends;
    if ordinal >= replicas {
      ExtendsNothing(a);
    } else {
      var a1 := FillNewOne(a, name, ordinal);
      FillNewOneLaw(a, name, ordinal);
      FillNewOneTakes(a, name, ordinal);
      assert 0 <= a1.left by { ExtendsLeft(a, [], a1); }
      if a1.left != 0 {
        var b := FillNew(a1, name, ordinal + 1, replicas);
        FillNewLaw(a1, name, ordinal + 1, replicas);
        ExtendsThen(a, [], a1, [], b);
        var none: seq<Placement> := [];
        assert none + none == none;
        TakesThen(a, name, ordinal, replicas, a1, b);
      }
    }
  }

  lemma ExtendsLeft(a: Alloc, base: seq<Placement>, b: Alloc)
    requires Extends(a, base, b)
    ensures 0 <= b.left <= a.left
  {
  }

  lemma FillNewOneTakes(a: Alloc, name: string, ordinal: nat)
    requires 0 < a.left && ordinal <= MAX_INT32
    ensures TakesLowest(a, name, ordinal, ordinal + 1, FillNewOne(a, name, ordinal))
    ensures FillNewOne(a, name, ordinal).left == 0 ==>
              forall to: int :: ordinal < to ==> TakesLowest(a, name, ordinal, to, FillNewOne(a, name, ordinal))
  {
    hide OrdinalFromPodName, PodNameFromOrdinal, Extends, FillNewOne;
    var b := FillNewOne(a, name, ordinal);
    FillNewOneLaw(a, name, ordinal);
    if a.snap.Free(ordinal) > 0 {
      var p :| b.placed == a.placed + [p] && Canonical(name, p) && Ord(p) == ordinal && 0 < p.vreplicas;
      forall o: nat ensures Listings(b.placed, o) == Listings(a.placed, o) + if o == ordinal then 1 else 0 {
        WeightAppend(a.placed, p, ListedOn(o));
      }
    }
  }

  lemma TakesThen(a: Alloc, name: string, ordinal: nat, to: int, a1: Alloc, b: Alloc)
    requires TakesLowest(a, name, ordinal, ordinal + 1, a1) && a1.left > 0 && ordinal < to
    requires TakesLowest(a1, name, ordinal + 1, to, b)
    ensures TakesLowest(a, name, ordinal, to, b)
  {
    hide OrdinalFromPodName, PodNameFromOrdinal, Listings;
    forall i | |a.placed| <= i < |b.placed|
      ensures Canonical(name, b.placed[i]) && 0 < b.placed[i].vreplicas
    {
      if i < |a1.placed| { assert b.placed[i] == a1.placed[i]; }
    }
  }

  lemma {:induction false} RaisedListings(before: seq<Placement>, after: seq<Placement>, o: nat)
    requires Raises(before, after)
    ensures Listings(before, o) == Listings(after, o)
  {
    hide OrdinalFromPodName;
    if before != [] {
      RaisedListings(before[1..], after[1..], o);
    }
  }

  lemma RaisedIsWellPlaced(name: string, before: seq<Placement>, after: seq<Placement>)
    requires Raises(before, after) && WellPlaced(name, before)
    ensures WellPlaced(name, after)
  {
    hide OrdinalFromPodName, PodNameFromOrdinal;
    forall o: nat ensures Listings(after, o) <= 1 {
      RaisedListings(before, after, o);
    }
    forall i | 0 <= i < |after| ensures Canonical(name, after[i]) {
      assert Canonical(name, before[i]);
    }
  }

  /** MAXFILLUP scale-up: nothing is lost, no pod is given more than it has or listed twice, the vpod's own pods keep
      what they had, and replicas are left over only if every pod it may use is full. */
  lemma AddReplicasLaw(snap: Snapshot, name: string, replicas: int, diff: int, ps: seq<Placement>)
    requires 0 <= diff && WellPlaced(name, ps) && replicas <= MAX_INT32
    ensures var r := AddReplicas(snap, name, replicas, diff, ps);
            && Extends(Alloc(snap, [], diff), ps, r)
            && WellPlaced(name, r.placed)
            && |ps| <= |r.placed| && Raises(ps, r.placed[..|ps|])
            && (forall i :: |ps| <= i < |r.placed| ==> 0 < r.placed[i].vreplicas)
            && (r.left > 0 ==>
                  && (forall i :: 0 <= i < |ps| ==> r.snap.Free(Ord(ps[i])) <= 0)
                  && (forall o: nat :: o < replicas ==> r.snap.Free(o) <= 0))
  {
    hide OrdinalFromPodName, PodNameFromOrdinal, ExtendsAt, FillExisting, FillNew;
    var a0 := Alloc(snap, [], diff);
    var a := FillExisting(a0, ps);
    FillExistingLaw(a0, ps);
    assert a.placed[|a0.placed|..] == a.placed;
    RaisedIsWellPlaced(name, ps, a.placed);
    if a.left > 0 {
      var r := FillNew(a, name, 0, replicas);
      FillNewLaw(a, name, 0, replicas);
      ExtendsThen(a0, ps, a, [], r);
      assert ps + [] == ps;
      assert r.placed[..|ps|] == a.placed;
      forall i | 0 <= i < |r.placed| ensures Canonical(name, r.placed[i]) {
        if i < |ps| { assert r.placed[i] == a.placed[i]; }
      }
      forall o: nat ensures Listings(r.placed, o) <= 1 {
        if Listings(a.placed, o) == 1 {
          ListedSomewhere(a.placed, o);
          var i :| 0 <= i < |a.placed| && Ord(a.placed[i]) == o;
          assert Ord(a.placed[i]) == Ord(ps[i]);
        }
      }
      forall i | 0 <= i < |ps| ensures r.snap.Free(Ord(ps[i])) <= 0 {
        ExtendsFalls(a, [], r, Ord(ps[i]));
      }
    } else {
      assert a.placed[..|ps|] == a.placed;
    }
  }

  lemma {:induction false} ListedSomewhere(ps: seq<Placement>, o: nat)
    requires Listings(ps, o) != 0
    ensures exists i :: 0 <= i < |ps| && Ord(ps[i]) == o
  {
    hide OrdinalFromPodName;
    if Ord(ps[0]) != o {
      ListedSomewhere(ps[1..], o);
      var i :| 0 <= i < |ps[1..]| && Ord(ps[1..][i]) == o;
      assert Ord(ps[i + 1]) == o;
    }
  }

  lemma EntryIsListed(ps: seq<Placement>, i: nat)
    requires i < |ps|
    ensures Listings(ps, Ord(ps[i])) >= 1
  {
    hide OrdinalFromPodName;
    WeightNonNegative(ps, ListedOn(Ord(ps[i])));
  }

  lemma {:induction false} TwiceListed(ps: seq<Placement>, i: nat, j: nat)
    requires i < j < |ps| && Ord(ps[i]) == Ord(ps[j])
    ensures Listings(ps, Ord(ps[i])) >= 2
  {
    hide OrdinalFromPodName;
    var o := Ord(ps[i]);
    if i > 0 {
      TwiceListed(ps[1..], i - 1, j - 1);
    } else {
      EntryIsListed(ps[1..], j - 1);
    }
  }

  lemma ListingsOfPrefix(a: seq<Placement>, b: seq<Placement>, o: nat)
    requires a <= b
    ensures Listings(a, o) <= Listings(b, o)
  {
    hide OrdinalFromPodName;
    WeightConcat(a, b[|a|..], ListedOn(o));
    assert a + b[|a|..] == b;
    WeightNonNegative(b[|a|..], ListedOn(o));
  }

  lemma {:induction false} CountOutside(ps: seq<Placement>, o: nat)
    requires o !in OrdSet(ps)
    ensures CountAt(ps, o) == 0 && Listings(ps, o) == 0
  {
    hide OrdinalFromPodName;
    if ps != [] {
      assert forall i :: 0 <= i < |ps[1..]| ==> Ord(ps[1..][i]) == Ord(ps[i + 1]) && Ord(ps[i + 1]) in OrdSet(ps);
      CountOutside(ps[1..], o);
      assert Ord(ps[0]) in OrdSet(ps);
    }
  }

  // ----- the closed form -----

  function OrdSet(ps: seq<Placement>): set<nat> {
    set i | 0 <= i < |ps| :: Ord(ps[i])
  }

  lemma EntryInOrdSet(ps: seq<Placement>, i: nat)
    requires i < |ps|
    ensures Ord(ps[i]) in OrdSet(ps)
  {
    hide OrdinalFromPodName;
  }

  function FreeOf(snap: Snapshot): nat -> int {
    (o: nat) => snap.Free(o)
  }

  function RoomOf(snap: Snapshot): nat -> int {
    (o: nat) => Pos(snap.Free(o))
  }

  /** Over any set of ordinals holding all the placements, the free capacity falls by exactly what was placed. */
  lemma FreeFallsByPlaced(a: Alloc, ps: seq<Placement>, r: Alloc, s: set<nat>)
    requires a.placed == [] && Extends(a, ps, r) && OrdSet(ps) <= s && OrdSet(r.placed) <= s
    ensures SumOver(s, FreeOf(r.snap)) == SumOver(s, FreeOf(a.snap)) - (a.left - r.left)
  {
    hide OrdinalFromPodName;
    assert forall i :: 0 <= i < |ps| ==> Ord(ps[i]) in OrdSet(ps);
    assert forall i :: 0 <= i < |r.placed| ==> Ord(r.placed[i]) in OrdSet(r.placed);
    var before, after := (o: nat) => CountAt(ps, o), (o: nat) => CountAt(r.placed, o);
    SumOfCounts(ps, s);
    SumOfCounts(r.placed, s);
    SumEqual(s, before, (o: nat) => CountAt(ps, o));
    SumEqual(s, after, (o: nat) => CountAt(r.placed, o));
    var both := (o: nat) => a.snap.Free(o) + CountAt(ps, o);
    forall o: nat ensures both(o) == r.snap.Free(o) + CountAt(r.placed, o) {
      assert ExtendsAt(a, ps, r, o);
      assert CountAt(a.placed, o) == 0;
    }
    SumPlus(s, FreeOf(a.snap), before, both);
    SumPlus(s, FreeOf(r.snap), after, both);
  }

  /** An allocation whose listed pods lie in s, and which leaves something over only if s is full, leaves over exactly
      what the room in s cannot hold. */
  lemma LeftIsWhatDoesNotFit(a: Alloc, ps: seq<Placement>, r: Alloc, s: set<nat>)
    requires a.placed == [] && Extends(a, ps, r) && OrdSet(ps) <= s && OrdSet(r.placed) <= s
    requires r.left > 0 ==> forall o: nat :: o in s ==> r.snap.Free(o) <= 0
    ensures r.left == Pos(a.left - SumOver(s, RoomOf(a.snap)))
  {
    hide OrdinalFromPodName;
    FreeFallsByPlaced(a, ps, r, s);
    var used := (o: nat) => a.snap.Free(o) - r.snap.Free(o);
    SumPlus(s, used, FreeOf(r.snap), FreeOf(a.snap));
    forall o: nat | o in s
      ensures used(o) <= RoomOf(a.snap)(o)
      ensures r.left > 0 ==> used(o) == RoomOf(a.snap)(o)
    {
      ExtendsFalls(a, ps, r, o);
    }
    SumMonotone(s, used, RoomOf(a.snap));
    if r.left > 0 {
      SumEqual(s, used, RoomOf(a.snap));
    }
  }

  /** MAXFILLUP scale-up in closed form: what is left over is what the room on the vpod's own pods and on the
      statefulset's pods cannot hold. */
  lemma AddReplicasClosedForm(snap: Snapshot, name: string, replicas: int, diff: int, ps: seq<Placement>)
    requires 0 <= diff && WellPlaced(name, ps) && replicas <= MAX_INT32
    ensures var r := AddReplicas(snap, name, replicas, diff, ps);
            var usable := OrdSet(ps) + Below(replicas);
            && r.left == Pos(diff - SumOver(usable, RoomOf(snap)))
            && SumOver(usable, FreeOf(r.snap)) == SumOver(usable, FreeOf(snap)) - (diff - r.left)
            && forall o: nat :: o !in usable ==> r.snap.Free(o) == snap.Free(o)
  {
    hide OrdinalFromPodName, PodNameFromOrdinal, Extends, WellPlaced;
    var a := Alloc(snap, [], diff);
    var r := AddReplicas(snap, name, replicas, diff, ps);
    var usable := OrdSet(ps) + Below(replicas);
    AddReplicasLaw(snap, name, replicas, diff, ps);
    AddReplicasStaysIn(snap, name, replicas, diff, ps);
    LeftIsWhatDoesNotFit(a, ps, r, usable);
    FreeFallsByPlaced(a, ps, r, usable);
  }

  lemma AddReplicasStaysIn(snap: Snapshot, name: string, replicas: int, diff: int, ps: seq<Placement>)
    requires 0 <= diff && WellPlaced(name, ps) && replicas <= MAX_INT32
    ensures var r := AddReplicas(snap, name, replicas, diff, ps);
            var usable := OrdSet(ps) + Below(replicas);
            && OrdSet(r.placed) <= usable
            && forall o: nat :: o !in usable ==> r.snap.Free(o) == snap.Free(o)
  {
    hide OrdinalFromPodName, PodNameFromOrdinal, FillExisting, FillNew, Extends;
    var a0 := Alloc(snap, [], diff);
    var a := FillExisting(a0, ps);
    var r := AddReplicas(snap, name, replicas, diff, ps);
    var usable := OrdSet(ps) + Below(replicas);
    FillExistingLaw(a0, ps);
    AddReplicasLaw(snap, name, replicas, diff, ps);
    assert a.placed[|a0.placed|..] == a.placed;
    if a.left > 0 { FillNewLaw(a, name, 0, replicas); }
    forall i | 0 <= i < |r.placed| ensures Ord(r.placed[i]) in usable {
      var o := Ord(r.placed[i]);
      EntryIsListed(r.placed, i);
      RaisedListings(ps, a.placed, o);
      if !(o < replicas) { ListedSomewhere(ps, o); }
    }
    forall o: nat | o !in usable ensures r.snap.Free(o) == snap.Free(o) {
      CountOutside(ps, o);
      CountOutside(r.placed, o);
      ExtendsFalls(a0, ps, r, o);
      assert ExtendsAt(a0, ps, r, o) && CountAt(a0.placed, o) == 0;
    }
  }

  /** If the pods below a bound have room enough and the vpod uses no others, none at or above the bound is touched. */
  lemma AddReplicasStaysBelow(snap: Snapshot, name: string, replicas: int, diff: int, ps: seq<Placement>, bound: nat)
    requires 0 <= diff && WellPlaced(name, ps) && replicas <= MAX_INT32 && bound <= replicas
    requires OrdSet(ps) <= Below(bound) && diff <= SumOver(Below(bound), RoomOf(snap))
    ensures var r := AddReplicas(snap, name, replicas, diff, ps);
            && r.left == 0
            && OrdSet(r.placed) <= Below(bound)
            && forall o: nat :: bound <= o ==> r.snap.Free(o) == snap.Free(o)
  {
    hide OrdinalFromPodName, PodNameFromOrdinal, Once, Canonical, Extends, AddReplicas, Below, OrdSet, Weight;
    var a0 := Alloc(snap, [], diff);
    var r := AddReplicas(snap, name, replicas, diff, ps);
    var usable := OrdSet(ps) + Below(replicas);
    AddReplicasClosedForm(snap, name, replicas, diff, ps);
    AddReplicasLaw(snap, name, replicas, diff, ps);
    SumSubset(Below(bound), usable, RoomOf(snap));
    forall o: nat | bound <= o ensures r.snap.Free(o) == snap.Free(o) {
      LowerPodsFirst(snap, name, replicas, diff, ps, bound, o);
    }
    ListedBelow(a0, name, ps, r, bound);
  }

  lemma ListedBelow(a: Alloc, name: string, ps: seq<Placement>, r: Alloc, bound: nat)
    requires a.placed == [] && Extends(a, ps, r) && AllCanonical(name, r.placed)
    requires |ps| <= |r.placed| && Raises(ps, r.placed[..|ps|]) && OrdSet(ps) <= Below(bound)
    requires forall j :: |ps| <= j < |r.placed| ==> 0 < r.placed[j].vreplicas
    requires forall o: nat :: bound <= o ==> r.snap.Free(o) == a.snap.Free(o)
    ensures OrdSet(r.placed) <= Below(bound)
  {
    hide OrdinalFromPodName, PodNameFromOrdinal, Below;
    forall i | 0 <= i < |r.placed| ensures Ord(r.placed[i]) in Below(bound) {
      var o := Ord(r.placed[i]);
      if i < |ps| {
        assert r.placed[i] == r.placed[..|ps|][i] && Ord(ps[i]) == o && Ord(ps[i]) in OrdSet(ps);
      } else if bound <= o {
        CountOutside(ps, o);
        assert ExtendsAt(a, ps, r, o);
        WeightNonNegative(r.placed, OnOrdinal(o));
      }
    }
  }

  lemma Overdrawn(usable: set<nat>, lower: set<nat>, o: nat, used: nat -> int, room: nat -> int)
    requires lower <= usable && o in usable && o !in lower && 0 < used(o)
    requires forall x :: x in usable ==> 0 <= used(x)
    requires forall x :: x in lower ==> used(x) == room(x)
    ensures SumOver(usable, used) > SumOver(lower, room)
  {
    SumEqual(lower, used, room);
    SumAdd(lower, used, o);
    SumSubset(lower + {o}, usable, used);
  }

  /** A pod at or above the bound would be touched only after those below have given all they had. */
  lemma LowerPodsFirst(snap: Snapshot, name: string, replicas: int, diff: int, ps: seq<Placement>, bound: nat, o: nat)
    requires 0 <= diff && WellPlaced(name, ps) && replicas <= MAX_INT32 && bound <= replicas && bound <= o
    requires OrdSet(ps) <= Below(bound) && diff <= SumOver(Below(bound), RoomOf(snap))
    ensures AddReplicas(snap, name, replicas, diff, ps).snap.Free(o) == snap.Free(o)
  {
    hide OrdinalFromPodName, PodNameFromOrdinal, Once, Canonical, FillExisting, FillNew, Extends, Below, Weight, Raises;
    var a0 := Alloc(snap, [], diff);
    var a, r := FillExisting(a0, ps), AddReplicas(snap, name, replicas, diff, ps);
    var usable := OrdSet(ps) + Below(replicas);
    AddReplicasClosedForm(snap, name, replicas, diff, ps);
    AddReplicasLaw(snap, name, replicas, diff, ps);
    FillExistingLaw(a0, ps);
    ExistingUntouched(a0, ps, a, o);
    ExtendsLeft(a0, ps, r);
    if a.left > 0 { FillNewLaw(a, name, 0, replicas); }
    var used := (x: nat) => snap.Free(x) - r.snap.Free(x);
    SumPlus(usable, used, FreeOf(r.snap), FreeOf(snap));
    forall x: nat
      ensures 0 <= used(x)
      ensures used(o) != 0 && x < bound ==> used(x) == RoomOf(snap)(x)
    {
      ExtendsFalls(a0, ps, r, x);
    }
    if used(o) > 0 {
      Overdrawn(usable, Below(bound), o, used, RoomOf(snap));
      assert false;
    }
  }

  lemma ExistingUntouched(a: Alloc, ps: seq<Placement>, b: Alloc, o: nat)
    requires a.placed == [] && Extends(a, ps, b) && o !in OrdSet(ps) && Raises(ps, b.placed[|a.placed|..])
    ensures b.snap.Free(o) == a.snap.Free(o)
  {
    hide OrdinalFromPodName, PodNameFromOrdinal;
    assert b.placed[|a.placed|..] == b.placed;
    CountOutside(ps, o);
    assert o !in OrdSet(b.placed) by {
      assert forall i :: 0 <= i < |ps| ==> Ord(b.placed[i]) == Ord(ps[i]) && Ord(ps[i]) in OrdSet(ps);
    }
    CountOutside(b.placed, o);
    assert ExtendsAt(a, ps, b, o);
  }

  // ----- the order in which pods are filled -----

  /** In a well-formed list an entry holds all that is placed on its pod. */
  lemma {:induction false} CountOfEntry(name: string, ps: seq<Placement>, i: nat)
    requires WellPlaced(name, ps) && i < |ps|
    ensures CountAt(ps, Ord(ps[i])) == ps[i].vreplicas && Listings(ps, Ord(ps[i])) == 1
  {
    hide OrdinalFromPodName, PodNameFromOrdinal, Canonical;
    var o := Ord(ps[i]);
    TailOnce(name, ps);
    if i == 0 {
      CountsNonNegative(name, ps[1..], o);
      assert Listings(ps, o) == 1 + Listings(ps[1..], o);
      if o in OrdSet(ps[1..]) {
        var j :| 0 <= j < |ps[1..]| && Ord(ps[1..][j]) == o;
        EntryIsListed(ps[1..], j);
      }
      CountOutside(ps[1..], o);
    } else {
      CountOfEntry(name, ps[1..], i - 1);
      assert Listings(ps, o) <= 1;
    }
  }

  /** The vpod's own pods are filled in list order: one gains only after every one before it is full. */
  lemma {:induction false} FillsInOrder(a: Alloc, ps: seq<Placement>, i: nat, j: nat)
    requires 0 <= a.left && i < j < |ps|
    ensures var b := FillExisting(a, ps);
            && |b.placed| == |a.placed| + |ps|
            && (b.placed[|a.placed| + j].vreplicas > ps[j].vreplicas ==> b.snap.Free(Ord(ps[i])) <= 0)
    decreases ps
  {
    hide OrdinalFromPodName, Extends;
    var a1, b := FillOne(a, ps[0]), FillExisting(a, ps);
    FillOneExtends(a, ps[0]);
    ExtendsLeft(a, [ps[0]], a1);
    FillExistingLaw(a1, ps[1..]);
    if i > 0 {
      FillsInOrder(a1, ps[1..], i - 1, j - 1);
    } else {
      ExtendsFalls(a1, ps[1..], b, Ord(ps[0]));
      if a1.left == 0 { FillsNothing(a1, ps[1..], j - 1); }
    }
  }

  lemma {:induction false} FillsNothing(a: Alloc, ps: seq<Placement>, j: nat)
    requires a.left == 0 && j < |ps|
    ensures var b := FillExisting(a, ps);
            |b.placed| == |a.placed| + |ps| && b.placed[|a.placed| + j].vreplicas == ps[j].vreplicas
    decreases ps
  {
    hide OrdinalFromPodName;
    var a1, b := FillOne(a, ps[0]), FillExisting(a, ps);
    FillExistingLaw(a1, ps[1..]);
    if j > 0 {
      FillsNothing(a1, ps[1..], j - 1);
    } else {
      assert b.placed[|a.placed|] == a1.placed[|a.placed|];
    }
  }

  /** Which pods a scale-up uses: the vpod's own pods in list order, each only after those before it are full, and
      another pod only after all own pods are full and all pods with a lower ordinal are. */
  lemma AddReplicasOrder(snap: Snapshot, name: string, replicas: int, diff: int, ps: seq<Placement>)
    requires 0 <= diff && WellPlaced(name, ps) && replicas <= MAX_INT32
    ensures var r := AddReplicas(snap, name, replicas, diff, ps);
            && |ps| <= |r.placed|
            && (forall i, j :: 0 <= i < j < |ps| && r.placed[j].vreplicas > ps[j].vreplicas ==>
                  r.snap.Free(Ord(ps[i])) <= 0)
            && (|ps| < |r.placed| ==> forall i :: 0 <= i < |ps| ==> r.snap.Free(Ord(ps[i])) <= 0)
            && (forall j, o: nat :: |ps| <= j < |r.placed| && o < Ord(r.placed[j]) ==> r.snap.Free(o) <= 0)
  {
    hide OrdinalFromPodName, PodNameFromOrdinal, Canonical, FillExisting, FillNew, Weight, Extends;
    var a0 := Alloc(snap, [], diff);
    var a, r := FillExisting(a0, ps), AddReplicas(snap, name, replicas, diff, ps);
    FillExistingLaw(a0, ps);
    assert a.placed[|a0.placed|..] == a.placed;
    AddReplicasLaw(snap, name, replicas, diff, ps);
    if a.left > 0 { FillNewLaw(a, name, 0, replicas); } else { assert 0 <= a.left by { ExtendsLeft(a0, ps, a); } }
    forall i, j | 0 <= i < j < |ps| && r.placed[j].vreplicas > ps[j].vreplicas ensures r.snap.Free(Ord(ps[i])) <= 0 {
      FillsInOrder(a0, ps, i, j);
      assert r.placed[j] == a.placed[j];
      if a.left > 0 { ExtendsFalls(a, [], r, Ord(ps[i])); }
    }
    if a.left > 0 {
      forall i | 0 <= i < |ps| ensures r.snap.Free(Ord(ps[i])) <= 0 { ExtendsFalls(a, [], r, Ord(ps[i])); }
      forall j, o: nat | |ps| <= j < |r.placed| && o < Ord(r.placed[j]) ensures r.snap.Free(o) <= 0 {
        NewEntryTakes(a, name, replicas, r, j);
      }
    }
  }

  /** A pod that was not among the vpod's own gives what its entry records. */
  lemma NewEntryTakes(a: Alloc, name: string, replicas: int, r: Alloc, j: nat)
    requires TakesLowest(a, name, 0, replicas, r) && Extends(a, [], r) && |a.placed| <= j < |r.placed|
    ensures r.snap.Free(Ord(r.placed[j])) != a.snap.Free(Ord(r.placed[j]))
  {
    hide OrdinalFromPodName, PodNameFromOrdinal;
    var o, added := Ord(r.placed[j]), r.placed[|a.placed|..];
    assert a.placed + added == r.placed;
    WeightConcat(a.placed, added, OnOrdinal(o));
    assert forall i :: 0 <= i < |added| ==> added[i] == r.placed[|a.placed| + i] && 0 <= OnOrdinal(o)(added[i]);
    WeightNonNegative(added, OnOrdinal(o));
    assert OnOrdinal(o)(added[j - |a.placed|]) > 0;
    assert ExtendsAt(a, [], r, o);
    WeightNil(OnOrdinal(o));
  }

  /** MAXFILLUP records no zone: entries that are filled lose theirs, and new entries have none. */
  lemma AddReplicasZones(snap: Snapshot, name: string, replicas: int, diff: int, ps: seq<Placement>)
    requires 0 <= diff && WellPlaced(name, ps) && replicas <= MAX_INT32
    ensures var r := AddReplicas(snap, name, replicas, diff, ps);
            && |ps| <= |r.placed|
            && (forall i :: 0 <= i < |ps| ==>
                  r.placed[i].zoneName == if snap.Free(Ord(ps[i])) > 0 then "" else ps[i].zoneName)
            && (forall i :: |ps| <= i < |r.placed| ==> r.placed[i].zoneName == "")
  {
    hide OrdinalFromPodName, PodNameFromOrdinal, Canonical, FillExisting, FillNew, Weight, Extends;
    var a := FillExisting(Alloc(snap, [], diff), ps);
    FillExistingLaw(Alloc(snap, [], diff), ps);
    assert a.placed[0..] == a.placed;
    forall i | 0 <= i < |ps| ensures a.placed[i].zoneName == if snap.Free(Ord(ps[i])) > 0 then "" else ps[i].zoneName {
      FilledZone(Alloc(snap, [], diff), name, ps, i);
    }
    if a.left > 0 { NewZones(a, name, 0, replicas); } else { ExtendsLeft(Alloc(snap, [], diff), ps, a); }
  }

  lemma {:induction false} FilledZone(a: Alloc, name: string, ps: seq<Placement>, i: nat)
    requires 0 <= a.left && WellPlaced(name, ps) && i < |ps|
    ensures var b := FillExisting(a, ps);
            && |b.placed| == |a.placed| + |ps|
            && b.placed[|a.placed| + i].zoneName == if a.snap.Free(Ord(ps[i])) > 0 then "" else ps[i].zoneName
    decreases ps
  {
    hide OrdinalFromPodName, PodNameFromOrdinal, Canonical, Extends, Weight;
    var a1, b := FillOne(a, ps[0]), FillExisting(a, ps);
    FillOneExtends(a, ps[0]);
    ExtendsLeft(a, [ps[0]], a1);
    FillExistingLaw(a1, ps[1..]);
    if i > 0 {
      TailOnce(name, ps);
      FilledZone(a1, name, ps[1..], i - 1);
      if Ord(ps[0]) == Ord(ps[i]) { TwiceListed(ps, 0, i); }
    } else {
      assert b.placed[|a.placed|] == a1.placed[|a.placed|];
    }
  }

  lemma {:induction false} NewZones(a: Alloc, name: string, ordinal: nat, replicas: int)
    ensures var b := FillNew(a, name, ordinal, replicas);
            a.placed <= b.placed && forall i :: |a.placed| <= i < |b.placed| ==> b.placed[i].zoneName == ""
    decreases replicas - ordinal
  {
    hide OrdinalFromPodName, PodNameFromOrdinal;
    if ordinal < replicas { NewZones(FillNewOne(a, name, ordinal), name, ordinal + 1, replicas); }
  }

  // ----- entries above a bound -----

  /** The entries before the first one at or above the bound. */
  function Before(ps: seq<Placement>, bound: nat): seq<Placement> {
    if ps == [] || Ord(ps[0]) >= bound then [] else [ps[0]] + Before(ps[1..], bound)
  }

  lemma {:induction false} BeforeLaw(ps: seq<Placement>, bound: nat)
    ensures Before(ps, bound) <= ps
    ensures OrdSet(Before(ps, bound)) <= Below(bound)
    ensures var n := |Before(ps, bound)|; n < |ps| ==> Ord(ps[n]) >= bound
    ensures OrdSet(ps) <= Below(bound) ==> Before(ps, bound) == ps
  {
    hide OrdinalFromPodName;
    if ps != [] && Ord(ps[0]) < bound {
      BeforeLaw(ps[1..], bound);
      var rest := Before(ps[1..], bound);
      forall i | 0 <= i < |Before(ps, bound)| ensures Ord(Before(ps, bound)[i]) in Below(bound) {
        if i > 0 { assert Before(ps, bound)[i] == rest[i - 1] && Ord(rest[i - 1]) in OrdSet(rest); }
      }
      assert forall i :: 0 <= i < |ps[1..]| ==> Ord(ps[1..][i]) == Ord(ps[i + 1]) && Ord(ps[i + 1]) in OrdSet(ps);
    }
    if ps != [] { assert Ord(ps[0]) in OrdSet(ps); }
  }

  /** Whether adding diff replicas stays below the bound: the vpod lists no pod at or above it, or the pods it lists
      before the first such one have room for everything. */
  ghost predicate StaysBelow(snap: Snapshot, ps: seq<Placement>, diff: int, bound: nat) {
    Before(ps, bound) == ps || diff <= SumOver(OrdSet(Before(ps, bound)), RoomOf(snap))
  }

  lemma {:induction false} FillConcat(a: Alloc, ps: seq<Placement>, qs: seq<Placement>)
    ensures FillExisting(a, ps + qs) == FillExisting(FillExisting(a, ps), qs)
    decreases ps
  {
    hide OrdinalFromPodName;
    if ps == [] {
      assert ps + qs == qs;
    } else {
      assert (ps + qs)[0] == ps[0] && (ps + qs)[1..] == ps[1..] + qs;
      FillConcat(FillOne(a, ps[0]), ps[1..], qs);
    }
  }

  /** With nothing left to place, no pod gives anything. */
  lemma {:induction false} FillNothing(a: Alloc, ps: seq<Placement>, o: nat)
    requires a.left == 0
    ensures FillExisting(a, ps).left == 0 && FillExisting(a, ps).snap.Free(o) == a.snap.Free(o)
    decreases ps
  {
    hide OrdinalFromPodName;
    if ps != [] { FillNothing(FillOne(a, ps[0]), ps[1..], o); }
  }

  lemma PrefixIsWellPlaced(name: string, ps: seq<Placement>, n: nat)
    requires WellPlaced(name, ps) && n <= |ps|
    ensures WellPlaced(name, ps[..n])
  {
    hide OrdinalFromPodName, PodNameFromOrdinal;
    forall o: nat ensures Listings(ps[..n], o) <= 1 {
      ListingsOfPrefix(ps[..n], ps, o);
      assert Listings(ps, o) <= 1;
    }
  }

  /** What the entries before the first one at or above the bound leave over. */
  lemma LeftBefore(snap: Snapshot, name: string, diff: int, ps: seq<Placement>, bound: nat)
    requires 0 <= diff && WellPlaced(name, ps)
    ensures var before := Before(ps, bound);
            var a := FillExisting(Alloc(snap, [], diff), before);
            && a.left == Pos(diff - SumOver(OrdSet(before), RoomOf(snap)))
            && forall o: nat :: bound <= o ==> a.snap.Free(o) == snap.Free(o)
  {
    hide OrdinalFromPodName, PodNameFromOrdinal, Once, Canonical, FillExisting, Weight, Before, OrdSet;
    var before := Before(ps, bound);
    BeforeLaw(ps, bound);
    PrefixIsWellPlaced(name, ps, |before|);
    assert ps[..|before|] == before;
    AddReplicasClosedForm(snap, name, 0, diff, before);
    assert OrdSet(before) + Below(0) == OrdSet(before);
    assert AddReplicas(snap, name, 0, diff, before) == FillExisting(Alloc(snap, [], diff), before);
  }

  /** What a pod gives is what the vpod gains there. */
  lemma GainIsGiven(a: Alloc, ps: seq<Placement>, r: Alloc, o: nat)
    requires a.placed == [] && Extends(a, ps, r)
    ensures CountAt(r.placed, o) - CountAt(ps, o) == a.snap.Free(o) - r.snap.Free(o)
  {
    assert ExtendsAt(a, ps, r, o);
  }

  /** The first listed pod with room, while something is left to place, gives some of it. */
  lemma FirstGives(a: Alloc, name: string, replicas: int, ps: seq<Placement>)
    requires 0 < a.left && ps != [] && 0 < a.snap.Free(Ord(ps[0])) && replicas <= MAX_INT32
    ensures var b := FillExisting(a, ps);
            var r := if b.left > 0 then FillNew(b, name, 0, replicas) else b;
            r.snap.Free(Ord(ps[0])) < a.snap.Free(Ord(ps[0]))
  {
    hide OrdinalFromPodName, PodNameFromOrdinal, FillNew, Extends, FillOne;
    var o, a1, b := Ord(ps[0]), FillOne(a, ps[0]), FillExisting(a, ps);
    FillOneExtends(a, ps[0]);
    ExtendsLeft(a, [ps[0]], a1);
    assert a1.snap.Free(o) < a.snap.Free(o) by { OneGives(a, ps[0]); }
    FillExistingLaw(a1, ps[1..]);
    ExtendsFalls(a1, ps[1..], b, o);
    if b.left > 0 {
      FillNewLaw(b, name, 0, replicas);
      ExtendsFalls(b, [], FillNew(b, name, 0, replicas), o);
    }
  }

  lemma OneGives(a: Alloc, p: Placement)
    requires 0 < a.left && 0 < a.snap.Free(Ord(p))
    ensures FillOne(a, p).snap.Free(Ord(p)) < a.snap.Free(Ord(p))
  {
    hide OrdinalFromPodName;
  }

  /** If the pods below a bound have room enough, an entry at or above it attracts replicas exactly when the entries
      before it do not have room for all of them. */
  lemma StaysBelowIff(snap: Snapshot, name: string, replicas: int, diff: int, ps: seq<Placement>, bound: nat)
    requires 0 <= diff && WellPlaced(name, ps) && bound <= replicas <= MAX_INT32
    requires diff <= SumOver(Below(bound), RoomOf(snap))
    requires forall o: nat :: bound <= o && o in OrdSet(ps) ==> 0 < snap.Free(o)
    ensures var r := AddReplicas(snap, name, replicas, diff, ps);
            && (StaysBelow(snap, ps, diff, bound) ==>
                  forall o: nat :: bound <= o ==> CountAt(r.placed, o) == CountAt(ps, o))
            && (!StaysBelow(snap, ps, diff, bound) ==>
                  exists o: nat :: bound <= o && o in OrdSet(ps) && CountAt(r.placed, o) > CountAt(ps, o))
  {
    hide OrdinalFromPodName, PodNameFromOrdinal, Once, Canonical, FillExisting, FillOne, FillNew, Weight, Before,
         OrdSet, Extends, ExtendsAt;
    var a0, before := Alloc(snap, [], diff), Before(ps, bound);
    var a, r := FillExisting(a0, before), AddReplicas(snap, name, replicas, diff, ps);
    var n := |before|;
    BeforeLaw(ps, bound);
    LeftBefore(snap, name, diff, ps, bound);
    AddReplicasLaw(snap, name, replicas, diff, ps);
    assert before + ps[n..] == ps;
    FillConcat(a0, before, ps[n..]);
    if StaysBelow(snap, ps, diff, bound) {
      forall o: nat | bound <= o ensures CountAt(r.placed, o) == CountAt(ps, o) {
        if before == ps {
          AddReplicasStaysBelow(snap, name, replicas, diff, ps, bound);
        } else {
          FillNothing(a, ps[n..], o);
        }
        GainIsGiven(a0, ps, r, o);
      }
    } else {
      var o := Ord(ps[n]);
      assert o in OrdSet(ps) by { EntryInOrdSet(ps, n); }
      assert ps[n..][0] == ps[n];
      FirstGives(a, name, replicas, ps[n..]);
      GainIsGiven(a0, ps, r, o);
    }
  }

  // ----- MAXFILLUP scale-down -----

  /** Entries are dropped from the end of the list until diff replicas are gone; kept entries come out in reverse. */
  function RemoveReplicas(diff: int, ps: seq<Placement>, kept: seq<Placement>): seq<Placement>
    decreases ps
  {
    if ps == [] then kept
    else
      var p, rest := ps[|ps| - 1], ps[..|ps| - 1];
      if diff >= p.vreplicas then RemoveReplicas(diff - p.vreplicas, rest, kept)
      else RemoveReplicas(0, rest, kept + [Placement(p.podName, "", p.vreplicas - diff)])
  }

  lemma WeightLast(ps: seq<Placement>, w: Placement -> int)
    requires ps != []
    ensures Weight(ps, w) == Weight(ps[..|ps| - 1], w) + w(ps[|ps| - 1])
  {
    WeightAppend(ps[..|ps| - 1], ps[|ps| - 1], w);
    assert ps[..|ps| - 1] + [ps[|ps| - 1]] == ps;
  }

  /** On one ordinal, no more is placed and no more entries are listed than before. */
  ghost predicate ShrinksAt(before: seq<Placement>, after: seq<Placement>, o: nat) {
    0 <= CountAt(after, o) <= CountAt(before, o) && Listings(after, o) <= Listings(before, o)
  }

  lemma {:induction false} RemoveReplicasTotal(name: string, diff: int, ps: seq<Placement>, kept: seq<Placement>)
    requires 0 <= diff && AllCanonical(name, ps)
    requires AllCanonical(name, kept) && forall i :: 0 <= i < |kept| ==> 0 < kept[i].vreplicas
    ensures var r := RemoveReplicas(diff, ps, kept);
            && Total(r) == Total(kept) + Pos(Total(ps) - diff)
            && AllCanonical(name, r)
            && (forall i :: 0 <= i < |r| ==> 0 < r[i].vreplicas)
            && kept <= r && forall i :: |kept| <= i < |r| ==> r[i].zoneName == ""
    decreases ps
  {
    hide OrdinalFromPodName, PodNameFromOrdinal, Weight;
    if ps == [] {
      WeightNil(Replicas());
    } else {
      var p, rest := ps[|ps| - 1], ps[..|ps| - 1];
      WeightLast(ps, Replicas());
      if diff >= p.vreplicas {
        RemoveReplicasTotal(name, diff - p.vreplicas, rest, kept);
      } else {
        var q := Placement(p.podName, "", p.vreplicas - diff);
        WeightAppend(kept, q, Replicas());
        assert Canonical(name, q) by { assert Canonical(name, p); }
        RemoveReplicasTotal(name, 0, rest, kept + [q]);
        WeightNonNegative(rest, Replicas());
      }
    }
  }

  lemma {:induction false} RemoveReplicasShrinks(
    name: string, diff: int, ps: seq<Placement>, kept: seq<Placement>, o: nat)
    requires 0 <= diff && AllCanonical(name, ps) && AllCanonical(name, kept)
    ensures var r := RemoveReplicas(diff, ps, kept);
            && CountAt(kept, o) <= CountAt(r, o) <= CountAt(kept, o) + CountAt(ps, o)
            && Listings(kept, o) <= Listings(r, o) <= Listings(kept, o) + Listings(ps, o)
    decreases ps
  {
    hide OrdinalFromPodName, PodNameFromOrdinal;
    if ps != [] {
      var p, rest := ps[|ps| - 1], ps[..|ps| - 1];
      WeightLast(ps, OnOrdinal(o));
      WeightLast(ps, ListedOn(o));
      if diff >= p.vreplicas {
        RemoveReplicasShrinks(name, diff - p.vreplicas, rest, kept, o);
      } else {
        var q := Placement(p.podName, "", p.vreplicas - diff);
        WeightAppend(kept, q, OnOrdinal(o));
        WeightAppend(kept, q, ListedOn(o));
        assert Canonical(name, q) by { assert Canonical(name, p); }
        RemoveReplicasShrinks(name, 0, rest, kept + [q], o);
      }
    }
  }

  /** MAXFILLUP scale-down removes exactly diff replicas (all of them if there are fewer), from the last entries of the
      list; it raises no pod's count, lists no pod twice and leaves no empty entry. */
  lemma RemoveReplicasLaw(name: string, diff: int, ps: seq<Placement>)
    requires 0 <= diff && WellPlaced(name, ps)
    ensures var r := RemoveReplicas(diff, ps, []);
            && Total(r) == Pos(Total(ps) - diff)
            && WellPlaced(name, r)
            && (forall i :: 0 <= i < |r| ==> 0 < r[i].vreplicas && r[i].zoneName == "")
            && (forall o: nat :: ShrinksAt(ps, r, o))
            && forall i, j :: 0 <= i < j < |ps| && CountAt(r, Ord(ps[j])) > 0 ==>
                 CountAt(r, Ord(ps[i])) == ps[i].vreplicas
  {
    hide OrdinalFromPodName, PodNameFromOrdinal, RemoveReplicas;
    var r := RemoveReplicas(diff, ps, []);
    RemoveReplicasTotal(name, diff, ps, []);
    forall o: nat ensures ShrinksAt(ps, r, o) && Listings(r, o) <= 1 {
      RemoveReplicasShrinks(name, diff, ps, [], o);
    }
    forall i, j | 0 <= i < j < |ps| && CountAt(r, Ord(ps[j])) > 0
      ensures CountAt(r, Ord(ps[i])) == ps[i].vreplicas
    {
      RemovesFromEnd(name, diff, ps, [], i, j);
    }
  }

  /** With nothing to remove, every count stays. */
  lemma {:induction false} RemoveNothing(name: string, ps: seq<Placement>, kept: seq<Placement>, o: nat)
    requires AllCanonical(name, ps)
    ensures CountAt(RemoveReplicas(0, ps, kept), o) == CountAt(kept, o) + CountAt(ps, o)
    decreases ps
  {
    hide OrdinalFromPodName, PodNameFromOrdinal;
    if ps != [] {
      var p, rest := ps[|ps| - 1], ps[..|ps| - 1];
      assert Canonical(name, p);
      WeightLast(ps, OnOrdinal(o));
      if 0 >= p.vreplicas {
        RemoveNothing(name, rest, kept, o);
      } else {
        var q := Placement(p.podName, "", p.vreplicas);
        WeightAppend(kept, q, OnOrdinal(o));
        RemoveNothing(name, rest, kept + [q], o);
      }
    }
  }

  /** Replicas are removed from the end of the list: an entry is touched only after every later one is gone. Together
      with the number removed this fixes every count. */
  lemma {:induction false} RemovesFromEnd(
    name: string, diff: int, ps: seq<Placement>, kept: seq<Placement>, i: nat, j: nat)
    requires 0 <= diff && WellPlaced(name, ps) && AllCanonical(name, kept) && i < j < |ps|
    requires CountAt(kept, Ord(ps[i])) == 0 && CountAt(kept, Ord(ps[j])) == 0
    ensures var r := RemoveReplicas(diff, ps, kept);
            CountAt(r, Ord(ps[j])) > 0 ==> CountAt(r, Ord(ps[i])) == ps[i].vreplicas
    decreases ps
  {
    hide OrdinalFromPodName, PodNameFromOrdinal, Canonical, Weight;
    var n := |ps| - 1;
    var p, rest := ps[n], ps[..n];
    PrefixIsWellPlaced(name, ps, n);
    if diff >= p.vreplicas {
      if j < n {
        assert rest[i] == ps[i] && rest[j] == ps[j];
        RemovesFromEnd(name, diff - p.vreplicas, rest, kept, i, j);
      } else {
        RemoveReplicasShrinks(name, diff - p.vreplicas, rest, kept, Ord(p));
        CountOfEntry(name, ps, n);
        WeightLast(ps, OnOrdinal(Ord(p)));
      }
    } else {
      var q := Placement(p.podName, "", p.vreplicas - diff);
      RemoveNothing(name, rest, kept + [q], Ord(ps[i]));
      CountOfEntry(name, rest, i);
      assert rest[i] == ps[i];
      WeightAppend(kept, q, OnOrdinal(Ord(ps[i])));
      if Ord(p) == Ord(ps[i]) { TwiceListed(ps, i, n); }
    }
  }
}
