/** The consolidated dispatcher: channels, their subscriptions and the consumer groups serving them
    (pkg/channel/consolidated/dispatcher/dispatcher.go). */
module Dispatcher {
  import opened Sequences

  datatype ChannelRef = ChannelRef(namespace: string, name: string)

  type UID = string

  datatype Subscription = Subscription(uid: UID, spec: string)

  /** The three maps of the dispatcher, and for every consumer group ever started how often Close was called on it; a
      group is known by its position in that list. */
  datatype Tables = Tables(
    channels: map<ChannelRef, set<UID>>, subscriptions: map<UID, Subscription>, groups: map<UID, nat>, closes: seq<nat>)

  function SubsOf(d: Tables, ch: ChannelRef): set<UID> {
    if ch in d.channels then d.channels[ch] else {}
  }

  // ----- the two primitive operations -----

  /** The channel's entry is made before the group is started, and stays if starting fails. */
  function Subscribe(d: Tables, ch: ChannelRef, sub: Subscription, startFails: bool): Tables {
    var d1 := d.(channels := d.channels[ch := SubsOf(d, ch)]);
    if startFails then d1
    else Tables(d1.channels[ch := d1.channels[ch] + {sub.uid}], d.subscriptions[sub.uid := sub],
                d.groups[sub.uid := |d.closes|], d.closes + [0])
  }

  /** The maps forget the subscription whether or not closing its group fails; an empty channel is dropped. */
  function Unsubscribe(d: Tables, ch: ChannelRef, uid: UID): Tables {
    var d1 := d.(subscriptions := d.subscriptions - {uid});
    if ch !in d.channels then d1
    else
      var subs := d.channels[ch] - {uid};
      var d2 := d1.(channels := if subs == {} then d.channels - {ch} else d.channels[ch := subs]);
      if uid in d.groups && d.groups[uid] < |d.closes| then
        d2.(groups := d.groups - {uid}, closes := d.closes[d.groups[uid] := d.closes[d.groups[uid]] + 1])
      else d2
  }

  // ----- agreement of the tables -----

  /** The uid belongs to some channel. */
  ghost predicate Served(d: Tables, uid: UID) {
    exists ch :: ch in d.channels && uid in d.channels[ch]
  }

  /** The group is registered under some uid. */
  ghost predicate Registered(d: Tables, g: nat) {
    exists uid :: uid in d.groups && d.groups[uid] == g
  }

  /** Channels share no subscription. */
  ghost predicate Disjoint(d: Tables) {
    forall a, b :: a in d.channels && b in d.channels && a != b ==> d.channels[a] !! d.channels[b]
  }

  /** Subscriptions and groups are kept for exactly the uids the channels serve. */
  ghost predicate Matched(d: Tables) {
    && (forall uid :: uid in d.subscriptions <==> Served(d, uid))
    && (forall uid :: uid in d.groups <==> Served(d, uid))
    && (forall uid :: uid in d.subscriptions ==> d.subscriptions[uid].uid == uid)
  }

  /** Every group ever started is registered under one uid and was not closed, or is registered nowhere and was closed
      once. */
  ghost predicate ClosedOnce(d: Tables) {
    && (forall uid :: uid in d.groups ==> d.groups[uid] < |d.closes|)
    && (forall u, v :: u in d.groups && v in d.groups && u != v ==> d.groups[u] != d.groups[v])
    && (forall g :: 0 <= g < |d.closes| ==> d.closes[g] == if Registered(d, g) then 0 else 1)
  }

  ghost predicate Agree(d: Tables) {
    Disjoint(d) && Matched(d) && ClosedOnce(d)
  }

  /** What an operation on one channel leaves alone: the other channels, and the group of every other uid still
      served. */
  ghost predicate Spares(d: Tables, d': Tables, ch: ChannelRef, uids: set<UID>) {
    && (forall c :: c != ch ==> (c in d'.channels <==> c in d.channels))
    && (forall c :: c != ch && c in d.channels ==> d'.channels[c] == d.channels[c])
    && (forall u :: u !in uids ==> (u in d'.groups <==> u in d.groups))
    && (forall u :: u !in uids && u in d.groups ==> d'.groups[u] == d.groups[u])
    && (forall u :: u !in uids ==> (u in d'.subscriptions <==> u in d.subscriptions))
    && (forall u :: u !in uids && u in d.subscriptions ==> d'.subscriptions[u] == d.subscriptions[u])
  }

  lemma SubscribeServes(d: Tables, ch: ChannelRef, sub: Subscription, startFails: bool, uid: UID)
    ensures Served(Subscribe(d, ch, sub, startFails), uid) <==> Served(d, uid) || (uid == sub.uid && !startFails)
  {
    var d' := Subscribe(d, ch, sub, startFails);
    if Served(d, uid) {
      var c :| c in d.channels && uid in d.channels[c];
      assert c in d'.channels && uid in d'.channels[c];
    }
    if uid == sub.uid && !startFails { assert ch in d'.channels && uid in d'.channels[ch]; }
    if Served(d', uid) {
      var c :| c in d'.channels && uid in d'.channels[c];
      if uid != sub.uid || startFails { assert c in d.channels && uid in d.channels[c]; }
    }
  }

  lemma SubscribeRegisters(d: Tables, ch: ChannelRef, sub: Subscription, g: nat)
    requires Agree(d) && sub.uid !in d.groups
    ensures Registered(Subscribe(d, ch, sub, false), g) <==> Registered(d, g) || g == |d.closes|
  {
    hide Served;
    var d' := Subscribe(d, ch, sub, false);
    assert d'.groups[sub.uid] == |d.closes|;
    if Registered(d, g) {
      var u :| u in d.groups && d.groups[u] == g;
      assert u in d'.groups && d'.groups[u] == g;
    }
    if Registered(d', g) {
      var u :| u in d'.groups && d'.groups[u] == g;
      assert u != sub.uid ==> u in d.groups && d.groups[u] == g;
    }
  }

  lemma SubscribeClosesOnce(d: Tables, ch: ChannelRef, sub: Subscription, startFails: bool)
    requires Agree(d) && sub.uid !in d.groups
    ensures ClosedOnce(Subscribe(d, ch, sub, startFails))
  {
    hide Served, Registered, Matched, Disjoint;
    var d' := Subscribe(d, ch, sub, startFails);
    if startFails {
      forall g: nat ensures Registered(d', g) <==> Registered(d, g) { SameGroups(d, d', g); }
    } else {
      forall g: nat ensures Registered(d', g) <==> Registered(d, g) || g == |d.closes| {
        SubscribeRegisters(d, ch, sub, g);
      }
    }
  }

  /** Subscribing a uid that no channel serves keeps the tables in agreement, whether or not its group starts. */
  lemma SubscribeKeepsAgreement(d: Tables, ch: ChannelRef, sub: Subscription, startFails: bool)
    requires Agree(d) && sub.uid !in d.groups
    ensures var d' := Subscribe(d, ch, sub, startFails);
            && Agree(d') && Spares(d, d', ch, {sub.uid})
            && ch in d'.channels && SubsOf(d', ch) == SubsOf(d, ch) + (if startFails then {} else {sub.uid})
            && (!startFails ==> Recorded(d, d', sub))
            && (startFails ==> d'.groups == d.groups && d'.subscriptions == d.subscriptions && d'.closes == d.closes)
  {
    hide Served, Registered, ClosedOnce;
    var d' := Subscribe(d, ch, sub, startFails);
    forall uid ensures Served(d', uid) <==> Served(d, uid) || (uid == sub.uid && !startFails) {
      SubscribeServes(d, ch, sub, startFails, uid);
    }
    forall c | c in d.channels ensures sub.uid !in d.channels[c] { ServedBy(d, c, sub.uid); }
    SubscribeClosesOnce(d, ch, sub, startFails);
  }

  lemma ServedBy(d: Tables, c: ChannelRef, uid: UID)
    requires c in d.channels
    ensures uid in d.channels[c] ==> Served(d, uid)
  {
  }

  lemma SameGroups(d: Tables, d': Tables, g: nat)
    requires d.groups == d'.groups
    ensures Registered(d', g) <==> Registered(d, g)
  {
  }

  lemma UnsubscribeServes(d: Tables, ch: ChannelRef, uid: UID, u: UID)
    requires Agree(d) && uid in SubsOf(d, ch)
    ensures Served(Unsubscribe(d, ch, uid), u) <==> Served(d, u) && u != uid
  {
    var d' := Unsubscribe(d, ch, uid);
    if Served(d, u) && u != uid {
      var c :| c in d.channels && u in d.channels[c];
      assert c == ch ==> u in d.channels[ch] - {uid};
      assert c in d'.channels && u in d'.channels[c];
    }
    if Served(d', u) {
      var c :| c in d'.channels && u in d'.channels[c];
      assert c in d.channels && u in d.channels[c];
    }
  }

  lemma UnsubscribeClosesOnce(d: Tables, ch: ChannelRef, uid: UID)
    requires Agree(d) && uid in SubsOf(d, ch)
    ensures var d' := Unsubscribe(d, ch, uid);
            && ClosedOnce(d') && d'.groups == d.groups - {uid}
            && uid in d.groups && |d'.closes| == |d.closes| && d'.closes[d.groups[uid]] == 1
            && forall g :: 0 <= g < |d.closes| && g != d.groups[uid] ==> d'.closes[g] == d.closes[g]
  {
    hide Served, Registered, Disjoint;
    var d' := Unsubscribe(d, ch, uid);
    ServedBy(d, ch, uid);
    forall g: nat ensures Registered(d', g) <==> Registered(d, g) && g != d.groups[uid] {
      UnsubscribeRegisters(d, d', uid, g);
    }
    RegisteredBy(d, uid);
  }

  /** Unsubscribing a uid of the channel keeps the tables in agreement and closes its group, once. */
  lemma UnsubscribeKeepsAgreement(d: Tables, ch: ChannelRef, uid: UID)
    requires Agree(d) && uid in SubsOf(d, ch)
    ensures var d' := Unsubscribe(d, ch, uid);
            && Agree(d') && Spares(d, d', ch, {uid})
            && SubsOf(d', ch) == SubsOf(d, ch) - {uid} && (ch in d'.channels <==> SubsOf(d', ch) != {})
            && uid in d.groups && |d'.closes| == |d.closes| && d'.closes[d.groups[uid]] == 1
            && forall g :: 0 <= g < |d.closes| && g != d.groups[uid] ==> d'.closes[g] == d.closes[g]
  {
    hide Served, Registered, ClosedOnce, Matched, Disjoint;
    UnsubscribeClosesOnce(d, ch, uid);
    UnsubscribeMatches(d, ch, uid);
  }

  /** Whatever the channel, the uid is forgotten; without an entry for the channel nothing else changes, and no group is
      closed. */
  lemma UnsubscribeForgets(d: Tables, ch: ChannelRef, uid: UID)
    ensures var d' := Unsubscribe(d, ch, uid);
            && uid !in d'.subscriptions
            && (ch !in d.channels ==> d' == d.(subscriptions := d'.subscriptions))
            && (forall u :: u in d.subscriptions && u != uid ==>
                  u in d'.subscriptions && d'.subscriptions[u] == d.subscriptions[u])
  {
  }

  lemma UnsubscribeMatches(d: Tables, ch: ChannelRef, uid: UID)
    requires Agree(d) && uid in SubsOf(d, ch)
    requires Unsubscribe(d, ch, uid).groups == d.groups - {uid}
    ensures Disjoint(Unsubscribe(d, ch, uid)) && Matched(Unsubscribe(d, ch, uid))
  {
    hide Served, Registered, ClosedOnce;
    var d' := Unsubscribe(d, ch, uid);
    forall u ensures Served(d', u) <==> Served(d, u) && u != uid {
      UnsubscribeServes(d, ch, uid, u);
    }
  }

  lemma RegisteredBy(d: Tables, uid: UID)
    requires uid in d.groups
    ensures Registered(d, d.groups[uid])
  {
  }

  lemma UnsubscribeRegisters(d: Tables, d': Tables, uid: UID, g: nat)
    requires uid in d.groups && d'.groups == d.groups - {uid}
    requires forall u, v :: u in d.groups && v in d.groups && u != v ==> d.groups[u] != d.groups[v]
    ensures Registered(d', g) <==> Registered(d, g) && g != d.groups[uid]
  {
    if Registered(d', g) {
      var u :| u in d'.groups && d'.groups[u] == g;
      assert u in d.groups && d.groups[u] == g;
    }
    if Registered(d, g) && g != d.groups[uid] {
      var u :| u in d.groups && d.groups[u] == g;
      assert u in d'.groups && d'.groups[u] == g;
    }
  }

  // ----- reconciling a channel -----

  function Uids(subs: seq<Subscription>): set<UID> {
    set i | 0 <= i < |subs| :: subs[i].uid
  }

  predicate DistinctUids(subs: seq<Subscription>) {
    forall i, j :: 0 <= i < j < |subs| ==> subs[i].uid != subs[j].uid
  }

  function AddAll(d: Tables, ch: ChannelRef, subs: seq<Subscription>, startFails: set<UID>): Tables
    decreases subs
  {
    if subs == [] then d else AddAll(Subscribe(d, ch, subs[0], subs[0].uid in startFails), ch, subs[1..], startFails)
  }

  function RemoveAll(d: Tables, ch: ChannelRef, uids: seq<UID>): Tables
    decreases uids
  {
    if uids == [] then d else RemoveAll(Unsubscribe(d, ch, uids[0]), ch, uids[1..])
  }

  /** New subscriptions are added first, in the order the map of them yields; then the ones no longer wanted are
      removed. */
  function Reconcile(
    d: Tables, ch: ChannelRef, added: seq<Subscription>, removed: seq<UID>, startFails: set<UID>): Tables
  {
    RemoveAll(AddAll(d, ch, added, startFails), ch, removed)
  }

  /** Orders in which a reconciliation may visit what is to be added and what is to be removed. */
  predicate Orders(d: Tables, ch: ChannelRef, wanted: seq<Subscription>, added: seq<Subscription>, removed: seq<UID>) {
    && DistinctUids(added) && Uids(added) == Uids(wanted) - SubsOf(d, ch)
    && (forall i :: 0 <= i < |added| ==> added[i] in wanted)
    && Distinct(removed) && Elements(removed) == SubsOf(d, ch) - Uids(wanted)
  }

  /** No wanted uid is served by another channel. */
  ghost predicate UniqueUids(d: Tables, ch: ChannelRef, wanted: seq<Subscription>) {
    forall uid :: uid in Uids(wanted) && uid in d.groups ==> uid in SubsOf(d, ch)
  }

  lemma UidsHead(subs: seq<Subscription>)
    requires subs != []
    ensures Uids(subs) == {subs[0].uid} + Uids(subs[1..])
    ensures DistinctUids(subs) ==> subs[0].uid !in Uids(subs[1..])
  {
    assert forall i :: 1 <= i < |subs| ==> subs[i] == subs[1..][i - 1];
  }

  lemma SparesThen(a: Tables, b: Tables, c: Tables, ch: ChannelRef, s: set<UID>, t: set<UID>)
    requires Spares(a, b, ch, s) && Spares(b, c, ch, t)
    ensures Spares(a, c, ch, s + t)
  {
  }

  /** No group that existed before was closed. */
  ghost predicate ClosesNothing(d: Tables, d': Tables) {
    |d.closes| <= |d'.closes| && forall g :: 0 <= g < |d.closes| ==> d'.closes[g] == d.closes[g]
  }

  lemma {:induction false} AddAllLaw(d: Tables, ch: ChannelRef, subs: seq<Subscription>, startFails: set<UID>)
    requires Agree(d) && DistinctUids(subs) && Uids(subs) !! d.groups.Keys
    ensures var d' := AddAll(d, ch, subs, startFails);
            && Agree(d') && Spares(d, d', ch, Uids(subs)) && ClosesNothing(d, d')
            && SubsOf(d', ch) == SubsOf(d, ch) + (Uids(subs) - startFails)
    decreases subs
  {
    hide Agree, Spares;
    if subs == [] {
      SparesItself(d, ch);
      assert Uids(subs) == {};
    } else {
      var d1 := Subscribe(d, ch, subs[0], subs[0].uid in startFails);
      UidsHead(subs);
      SubscribeKeepsAgreement(d, ch, subs[0], subs[0].uid in startFails);
      SubscribeGroups(d, ch, subs[0], subs[0].uid in startFails);
      AddAllLaw(d1, ch, subs[1..], startFails);
      SparesThen(d, d1, AddAll(d, ch, subs, startFails), ch, {subs[0].uid}, Uids(subs[1..]));
    }
  }

  /** The subscription is kept as given, and served by a group started just now. */
  predicate Recorded(d: Tables, d': Tables, sub: Subscription) {
    && sub.uid in d'.subscriptions && d'.subscriptions[sub.uid] == sub
    && sub.uid in d'.groups && d'.groups[sub.uid] >= |d.closes|
  }

  lemma {:induction false} AddAllRecords(
    d: Tables, ch: ChannelRef, subs: seq<Subscription>, startFails: set<UID>, i: nat)
    requires Agree(d) && DistinctUids(subs) && Uids(subs) !! d.groups.Keys && i < |subs| && subs[i].uid !in startFails
    ensures Recorded(d, AddAll(d, ch, subs, startFails), subs[i])
    decreases subs
  {
    hide Agree, ClosesNothing;
    var d1 := Subscribe(d, ch, subs[0], subs[0].uid in startFails);
    UidsHead(subs);
    SubscribeKeepsAgreement(d, ch, subs[0], subs[0].uid in startFails);
    SubscribeGroups(d, ch, subs[0], subs[0].uid in startFails);
    if i > 0 {
      AddAllRecords(d1, ch, subs[1..], startFails, i - 1);
    } else {
      AddAllLaw(d1, ch, subs[1..], startFails);
    }
  }

  lemma SparesItself(d: Tables, ch: ChannelRef)
    ensures Spares(d, d, ch, {})
  {
  }

  lemma SubscribeGroups(d: Tables, ch: ChannelRef, sub: Subscription, startFails: bool)
    ensures Subscribe(d, ch, sub, startFails).groups.Keys <= d.groups.Keys + {sub.uid}
    ensures ClosesNothing(d, Subscribe(d, ch, sub, startFails))
  {
  }

  lemma {:induction false} RemoveAllLaw(d: Tables, ch: ChannelRef, uids: seq<UID>)
    requires Agree(d) && Distinct(uids) && Elements(uids) <= SubsOf(d, ch)
    ensures var d' := RemoveAll(d, ch, uids);
            && Agree(d') && Spares(d, d', ch, Elements(uids)) && |d'.closes| == |d.closes|
            && SubsOf(d', ch) == SubsOf(d, ch) - Elements(uids)
    decreases uids
  {
    hide Agree, Spares;
    if uids == [] {
      SparesItself(d, ch);
      assert Elements(uids) == {};
    } else {
      var d1 := Unsubscribe(d, ch, uids[0]);
      ElementsHead(uids);
      UnsubscribeKeepsAgreement(d, ch, uids[0]);
      RemoveAllLaw(d1, ch, uids[1..]);
      SparesThen(d, d1, RemoveAll(d, ch, uids), ch, {uids[0]}, Elements(uids[1..]));
    }
  }

  lemma SomethingToDo(added: seq<Subscription>, removed: seq<UID>)
    ensures added != [] ==> Uids(added) != {}
    ensures removed != [] ==> Elements(removed) != {}
  {
    if added != [] { assert added[0].uid in Uids(added); }
    if removed != [] { assert removed[0] in Elements(removed); }
  }

  /** ReconcileConsumers reaches its target whatever the visiting orders and whichever groups cannot be started: the
      channel serves exactly what is wanted less what failed, only newly wanted uids can fail, and everything else,
      including the groups of the subscriptions that stay, is left alone. */
  lemma ReconcileReachesTarget(
    d: Tables, ch: ChannelRef, wanted: seq<Subscription>, added: seq<Subscription>, removed: seq<UID>,
    startFails: set<UID>)
    requires Agree(d) && UniqueUids(d, ch, wanted) && Orders(d, ch, wanted, added, removed)
    ensures var d' := Reconcile(d, ch, added, removed, startFails);
            var failed := Uids(added) * startFails;
            && Agree(d')
            && SubsOf(d', ch) == Uids(wanted) - failed
            && failed <= Uids(wanted) - SubsOf(d, ch)
            && Spares(d, d', ch, Uids(added) + Elements(removed))
            && (forall i :: 0 <= i < |added| && added[i].uid !in startFails ==> Recorded(d, d', added[i]))
            && (SubsOf(d, ch) == Uids(wanted) ==> d' == d && failed == {})
  {
    hide Agree, Spares, Served, Registered;
    forall uid | uid in Uids(added) ensures uid !in d.groups {
      assert uid in Uids(wanted) && uid !in SubsOf(d, ch);
    }
    AddAllLaw(d, ch, added, startFails);
    var d1 := AddAll(d, ch, added, startFails);
    RemoveAllLaw(d1, ch, removed);
    SparesThen(d, d1, RemoveAll(d1, ch, removed), ch, Uids(added), Elements(removed));
    forall i | 0 <= i < |added| && added[i].uid !in startFails
      ensures Recorded(d, RemoveAll(d1, ch, removed), added[i])
    {
      AddAllRecords(d, ch, added, startFails, i);
      assert added[i].uid in Uids(added);
      SparedIsRecorded(d, d1, RemoveAll(d1, ch, removed), ch, Elements(removed), added[i]);
    }
    if SubsOf(d, ch) == Uids(wanted) {
      SomethingToDo(added, removed);
    }
  }

  lemma SparedIsRecorded(d: Tables, d1: Tables, d2: Tables, ch: ChannelRef, uids: set<UID>, sub: Subscription)
    requires Recorded(d, d1, sub) && Spares(d1, d2, ch, uids) && sub.uid !in uids
    ensures Recorded(d, d2, sub)
  {
  }

  // ----- cleaning up a channel -----

  /** Uids are unsubscribed one by one; the first whose group cannot be closed ends the run. */
  function Cleanup(d: Tables, ch: ChannelRef, uids: seq<UID>, closeFails: set<UID>): (Tables, bool)
    decreases uids
  {
    if uids == [] then (d, true)
    else
      var d1 := Unsubscribe(d, ch, uids[0]);
      if uids[0] in closeFails then (d1, false) else Cleanup(d1, ch, uids[1..], closeFails)
  }

  /** The first uid whose group cannot be closed has index n. */
  predicate StopsAt(uids: seq<UID>, closeFails: set<UID>, n: nat) {
    n < |uids| && uids[n] in closeFails && forall i :: 0 <= i < n ==> uids[i] !in closeFails
  }

  /** Even if it ends early, cleaning up keeps the tables in agreement; if it does not, the channel is gone. */
  lemma {:induction false} CleanupLaw(d: Tables, ch: ChannelRef, uids: seq<UID>, closeFails: set<UID>)
    requires Agree(d) && Distinct(uids) && Elements(uids) <= SubsOf(d, ch)
    ensures var (d', ok) := Cleanup(d, ch, uids, closeFails);
            && Agree(d') && Spares(d, d', ch, Elements(uids))
            && SubsOf(d, ch) - Elements(uids) <= SubsOf(d', ch) <= SubsOf(d, ch)
            && (ok ==> SubsOf(d', ch) == SubsOf(d, ch) - Elements(uids))
            && (ok <==> Elements(uids) !! closeFails)
            && (!ok ==>
                  exists n: nat ::
                    StopsAt(uids, closeFails, n) && SubsOf(d', ch) == SubsOf(d, ch) - Elements(uids[..n + 1]))
    decreases uids
  {
    hide Agree, Spares;
    if uids == [] {
      SparesItself(d, ch);
      assert Elements(uids) == {};
    } else {
      var d1 := Unsubscribe(d, ch, uids[0]);
      ElementsHead(uids);
      UnsubscribeKeepsAgreement(d, ch, uids[0]);
      assert uids[0] in Elements(uids) && uids[0] !in SubsOf(d1, ch);
      if uids[0] !in closeFails {
        CleanupLaw(d1, ch, uids[1..], closeFails);
        var (d', ok) := Cleanup(d, ch, uids, closeFails);
        if !ok { StopsLater(d1, d, ch, uids, closeFails, d'); }
        SparesThen(d, d1, Cleanup(d, ch, uids, closeFails).0, ch, {uids[0]}, Elements(uids[1..]));
      } else {
        assert uids[..0 + 1] == [uids[0]] && Elements([uids[0]]) == {uids[0]};
        assert StopsAt(uids, closeFails, 0);
        SparesThen(d, d1, d1, ch, {uids[0]}, Elements(uids[1..])) by { SparesMore(d1, ch, Elements(uids[1..])); }
      }
    }
  }

  lemma StopsLater(d1: Tables, d: Tables, ch: ChannelRef, uids: seq<UID>, closeFails: set<UID>, d': Tables)
    requires uids != [] && uids[0] !in closeFails && SubsOf(d1, ch) == SubsOf(d, ch) - {uids[0]}
    requires exists n: nat ::
               && StopsAt(uids[1..], closeFails, n)
               && SubsOf(d', ch) == SubsOf(d1, ch) - Elements(uids[1..][..n + 1])
    ensures exists n: nat :: StopsAt(uids, closeFails, n) && SubsOf(d', ch) == SubsOf(d, ch) - Elements(uids[..n + 1])
  {
    var n: nat :| && StopsAt(uids[1..], closeFails, n)
                  && SubsOf(d', ch) == SubsOf(d1, ch) - Elements(uids[1..][..n + 1]);
    assert uids[..n + 2] == [uids[0]] + uids[1..][..n + 1];
    assert Elements(uids[..n + 2]) == {uids[0]} + Elements(uids[1..][..n + 1]) by {
      ElementsHead(uids[..n + 2]);
      assert uids[..n + 2][1..] == uids[1..][..n + 1];
    }
    assert StopsAt(uids, closeFails, n + 1);
  }

  lemma SparesMore(d: Tables, ch: ChannelRef, uids: set<UID>)
    ensures Spares(d, d, ch, uids)
  {
  }

  // ----- runs -----

  datatype Step =
    | Reconciling(ch: ChannelRef, wanted: seq<Subscription>, added: seq<Subscription>, removed: seq<UID>,
        startFails: set<UID>)
    | Cleaning(ch: ChannelRef, uids: seq<UID>, closeFails: set<UID>)

  ghost predicate Allowed(d: Tables, s: Step) {
    match s
    case Reconciling(ch, wanted, added, removed, _) =>
      UniqueUids(d, ch, wanted) && Orders(d, ch, wanted, added, removed)
    case Cleaning(ch, uids, _) => Distinct(uids) && Elements(uids) == SubsOf(d, ch)
  }

  function Next(d: Tables, s: Step): Tables {
    match s
    case Reconciling(ch, _, added, removed, startFails) => Reconcile(d, ch, added, removed, startFails)
    case Cleaning(ch, uids, closeFails) => Cleanup(d, ch, uids, closeFails).0
  }

  ghost predicate IsRun(d: Tables, steps: seq<Step>)
    decreases steps
  {
    steps != [] ==> Allowed(d, steps[0]) && IsRun(Next(d, steps[0]), steps[1..])
  }

  function Reached(d: Tables, steps: seq<Step>): Tables
    decreases steps
  {
    if steps == [] then d else Reached(Next(d, steps[0]), steps[1..])
  }

  /** Over every run the tables stay in agreement: every group ever started is either registered under one uid or has
      been closed exactly once, despite failing starts, failing closes and interrupted clean-ups. */
  lemma {:induction false} RunsKeepAgreement(d: Tables, steps: seq<Step>)
    requires Agree(d) && IsRun(d, steps)
    ensures Agree(Reached(d, steps))
    decreases steps
  {
    hide Agree;
    if steps != [] {
      match steps[0] {
        case Reconciling(ch, wanted, added, removed, startFails) =>
          ReconcileReachesTarget(d, ch, wanted, added, removed, startFails);
        case Cleaning(ch, uids, closeFails) => CleanupLaw(d, ch, uids, closeFails);
      }
      RunsKeepAgreement(Next(d, steps[0]), steps[1..]);
    }
  }

  lemma EmptyTablesAgree()
    ensures Agree(Tables(map[], map[], map[], []))
  {
  }

  // ----- the object -----

  /** The subscription is the last entry of its uid in a configuration; later entries win. */
  ghost predicate IsLast(wanted: seq<Subscription>, sub: Subscription) {
    exists i :: IsLastAt(wanted, sub, i)
  }

  predicate IsLastAt(wanted: seq<Subscription>, sub: Subscription, i: int) {
    0 <= i < |wanted| && wanted[i] == sub && sub.uid !in Uids(wanted[i + 1..])
  }

  function LastSpec(wanted: seq<Subscription>, uid: UID): (sub: Subscription)
    requires uid in Uids(wanted)
    ensures sub in wanted && sub.uid == uid && IsLast(wanted, sub)
  {
    hide IsLast;
    UidsHead(wanted);
    if uid in Uids(wanted[1..]) then
      var sub := LastSpec(wanted[1..], uid);
      LastOfTail(wanted, sub);
      sub
    else
      FirstIsLast(wanted);
      wanted[0]
  }

  lemma FirstIsLast(wanted: seq<Subscription>)
    requires wanted != [] && wanted[0].uid !in Uids(wanted[1..])
    ensures IsLast(wanted, wanted[0])
  {
    hide Uids;
    assert IsLastAt(wanted, wanted[0], 0);
  }

  lemma LastOfTail(wanted: seq<Subscription>, sub: Subscription)
    requires wanted != [] && IsLast(wanted[1..], sub)
    ensures IsLast(wanted, sub)
  {
    hide Uids;
    var i :| IsLastAt(wanted[1..], sub, i);
    assert wanted[1..][i + 1..] == wanted[i + 2..];
    assert IsLastAt(wanted, sub, i + 1);
  }

  function Specs(wanted: seq<Subscription>, uids: seq<UID>): (r: seq<Subscription>)
    requires Elements(uids) <= Uids(wanted)
    ensures |r| == |uids|
    ensures forall i :: 0 <= i < |r| ==> r[i].uid == uids[i] && r[i] in wanted && IsLast(wanted, r[i])
  {
    hide IsLast, Uids, Elements, LastSpec;
    if uids == [] then []
    else
      ElementsHead(uids);
      [LastSpec(wanted, uids[0])] + Specs(wanted, uids[1..])
  }

  class KafkaDispatcher {
    var channels: map<ChannelRef, set<UID>>
    var subscriptions: map<UID, Subscription>
    var groups: map<UID, nat>
    var closes: seq<nat>

    constructor ()
      ensures View() == Tables(map[], map[], map[], []) && Agree(View())
    {
      channels, subscriptions, groups, closes := map[], map[], map[], [];
    }

    function View(): Tables
      reads this
    {
      Tables(channels, subscriptions, groups, closes)
    }

    method SubscribeTo(ch: ChannelRef, sub: Subscription, startFails: bool) returns (ok: bool)
      modifies this
      ensures ok == !startFails && View() == Subscribe(old(View()), ch, sub, startFails)
    {
      if ch !in channels {
        channels := channels[ch := {}];
      }
      if startFails {
        return false;
      }
      channels := channels[ch := channels[ch] + {sub.uid}];
      subscriptions := subscriptions[sub.uid := sub];
      groups, closes := groups[sub.uid := |closes|], closes + [0];
      return true;
    }

    method UnsubscribeFrom(ch: ChannelRef, uid: UID, closeFails: bool) returns (ok: bool)
      requires uid in groups ==> groups[uid] < |closes|
      modifies this
      ensures View() == Unsubscribe(old(View()), ch, uid)
      ensures ok == !(closeFails && ch in old(channels) && uid in old(groups))
    {
      subscriptions := subscriptions - {uid};
      if ch !in channels {
        return true;
      }
      channels := channels[ch := channels[ch] - {uid}];
      if channels[ch] == {} {
        channels := channels - {ch};
      }
      if uid in groups {
        var g := groups[uid];
        groups := groups - {uid};
        closes := closes[g := closes[g] + 1];
        return !closeFails;
      }
      return true;
    }

    method AddSubscriptions(ch: ChannelRef, subs: seq<Subscription>, startFails: set<UID>) returns (failed: set<UID>)
      modifies this
      ensures View() == AddAll(old(View()), ch, subs, startFails)
      ensures failed == Uids(subs) * startFails
    {
      hide Subscribe;
      failed := {};
      for i := 0 to |subs|
        invariant AddAll(old(View()), ch, subs, startFails) == AddAll(View(), ch, subs[i..], startFails)
        invariant failed == Uids(subs[..i]) * startFails
      {
        var ok := SubscribeTo(ch, subs[i], subs[i].uid in startFails);
        UidsStep(subs, i);
        if !ok {
          failed := failed + {subs[i].uid};
        }
        assert subs[i..][0] == subs[i] && subs[i..][1..] == subs[i + 1..];
      }
      assert subs[..|subs|] == subs;
    }

    method RemoveSubscriptions(ch: ChannelRef, uids: seq<UID>, closeFails: set<UID>)
      requires Agree(View()) && Distinct(uids) && Elements(uids) <= SubsOf(View(), ch)
      modifies this
      ensures View() == RemoveAll(old(View()), ch, uids)
    {
      hide Agree, Unsubscribe, Spares;
      for i := 0 to |uids|
        invariant Agree(View()) && Elements(uids[i..]) <= SubsOf(View(), ch)
        invariant RemoveAll(old(View()), ch, uids) == RemoveAll(View(), ch, uids[i..])
      {
        ElementsHead(uids[i..]);
        assert uids[i..][0] == uids[i] && uids[i..][1..] == uids[i + 1..];
        UnsubscribeKeepsAgreement(View(), ch, uids[i]);
        GroupsInRange(View());
        assert uids[i] !in Elements(uids[i + 1..]);
        var _ := UnsubscribeFrom(ch, uids[i], uids[i] in closeFails);
      }
    }

    /** Reconcile a channel with its configuration. The orders are those in which the map of new subscriptions and the
        set of old ones are visited. */
    method ReconcileConsumers(
      ch: ChannelRef, wanted: seq<Subscription>, addOrder: seq<UID>, removeOrder: seq<UID>, startFails: set<UID>,
      closeFails: set<UID>)
      returns (failed: set<UID>)
      requires Agree(View()) && UniqueUids(View(), ch, wanted)
      requires Distinct(addOrder) && Elements(addOrder) == Uids(wanted) - SubsOf(View(), ch)
      requires Distinct(removeOrder) && Elements(removeOrder) == SubsOf(View(), ch) - Uids(wanted)
      modifies this
      ensures View() == Reconcile(old(View()), ch, Specs(wanted, addOrder), removeOrder, startFails)
      ensures Agree(View()) && SubsOf(View(), ch) == Uids(wanted) - failed
      ensures failed == (Uids(wanted) - old(SubsOf(View(), ch))) * startFails
      ensures Spares(old(View()), View(), ch, Elements(addOrder) + Elements(removeOrder))
      ensures forall uid :: uid in Uids(wanted) && uid !in old(SubsOf(View(), ch)) && uid !in failed ==>
                && uid in subscriptions && subscriptions[uid].uid == uid && IsLast(wanted, subscriptions[uid])
                && uid in groups && groups[uid] >= |old(closes)|
      ensures old(SubsOf(View(), ch)) == Uids(wanted) ==> View() == old(View()) && failed == {}
    {
      hide Agree, Spares, UniqueUids, AddAll, RemoveAll;
      ghost var d := View();
      var toAdd := Specs(wanted, addOrder);
      SpecsUids(wanted, addOrder);
      ReconcileReachesTarget(d, ch, wanted, toAdd, removeOrder, startFails);
      assert Uids(toAdd) !! d.groups.Keys by { NewUids(d, ch, wanted, toAdd); }
      AddAllLaw(d, ch, toAdd, startFails);
      failed := AddSubscriptions(ch, toAdd, startFails);
      RemoveSubscriptions(ch, removeOrder, closeFails);
      forall uid | uid in Uids(wanted) && uid !in SubsOf(d, ch) && uid !in failed
        ensures exists i :: 0 <= i < |toAdd| && toAdd[i].uid == uid && uid !in startFails
      {
        assert uid in Uids(toAdd);
      }
    }

    /** Remove all subscriptions of a channel; the first group that cannot be closed ends the call. */
    method CleanupChannel(ch: ChannelRef, order: seq<UID>, closeFails: set<UID>) returns (ok: bool)
      requires Agree(View()) && Distinct(order) && Elements(order) == SubsOf(View(), ch)
      modifies this
      ensures (View(), ok) == Cleanup(old(View()), ch, order, closeFails)
      ensures Agree(View()) && (ok ==> SubsOf(View(), ch) == {})
    {
      hide Agree, Unsubscribe, Spares;
      ghost var d := View();
      CleanupLaw(d, ch, order, closeFails);
      if ch !in channels {
        SomethingToDo([], order);
        return true;
      }
      for i := 0 to |order|
        invariant Agree(View()) && Elements(order[i..]) <= SubsOf(View(), ch)
        invariant Cleanup(d, ch, order, closeFails) == Cleanup(View(), ch, order[i..], closeFails)
      {
        ElementsHead(order[i..]);
        assert order[i..][0] == order[i] && order[i..][1..] == order[i + 1..];
        UnsubscribeKeepsAgreement(View(), ch, order[i]);
        GroupsInRange(View());
        assert order[i] !in Elements(order[i + 1..]);
        var done := UnsubscribeFrom(ch, order[i], order[i] in closeFails);
        if !done {
          return false;
        }
      }
      return true;
    }
  }

  lemma UidsStep(subs: seq<Subscription>, i: nat)
    requires i < |subs|
    ensures Uids(subs[..i + 1]) == Uids(subs[..i]) + {subs[i].uid}
  {
    assert forall j :: 0 <= j < i ==> subs[..i + 1][j] == subs[..i][j];
    assert subs[..i + 1][i] == subs[i];
  }

  lemma GroupsInRange(d: Tables)
    requires Agree(d)
    ensures forall uid :: uid in d.groups ==> d.groups[uid] < |d.closes|
  {
  }

  lemma SpecsUids(wanted: seq<Subscription>, uids: seq<UID>)
    requires Elements(uids) <= Uids(wanted) && Distinct(uids)
    ensures Uids(Specs(wanted, uids)) == Elements(uids) && DistinctUids(Specs(wanted, uids))
  {
    hide Specs;
    var r := Specs(wanted, uids);
    forall x ensures x in Uids(r) <==> x in Elements(uids) {
      if i :| 0 <= i < |r| && r[i].uid == x { assert uids[i] == x; }
      if i :| 0 <= i < |uids| && uids[i] == x { assert r[i].uid == x; }
    }
  }

  lemma NewUids(d: Tables, ch: ChannelRef, wanted: seq<Subscription>, added: seq<Subscription>)
    requires UniqueUids(d, ch, wanted) && Uids(added) == Uids(wanted) - SubsOf(d, ch)
    ensures Uids(added) !! d.groups.Keys
  {
    forall uid | uid in Uids(added) ensures uid !in d.groups {
      assert uid in Uids(wanted) && uid !in SubsOf(d, ch);
    }
  }
}
