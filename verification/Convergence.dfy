/** Agreement and quiescence of the gossip store over whole runs. */
module Convergence {
  import opened Records
  import opened Codec
  import opened Lww
  import opened Delegate
  import opened Gossip

  function KeyStamps(its: set<Item>, k: Bytes): set<Stamp> {
    set it | it in its && it.key == k :: Stamp(it.value, it.time)
  }

  /** Node `i` sets the key with a stamp before that of the entry it replaces. */
  predicate Stale(s: Cluster, e: Event, i: Id, k: Bytes) {
    && e.Set? && e.i == i && e.key == k && i in s.members
    && k in s.members[i].peer.kv && !Repeats(s.members[i], k, e.value) && e.now < s.members[i].peer.kv[k].time
  }

  ghost function StaleSets(s: Cluster, es: seq<Event>, i: Id, k: Bytes): nat
    requires Valid(s, es)
    decreases |es|
  {
    if es == [] then 0
    else (if Stale(s, es[0], i, k) then 1 else 0) + StaleSets(Next(s, es[0]), es[1..], i, k)
  }

  /** Everything stored, seen or under way was set by somebody. */
  predicate Sourced(m: Member, origin: set<Item>) {
    m.seen <= origin && forall k :: k in m.peer.kv ==> Item(k, m.peer.kv[k].time, m.peer.kv[k].value) in origin
  }

  predicate NetSourced(net: set<Packet>, origin: set<Item>) {
    forall p :: p in net ==> forall n :: 0 <= n < |p.items| ==> p.items[n] in origin
  }

  predicate OriginOk(s: Cluster) {
    NetSourced(s.net, s.origin) && forall i :: i in s.members ==> Sourced(s.members[i], s.origin)
  }

  /** The node holds the value with the greatest timestamps it has seen. */
  predicate Holds(m: Member, k: Bytes) {
    Reflects(StampAt(m.peer, k), KeyStamps(m.seen, k))
  }

  // ---- taking entries -----------------------------------------------------

  lemma OfferStamp(p: Peer, it: Item, k: Bytes)
    ensures StampAt(Offer(p, it), k) ==
            if k == it.key then Merge(StampAt(p, k), Stamp(it.value, it.time)) else StampAt(p, k)
    ensures Fresher(p, it) <==> Accepts(StampAt(p, it.key), Stamp(it.value, it.time))
  {
  }

  lemma KeyStampsAdd(its: set<Item>, it: Item, k: Bytes)
    ensures KeyStamps(its + {it}, k) ==
            if it.key == k then KeyStamps(its, k) + {Stamp(it.value, it.time)} else KeyStamps(its, k)
  {
  }

  lemma KeyStampsMono(a: set<Item>, b: set<Item>, k: Bytes)
    requires a <= b
    ensures KeyStamps(a, k) <= KeyStamps(b, k)
  {
  }

  lemma TakeSourced(m: Member, it: Item, origin: set<Item>)
    requires Sourced(m, origin) && it in origin
    ensures Sourced(Take(m, it), origin)
  {
  }

  lemma TakeHolds(m: Member, it: Item, k: Bytes, origin: set<Item>)
    requires Holds(m, k) && Sourced(m, origin) && it in origin && Separated(KeyStamps(origin, k))
    ensures Holds(Take(m, it), k)
  {
    hide Offer, Fresher, Reflects, Separated, StampAt, Merge;
    OfferStamp(m.peer, it, k);
    KeyStampsAdd(m.seen, it, k);
    if it.key == k {
      KeyStampsMono(m.seen + {it}, origin, k);
      SeparatedSubset(KeyStamps(origin, k), KeyStamps(m.seen, k) + {Stamp(it.value, it.time)});
      MergeReflects(StampAt(m.peer, k), Stamp(it.value, it.time), KeyStamps(m.seen, k));
    }
  }

  lemma {:induction false} TakeAllSourced(m: Member, its: seq<Item>, origin: set<Item>)
    requires Sourced(m, origin) && forall n :: 0 <= n < |its| ==> its[n] in origin
    ensures Sourced(TakeAll(m, its), origin)
    decreases |its|
  {
    if its != [] {
      TakeSourced(m, its[0], origin);
      hide Sourced, Take;
      TakeAllSourced(Take(m, its[0]), its[1..], origin);
    }
  }

  lemma {:induction false} TakeAllHolds(m: Member, its: seq<Item>, k: Bytes, origin: set<Item>)
    requires Sourced(m, origin) && forall n :: 0 <= n < |its| ==> its[n] in origin
    requires Holds(m, k) && Separated(KeyStamps(origin, k))
    ensures Holds(TakeAll(m, its), k)
    decreases |its|
  {
    hide Sourced, Take, Holds, Separated;
    if its != [] {
      TakeSourced(m, its[0], origin);
      TakeHolds(m, its[0], k, origin);
      TakeAllHolds(Take(m, its[0]), its[1..], k, origin);
    }
  }

  // ---- one step -----------------------------------------------------------

  lemma SourcedMono(m: Member, a: set<Item>, b: set<Item>)
    requires Sourced(m, a) && a <= b
    ensures Sourced(m, b)
  {
  }

  lemma SetSourced(m: Member, key: Bytes, value: Bytes, now: int, origin: set<Item>)
    requires Sourced(m, origin)
    ensures Repeats(m, key, value) ==> Sourced(SetMember(m, key, value, now), origin)
    ensures Sourced(SetMember(m, key, value, now), origin + {Item(key, now, value)})
  {
  }

  lemma SetHolds(m: Member, key: Bytes, value: Bytes, now: int, k: Bytes, origin: set<Item>)
    requires Holds(m, k) && Sourced(m, origin) && Separated(KeyStamps(origin, k))
    requires !Repeats(m, key, value) ==> Item(key, now, value) in origin
    requires key == k && k in m.peer.kv && !Repeats(m, k, value) ==> m.peer.kv[k].time <= now
    ensures Holds(SetMember(m, key, value, now), k)
  {
    if !Repeats(m, key, value) {
      var it := Item(key, now, value);
      SetIsTake(m, it, k);
      hide Repeats, SetMember, SetLocal, Sourced, StampAt, Separated;
      TakeHolds(m, it, k, origin);
    }
  }

  /** For its own key a fresh set is a merge. */
  lemma SetIsTake(m: Member, it: Item, k: Bytes)
    requires !Repeats(m, it.key, it.value)
    requires it.key == k && k in m.peer.kv ==> m.peer.kv[k].time <= it.time
    ensures StampAt(SetMember(m, it.key, it.value, it.time).peer, k) == StampAt(Take(m, it).peer, k)
    ensures SetMember(m, it.key, it.value, it.time).seen == Take(m, it).seen
  {
  }

  lemma PushSourced(p: Peer, order: seq<Bytes>, origin: set<Item>)
    requires Orders(order, p.kv.Keys)
    requires forall k :: k in p.kv ==> Item(k, p.kv[k].time, p.kv[k].value) in origin
    ensures forall n :: 0 <= n < |Snapshot(p, order)| ==> Snapshot(p, order)[n] in origin
  {
  }

  lemma NextOrigin(s: Cluster, e: Event)
    requires Enabled(s, e) && OriginOk(s)
    ensures OriginOk(Next(s, e)) && s.origin <= Next(s, e).origin
  {
    hide Fresher, TakeAll, SetMember, Repeats, Sourced, Snapshot;
    match e {
      case Set(i, key, value, now) =>
        SetSourced(s.members[i], key, value, now, s.origin);
        forall j | j in s.members
          ensures Sourced(s.members[j], s.origin + {Item(key, now, value)})
        {
          SourcedMono(s.members[j], s.origin, s.origin + {Item(key, now, value)});
        }
      case Deliver(p, to) => TakeAllSourced(s.members[to], p.items, s.origin);
      case Push(i, order) =>
        SourcedKv(s.members[i], s.origin);
        PushSourced(s.members[i].peer, order, s.origin);
      case _ => FlagSourced(s.members[e.i], Next(s, e).members[e.i], s.origin);
    }
  }

  lemma SourcedKv(m: Member, origin: set<Item>)
    requires Sourced(m, origin)
    ensures forall k :: k in m.peer.kv ==> Item(k, m.peer.kv[k].time, m.peer.kv[k].value) in origin
  {
  }

  lemma FlagSourced(m: Member, m': Member, origin: set<Item>)
    requires Sourced(m, origin) && m'.peer.kv == m.peer.kv && m'.seen == m.seen
    ensures Sourced(m', origin)
  {
  }

  lemma FlagHolds(m: Member, m': Member, k: Bytes)
    requires Holds(m, k) && m'.peer.kv == m.peer.kv && m'.seen == m.seen
    ensures Holds(m', k)
  {
  }

  lemma NextHolds(s: Cluster, e: Event, k: Bytes, i: Id)
    requires Enabled(s, e) && OriginOk(s) && !Stale(s, e, i, k)
    requires i in s.members && Holds(s.members[i], k)
    requires Separated(KeyStamps(Next(s, e).origin, k))
    ensures i in Next(s, e).members && Holds(Next(s, e).members[i], k)
  {
    hide Fresher, TakeAll, SetMember, Repeats, Sourced, Snapshot, Holds, Separated, KeyStamps;
    var origin := Next(s, e).origin;
    NextOrigin(s, e);
    SourcedMono(s.members[i], s.origin, origin);
    match e {
      case Set(j, key, value, now) =>
        if i == j { SetHolds(s.members[i], key, value, now, k, origin); }
      case Deliver(p, to) =>
        if i == to { TakeAllHolds(s.members[i], p.items, k, origin); }
      case Push(_, _) =>
      case _ => if e.i == i { FlagHolds(s.members[i], Next(s, e).members[i], k); }
    }
  }

  // ---- whole runs ---------------------------------------------------------

  lemma {:induction false} RunOrigin(s: Cluster, es: seq<Event>)
    requires Valid(s, es) && OriginOk(s)
    ensures OriginOk(Run(s, es)) && s.origin <= Run(s, es).origin
    decreases |es|
  {
    hide Next, Enabled, OriginOk;
    if es != [] {
      NextOrigin(s, es[0]);
      RunOrigin(Next(s, es[0]), es[1..]);
    }
  }

  /** Node `i` holds the value with the greatest timestamps it has seen in every state of the run. */
  ghost predicate HoldsThroughout(s: Cluster, es: seq<Event>, i: Id, k: Bytes)
    requires Valid(s, es)
    decreases |es|
  {
    && i in s.members && Holds(s.members[i], k)
    && (es != [] ==> HoldsThroughout(Next(s, es[0]), es[1..], i, k))
  }

  /** A set keeps its node's value right exactly when it repeats the stored value or
      is stamped no earlier than it. */
  lemma SetHoldsIff(m: Member, k: Bytes, value: Bytes, now: int, origin: set<Item>)
    requires Holds(m, k) && Sourced(m, origin) && Separated(KeyStamps(origin, k))
    requires !Repeats(m, k, value) ==> Item(k, now, value) in origin
    ensures Holds(SetMember(m, k, value, now), k) <==>
            Repeats(m, k, value) || k !in m.peer.kv || m.peer.kv[k].time <= now
  {
    if Repeats(m, k, value) || k !in m.peer.kv || m.peer.kv[k].time <= now {
      SetHolds(m, k, value, now, k, origin);
    } else {
      var old' := Stamp(m.peer.kv[k].value, m.peer.kv[k].time);
      assert old' in KeyStamps(m.seen, k);
      KeyStampsAdd(m.seen, Item(k, now, value), k);
      hide KeyStamps, Separated, Sourced;
      assert old' in KeyStamps(SetMember(m, k, value, now).seen, k);
    }
  }

  lemma StaleStep(s: Cluster, e: Event, i: Id, k: Bytes)
    requires Enabled(s, e) && OriginOk(s) && Stale(s, e, i, k) && Holds(s.members[i], k)
    requires Separated(KeyStamps(Next(s, e).origin, k))
    ensures i in Next(s, e).members && !Holds(Next(s, e).members[i], k)
  {
    SourcedMono(s.members[i], s.origin, Next(s, e).origin);
    hide SetMember, Repeats, Sourced, Holds, Separated, KeyStamps;
    SetHoldsIff(s.members[i], k, e.value, e.now, Next(s, e).origin);
  }

  /** A node's own fresh sets are exactly what it takes: while the entries ever set
      for the key are separated, a node holds the value of the greatest
      timestamps it has seen in every state of a run if and only if none of its
      own sets is stamped before the entry it replaces, whatever the other
      nodes' clocks do. */
  lemma {:induction false} HoldsIffFresh(s: Cluster, es: seq<Event>, i: Id, k: Bytes)
    requires Valid(s, es) && OriginOk(s) && Separated(KeyStamps(Run(s, es).origin, k))
    requires i in s.members && Holds(s.members[i], k)
    ensures HoldsThroughout(s, es, i, k) <==> StaleSets(s, es, i, k) == 0
    decreases |es|
  {
    if es != [] {
      var t := Next(s, es[0]);
      hide Next, Enabled, OriginOk, Holds, Separated, KeyStamps, Stale;
      NextOrigin(s, es[0]);
      RunOrigin(t, es[1..]);
      KeyStampsMono(t.origin, Run(s, es).origin, k);
      SeparatedSubset(KeyStamps(Run(s, es).origin, k), KeyStamps(t.origin, k));
      if Stale(s, es[0], i, k) {
        StaleIn(s, es[0], i, k);
        StaleStep(s, es[0], i, k);
      } else {
        NextHolds(s, es[0], k, i);
        HoldsIffFresh(t, es[1..], i, k);
      }
    }
  }

  lemma StaleIn(s: Cluster, e: Event, i: Id, k: Bytes)
    requires Stale(s, e, i, k)
    ensures e.Set? && i in s.members
  {
  }

  lemma {:induction false} HoldsAtEnd(s: Cluster, es: seq<Event>, i: Id, k: Bytes)
    requires Valid(s, es) && HoldsThroughout(s, es, i, k)
    ensures i in Run(s, es).members && Holds(Run(s, es).members[i], k)
    decreases |es|
  {
    hide Next, Enabled, Holds;
    if es != [] {
      HoldsAtEnd(Next(s, es[0]), es[1..], i, k);
    }
  }

  lemma SameMembers(s: Cluster, e: Event)
    requires Enabled(s, e)
    ensures Next(s, e).members.Keys == s.members.Keys
  {
  }

  /** Every entry anybody set for the key has reached the node. */
  predicate Reached(s: Cluster, i: Id, k: Bytes)
    requires i in s.members
  {
    forall it :: it in s.origin && it.key == k ==> it in s.members[i].seen
  }

  predicate Delivered(s: Cluster, k: Bytes) {
    forall i :: i in s.members ==> Reached(s, i, k)
  }

  lemma StartOk(s0: Cluster, k: Bytes)
    requires Init(s0)
    ensures OriginOk(s0) && forall i :: i in s0.members ==> Holds(s0.members[i], k)
  {
  }

  lemma {:induction false} RunMembers(s: Cluster, es: seq<Event>)
    requires Valid(s, es)
    ensures Run(s, es).members.Keys == s.members.Keys
    decreases |es|
  {
    hide Next, Enabled;
    if es != [] {
      SameMembers(s, es[0]);
      RunMembers(Next(s, es[0]), es[1..]);
    }
  }

  /** One node: its own fresh sets make it store the greatest-timestamp value it has
      seen, and the newest of all once everything has reached it. */
  lemma NodeConverges(s0: Cluster, es: seq<Event>, i: Id, k: Bytes)
    requires Init(s0) && Valid(s0, es) && i in s0.members && StaleSets(s0, es, i, k) == 0
    requires Separated(KeyStamps(Run(s0, es).origin, k))
    ensures var s := Run(s0, es);
            && i in s.members
            && Reflects(StampAt(s.members[i].peer, k), KeyStamps(s.members[i].seen, k))
            && (Reached(s, i, k) ==> KeyStamps(s.members[i].seen, k) == KeyStamps(s.origin, k))
  {
    StartOk(s0, k);
    HoldsIffFresh(s0, es, i, k);
    HoldsAtEnd(s0, es, i, k);
    RunOrigin(s0, es);
    hide Run, Valid, StaleSets, Reflects, Separated, StampAt;
    if Reached(Run(s0, es), i, k) {
      AllSeen(Run(s0, es), i, k);
    }
  }

  /** Convergence: while the entries ever set for a key are separated, every mix,
      order and duplication of sets, messages and merges leaves each node whose
      own sets were fresh with the value of the greatest timestamps it has seen,
      whatever the other clocks do; any two such nodes that have seen the same
      entries agree; and once everything has reached them they store the value
      of the newest entry ever set. */
  lemma Converges(s0: Cluster, es: seq<Event>, i: Id, j: Id, k: Bytes)
    requires Init(s0) && Valid(s0, es) && i in s0.members && j in s0.members
    requires StaleSets(s0, es, i, k) == 0 && StaleSets(s0, es, j, k) == 0
    requires Separated(KeyStamps(Run(s0, es).origin, k))
    ensures var s := Run(s0, es);
            && i in s.members && j in s.members
            && Reflects(StampAt(s.members[i].peer, k), KeyStamps(s.members[i].seen, k))
            && (KeyStamps(s.members[i].seen, k) == KeyStamps(s.members[j].seen, k) ==>
                  SameValue(StampAt(s.members[i].peer, k), StampAt(s.members[j].peer, k)))
            && (Reached(s, i, k) ==> Reflects(StampAt(s.members[i].peer, k), KeyStamps(s.origin, k)))
            && (Reached(s, i, k) && Reached(s, j, k) ==>
                  SameValue(StampAt(s.members[i].peer, k), StampAt(s.members[j].peer, k)))
  {
    NodeConverges(s0, es, i, k);
    NodeConverges(s0, es, j, k);
    var s := Run(s0, es);
    hide Run, Valid, StaleSets, Reflects, Separated, StampAt, KeyStamps;
    if KeyStamps(s.members[i].seen, k) == KeyStamps(s.members[j].seen, k) {
      ReflectsUnique(StampAt(s.members[i].peer, k), StampAt(s.members[j].peer, k), KeyStamps(s.members[i].seen, k));
    }
  }

  /** Reads after delivery: any two reads begun once everything has reached their
      two nodes, however much later they end, return the same value if both
      return one, and find the key absent on both nodes or on neither. */
  lemma ReadsAgree(s0: Cluster, es: seq<Event>, i: Id, j: Id, k: Bytes, later: seq<Event>, late: seq<Event>,
                   expired: bool, expired': bool, r: Answer, r': Answer)
    requires Init(s0) && Valid(s0, es) && i in s0.members && j in s0.members
    requires StaleSets(s0, es, i, k) == 0 && StaleSets(s0, es, j, k) == 0
    requires Separated(KeyStamps(Run(s0, es).origin, k))
    requires i in Run(s0, es).members && Reached(Run(s0, es), i, k)
    requires j in Run(s0, es).members && Reached(Run(s0, es), j, k)
    requires Valid(Run(s0, es), later) && i in Run(Run(s0, es), later).members
    requires Valid(Run(s0, es), late) && j in Run(Run(s0, es), late).members
    requires Returns(Find(Run(s0, es).members[i].peer, k), Run(Run(s0, es), later).members[i].peer.closed, expired, r)
    requires Returns(Find(Run(s0, es).members[j].peer, k), Run(Run(s0, es), late).members[j].peer.closed, expired', r')
    ensures r.Value? && r'.Value? ==> r.value == r'.value
    ensures r.Absent? <==> r'.Absent?
    ensures r.Value? ==> exists st :: Reflects(Some(st), KeyStamps(Run(s0, es).origin, k)) && st.value == r.value
  {
    Converges(s0, es, i, j, k);
    hide Run, Valid, StaleSets, Reflects, Separated, KeyStamps, Reached;
  }

  lemma AllSeen(s: Cluster, i: Id, k: Bytes)
    requires OriginOk(s) && i in s.members && Reached(s, i, k)
    ensures KeyStamps(s.members[i].seen, k) == KeyStamps(s.origin, k)
  {
  }

  /** Fresh local sets are needed: a node whose clock is behind overwrites a newer
      entry at home only, and the two nodes disagree for good although everything
      is delivered and no stamps collide. */
  lemma StaleSetDiverges(x: Id, y: Id, k: Bytes, v: Bytes, w: Bytes, early: int, late: int)
    returns (s0: Cluster, es: seq<Event>)
    requires x != y && v != w && early < late
    ensures Init(s0) && Valid(s0, es) && {x, y} == Run(s0, es).members.Keys
    ensures Separated(KeyStamps(Run(s0, es).origin, k)) && Delivered(Run(s0, es), k)
    ensures StampAt(Run(s0, es).members[x].peer, k) == Some(Stamp(v, early))
    ensures StampAt(Run(s0, es).members[y].peer, k) == Some(Stamp(w, late))
  {
    var a, b := Item(k, late, w), Item(k, early, v);
    var e1, e2 := Set(y, k, w, late), Deliver(Packet(y, [a], false), x);
    var e3, e4 := Set(x, k, v, early), Deliver(Packet(x, [b], false), y);
    var s2, s4;
    s0, s2 := NewerArrives(x, y, k, w, late);
    s4 := OlderSet(s2, x, y, k, v, w, early, late);
    es := [e1, e2, e3, e4];
    FourSteps(s0, Next(s0, e1), s2, Next(s2, e3), s4, e1, e2, e3, e4);
    TwoStamps(a, b, k);
  }

  /** Y sets the newer entry and X receives it. */
  lemma NewerArrives(x: Id, y: Id, k: Bytes, w: Bytes, late: int) returns (s0: Cluster, s2: Cluster)
    requires x != y
    ensures Init(s0)
    ensures var a := Item(k, late, w);
            var e1, e2 := Set(y, k, w, late), Deliver(Packet(y, [a], false), x);
            && Enabled(s0, e1) && Enabled(Next(s0, e1), e2) && s2 == Next(Next(s0, e1), e2)
            && s2.origin == {a} && s2.members.Keys == {x, y}
            && s2.members[x] == Take(Member(EMPTY_PEER, None, map[], {}, {}, {}), a)
            && s2.members[y] == SetMember(Member(EMPTY_PEER, None, map[], {}, {}, {}), k, w, late)
  {
    var m := Member(EMPTY_PEER, None, map[], {}, {}, {});
    s0 := Cluster(map[x := m, y := m], {}, {});
    var a := Item(k, late, w);
    TakeOne(m, a);
    s2 := Next(Next(s0, Set(y, k, w, late)), Deliver(Packet(y, [a], false), x));
  }

  /** X's clock is behind: it sets an older entry, which Y then skips. */
  lemma OlderSet(s2: Cluster, x: Id, y: Id, k: Bytes, v: Bytes, w: Bytes, early: int, late: int) returns (s4: Cluster)
    requires x != y && v != w && early < late && s2.origin == {Item(k, late, w)} && s2.members.Keys == {x, y}
    requires s2.members[x] == Take(Member(EMPTY_PEER, None, map[], {}, {}, {}), Item(k, late, w))
    requires s2.members[y] == SetMember(Member(EMPTY_PEER, None, map[], {}, {}, {}), k, w, late)
    ensures var b := Item(k, early, v);
            var e3, e4 := Set(x, k, v, early), Deliver(Packet(x, [b], false), y);
            && Enabled(s2, e3) && Enabled(Next(s2, e3), e4) && s4 == Next(Next(s2, e3), e4)
            && s4.origin == {Item(k, late, w), b} && s4.members.Keys == {x, y} && Delivered(s4, k)
            && StampAt(s4.members[x].peer, k) == Some(Stamp(v, early))
            && StampAt(s4.members[y].peer, k) == Some(Stamp(w, late))
  {
    var b := Item(k, early, v);
    TakeOne(s2.members[y], b);
    s4 := Next(Next(s2, Set(x, k, v, early)), Deliver(Packet(x, [b], false), y));
  }

  lemma TwoStamps(a: Item, b: Item, k: Bytes)
    requires a.key == b.key == k && a.time != b.time && a.value != b.value
    ensures Separated(KeyStamps({a, b}, k))
  {
    KeyStampsAdd({}, a, k);
    KeyStampsAdd({a}, b, k);
    assert {} + {a} == {a} && {a} + {b} == {a, b};
    assert KeyStamps({}, k) == {};
    hide KeyStamps;
  }

  lemma TakeOne(m: Member, it: Item)
    ensures TakeAll(m, [it]) == Take(m, it)
  {
  }

  lemma FourSteps(s0: Cluster, s1: Cluster, s2: Cluster, s3: Cluster, s4: Cluster,
                  e1: Event, e2: Event, e3: Event, e4: Event)
    requires Enabled(s0, e1) && s1 == Next(s0, e1) && Enabled(s1, e2) && s2 == Next(s1, e2)
    requires Enabled(s2, e3) && s3 == Next(s2, e3) && Enabled(s3, e4) && s4 == Next(s3, e4)
    ensures Valid(s0, [e1, e2, e3, e4]) && Run(s0, [e1, e2, e3, e4]) == s4
  {
    hide Next, Enabled;
    assert [e1, e2, e3, e4][1..] == [e2, e3, e4] && [e2, e3, e4][1..] == [e3, e4];
    assert [e3, e4][1..] == [e4] && [e4][1..] == [];
    assert Valid(s4, []) && Run(s4, []) == s4;
    assert Valid(s3, [e4]) && Run(s3, [e4]) == s4;
    assert Valid(s2, [e3, e4]) && Run(s2, [e3, e4]) == s4;
    assert Valid(s1, [e2, e3, e4]) && Run(s1, [e2, e3, e4]) == s4;
  }
}
