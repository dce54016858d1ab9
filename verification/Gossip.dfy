/** A cluster of gossip nodes as a state machine. Packets may be delivered late,
    repeatedly, in any order or never; a node never receives its own packets.
    Only set messages travel. */
module Gossip {
  import opened Records
  import opened Codec
  import opened Delegate

  /** A broadcast message carries one entry, a push/pull snapshot any number. */
  datatype Packet = Packet(from: Id, items: seq<Item>, snapshot: bool)

  datatype Tag = Tag(key: Bytes, value: Bytes)

  /** A node with its history: what each channel was made for, the entries it ever
      stored, those it was ever offered or set, and the channels confirmed because
      the cluster was seen with one member. `lock` is the channel on which a
      repeated set waits while it keeps the map locked. */
  datatype Member = Member(
    peer: Peer, lock: Option<nat>, owner: map<nat, Tag>, had: set<Item>, seen: set<Item>, solo: set<nat>)

  datatype Cluster = Cluster(members: map<Id, Member>, net: set<Packet>, origin: set<Item>)

  datatype Event =
    | Set(i: Id, key: Bytes, value: Bytes, now: int)
    | Deliver(p: Packet, to: Id)
    | Push(i: Id, order: seq<Bytes>)
    | Lone(i: Id, c: nat)
    | Unlock(i: Id, expired: bool)

  predicate Init(s: Cluster) {
    && s.net == {} && s.origin == {}
    && forall i :: i in s.members ==> s.members[i] == Member(EMPTY_PEER, None, map[], {}, {}, {})
  }

  predicate Enabled(s: Cluster, e: Event) {
    match e
    case Set(i, _, _, _) => i in s.members && s.members[i].lock == None
    case Deliver(p, to) => p in s.net && to in s.members && p.from != to && s.members[to].lock == None
                           && (!p.snapshot ==> |p.items| == 1)
    case Push(i, order) => i in s.members && s.members[i].lock == None && Orders(order, s.members[i].peer.kv.Keys)
    case Lone(i, c) => i in s.members && c < s.members[i].peer.next
    case Unlock(i, expired) =>
      i in s.members && s.members[i].lock.Some? && (expired || s.members[i].lock.value in s.members[i].peer.closed)
  }

  function Take(m: Member, it: Item): Member {
    var stored := Fresher(m.peer, it);
    Member(Offer(m.peer, it), m.lock,
           if stored then m.owner[m.peer.next := Tag(it.key, it.value)] else m.owner,
           if stored then m.had + {it} else m.had,
           m.seen + {it}, m.solo)
  }

  function TakeAll(m: Member, its: seq<Item>): Member
    decreases |its|
  {
    if its == [] then m else TakeAll(Take(m, its[0]), its[1..])
  }

  predicate Repeats(m: Member, key: Bytes, value: Bytes) {
    key in m.peer.kv && m.peer.kv[key].value == value
  }

  function SetMember(m: Member, key: Bytes, value: Bytes, now: int): Member {
    if Repeats(m, key, value) then m.(lock := Some(m.peer.kv[key].chan))
    else
      var it := Item(key, now, value);
      Member(SetLocal(m.peer, key, value, now), m.lock, m.owner[m.peer.next := Tag(key, value)],
             m.had + {it}, m.seen + {it}, m.solo)
  }

  /** A delivered message that is stored is broadcast again. */
  predicate Requeued(s: Cluster, e: Event, i: Id, k: Bytes)
    requires Enabled(s, e)
  {
    e.Deliver? && e.to == i && !e.p.snapshot && e.p.items[0].key == k && Fresher(s.members[i].peer, e.p.items[0])
  }

  function Next(s: Cluster, e: Event): Cluster
    requires Enabled(s, e)
  {
    match e
    case Set(i, key, value, now) =>
      var m := s.members[i];
      if Repeats(m, key, value) then s.(members := s.members[i := SetMember(m, key, value, now)])
      else
        Cluster(s.members[i := SetMember(m, key, value, now)], s.net + {Packet(i, [Item(key, now, value)], false)},
                s.origin + {Item(key, now, value)})
    case Deliver(p, to) =>
      Cluster(s.members[to := TakeAll(s.members[to], p.items)],
              if !p.snapshot && Fresher(s.members[to].peer, p.items[0]) then s.net + {Packet(to, p.items, false)}
              else s.net,
              s.origin)
    case Push(i, order) => s.(net := s.net + {Packet(i, Snapshot(s.members[i].peer, order), true)})
    case Lone(i, c) =>
      var m := s.members[i];
      s.(members := s.members[i := m.(peer := m.peer.(closed := m.peer.closed + {c}), solo := m.solo + {c})])
    case Unlock(i, _) => s.(members := s.members[i := s.members[i].(lock := None)])
  }

  ghost predicate Valid(s: Cluster, es: seq<Event>)
    decreases |es|
  {
    es != [] ==> Enabled(s, es[0]) && Valid(Next(s, es[0]), es[1..])
  }

  ghost function Run(s: Cluster, es: seq<Event>): Cluster
    requires Valid(s, es)
    decreases |es|
  {
    if es == [] then s else Run(Next(s, es[0]), es[1..])
  }

  // ---- confirmation -------------------------------------------------------

  /** Some other node has at some time stored exactly this value for the key. */
  ghost predicate StoredElsewhere(ms: map<Id, Member>, i: Id, t: Tag) {
    exists j, it :: j in ms && j != i && it in ms[j].had && it.key == t.key && it.value == t.value
  }

  ghost predicate MemberOk(ms: map<Id, Member>, i: Id, m: Member) {
    && PeerOk(m.peer)
    && (forall c: nat :: c < m.peer.next ==> c in m.owner)
    && (forall k :: k in m.peer.kv ==>
                      && m.owner[m.peer.kv[k].chan] == Tag(k, m.peer.kv[k].value)
                      && Item(k, m.peer.kv[k].time, m.peer.kv[k].value) in m.had)
    && (forall c :: c in m.peer.closed ==> c in m.solo || StoredElsewhere(ms, i, m.owner[c]))
  }

  ghost predicate NetOk(ms: map<Id, Member>, net: set<Packet>) {
    forall p :: p in net ==> p.from in ms && forall n :: 0 <= n < |p.items| ==> p.items[n] in ms[p.from].had
  }

  ghost predicate Inv(s: Cluster) {
    NetOk(s.members, s.net) && forall i :: i in s.members ==> MemberOk(s.members, i, s.members[i])
  }

  /** Histories only grow. */
  predicate Grows(ms: map<Id, Member>, ms': map<Id, Member>) {
    ms.Keys == ms'.Keys && forall i :: i in ms ==> ms[i].had <= ms'[i].had
  }

  lemma TakeKeeps(ms: map<Id, Member>, i: Id, m: Member, it: Item)
    requires MemberOk(ms, i, m) && StoredElsewhere(ms, i, Tag(it.key, it.value))
    ensures MemberOk(ms, i, Take(m, it)) && m.had <= Take(m, it).had
    ensures Fresher(m.peer, it) ==> it in Take(m, it).had
  {
  }

  lemma {:induction false} TakeAllKeeps(ms: map<Id, Member>, i: Id, m: Member, its: seq<Item>)
    requires MemberOk(ms, i, m)
    requires forall n :: 0 <= n < |its| ==> StoredElsewhere(ms, i, Tag(its[n].key, its[n].value))
    ensures MemberOk(ms, i, TakeAll(m, its)) && m.had <= TakeAll(m, its).had
    ensures |its| == 1 && Fresher(m.peer, its[0]) ==> its[0] in TakeAll(m, its).had
    decreases |its|
  {
    if its != [] {
      TakeKeeps(ms, i, m, its[0]);
      hide MemberOk, Take, StoredElsewhere;
      TakeAllKeeps(ms, i, Take(m, its[0]), its[1..]);
    }
  }

  lemma SetKeeps(ms: map<Id, Member>, i: Id, m: Member, key: Bytes, value: Bytes, now: int)
    requires MemberOk(ms, i, m)
    ensures MemberOk(ms, i, SetMember(m, key, value, now))
    ensures m.had <= SetMember(m, key, value, now).had
    ensures !Repeats(m, key, value) ==> Item(key, now, value) in SetMember(m, key, value, now).had
  {
  }

  lemma PlaceKeeps(s: Cluster, i: Id, m: Member)
    requires Inv(s) && i in s.members && MemberOk(s.members, i, m) && s.members[i].had <= m.had
    ensures Grows(s.members, s.members[i := m])
    ensures NetOk(s.members[i := m], s.net)
    ensures forall j :: j in s.members ==> MemberOk(s.members[i := m], j, s.members[i := m][j])
  {
  }

  lemma SenderStored(s: Cluster, p: Packet, to: Id)
    requires Inv(s) && p in s.net && p.from != to
    ensures forall n :: 0 <= n < |p.items| ==> StoredElsewhere(s.members, to, Tag(p.items[n].key, p.items[n].value))
  {
  }

  lemma NetAdd(ms: map<Id, Member>, net: set<Packet>, p: Packet)
    requires NetOk(ms, net) && p.from in ms && forall n :: 0 <= n < |p.items| ==> p.items[n] in ms[p.from].had
    ensures NetOk(ms, net + {p})
  {
  }

  lemma DeliverNext(s: Cluster, p: Packet, to: Id)
    requires Enabled(s, Deliver(p, to))
    ensures var t := Next(s, Deliver(p, to));
            && t.members == s.members[to := TakeAll(s.members[to], p.items)]
            && (t.net == s.net || (t.net == s.net + {Packet(to, p.items, false)} && |p.items| == 1
                                   && Fresher(s.members[to].peer, p.items[0])))
  {
  }

  lemma DeliverMember(s: Cluster, p: Packet, to: Id)
    requires Inv(s) && p in s.net && p.from != to && to in s.members
    ensures var m := TakeAll(s.members[to], p.items);
            && MemberOk(s.members, to, m) && s.members[to].had <= m.had
            && (|p.items| == 1 && Fresher(s.members[to].peer, p.items[0]) ==> p.items[0] in m.had)
  {
    SenderStored(s, p, to);
    hide MemberOk, StoredElsewhere, TakeAll, NetOk, Fresher;
    TakeAllKeeps(s.members, to, s.members[to], p.items);
  }

  lemma DeliverInv(s: Cluster, p: Packet, to: Id)
    requires Inv(s) && Enabled(s, Deliver(p, to))
    ensures Inv(Next(s, Deliver(p, to)))
  {
    hide MemberOk, StoredElsewhere, TakeAll, NetOk, Fresher, Next;
    DeliverNext(s, p, to);
    DeliverMember(s, p, to);
    PlaceKeeps(s, to, TakeAll(s.members[to], p.items));
    var t := Next(s, Deliver(p, to));
    if t.net != s.net {
      NetAdd(t.members, s.net, Packet(to, p.items, false));
    }
  }

  lemma PushInv(s: Cluster, i: Id, order: seq<Bytes>)
    requires Inv(s) && Enabled(s, Push(i, order))
    ensures Inv(Next(s, Push(i, order)))
  {
  }

  lemma SetInv(s: Cluster, i: Id, key: Bytes, value: Bytes, now: int)
    requires Inv(s) && Enabled(s, Set(i, key, value, now))
    ensures Inv(Next(s, Set(i, key, value, now)))
  {
    var m := SetMember(s.members[i], key, value, now);
    SetKeeps(s.members, i, s.members[i], key, value, now);
    hide MemberOk, SetMember, NetOk, Repeats;
    PlaceKeeps(s, i, m);
    if !Repeats(s.members[i], key, value) {
      NetAdd(s.members[i := m], s.net, Packet(i, [Item(key, now, value)], false));
    }
  }

  lemma FlagsKeep(ms: map<Id, Member>, i: Id, m: Member, m': Member, c: nat)
    requires MemberOk(ms, i, m) && c < m.peer.next
    requires m'.peer == m.peer || (m'.peer == m.peer.(closed := m.peer.closed + {c}) && c in m'.solo)
    requires m'.owner == m.owner && m'.had == m.had && m.solo <= m'.solo
    ensures MemberOk(ms, i, m')
  {
  }

  lemma FlagInv(s: Cluster, e: Event)
    requires Inv(s) && Enabled(s, e) && (e.Lone? || e.Unlock?)
    ensures Inv(Next(s, e))
  {
    var m := s.members[e.i];
    var m' := Next(s, e).members[e.i];
    if e.Lone? {
      FlagsKeep(s.members, e.i, m, m', e.c);
    } else {
      UnlockKeeps(s.members, e.i, m);
    }
    hide MemberOk, NetOk;
    PlaceKeeps(s, e.i, m');
  }

  lemma UnlockKeeps(ms: map<Id, Member>, i: Id, m: Member)
    requires MemberOk(ms, i, m)
    ensures MemberOk(ms, i, m.(lock := None))
  {
  }

  lemma StepInv(s: Cluster, e: Event)
    requires Inv(s) && Enabled(s, e)
    ensures Inv(Next(s, e))
  {
    hide Inv, Next, Enabled;
    match e {
      case Deliver(p, to) => DeliverInv(s, p, to);
      case Push(i, order) => PushInv(s, i, order);
      case Set(i, key, value, now) => SetInv(s, i, key, value, now);
      case _ => FlagInv(s, e);
    }
  }

  lemma {:induction false} RunInv(s: Cluster, es: seq<Event>)
    requires Inv(s) && Valid(s, es)
    ensures Inv(Run(s, es))
    decreases |es|
  {
    hide Inv, Next, Enabled;
    if es != [] {
      StepInv(s, es[0]);
      RunInv(Next(s, es[0]), es[1..]);
    }
  }

  lemma InitInv(s: Cluster)
    requires Init(s)
    ensures Inv(s)
  {
  }

  /** Confirmation soundness: in every run, a confirmed channel was confirmed
      because the cluster was seen with one member, or some other node has
      stored exactly the value the channel was made for. */
  lemma ConfirmationSound(s0: Cluster, es: seq<Event>, i: Id, c: nat)
    requires Init(s0) && Valid(s0, es) && i in Run(s0, es).members
    requires c in Run(s0, es).members[i].peer.closed
    ensures var m := Run(s0, es).members[i];
            c in m.owner && (c in m.solo || StoredElsewhere(Run(s0, es).members, i, m.owner[c]))
  {
    InitInv(s0);
    hide Run, Valid;
    RunInv(s0, es);
    assert MemberOk(Run(s0, es).members, i, Run(s0, es).members[i]);
  }

  /** Delivering one message is what its receiver's node does with it: the map and the
      channels are those the message leaves, and the message is under way again
      exactly when the node queues it. */
  lemma DeliverIsReceive(s: Cluster, p: Packet, to: Id)
    requires Enabled(s, Deliver(p, to)) && !p.snapshot
    ensures var it := p.items[0];
            var r := Receive(s.members[to].peer, Action(ACTION_SET, it.time, it.key, it.value));
            var t := Next(s, Deliver(p, to));
            && t.members.Keys == s.members.Keys && t.members[to].peer == r.peer
            && t.net == (if r.requeued then s.net + {Packet(to, p.items, false)} else s.net)
            && (Requeued(s, Deliver(p, to), to, it.key) <==> r.requeued)
            && forall j :: j in s.members && j != to ==> t.members[j] == s.members[j]
  {
    assert p.items == [p.items[0]];
    assert TakeAll(s.members[to], p.items) == Take(s.members[to], p.items[0]);
  }

  lemma {:induction false} TakeAllPeer(m: Member, its: seq<Item>)
    ensures TakeAll(m, its).peer == OfferAll(m.peer, its)
    decreases |its|
  {
    hide Offer, Fresher;
    if its != [] {
      TakeAllPeer(Take(m, its[0]), its[1..]);
    }
  }

  /** Delivering a snapshot merges it, and a set does what its node's set does: both
      leave the peers that the node's own operations leave, and only a set of a
      new value puts a message under way. */
  lemma StepIsNode(s: Cluster, e: Event)
    requires Enabled(s, e) && (e.Set? || (e.Deliver? && e.p.snapshot))
    ensures Next(s, e).members.Keys == s.members.Keys
    ensures e.Deliver? ==>
              && Next(s, e).members[e.to].peer == OfferAll(s.members[e.to].peer, e.p.items)
              && Next(s, e).net == s.net
    ensures e.Set? ==>
              var m := s.members[e.i];
              && Next(s, e).members[e.i].peer == SetLocal(m.peer, e.key, e.value, e.now)
              && Next(s, e).members[e.i].lock ==
                 (if Repeats(m, e.key, e.value) then Some(m.peer.kv[e.key].chan) else m.lock)
              && Next(s, e).net ==
                 (if Repeats(m, e.key, e.value) then s.net
                  else s.net + {Packet(e.i, [Item(e.key, e.now, e.value)], false)})
  {
    if e.Deliver? {
      TakeAllPeer(s.members[e.to], e.p.items);
    }
  }

  /** A set waits on a channel made for exactly its key and value. */
  lemma SetChannel(ms: map<Id, Member>, i: Id, m: Member, key: Bytes, value: Bytes, now: int)
    requires MemberOk(ms, i, m)
    ensures var m' := SetMember(m, key, value, now);
            && key in m'.peer.kv && m'.peer.kv[key].value == value
            && m'.peer.kv[key].chan in m'.owner && m'.owner[m'.peer.kv[key].chan] == Tag(key, value)
            && (!Repeats(m, key, value) ==> m'.peer.kv[key].chan == m.peer.next && m.peer.next !in m'.peer.closed)
  {
  }

  /** A channel keeps what it was made for. */
  predicate MadeFor(m: Member, c: nat, t: Tag) {
    c < m.peer.next && c in m.owner && m.owner[c] == t
  }

  lemma {:induction false} TakeAllMade(m: Member, its: seq<Item>, c: nat, t: Tag)
    requires MadeFor(m, c, t)
    ensures MadeFor(TakeAll(m, its), c, t)
    decreases |its|
  {
    if its != [] {
      TakeAllMade(Take(m, its[0]), its[1..], c, t);
    }
  }

  lemma NextMade(s: Cluster, e: Event, i: Id, c: nat, t: Tag)
    requires Enabled(s, e) && i in s.members && MadeFor(s.members[i], c, t)
    ensures i in Next(s, e).members && MadeFor(Next(s, e).members[i], c, t)
  {
    if e.Deliver? && e.to == i {
      TakeAllMade(s.members[i], e.p.items, c, t);
      hide MadeFor, TakeAll;
    }
  }

  lemma {:induction false} RunMade(s: Cluster, es: seq<Event>, i: Id, c: nat, t: Tag)
    requires Valid(s, es) && i in s.members && MadeFor(s.members[i], c, t)
    ensures i in Run(s, es).members && MadeFor(Run(s, es).members[i], c, t)
    decreases |es|
  {
    hide Next, Enabled, MadeFor;
    if es != [] {
      NextMade(s, es[0], i, c, t);
      RunMade(Next(s, es[0]), es[1..], i, c, t);
    }
  }

  /** Whoever waits on a stored entry's channel and finds it confirmed, however much
      later, knows that another node has stored that value, or that the cluster
      was seen with one member. */
  lemma EntrySound(s: Cluster, es: seq<Event>, i: Id, key: Bytes)
    requires Inv(s) && Valid(s, es) && i in s.members && key in s.members[i].peer.kv
    ensures var en := s.members[i].peer.kv[key];
            var t := Run(s, es);
            && i in t.members
            && (en.chan in t.members[i].peer.closed ==>
                  en.chan in t.members[i].solo || StoredElsewhere(t.members, i, Tag(key, en.value)))
  {
    var en := s.members[i].peer.kv[key];
    assert MemberOk(s.members, i, s.members[i]);
    RunMade(s, es, i, en.chan, Tag(key, en.value));
    RunInv(s, es);
    hide Run, Valid;
    assert MemberOk(Run(s, es).members, i, Run(s, es).members[i]);
  }

  /** What a set promises: when at any later moment of any run the channel it waits
      on is confirmed, which is when it returns nil, some other node has stored
      exactly its value for its key, or the cluster was seen with one member. */
  lemma SetSound(s0: Cluster, es: seq<Event>, i: Id, key: Bytes, value: Bytes, now: int, later: seq<Event>)
    requires Init(s0) && Valid(s0, es) && Enabled(Run(s0, es), Set(i, key, value, now))
    requires Valid(Next(Run(s0, es), Set(i, key, value, now)), later)
    ensures var s := Next(Run(s0, es), Set(i, key, value, now));
            var t := Run(s, later);
            && i in s.members && i in t.members && key in s.members[i].peer.kv
            && var c := s.members[i].peer.kv[key].chan;
            c in t.members[i].peer.closed ==>
              c in t.members[i].solo || StoredElsewhere(t.members, i, Tag(key, value))
  {
    InitInv(s0);
    RunInv(s0, es);
    SetInv(Run(s0, es), i, key, value, now);
    var s := Next(Run(s0, es), Set(i, key, value, now));
    var m := Run(s0, es).members[i];
    assert MemberOk(Run(s0, es).members, i, m);
    SetChannel(Run(s0, es).members, i, m, key, value, now);
    assert s.members[i] == SetMember(m, key, value, now);
    hide *;
    EntrySound(s, later, i, key);
  }

  /** What a read promises: whatever value it answers with, however long it waited, was
      stored by another node, or the cluster was seen with one member. */
  lemma GetSound(s0: Cluster, es: seq<Event>, i: Id, key: Bytes, later: seq<Event>, expired: bool, r: Answer)
    requires Init(s0) && Valid(s0, es) && i in Run(s0, es).members
    requires Valid(Run(s0, es), later) && i in Run(Run(s0, es), later).members
    requires Returns(Find(Run(s0, es).members[i].peer, key), Run(Run(s0, es), later).members[i].peer.closed, expired, r)
    ensures r.Absent? <==> key !in Run(s0, es).members[i].peer.kv
    ensures r.Value? ==>
              && key in Run(s0, es).members[i].peer.kv
              && r.value == Run(s0, es).members[i].peer.kv[key].value
              && var t := Run(Run(s0, es), later);
              Run(s0, es).members[i].peer.kv[key].chan in t.members[i].solo
              || StoredElsewhere(t.members, i, Tag(key, r.value))
  {
    InitInv(s0);
    RunInv(s0, es);
    if r.Value? {
      hide Run, Valid, Inv, StoredElsewhere, Init;
      EntrySound(Run(s0, es), later, i, key);
    }
  }

  // ---- overwritten before confirmation ------------------------------------

  /** A channel whose entry has been overwritten, unconfirmed but for one-member looks. */
  predicate Orphan(m: Member, c: nat) {
    c < m.peer.next && (forall k :: k in m.peer.kv ==> m.peer.kv[k].chan != c) && (c in m.peer.closed ==> c in m.solo)
  }

  /** The first entry of the key in the list is newer than the stored one. */
  predicate Displaces(m: Member, its: seq<Item>, key: Bytes) {
    exists n :: 0 <= n < |its| && its[n].key == key && Fresher(m.peer, its[n])
                && forall a :: 0 <= a < n ==> its[a].key != key
  }

  /** The events that replace what a node stores for a key. */
  predicate Overwrites(s: Cluster, e: Event, i: Id, key: Bytes)
    requires i in s.members
  {
    || (e.Set? && e.i == i && e.key == key && !Repeats(s.members[i], key, e.value))
    || (e.Deliver? && e.to == i && Displaces(s.members[i], e.p.items, key))
  }

  /** The node stores an entry for the key that waits for its confirmation. */
  predicate Unconfirmed(m: Member, key: Bytes) {
    PeerOk(m.peer) && key in m.peer.kv && m.peer.kv[key].chan !in m.peer.closed
  }

  lemma TakeOther(m: Member, it: Item, key: Bytes)
    requires Unconfirmed(m, key) && it.key != key
    ensures Unconfirmed(Take(m, it), key) && Take(m, it).peer.kv[key] == m.peer.kv[key]
  {
  }

  lemma TakeDisplaces(m: Member, it: Item)
    requires Unconfirmed(m, it.key) && Fresher(m.peer, it)
    ensures Orphan(Take(m, it), m.peer.kv[it.key].chan)
  {
  }

  lemma {:induction false} TakeAllDisplaces(m: Member, its: seq<Item>, key: Bytes, n: nat)
    requires Unconfirmed(m, key) && n < |its| && its[n].key == key && Fresher(m.peer, its[n])
    requires forall a :: 0 <= a < n ==> its[a].key != key
    ensures Orphan(TakeAll(m, its), m.peer.kv[key].chan)
    decreases n
  {
    hide Orphan, Take, PeerOk;
    if n == 0 {
      TakeDisplaces(m, its[0]);
      TakeAllOrphan(Take(m, its[0]), its[1..], m.peer.kv[key].chan);
    } else {
      TakeOther(m, its[0], key);
      assert its[1..][n - 1] == its[n];
      TakeAllDisplaces(Take(m, its[0]), its[1..], key, n - 1);
    }
  }

  lemma OverwriteOrphans(s: Cluster, e: Event, i: Id, key: Bytes)
    requires Enabled(s, e) && i in s.members && Unconfirmed(s.members[i], key) && Overwrites(s, e, i, key)
    ensures i in Next(s, e).members && Orphan(Next(s, e).members[i], s.members[i].peer.kv[key].chan)
  {
    if e.Deliver? {
      var its := e.p.items;
      var n :| 0 <= n < |its| && its[n].key == key && Fresher(s.members[i].peer, its[n])
               && forall a :: 0 <= a < n ==> its[a].key != key;
      TakeAllDisplaces(s.members[i], its, key, n);
      hide Orphan, TakeAll, PeerOk;
    }
  }

  lemma {:induction false} TakeAllOrphan(m: Member, its: seq<Item>, c: nat)
    requires Orphan(m, c)
    ensures Orphan(TakeAll(m, its), c)
    decreases |its|
  {
    if its != [] {
      assert Orphan(Take(m, its[0]), c);
      TakeAllOrphan(Take(m, its[0]), its[1..], c);
    }
  }

  lemma NextOrphan(s: Cluster, e: Event, i: Id, c: nat)
    requires Enabled(s, e) && i in s.members && Orphan(s.members[i], c)
    ensures i in Next(s, e).members && Orphan(Next(s, e).members[i], c)
  {
    if e.Deliver? && e.to == i {
      TakeAllOrphan(s.members[i], e.p.items, c);
      hide Orphan, TakeAll;
    }
  }

  lemma {:induction false} RunOrphan(s: Cluster, es: seq<Event>, i: Id, c: nat)
    requires Valid(s, es) && i in s.members && Orphan(s.members[i], c)
    ensures i in Run(s, es).members && Orphan(Run(s, es).members[i], c)
    decreases |es|
  {
    hide Next, Enabled, Orphan;
    if es != [] {
      NextOrphan(s, es[0], i, c);
      RunOrphan(Next(s, es[0]), es[1..], i, c);
    }
  }

  /** A set whose entry another set or a newer delivery replaces before it was
      confirmed never reports success in any continuation, except when the
      cluster is seen with one member. */
  lemma OverwrittenNeverConfirmed(s0: Cluster, es: seq<Event>, e: Event, later: seq<Event>, i: Id, key: Bytes)
    requires Init(s0) && Valid(s0, es) && Enabled(Run(s0, es), e) && Valid(Next(Run(s0, es), e), later)
    requires i in Run(s0, es).members && Overwrites(Run(s0, es), e, i, key)
    requires key in Run(s0, es).members[i].peer.kv
    requires Run(s0, es).members[i].peer.kv[key].chan !in Run(s0, es).members[i].peer.closed
    ensures var c := Run(s0, es).members[i].peer.kv[key].chan;
            var t := Run(Next(Run(s0, es), e), later);
            && i in t.members
            && (forall k :: k in t.members[i].peer.kv ==> t.members[i].peer.kv[k].chan != c)
            && (c in t.members[i].peer.closed ==> c in t.members[i].solo)
  {
    InitInv(s0);
    RunInv(s0, es);
    var s := Run(s0, es);
    hide Run, Valid, Next, Enabled, Overwrites;
    var c := s.members[i].peer.kv[key].chan;
    assert MemberOk(s.members, i, s.members[i]);
    OverwriteOrphans(s, e, i, key);
    RunOrphan(Next(s, e), later, i, c);
    assert Orphan(Run(Next(s, e), later).members[i], c);
  }

  // ---- what waits ---------------------------------------------------------

  predicate Waiting(m: Member, key: Bytes) {
    key in m.peer.kv && m.peer.kv[key].chan !in m.peer.closed
  }

  /** An entry a node takes from another is confirmed on the spot. */
  lemma {:induction false} TakeAllWaiting(m: Member, its: seq<Item>, key: Bytes)
    requires PeerOk(m.peer) && Waiting(TakeAll(m, its), key)
    ensures Waiting(m, key) && TakeAll(m, its).peer.kv[key] == m.peer.kv[key]
    decreases |its|
  {
    if its != [] {
      OfferOk(m.peer, its[0]);
      TakeAllWaiting(Take(m, its[0]), its[1..], key);
    }
  }

  lemma NextWaiting(s: Cluster, e: Event, i: Id, key: Bytes)
    requires Inv(s) && Enabled(s, e) && i in s.members && Waiting(Next(s, e).members[i], key)
    ensures var en := Next(s, e).members[i].peer.kv[key];
            || (Waiting(s.members[i], key) && en == s.members[i].peer.kv[key])
            || e == Set(i, key, en.value, en.time)
  {
    assert PeerOk(s.members[i].peer) by { assert MemberOk(s.members, i, s.members[i]); }
    hide MemberOk, NetOk, StoredElsewhere;
    if e.Deliver? && e.to == i {
      TakeAllWaiting(s.members[i], e.p.items, key);
      hide Waiting, TakeAll;
    }
  }

  lemma {:induction false} RunWaiting(s: Cluster, es: seq<Event>, i: Id, key: Bytes)
    requires Inv(s) && Valid(s, es) && i in s.members && i in Run(s, es).members && Waiting(Run(s, es).members[i], key)
    ensures var en := Run(s, es).members[i].peer.kv[key];
            || (Waiting(s.members[i], key) && en == s.members[i].peer.kv[key])
            || Set(i, key, en.value, en.time) in es
    decreases |es|
  {
    if es != [] {
      StepInv(s, es[0]);
      SameNodes(s, es[0]);
      hide Inv, Next, Enabled;
      RunWaiting(Next(s, es[0]), es[1..], i, key);
      if Set(i, key, Run(s, es).members[i].peer.kv[key].value, Run(s, es).members[i].peer.kv[key].time) !in es {
        NextWaiting(s, es[0], i, key);
      }
    }
  }

  lemma SameNodes(s: Cluster, e: Event)
    requires Enabled(s, e)
    ensures Next(s, e).members.Keys == s.members.Keys
  {
  }

  /** In every run a read can block only on an entry that its own node has set:
      what comes from another node is confirmed at once. */
  lemma BlockedIsOwn(s0: Cluster, es: seq<Event>, i: Id, key: Bytes)
    requires Init(s0) && Valid(s0, es) && i in s0.members && i in Run(s0, es).members
    requires Waiting(Run(s0, es).members[i], key)
    ensures var en := Run(s0, es).members[i].peer.kv[key];
            Set(i, key, en.value, en.time) in es
  {
    InitInv(s0);
    RunWaiting(s0, es, i, key);
  }

  /** Two sets of one value at the start: the second locks the map on a channel
      that is not confirmed. */
  lemma RepeatedSetLocks(s0: Cluster, i: Id, key: Bytes, value: Bytes, t: int, u: int)
    requires Init(s0) && i in s0.members
    ensures var es := [Set(i, key, value, t), Set(i, key, value, u)];
            && Valid(s0, es) && i in Run(s0, es).members
            && Run(s0, es).members[i].lock == Some(0) && 0 !in Run(s0, es).members[i].peer.closed
  {
    var e, f := Set(i, key, value, t), Set(i, key, value, u);
    var s := Next(s0, e);
    assert [e, f][1..] == [f] && [f][1..] == [];
    assert Valid(Next(s, f), []) && Run(Next(s, f), []) == Next(s, f);
    assert Valid(s, [f]) && Run(s, [f]) == Next(s, f);
    assert Run(s0, [e, f]) == Next(s, f);
  }

  /** While a repeated set waits on an unconfirmed channel it keeps the map locked,
      so no echo can arrive: only its context or a one-member look ends it. */
  lemma {:induction false} RepeatedSetBlocks(s: Cluster, es: seq<Event>, i: Id, c: nat)
    requires Valid(s, es) && i in s.members
    requires s.members[i].lock == Some(c) && c !in s.members[i].peer.closed
    requires Unlock(i, true) !in es && Lone(i, c) !in es
    ensures i in Run(s, es).members
    ensures Run(s, es).members[i].lock == Some(c) && c !in Run(s, es).members[i].peer.closed
    decreases |es|
  {
    if es != [] {
      assert es[0] in es;
      BlockedStep(s, es[0], i, c);
      hide Next, Enabled;
      RepeatedSetBlocks(Next(s, es[0]), es[1..], i, c);
    }
  }

  lemma BlockedStep(s: Cluster, e: Event, i: Id, c: nat)
    requires Enabled(s, e) && i in s.members
    requires s.members[i].lock == Some(c) && c !in s.members[i].peer.closed
    requires e != Unlock(i, true) && e != Lone(i, c)
    ensures i in Next(s, e).members
    ensures Next(s, e).members[i].lock == Some(c) && c !in Next(s, e).members[i].peer.closed
  {
  }
}
