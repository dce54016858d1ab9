/** How often a node broadcasts a key again, over whole runs. */
module Flooding {
  import opened Records
  import opened Codec
  import opened Lww
  import opened Delegate
  import opened Gossip
  import opened Convergence

  // ---- one step -----------------------------------------------------------

  /** How often node `i` broadcasts a message about `k` again during a run. */
  ghost function RequeueCount(s: Cluster, es: seq<Event>, i: Id, k: Bytes): nat
    requires Valid(s, es)
    decreases |es|
  {
    if es == [] then 0
    else (if Requeued(s, es[0], i, k) then 1 else 0) + RequeueCount(Next(s, es[0]), es[1..], i, k)
  }

  /** The measure: timestamps of the key newer than what the node stores. */
  function Left(m: Member, k: Bytes, all: set<Stamp>): nat {
    |Newer(StampAt(m.peer, k), all)|
  }

  lemma TakeLeft(m: Member, it: Item, k: Bytes, all: set<Stamp>)
    requires NoTies(all) && (StampAt(m.peer, k).Some? ==> StampAt(m.peer, k).value in all)
    requires it.key == k ==> Stamp(it.value, it.time) in all
    ensures StampAt(Take(m, it).peer, k).Some? ==> StampAt(Take(m, it).peer, k).value in all
    ensures Left(Take(m, it), k, all) + (if it.key == k && Fresher(m.peer, it) then 1 else 0) <= Left(m, k, all)
  {
    hide Offer, Fresher, StampAt, Newer, NoTies;
    OfferStamp(m.peer, it, k);
    if it.key == k {
      AcceptUses(StampAt(m.peer, k), Stamp(it.value, it.time), all);
    }
  }

  lemma {:induction false} TakeAllLeft(m: Member, its: seq<Item>, k: Bytes, all: set<Stamp>)
    requires NoTies(all) && (StampAt(m.peer, k).Some? ==> StampAt(m.peer, k).value in all)
    requires forall n :: 0 <= n < |its| && its[n].key == k ==> Stamp(its[n].value, its[n].time) in all
    ensures Left(TakeAll(m, its), k, all) <= Left(m, k, all)
    ensures |its| == 1 && its[0].key == k && Fresher(m.peer, its[0]) ==>
            Left(TakeAll(m, its), k, all) + 1 <= Left(m, k, all)
    decreases |its|
  {
    hide Fresher, StampAt, Left, NoTies, Take;
    if its != [] {
      TakeLeft(m, its[0], k, all);
      TakeAllLeft(Take(m, its[0]), its[1..], k, all);
    }
  }

  lemma SetLeft(m: Member, it: Item, k: Bytes, all: set<Stamp>)
    requires NoTies(all) && (StampAt(m.peer, k).Some? ==> StampAt(m.peer, k).value in all)
    requires !Repeats(m, it.key, it.value) && (it.key == k ==> Stamp(it.value, it.time) in all)
    requires it.key == k && k in m.peer.kv ==> m.peer.kv[k].time <= it.time
    ensures Left(SetMember(m, it.key, it.value, it.time), k, all) <= Left(m, k, all)
  {
    SetIsTake(m, it, k);
    hide Repeats, SetMember, SetLocal, StampAt, NoTies, Newer;
    TakeLeft(m, it, k, all);
  }

  lemma InStamps(its: set<Item>, it: Item, k: Bytes)
    requires it in its && it.key == k
    ensures Stamp(it.value, it.time) in KeyStamps(its, k)
  {
  }

  lemma StoredStamp(s: Cluster, i: Id, k: Bytes)
    requires OriginOk(s) && i in s.members
    ensures var st := StampAt(s.members[i].peer, k); st.Some? ==> st.value in KeyStamps(s.origin, k)
  {
  }

  lemma DeliverLeft(s: Cluster, p: Packet, to: Id, k: Bytes, all: set<Stamp>)
    requires OriginOk(s) && Enabled(s, Deliver(p, to)) && KeyStamps(s.origin, k) <= all && NoTies(all)
    ensures Left(TakeAll(s.members[to], p.items), k, all) + (if Requeued(s, Deliver(p, to), to, k) then 1 else 0)
            <= Left(s.members[to], k, all)
  {
    StoredStamp(s, to, k);
    forall n | 0 <= n < |p.items| && p.items[n].key == k
      ensures Stamp(p.items[n].value, p.items[n].time) in all
    {
      InStamps(s.origin, p.items[n], k);
    }
    hide Fresher, StampAt, Left, NoTies, TakeAll, KeyStamps, OriginOk;
    TakeAllLeft(s.members[to], p.items, k, all);
  }

  lemma NextLeft(s: Cluster, e: Event, i: Id, k: Bytes, all: set<Stamp>)
    requires OriginOk(s) && Enabled(s, e) && !Stale(s, e, i, k) && i in s.members
    requires KeyStamps(s.origin, k) <= all && KeyStamps(Next(s, e).origin, k) <= all && NoTies(all)
    ensures i in Next(s, e).members
    ensures Left(Next(s, e).members[i], k, all) + (if Requeued(s, e, i, k) then 1 else 0) <= Left(s.members[i], k, all)
  {
    hide Left, NoTies, TakeAll, KeyStamps, OriginOk, StampAt, SetMember, Snapshot;
    match e {
      case Deliver(p, to) => if i == to { DeliverLeft(s, p, to, k, all); }
      case Set(j, key, value, now) =>
        if i == j && !Repeats(s.members[i], key, value) {
          StoredStamp(s, i, k);
          var it := Item(key, now, value);
          if key == k { InStamps(Next(s, e).origin, it, k); }
          SetLeft(s.members[i], it, k, all);
        } else if i == j {
          RepeatLeft(s.members[i], key, value, now, k, all);
        }
      case Push(_, _) =>
      case _ => if e.i == i { FlagLeft(s.members[i], Next(s, e).members[i], k, all); }
    }
  }

  lemma RepeatLeft(m: Member, key: Bytes, value: Bytes, now: int, k: Bytes, all: set<Stamp>)
    requires Repeats(m, key, value)
    ensures Left(SetMember(m, key, value, now), k, all) == Left(m, k, all)
  {
  }

  lemma FlagLeft(m: Member, m': Member, k: Bytes, all: set<Stamp>)
    requires m'.peer.kv == m.peer.kv
    ensures Left(m', k, all) == Left(m, k, all)
  {
  }

  // ---- the bound ----------------------------------------------------------

  lemma LeftAtMost(m: Member, k: Bytes, all: set<Stamp>)
    ensures Left(m, k, all) <= |Times(all)|
  {
    SubsetSize(Newer(StampAt(m.peer, k), all), Times(all));
  }

  lemma StaleIsSet(s: Cluster, e: Event, i: Id, k: Bytes)
    requires Enabled(s, e) && Stale(s, e, i, k)
    ensures !Requeued(s, e, i, k)
  {
  }

  /** A stale set lets the whole supply of timestamps be used once more. */
  lemma StepLeft(s: Cluster, e: Event, i: Id, k: Bytes, all: set<Stamp>)
    requires OriginOk(s) && Enabled(s, e) && i in s.members
    requires KeyStamps(s.origin, k) <= all && KeyStamps(Next(s, e).origin, k) <= all && NoTies(all)
    ensures i in Next(s, e).members
    ensures Left(Next(s, e).members[i], k, all) + (if Requeued(s, e, i, k) then 1 else 0) <=
            Left(s.members[i], k, all) + (if Stale(s, e, i, k) then |Times(all)| else 0)
  {
    SameMembers(s, e);
    hide Next, Enabled, OriginOk, Left, NoTies, KeyStamps, Stale, Requeued, Times;
    if Stale(s, e, i, k) {
      StaleIsSet(s, e, i, k);
      LeftAtMost(Next(s, e).members[i], k, all);
    } else {
      NextLeft(s, e, i, k, all);
    }
  }

  lemma Scale(a: nat, b: nat, n: nat)
    ensures (a + b) * n == a * n + b * n
  {
  }

  lemma {:induction false} RunLeft(s: Cluster, es: seq<Event>, i: Id, k: Bytes, all: set<Stamp>)
    requires Valid(s, es) && OriginOk(s) && i in s.members
    requires KeyStamps(Run(s, es).origin, k) <= all && NoTies(all)
    ensures RequeueCount(s, es, i, k) <= Left(s.members[i], k, all) + StaleSets(s, es, i, k) * |Times(all)|
    decreases |es|
  {
    hide Next, Enabled, OriginOk, Left, NoTies, KeyStamps, Stale, Requeued, Times;
    if es != [] {
      var t := Next(s, es[0]);
      NextOrigin(s, es[0]);
      RunOrigin(t, es[1..]);
      KeyStampsMono(t.origin, Run(s, es).origin, k);
      KeyStampsMono(s.origin, t.origin, k);
      StepLeft(s, es[0], i, k, all);
      RunLeft(t, es[1..], i, k, all);
      Scale(if Stale(s, es[0], i, k) then 1 else 0, StaleSets(t, es[1..], i, k), |Times(all)|);
    }
  }

  /** Flooding terminates: while no two values of a key share a timestamp, a node
      broadcasts messages about the key again at most once per distinct timestamp
      ever set for it, and as often once more after each of its own sets that is
      stamped before the entry it replaces, in any interleaving with merges and
      duplicates and whatever the other nodes' clocks do. */
  lemma FloodingEnds(s0: Cluster, es: seq<Event>, i: Id, k: Bytes, all: set<Stamp>)
    requires Init(s0) && Valid(s0, es) && i in s0.members
    requires KeyStamps(Run(s0, es).origin, k) <= all && NoTies(all)
    ensures RequeueCount(s0, es, i, k) <= |Times(all)| * (1 + StaleSets(s0, es, i, k))
  {
    hide Valid, Run, NoTies, StaleSets, RequeueCount;
    StartOk(s0, k);
    RunLeft(s0, es, i, k, all);
    LeftAtMost(s0.members[i], k, all);
    var n, m := |Times(all)|, StaleSets(s0, es, i, k);
    assert n * (1 + m) == n + m * n;
  }

  // ---- one node's queue ---------------------------------------------------

  /** How often a node queues messages about the key again while it handles a
      sequence of messages one after the other. */
  function Echoes(p: Peer, msgs: seq<Action>, k: Bytes): nat
    decreases |msgs|
  {
    if msgs == [] then 0
    else
      var r := Receive(p, msgs[0]);
      (if msgs[0].key == k && r.requeued then 1 else 0) + Echoes(r.peer, msgs[1..], k)
  }

  lemma ReceiveStamp(p: Peer, a: Action, k: Bytes)
    requires a.typ == ACTION_SET
    ensures StampAt(Receive(p, a).peer, k) ==
            if a.key == k then Merge(StampAt(p, k), Stamp(a.value, a.time)) else StampAt(p, k)
    ensures Receive(p, a).requeued <==> Accepts(StampAt(p, a.key), Stamp(a.value, a.time))
  {
    OfferStamp(p, Item(a.key, a.time, a.value), k);
  }

  /** The node's own queue is bounded: handling any sequence of set messages without
      ties, it queues a key again at most once per timestamp newer than what it
      stores; old messages and echoes are never queued. */
  lemma {:induction false} EchoesBounded(p: Peer, msgs: seq<Action>, k: Bytes, all: set<Stamp>)
    requires NoTies(all) && (StampAt(p, k).Some? ==> StampAt(p, k).value in all)
    requires forall n :: 0 <= n < |msgs| ==>
                           msgs[n].typ == ACTION_SET && (msgs[n].key == k ==> Stamp(msgs[n].value, msgs[n].time) in all)
    ensures Echoes(p, msgs, k) <= |Newer(StampAt(p, k), all)| <= |Times(all)|
    decreases |msgs|
  {
    hide Receive, StampAt, Newer, NoTies, Accepts, Merge, Times;
    NewerAtMost(StampAt(p, k), all);
    if msgs != [] {
      var a := msgs[0];
      ReceiveStamp(p, a, k);
      if a.key == k {
        AcceptUses(StampAt(p, k), Stamp(a.value, a.time), all);
        MergeIn(StampAt(p, k), Stamp(a.value, a.time), all);
      }
      EchoesBounded(Receive(p, a).peer, msgs[1..], k, all);
    }
  }

  lemma NewerAtMost(cur: Option<Stamp>, all: set<Stamp>)
    ensures |Newer(cur, all)| <= |Times(all)|
  {
    SubsetSize(Newer(cur, all), Times(all));
  }

  lemma MergeIn(cur: Option<Stamp>, inc: Stamp, all: set<Stamp>)
    requires inc in all && (cur.Some? ==> cur.value in all)
    ensures Merge(cur, inc).Some? && Merge(cur, inc).value in all
  {
  }

  /** Messages that are not sets have no such bound: on an absent key a delete or a
      message of unknown type is queued each time it arrives. */
  lemma {:induction false} OthersEcho(p: Peer, a: Action, n: nat)
    requires a.typ != ACTION_SET && a.key !in p.kv
    ensures Echoes(p, seq(n, _ => a), a.key) == n
    decreases n
  {
    if n > 0 {
      var msgs := seq(n, _ => a);
      assert msgs[1..] == seq(n - 1, _ => a);
      assert p.kv - {a.key} == p.kv;
      OthersEcho(p, a, n - 1);
    }
  }

  // ---- tied values flood --------------------------------------------------

  function One(from: Id, k: Bytes, a: Stamp): Packet {
    Packet(from, [Item(k, a.time, a.value)], false)
  }

  /** The node can receive both messages from `y` and does not store `a`. */
  predicate Armed(s: Cluster, i: Id, y: Id, k: Bytes, a: Stamp, b: Stamp) {
    && i != y && i in s.members && s.members[i].lock == None
    && One(y, k, a) in s.net && One(y, k, b) in s.net
    && (StampAt(s.members[i].peer, k) == None || StampAt(s.members[i].peer, k) == Some(b))
  }

  /** Two messages delivered in turn. */
  function Volley(i: Id, y: Id, k: Bytes, a: Stamp, b: Stamp, n: nat): seq<Event>
    decreases n
  {
    if n == 0 then [] else [Deliver(One(y, k, a), i)] + Volley(i, y, k, b, a, n - 1)
  }

  lemma TakeStamp(s: Cluster, i: Id, y: Id, k: Bytes, a: Stamp)
    requires i != y && i in s.members && s.members[i].lock == None && One(y, k, a) in s.net
    requires var cur := StampAt(s.members[i].peer, k);
             cur.Some? ==> cur.value.time <= a.time && cur.value.value != a.value
    ensures var e := Deliver(One(y, k, a), i);
            && Enabled(s, e) && Requeued(s, e, i, k) && !Stale(s, e, i, k)
            && s.net <= Next(s, e).net && Next(s, e).origin == s.origin
            && i in Next(s, e).members && Next(s, e).members[i].lock == None
            && StampAt(Next(s, e).members[i].peer, k) == Some(a)
  {
    TakeOne(s.members[i], Item(k, a.time, a.value));
  }

  lemma {:induction false} VolleyFloods(s: Cluster, i: Id, y: Id, k: Bytes, a: Stamp, b: Stamp, n: nat)
    requires Armed(s, i, y, k, a, b) && a.time == b.time && a.value != b.value
    ensures var es := Volley(i, y, k, a, b, n);
            && Valid(s, es) && RequeueCount(s, es, i, k) == n && StaleSets(s, es, i, k) == 0
            && Run(s, es).origin == s.origin
    decreases n
  {
    if n > 0 {
      var e := Deliver(One(y, k, a), i);
      TakeStamp(s, i, y, k, a);
      var es := Volley(i, y, k, a, b, n);
      assert es[0] == e && es[1..] == Volley(i, y, k, b, a, n - 1);
      hide Enabled, Next, Requeued, Stale, StampAt, Volley;
      VolleyFloods(Next(s, e), i, y, k, b, a, n - 1);
    }
  }

  // ---- stale sets flood ---------------------------------------------------

  /** The node can receive the newer entry and stores nothing or its own older one. */
  predicate Behind(s: Cluster, i: Id, y: Id, k: Bytes, v: Stamp, w: Stamp) {
    && i != y && i in s.members && s.members[i].lock == None && One(y, k, w) in s.net
    && (StampAt(s.members[i].peer, k) == None || StampAt(s.members[i].peer, k) == Some(v))
  }

  /** The newer entry delivered, and the older one set again, in turn. */
  function Duel(i: Id, y: Id, k: Bytes, v: Stamp, w: Stamp, n: nat): seq<Event>
    decreases n
  {
    if n == 0 then [] else [Deliver(One(y, k, w), i), Set(i, k, v.value, v.time)] + Duel(i, y, k, v, w, n - 1)
  }

  lemma SetBehind(s: Cluster, i: Id, y: Id, k: Bytes, v: Stamp, w: Stamp)
    requires i != y && i in s.members && s.members[i].lock == None && One(y, k, w) in s.net && v.value != w.value
    requires StampAt(s.members[i].peer, k) == Some(w)
    ensures var e := Set(i, k, v.value, v.time);
            && Enabled(s, e) && !Requeued(s, e, i, k) && Behind(Next(s, e), i, y, k, v, w)
            && Next(s, e).origin == s.origin + {Item(k, v.time, v.value)}
  {
  }

  lemma {:induction false} DuelFloods(s: Cluster, i: Id, y: Id, k: Bytes, v: Stamp, w: Stamp, n: nat)
    requires Behind(s, i, y, k, v, w) && v.time <= w.time && v.value != w.value
    ensures var es := Duel(i, y, k, v, w, n);
            && Valid(s, es) && RequeueCount(s, es, i, k) == n
            && Run(s, es).origin <= s.origin + {Item(k, v.time, v.value)}
    decreases n
  {
    if n > 0 {
      var e, f := Deliver(One(y, k, w), i), Set(i, k, v.value, v.time);
      TakeStamp(s, i, y, k, w);
      var t := Next(s, e);
      SetBehind(t, i, y, k, v, w);
      var es, rest := Duel(i, y, k, v, w, n), Duel(i, y, k, v, w, n - 1);
      assert es[0] == e && es[1..] == [f] + rest && ([f] + rest)[1..] == rest;
      hide Enabled, Next, Requeued, Stale, StampAt, Duel, Behind;
      DuelFloods(Next(t, f), i, y, k, v, w, n - 1);
      assert Valid(t, [f] + rest) && RequeueCount(t, [f] + rest, i, k) == n - 1;
    }
  }

  // ---- exactly when re-broadcasts are bounded -----------------------------

  const NEW_MEMBER := Member(EMPTY_PEER, None, map[], {}, {}, {})

  /** Two nodes at the start; the second sets one entry. */
  lemma Opening(i: Id, y: Id, k: Bytes, a: Stamp) returns (s0: Cluster, e: Event)
    requires i != y
    ensures Init(s0) && i in s0.members && e == Set(y, k, a.value, a.time) && Enabled(s0, e)
    ensures var s := Next(s0, e);
            && i in s.members && y in s.members && s.members[i] == NEW_MEMBER && s.members[y].lock == None
            && One(y, k, a) in s.net && KeyStamps(s.origin, k) == {a}
            && StampAt(s.members[y].peer, k) == Some(a)
            && !Requeued(s0, e, i, k) && !Stale(s0, e, i, k)
  {
    s0 := Cluster(map[i := NEW_MEMBER, y := NEW_MEMBER], {}, {});
    e := Set(y, k, a.value, a.time);
    KeyStampsAdd({}, Item(k, a.time, a.value), k);
    assert {} + {Item(k, a.time, a.value)} == {Item(k, a.time, a.value)};
  }

  /** Bounded over all runs from the start whose stamps of the key lie in `all`
      and in which the node makes at most `stale` stale sets. */
  ghost predicate RunBound(all: set<Stamp>, stale: nat, i: Id, k: Bytes, bound: nat) {
    forall s0, es :: Init(s0) && Valid(s0, es) && i in s0.members
                     && KeyStamps(Run(s0, es).origin, k) <= all && StaleSets(s0, es, i, k) <= stale ==>
                       RequeueCount(s0, es, i, k) <= bound
  }

  /** Two tied values: runs without a stale set exceed every bound. */
  lemma TiesFlood(i: Id, k: Bytes, a: Stamp, b: Stamp, n: nat) returns (s0: Cluster, es: seq<Event>)
    requires a.time == b.time && a.value != b.value
    ensures Init(s0) && Valid(s0, es) && i in s0.members
    ensures KeyStamps(Run(s0, es).origin, k) <= {a, b}
    ensures StaleSets(s0, es, i, k) == 0 && RequeueCount(s0, es, i, k) == n
  {
    var y, e := i + "'", Set("", k, a.value, a.time);
    s0, e := Opening(i, y, k, a);
    var s1 := Next(s0, e);
    var f := Set(y, k, b.value, b.time);
    SecondSet(s1, i, y, k, a, b);
    var rest := Volley(i, y, k, a, b, n);
    VolleyFloods(Next(s1, f), i, y, k, a, b, n);
    es := [e, f] + rest;
    hide Enabled, Next, Requeued, Stale, StampAt, Volley, KeyStamps, Armed, Init;
    assert es[1..] == [f] + rest && ([f] + rest)[1..] == rest;
    assert Valid(s1, [f] + rest);
  }

  lemma SecondSet(s: Cluster, i: Id, y: Id, k: Bytes, a: Stamp, b: Stamp)
    requires i != y && i in s.members && y in s.members && s.members[i] == NEW_MEMBER && s.members[y].lock == None
    requires One(y, k, a) in s.net && StampAt(s.members[y].peer, k) == Some(a) && a.value != b.value
    ensures var f := Set(y, k, b.value, b.time);
            && Enabled(s, f) && !Requeued(s, f, i, k) && !Stale(s, f, i, k)
            && Armed(Next(s, f), i, y, k, a, b)
            && KeyStamps(Next(s, f).origin, k) == KeyStamps(s.origin, k) + {b}
  {
    KeyStampsAdd(s.origin, Item(k, b.time, b.value), k);
    hide KeyStamps;
  }

  /** A node whose clock is behind: runs over two values exceed every bound although
      no two of them tie, when its sets are stale. */
  lemma StaleSetsFlood(i: Id, k: Bytes, v: Stamp, w: Stamp, n: nat) returns (s0: Cluster, es: seq<Event>)
    requires v.time <= w.time && v.value != w.value
    ensures Init(s0) && Valid(s0, es) && i in s0.members
    ensures KeyStamps(Run(s0, es).origin, k) <= {v, w}
    ensures RequeueCount(s0, es, i, k) == n
  {
    var y, e := i + "'", Set("", k, w.value, w.time);
    s0, e := Opening(i, y, k, w);
    var s1 := Next(s0, e);
    var rest := Duel(i, y, k, v, w, n);
    DuelFloods(s1, i, y, k, v, w, n);
    es := [e] + rest;
    assert es[1..] == rest;
    hide Enabled, Next, Requeued, Stale, StampAt, Duel, Init, Valid, Run;
    KeyStampsAdd(s1.origin, Item(k, v.time, v.value), k);
    KeyStampsMono(Run(s1, rest).origin, s1.origin + {Item(k, v.time, v.value)}, k);
    UnfoldFirst(s0, e, rest);
  }

  lemma UnfoldFirst(s: Cluster, e: Event, rest: seq<Event>)
    requires Enabled(s, e) && Valid(Next(s, e), rest)
    ensures Valid(s, [e] + rest) && Run(s, [e] + rest) == Run(Next(s, e), rest)
    ensures forall i, k :: RequeueCount(s, [e] + rest, i, k) ==
                           (if Requeued(s, e, i, k) then 1 else 0) + RequeueCount(Next(s, e), rest, i, k)
    ensures forall i, k :: StaleSets(s, [e] + rest, i, k) ==
                           (if Stale(s, e, i, k) then 1 else 0) + StaleSets(Next(s, e), rest, i, k)
  {
    assert ([e] + rest)[1..] == rest;
    hide Enabled, Next, Requeued, Stale;
  }

  /** Flooding over whole runs, exactly: for any allowance of stale sets, a node's
      re-broadcasts of a key are bounded if and only if no two values tie. */
  lemma FloodRunsIff(all: set<Stamp>, stale: nat, i: Id, k: Bytes)
    ensures NoTies(all) <==> exists bound: nat :: RunBound(all, stale, i, k, bound)
    ensures NoTies(all) ==> RunBound(all, stale, i, k, |Times(all)| * (1 + stale))
  {
    hide Init, Valid, Run, RequeueCount, StaleSets, KeyStamps, Times;
    if NoTies(all) {
      forall s0, es | Init(s0) && Valid(s0, es) && i in s0.members
                      && KeyStamps(Run(s0, es).origin, k) <= all && StaleSets(s0, es, i, k) <= stale
        ensures RequeueCount(s0, es, i, k) <= |Times(all)| * (1 + stale)
      {
        FloodingEnds(s0, es, i, k, all);
        Product(|Times(all)|, StaleSets(s0, es, i, k), stale);
      }
      assert RunBound(all, stale, i, k, |Times(all)| * (1 + stale));
    } else {
      var a, b :| a in all && b in all && a.time == b.time && a.value != b.value;
      forall bound: nat
        ensures !RunBound(all, stale, i, k, bound)
      {
        var s0, es := TiesFlood(i, k, a, b, bound + 1);
      }
    }
  }

  lemma Product(n: nat, a: nat, b: nat)
    requires a <= b
    ensures n * (1 + a) <= n * (1 + b)
  {
  }

  /** Without a limit on stale sets nothing but a single value bounds them. */
  ghost predicate AnyBound(all: set<Stamp>, i: Id, k: Bytes, bound: nat) {
    forall stale: nat :: RunBound(all, stale, i, k, bound)
  }

  predicate OneValue(all: set<Stamp>) {
    forall a, b :: a in all && b in all ==> a.value == b.value
  }

  lemma {:induction false} OneValueFresh(s: Cluster, es: seq<Event>, i: Id, k: Bytes, all: set<Stamp>)
    requires Valid(s, es) && OriginOk(s) && KeyStamps(Run(s, es).origin, k) <= all && OneValue(all)
    ensures StaleSets(s, es, i, k) == 0
    decreases |es|
  {
    if es != [] {
      var t := Next(s, es[0]);
      NextOrigin(s, es[0]);
      RunOrigin(t, es[1..]);
      KeyStampsMono(t.origin, Run(s, es).origin, k);
      KeyStampsMono(s.origin, t.origin, k);
      assert !Stale(s, es[0], i, k) by { OneValueStep(s, es[0], i, k, all); }
      hide Next, Enabled, OriginOk, KeyStamps, Stale, OneValue;
      OneValueFresh(t, es[1..], i, k, all);
    }
  }

  lemma OneValueStep(s: Cluster, e: Event, i: Id, k: Bytes, all: set<Stamp>)
    requires Enabled(s, e) && OriginOk(s) && OneValue(all)
    requires KeyStamps(s.origin, k) <= all && KeyStamps(Next(s, e).origin, k) <= all
    ensures !Stale(s, e, i, k)
  {
    if Stale(s, e, i, k) {
      StoredStamp(s, i, k);
      InStamps(Next(s, e).origin, Item(k, e.now, e.value), k);
      hide KeyStamps, OriginOk;
      assert false;
    }
  }

  lemma OneValueBound(all: set<Stamp>, stale: nat, i: Id, k: Bytes)
    requires OneValue(all)
    ensures RunBound(all, stale, i, k, |Times(all)|)
  {
    hide Init, Valid, Run, RequeueCount, StaleSets, KeyStamps, Times;
    forall s0, es | Init(s0) && Valid(s0, es) && i in s0.members
                    && KeyStamps(Run(s0, es).origin, k) <= all && StaleSets(s0, es, i, k) <= stale
      ensures RequeueCount(s0, es, i, k) <= |Times(all)|
    {
      StartOk(s0, k);
      OneValueFresh(s0, es, i, k, all);
      FloodingEnds(s0, es, i, k, all);
    }
  }

  /** With any number of stale sets, a node's re-broadcasts of a key are bounded if
      and only if all the entries that may be set for the key have one value. */
  lemma UnlimitedFloodIff(all: set<Stamp>, i: Id, k: Bytes)
    ensures OneValue(all) <==> exists bound: nat :: AnyBound(all, i, k, bound)
  {
    hide Init, Valid, Run, RequeueCount, StaleSets, KeyStamps, Times;
    if OneValue(all) {
      forall stale: nat
        ensures RunBound(all, stale, i, k, |Times(all)|)
      {
        OneValueBound(all, stale, i, k);
      }
      assert AnyBound(all, i, k, |Times(all)|);
    } else {
      var a, b :| a in all && b in all && a.value != b.value;
      forall bound: nat
        ensures !AnyBound(all, i, k, bound)
      {
        var v, w := if a.time <= b.time then a else b, if a.time <= b.time then b else a;
        var s0, es := StaleSetsFlood(i, k, v, w, bound + 1);
        assert !RunBound(all, StaleSets(s0, es, i, k), i, k, bound);
      }
    }
  }
}
