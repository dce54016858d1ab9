/** One gossip node: the map, the confirmation channels and the broadcast queue. */
module Delegate {
  import opened Records
  import opened Codec
  import opened Lww

  /** A stored entry; `chan` names the confirmation channel made with it. */
  datatype Entry = Entry(value: Bytes, time: int, chan: nat)

  /** `closed` holds the confirmed channels; `next` is the next unused channel. */
  datatype Peer = Peer(kv: map<Bytes, Entry>, closed: set<nat>, next: nat)

  /** How a select over a channel and a context ends; `Blocked` is not an end yet. */
  datatype Wait = Confirmed | Cancelled | Blocked

  datatype Answer = Absent | Value(value: Bytes) | Timeout | Pending

  /** What a read may answer once it found an entry or none: the entry's own value
      only when its channel is confirmed, the context's error only when that is
      done, and either when both are; it waits exactly while neither is. */
  predicate Returns(found: Option<Entry>, closed: set<nat>, expired: bool, r: Answer) {
    && (r.Absent? <==> found.None?)
    && (r.Value? ==> found.Some? && r.value == found.value.value && found.value.chan in closed)
    && (r.Timeout? ==> expired)
    && (found.Some? && found.value.chan in closed && !expired ==> r.Value?)
    && (found.Some? && found.value.chan !in closed ==> if expired then r.Timeout? else r.Pending?)
    && (r.Pending? ==> !expired)
  }

  function Find(p: Peer, key: Bytes): Option<Entry> {
    if key in p.kv then Some(p.kv[key]) else None
  }

  const EMPTY_PEER := Peer(map[], {}, 0)

  predicate PeerOk(p: Peer) {
    && (forall k :: k in p.kv ==> p.kv[k].chan < p.next)
    && (forall k, j :: k in p.kv && j in p.kv && p.kv[k].chan == p.kv[j].chan ==> k == j)
    && (forall c :: c in p.closed ==> c < p.next)
  }

  predicate Fresher(p: Peer, it: Item) {
    it.key in p.kv ==> it.time >= p.kv[it.key].time && it.value != p.kv[it.key].value
  }

  /** A confirmed entry under a new, closed channel. */
  function Store(p: Peer, it: Item): Peer {
    Peer(p.kv[it.key := Entry(it.value, it.time, p.next)], p.closed + {p.next}, p.next + 1)
  }

  /** An incoming entry: too old, an echo that confirms, or stored. */
  function Offer(p: Peer, it: Item): Peer {
    if Fresher(p, it) then Store(p, it)
    else if it.time < p.kv[it.key].time then p
    else p.(closed := p.closed + {p.kv[it.key].chan})
  }

  function OfferAll(p: Peer, its: seq<Item>): Peer
    decreases |its|
  {
    if its == [] then p else OfferAll(Offer(p, its[0]), its[1..])
  }

  lemma {:induction false} OfferAllSnoc(p: Peer, its: seq<Item>, it: Item)
    ensures OfferAll(p, its + [it]) == Offer(OfferAll(p, its), it)
    decreases |its|
  {
    if its == [] {
      assert [it][1..] == [];
    } else {
      assert (its + [it])[1..] == its[1..] + [it];
      OfferAllSnoc(Offer(p, its[0]), its[1..], it);
    }
  }

  /** A decoded message: its effect and whether it is broadcast again. */
  datatype Received = Received(peer: Peer, requeued: bool)

  function Receive(p: Peer, a: Action): Received {
    var it := Item(a.key, a.time, a.value);
    if !Fresher(p, it) then Received(Offer(p, it), false)
    else if a.typ == ACTION_SET then Received(Store(p, it), true)
    else if a.typ == ACTION_DELETE then Received(p.(kv := p.kv - {a.key}), true)
    else Received(p, true)
  }

  /** A local set: an equal value waits on the stored entry, any other value
      replaces it whatever its time. */
  function SetLocal(p: Peer, key: Bytes, value: Bytes, now: int): Peer {
    if key in p.kv && p.kv[key].value == value then p
    else Peer(p.kv[key := Entry(value, now, p.next)], p.closed, p.next + 1)
  }

  // ---- what a node shows, channels aside ----------------------------------

  datatype Cell = Cell(stamp: Stamp, confirmed: bool)

  function Cells(p: Peer): map<Bytes, Cell> {
    map k | k in p.kv :: Cell(Stamp(p.kv[k].value, p.kv[k].time), p.kv[k].chan in p.closed)
  }

  function CellAt(cells: map<Bytes, Cell>, k: Bytes): Option<Cell> {
    if k in cells then Some(cells[k]) else None
  }

  function StampAt(p: Peer, k: Bytes): Option<Stamp> {
    if k in p.kv then Some(Stamp(p.kv[k].value, p.kv[k].time)) else None
  }

  /** The merge law for one key, confirmation included. */
  function OfferCell(cur: Option<Cell>, inc: Stamp): Cell {
    if cur.None? || Accepts(Some(cur.value.stamp), inc) then Cell(inc, true)
    else if inc.time < cur.value.stamp.time then cur.value
    else Cell(cur.value.stamp, true)
  }

  lemma OfferOk(p: Peer, it: Item)
    requires PeerOk(p)
    ensures PeerOk(Offer(p, it))
    ensures StampAt(Offer(p, it), it.key) == Merge(StampAt(p, it.key), Stamp(it.value, it.time))
    ensures forall k :: k != it.key ==> StampAt(Offer(p, it), k) == StampAt(p, k)
    ensures Fresher(p, it) <==> Accepts(StampAt(p, it.key), Stamp(it.value, it.time))
  {
  }

  /** An offer touches one key, by the merge law. */
  lemma OfferCells(p: Peer, it: Item)
    requires PeerOk(p)
    ensures Cells(Offer(p, it)) ==
            Cells(p)[it.key := OfferCell(CellAt(Cells(p), it.key), Stamp(it.value, it.time))]
  {
  }

  /** A snapshot lists every key once, in some order of the map. */
  predicate Orders(order: seq<Bytes>, keys: set<Bytes>) {
    && (forall k :: k in keys ==> k in order) && (forall k :: k in order ==> k in keys)
    && forall a, b :: 0 <= a < b < |order| ==> order[a] != order[b]
  }

  function Snapshot(p: Peer, order: seq<Bytes>): seq<Item>
    requires forall k :: k in order ==> k in p.kv
  {
    seq(|order|, n requires 0 <= n < |order| => Item(order[n], p.kv[order[n]].time, p.kv[order[n]].value))
  }

  /** The pointwise merge of two nodes' maps. */
  function PointwiseMerge(mine: map<Bytes, Cell>, theirs: map<Bytes, Cell>): map<Bytes, Cell> {
    map k | k in mine.Keys + theirs.Keys ::
      if k in theirs then OfferCell(CellAt(mine, k), theirs[k].stamp) else mine[k]
  }

  lemma {:induction false} OfferAllOk(p: Peer, its: seq<Item>)
    requires PeerOk(p)
    ensures PeerOk(OfferAll(p, its))
    decreases |its|
  {
    if its != [] {
      OfferOk(p, its[0]);
      hide PeerOk, Offer;
      OfferAllOk(Offer(p, its[0]), its[1..]);
    }
  }

  /** Entries of other keys leave a cell alone. */
  lemma {:induction false} OfferAllMiss(p: Peer, its: seq<Item>, k: Bytes)
    requires PeerOk(p) && forall n :: 0 <= n < |its| ==> its[n].key != k
    ensures CellAt(Cells(OfferAll(p, its)), k) == CellAt(Cells(p), k)
    decreases |its|
  {
    hide PeerOk, Offer, Cells;
    if its != [] {
      OfferOk(p, its[0]);
      OfferCells(p, its[0]);
      OfferAllMiss(Offer(p, its[0]), its[1..], k);
    }
  }

  /** The one entry of a key meets its cell by the merge law. */
  lemma {:induction false} OfferAllHit(p: Peer, its: seq<Item>, n: nat)
    requires PeerOk(p) && n < |its|
    requires forall m :: 0 <= m < |its| && m != n ==> its[m].key != its[n].key
    ensures CellAt(Cells(OfferAll(p, its)), its[n].key) ==
            Some(OfferCell(CellAt(Cells(p), its[n].key), Stamp(its[n].value, its[n].time)))
    decreases |its|
  {
    hide PeerOk, Offer, Cells, OfferCell;
    OfferOk(p, its[0]);
    OfferCells(p, its[0]);
    if n == 0 {
      OfferAllMiss(Offer(p, its[0]), its[1..], its[0].key);
    } else {
      assert its[1..][n - 1] == its[n];
      OfferAllHit(Offer(p, its[0]), its[1..], n - 1);
    }
  }

  /** Merging another node's state equals the pointwise last-writer-wins merge,
      for every iteration order of the other node's map. */
  lemma MergeIsPointwise(p: Peer, q: Peer, order: seq<Bytes>)
    requires PeerOk(p) && Orders(order, q.kv.Keys)
    ensures Cells(OfferAll(p, Snapshot(q, order))) == PointwiseMerge(Cells(p), Cells(q))
  {
    var its := Snapshot(q, order);
    var r := Cells(OfferAll(p, its));
    var m := PointwiseMerge(Cells(p), Cells(q));
    hide OfferCell, OfferAll, PeerOk;
    forall k
      ensures CellAt(r, k) == CellAt(m, k)
    {
      if k in q.kv {
        assert k in order;
        var n :| 0 <= n < |order| && order[n] == k;
        OfferAllHit(p, its, n);
      } else {
        assert forall n :: 0 <= n < |its| ==> its[n].key in order;
        OfferAllMiss(p, its, k);
      }
    }
    SameCells(r, m);
  }

  lemma SameCells(a: map<Bytes, Cell>, b: map<Bytes, Cell>)
    requires forall k :: CellAt(a, k) == CellAt(b, k)
    ensures a == b
  {
    forall k
      ensures k in a <==> k in b
      ensures k in a ==> a[k] == b[k]
    {
      assert CellAt(a, k) == CellAt(b, k);
    }
  }

  /** Merging one's own state changes nothing but confirmations: it confirms. */
  lemma MergeSelf(p: Peer, order: seq<Bytes>)
    requires PeerOk(p) && Orders(order, p.kv.Keys)
    ensures Cells(OfferAll(p, Snapshot(p, order))) == map k | k in Cells(p) :: Cell(Cells(p)[k].stamp, true)
  {
    MergeIsPointwise(p, p, order);
  }

  ghost predicate SameEverywhere(p: Peer, q: Peer) {
    forall k :: SameValue(StampAt(p, k), StampAt(q, k))
  }

  /** One key, two values, one timestamp. */
  predicate Clash(p: Peer, q: Peer, k: Bytes) {
    k in p.kv && k in q.kv && p.kv[k].time == q.kv[k].time && p.kv[k].value != q.kv[k].value
  }

  /** A simultaneous two-way exchange leaves equal values on every key of either
      side if and only if no key has two values with one timestamp. */
  lemma ExchangeAgrees(p: Peer, q: Peer, po: seq<Bytes>, qo: seq<Bytes>)
    requires PeerOk(p) && PeerOk(q) && Orders(po, p.kv.Keys) && Orders(qo, q.kv.Keys)
    ensures SameEverywhere(OfferAll(p, Snapshot(q, qo)), OfferAll(q, Snapshot(p, po))) <==> forall k :: !Clash(p, q, k)
  {
    var p', q' := OfferAll(p, Snapshot(q, qo)), OfferAll(q, Snapshot(p, po));
    hide PeerOk, Orders, OfferAll, Snapshot, SameValue, StampAt, Clash;
    forall k
      ensures SameValue(StampAt(p', k), StampAt(q', k)) <==> !Clash(p, q, k)
    {
      ExchangeAt(p, q, po, qo, k);
    }
    if forall k :: !Clash(p, q, k) {
      assert SameEverywhere(p', q');
    } else {
      var k :| Clash(p, q, k);
      assert !SameValue(StampAt(p', k), StampAt(q', k));
    }
  }

  lemma ExchangeAt(p: Peer, q: Peer, po: seq<Bytes>, qo: seq<Bytes>, k: Bytes)
    requires PeerOk(p) && PeerOk(q) && Orders(po, p.kv.Keys) && Orders(qo, q.kv.Keys)
    ensures SameValue(StampAt(OfferAll(p, Snapshot(q, qo)), k), StampAt(OfferAll(q, Snapshot(p, po)), k)) <==>
            !Clash(p, q, k)
  {
    hide PeerOk, Orders, OfferAll, Snapshot, SameValue, MergeOpt;
    MergedStamp(p, q, qo, k);
    MergedStamp(q, p, po, k);
    ExchangeIff(StampAt(p, k), StampAt(q, k));
  }

  lemma MergedStamp(p: Peer, q: Peer, order: seq<Bytes>, k: Bytes)
    requires PeerOk(p) && Orders(order, q.kv.Keys)
    ensures StampAt(OfferAll(p, Snapshot(q, order)), k) == MergeOpt(StampAt(p, k), StampAt(q, k))
  {
    MergeIsPointwise(p, q, order);
    var r := OfferAll(p, Snapshot(q, order));
    hide OfferAll, Snapshot, PeerOk;
    assert k in r.kv <==> k in Cells(r);
    assert k in Cells(r) <==> k in PointwiseMerge(Cells(p), Cells(q));
    if k in r.kv {
      assert StampAt(r, k) == Some(Cells(r)[k].stamp);
    }
  }

  /** Delivering the same entries one by one as set messages has the same effect
      as merging them. */
  function ReceiveAll(p: Peer, its: seq<Item>): Peer
    decreases |its|
  {
    if its == [] then p
    else ReceiveAll(Receive(p, Action(ACTION_SET, its[0].time, its[0].key, its[0].value)).peer, its[1..])
  }

  lemma {:induction false} MergeIsDelivery(p: Peer, its: seq<Item>)
    ensures ReceiveAll(p, its) == OfferAll(p, its)
    decreases |its|
  {
    if its != [] {
      var it := its[0];
      assert Item(it.key, it.time, it.value) == it;
      MergeIsDelivery(Offer(p, it), its[1..]);
    }
  }

  lemma ReadStep(buf: Bytes, done: seq<Item>, it: Item, used: nat)
    requires buf != [] && ItemParse(buf) == Ok(Parsed(it, used))
    ensures used <= |buf| && SnapshotParse(buf).ok == SnapshotParse(buf[used..]).ok
    ensures done + SnapshotParse(buf).items == (done + [it]) + SnapshotParse(buf[used..]).items
    ensures used > 0
  {
    hide ItemParse;
    var rest := SnapshotParse(buf[used..]).items;
    assert done + ([it] + rest) == (done + [it]) + rest;
  }

  lemma ReadStop(buf: Bytes)
    requires buf != [] && ItemParse(buf).Err?
    ensures SnapshotParse(buf) == Read([], false)
  {
  }

  lemma AllNulFree(p: Peer, order: seq<Bytes>)
    requires Orders(order, p.kv.Keys)
    requires forall j :: 0 <= j < |order| ==> Storable(Snapshot(p, order)[j])
    ensures forall k :: k in p.kv ==> NulFree(k)
  {
    forall k | k in p.kv
      ensures NulFree(k)
    {
      assert k in order;
      var j :| 0 <= j < |order| && order[j] == k;
      assert Storable(Snapshot(p, order)[j]);
    }
  }

  // ---- the node -----------------------------------------------------------

  class Node {
    var kv: map<Bytes, Entry>
    var closed: set<nat>
    var next: nat
    /** Broadcast payloads, oldest first. */
    var queue: seq<Bytes>

    ghost function Abs(): Peer
      reads this
    {
      Peer(kv, closed, next)
    }

    constructor ()
      ensures Abs() == EMPTY_PEER && queue == []
    {
      kv, closed, next, queue := map[], {}, 0, [];
    }

    /** True when the channel was still open. */
    method MaybeClose(c: nat) returns (now: bool)
      modifies this`closed
      ensures now == (c !in old(closed)) && closed == old(closed) + {c}
    {
      if c in closed {
        return false;
      }
      closed := closed + {c};
      return true;
    }

    /** Handles a broadcast; `ok` is false where decoding panics. */
    method NotifyMsg(b: Bytes) returns (ok: bool)
      modifies this
      ensures ok == ActionParse(b).Ok?
      ensures !ok ==> Abs() == old(Abs()) && queue == old(queue)
      ensures b == [] ==> ok && kv == old(kv) && next == old(next)
      ensures b == [] && [] in kv && kv[[]].time > -62135596800000 ==> queue == old(queue) && closed == old(closed)
      ensures ok ==>
                var a, m := ActionParse(b).value, old(kv);
                if a.key in m && (a.time < m[a.key].time || a.value == m[a.key].value) then
                  && queue == old(queue) && kv == m && next == old(next)
                  && closed == (if a.time < m[a.key].time then old(closed) else old(closed) + {m[a.key].chan})
                else
                  && queue == old(queue) + [b]
                  && kv == (if a.typ == 1 then m[a.key := Entry(a.value, a.time, old(next))]
                            else if a.typ == 2 then m - {a.key} else m)
                  && next == (if a.typ == 1 then old(next) + 1 else old(next))
                  && closed == (if a.typ == 1 then old(closed) + {old(next)} else old(closed))
      ensures ok ==> var r := Receive(old(Abs()), ActionParse(b).value);
                     Abs() == r.peer && queue == old(queue) + if r.requeued then [b] else []
    {
      var buffer := new ActionBuffer(NO_ACTION);
      ok := buffer.Decode(b);
      if !ok {
        return;
      }
      var a := buffer.a;
      if a.key in kv {
        var v := kv[a.key];
        if a.time < v.time {
          return;
        }
        if v.value == a.value {
          var confirmed := MaybeClose(v.chan);
          return;
        }
      }
      if a.typ == ACTION_SET {
        var k := Entry(a.value, a.time, next);
        next := next + 1;
        kv := kv[a.key := k];
        closed := closed + {k.chan};
      } else if a.typ == ACTION_DELETE {
        kv := kv - {a.key};
      }
      queue := queue + [b];
    }

    /** The snapshot in the given iteration order; fails when a key holds a NUL. */
    method LocalState(order: seq<Bytes>) returns (b: Result<Bytes>)
      requires Orders(order, kv.Keys)
      requires forall k :: k in kv ==> IsInt64(kv[k].time) && |kv[k].value| < TWO_63
      ensures b.Ok? <==> forall k :: k in kv ==> NulFree(k)
      ensures b.Ok? ==> SnapshotParse(b.value) == Read(Snapshot(Abs(), order), true)
    {
      ghost var items := Snapshot(Abs(), order);
      var out: Bytes := [];
      for n := 0 to |order|
        invariant forall j :: 0 <= j < n ==> Storable(items[j])
        invariant out == SnapshotBytes(items[..n])
      {
        assert order[n] in order;
        var e := new EntryBuffer();
        e.e := Item(order[n], kv[order[n]].time, kv[order[n]].value);
        var piece := e.Encode();
        if piece.Err? {
          return Err("panic");
        }
        hide SnapshotBytes, ItemBytes, SnapshotParse, ItemParse;
        SnapshotAppend(items[..n], items[n]);
        assert items[..n + 1] == items[..n] + [items[n]];
        out := out + piece.value;
      }
      assert items[..|order|] == items;
      SnapshotRoundTrip(items);
      AllNulFree(Abs(), order);
      return Ok(out);
    }

    /** Merges a snapshot entry by entry; stops where decoding panics. */
    method MergeRemoteState(buf0: Bytes) returns (ok: bool)
      modifies this`kv, this`closed, this`next
      ensures ok == SnapshotParse(buf0).ok
      ensures Abs() == OfferAll(old(Abs()), SnapshotParse(buf0).items)
    {
      var buf := buf0;
      ghost var done: seq<Item> := [];
      while |buf| > 0
        invariant SnapshotParse(buf0).items == done + SnapshotParse(buf).items
        invariant SnapshotParse(buf0).ok == SnapshotParse(buf).ok
        invariant Abs() == OfferAll(old(Abs()), done)
        decreases |buf|
      {
        hide SnapshotParse, ItemParse, OfferAll;
        var k := new EntryBuffer();
        var n := k.Decode(buf);
        if n.Err? {
          ReadStop(buf);
          assert done + [] == done;
          return false;
        }
        OfferAllSnoc(old(Abs()), done, k.e);
        ReadStep(buf, done, k.e, n.value);
        done := done + [k.e];
        buf := buf[n.value..];
        Absorb(k.e);
      }
      assert done + [] == done;
      return true;
    }

    /** One decoded entry of a snapshot. */
    method Absorb(it: Item)
      modifies this`kv, this`closed, this`next
      ensures var m := old(kv);
              if it.key in m && (it.time < m[it.key].time || it.value == m[it.key].value) then
                && kv == m && next == old(next)
                && closed == (if it.time < m[it.key].time then old(closed) else old(closed) + {m[it.key].chan})
              else
                && kv == m[it.key := Entry(it.value, it.time, old(next))] && next == old(next) + 1
                && closed == old(closed) + {old(next)}
      ensures Abs() == Offer(old(Abs()), it)
    {
      if it.key in kv {
        var v := kv[it.key];
        if it.time < v.time {
          return;
        }
        if v.value == it.value {
          var confirmed := MaybeClose(v.chan);
          return;
        }
      }
      var chan := next;
      next := next + 1;
      kv := kv[it.key := Entry(it.value, it.time, chan)];
      var open := MaybeClose(chan);
    }

    /** The locked part of a set: returns the channel to wait on. When the stored
        value is already this one the caller waits with the lock held. A key that
        holds a NUL is stored, but encoding its broadcast panics. */
    method SetBegin(key: Bytes, value: Bytes, now: int) returns (chan: nat, locked: bool, ok: bool)
      requires IsInt64(now)
      modifies this`kv, this`next, this`queue
      ensures Abs() == SetLocal(old(Abs()), key, value, now)
      ensures key in kv && kv[key].value == value && kv[key].chan == chan
      ensures locked == (key in old(kv) && old(kv)[key].value == value)
      ensures ok == (locked || NulFree(key))
      ensures locked || !ok ==> queue == old(queue)
      ensures locked ==> kv == old(kv) && next == old(next)
      ensures !locked ==> kv == old(kv)[key := Entry(value, now, old(next))] && next == old(next) + 1
      ensures !locked ==> chan == old(next)
      ensures !locked && ok ==>
                && |queue| == |old(queue)| + 1 && queue[..|old(queue)|] == old(queue)
                && queue[|old(queue)|] == ActionBytes(Action(ACTION_SET, now, key, value))
                && ActionParse(queue[|old(queue)|]) == Ok(Action(ACTION_SET, now, key, value))
    {
      if key in kv && kv[key].value == value {
        return kv[key].chan, true, true;
      }
      chan := next;
      next := next + 1;
      kv := kv[key := Entry(value, now, chan)];
      var a := new ActionBuffer(Action(ACTION_SET, now, key, value));
      var b := a.Encode();
      if b.Err? {
        return chan, false, false;
      }
      queue := queue + [b.value];
      return chan, false, true;
    }

    /** A look at the cluster size while a set waits: one member confirms. */
    method SetTick(chan: nat, members: nat)
      modifies this`closed
      ensures closed == if members == 1 then old(closed) + {chan} else old(closed)
    {
      if members == 1 {
        var confirmed := MaybeClose(chan);
      }
    }

    /** The select on which a set and a read wait: over the channel and the context,
        in either way when both are ready. The caller waits on while neither is. */
    method Await(chan: nat, expired: bool) returns (w: Wait)
      ensures w.Confirmed? ==> chan in closed
      ensures w.Cancelled? ==> expired
      ensures w.Blocked? <==> chan !in closed && !expired
    {
      if
      case chan in closed => return Confirmed;
      case expired => return Cancelled;
      case chan !in closed && !expired => return Blocked;
    }

    /** A read looks the key up once; the entry found is the one it waits on. */
    method GetBegin(key: Bytes) returns (found: Option<Entry>)
      ensures found == Find(Abs(), key)
    {
      if key !in kv {
        return None;
      }
      return Some(kv[key]);
    }

    /** The rest of a read, at any later moment: the entry may have been replaced. */
    method GetDone(found: Option<Entry>, expired: bool) returns (r: Answer)
      ensures Returns(found, closed, expired, r)
    {
      if found.None? {
        return Absent;
      }
      var w := Await(found.value.chan, expired);
      return match w
        case Confirmed => Value(found.value.value)
        case Cancelled => Timeout
        case Blocked => Pending;
    }
  }
}
