/** One key of the replicated map: how an incoming entry meets the stored one,
    and exactly when the order, repetition and path of delivery do not matter. */
module Lww {
  import opened Records
  import opened Codec

  /** A stamped value. */
  datatype Stamp = Stamp(value: Bytes, time: int)

  /** An older entry is skipped, an equal value keeps the stored entry, time
      included; anything else replaces it. */
  function Merge(cur: Option<Stamp>, inc: Stamp): Option<Stamp> {
    if cur.Some? && (inc.time < cur.value.time || inc.value == cur.value.value) then cur else Some(inc)
  }

  /** Whether an incoming entry is stored, and hence broadcast again. */
  predicate Accepts(cur: Option<Stamp>, inc: Stamp) {
    cur.None? || (inc.time >= cur.value.time && inc.value != cur.value.value)
  }

  function MergeAll(cur: Option<Stamp>, incs: seq<Stamp>): Option<Stamp>
    decreases |incs|
  {
    if incs == [] then cur else MergeAll(Merge(cur, incs[0]), incs[1..])
  }

  function Elements(incs: seq<Stamp>): set<Stamp> {
    set k | 0 <= k < |incs| :: incs[k]
  }

  /** No entry of another value is stamped between two entries of one value; with
      both ends the same entry this says that different values never tie. */
  predicate Separated(all: set<Stamp>) {
    forall a, b, c :: a in all && b in all && c in all && a.value == c.value && a.value != b.value ==>
                        !(a.time <= b.time <= c.time)
  }

  /** Different values never share a timestamp. */
  predicate NoTies(all: set<Stamp>) {
    forall a, b :: a in all && b in all && a.time == b.time ==> a.value == b.value
  }

  lemma SeparatedNoTies(all: set<Stamp>)
    requires Separated(all)
    ensures NoTies(all)
  {
  }

  /** One timestamp per value and one value per timestamp is enough. */
  lemma OneToOneSeparated(all: set<Stamp>)
    requires NoTies(all)
    requires forall a, b :: a in all && b in all && a.value == b.value ==> a.time == b.time
    ensures Separated(all)
  {
  }

  /** The stored entry carries the value with the greatest timestamps seen. */
  predicate Reflects(cur: Option<Stamp>, seen: set<Stamp>) {
    match cur
    case None => seen == {}
    case Some(e) => e in seen && forall b :: b in seen && b.value != e.value ==> b.time < e.time
  }

  /** Two stores that have seen the same entries hold the same value. */
  lemma ReflectsUnique(a: Option<Stamp>, b: Option<Stamp>, seen: set<Stamp>)
    requires Reflects(a, seen) && Reflects(b, seen)
    ensures a.Some? <==> b.Some?
    ensures a.Some? ==> a.value.value == b.value.value
  {
  }

  lemma MergeReflects(cur: Option<Stamp>, inc: Stamp, seen: set<Stamp>)
    requires Reflects(cur, seen) && Separated(seen + {inc})
    ensures Reflects(Merge(cur, inc), seen + {inc})
  {
  }

  lemma SeparatedSubset(all: set<Stamp>, part: set<Stamp>)
    requires Separated(all) && part <= all
    ensures Separated(part)
  {
  }

  lemma {:induction false} MergeAllReflects(cur: Option<Stamp>, incs: seq<Stamp>, seen: set<Stamp>)
    requires Reflects(cur, seen) && Separated(seen + Elements(incs))
    ensures Reflects(MergeAll(cur, incs), seen + Elements(incs))
    decreases |incs|
  {
    if incs == [] {
      assert seen + Elements(incs) == seen;
    } else {
      var all := seen + Elements(incs);
      assert incs[0] in Elements(incs);
      SeparatedSubset(all, seen + {incs[0]});
      MergeReflects(cur, incs[0], seen);
      ElementsTail(incs);
      assert (seen + {incs[0]}) + Elements(incs[1..]) == all;
      MergeAllReflects(Merge(cur, incs[0]), incs[1..], seen + {incs[0]});
    }
  }

  lemma ElementsTail(incs: seq<Stamp>)
    requires incs != []
    ensures Elements(incs) == {incs[0]} + Elements(incs[1..])
  {
  }

  /** Same set delivered, same value held, whatever the order and repetition. */
  ghost predicate OrderFree(all: set<Stamp>) {
    forall p, q ::
      Elements(p) == Elements(q) && Elements(p) <= all ==>
        SameValue(MergeAll(None, p), MergeAll(None, q))
  }

  predicate SameValue(a: Option<Stamp>, b: Option<Stamp>) {
    (a.Some? <==> b.Some?) && (a.Some? ==> a.value.value == b.value.value)
  }

  /** Convergence, exactly: delivery order and repetition never matter if and only
      if the entries are separated. */
  lemma ConvergenceIff(all: set<Stamp>)
    ensures OrderFree(all) <==> Separated(all)
  {
    if Separated(all) {
      forall p, q | Elements(p) == Elements(q) && Elements(p) <= all
        ensures SameValue(MergeAll(None, p), MergeAll(None, q))
      {
        SeparatedSubset(all, Elements(p));
        assert {} + Elements(p) == Elements(p) && {} + Elements(q) == Elements(q);
        MergeAllReflects(None, p, {});
        MergeAllReflects(None, q, {});
        ReflectsUnique(MergeAll(None, p), MergeAll(None, q), Elements(p));
      }
    } else {
      var a, b, c :| a in all && b in all && c in all && a.value == c.value && a.value != b.value
                     && a.time <= b.time <= c.time;
      OrderMatters(all, a, b, c);
    }
  }

  /** Stored early and confirmed late, `a` keeps its old stamp and loses to `b`;
      delivered after `b`, `c` wins. */
  lemma OrderMatters(all: set<Stamp>, a: Stamp, b: Stamp, c: Stamp)
    requires a in all && b in all && c in all
    requires a.value == c.value && a.value != b.value && a.time <= b.time <= c.time
    ensures !OrderFree(all)
  {
    var p, q := [a, c, b], [b, c, a];
    ElementsOfThree(a, c, b);
    ElementsOfThree(b, c, a);
    MergeThree(a, c, b);
    MergeThree(b, c, a);
    assert Elements(p) == Elements(q) <= all;
    assert !SameValue(MergeAll(None, p), MergeAll(None, q));
  }

  lemma ElementsOfThree(a: Stamp, b: Stamp, c: Stamp)
    ensures Elements([a, b, c]) == {a, b, c}
  {
    var p := [a, b, c];
    assert p[0] == a && p[1] == b && p[2] == c;
  }

  lemma MergeThree(a: Stamp, b: Stamp, c: Stamp)
    ensures MergeAll(None, [a, b, c]) == Merge(Merge(Merge(None, a), b), c)
  {
    var one := Merge(None, a);
    var two := Merge(one, b);
    assert [a, b, c][1..] == [b, c] && [b, c][1..] == [c] && [c][1..] == [];
    assert MergeAll(None, [a, b, c]) == MergeAll(one, [b, c]);
    assert MergeAll(one, [b, c]) == MergeAll(two, [c]);
    assert MergeAll(two, [c]) == MergeAll(Merge(two, c), []);
  }

  // ---- flooding -----------------------------------------------------------

  /** How often a store re-queues while a sequence of messages is delivered. */
  function Requeues(cur: Option<Stamp>, incs: seq<Stamp>): nat
    decreases |incs|
  {
    if incs == [] then 0
    else (if Accepts(cur, incs[0]) then 1 else 0) + Requeues(Merge(cur, incs[0]), incs[1..])
  }

  /** Timestamps newer than the stored entry. */
  function Newer(cur: Option<Stamp>, all: set<Stamp>): set<int> {
    set e | e in all && (cur.None? || e.time > cur.value.time) :: e.time
  }

  function Times(all: set<Stamp>): set<int> {
    set e | e in all :: e.time
  }

  lemma SubsetSize(a: set<int>, b: set<int>)
    requires a <= b
    ensures |a| <= |b|
  {
    assert b == a + (b - a);
  }

  lemma ProperSize(a: set<int>, b: set<int>, x: int)
    requires a <= b && x in b && x !in a
    ensures |a| < |b|
  {
    SubsetSize(a + {x}, b);
  }

  /** The measure: each acceptance uses up a newer timestamp. */
  lemma AcceptUses(cur: Option<Stamp>, inc: Stamp, all: set<Stamp>)
    requires NoTies(all) && inc in all && (cur.Some? ==> cur.value in all)
    ensures |Newer(Merge(cur, inc), all)| + (if Accepts(cur, inc) then 1 else 0) <= |Newer(cur, all)|
  {
    if Accepts(cur, inc) {
      ProperSize(Newer(Some(inc), all), Newer(cur, all), inc.time);
    }
  }

  lemma {:induction false} RequeuesBounded(cur: Option<Stamp>, incs: seq<Stamp>, all: set<Stamp>)
    requires NoTies(all) && Elements(incs) <= all && (cur.Some? ==> cur.value in all)
    ensures Requeues(cur, incs) <= |Newer(cur, all)|
    decreases |incs|
  {
    if incs != [] {
      ElementsTail(incs);
      AcceptUses(cur, incs[0], all);
      RequeuesBounded(Merge(cur, incs[0]), incs[1..], all);
    }
  }

  /** Two tied messages delivered in turn. */
  function PingPong(a: Stamp, b: Stamp, n: nat): seq<Stamp>
    decreases n
  {
    if n == 0 then [] else [a] + PingPong(b, a, n - 1)
  }

  lemma {:induction false} PingPongElements(a: Stamp, b: Stamp, n: nat)
    ensures Elements(PingPong(a, b, n)) <= {a, b}
    decreases n
  {
    if n > 0 {
      PingPongElements(b, a, n - 1);
      ElementsTail(PingPong(a, b, n));
      assert PingPong(a, b, n)[1..] == PingPong(b, a, n - 1);
    }
  }

  lemma {:induction false} PingPongFloods(a: Stamp, b: Stamp, cur: Option<Stamp>, n: nat)
    requires a.time == b.time && a.value != b.value && (cur == None || cur == Some(b))
    ensures Requeues(cur, PingPong(a, b, n)) == n
    decreases n
  {
    if n > 0 {
      PingPongFloods(b, a, Some(a), n - 1);
      assert PingPong(a, b, n)[1..] == PingPong(b, a, n - 1);
    }
  }

  ghost predicate FloodBound(all: set<Stamp>, bound: nat) {
    forall incs :: Elements(incs) <= all ==> Requeues(None, incs) <= bound
  }

  /** Flooding, exactly: the number of broadcasts a node re-queues for a key is
      bounded, whatever is delivered and how often, if and only if no two
      values tie; the bound is the number of distinct timestamps. */
  lemma FloodIff(all: set<Stamp>)
    ensures NoTies(all) <==> exists bound: nat :: FloodBound(all, bound)
    ensures NoTies(all) ==> FloodBound(all, |Times(all)|)
  {
    if NoTies(all) {
      forall incs | Elements(incs) <= all
        ensures Requeues(None, incs) <= |Times(all)|
      {
        RequeuesBounded(None, incs, all);
        assert Newer(None, all) == Times(all);
      }
      assert FloodBound(all, |Times(all)|);
    } else {
      var a, b :| a in all && b in all && a.time == b.time && a.value != b.value;
      forall bound: nat
        ensures !FloodBound(all, bound)
      {
        var incs := PingPong(a, b, bound + 1);
        PingPongElements(a, b, bound + 1);
        PingPongFloods(a, b, None, bound + 1);
        assert Elements(incs) <= all && Requeues(None, incs) == bound + 1;
      }
    }
  }

  // ---- push/pull ----------------------------------------------------------

  function MergeOpt(cur: Option<Stamp>, inc: Option<Stamp>): Option<Stamp> {
    if inc.None? then cur else Merge(cur, inc.value)
  }

  /** A simultaneous exchange leaves both sides with the same value if and only if
      the two entries are not different values with one timestamp. */
  lemma ExchangeIff(a: Option<Stamp>, b: Option<Stamp>)
    ensures SameValue(MergeOpt(a, b), MergeOpt(b, a)) <==>
            !(a.Some? && b.Some? && a.value.time == b.value.time && a.value.value != b.value.value)
  {
  }
}
