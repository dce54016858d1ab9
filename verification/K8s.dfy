/** The Kubernetes backend: optimistic concurrency on the resource version of a
    Lease object, and the lossy conversion between records and Lease specs. */
module K8s {
  import opened Records
  import opened Protocol
  import opened Exclusion
  import opened Tightness

  // ---- conversions --------------------------------------------------------

  predicate IsInt32(x: int) { -0x8000_0000 <= x < 0x8000_0000 }

  /** Conversion to a 32-bit signed integer wraps around. */
  function Int32(x: int): (r: int)
    ensures IsInt32(r) && (IsInt32(x) ==> r == x)
  {
    var u := x % 0x1_0000_0000;
    if u < 0x8000_0000 then u else u - 0x1_0000_0000
  }

  /** Division that truncates towards zero. */
  function Quotient(a: int, b: int): int
    requires b > 0
  {
    if a >= 0 then a / b else -((-a) / b)
  }

  /** A Lease spec; times in microseconds, every field may be absent. */
  datatype Spec = Spec(
    holder: Option<Id>,
    seconds: Option<int>,
    acquireUs: Option<int>,
    renewUs: Option<int>,
    transitions: Option<int>)

  function Or(o: Option<int>, d: int): int {
    if o.Some? then o.value else d
  }

  /** Whole seconds of a millisecond duration, at least one second when zero. */
  function Seconds(ms: int): int {
    var s := Quotient(Int32(ms), 1000);
    if s == 0 then 1 else s
  }

  function ToSpec(r: Record): Spec {
    Spec(Some(r.holder), Some(Seconds(r.leaseMs)), Some(r.acquireMs * 1000), Some(r.renewMs * 1000),
         Some(Int32(r.transitions)))
  }

  function FromSpec(s: Spec): Record {
    Record(if s.holder.Some? then s.holder.value else "", Or(s.seconds, 0) * 1000,
           Or(s.acquireUs, 0) / 1000, Or(s.renewUs, 0) / 1000, Or(s.transitions, 0))
  }

  /** What a record reads as after being stored. */
  function Stored(r: Record): Record {
    FromSpec(ToSpec(r))
  }

  function Max(a: int, b: int): int { if a < b then b else a }

  /** Storing keeps holder and times; within 32 bits it keeps the transition count
      and turns a duration into whole seconds, at least one. */
  lemma StoredRecord(r: Record)
    ensures ToSpec(r).holder == Some(r.holder)
    ensures ToSpec(r).acquireUs == Some(1000 * r.acquireMs) && ToSpec(r).renewUs == Some(1000 * r.renewMs)
    ensures Stored(r).holder == r.holder && Stored(r).acquireMs == r.acquireMs && Stored(r).renewMs == r.renewMs
    ensures Stored(r).transitions == r.transitions <==> IsInt32(r.transitions)
    ensures 0 <= r.leaseMs < 0x8000_0000 ==> Stored(r).leaseMs == Max(1000, 1000 * (r.leaseMs / 1000))
  {
  }

  /** A record survives storage unchanged if and only if its count fits 32 bits and
      its duration is a non-zero number of whole seconds that fits them too. */
  lemma StoredIffExact(r: Record)
    ensures Stored(r) == r <==>
            IsInt32(r.transitions) && IsInt32(r.leaseMs) && r.leaseMs != 0 && r.leaseMs % 1000 == 0
  {
  }

  /** Storing twice is storing once. */
  lemma StoredIdempotent(r: Record)
    ensures Stored(Stored(r)) == Stored(r)
  {
  }

  /** A spec survives reading and writing back if and only if every field is
      present, its seconds are non-zero and at most 2147483 in size, its times
      are whole milliseconds and its count fits 32 bits. */
  lemma SpecRoundTrip(s: Spec)
    ensures ToSpec(FromSpec(s)) == s <==>
            && s.holder.Some? && s.seconds.Some? && s.acquireUs.Some? && s.renewUs.Some? && s.transitions.Some?
            && s.seconds.value != 0 && -2147483 <= s.seconds.value <= 2147483
            && s.acquireUs.value % 1000 == 0 && s.renewUs.value % 1000 == 0
            && IsInt32(s.transitions.value)
  {
  }

  // ---- the lock -----------------------------------------------------------

  /** A Lease as a client holds it; version 0 is that of the blank object which a
      failed Create leaves behind. */
  datatype Lease = Lease(spec: Spec, version: nat)

  const BLANK := Lease(Spec(None, None, None, None, None), 0)

  /** What happens to a request: answered, applied with the answer lost, or lost. */
  datatype Fate = Answered | AnswerLost | RequestLost

  /** The API server: every write accepted so far; the resource version of the
      current object is their number. */
  class Server {
    var writes: seq<Spec>

    constructor ()
      ensures writes == []
    {
      writes := [];
    }

    method Create(spec: Spec) returns (ok: bool)
      modifies this
      ensures ok == (old(writes) == []) && writes == old(writes) + if ok then [spec] else []
    {
      ok := |writes| == 0;
      if ok {
        writes := writes + [spec];
      }
    }

    /** Optimistic concurrency: only the current version can be replaced. */
    method Update(lease: Lease) returns (ok: bool)
      modifies this
      ensures ok == (0 < lease.version == |old(writes)|) && writes == old(writes) + if ok then [lease.spec] else []
    {
      ok := 0 < lease.version && lease.version == |writes|;
      if ok {
        writes := writes + [lease.spec];
      }
    }
  }

  class LeaseLock {
    var lease: Option<Lease>

    constructor ()
      ensures lease == None
    {
      lease := None;
    }

    /** The version a set would compare with; 0 when there is none. */
    function Version(): nat
      reads this
    {
      if lease.None? then 0 else lease.value.version
    }

    method Get(server: Server, fate: Fate) returns (rec: Result<Record>)
      modifies this
      ensures rec.Ok? <==> fate.Answered? && server.writes != []
      ensures rec.Ok? ==>
                && rec.value == FromSpec(server.writes[|server.writes| - 1])
                && Version() == |server.writes|
      ensures rec.Err? ==> lease == old(lease) && (rec.error == "not exist" <==> fate.Answered?)
    {
      if !fate.Answered? {
        return Err("unavailable");
      }
      if |server.writes| == 0 {
        return Err("not exist");
      }
      var found := Lease(server.writes[|server.writes| - 1], |server.writes|);
      lease := Some(found);
      return Ok(FromSpec(found.spec));
    }

    method Create(server: Server, rec: Record, fate: Fate) returns (ok: bool)
      modifies this, server
      ensures server.writes == old(server.writes) +
                               if !fate.RequestLost? && old(server.writes) == [] then [ToSpec(rec)] else []
      ensures ok <==> fate.Answered? && old(server.writes) == []
      ensures lease == Some(if ok then Lease(ToSpec(rec), 1) else BLANK)
    {
      ok := false;
      if !fate.RequestLost? {
        ok := server.Create(ToSpec(rec));
      }
      ok := ok && fate.Answered?;
      lease := Some(if ok then Lease(ToSpec(rec), |server.writes|) else BLANK);
    }

    /** A compare-and-swap on the cached version: the write lands exactly when that
        version is current, whatever becomes of the answer; the cached version
        moves on only with a received success. */
    method Update(server: Server, rec: Record, fate: Fate) returns (ok: bool)
      modifies this, server
      ensures server.writes == old(server.writes) +
                               if !fate.RequestLost? && 0 < old(Version()) == |old(server.writes)| then [ToSpec(rec)]
                               else []
      ensures ok <==> fate.Answered? && 0 < old(Version()) == |old(server.writes)|
      ensures Version() == if ok then old(Version()) + 1 else old(Version())
      ensures lease.None? <==> old(lease).None?
      ensures lease.Some? ==> lease.value.spec == ToSpec(rec)
    {
      if lease.None? {
        return false;
      }
      lease := Some(lease.value.(spec := ToSpec(rec)));
      ok := false;
      if !fate.RequestLost? {
        ok := server.Update(lease.value);
      }
      ok := ok && fate.Answered?;
      if ok {
        lease := Some(Lease(ToSpec(rec), |server.writes|));
      }
    }
  }

  // ---- exclusion on Kubernetes --------------------------------------------

  /** The stored durations are the converted ones, the release's included. */
  predicate OnKubernetes(c: Cfg) {
    && c.releaseMs == 1000 * Seconds(1)
    && forall i :: i in c.nodes ==>
                     && 0.0 < c.nodes[i].lease
                     && c.nodes[i].leaseMs == 1000 * Seconds(c.nodes[i].lease.Floor)
  }

  /** The duration this backend stores for the node, in milliseconds, outlasts the window. */
  predicate MeetsBound(c: Cfg, i: Id)
    requires i in c.nodes
  {
    (1000 * Seconds(c.nodes[i].lease.Floor)) as real >= Scaled(c.ratio, Window(c.nodes[i]) + 1.0)
  }

  /** What a positive duration is stored as: the whole seconds of its value wrapped
      to 32 bits, at least one second, and negative for most durations whose
      milliseconds do not fit. */
  lemma StoredDuration(ms: int)
    requires 0 <= ms
    ensures ms < 0x8000_0000 ==> 1000 * Seconds(ms) == Max(1000, 1000 * (ms / 1000))
    ensures 0x8000_0000 <= ms <= 0xFFFF_FFFF - 999 ==> 1000 * Seconds(ms) < 0
    ensures ms >= 0x1_0000_0000 ==> Seconds(ms) == Seconds(ms - 0x1_0000_0000)
  {
  }

  /** Exclusion on Kubernetes, exactly: no run has two leaders if and only if every
      lease duration meets the bound once it is cut to whole seconds; durations
      whose milliseconds wrap to a negative number never do. */
  lemma KubernetesExclusion(c: Cfg, x: Id, y: Id)
    requires CfgOk(c) && OnKubernetes(c) && x in c.nodes && y in c.nodes && x != y
    ensures (forall s :: Reachable(c, s) ==> Exclusive(s)) <==>
            forall i :: i in c.nodes ==> MeetsBound(c, i)
    ensures (forall i :: i in c.nodes ==> c.nodes[i].lease.Floor < 0x8000_0000) ==>
              ((forall s :: Reachable(c, s) ==> Exclusive(s)) <==>
               forall i :: i in c.nodes ==>
                             Max(1000, 1000 * (c.nodes[i].lease.Floor / 1000)) as real >=
                               Scaled(c.ratio, Window(c.nodes[i]) + 1.0))
    ensures (exists i :: i in c.nodes && 0x8000_0000 <= c.nodes[i].lease.Floor <= 0xFFFF_FFFF - 999) ==>
              exists s :: Reachable(c, s) && !Exclusive(s)
  {
    hide Reachable, Exclusive, Window, Seconds;
    ExclusionIff(c, x, y);
    forall i | i in c.nodes
      ensures c.nodes[i].lease.Floor < 0x8000_0000 ==>
                c.nodes[i].leaseMs == Max(1000, 1000 * (c.nodes[i].lease.Floor / 1000))
      ensures 0x8000_0000 <= c.nodes[i].lease.Floor <= 0xFFFF_FFFF - 999 ==> c.nodes[i].leaseMs < 0
    {
      StoredDuration(c.nodes[i].lease.Floor);
    }
    if i :| i in c.nodes && 0x8000_0000 <= c.nodes[i].lease.Floor <= 0xFFFF_FFFF - 999 {
      BoundPositive(c, i);
      assert !Bound(c);
    }
  }

  lemma BoundPositive(c: Cfg, i: Id)
    requires CfgOk(c) && i in c.nodes
    ensures Scaled(c.ratio, Window(c.nodes[i]) + 1.0) > 0.0
  {
    var span := Window(c.nodes[i]) + 1.0;
    assert span > 0.0;
    Positive(c.ratio, span);
  }

  lemma Positive(a: real, b: real)
    requires a >= 1.0 && b > 0.0
    ensures a * b > 0.0
  {
  }

  /** The cut matters: durations that exclude on a backend which stores
      milliseconds, with perfect clocks and instant answers, do not on this one. */
  lemma RoundingBreaksExclusion(x: Id, y: Id) returns (plain: Cfg, kube: Cfg, s: State)
    requires x != "" && y != "" && x != y
    ensures CfgOk(plain) && CfgOk(kube) && OnKubernetes(kube) && plain.nodes.Keys == kube.nodes.Keys == {x, y}
    ensures forall i :: i in plain.nodes ==>
                          && plain.nodes[i].leaseMs == plain.nodes[i].lease.Floor
                          && kube.nodes[i] == plain.nodes[i].(leaseMs := kube.nodes[i].leaseMs)
    ensures forall t :: Reachable(plain, t) ==> Exclusive(t)
    ensures Reachable(kube, s) && !Exclusive(s)
  {
    hide Reachable, Exclusive;
    var p := NodeCfg(12500, 12500.0, 10000.0, 2000.0, 0.0);
    var k := p.(leaseMs := 12000);
    plain := Cfg(map[x := p, y := p], 1.0, 1);
    kube := Cfg(map[x := k, y := k], 1.0, 1000);
    ExclusionIff(plain, x, y);
    s := TwoLeaders(kube, x, y);
  }
}
