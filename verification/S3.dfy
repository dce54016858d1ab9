/** The S3 backend: an entity tag remembered by Get guards the Put of a later
    set. The check and the Put are two requests, so the guard is a
    compare-and-swap only when nothing lands between them. */
module S3 {
  import opened Records
  import opened Elector

  /** Entity tags; the empty string is the zero value of a missing answer. */
  type Etag = string

  datatype StatAnswer = Found(etag: Etag) | NotFound | StatFailed
  datatype BodyAnswer = Body(rec: Record) | BodyFailed
  datatype PutAnswer = Stored(etag: Etag) | PutFailed

  /** The tag cached after Get's Stat: a missing object leaves it, and a failed
      Stat clears it because the zero answer is used all the same. */
  function TagAfterStat(etag: Etag, st: StatAnswer): Etag {
    match st
    case Found(e) => e
    case NotFound => etag
    case StatFailed => ""
  }

  /** The tag that set's Stat compares with. */
  function SeenTag(st: StatAnswer): Etag {
    if st.Found? then st.etag else ""
  }

  predicate Matches(etag: Etag, st: StatAnswer) {
    !st.StatFailed? && SeenTag(st) == etag
  }

  class Lock {
    var etag: Etag

    constructor ()
      ensures etag == ""
    {
      etag := "";
    }

    method Get(st: StatAnswer, body: BodyAnswer) returns (rec: Result<Record>)
      modifies this
      ensures etag == match st case Found(e) => e case NotFound => old(etag) case StatFailed => ""
      ensures etag == TagAfterStat(old(etag), st)
      ensures rec.Ok? <==> !st.NotFound? && body.Body?
      ensures rec.Ok? ==> rec.value == body.rec
    {
      if st.NotFound? {
        return Err("not exist");
      }
      etag := if st.Found? then st.etag else "";
      match body {
        case BodyFailed => return Err("read");
        case Body(r) => return Ok(r);
      }
    }

    /** Create and Update alike. `sent` is the body put to the store, if any. */
    method Set(rec: Record, st: StatAnswer, put: PutAnswer) returns (ok: bool, sent: Option<Record>)
      modifies this
      ensures sent.Some? <==> if st.Found? then st.etag == old(etag) else st.NotFound? && old(etag) == ""
      ensures sent.Some? ==> sent.value == rec
      ensures sent.Some? <==> Matches(old(etag), st)
      ensures ok <==> sent.Some? && put.Stored?
      ensures etag == if ok then put.etag else old(etag)
    {
      if st.StatFailed? {
        return false, None;
      }
      var seen := if st.Found? then st.etag else "";
      if seen != etag {
        return false, None;
      }
      if put.PutFailed? {
        return false, Some(rec);
      }
      etag := put.etag;
      return true, Some(rec);
    }
  }

  // ---- several locks on one object ----------------------------------------

  /** The object's history: each Put with the tag it was given. */
  datatype Obj = Obj(etag: Etag, rec: Record, writer: Id)

  /** What a node's lock waits for: after a matching check its Put is under way, and
      after the Put has landed as version `ver` its answer is. */
  datatype Op = Resting | Reading | Matched(at: nat, rec: Record) | Answering(ver: nat, etag: Etag)

  /** `base` is the version whose tag is cached, `last` the version whose record
      the node last fetched or wrote, and `torn` says that a Get failed after its
      Stat had refreshed the tag; none of the three is read by a step. */
  datatype Node = Node(etag: Etag, op: Op, base: nat, last: nat, torn: bool)

  datatype World = World(log: seq<Obj>, nodes: map<Id, Node>)

  /** `PutLost` ends the wait with an error, whether or not the Put has landed; `Late`
      is a Put that lands after its sender gave up on it. */
  datatype Event =
    | GetStat(i: Id, ok: bool)
    | GetBody(i: Id, ok: bool)
    | SetStat(i: Id, rec: Record, ok: bool)
    | Put(i: Id, etag: Etag)
    | PutAck(i: Id)
    | PutLost(i: Id)
    | Late(i: Id, rec: Record, etag: Etag)

  function TagAt(log: seq<Obj>, v: nat): Etag
    requires v <= |log|
  {
    if v == 0 then "" else log[v - 1].etag
  }

  function StatOf(log: seq<Obj>, ok: bool): StatAnswer {
    if !ok then StatFailed else if log == [] then NotFound else Found(log[|log| - 1].etag)
  }

  predicate Init(w: World) {
    w.log == [] && forall i :: i in w.nodes ==> w.nodes[i] == Node("", Resting, 0, 0, false)
  }

  predicate Enabled(w: World, e: Event) {
    && e.i in w.nodes
    && match e
       case GetStat(i, _) => w.nodes[i].op.Resting?
       case GetBody(i, ok) => w.nodes[i].op.Reading? && (ok ==> w.log != [])
       case SetStat(i, _, _) => w.nodes[i].op.Resting?
       case Put(i, etag) => w.nodes[i].op.Matched? && etag != ""
       case PutAck(i) => w.nodes[i].op.Answering?
       case PutLost(i) => w.nodes[i].op.Matched? || w.nodes[i].op.Answering?
       case Late(_, _, etag) => etag != ""
  }

  function NextNode(log: seq<Obj>, n: Node, e: Event): Node {
    match e
    case GetStat(_, ok) =>
      var st := StatOf(log, ok);
      n.(etag := TagAfterStat(n.etag, st), op := if st.NotFound? then Resting else Reading,
      base := if st.Found? then |log| else if st.NotFound? then n.base else 0)
    case GetBody(_, ok) =>
      if ok then n.(op := Resting, last := |log|, torn := false) else n.(op := Resting, torn := true)
    case SetStat(_, rec, ok) =>
      if Matches(n.etag, StatOf(log, ok)) then n.(op := Matched(|log|, rec)) else n
    case Put(_, etag) => n.(op := Answering(|log| + 1, etag))
    case PutAck(_) => if n.op.Answering? then Node(n.op.etag, Resting, n.op.ver, n.op.ver, false) else n
    case PutLost(_) => n.(op := Resting)
    case Late(_, _, _) => n
  }

  function Next(w: World, e: Event): World
    requires Enabled(w, e)
  {
    var n := w.nodes[e.i];
    World(if e.Put? then w.log + [Obj(e.etag, n.op.rec, e.i)]
          else if e.Late? then w.log + [Obj(e.etag, e.rec, e.i)]
          else w.log,
          w.nodes[e.i := NextNode(w.log, n, e)])
  }

  ghost predicate Valid(w: World, es: seq<Event>)
    decreases |es|
  {
    es != [] ==> Enabled(w, es[0]) && Valid(Next(w, es[0]), es[1..])
  }

  ghost function Run(w: World, es: seq<Event>): World
    requires Valid(w, es)
    decreases |es|
  {
    if es == [] then w else Run(Next(w, es[0]), es[1..])
  }

  /** No replaced tag comes back: equal tags enclose only equal objects. Putting
      the same bytes again may repeat the current tag. */
  predicate NoReturn(log: seq<Obj>) {
    forall a, m, b :: 0 <= a <= m <= b < |log| && log[a].etag == log[b].etag ==>
                        log[m].etag == log[a].etag && log[m].rec == log[a].rec
  }

  predicate NodeOk(log: seq<Obj>, n: Node) {
    && n.last <= |log| && n.base <= |log|
    && n.etag == TagAt(log, n.base)
    && (!n.torn && !n.op.Reading? && n.base > 0 ==> n.base <= n.last)
    && (n.op.Matched? ==>
          && n.op.at <= |log| && n.base <= n.op.at && n.last <= n.op.at
          && TagAt(log, n.op.at) == n.etag && (n.op.at == 0 <==> n.base == 0))
    && (n.op.Answering? ==> 0 < n.op.ver <= |log| && TagAt(log, n.op.ver) == n.op.etag)
  }

  predicate Inv(w: World) {
    (forall k :: 0 <= k < |w.log| ==> w.log[k].etag != "") && forall i :: i in w.nodes ==> NodeOk(w.log, w.nodes[i])
  }

  lemma NodeKept(log: seq<Obj>, n: Node, o: Obj)
    requires NodeOk(log, n)
    ensures NodeOk(log + [o], n)
  {
  }

  lemma NextNodeOk(w: World, e: Event)
    requires Inv(w) && Enabled(w, e)
    ensures NodeOk(Next(w, e).log, Next(w, e).nodes[e.i])
  {
    assert NodeOk(w.log, w.nodes[e.i]);
  }

  lemma NextInv(w: World, e: Event)
    requires Inv(w) && Enabled(w, e)
    ensures Inv(Next(w, e))
  {
    NextNodeOk(w, e);
    hide NodeOk, NextNode;
    forall j | j in w.nodes && j != e.i
      ensures NodeOk(Next(w, e).log, w.nodes[j])
    {
      if e.Put? {
        NodeKept(w.log, w.nodes[j], Obj(e.etag, w.nodes[e.i].op.rec, e.i));
      } else if e.Late? {
        NodeKept(w.log, w.nodes[j], Obj(e.etag, e.rec, e.i));
      }
    }
  }

  lemma {:induction false} RunInv(w: World, es: seq<Event>)
    requires Inv(w) && Valid(w, es)
    ensures Inv(Run(w, es))
    decreases |es|
  {
    if es != [] {
      NextInv(w, es[0]);
      hide Inv, Next, Enabled;
      RunInv(Next(w, es[0]), es[1..]);
    }
  }

  /** The record a node takes for current: the one last fetched or written. */
  function RecAt(log: seq<Obj>, v: nat): Option<Record>
    requires v <= |log|
  {
    if v == 0 then None else Some(log[v - 1].rec)
  }

  /** A matching check certifies the record the node last fetched or wrote, even
      when foreign writes fell between Get's Stat and its body read, unless the
      cached tag is newer than that record. */
  lemma MatchCertifies(w0: World, es: seq<Event>, i: Id)
    requires Init(w0) && Valid(w0, es) && NoReturn(Run(w0, es).log)
    requires i in Run(w0, es).nodes && Run(w0, es).nodes[i].op.Matched?
    ensures var w := Run(w0, es);
            var n := w.nodes[i];
            && n.last <= n.op.at <= |w.log|
            && (!n.torn ==> n.base <= n.last)
            && (n.base <= n.last ==>
                  RecAt(w.log, n.op.at) == RecAt(w.log, n.last) && TagAt(w.log, n.op.at) == TagAt(w.log, n.last))
  {
    InitInv(w0);
    hide Valid, Run, Init, NoReturn, NodeOk;
    RunInv(w0, es);
    Certified(Run(w0, es).log, Run(w0, es).nodes[i]);
  }

  lemma Certified(log: seq<Obj>, n: Node)
    requires NodeOk(log, n) && n.op.Matched? && NoReturn(log)
    ensures n.last <= n.op.at <= |log| && (!n.torn ==> n.base <= n.last)
    ensures n.base <= n.last ==>
              RecAt(log, n.op.at) == RecAt(log, n.last) && TagAt(log, n.op.at) == TagAt(log, n.last)
  {
    if n.op.at > 0 {
      assert log[n.base - 1].etag == log[n.op.at - 1].etag;
    }
  }

  /** Refinement of the register: when nothing was put since its matching check,
      and the cached tag is no newer than the record last fetched or written, a
      Put replaces exactly that record. */
  lemma PutIsCas(w0: World, es: seq<Event>, e: Event)
    requires Init(w0) && Valid(w0, es) && NoReturn(Run(w0, es).log)
    requires Enabled(Run(w0, es), e) && e.Put?
    requires |Run(w0, es).log| == Run(w0, es).nodes[e.i].op.at
    requires Run(w0, es).nodes[e.i].base <= Run(w0, es).nodes[e.i].last
    ensures var w := Run(w0, es);
            var n := w.nodes[e.i];
            && n.last <= |w.log| && RecAt(w.log, |w.log|) == RecAt(w.log, n.last)
            && Next(w, e).log == w.log + [Obj(e.etag, n.op.rec, e.i)]
            && Enabled(Next(w, e), PutAck(e.i))
            && Next(Next(w, e), PutAck(e.i)).nodes[e.i].last == |w.log| + 1
            && RecAt(Next(w, e).log, |w.log| + 1) == Some(n.op.rec)
  {
    hide Valid, Run, Init, NoReturn;
    MatchCertifies(w0, es, e.i);
    PutStep(Run(w0, es), e);
    hide Next, RecAt, TagAt;
  }

  lemma PutStep(w: World, e: Event)
    requires Enabled(w, e) && e.Put?
    ensures Next(w, e).log == w.log + [Obj(e.etag, w.nodes[e.i].op.rec, e.i)]
    ensures Enabled(Next(w, e), PutAck(e.i))
    ensures Next(Next(w, e), PutAck(e.i)).nodes[e.i].last == |w.log| + 1
    ensures RecAt(Next(w, e).log, |w.log| + 1) == Some(w.nodes[e.i].op.rec)
  {
  }

  /** No two Puts got the same tag. */
  predicate FreshTags(log: seq<Obj>) {
    forall a, b :: 0 <= a < b < |log| ==> log[a].etag != log[b].etag
  }

  /** With a fresh tag per Put the condition is exact: the version replaced is the
      one the node last fetched or wrote if and only if no Put landed between its
      check and its own Put, and the version whose tag it caches is no newer than
      the one it last fetched or wrote. */
  lemma PutIsCasIff(w0: World, es: seq<Event>, e: Event)
    requires Init(w0) && Valid(w0, es) && FreshTags(Run(w0, es).log)
    requires Enabled(Run(w0, es), e) && e.Put?
    ensures var w := Run(w0, es);
            var n := w.nodes[e.i];
            |w.log| == n.last <==> |w.log| == n.op.at && n.base <= n.last
  {
    hide Valid, Run;
    RunInv(w0, es) by { InitInv(w0); }
    CasIff(Run(w0, es), e.i);
  }

  lemma CasIff(w: World, i: Id)
    requires Inv(w) && FreshTags(w.log) && i in w.nodes && w.nodes[i].op.Matched?
    ensures var n := w.nodes[i];
            |w.log| == n.last <==> |w.log| == n.op.at && n.base <= n.last
  {
    var n := w.nodes[i];
    assert NodeOk(w.log, n);
    if n.base > 0 {
      assert w.log[n.base - 1].etag == w.log[n.op.at - 1].etag;
    }
  }

  lemma InitInv(w: World)
    requires Init(w)
    ensures Inv(w)
  {
  }

  // ---- why the conditions are there ---------------------------------------

  function Steps3(w: World, a: Event, b: Event, c: Event): Option<World> {
    if !Enabled(w, a) || !Enabled(Next(w, a), b) || !Enabled(Next(Next(w, a), b), c) then None
    else Some(Next(Next(Next(w, a), b), c))
  }

  const IDLE := Node("", Resting, 0, 0, false)

  /** Two nodes pass the check on the missing object and both succeed in creating
      it: the second silently replaces a record it never fetched. */
  lemma BothCreate(x: Id, y: Id, r: Record, q: Record)
    requires x != y
    ensures var w0 := World([], map[x := IDLE, y := IDLE]);
            && Init(w0)
            && var w1 := Steps3(w0, SetStat(x, r, true), SetStat(y, q, true), Put(x, "1"));
            && w1.Some? && Enabled(w1.value, Put(y, "2"))
            && !w1.value.nodes[y].torn && w1.value.nodes[y].last == 0
            && var w2 := Steps3(w1.value, Put(y, "2"), PutAck(x), PutAck(y));
            && w2.Some? && w2.value.log == [Obj("1", r, x), Obj("2", q, y)]
            && w2.value.nodes[x].etag == "1" && w2.value.nodes[y].etag == "2"
  {
  }

  /** A Get that fails after its Stat leaves a fresh tag beside an old record: the
      next set passes the check and replaces a record the node never fetched. */
  lemma TornGet(x: Id, y: Id, r: Record, q: Record)
    requires x != y
    ensures var w0 := World([], map[x := IDLE, y := IDLE]);
            && Init(w0)
            && var w1 := Steps3(w0, SetStat(x, r, true), Put(x, "1"), PutAck(x));
            && w1.Some?
            && var w2 := Steps3(w1.value, GetStat(y, true), GetBody(y, false), SetStat(y, q, true));
            && w2.Some? && w2.value.nodes[y].last == 0 < w2.value.nodes[y].base
            && Enabled(w2.value, Put(y, "2")) && |w2.value.log| == w2.value.nodes[y].op.at
            && Next(w2.value, Put(y, "2")).log == [Obj("1", r, x), Obj("2", q, y)]
  {
    FirstCreated(x, y, r);
    var w1 := Steps3(World([], map[x := IDLE, y := IDLE]), SetStat(x, r, true), Put(x, "1"), PutAck(x)).value;
    hide Steps3, Next, Enabled;
    TornSet(w1, y, q);
  }

  lemma FirstCreated(x: Id, y: Id, r: Record)
    requires x != y
    ensures var w0 := World([], map[x := IDLE, y := IDLE]);
            && Init(w0)
            && var w1 := Steps3(w0, SetStat(x, r, true), Put(x, "1"), PutAck(x));
            w1.Some? && w1.value.log == [Obj("1", r, x)] && y in w1.value.nodes && w1.value.nodes[y] == IDLE
  {
  }

  lemma TornSet(w: World, y: Id, q: Record)
    requires |w.log| == 1 && w.log[0].etag == "1" && y in w.nodes && w.nodes[y] == IDLE
    ensures var t := Steps3(w, GetStat(y, true), GetBody(y, false), SetStat(y, q, true));
            && t.Some? && t.value.nodes[y].last == 0 < t.value.nodes[y].base && t.value.log == w.log
            && Enabled(t.value, Put(y, "2")) && |w.log| == t.value.nodes[y].op.at
            && Next(t.value, Put(y, "2")).log == w.log + [Obj("2", q, y)]
  {
  }

  /** A Get that failed that way is harmless when the record is the one already
      fetched: the set is torn, and still replaces exactly that version. */
  lemma HarmlessTornGet(x: Id, r: Record, q: Record)
    ensures var w0 := World([], map[x := IDLE]);
            && Init(w0)
            && var w1 := Steps3(w0, SetStat(x, r, true), Put(x, "1"), PutAck(x));
            && w1.Some?
            && var w2 := Steps3(w1.value, GetStat(x, true), GetBody(x, false), SetStat(x, q, true));
            && w2.Some? && w2.value.nodes[x].torn && Enabled(w2.value, Put(x, "2"))
            && |w2.value.log| == w2.value.nodes[x].last
  {
  }

  /** Exclusion fails on this backend whatever the durations: each elector's first
      attempt finds no record, both creates pass the check, and both attempts
      return success and leave their node believing it leads. */
  lemma TwoLeadersOnS3(x: Id, y: Id, leaseX: nat, leaseY: nat, a: Io, b: Io)
    requires x != y
    requires a.got == b.got == Missing && a.wrote && b.wrote
    ensures var r, q := FirstRecord(x, leaseX, a.now), FirstRecord(y, leaseY, b.now);
            var start := World([], map[x := IDLE, y := IDLE]);
            var fx, fy := Attempt(FRESH_VIEW, x, leaseX, a), Attempt(FRESH_VIEW, y, leaseY, b);
            && Init(start) && StatOf(start.log, true) == NotFound
            && fx.write == Some(CreateCall(r)) && fy.write == Some(CreateCall(q))
            && var w1 := Steps3(start, GetStat(x, true), GetStat(y, true), SetStat(x, r, true));
            && w1.Some?
            && var w2 := Steps3(w1.value, SetStat(y, q, true), Put(x, "1"), PutAck(x));
            && w2.Some? && Enabled(w2.value, Put(y, "2"))
            && Next(w2.value, Put(y, "2")).log == [Obj("1", r, x), Obj("2", q, y)]
            && fx.ok && fy.ok && IsLeader(fx.view, x) && IsLeader(fy.view, y)
  {
  }
}
