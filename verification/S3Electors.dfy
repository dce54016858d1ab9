/** Electors on the S3 backend, over whole runs. Their own code is the one of
    module Protocol; the lock answers come from the requests of module S3. A run
    in which every Put replaces the version its node last fetched or wrote is a
    run of Protocol, so exclusion carries over; without that it fails for all
    settings. */
module S3Electors {
  import opened Records
  import opened Elector
  import opened Protocol
  import opened Invariant
  import opened Exclusion
  import S3
  import Tightness

  /** `tags` holds the entity tag given to each stored write, `locks` the state of
      each node's lock, and `late` the requests still under way when their
      senders gave up on them. */
  datatype Sys = Sys(s: State, tags: seq<S3.Etag>, locks: map<Id, S3.Node>, late: set<nat>)

  /** The requests a lock makes, with what is answered. */
  datatype Call = Stat(ok: bool) | Body(ok: bool) | Check(ok: bool) | Put(etag: S3.Etag) | PutAck | PutLost

  datatype Move =
    | Local(i: Id, a: Action)
    | Ask(i: Id, call: Call)
    | Arrive(k: nat, etag: S3.Etag)
    | Pass(d: map<Id, real>)

  predicate SysOk(c: Cfg, y: Sys) {
    && Shape(c, y.s) && |y.tags| == |y.s.log| && y.locks.Keys == y.s.nodes.Keys
    && forall k :: k in y.late ==> k < |y.s.sent| && y.s.sent[k].node in y.s.nodes
  }

  /** The object and the locks, as module S3 sees them. */
  function Store(y: Sys): S3.World
    requires |y.tags| == |y.s.log|
  {
    S3.World(seq(|y.s.log|, k requires 0 <= k < |y.s.log| => S3.Obj(y.tags[k], y.s.log[k].rec, y.s.log[k].node)),
             y.locks)
  }

  function Request3(i: Id, body: Record, call: Call): S3.Event {
    match call
    case Stat(ok) => S3.GetStat(i, ok)
    case Body(ok) => S3.GetBody(i, ok)
    case Check(ok) => S3.SetStat(i, body, ok)
    case Put(etag) => S3.Put(i, etag)
    case PutAck => S3.PutAck(i)
    case PutLost => S3.PutLost(i)
  }

  /** The record that a waiting node wants stored. */
  function Wanted(sent: seq<Request>, n: Node): Record {
    if n.step.Waiting? && n.step.req < |sent| then sent[n.step.req].rec else NO_RECORD
  }

  predicate MayAsk(cfg: NodeCfg, stored: nat, sent: seq<Request>, n: Node, op: S3.Op, call: Call) {
    match call
    case Stat(_) => n.step.Started? && op.Resting?
    case Body(ok) => n.step.Started? && op.Reading? && (ok ==> stored > 0)
    case Check(_) => n.step.Waiting? && op.Resting?
    case PutLost => n.step.Waiting? && (op.Matched? || op.Answering?)
    case Put(etag) => n.step.Waiting? && op.Matched? && etag != "" && n.step.req < |sent|
    case PutAck => n.step.Waiting? && op.Answering? && n.step.req < |sent| && MayAck(cfg, n, sent[n.step.req])
  }

  /** What the elector makes of the answer, `l` being its lock after it. */
  function Answered(cfg: NodeCfg, stored: nat, sent: seq<Request>, clocks: map<Id, real>, n: Node, l: S3.Node,
                    call: Call): Node
    requires call.Stat? || call.Body? ==> n.step.Started?
    requires call.Put? || call.PutAck? ==> n.step.Waiting? && n.step.req < |sent|
  {
    match call
    case Stat(_) => if l.op.Reading? then n else n.(step := Fetched(n.step.start, 0))
    case Body(ok) => if ok then n.(step := Fetched(n.step.start, stored), cached := stored) else Fail(cfg, n)
    case Check(_) => if l.op.Matched? then n else Fail(cfg, n)
    case Put(_) => n.(step := Waiting(n.step.req, true))
    case PutAck => Acked(cfg, n, sent[n.step.req], clocks).(cached := l.last)
    case PutLost => Fail(cfg, n)
  }

  predicate MayMove(c: Cfg, y: Sys, m: Move)
    requires SysOk(c, y)
  {
    match m
    case Local(i, a) => !a.Get? && !a.GiveUp? && !a.Ack? && Enabled(c, y.s, Act(i, a))
    case Pass(d) => Enabled(c, y.s, Tick(d))
    case Arrive(k, etag) => k in y.late && etag != ""
    case Ask(i, call) =>
      i in y.s.nodes && MayAsk(c.nodes[i], |y.s.log|, y.s.sent, y.s.nodes[i], y.locks[i].op, call)
  }

  function NewLock(y: Sys, i: Id, call: Call): S3.Node
    requires |y.tags| == |y.s.log| && i in y.s.nodes && i in y.locks
    requires call.Put? ==> y.locks[i].op.Matched?
  {
    S3.NextNode(Store(y).log, y.locks[i], Request3(i, Wanted(y.s.sent, y.s.nodes[i]), call))
  }

  function Step(c: Cfg, y: Sys, m: Move): Sys
    requires SysOk(c, y) && MayMove(c, y, m)
  {
    match m
    case Local(i, a) => y.(s := Next(c, y.s, Act(i, a)))
    case Pass(d) => y.(s := Next(c, y.s, Tick(d)))
    case Arrive(k, etag) => y.(s := y.s.(log := y.s.log + [y.s.sent[k]]), tags := y.tags + [etag])
    case Ask(i, call) =>
      var n, l := y.s.nodes[i], NewLock(y, i, call);
      var nodes := y.s.nodes[i := Answered(c.nodes[i], |y.s.log|, y.s.sent, Clocks(y.s), n, l, call)];
      if call.Put? then
        Sys(State(y.s.log + [y.s.sent[n.step.req]], y.s.sent, nodes), y.tags + [call.etag], y.locks[i := l], y.late)
      else
        Sys(State(y.s.log, y.s.sent, nodes), y.tags, y.locks[i := l], Abandoned(y, i, call))
  }

  /** Giving up on a Put that has not landed leaves it under way. */
  function Abandoned(y: Sys, i: Id, call: Call): set<nat>
    requires i in y.s.nodes && i in y.locks
  {
    if call.PutLost? && y.locks[i].op.Matched? && y.s.nodes[i].step.Waiting? && y.s.nodes[i].step.req < |y.s.sent|
       && y.s.sent[y.s.nodes[i].step.req].node == i
    then y.late + {y.s.nodes[i].step.req}
    else y.late
  }

  predicate Start(c: Cfg, y: Sys) {
    && Init(c, y.s) && y.tags == [] && y.locks.Keys == y.s.nodes.Keys && y.late == {}
    && forall i :: i in y.locks ==> y.locks[i] == S3.IDLE
  }

  /** A Put gets a fresh tag and replaces the version its node last fetched or wrote,
      for one that arrives late the version it was written against. */
  predicate Clean(y: Sys, m: Move) {
    && (m.Ask? && m.call.Put? && m.i in y.locks ==> m.call.etag !in y.tags && |y.s.log| == y.locks[m.i].last)
    && (m.Arrive? && m.k < |y.s.sent| ==> m.etag !in y.tags && |y.s.log| == y.s.sent[m.k].expected)
  }

  ghost predicate ValidRun(c: Cfg, y: Sys, ms: seq<Move>)
    decreases |ms|
  {
    SysOk(c, y) && (ms != [] ==> MayMove(c, y, ms[0]) && ValidRun(c, Step(c, y, ms[0]), ms[1..]))
  }

  ghost predicate CleanRun(c: Cfg, y: Sys, ms: seq<Move>)
    requires ValidRun(c, y, ms)
    decreases |ms|
  {
    ms != [] ==> Clean(y, ms[0]) && CleanRun(c, Step(c, y, ms[0]), ms[1..])
  }

  ghost function RunAll(c: Cfg, y: Sys, ms: seq<Move>): Sys
    requires ValidRun(c, y, ms)
    decreases |ms|
  {
    if ms == [] then y else RunAll(c, Step(c, y, ms[0]), ms[1..])
  }

  // ---- clean runs ---------------------------------------------------------

  /** The version a lock last fetched or wrote is the one its elector holds and
      writes against, and a checked body is the elector's own request. */
  predicate Joined(sent: seq<Request>, late: set<nat>, i: Id, n: Node, l: S3.Node) {
    && l.last == n.cached
    && (n.step.Fetched? ==> n.step.ver == l.last)
    && (l.op.Reading? ==> n.step.Started?)
    && (l.op.Matched? || l.op.Answering? ==> n.step.Waiting?)
    && (n.step.Waiting? ==>
          && n.step.req < |sent| && n.step.req !in late
          && sent[n.step.req].node == i
          && (n.step.landed <==> l.op.Answering?)
          && (!n.step.landed ==> sent[n.step.req].expected == l.last)
          && (l.op.Matched? ==> l.op.rec == sent[n.step.req].rec)
          && (l.op.Answering? ==> l.op.ver == sent[n.step.req].expected + 1))
  }

  predicate Linked(c: Cfg, y: Sys) {
    && SysOk(c, y)
    && S3.Inv(Store(y)) && S3.FreshTags(Store(y).log)
    && forall i :: i in y.s.nodes ==> Joined(y.s.sent, y.late, i, y.s.nodes[i], y.locks[i])
  }

  lemma JoinedMore(sent: seq<Request>, out: seq<Request>, late: set<nat>, i: Id, n: Node, l: S3.Node)
    requires Joined(sent, late, i, n, l)
    ensures Joined(sent + out, late, i, n, l)
  {
  }

  lemma JoinedLate(sent: seq<Request>, late: set<nat>, k: nat, i: Id, n: Node, l: S3.Node)
    requires Joined(sent, late, i, n, l) && k < |sent| && sent[k].node != i
    ensures Joined(sent, late + {k}, i, n, l)
  {
  }

  lemma DecideJoined(cfg: NodeCfg, log: seq<Request>, sent: seq<Request>, clocks: map<Id, real>, late: set<nat>,
                     i: Id, n: Node, l: S3.Node)
    requires Joined(sent, late, i, n, l) && n.step.Fetched? && n.step.ver <= |log| && |sent| !in late
    ensures var f := DecideEffect(cfg, i, n, log, |sent|, clocks); Joined(sent + f.out, late, i, f.node, l)
  {
    hide Blocked, Observe, Proposal;
  }

  /** The elector's own steps leave its lock alone. */
  lemma LocalJoined(c: Cfg, log: seq<Request>, sent: seq<Request>, clocks: map<Id, real>, late: set<nat>, i: Id,
                    n: Node, a: Action, l: S3.Node)
    requires Joined(sent, late, i, n, l) && |sent| !in late
    requires i in c.nodes && NodeShape(c, log, sent, n) && May(c.nodes[i], sent, i, n, a)
    requires !a.Get? && !a.GiveUp? && !a.Ack?
    ensures var f := Do(c, log, sent, clocks, i, n, a); Joined(sent + f.out, late, i, f.node, l)
  {
    if a == Decide {
      DecideJoined(c.nodes[i], log, sent, clocks, late, i, n, l);
      hide DecideEffect;
    }
  }

  lemma LocalStep(c: Cfg, y: Sys, m: Move)
    requires Reachable(c, y.s) && Linked(c, y) && MayMove(c, y, m) && (m.Local? || m.Pass?)
    ensures Reachable(c, Step(c, y, m).s) && Linked(c, Step(c, y, m))
  {
    hide Reachable, Joined, S3.Inv, S3.FreshTags, Do, May, MayTick, Shape;
    var e := if m.Local? then Act(m.i, m.a) else Tick(m.d);
    StepReachable(c, y.s, e);
    var z := Step(c, y, m);
    KeysKept(c, y.s, e);
    assert Store(z) == Store(y);
    forall j | j in z.s.nodes
      ensures Joined(z.s.sent, z.late, j, z.s.nodes[j], z.locks[j])
    {
      if m.Pass? {
        assert z.s.nodes[j] == y.s.nodes[j].(clock := y.s.nodes[j].clock + m.d[j]) by { TickFacts(c, y.s, m.d); }
        LaterJoined(y.s.sent, y.late, j, y.s.nodes[j], m.d[j], y.locks[j]);
      } else if j == m.i {
        ShapeAt(c, y.s, j);
        LocalJoined(c, y.s.log, y.s.sent, Clocks(y.s), y.late, j, y.s.nodes[j], m.a, y.locks[j]);
      } else {
        ShapeAt(c, y.s, m.i);
        JoinedMore(y.s.sent, Do(c, y.s.log, y.s.sent, Clocks(y.s), m.i, y.s.nodes[m.i], m.a).out,
                   y.late, j, y.s.nodes[j], y.locks[j]);
      }
    }
  }

  lemma LaterJoined(sent: seq<Request>, late: set<nat>, i: Id, n: Node, d: real, l: S3.Node)
    requires Joined(sent, late, i, n, l)
    ensures Joined(sent, late, i, n.(clock := n.clock + d), l)
  {
  }

  lemma KeysKept(c: Cfg, s: State, e: Event)
    requires Shape(c, s) && Enabled(c, s, e) && !e.Land?
    ensures Next(c, s, e).nodes.Keys == s.nodes.Keys && Next(c, s, e).log == s.log
    ensures s.sent <= Next(c, s, e).sent
  {
    hide Do;
    NextShape(c, s, e);
  }

  /** The lock's new state and the elector's agree again. */
  lemma AskJoined(cfg: NodeCfg, log: seq<S3.Obj>, sent: seq<Request>, clocks: map<Id, real>, late: set<nat>,
                  late': set<nat>, i: Id, n: Node, l: S3.Node, call: Call)
    requires late' == late || call.PutLost?
    requires Joined(sent, late, i, n, l) && l.last <= |log| && MayAsk(cfg, |log|, sent, n, l.op, call)
    requires call.Put? ==> |log| == l.last
    ensures var l' := S3.NextNode(log, l, Request3(i, Wanted(sent, n), call));
            Joined(sent, late', i, Answered(cfg, |log|, sent, clocks, n, l', call), l')
  {
    hide S3.Matches, S3.TagAfterStat, Adopt;
  }

  lemma LinkedAt(c: Cfg, y: Sys, i: Id)
    requires Linked(c, y) && i in y.s.nodes
    ensures SysOk(c, y) && |y.tags| == |y.s.log| && i in y.locks
    ensures Joined(y.s.sent, y.late, i, y.s.nodes[i], y.locks[i])
    ensures y.locks[i].last <= |y.s.log|
    ensures S3.Inv(Store(y)) && S3.FreshTags(Store(y).log)
    ensures i in c.nodes && NodeShape(c, y.s.log, y.s.sent, y.s.nodes[i])
  {
    hide Joined, S3.FreshTags;
    assert S3.NodeOk(Store(y).log, y.locks[i]);
  }

  lemma WantedSent(sent: seq<Request>, late: set<nat>, i: Id, n: Node, l: S3.Node)
    requires Joined(sent, late, i, n, l) && l.op.Matched?
    ensures n.step.Waiting? && n.step.req < |sent| && sent[n.step.req].rec == l.op.rec && sent[n.step.req].node == i
  {
  }

  lemma AskEnabled(cfg: NodeCfg, w: S3.World, sent: seq<Request>, i: Id, n: Node, call: Call)
    requires i in w.nodes && MayAsk(cfg, |w.log|, sent, n, w.nodes[i].op, call)
    ensures S3.Enabled(w, Request3(i, Wanted(sent, n), call))
  {
  }

  /** The fields after a request. */
  lemma AskFields(c: Cfg, y: Sys, i: Id, call: Call)
    requires SysOk(c, y) && MayMove(c, y, Ask(i, call))
    ensures i in y.s.nodes && i in c.nodes && i in y.locks
    ensures var z, n, l := Step(c, y, Ask(i, call)), y.s.nodes[i], NewLock(y, i, call);
            && z.locks == y.locks[i := l] && z.s.sent == y.s.sent
            && z.s.nodes == y.s.nodes[i := Answered(c.nodes[i], |y.s.log|, y.s.sent, Clocks(y.s), n, l, call)]
            && z.late == Abandoned(y, i, call)
            && (if call.Put? then
                  z.s.log == y.s.log + [y.s.sent[n.step.req]] && z.tags == y.tags + [call.etag]
                else
                  z.s.log == y.s.log && z.tags == y.tags)
  {
    hide Answered, NewLock, NodeShape;
  }

  /** The object and the locks move as in module S3. */
  lemma AskStore(c: Cfg, y: Sys, m: Move)
    requires Linked(c, y) && MayMove(c, y, m) && m.Ask? && Clean(y, m)
    ensures var z, e := Step(c, y, m), Request3(m.i, Wanted(y.s.sent, y.s.nodes[m.i]), m.call);
            && |z.tags| == |z.s.log| && S3.Enabled(Store(y), e) && Store(z) == S3.Next(Store(y), e)
            && S3.Inv(Store(z)) && S3.FreshTags(Store(z).log)
  {
    hide Linked, SysOk, Joined, Answered, S3.Inv, S3.FreshTags, S3.NextNode, S3.Enabled, Step, NewLock, S3.Next;
    LinkedAt(c, y, m.i);
    AskFields(c, y, m.i, m.call);
    var n := y.s.nodes[m.i];
    var e := Request3(m.i, Wanted(y.s.sent, n), m.call);
    AskEnabled(c.nodes[m.i], Store(y), y.s.sent, m.i, n, m.call);
    if m.call.Put? {
      WantedSent(y.s.sent, y.late, m.i, n, y.locks[m.i]);
    }
    S3.NextInv(Store(y), e);
    var z := Step(c, y, m);
    StoreAfter(y, z, m.i, m.call);
    if m.call.Put? {
      TagsFresh(Store(y).log, y.tags, S3.Obj(m.call.etag, y.s.sent[n.step.req].rec, m.i));
    }
  }

  lemma StoreAfter(y: Sys, z: Sys, i: Id, call: Call)
    requires |y.tags| == |y.s.log| && |z.tags| == |z.s.log| && i in y.s.nodes && i in y.locks
    requires call.Put? ==> y.locks[i].op.Matched?
    requires z.locks == y.locks[i := NewLock(y, i, call)]
    requires S3.Enabled(Store(y), Request3(i, Wanted(y.s.sent, y.s.nodes[i]), call))
    requires var n, l := y.s.nodes[i], y.locks[i];
             if call.Put? then
               && n.step.Waiting? && n.step.req < |y.s.sent|
               && y.s.sent[n.step.req].node == i && y.s.sent[n.step.req].rec == l.op.rec
               && z.s.log == y.s.log + [y.s.sent[n.step.req]] && z.tags == y.tags + [call.etag]
             else
               z.s.log == y.s.log && z.tags == y.tags
    ensures Store(z) == S3.Next(Store(y), Request3(i, Wanted(y.s.sent, y.s.nodes[i]), call))
    ensures call.Put? ==>
              Store(z).log == Store(y).log + [S3.Obj(call.etag, y.s.sent[y.s.nodes[i].step.req].rec, i)]
    ensures !call.Put? ==> Store(z).log == Store(y).log
  {
    hide S3.Enabled, S3.NextNode;
    if call.Put? {
      assert Store(z).log == Store(y).log + [S3.Obj(call.etag, y.s.sent[y.s.nodes[i].step.req].rec, i)];
    } else {
      assert Store(z).log == Store(y).log;
    }
  }

  lemma TagsFresh(log: seq<S3.Obj>, tags: seq<S3.Etag>, o: S3.Obj)
    requires S3.FreshTags(log) && |tags| == |log| && (forall k :: 0 <= k < |log| ==> log[k].etag == tags[k])
    requires o.etag !in tags
    ensures S3.FreshTags(log + [o])
  {
  }

  lemma OneEvent(c: Cfg, s: State, i: Id, a: Action, n': Node)
    requires Reachable(c, s) && Shape(c, s) && i in s.nodes && i in c.nodes && NodeShape(c, s.log, s.sent, s.nodes[i])
    requires May(c.nodes[i], s.sent, i, s.nodes[i], a)
    requires Do(c, s.log, s.sent, Clocks(s), i, s.nodes[i], a) == Effect(n', [])
    ensures var t := State(s.log, s.sent, s.nodes[i := n']); Reachable(c, t) && Shape(c, t)
  {
    hide Reachable, Shape, NodeShape, Do, May;
    assert s.sent + [] == s.sent;
    StepReachable(c, s, Act(i, a));
  }

  /** An answer that stores nothing is at most one action of its node. */
  lemma AnswerDoes(c: Cfg, log: seq<Request>, store: seq<S3.Obj>, sent: seq<Request>, clocks: map<Id, real>,
                   late: set<nat>, i: Id, n: Node, l: S3.Node, call: Call)
    returns (a: Option<Action>)
    requires i in c.nodes && NodeShape(c, log, sent, n) && Joined(sent, late, i, n, l) && |store| == |log|
    requires MayAsk(c.nodes[i], |log|, sent, n, l.op, call) && !call.Put?
    ensures var l' := S3.NextNode(store, l, Request3(i, Wanted(sent, n), call));
            var n' := Answered(c.nodes[i], |log|, sent, clocks, n, l', call);
            if a.None? then n' == n
            else May(c.nodes[i], sent, i, n, a.value) && Do(c, log, sent, clocks, i, n, a.value) == Effect(n', [])
  {
    hide S3.Matches, DecideEffect, ComposeRelease, Adopt;
    match call {
      case Stat(ok) => a := if ok && log == [] then Some(Get(true)) else None;
      case Body(ok) => a := Some(Get(ok));
      case Check(ok) => a := if S3.Matches(l.etag, S3.StatOf(store, ok)) then None else Some(GiveUp);
      case PutAck => a := Some(Ack);
      case PutLost => a := Some(GiveUp);
    }
  }

  lemma AskReachable(c: Cfg, y: Sys, m: Move)
    requires Reachable(c, y.s) && Linked(c, y) && MayMove(c, y, m) && m.Ask? && !m.call.Put?
    ensures Reachable(c, Step(c, y, m).s) && Shape(c, Step(c, y, m).s)
  {
    hide Linked, Reachable, NodeShape, Joined, S3.Inv, S3.FreshTags, Answered, Do, May, Step, S3.NextNode;
    var i := m.i;
    LinkedAt(c, y, i);
    AskFields(c, y, i, m.call);
    var n := y.s.nodes[i];
    var a := AnswerDoes(c, y.s.log, Store(y).log, y.s.sent, Clocks(y.s), y.late, i, n, y.locks[i], m.call);
    hide MayAsk, Shape, Clocks, Store;
    assert y.s.nodes[i := n] == y.s.nodes;
    if a.Some? {
      OneEvent(c, y.s, i, a.value, Step(c, y, m).s.nodes[i]);
    }
  }

  lemma OneLanding(c: Cfg, s: State, k: nat, i: Id)
    requires Reachable(c, s) && Shape(c, s) && k < |s.sent| && s.sent[k].expected == |s.log|
    requires s.sent[k].node == i && i in s.nodes
    ensures var t := State(s.log + [s.sent[k]], s.sent, s.nodes[i := Landed(s.nodes[i], k)]);
            && Reachable(c, t) && Shape(c, t) && Clocks(t) == Clocks(s)
            && i in c.nodes && NodeShape(c, t.log, t.sent, t.nodes[i])
  {
    hide Reachable, Shape, NodeShape;
    StepReachable(c, s, Land(k));
    ShapeAt(c, Next(c, s, Land(k)), i);
  }

  /** A clean Put is a write that lands. */
  lemma PutReachable(c: Cfg, y: Sys, m: Move)
    requires Reachable(c, y.s) && Linked(c, y) && MayMove(c, y, m) && m.Ask? && m.call.Put? && Clean(y, m)
    ensures Reachable(c, Step(c, y, m).s) && Shape(c, Step(c, y, m).s)
  {
    hide Linked, Reachable, NodeShape, S3.Inv, S3.FreshTags, Do, May, Step, S3.NextNode;
    var i, n := m.i, y.s.nodes[m.i];
    LinkedAt(c, y, i);
    AskFields(c, y, i, m.call);
    OneLanding(c, y.s, n.step.req, i);
    assert Landed(n, n.step.req) == n.(step := Waiting(n.step.req, true));
  }

  /** One lock gives up on a request at most; the other nodes never wait on it. */
  lemma OthersJoined(c: Cfg, y: Sys, i: Id, call: Call, j: Id)
    requires Linked(c, y) && i in y.s.nodes && j in y.s.nodes && i != j
    ensures i in y.locks && j in y.locks && Joined(y.s.sent, Abandoned(y, i, call), j, y.s.nodes[j], y.locks[j])
  {
    hide Joined, S3.Inv, S3.FreshTags, Shape;
    if Abandoned(y, i, call) != y.late {
      JoinedLate(y.s.sent, y.late, y.s.nodes[i].step.req, j, y.s.nodes[j], y.locks[j]);
    }
  }

  lemma AbandonedOk(c: Cfg, y: Sys, i: Id, call: Call)
    requires SysOk(c, y) && i in y.s.nodes
    ensures forall k :: k in Abandoned(y, i, call) ==> k < |y.s.sent| && y.s.sent[k].node in y.s.nodes
  {
    hide Shape;
  }

  lemma OwnJoined(c: Cfg, y: Sys, i: Id, call: Call)
    requires Linked(c, y) && MayMove(c, y, Ask(i, call)) && Clean(y, Ask(i, call))
    ensures var z := Step(c, y, Ask(i, call));
            i in z.locks && Joined(z.s.sent, z.late, i, z.s.nodes[i], z.locks[i])
  {
    hide Linked, Joined, S3.Inv, S3.FreshTags, Shape, NodeShape, Answered, S3.NextNode, Step;
    LinkedAt(c, y, i);
    AskFields(c, y, i, call);
    AskJoined(c.nodes[i], Store(y).log, y.s.sent, Clocks(y.s), y.late, Abandoned(y, i, call), i, y.s.nodes[i],
              y.locks[i], call);
  }

  lemma AskStep(c: Cfg, y: Sys, m: Move)
    requires Reachable(c, y.s) && Linked(c, y) && MayMove(c, y, m) && m.Ask? && Clean(y, m)
    ensures Reachable(c, Step(c, y, m).s) && Linked(c, Step(c, y, m))
  {
    hide Reachable, Joined, S3.Inv, S3.FreshTags, Shape, NodeShape, Answered, S3.NextNode, S3.Next, S3.Enabled;
    if m.call.Put? {
      PutReachable(c, y, m);
    } else {
      AskReachable(c, y, m);
    }
    AskStore(c, y, m);
    AskFields(c, y, m.i, m.call);
    OwnJoined(c, y, m.i, m.call);
    AbandonedOk(c, y, m.i, m.call);
    hide Step, Abandoned, MayMove, Clean;
    var z := Step(c, y, m);
    forall j | j in z.s.nodes
      ensures Joined(z.s.sent, z.late, j, z.s.nodes[j], z.locks[j])
    {
      if j != m.i {
        OthersJoined(c, y, m.i, m.call, j);
      }
    }
  }

  lemma NotWaiting(sent: seq<Request>, late: set<nat>, i: Id, n: Node, l: S3.Node, k: nat)
    requires Joined(sent, late, i, n, l) && k in late
    ensures Landed(n, k) == n
  {
  }

  /** A write that lands after its sender gave up. */
  lemma ArriveStep(c: Cfg, y: Sys, m: Move)
    requires Reachable(c, y.s) && Linked(c, y) && MayMove(c, y, m) && m.Arrive? && Clean(y, m)
    ensures Reachable(c, Step(c, y, m).s) && Linked(c, Step(c, y, m))
  {
    hide Reachable, Joined, S3.Inv, S3.FreshTags, Shape, NodeShape, S3.NextNode, Landed;
    var q := y.s.sent[m.k];
    OneLanding(c, y.s, m.k, q.node);
    NotWaiting(y.s.sent, y.late, q.node, y.s.nodes[q.node], y.locks[q.node], m.k);
    var z := Step(c, y, m);
    assert y.s.nodes[q.node := y.s.nodes[q.node]] == y.s.nodes;
    var e := S3.Late(q.node, q.rec, m.etag);
    S3.NextInv(Store(y), e);
    var o := S3.Obj(m.etag, q.rec, q.node);
    assert Store(z).log == Store(y).log + [o];
    TagsFresh(Store(y).log, y.tags, o);
    assert Store(z) == S3.Next(Store(y), e) by { LateNode(Store(y).log, y.locks[q.node], e); }
  }

  lemma LateNode(log: seq<S3.Obj>, l: S3.Node, e: S3.Event)
    requires e.Late?
    ensures S3.NextNode(log, l, e) == l
  {
  }

  lemma StartLinked(c: Cfg, y: Sys)
    requires Start(c, y)
    ensures Reachable(c, y.s) && Linked(c, y)
  {
    StartJoined(c, y);
    InitReachable(c, y.s);
    hide Reachable, Joined, Shape, Init, S3.NodeOk;
    assert Store(y).log == [];
    assert S3.Init(Store(y));
    S3.InitInv(Store(y));
  }

  lemma StartJoined(c: Cfg, y: Sys)
    requires Start(c, y)
    ensures forall i :: i in y.s.nodes ==> Joined(y.s.sent, y.late, i, y.s.nodes[i], y.locks[i])
  {
  }

  lemma {:induction false} RunLinked(c: Cfg, y: Sys, ms: seq<Move>)
    requires Reachable(c, y.s) && Linked(c, y) && ValidRun(c, y, ms) && CleanRun(c, y, ms)
    ensures Reachable(c, RunAll(c, y, ms).s) && Linked(c, RunAll(c, y, ms))
    decreases |ms|
  {
    hide Reachable, Linked, MayMove, Step, Clean, SysOk;
    if ms != [] {
      if ms[0].Ask? {
        AskStep(c, y, ms[0]);
      } else if ms[0].Arrive? {
        ArriveStep(c, y, ms[0]);
      } else {
        LocalStep(c, y, ms[0]);
      }
      RunLinked(c, Step(c, y, ms[0]), ms[1..]);
    }
  }

  /** Refinement: the electors and the register of a clean S3 run, every record,
      view, phase and clock included, are those of a run of Protocol. */
  lemma CleanRunRefines(c: Cfg, y: Sys, ms: seq<Move>)
    requires Start(c, y) && ValidRun(c, y, ms) && CleanRun(c, y, ms)
    ensures Reachable(c, RunAll(c, y, ms).s)
  {
    StartLinked(c, y);
    hide Linked, Reachable, Start;
    RunLinked(c, y, ms);
  }

  /** What makes a Put clean can be seen at the object: no Put landed since its
      check, and the tag it was checked with is no newer than the version last
      fetched or written. */
  lemma CleanIff(c: Cfg, y: Sys, ms: seq<Move>, i: Id)
    requires Start(c, y) && ValidRun(c, y, ms) && CleanRun(c, y, ms)
    requires i in RunAll(c, y, ms).locks && RunAll(c, y, ms).locks[i].op.Matched?
    ensures var z := RunAll(c, y, ms);
            |z.s.log| == z.locks[i].last <==> |z.s.log| == z.locks[i].op.at && z.locks[i].base <= z.locks[i].last
  {
    StartLinked(c, y);
    RunLinked(c, y, ms);
    hide ValidRun, CleanRun, RunAll, Start, Reachable, Joined, Shape;
    S3.CasIff(Store(RunAll(c, y, ms)), i);
  }

  /** Exclusion on S3: in every clean run, under the bound, at most one node is in
      its renew loop, and it is the stored holder. */
  lemma CleanExclusion(c: Cfg, y: Sys, ms: seq<Move>)
    requires CfgOk(c) && Bound(c) && Start(c, y) && ValidRun(c, y, ms) && CleanRun(c, y, ms)
    ensures Exclusive(RunAll(c, y, ms).s) && HolderLeads(RunAll(c, y, ms).s)
  {
    hide *;
    CleanRunRefines(c, y, ms);
    ExclusionHolds(c, RunAll(c, y, ms).s);
  }

  // ---- other runs ---------------------------------------------------------

  ghost predicate Path(c: Cfg, y: Sys, ms: seq<Move>, z: Sys) {
    ValidRun(c, y, ms) && RunAll(c, y, ms) == z
  }

  ghost predicate Can(c: Cfg, y: Sys, z: Sys) {
    exists ms :: Path(c, y, ms, z)
  }

  lemma {:induction false} PathThen(c: Cfg, y: Sys, ms: seq<Move>, z: Sys, m: Move)
    requires Path(c, y, ms, z) && SysOk(c, z) && MayMove(c, z, m) && SysOk(c, Step(c, z, m))
    ensures Path(c, y, ms + [m], Step(c, z, m))
    decreases |ms|
  {
    hide SysOk, MayMove, Step;
    if ms == [] {
      assert ms + [m] == [m] && [m][1..] == [];
      assert ValidRun(c, Step(c, z, m), []) && RunAll(c, Step(c, z, m), []) == Step(c, z, m);
      assert y == z && ValidRun(c, z, [m]) && RunAll(c, z, [m]) == Step(c, z, m);
    } else {
      assert (ms + [m])[1..] == ms[1..] + [m];
      PathThen(c, Step(c, y, ms[0]), ms[1..], z, m);
    }
  }

  lemma Take(c: Cfg, y: Sys, z: Sys, m: Move) returns (t: Sys)
    requires Can(c, y, z) && SysOk(c, z) && MayMove(c, z, m) && SysOk(c, Step(c, z, m))
    ensures t == Step(c, z, m) && Can(c, y, t) && SysOk(c, t)
  {
    hide SysOk, MayMove, Step;
    t := Step(c, z, m);
    var ms :| Path(c, y, ms, z);
    PathThen(c, y, ms, z, m);
  }

  lemma DoLocal(c: Cfg, y0: Sys, y: Sys, i: Id, a: Action) returns (t: Sys)
    requires Can(c, y0, y) && SysOk(c, y) && i in y.s.nodes && i in c.nodes
    requires NodeShape(c, y.s.log, y.s.sent, y.s.nodes[i])
    requires !a.Get? && !a.GiveUp? && !a.Ack? && May(c.nodes[i], y.s.sent, i, y.s.nodes[i], a)
    ensures Can(c, y0, t) && SysOk(c, t)
    ensures i in t.s.nodes && NodeShape(c, t.s.log, t.s.sent, t.s.nodes[i])
    ensures var f := Do(c, y.s.log, y.s.sent, Clocks(y.s), i, y.s.nodes[i], a);
            t == Sys(State(y.s.log, y.s.sent + f.out, y.s.nodes[i := f.node]), y.tags, y.locks, y.late)
  {
    hide Shape, NodeShape, May, Do, Can;
    KeysKept(c, y.s, Act(i, a));
    NextShape(c, y.s, Act(i, a));
    t := Take(c, y0, y, Local(i, a));
    ShapeAt(c, t.s, i);
  }

  lemma AskShape(c: Cfg, log: seq<Request>, log': seq<Request>, sent: seq<Request>, clocks: map<Id, real>, i: Id,
                 n: Node, op: S3.Op, l: S3.Node, call: Call)
    requires i in c.nodes && NodeShape(c, log, sent, n) && MayAsk(c.nodes[i], |log|, sent, n, op, call)
    requires |log| <= |log'| && clocks.Keys == c.nodes.Keys
    ensures NodeShape(c, log', sent, Answered(c.nodes[i], |log|, sent, clocks, n, l, call))
  {
  }

  lemma ShapeMore(c: Cfg, log: seq<Request>, log': seq<Request>, sent: seq<Request>, n: Node)
    requires NodeShape(c, log, sent, n) && |log| <= |log'|
    ensures NodeShape(c, log', sent, n)
  {
  }

  lemma DoAsk(c: Cfg, y0: Sys, y: Sys, i: Id, call: Call) returns (t: Sys)
    requires Can(c, y0, y) && SysOk(c, y) && MayMove(c, y, Ask(i, call))
    ensures t == Step(c, y, Ask(i, call)) && Can(c, y0, t) && SysOk(c, t)
    ensures i in t.s.nodes && i in c.nodes && NodeShape(c, t.s.log, t.s.sent, t.s.nodes[i])
  {
    hide NodeShape, Can, Answered, NewLock, Abandoned;
    AskFields(c, y, i, call);
    AbandonedOk(c, y, i, call);
    t := Step(c, y, Ask(i, call));
    hide Step;
    forall j | j in t.s.nodes
      ensures NodeShape(c, t.s.log, t.s.sent, t.s.nodes[j])
    {
      if j == i {
        AskShape(c, y.s.log, t.s.log, y.s.sent, Clocks(y.s), i, y.s.nodes[i], y.locks[i].op,
                 NewLock(y, i, call), call);
      } else {
        ShapeMore(c, y.s.log, t.s.log, y.s.sent, y.s.nodes[j]);
      }
    }
    t := Take(c, y0, y, Ask(i, call));
  }

  /** A node that has done nothing yet. */
  predicate New(n: Node, l: S3.Node) {
    && n.view.observed == NO_RECORD && n.view.raw == None && n.cached == 0 && n.phase == Idle && n.step == NoAttempt
    && l == S3.IDLE
  }

  /** A node whose first create has passed its check on the missing object. */
  predicate Poised(sent: seq<Request>, i: Id, n: Node, l: S3.Node) {
    && n.phase.Acquiring? && n.step.Waiting? && n.step.req < |sent|
    && sent[n.step.req].read == n.clock && sent[n.step.req].kind == Create
    && l.op.Matched?
  }

  /** Moves of one node that touch neither the object nor anybody else. */
  predicate Beside(y: Sys, z: Sys, i: Id) {
    && z.s.log == y.s.log && z.tags == y.tags && y.s.sent <= z.s.sent
    && z.s.nodes.Keys == y.s.nodes.Keys && z.locks.Keys == y.locks.Keys
    && forall j :: j in y.s.nodes && j in y.locks && j != i ==> z.s.nodes[j] == y.s.nodes[j] && z.locks[j] == y.locks[j]
  }
  /** A node whose Stat has found no object. */
  predicate Empty(n: Node, l: S3.Node) {
    n.phase.Acquiring? && n.step == Fetched(n.clock, 0) && l == S3.IDLE
  }

  lemma Begun(c: Cfg, y0: Sys, y: Sys, i: Id) returns (t: Sys)
    requires Can(c, y0, y) && SysOk(c, y) && i in y.s.nodes && New(y.s.nodes[i], y.locks[i])
    ensures Can(c, y0, t) && SysOk(c, t) && Beside(y, t, i) && i in t.s.nodes && t.locks == y.locks
    ensures t.s.nodes[i].phase.Acquiring? && t.s.nodes[i].step == Started(t.s.nodes[i].clock)
  {
    hide Can, Shape, NodeShape;
    ShapeAt(c, y.s, i);
    t := DoLocal(c, y0, y, i, Action.Start);
    t := DoLocal(c, y0, t, i, Begin);
  }

  lemma FoundNone(c: Cfg, y0: Sys, y: Sys, i: Id) returns (t: Sys)
    requires Can(c, y0, y) && SysOk(c, y) && y.s.log == [] && i in y.s.nodes && y.locks[i] == S3.IDLE
    requires y.s.nodes[i].phase.Acquiring? && y.s.nodes[i].step == Started(y.s.nodes[i].clock)
    ensures Can(c, y0, t) && SysOk(c, t) && Beside(y, t, i) && i in t.s.nodes && Empty(t.s.nodes[i], t.locks[i])
  {
    hide Can, Shape, NodeShape;
    t := DoAsk(c, y0, y, i, Stat(true));
  }

  lemma Decided(c: Cfg, y0: Sys, y: Sys, i: Id) returns (t: Sys)
    requires Can(c, y0, y) && SysOk(c, y) && i in y.s.nodes && Empty(y.s.nodes[i], y.locks[i])
    ensures Can(c, y0, t) && SysOk(c, t) && Beside(y, t, i) && i in t.s.nodes && t.locks == y.locks
    ensures var n := t.s.nodes[i];
            && n.phase.Acquiring? && n.step.Waiting? && n.step.req < |t.s.sent|
            && t.s.sent[n.step.req].read == n.clock && t.s.sent[n.step.req].kind == Create
  {
    hide Can, Shape, NodeShape;
    ShapeAt(c, y.s, i);
    t := DoLocal(c, y0, y, i, Decide);
  }

  lemma Checked(c: Cfg, y0: Sys, y: Sys, i: Id) returns (t: Sys)
    requires Can(c, y0, y) && SysOk(c, y) && y.s.log == [] && i in y.s.nodes && y.locks[i] == S3.IDLE
    requires var n := y.s.nodes[i];
             && n.phase.Acquiring? && n.step.Waiting? && n.step.req < |y.s.sent|
             && y.s.sent[n.step.req].read == n.clock && y.s.sent[n.step.req].kind == Create
    ensures Can(c, y0, t) && SysOk(c, t) && Beside(y, t, i) && i in t.s.nodes
    ensures Poised(t.s.sent, i, t.s.nodes[i], t.locks[i])
  {
    hide Can, Shape, NodeShape;
    t := DoAsk(c, y0, y, i, Check(true));
  }

  /** A first attempt up to its check: no object is found, and its tag matches. */
  lemma Poise(c: Cfg, y0: Sys, y: Sys, i: Id) returns (t: Sys)
    requires Can(c, y0, y) && SysOk(c, y) && y.s.log == [] && i in y.s.nodes && New(y.s.nodes[i], y.locks[i])
    ensures Can(c, y0, t) && SysOk(c, t) && Beside(y, t, i) && i in t.s.nodes
    ensures Poised(t.s.sent, i, t.s.nodes[i], t.locks[i])
  {
    hide Can, Shape, Poised;
    t := Begun(c, y0, y, i);
    t := FoundNone(c, y0, t, i);
    t := Decided(c, y0, t, i);
    t := Checked(c, y0, t, i);
  }

  lemma PutLands(c: Cfg, y0: Sys, y: Sys, i: Id, etag: S3.Etag) returns (t: Sys)
    requires Can(c, y0, y) && SysOk(c, y) && i in y.s.nodes && etag != ""
    requires Poised(y.s.sent, i, y.s.nodes[i], y.locks[i])
    ensures Can(c, y0, t) && SysOk(c, t) && t.s.nodes.Keys == y.s.nodes.Keys && t.locks.Keys == y.locks.Keys
    ensures t.s.sent == y.s.sent && t.locks[i].op.Answering?
    ensures t.s.nodes[i] == y.s.nodes[i].(step := Waiting(y.s.nodes[i].step.req, true))
    ensures forall j :: j in y.s.nodes && j != i ==> t.s.nodes[j] == y.s.nodes[j] && t.locks[j] == y.locks[j]
  {
    hide Can, Shape, NodeShape;
    t := DoAsk(c, y0, y, i, Put(etag));
  }

  /** Its Put succeeds whatever the object has become. */
  lemma PutLeads(c: Cfg, y0: Sys, y: Sys, i: Id, etag: S3.Etag) returns (t: Sys)
    requires CfgOk(c) && Can(c, y0, y) && SysOk(c, y) && i in y.s.nodes && etag != ""
    requires Poised(y.s.sent, i, y.s.nodes[i], y.locks[i])
    ensures Can(c, y0, t) && SysOk(c, t) && t.s.nodes.Keys == y.s.nodes.Keys && t.locks.Keys == y.locks.Keys
    ensures t.s.nodes[i].phase.Leading? && t.s.sent == y.s.sent
    ensures forall j :: j in y.s.nodes && j != i ==> t.s.nodes[j] == y.s.nodes[j] && t.locks[j] == y.locks[j]
  {
    hide Can, Shape, NodeShape;
    t := PutLands(c, y0, y, i, etag);
    ShapeAt(c, y.s, i);
    t := DoAsk(c, y0, t, i, PutAck);
  }

  lemma PoisedMore(sent: seq<Request>, sent': seq<Request>, i: Id, n: Node, l: S3.Node)
    requires Poised(sent, i, n, l) && sent <= sent'
    ensures Poised(sent', i, n, l)
  {
  }

  lemma StartOf(c: Cfg) returns (y0: Sys)
    ensures Start(c, y0) && SysOk(c, y0) && Can(c, y0, y0)
    ensures forall i :: i in y0.s.nodes ==> New(y0.s.nodes[i], y0.locks[i])
    ensures y0.s.log == [] && y0.s.nodes.Keys == y0.locks.Keys == c.nodes.Keys
  {
    var s := Tightness.AllIdle(c, 0.0);
    Tightness.AllIdleLive(c, 0.0);
    hide Tightness.AllIdle;
    y0 := Sys(s, [], map i | i in s.nodes :: S3.IDLE, {});
    assert Path(c, y0, [], y0);
  }

  /** Without the clean Puts nothing else helps: whatever the durations, deadlines
      and clock rates, some run on S3 has two nodes in their renew loops. */
  lemma RacyTwoLeaders(c: Cfg, a: Id, b: Id) returns (y0: Sys, ms: seq<Move>)
    requires CfgOk(c) && a in c.nodes && b in c.nodes && a != b
    ensures Start(c, y0) && ValidRun(c, y0, ms) && !Exclusive(RunAll(c, y0, ms).s)
  {
    hide Can, Start, SysOk, New, Poised;
    y0 := StartOf(c);
    var y := Poise(c, y0, y0, a);
    var z := Poise(c, y0, y, b);
    PoisedMore(y.s.sent, z.s.sent, a, z.s.nodes[a], z.locks[a]);
    var t := PutLeads(c, y0, z, a, "1");
    var u := PutLeads(c, y0, t, b, "2");
    assert u.s.nodes[a].phase.Leading? && u.s.nodes[b].phase.Leading?;
    ms := PathOf(c, y0, u);
  }

  lemma PathOf(c: Cfg, y: Sys, z: Sys) returns (ms: seq<Move>)
    requires Can(c, y, z)
    ensures ValidRun(c, y, ms) && RunAll(c, y, ms) == z
  {
    ms :| Path(c, y, ms, z);
  }
}
