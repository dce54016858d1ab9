/** Tolerance of clock offsets: moving every node's clock by its own whole number
    of milliseconds turns each run into a run of the same events, with the same
    holders, the same answers and the same transition counts. */
module Skew {
  import opened Records
  import opened Elector
  import opened Protocol
  import opened Invariant

  type Offsets = map<Id, int>

  function At(off: Offsets, i: Id): int {
    if i in off then off[i] else 0
  }

  /** A record carries times of its holder's clock. */
  function ShiftRec(off: Offsets, r: Record): Record {
    r.(acquireMs := r.acquireMs + At(off, r.holder), renewMs := r.renewMs + At(off, r.holder))
  }

  function ShiftRaw(off: Offsets, r: Option<Record>): Option<Record> {
    if r.Some? then Some(ShiftRec(off, r.value)) else None
  }

  function ShiftClocks(off: Offsets, m: map<Id, real>): map<Id, real> {
    map i | i in m :: m[i] + At(off, i) as real
  }

  function ShiftView(off: Offsets, i: Id, v: View): View {
    View(ShiftRec(off, v.observed), ShiftRaw(off, v.raw), v.observedTime + At(off, i) as real)
  }

  function ShiftReq(off: Offsets, q: Request): Request {
    Request(q.node, q.kind, q.expected, ShiftRec(off, q.rec), q.read + At(off, q.node) as real,
            ShiftView(off, q.node, q.basis), ShiftClocks(off, q.seen))
  }

  function ShiftReqs(off: Offsets, rs: seq<Request>): (r: seq<Request>)
    ensures |r| == |rs|
  {
    seq(|rs|, k requires 0 <= k < |rs| => ShiftReq(off, rs[k]))
  }

  function ShiftPhase(o: real, p: Phase): Phase {
    match p
    case Acquiring(t) => Acquiring(t + o)
    case Leading(t) => Leading(t + o)
    case _ => p
  }

  function ShiftStep(o: real, st: Step): Step {
    match st
    case Started(t) => Started(t + o)
    case Fetched(t, v) => Fetched(t + o, v)
    case _ => st
  }

  function ShiftNode(off: Offsets, i: Id, n: Node): Node {
    var o := At(off, i) as real;
    Node(n.clock + o, ShiftView(off, i, n.view), n.cached, ShiftPhase(o, n.phase), ShiftStep(o, n.step),
         ShiftClocks(off, n.seen))
  }

  function ShiftNodes(off: Offsets, nodes: map<Id, Node>): map<Id, Node> {
    map i | i in nodes :: ShiftNode(off, i, nodes[i])
  }

  function ShiftState(off: Offsets, s: State): State {
    State(ShiftReqs(off, s.log), ShiftReqs(off, s.sent), ShiftNodes(off, s.nodes))
  }

  // ---- building blocks ----------------------------------------------------

  lemma ReqsAppend(off: Offsets, a: seq<Request>, b: seq<Request>)
    ensures ShiftReqs(off, a + b) == ShiftReqs(off, a) + ShiftReqs(off, b)
  {
  }

  lemma LookShift(off: Offsets, i: Id, n: Node, r: Record, clocks: map<Id, real>)
    ensures ShiftNode(off, i, Look(n, r, clocks)) ==
            Look(ShiftNode(off, i, n), ShiftRec(off, r), ShiftClocks(off, clocks))
  {
  }

  lemma BlockedShift(off: Offsets, i: Id, v: View, r: Record, now: real)
    ensures Blocked(v, i, r, now) <==> Blocked(ShiftView(off, i, v), i, ShiftRec(off, r), now + At(off, i) as real)
  {
  }

  /** Holds because a leader only ever keeps the AcquireTime of its own record. */
  lemma ProposalShift(off: Offsets, i: Id, v: View, leaseMs: int, r: Record, now: real)
    requires IsLeader(v, i) ==> r.holder == i
    ensures ShiftRec(off, Proposal(v, i, leaseMs, r, now)) ==
            Proposal(ShiftView(off, i, v), i, leaseMs, ShiftRec(off, r), now + At(off, i) as real)
  {
  }

  lemma ComposeShift(off: Offsets, cfg: NodeCfg, i: Id, n: Node, log: seq<Request>, start: real, ver: nat)
    requires ver <= |log|
    requires ver > 0 && IsLeader(n.view, i) ==> log[ver - 1].rec.holder == i
    ensures ShiftReq(off, Compose(cfg, i, n, log, start, ver)) ==
            Compose(cfg, i, ShiftNode(off, i, n), ShiftReqs(off, log), start + At(off, i) as real, ver)
  {
    if ver > 0 {
      ProposalShift(off, i, n.view, cfg.leaseMs, log[ver - 1].rec, start);
      hide Proposal, ShiftClocks;
    }
  }

  lemma ReleaseShift(off: Offsets, releaseMs: nat, i: Id, n: Node)
    requires IsLeader(n.view, i)
    ensures ShiftReq(off, ComposeRelease(releaseMs, i, n)) == ComposeRelease(releaseMs, i, ShiftNode(off, i, n))
  {
  }

  // ---- one node -----------------------------------------------------------

  lemma MayShift(off: Offsets, cfg: NodeCfg, sent: seq<Request>, i: Id, n: Node, a: Action)
    requires n.step.Waiting? ==> n.step.req < |sent| && sent[n.step.req].node == i
    ensures May(cfg, sent, i, n, a) <==> May(cfg, ShiftReqs(off, sent), i, ShiftNode(off, i, n), a)
  {
  }

  lemma NodeFields(off: Offsets, i: Id, n: Node)
    ensures var o := At(off, i) as real;
            && ShiftNode(off, i, n).view == ShiftView(off, i, n.view)
            && ShiftNode(off, i, n).step == ShiftStep(o, n.step)
  {
  }

  lemma OutcomeShift(off: Offsets, cfg: NodeCfg, i: Id, n: Node, k: nat, q: Request)
    ensures ShiftNode(off, i, Fail(cfg, n)) == Fail(cfg, ShiftNode(off, i, n))
    ensures ShiftNode(off, i, n.(step := Waiting(k, false))) == ShiftNode(off, i, n).(step := Waiting(k, false))
    ensures ShiftReqs(off, []) == [] && ShiftReqs(off, [q]) == [ShiftReq(off, q)]
  {
    hide ShiftView, ShiftClocks, ShiftReq;
  }

  lemma DecideShift(c: Cfg, off: Offsets, log: seq<Request>, sent: seq<Request>, clocks: map<Id, real>, i: Id, n: Node)
    requires Context(c, log, sent, clocks, i, n) && n.step.Fetched?
    ensures var f := DecideEffect(c.nodes[i], i, n, log, |sent|, clocks);
            DecideEffect(c.nodes[i], i, ShiftNode(off, i, n), ShiftReqs(off, log), |sent|, ShiftClocks(off, clocks)) ==
            Effect(ShiftNode(off, i, f.node), ShiftReqs(off, f.out))
  {
    hide LogOk, SentOk, NodeOk, RatioOk, Context, Blocked, Look, Compose, Fail, ShiftNode;
    FetchedBound(c, log, sent, clocks, i, n);
    NodeFields(off, i, n);
    var start, ver := n.step.start, n.step.ver;
    if ver == 0 {
      ComposeShift(off, c.nodes[i], i, n, log, start, ver);
      OutcomeShift(off, c.nodes[i], i, n, |sent|, Compose(c.nodes[i], i, n, log, start, ver));
    } else {
      var r := log[ver - 1].rec;
      var n1 := Look(n, r, clocks);
      LookDecides(c, log, sent, clocks, i, n);
      LogHolder(c, log, sent, clocks, i, n, ver - 1);
      LookShift(off, i, n, r, clocks);
      assert ShiftReqs(off, log)[ver - 1].rec == ShiftRec(off, r);
      NodeFields(off, i, n1);
      BlockedShift(off, i, n1.view, r, start);
      ComposeShift(off, c.nodes[i], i, n1, log, start, ver);
      OutcomeShift(off, c.nodes[i], i, n1, |sent|, Compose(c.nodes[i], i, n1, log, start, ver));
    }
    hide ShiftClocks, ShiftReq, ShiftReqs, ShiftView, ShiftRec;
  }

  lemma FetchedBound(c: Cfg, log: seq<Request>, sent: seq<Request>, clocks: map<Id, real>, i: Id, n: Node)
    requires Context(c, log, sent, clocks, i, n)
    ensures i in c.nodes && NodeShape(c, log, sent, n)
    ensures n.step.Waiting? ==> n.step.req < |sent| && sent[n.step.req].node == i
  {
  }

  lemma LogHolder(c: Cfg, log: seq<Request>, sent: seq<Request>, clocks: map<Id, real>, i: Id, n: Node, k: nat)
    requires Context(c, log, sent, clocks, i, n) && k < |log|
    ensures log[k].rec.holder == log[k].node
  {
  }

  lemma AckShift(off: Offsets, cfg: NodeCfg, i: Id, n: Node, q: Request, clocks: map<Id, real>)
    ensures ShiftNode(off, i, Acked(cfg, n, q, clocks)) ==
            Acked(cfg, ShiftNode(off, i, n), ShiftReq(off, q), ShiftClocks(off, clocks))
  {
  }

  lemma DoShift(c: Cfg, off: Offsets, log: seq<Request>, sent: seq<Request>, clocks: map<Id, real>, i: Id, n: Node,
                a: Action)
    requires Context(c, log, sent, clocks, i, n) && NodeShape(c, log, sent, n) && i in c.nodes
             && May(c.nodes[i], sent, i, n, a)
    ensures NodeShape(c, ShiftReqs(off, log), ShiftReqs(off, sent), ShiftNode(off, i, n))
    ensures May(c.nodes[i], ShiftReqs(off, sent), i, ShiftNode(off, i, n), a)
    ensures var f := Do(c, log, sent, clocks, i, n, a);
            Do(c, ShiftReqs(off, log), ShiftReqs(off, sent), ShiftClocks(off, clocks), i, ShiftNode(off, i, n), a) ==
            Effect(ShiftNode(off, i, f.node), ShiftReqs(off, f.out))
  {
    hide Context, DecideEffect, ShiftReq, ComposeRelease, Acked, ShiftRec;
    FetchedBound(c, log, sent, clocks, i, n);
    MayShift(off, c.nodes[i], sent, i, n, a);
    assert ShiftClocks(off, n.seen).Keys == n.seen.Keys;
    match a {
      case Decide => DecideShift(c, off, log, sent, clocks, i, n);
      case Ack => AckShift(off, c.nodes[i], i, n, sent[n.step.req], clocks);
      case SendRelease => ReleaseShift(off, c.releaseMs, i, n);
      case _ =>
    }
  }

  // ---- whole states -------------------------------------------------------

  lemma NodeShapeShift(c: Cfg, off: Offsets, log: seq<Request>, sent: seq<Request>, i: Id, n: Node)
    requires NodeShape(c, log, sent, n)
    ensures NodeShape(c, ShiftReqs(off, log), ShiftReqs(off, sent), ShiftNode(off, i, n))
  {
  }

  lemma ClocksShift(off: Offsets, s: State)
    ensures Clocks(ShiftState(off, s)) == ShiftClocks(off, Clocks(s))
  {
  }

  lemma ShapeShift(c: Cfg, off: Offsets, s: State)
    requires Shape(c, s)
    ensures Shape(c, ShiftState(off, s))
    ensures Clocks(ShiftState(off, s)) == ShiftClocks(off, Clocks(s))
  {
    hide NodeShape, ShiftNode, ShiftReqs;
    var t := ShiftState(off, s);
    forall i | i in t.nodes
      ensures NodeShape(c, t.log, t.sent, t.nodes[i])
    {
      NodeShapeShift(c, off, s.log, s.sent, i, s.nodes[i]);
    }
    ClocksShift(off, s);
  }

  lemma TickMayShift(c: Cfg, off: Offsets, s: State, d: map<Id, real>)
    requires Shape(c, s)
    ensures MayTick(c, s, d) <==> MayTick(c, ShiftState(off, s), d)
  {
    hide Steady, NodeShape, ShiftReqs, ShiftView, ShiftClocks, ShiftStep;
    var t := ShiftState(off, s);
    assert t.nodes.Keys == s.nodes.Keys;
    forall i | i in s.nodes && i in c.nodes && i in d
      ensures s.nodes[i].phase.Leading? <==> t.nodes[i].phase.Leading?
      ensures s.nodes[i].phase.Leading? ==>
                (s.nodes[i].clock + d[i] <= s.nodes[i].phase.round + c.nodes[i].renewDeadline <==>
                 t.nodes[i].clock + d[i] <= t.nodes[i].phase.round + c.nodes[i].renewDeadline)
    {
    }
  }

  lemma WaitsOwn(c: Cfg, s: State, i: Id)
    requires Inv(c, s) && i in s.nodes
    ensures NodeShape(c, s.log, s.sent, s.nodes[i]) && i in c.nodes
    ensures s.nodes[i].step.Waiting? ==>
              s.nodes[i].step.req < |s.sent| && s.sent[s.nodes[i].step.req].node == i
  {
    hide LogOk, SentOk, RatioOk, Past, Holds, Agrees;
    assert NodeOk(c, s.log, s.sent, i, s.nodes[i]);
  }

  lemma EnabledShift(c: Cfg, off: Offsets, s: State, e: Event)
    requires Inv(c, s)
    ensures Shape(c, ShiftState(off, s))
    ensures Enabled(c, s, e) <==> Enabled(c, ShiftState(off, s), e)
  {
    hide LogOk, SentOk, NodeOk, RatioOk, Shape, NodeShape, MayTick, May, ShiftNode;
    ShapeShift(c, off, s);
    match e {
      case Tick(d) => TickMayShift(c, off, s, d);
      case Land(k) =>
      case Act(i, a) =>
        if i in s.nodes {
          WaitsOwn(c, s, i);
          MayShift(off, c.nodes[i], s.sent, i, s.nodes[i], a);
        }
    }
  }

  lemma LandedShift(off: Offsets, i: Id, n: Node, k: nat)
    ensures ShiftNode(off, i, Landed(n, k)) == Landed(ShiftNode(off, i, n), k)
  {
  }

  lemma NodesShift(off: Offsets, nodes: map<Id, Node>, i: Id, n: Node)
    requires i in nodes
    ensures ShiftNodes(off, nodes[i := n]) == ShiftNodes(off, nodes)[i := ShiftNode(off, i, n)]
  {
  }

  lemma ActShift(c: Cfg, off: Offsets, s: State, i: Id, a: Action)
    requires CfgOk(c) && Inv(c, s) && Enabled(c, s, Act(i, a))
    requires Shape(c, ShiftState(off, s)) && Enabled(c, ShiftState(off, s), Act(i, a))
    ensures Next(c, ShiftState(off, s), Act(i, a)) == ShiftState(off, Next(c, s, Act(i, a)))
  {
    hide LogOk, SentOk, NodeOk, RatioOk, Shape, NodeShape, May, Do, ShiftNode, Context, ShiftReqs;
    Unpack(c, s, i, a);
    ContextAt(c, s, i);
    Reshaped(c, off, s);
    DoShift(c, off, s.log, s.sent, Clocks(s), i, s.nodes[i], a);
    var f := Do(c, s.log, s.sent, Clocks(s), i, s.nodes[i], a);
    ReqsAppend(off, s.sent, f.out);
    NodesShift(off, s.nodes, i, f.node);
  }

  lemma Reshaped(c: Cfg, off: Offsets, s: State)
    requires Inv(c, s)
    ensures Clocks(ShiftState(off, s)) == ShiftClocks(off, Clocks(s))
  {
    ShapeShift(c, off, s);
  }

  lemma LandShift(c: Cfg, off: Offsets, s: State, k: nat)
    requires Shape(c, s) && Enabled(c, s, Land(k))
    requires Shape(c, ShiftState(off, s)) && Enabled(c, ShiftState(off, s), Land(k))
    ensures Next(c, ShiftState(off, s), Land(k)) == ShiftState(off, Next(c, s, Land(k)))
  {
    hide Shape, NodeShape, May, ShiftNode, Landed, MayTick;
    var q := s.sent[k];
    ReqsAppend(off, s.log, [q]);
    assert ShiftReqs(off, [q]) == [ShiftReq(off, q)];
    LandedShift(off, q.node, s.nodes[q.node], k);
    NodesShift(off, s.nodes, q.node, Landed(s.nodes[q.node], k));
  }

  lemma ClockShift(off: Offsets, i: Id, n: Node, d: real)
    ensures ShiftNode(off, i, n.(clock := n.clock + d)) ==
            ShiftNode(off, i, n).(clock := ShiftNode(off, i, n).clock + d)
  {
  }

  lemma TickShift(c: Cfg, off: Offsets, s: State, d: map<Id, real>)
    requires Shape(c, s) && Enabled(c, s, Tick(d))
    requires Shape(c, ShiftState(off, s)) && Enabled(c, ShiftState(off, s), Tick(d))
    ensures Next(c, ShiftState(off, s), Tick(d)) == ShiftState(off, Next(c, s, Tick(d)))
  {
    hide Shape, NodeShape, May, ShiftNode, Steady, ShiftReqs;
    var t := Next(c, ShiftState(off, s), Tick(d));
    var t' := ShiftState(off, Next(c, s, Tick(d)));
    assert t.nodes.Keys == t'.nodes.Keys;
    forall i | i in t.nodes
      ensures t.nodes[i] == t'.nodes[i]
    {
      ClockShift(off, i, s.nodes[i], d[i]);
    }
  }

  lemma NextShift(c: Cfg, off: Offsets, s: State, e: Event)
    requires CfgOk(c) && Inv(c, s) && Enabled(c, s, e)
    ensures Shape(c, ShiftState(off, s)) && Enabled(c, ShiftState(off, s), e)
    ensures Next(c, ShiftState(off, s), e) == ShiftState(off, Next(c, s, e))
  {
    hide Next, Enabled, ShiftState, LogOk, SentOk, NodeOk, RatioOk, Shape;
    EnabledShift(c, off, s, e);
    match e {
      case Act(i, a) => ActShift(c, off, s, i, a);
      case Land(k) => LandShift(c, off, s, k);
      case Tick(d) => TickShift(c, off, s, d);
    }
  }

  lemma {:induction false} RunShift(c: Cfg, off: Offsets, s: State, es: seq<Event>)
    requires CfgOk(c) && Inv(c, s)
    ensures Valid(c, s, es) <==> Valid(c, ShiftState(off, s), es)
    ensures Valid(c, s, es) ==> Run(c, ShiftState(off, s), es) == ShiftState(off, Run(c, s, es))
    decreases |es|
  {
    hide Next, Enabled, ShiftState, LogOk, SentOk, NodeOk, RatioOk, Shape;
    if es == [] {
      ShapeKnown(c, off, s);
    } else {
      EnabledShift(c, off, s, es[0]);
      if Enabled(c, s, es[0]) {
        NextShift(c, off, s, es[0]);
        NextInv(c, s, es[0]);
        RunShift(c, off, Next(c, s, es[0]), es[1..]);
      }
    }
  }

  lemma ShapeKnown(c: Cfg, off: Offsets, s: State)
    requires Inv(c, s)
    ensures Shape(c, s) && Shape(c, ShiftState(off, s))
  {
    ShapeShift(c, off, s);
  }

  lemma InitShift(c: Cfg, off: Offsets, s: State)
    requires CfgOk(c) && Init(c, s) && "" !in off
    ensures Init(c, ShiftState(off, s))
  {
    InitInv(c, s);
    ShapeShift(c, off, s);
    assert ShiftRec(off, NO_RECORD) == NO_RECORD;
  }

  /** What an outside observer sees of a state. */
  predicate SameFace(s: State, t: State) {
    && |s.log| == |t.log| && s.nodes.Keys == t.nodes.Keys
    && (forall k :: 0 <= k < |s.log| ==>
                      && s.log[k].node == t.log[k].node && s.log[k].kind == t.log[k].kind
                      && s.log[k].rec.holder == t.log[k].rec.holder
                      && s.log[k].rec.leaseMs == t.log[k].rec.leaseMs
                      && s.log[k].rec.transitions == t.log[k].rec.transitions)
    && (forall i :: i in s.nodes ==>
                      && (s.nodes[i].phase.Leading? <==> t.nodes[i].phase.Leading?)
                      && s.nodes[i].view.observed.holder == t.nodes[i].view.observed.holder
                      && s.nodes[i].cached == t.nodes[i].cached)
  }

  lemma ShiftFace(off: Offsets, s: State)
    ensures SameFace(s, ShiftState(off, s))
  {
  }

  /** Every clock of the second state is ahead by its node's offset, and so is every
      time that its holder stored. */
  predicate ClocksApart(off: Offsets, s: State, t: State) {
    && s.nodes.Keys == t.nodes.Keys && |s.log| == |t.log|
    && (forall i :: i in s.nodes ==>
                      t.nodes[i].clock == s.nodes[i].clock + (if i in off then off[i] else 0) as real)
    && forall k :: 0 <= k < |s.log| ==>
                     t.log[k].rec.renewMs ==
                     s.log[k].rec.renewMs + (if s.log[k].rec.holder in off then off[s.log[k].rec.holder] else 0)
  }

  lemma ShiftApart(off: Offsets, s: State)
    ensures ClocksApart(off, s, ShiftState(off, s))
  {
  }

  /** Offset invariance: from the same start with every clock moved by its own
      offset, exactly the same event sequences are runs, and after each of them
      holders, leaders, stored durations and counts agree, while every clock is
      still off by its offset. */
  lemma OffsetInvariance(c: Cfg, off: Offsets, s0: State, es: seq<Event>)
    requires CfgOk(c) && Init(c, s0) && "" !in off
    ensures Init(c, ShiftState(off, s0))
    ensures Valid(c, s0, es) <==> Valid(c, ShiftState(off, s0), es)
    ensures Valid(c, s0, es) ==>
              && Run(c, ShiftState(off, s0), es) == ShiftState(off, Run(c, s0, es))
              && SameFace(Run(c, s0, es), Run(c, ShiftState(off, s0), es))
              && ClocksApart(off, Run(c, s0, es), Run(c, ShiftState(off, s0), es))
    ensures ClocksApart(off, s0, ShiftState(off, s0))
  {
    hide Valid, Run, SameFace, Inv;
    ShiftApart(off, s0);
    InitShift(c, off, s0);
    InitInv(c, s0);
    hide Init, ShiftState;
    RunShift(c, off, s0, es);
    if Valid(c, s0, es) {
      ShiftFace(off, Run(c, s0, es));
      ShiftApart(off, Run(c, s0, es));
    }
  }
}
