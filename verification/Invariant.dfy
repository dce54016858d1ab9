/** What every step of the protocol keeps, whatever the timing settings. */
module Invariant {
  import opened Records
  import opened Elector
  import opened Protocol

  /** How a write relates to the stored write it replaces. */
  predicate Follows(p: Request, q: Request) {
    match q.kind
    case Create => false
    case Renewal =>
      && p.node == q.node
      && q.rec.transitions == p.rec.transitions && q.rec.acquireMs == p.rec.acquireMs
    case Takeover =>
      && p.node != q.node
      && q.rec.transitions == p.rec.transitions + 1 && q.rec.acquireMs == q.rec.renewMs
      && q.basis.raw == Some(p.rec) && q.basis.observed == p.rec
      && q.basis.observedTime + p.rec.leaseMs as real <= q.read
      && q.node in q.seen && q.seen[q.node] == q.basis.observedTime
      && p.node in q.seen && p.rec.renewMs as real <= q.seen[p.node]
    case Release =>
      && p.node == q.node
      && q.rec.transitions == p.rec.transitions && q.rec.acquireMs == q.rec.renewMs
  }

  predicate Proper(c: Cfg, log: seq<Request>, q: Request) {
    && q.node in c.nodes
    && q.expected <= |log|
    && q.rec.holder == q.node
    && q.rec.renewMs == q.read.Floor
    && q.rec.leaseMs == (if q.kind == Release then c.releaseMs else c.nodes[q.node].leaseMs)
    && (if q.expected == 0 then
          q.kind == Create && q.rec.transitions == 0 && q.rec.acquireMs == q.rec.renewMs
        else
          Follows(log[q.expected - 1], q))
  }

  predicate LogOk(c: Cfg, log: seq<Request>) {
    forall k :: 0 <= k < |log| ==> log[k].expected == k && Proper(c, log, log[k])
  }

  /** Every clock read of node `i` behind a request lies at or before `t`. */
  predicate Past(rs: seq<Request>, i: Id, t: real) {
    forall k :: 0 <= k < |rs| && rs[k].node == i ==> rs[k].read <= t
  }

  /** Either the view and the raw form agree on leadership and count, or the
      stored count has moved past the raw form, which then never returns. */
  predicate Agrees(i: Id, v: View, stored: Record) {
    v.raw.Some? ==>
      || (&& (v.observed.holder == i <==> v.raw.value.holder == i)
          && v.observed.transitions == v.raw.value.transitions)
      || v.raw.value.transitions < stored.transitions
  }

  /** A node that believes it leads holds the version of a write of its own. */
  predicate Holds(log: seq<Request>, i: Id, n: Node) {
    IsLeader(n.view, i) ==>
      && 0 < n.cached <= |log|
      && log[n.cached - 1].node == i
      && log[n.cached - 1].rec.transitions == n.view.observed.transitions
  }

  predicate InLoop(p: Phase, start: real) {
    p.Acquiring? || (p.Leading? && p.round <= start)
  }

  predicate ViewOk(c: Cfg, log: seq<Request>, i: Id, n: Node) {
    && i in c.nodes && n.seen.Keys == c.nodes.Keys
    && n.cached <= |log|
    && (n.view.raw.Some? ==>
          && |log| > 0
          && n.view.raw.value.holder in c.nodes
          && n.view.raw.value.renewMs as real <= n.seen[n.view.raw.value.holder]
          && n.seen[i] == n.view.observedTime
          && (!IsLeader(n.view, i) ==> n.view.observed == n.view.raw.value)
          && Agrees(i, n.view, log[|log| - 1].rec))
  }

  predicate WaitOk(log: seq<Request>, i: Id, n: Node, q: Request, landed: bool) {
    && q.node == i
    && Holds(log, i, n)
    && q.expected <= |log|
    && (landed ==> q.expected < |log| && log[q.expected] == q)
    && (if q.kind == Release then
          n.phase.Idle? && IsLeader(n.view, i) && q.rec.transitions == n.view.observed.transitions
        else
          && InLoop(n.phase, q.read)
          && n.view.raw == if q.expected == 0 then None else Some(log[q.expected - 1].rec))
  }

  predicate StepOk(log: seq<Request>, sent: seq<Request>, i: Id, n: Node) {
    match n.step
    case NoAttempt => Holds(log, i, n)
    case Started(start) =>
      Holds(log, i, n) && start <= n.clock && InLoop(n.phase, start) && Past(sent, i, start) && Past(log, i, start)
    case Fetched(start, ver) =>
      && start <= n.clock && InLoop(n.phase, start) && ver <= |log|
      && (if ver == 0 then
            n.view.raw == None && Holds(log, i, n)
          else
            && n.cached == ver
            && Agrees(i, n.view, log[ver - 1].rec)
            && (log[ver - 1].node == i ==> log[ver - 1].read <= start))
    case Waiting(k, landed) => k < |sent| && WaitOk(log, i, n, sent[k], landed)
  }

  /** Leaders stay within their round, and their observation is recent. */
  predicate Recent(cfg: NodeCfg, n: Node) {
    n.phase.Leading? ==>
      && n.view.observedTime <= n.clock
      && n.phase.round <= n.view.observedTime + cfg.retryPeriod
      && n.clock <= n.phase.round + cfg.renewDeadline
  }

  predicate NodeOk(c: Cfg, log: seq<Request>, sent: seq<Request>, i: Id, n: Node) {
    && ViewOk(c, log, i, n)
    && StepOk(log, sent, i, n)
    && Past(sent, i, n.clock) && Past(log, i, n.clock)
    && Recent(c.nodes[i], n)
  }

  predicate SentOk(c: Cfg, log: seq<Request>, sent: seq<Request>) {
    forall k :: 0 <= k < |sent| ==> Proper(c, log, sent[k])
  }

  /** Time since node `i` refreshed its view, on its clock and on any other. */
  predicate RatioOk(c: Cfg, clocks: map<Id, real>, i: Id, seen: map<Id, real>) {
    && i in clocks && i in seen
    && forall j :: j in clocks && j in seen ==>
                     seen[j] <= clocks[j] && clocks[i] - seen[i] <= Scaled(c.ratio, clocks[j] - seen[j])
  }

  predicate Inv(c: Cfg, s: State) {
    && Shape(c, s)
    && LogOk(c, s.log)
    && SentOk(c, s.log, s.sent)
    && (forall i :: i in s.nodes ==> NodeOk(c, s.log, s.sent, i, s.nodes[i]))
    && (forall i :: i in s.nodes ==> RatioOk(c, Clocks(s), i, s.nodes[i].seen))
  }

  // ---- consequences about the log -----------------------------------------

  lemma {:induction false} TransitionsGrow(c: Cfg, log: seq<Request>, a: nat, b: nat)
    requires LogOk(c, log) && a <= b < |log|
    ensures log[a].rec.transitions <= log[b].rec.transitions
    decreases b
  {
    hide LogOk;
    if a < b {
      TransitionsGrow(c, log, a, b - 1);
      LogAt(c, log, b);
    }
  }

  lemma ProperKept(c: Cfg, log: seq<Request>, q: Request, r: Request)
    requires Proper(c, log, q)
    ensures Proper(c, log + [r], q)
  {
  }

  lemma LogAt(c: Cfg, log: seq<Request>, k: nat)
    requires LogOk(c, log) && k < |log|
    ensures Proper(c, log, log[k]) && log[k].expected == k && log[k].node in c.nodes && log[k].rec.holder == log[k].node
  {
  }

  lemma SentAt(c: Cfg, log: seq<Request>, sent: seq<Request>, k: nat)
    requires SentOk(c, log, sent) && k < |sent|
    ensures Proper(c, log, sent[k]) && sent[k].node in c.nodes && sent[k].expected <= |log|
  {
  }

  lemma LogGrows(c: Cfg, log: seq<Request>, q: Request)
    requires LogOk(c, log) && Proper(c, log, q) && q.expected == |log|
    ensures LogOk(c, log + [q])
  {
    var log' := log + [q];
    forall k | 0 <= k < |log'|
      ensures log'[k].expected == k && Proper(c, log', log'[k])
    {
      assert k < |log| ==> log'[k] == log[k];
      ProperKept(c, log, log'[k], q);
    }
  }

  // ---- the acting node ----------------------------------------------------

  ghost predicate Context(c: Cfg, log: seq<Request>, sent: seq<Request>, clocks: map<Id, real>, i: Id, n: Node) {
    && CfgOk(c) && LogOk(c, log) && SentOk(c, log, sent)
    && NodeOk(c, log, sent, i, n) && NodeShape(c, log, sent, n)
    && clocks.Keys == c.nodes.Keys && clocks[i] == n.clock && RatioOk(c, clocks, i, n.seen)
    && forall j :: j in c.nodes ==> Past(log, j, clocks[j])
  }

  /** The decision point: after looking, the elector considers itself leader
      exactly when the record it just fetched names it. */
  lemma LookDecides(c: Cfg, log: seq<Request>, sent: seq<Request>, clocks: map<Id, real>, i: Id, n: Node)
    requires Context(c, log, sent, clocks, i, n) && n.step.Fetched? && n.step.ver > 0
    ensures var stored := log[n.step.ver - 1];
            var n1 := Look(n, stored.rec, clocks);
            && (IsLeader(n1.view, i) <==> stored.node == i)
            && n1.view.raw == Some(stored.rec)
            && n1.view.observed.transitions == stored.rec.transitions
            && ViewOk(c, log, i, n1)
            && Holds(log, i, n1)
  {
    hide LogOk, SentOk, Recent, Follows, NodeShape;
    var stored := log[n.step.ver - 1];
    LogAt(c, log, n.step.ver - 1);
    assert stored.rec.renewMs as real <= stored.read;
    assert Past(log, stored.node, clocks[stored.node]);
    TransitionsGrow(c, log, n.step.ver - 1, |log| - 1);
  }

  lemma SentGrows(c: Cfg, log: seq<Request>, sent: seq<Request>, q: Request, i: Id, t: real)
    requires SentOk(c, log, sent) && Proper(c, log, q)
    ensures SentOk(c, log, sent + [q])
    ensures Past(sent, i, t) && (q.node == i ==> q.read <= t) ==> Past(sent + [q], i, t)
  {
  }

  /** Leadership decided, the request composed is the proper successor. */
  lemma ComposeProper(c: Cfg, log: seq<Request>, sent: seq<Request>, clocks: map<Id, real>, i: Id, n: Node)
    requires Context(c, log, sent, clocks, i, n) && n.step.Fetched? && n.step.ver > 0
    requires !Blocked(Look(n, log[n.step.ver - 1].rec, clocks).view, i, log[n.step.ver - 1].rec, n.step.start)
    ensures Proper(c, log, Compose(c.nodes[i], i, Look(n, log[n.step.ver - 1].rec, clocks), log,
                                   n.step.start, n.step.ver))
  {
    hide LogOk, SentOk, Past, Agrees, Holds, StepOk, Recent, RatioOk, Look;
    LookDecides(c, log, sent, clocks, i, n);
    LogAt(c, log, n.step.ver - 1);
  }

  lemma DecideKeeps(c: Cfg, log: seq<Request>, sent: seq<Request>, clocks: map<Id, real>, i: Id, n: Node)
    requires Context(c, log, sent, clocks, i, n) && n.step.Fetched?
    ensures var f := DecideEffect(c.nodes[i], i, n, log, |sent|, clocks);
            NodeOk(c, log, sent + f.out, i, f.node) && SentOk(c, log, sent + f.out)
  {
    hide LogOk, SentOk, Past, Agrees, Holds, Proper, RatioOk, Blocked;
    var start, ver := n.step.start, n.step.ver;
    if ver == 0 {
      var q := Compose(c.nodes[i], i, n, log, start, ver);
      FirstProper(c, log, i, start, n);
      SentGrows(c, log, sent, q, i, n.clock);
      HoldsLocal(log, i, n, n.(step := Waiting(|sent|, false)));
    } else {
      LookDecides(c, log, sent, clocks, i, n);
      var n1 := Look(n, log[ver - 1].rec, clocks);
      if Blocked(n1.view, i, log[ver - 1].rec, start) {
        assert sent + [] == sent;
        HoldsLocal(log, i, n1, Fail(c.nodes[i], n1));
      } else {
        var q := Compose(c.nodes[i], i, n1, log, start, ver);
        ComposeProper(c, log, sent, clocks, i, n);
        SentGrows(c, log, sent, q, i, n.clock);
        HoldsLocal(log, i, n1, n1.(step := Waiting(|sent|, false)));
      }
    }
  }

  lemma FirstProper(c: Cfg, log: seq<Request>, i: Id, start: real, n: Node)
    requires i in c.nodes
    ensures Proper(c, log, Compose(c.nodes[i], i, n, log, start, 0))
  {
  }

  lemma HoldsLocal(log: seq<Request>, i: Id, n: Node, n': Node)
    requires Holds(log, i, n) && n'.view == n.view && n'.cached == n.cached
    ensures Holds(log, i, n')
  {
  }

  lemma AckView(c: Cfg, log: seq<Request>, clocks: map<Id, real>, i: Id, n: Node, q: Request)
    requires i in c.nodes && ViewOk(c, log, i, n) && WaitOk(log, i, n, q, true) && Proper(c, log, q)
    requires RatioOk(c, clocks, i, n.seen) && clocks.Keys == c.nodes.Keys && clocks[i] == n.clock
    requires q.expected > 0 ==> log[q.expected - 1].rec.holder == log[q.expected - 1].node
    requires q.rec.transitions <= log[|log| - 1].rec.transitions
    ensures ViewOk(c, log, i, Acked(c.nodes[i], n, q, clocks))
    ensures Holds(log, i, Acked(c.nodes[i], n, q, clocks))
  {
  }

  lemma AckRecent(cfg: NodeCfg, n: Node, q: Request, clocks: map<Id, real>)
    requires Recent(cfg, n) && cfg.renewDeadline > 0.0 && cfg.retryPeriod > 0.0
    ensures Recent(cfg, Acked(cfg, n, q, clocks))
  {
  }

  lemma AckKeeps(c: Cfg, log: seq<Request>, sent: seq<Request>, clocks: map<Id, real>, i: Id, n: Node)
    requires Context(c, log, sent, clocks, i, n)
    requires n.step.Waiting? && n.step.landed
    ensures NodeOk(c, log, sent, i, Acked(c.nodes[i], n, sent[n.step.req], clocks))
  {
    hide LogOk, SentOk, ViewOk, Holds, Proper, RatioOk, Recent, Past;
    var q := sent[n.step.req];
    SentAt(c, log, sent, n.step.req);
    if q.expected > 0 {
      LogAt(c, log, q.expected - 1);
    }
    TransitionsGrow(c, log, q.expected, |log| - 1);
    AckView(c, log, clocks, i, n, q);
    AckRecent(c.nodes[i], n, q, clocks);
  }

  lemma GetKeeps(c: Cfg, log: seq<Request>, sent: seq<Request>, clocks: map<Id, real>, i: Id, n: Node)
    requires Context(c, log, sent, clocks, i, n) && n.step.Started?
    ensures NodeOk(c, log, sent, i, Do(c, log, sent, clocks, i, n, Get(true)).node)
  {
  }

  lemma ReleaseKeeps(c: Cfg, log: seq<Request>, sent: seq<Request>, clocks: map<Id, real>, i: Id, n: Node)
    requires Context(c, log, sent, clocks, i, n) && May(c.nodes[i], sent, i, n, SendRelease)
    ensures var f := Do(c, log, sent, clocks, i, n, SendRelease);
            NodeOk(c, log, sent + f.out, i, f.node) && SentOk(c, log, sent + f.out)
  {
    hide LogOk, SentOk, Past, RatioOk, Agrees;
    var q := ComposeRelease(c.releaseMs, i, n);
    LogAt(c, log, n.cached - 1);
    assert Proper(c, log, q);
    SentGrows(c, log, sent, q, i, n.clock);
    hide Proper;
  }

  /** Every action keeps the invariant of the node that takes it. */
  lemma DoKeeps(c: Cfg, log: seq<Request>, sent: seq<Request>, clocks: map<Id, real>, i: Id, n: Node, a: Action)
    requires Context(c, log, sent, clocks, i, n) && May(c.nodes[i], sent, i, n, a)
    ensures var f := Do(c, log, sent, clocks, i, n, a);
            NodeOk(c, log, sent + f.out, i, f.node) && SentOk(c, log, sent + f.out)
  {
    hide LogOk, SentOk, Proper, Past, RatioOk, Agrees;
    assert sent + [] == sent;
    match a {
      case Decide => DecideKeeps(c, log, sent, clocks, i, n);
      case Ack => AckKeeps(c, log, sent, clocks, i, n);
      case SendRelease => ReleaseKeeps(c, log, sent, clocks, i, n);
      case Get(ok) => if ok { GetKeeps(c, log, sent, clocks, i, n); }
      case _ =>
    }
  }

  lemma DoSends(c: Cfg, log: seq<Request>, sent: seq<Request>, clocks: map<Id, real>, i: Id, n: Node, a: Action)
    requires Context(c, log, sent, clocks, i, n) && May(c.nodes[i], sent, i, n, a)
    ensures var f := Do(c, log, sent, clocks, i, n, a);
            f.node.clock == n.clock && forall k :: 0 <= k < |f.out| ==> f.out[k].node == i
  {
  }

  // ---- everybody else -----------------------------------------------------

  /** Requests of other nodes leave a node's invariant alone. */
  lemma OtherSent(c: Cfg, log: seq<Request>, sent: seq<Request>, out: seq<Request>, j: Id, n: Node)
    requires NodeOk(c, log, sent, j, n)
    requires forall k :: 0 <= k < |out| ==> out[k].node != j
    ensures NodeOk(c, log, sent + out, j, n)
  {
  }

  lemma LandView(c: Cfg, log: seq<Request>, i: Id, n: Node, q: Request)
    requires ViewOk(c, log, i, n)
    requires |log| > 0 ==> log[|log| - 1].rec.transitions <= q.rec.transitions
    ensures ViewOk(c, log + [q], i, n)
  {
  }

  lemma LandPast(log: seq<Request>, sent: seq<Request>, k: nat, i: Id, t: real)
    requires Past(log, i, t) && Past(sent, i, t) && k < |sent|
    ensures Past(log + [sent[k]], i, t)
  {
  }

  lemma LandStep(log: seq<Request>, sent: seq<Request>, k: nat, i: Id, n: Node)
    requires StepOk(log, sent, i, n) && k < |sent| && sent[k].expected == |log|
    ensures StepOk(log + [sent[k]], sent, i, n)
    ensures sent[k].node == i ==> StepOk(log + [sent[k]], sent, i, Landed(n, k))
  {
  }

  /** A count never falls when a proper write lands. */
  lemma LandCount(c: Cfg, log: seq<Request>, q: Request)
    requires Proper(c, log, q) && q.expected == |log| > 0
    ensures log[|log| - 1].rec.transitions <= q.rec.transitions
  {
  }

  lemma NodeParts(c: Cfg, log: seq<Request>, sent: seq<Request>, i: Id, n: Node)
    requires NodeOk(c, log, sent, i, n)
    ensures ViewOk(c, log, i, n) && StepOk(log, sent, i, n) && i in c.nodes && Recent(c.nodes[i], n)
    ensures Past(sent, i, n.clock) && Past(log, i, n.clock)
  {
  }

  lemma LandedView(c: Cfg, log: seq<Request>, i: Id, n: Node, k: nat)
    requires ViewOk(c, log, i, n) && i in c.nodes && Recent(c.nodes[i], n)
    ensures ViewOk(c, log, i, Landed(n, k)) && Recent(c.nodes[i], Landed(n, k)) && Landed(n, k).clock == n.clock
  {
  }

  lemma LandKeeps(c: Cfg, log: seq<Request>, sent: seq<Request>, k: nat, i: Id, n: Node)
    requires LogOk(c, log) && SentOk(c, log, sent) && NodeOk(c, log, sent, i, n)
    requires k < |sent| && sent[k].expected == |log|
    ensures NodeOk(c, log + [sent[k]], sent, i, n)
    ensures sent[k].node == i ==> NodeOk(c, log + [sent[k]], sent, i, Landed(n, k))
  {
    hide ViewOk, StepOk, Past, Recent, LogOk, SentOk, Proper, Landed;
    var q := sent[k];
    SentAt(c, log, sent, k);
    NodeParts(c, log, sent, i, n);
    if |log| > 0 {
      LandCount(c, log, q);
    }
    LandView(c, log, i, n, q);
    LandStep(log, sent, k, i, n);
    LandPast(log, sent, k, i, n.clock);
    LandedView(c, log + [q], i, n, k);
  }

  lemma SentKept(c: Cfg, log: seq<Request>, sent: seq<Request>, q: Request)
    requires SentOk(c, log, sent)
    ensures SentOk(c, log + [q], sent)
  {
  }

  lemma TickKeeps(c: Cfg, log: seq<Request>, sent: seq<Request>, i: Id, n: Node, d: real)
    requires NodeOk(c, log, sent, i, n) && d >= 0.0
    requires n.phase.Leading? ==> n.clock + d <= n.phase.round + c.nodes[i].renewDeadline
    ensures NodeOk(c, log, sent, i, n.(clock := n.clock + d))
  {
  }

  lemma RatioSum(r: real, a: real, b: real, x: real, y: real)
    requires a <= r * b && x <= r * y
    ensures a + x <= r * (b + y)
  {
  }

  lemma SteadyAt(r: real, d: map<Id, real>, i: Id, j: Id)
    requires Steady(r, d) && i in d && j in d
    ensures d[i] <= r * d[j]
  {
  }

  lemma RatioAt(c: Cfg, clocks: map<Id, real>, i: Id, seen: map<Id, real>, j: Id)
    requires RatioOk(c, clocks, i, seen) && j in clocks && j in seen
    ensures i in clocks && i in seen
    ensures seen[j] <= clocks[j] && clocks[i] - seen[i] <= Scaled(c.ratio, clocks[j] - seen[j])
  {
  }

  lemma RatioTick(c: Cfg, clocks: map<Id, real>, clocks': map<Id, real>, d: map<Id, real>, i: Id, seen: map<Id, real>)
    requires RatioOk(c, clocks, i, seen)
    requires clocks'.Keys == clocks.Keys == d.Keys
    requires forall j :: j in clocks ==> clocks'[j] == clocks[j] + d[j] && d[j] >= 0.0
    requires Steady(c.ratio, d)
    ensures RatioOk(c, clocks', i, seen)
  {
    hide Steady;
    assert i in clocks && i in seen;
    forall j | j in clocks' && j in seen
      ensures seen[j] <= clocks'[j] && clocks'[i] - seen[i] <= Scaled(c.ratio, clocks'[j] - seen[j])
    {
      RatioAt(c, clocks, i, seen, j);
      SteadyAt(c.ratio, d, i, j);
      RatioSum(c.ratio, clocks[i] - seen[i], clocks[j] - seen[j], d[i], d[j]);
      assert (clocks[j] - seen[j]) + d[j] == clocks'[j] - seen[j];
    }
  }

  // ---- whole states -------------------------------------------------------

  lemma ContextAt(c: Cfg, s: State, i: Id)
    requires CfgOk(c) && Inv(c, s) && i in s.nodes
    ensures Context(c, s.log, s.sent, Clocks(s), i, s.nodes[i])
  {
    hide LogOk, SentOk, NodeOk, RatioOk, Past, NodeShape;
    forall j | j in c.nodes
      ensures Past(s.log, j, Clocks(s)[j])
    {
      NodePast(c, s.log, s.sent, j, s.nodes[j]);
    }
  }

  lemma NodePast(c: Cfg, log: seq<Request>, sent: seq<Request>, i: Id, n: Node)
    requires NodeOk(c, log, sent, i, n)
    ensures Past(log, i, n.clock)
  {
  }

  lemma RatioFresh(c: Cfg, clocks: map<Id, real>, i: Id)
    requires i in clocks
    ensures RatioOk(c, clocks, i, clocks)
  {
  }

  lemma DoSeen(c: Cfg, log: seq<Request>, sent: seq<Request>, clocks: map<Id, real>, i: Id, n: Node, a: Action)
    requires i in c.nodes && NodeShape(c, log, sent, n) && May(c.nodes[i], sent, i, n, a)
    ensures var f := Do(c, log, sent, clocks, i, n, a); f.node.seen == n.seen || f.node.seen == clocks
  {
  }

  lemma ActInv(c: Cfg, s: State, i: Id, a: Action)
    requires CfgOk(c) && Inv(c, s) && Enabled(c, s, Act(i, a))
    ensures Inv(c, Next(c, s, Act(i, a)))
  {
    hide LogOk, SentOk, NodeOk, RatioOk, Do, Shape, NodeShape, May, Context;
    NextShape(c, s, Act(i, a));
    ContextAt(c, s, i);
    Unpack(c, s, i, a);
    var clocks := Clocks(s);
    DoKeeps(c, s.log, s.sent, clocks, i, s.nodes[i], a);
    DoSends(c, s.log, s.sent, clocks, i, s.nodes[i], a);
    DoSeen(c, s.log, s.sent, clocks, i, s.nodes[i], a);
    var f := Do(c, s.log, s.sent, clocks, i, s.nodes[i], a);
    var t := State(s.log, s.sent + f.out, s.nodes[i := f.node]);
    assert t == Next(c, s, Act(i, a));
    assert Clocks(t) == clocks;
    forall j | j in t.nodes
      ensures NodeOk(c, t.log, t.sent, j, t.nodes[j]) && RatioOk(c, Clocks(t), j, t.nodes[j].seen)
    {
      if j == i {
        RatioFresh(c, clocks, i);
      } else {
        OtherSent(c, s.log, s.sent, f.out, j, s.nodes[j]);
      }
    }
  }

  lemma Unpack(c: Cfg, s: State, i: Id, a: Action)
    requires Inv(c, s) && Enabled(c, s, Act(i, a))
    ensures s.nodes.Keys == c.nodes.Keys && i in c.nodes
    ensures NodeShape(c, s.log, s.sent, s.nodes[i]) && May(c.nodes[i], s.sent, i, s.nodes[i], a)
  {
  }

  lemma LandInv(c: Cfg, s: State, k: nat)
    requires CfgOk(c) && Inv(c, s) && Enabled(c, s, Land(k))
    ensures Inv(c, Next(c, s, Land(k)))
  {
    hide LogOk, SentOk, NodeOk, RatioOk, Shape, NodeShape, May;
    NextShape(c, s, Land(k));
    var q := s.sent[k];
    SentAt(c, s.log, s.sent, k);
    LogGrows(c, s.log, q);
    SentKept(c, s.log, s.sent, q);
    var t := Next(c, s, Land(k));
    assert t.nodes == s.nodes[q.node := Landed(s.nodes[q.node], k)];
    assert Clocks(t) == Clocks(s);
    forall j | j in t.nodes
      ensures NodeOk(c, t.log, t.sent, j, t.nodes[j]) && RatioOk(c, Clocks(t), j, t.nodes[j].seen)
    {
      LandKeeps(c, s.log, s.sent, k, j, s.nodes[j]);
    }
  }

  lemma TickFacts(c: Cfg, s: State, d: map<Id, real>)
    requires Shape(c, s) && MayTick(c, s, d)
    ensures var t := Next(c, s, Tick(d));
            && t.log == s.log && t.sent == s.sent && t.nodes.Keys == s.nodes.Keys == d.Keys == c.nodes.Keys
            && Clocks(t).Keys == Clocks(s).Keys == d.Keys
            && (forall i :: i in d ==> d[i] >= 0.0 && t.nodes[i] == s.nodes[i].(clock := s.nodes[i].clock + d[i]))
            && (forall i :: i in Clocks(s) ==> Clocks(t)[i] == Clocks(s)[i] + d[i] && d[i] >= 0.0)
            && (forall i :: i in s.nodes && s.nodes[i].phase.Leading? ==>
                              s.nodes[i].clock + d[i] <= s.nodes[i].phase.round + c.nodes[i].renewDeadline)
            && Steady(c.ratio, d)
  {
    hide NodeShape, Steady, Do, May;
  }

  lemma TickInv(c: Cfg, s: State, d: map<Id, real>)
    requires CfgOk(c) && Inv(c, s) && Enabled(c, s, Tick(d))
    ensures Inv(c, Next(c, s, Tick(d)))
  {
    hide LogOk, SentOk, NodeOk, RatioOk, Shape, NodeShape, May, MayTick, Steady;
    NextShape(c, s, Tick(d));
    var t := Next(c, s, Tick(d));
    TickFacts(c, s, d);
    hide Next;
    forall j | j in t.nodes
      ensures NodeOk(c, t.log, t.sent, j, t.nodes[j]) && RatioOk(c, Clocks(t), j, t.nodes[j].seen)
    {
      assert t.nodes[j] == s.nodes[j].(clock := s.nodes[j].clock + d[j]);
      TickKeeps(c, s.log, s.sent, j, s.nodes[j], d[j]);
      RatioTick(c, Clocks(s), Clocks(t), d, j, s.nodes[j].seen);
    }
  }

  lemma NextInv(c: Cfg, s: State, e: Event)
    requires CfgOk(c) && Inv(c, s) && Enabled(c, s, e)
    ensures Inv(c, Next(c, s, e))
  {
    hide Inv, Next, Enabled;
    match e {
      case Act(i, a) => ActInv(c, s, i, a);
      case Land(k) => LandInv(c, s, k);
      case Tick(d) => TickInv(c, s, d);
    }
  }

  lemma InitInv(c: Cfg, s: State)
    requires CfgOk(c) && Init(c, s)
    ensures Inv(c, s)
  {
  }

  lemma {:induction false} RunInv(c: Cfg, s: State, es: seq<Event>)
    requires CfgOk(c) && Inv(c, s) && Valid(c, s, es)
    ensures Inv(c, Run(c, s, es))
    decreases |es|
  {
    hide Inv, Next, Enabled;
    if es != [] {
      NextInv(c, s, es[0]);
      RunInv(c, Next(c, s, es[0]), es[1..]);
    }
  }

  /** The invariant holds in every reachable state. */
  lemma ReachableInv(c: Cfg, s: State)
    requires CfgOk(c) && Reachable(c, s)
    ensures Inv(c, s)
  {
    hide Inv, Valid, Run;
    var s0, es :| RunsTo(c, s0, es, s);
    InitInv(c, s0);
    RunInv(c, s0, es);
  }
}
