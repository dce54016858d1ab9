/** The exclusion bound is exact: whenever it fails for one of several nodes, some
    run has two leaders. The run: X acquires at time 0, Y looks, X leaves and
    comes back late in the same millisecond, renews without a visible change,
    and is still in its last round when Y's wait is over. */
module Tightness {
  import opened Records
  import opened Elector
  import opened Protocol
  import opened Invariant
  import opened Exclusion

  /** A reachable, well-shaped state. */
  ghost predicate Live(c: Cfg, s: State) {
    Shape(c, s) && Reachable(c, s)
  }

  lemma DoAct(c: Cfg, s: State, i: Id, a: Action) returns (t: State)
    requires Live(c, s) && i in s.nodes
    requires i in c.nodes && NodeShape(c, s.log, s.sent, s.nodes[i]) && May(c.nodes[i], s.sent, i, s.nodes[i], a)
    ensures Live(c, t)
    ensures var f := Do(c, s.log, s.sent, Clocks(s), i, s.nodes[i], a);
            t == State(s.log, s.sent + f.out, s.nodes[i := f.node])
  {
    hide Shape, NodeShape, May, Do, Reachable;
    t := Next(c, s, Act(i, a));
    StepReachable(c, s, Act(i, a));
  }

  lemma DoLand(c: Cfg, s: State, k: nat) returns (t: State)
    requires Live(c, s) && k < |s.sent| && s.sent[k].expected == |s.log| && s.sent[k].node in s.nodes
    ensures Live(c, t)
    ensures t == State(s.log + [s.sent[k]], s.sent, s.nodes[s.sent[k].node := Landed(s.nodes[s.sent[k].node], k)])
  {
    hide Shape, Reachable, Do;
    t := Next(c, s, Land(k));
    StepReachable(c, s, Land(k));
  }

  /** The write an attempt of node `i` makes when nothing stands in its way. */
  function Winning(c: Cfg, s: State, i: Id): Request
    requires i in s.nodes && i in c.nodes
  {
    var n := s.nodes[i];
    var n1 := Looked(s, i);
    Compose(c.nodes[i], i, n1, s.log, n.clock, |s.log|)
  }

  function Looked(s: State, i: Id): Node
    requires i in s.nodes
  {
    if s.log == [] then s.nodes[i] else Look(s.nodes[i], s.log[|s.log| - 1].rec, Clocks(s))
  }

  /** A whole attempt up to its write, at one instant. */
  lemma WinAttempt(c: Cfg, s: State, i: Id) returns (t: State)
    requires Live(c, s) && i in s.nodes && i in c.nodes
    requires NodeShape(c, s.log, s.sent, s.nodes[i]) && s.nodes[i].step == NoAttempt && MayBegin(s.nodes[i])
    requires s.log != [] ==> !Blocked(Looked(s, i).view, i, s.log[|s.log| - 1].rec, s.nodes[i].clock)
    ensures Live(c, t)
    ensures t.log == s.log + [Winning(c, s, i)] && t.sent == s.sent + [Winning(c, s, i)]
    ensures t.nodes.Keys == s.nodes.Keys && forall j :: j in s.nodes && j != i ==> t.nodes[j] == s.nodes[j]
    ensures t.nodes[i] == Looked(s, i).(step := Waiting(|s.sent|, true),
                                        cached := if s.log == [] then s.nodes[i].cached else |s.log|)
  {
    hide Shape, Reachable, Live, Blocked;
    var n := s.nodes[i];
    var s1 := DoAct(c, s, i, Begin);
    assert s.sent + [] == s.sent;
    LiveShape(c, s1, i);
    var s2 := DoAct(c, s1, i, Get(true));
    LiveShape(c, s2, i);
    assert Clocks(s2) == Clocks(s);
    var s3 := DecideWin(c, s2, i);
    var k := |s.sent|;
    t := DoLand(c, s3, k);
    var q := Winning(c, s, i);
    assert s3.sent[k] == q;
  }

  lemma LiveShape(c: Cfg, s: State, i: Id)
    requires Live(c, s) && i in s.nodes
    ensures i in c.nodes && NodeShape(c, s.log, s.sent, s.nodes[i])
  {
  }

  lemma DecideWin(c: Cfg, s: State, i: Id) returns (t: State)
    requires Live(c, s) && i in s.nodes && i in c.nodes && NodeShape(c, s.log, s.sent, s.nodes[i])
    requires s.nodes[i].step == Fetched(s.nodes[i].clock, |s.log|)
    requires s.log != [] ==> !Blocked(Looked(s, i).view, i, s.log[|s.log| - 1].rec, s.nodes[i].clock)
    ensures Live(c, t)
    ensures t ==
            State(s.log, s.sent + [Winning(c, s, i)], s.nodes[i := Looked(s, i).(step := Waiting(|s.sent|, false))])
  {
    hide Reachable, Live, Blocked, Look, Compose;
    t := DoAct(c, s, i, Decide);
  }

  /** Node `y` advances by `fast`, everybody else by `dt`. */
  function Fast(nodes: map<Id, Node>, y: Id, dt: real, fast: real): map<Id, real> {
    map i | i in nodes :: if i == y then fast else dt
  }

  lemma Scale(r: real, a: real)
    requires r >= 1.0 && a >= 0.0
    ensures r * a >= a
  {
  }

  lemma FastSteady(ratio: real, nodes: map<Id, Node>, y: Id, dt: real)
    requires ratio >= 1.0 && dt >= 0.0
    ensures Steady(ratio, Fast(nodes, y, dt, ratio * dt)) && ratio * dt >= dt
  {
  }

  lemma FastMay(c: Cfg, s: State, x: Id, y: Id, dt: real, fast: real)
    requires Steady(c.ratio, Fast(s.nodes, y, dt, fast)) && fast >= dt >= 0.0 && x != y && x in s.nodes
    requires forall i :: i in s.nodes && i != x ==> !s.nodes[i].phase.Leading?
    requires s.nodes.Keys == c.nodes.Keys
    requires s.nodes[x].phase.Leading? ==> s.nodes[x].clock + dt <= s.nodes[x].phase.round + c.nodes[x].renewDeadline
    ensures MayTick(c, s, Fast(s.nodes, y, dt, fast))
  {
  }

  /** Time passes, for Y at the full ratio. */
  lemma DoTick(c: Cfg, s: State, x: Id, y: Id, dt: real, fast: real) returns (t: State)
    requires CfgOk(c) && Live(c, s) && dt >= 0.0 && x != y && x in s.nodes && s.nodes.Keys == c.nodes.Keys
    requires fast == c.ratio * dt
    requires forall i :: i in s.nodes && i != x ==> !s.nodes[i].phase.Leading?
    requires s.nodes[x].phase.Leading? ==> s.nodes[x].clock + dt <= s.nodes[x].phase.round + c.nodes[x].renewDeadline
    ensures Live(c, t) && fast >= dt
    ensures t.log == s.log && t.sent == s.sent && t.nodes.Keys == s.nodes.Keys
    ensures forall i :: i in s.nodes ==>
            t.nodes[i] == s.nodes[i].(clock := s.nodes[i].clock + (if i == y then fast else dt))
  {
    hide Shape, Reachable, Live, Do, Steady, MayTick;
    FastSteady(c.ratio, s.nodes, y, dt);
    FastMay(c, s, x, y, dt, fast);
    t := TickBy(c, s, Fast(s.nodes, y, dt, fast));
  }

  lemma TickBy(c: Cfg, s: State, d: map<Id, real>) returns (t: State)
    requires Live(c, s) && MayTick(c, s, d)
    ensures Live(c, t)
    ensures t.log == s.log && t.sent == s.sent && t.nodes.Keys == s.nodes.Keys == d.Keys
    ensures forall i :: i in d ==> t.nodes[i] == s.nodes[i].(clock := s.nodes[i].clock + d[i])
  {
    hide Shape, Reachable, Do, Steady, MayTick;
    t := Next(c, s, Tick(d));
    TickFacts(c, s, d);
    StepReachable(c, s, Tick(d));
    hide Next;
  }

  const NOTHING_SENT: seq<Request> := []

  /** Every node idle and never active, all clocks at `at`. */
  function AllIdle(c: Cfg, at: real): State {
    var clocks := map i | i in c.nodes :: at;
    State([], [], map i | i in c.nodes :: Node(at, View(NO_RECORD, None, at), 0, Idle, NoAttempt, clocks))
  }

  lemma AllIdleLive(c: Cfg, at: real)
    ensures Live(c, AllIdle(c, at)) && Init(c, AllIdle(c, at))
  {
    assert Clocks(AllIdle(c, at)) == map i | i in c.nodes :: at;
    InitReachable(c, AllIdle(c, at));
  }

  /** The record X writes at any moment of the first millisecond. */
  function Early(c: Cfg, x: Id): Record
    requires x in c.nodes
  {
    Record(x, c.nodes[x].leaseMs, 0, 0, 0)
  }

  /** X holds the register by a write that looks like its first one, Y saw it at
      time 0 of its clock, and nobody but X leads. */
  ghost predicate Scene(c: Cfg, s: State, x: Id, y: Id, cx: real) {
    && Live(c, s) && x != y && x in s.nodes && y in s.nodes && s.nodes.Keys == c.nodes.Keys
    && |s.log| > 0 && s.log[|s.log| - 1].rec == Early(c, x)
    && s.nodes[x].clock == cx && s.nodes[x].view.observed == Early(c, x)
    && s.nodes[y].clock == c.ratio * cx
    && s.nodes[y].view == View(Early(c, x), Some(Early(c, x)), 0.0)
    && s.nodes[y].phase.Acquiring? && s.nodes[y].step == NoAttempt
    && forall i :: i in s.nodes && i != x ==> !s.nodes[i].phase.Leading?
  }

  /** X acquires at time 0 while Y, whose clock was read earlier, looks on. */
  lemma Opening(c: Cfg, x: Id, y: Id) returns (s: State)
    requires CfgOk(c) && x in c.nodes && y in c.nodes && x != y && c.nodes[x].leaseMs >= 0
    ensures Scene(c, s, x, y, 0.0)
    ensures s.nodes[x].phase == Leading(0.0) && s.nodes[x].step == NoAttempt && s.nodes[x].view.observedTime == 0.0
  {
    hide Reachable, Shape, Live, Look;
    s := Eager(c, x, y);
    var s3 := Acquired(c, s, x);
    s := Noticed(c, s3, x, y);
  }

  /** Both start at -1; Y reads its clock; a millisecond passes for everybody. */
  lemma Eager(c: Cfg, x: Id, y: Id) returns (s: State)
    requires CfgOk(c) && x in c.nodes && y in c.nodes && x != y
    ensures Live(c, s) && s.log == [] && s.sent == [] && s.nodes.Keys == c.nodes.Keys
    ensures s.nodes[x] == AllIdle(c, -1.0).nodes[x].(clock := 0.0)
    ensures s.nodes[y] == AllIdle(c, -1.0).nodes[y].(clock := 0.0, phase := Acquiring(-1.0), step := Started(-1.0))
    ensures forall i :: i in s.nodes ==> !s.nodes[i].phase.Leading?
  {
    AllIdleLive(c, -1.0);
    hide Reachable, Shape, Live;
    var s0 := AllIdle(c, -1.0);
    assert NOTHING_SENT + [] == NOTHING_SENT;
    LiveShape(c, s0, y);
    var s1 := DoAct(c, s0, y, Start);
    LiveShape(c, s1, y);
    var s2 := DoAct(c, s1, y, Begin);
    s := EvenTick(c, s2, 1.0);
  }

  /** All clocks advance alike. */
  lemma EvenTick(c: Cfg, s: State, dt: real) returns (t: State)
    requires CfgOk(c) && Live(c, s) && dt >= 0.0 && s.nodes.Keys == c.nodes.Keys
    requires forall i :: i in s.nodes && s.nodes[i].phase.Leading? ==>
                           s.nodes[i].clock + dt <= s.nodes[i].phase.round + c.nodes[i].renewDeadline
    ensures Live(c, t)
    ensures t.log == s.log && t.sent == s.sent && t.nodes.Keys == s.nodes.Keys
    ensures forall i :: i in s.nodes ==> t.nodes[i] == s.nodes[i].(clock := s.nodes[i].clock + dt)
  {
    hide Shape, Reachable, Live, Do;
    var d := map i | i in s.nodes :: dt;
    Scale(c.ratio, dt);
    assert Steady(c.ratio, d);
    hide Steady;
    t := TickBy(c, s, d);
    forall i | i in s.nodes
      ensures t.nodes[i] == s.nodes[i].(clock := s.nodes[i].clock + dt)
    {
      assert d[i] == dt;
    }
  }

  lemma Acquired(c: Cfg, s: State, x: Id) returns (t: State)
    requires CfgOk(c) && x in c.nodes
    requires Live(c, s) && s.log == [] && s.sent == [] && s.nodes.Keys == c.nodes.Keys
    requires s.nodes[x] == AllIdle(c, -1.0).nodes[x].(clock := 0.0)
    requires forall i :: i in s.nodes ==> !s.nodes[i].phase.Leading?
    ensures Live(c, t) && |t.log| == 1 && t.log[0].rec == Early(c, x) && t.nodes.Keys == s.nodes.Keys
    ensures forall j :: j in s.nodes && j != x ==> t.nodes[j] == s.nodes[j]
    ensures t.nodes[x].clock == 0.0 && t.nodes[x].view.observed == Early(c, x) && t.nodes[x].view.observedTime == 0.0
    ensures t.nodes[x].phase == Leading(0.0) && t.nodes[x].step == NoAttempt && t.nodes[x].view.raw == None
  {
    hide Reachable, Shape, Live, Look;
    assert NOTHING_SENT + [] == NOTHING_SENT;
    LiveShape(c, s, x);
    var s1 := DoAct(c, s, x, Start);
    LiveShape(c, s1, x);
    var s2 := WinAttempt(c, s1, x);
    LiveShape(c, s2, x);
    t := DoAct(c, s2, x, Ack);
  }

  lemma Noticed(c: Cfg, s: State, x: Id, y: Id) returns (t: State)
    requires CfgOk(c) && x in c.nodes && y in c.nodes && x != y && c.nodes[x].leaseMs >= 0
    requires Live(c, s) && |s.log| == 1 && s.log[0].rec == Early(c, x) && s.nodes.Keys == c.nodes.Keys
    requires s.nodes[y] == AllIdle(c, -1.0).nodes[y].(clock := 0.0, phase := Acquiring(-1.0), step := Started(-1.0))
    ensures Live(c, t) && t.log == s.log && t.nodes.Keys == s.nodes.Keys
    ensures forall j :: j in s.nodes && j != y ==> t.nodes[j] == s.nodes[j]
    ensures t.nodes[y].clock == 0.0 && t.nodes[y].view == View(Early(c, x), Some(Early(c, x)), 0.0)
    ensures t.nodes[y].phase.Acquiring? && t.nodes[y].step == NoAttempt
  {
    hide Reachable, Shape, Live;
    LiveShape(c, s, y);
    var s1 := DoAct(c, s, y, Get(true));
    LiveShape(c, s1, y);
    t := DoAct(c, s1, y, Decide);
  }

  lemma SceneTick(c: Cfg, s: State, x: Id, y: Id, cx: real, dt: real) returns (t: State)
    requires CfgOk(c) && Scene(c, s, x, y, cx) && dt >= 0.0
    requires s.nodes[x].phase.Leading? ==> cx + dt <= s.nodes[x].phase.round + c.nodes[x].renewDeadline
    ensures Scene(c, t, x, y, cx + dt) && t.sent == s.sent && t.log == s.log
    ensures t.nodes[x] == s.nodes[x].(clock := cx + dt)
  {
    hide Live;
    assert c.ratio * (cx + dt) == c.ratio * cx + c.ratio * dt;
    t := DoTick(c, s, x, y, dt, c.ratio * dt);
  }

  /** An attempt of X in the first millisecond renews without a visible change. */
  lemma SceneRenew(c: Cfg, s: State, x: Id, y: Id, cx: real) returns (t: State)
    requires CfgOk(c) && Scene(c, s, x, y, cx) && 0.0 <= cx < 1.0
    requires s.nodes[x].step == NoAttempt && MayBegin(s.nodes[x])
    ensures Scene(c, t, x, y, cx)
    ensures t.nodes[x].phase == s.nodes[x].phase
    ensures t.nodes[x].step.Waiting? && t.nodes[x].step.landed && t.nodes[x].step.req < |t.sent|
    ensures var q := t.sent[t.nodes[x].step.req]; q.kind != Release && q.read == cx && q.rec == Early(c, x)
  {
    hide Live;
    LiveShape(c, s, x);
    assert cx.Floor == 0;
    t := WinAttempt(c, s, x);
  }

  lemma SceneAct(c: Cfg, s: State, x: Id, y: Id, cx: real, a: Action) returns (t: State)
    requires CfgOk(c) && Scene(c, s, x, y, cx) && a in {Stop, Quit, Start}
    requires NodeShape(c, s.log, s.sent, s.nodes[x]) && May(c.nodes[x], s.sent, x, s.nodes[x], a)
    ensures Scene(c, t, x, y, cx) && t.log == s.log && t.sent == s.sent
    ensures t.nodes[x] == s.nodes[x].(phase :=
              if a == Start then Acquiring(cx) else if a == Stop && s.nodes[x].phase.Leading? then Stopping else Idle)
  {
    hide Live, Shape, NodeShape;
    LiveShape(c, s, x);
    assert s.sent + [] == s.sent;
    t := DoAct(c, s, x, a);
  }

  lemma AckIs(c: Cfg, s: State, i: Id)
    requires i in s.nodes && i in c.nodes && NodeShape(c, s.log, s.sent, s.nodes[i])
    requires May(c.nodes[i], s.sent, i, s.nodes[i], Ack)
    ensures Do(c, s.log, s.sent, Clocks(s), i, s.nodes[i], Ack) ==
            Effect(Acked(c.nodes[i], s.nodes[i], s.sent[s.nodes[i].step.req], Clocks(s)), [])
  {
  }

  lemma SceneAck(c: Cfg, s: State, x: Id, y: Id, cx: real) returns (t: State)
    requires CfgOk(c) && Scene(c, s, x, y, cx)
    requires s.nodes[x].step.Waiting? && s.nodes[x].step.landed && s.nodes[x].step.req < |s.sent|
    requires var q := s.sent[s.nodes[x].step.req];
             q.kind != Release && q.rec == Early(c, x) && cx <= q.read + c.nodes[x].latency
    ensures Scene(c, t, x, y, cx)
    ensures t.nodes[x].step == NoAttempt
    ensures t.nodes[x].phase == if s.nodes[x].phase.Acquiring? then Leading(cx)
                                else if s.nodes[x].phase.Leading? then Leading(cx + c.nodes[x].retryPeriod)
                                else s.nodes[x].phase
  {
    hide Live, Shape, NodeShape, Do;
    LiveShape(c, s, x);
    AckIs(c, s, x);
    assert s.sent + [] == s.sent;
    t := DoAct(c, s, x, Ack);
  }

  /** X is in its last round: it began as late after the read `r` as it can. */
  lemma LastRound(c: Cfg, x: Id, y: Id, r: real) returns (s: State, cx: real)
    requires CfgOk(c) && x in c.nodes && y in c.nodes && x != y && c.nodes[x].leaseMs >= 0 && 0.0 <= r < 1.0
    ensures Scene(c, s, x, y, cx) && s.nodes[x].phase == Leading(r + Slack(c.nodes[x]))
    ensures r <= cx <= r + Slack(c.nodes[x]) + c.nodes[x].renewDeadline
  {
    hide Scene, Live;
    s := Comeback(c, x, y, r);
    var n := c.nodes[x];
    var wait := Min(n.latency, n.renewDeadline);
    if wait + n.retryPeriod <= n.latency {
      s := SceneTick(c, s, x, y, r, n.latency);
      cx := r + n.latency;
      s := SceneAck(c, s, x, y, cx);
    } else {
      s := SceneAck(c, s, x, y, r);
      SceneKnows(c, s, x, y, r);
      s := SceneRenew(c, s, x, y, r);
      s := SceneTick(c, s, x, y, r, wait);
      cx := r + wait;
      s := SceneAck(c, s, x, y, cx);
    }
  }

  lemma SceneKnows(c: Cfg, s: State, x: Id, y: Id, cx: real)
    requires Scene(c, s, x, y, cx)
    ensures x in s.nodes && y in s.nodes && x in c.nodes && y in c.nodes && NodeShape(c, s.log, s.sent, s.nodes[x])
    ensures s.nodes[x].clock == cx
  {
    hide Live;
    LiveShape(c, s, x);
    LiveShape(c, s, y);
  }

  lemma Comeback(c: Cfg, x: Id, y: Id, r: real) returns (s: State)
    requires CfgOk(c) && x in c.nodes && y in c.nodes && x != y && c.nodes[x].leaseMs >= 0 && 0.0 <= r < 1.0
    ensures Scene(c, s, x, y, r) && s.nodes[x].phase.Acquiring?
    ensures s.nodes[x].step.Waiting? && s.nodes[x].step.landed && s.nodes[x].step.req < |s.sent|
    ensures var q := s.sent[s.nodes[x].step.req]; q.kind != Release && q.read == r && q.rec == Early(c, x)
  {
    hide Live, Shape, Scene, NodeShape, Early, CfgOk;
    s := Opening(c, x, y);
    SceneKnows(c, s, x, y, 0.0);
    s := SceneAct(c, s, x, y, 0.0, Stop);
    SceneKnows(c, s, x, y, 0.0);
    s := SceneAct(c, s, x, y, 0.0, Quit);
    s := SceneTick(c, s, x, y, 0.0, r);
    SceneKnows(c, s, x, y, r);
    s := SceneAct(c, s, x, y, r, Start);
    s := SceneRenew(c, s, x, y, r);
  }

  /** Y's wait is over while X is still in its round. */
  lemma Overlap(c: Cfg, s: State, x: Id, y: Id, cx: real) returns (t: State)
    requires CfgOk(c) && Scene(c, s, x, y, cx) && s.nodes[x].phase.Leading?
    requires c.nodes[x].leaseMs as real <= c.ratio * cx
    ensures Live(c, t) && !Exclusive(t)
  {
    hide Live, Shape, NodeShape;
    var s2 := Rejoin(c, s, y);
    LiveShape(c, s2, y);
    var s3 := WinAttempt(c, s2, y);
    LiveShape(c, s3, y);
    hide Look;
    t := DoAct(c, s3, y, Ack);
    assert t.nodes[x].phase.Leading? && t.nodes[y].phase.Leading?;
  }

  lemma Rejoin(c: Cfg, s: State, y: Id) returns (t: State)
    requires Live(c, s) && y in s.nodes && s.nodes[y].phase.Acquiring? && s.nodes[y].step == NoAttempt
    ensures Live(c, t) && t == State(s.log, s.sent, s.nodes[y := s.nodes[y].(phase := Acquiring(s.nodes[y].clock))])
  {
    hide Live, Shape, NodeShape;
    LiveShape(c, s, y);
    assert s.sent + [] == s.sent;
    var s1 := DoAct(c, s, y, Stop);
    LiveShape(c, s1, y);
    t := DoAct(c, s1, y, Start);
  }

  /** A negative stored duration, as wrap-around can leave behind, has expired at
      once: Y takes over in the instant in which X starts to lead. */
  lemma AtOnce(c: Cfg, x: Id, y: Id) returns (t: State)
    requires CfgOk(c) && x in c.nodes && y in c.nodes && x != y && c.nodes[x].leaseMs < 0
    ensures Live(c, t) && !Exclusive(t)
  {
    hide Live, CfgOk, Exclusive;
    var s := Eager(c, x, y);
    s := Acquired(c, s, x);
    s := Missed(c, s, y);
    s := Rejoin(c, s, y);
    t := Seize(c, s, x, y);
  }

  lemma Seize(c: Cfg, s: State, x: Id, y: Id) returns (t: State)
    requires CfgOk(c) && Live(c, s) && x in s.nodes && y in s.nodes && x != y && |s.log| > 0
    requires s.nodes[x].phase.Leading? && s.nodes[y].step == NoAttempt && s.nodes[y].view.raw == None
    requires s.nodes[y].phase == Acquiring(s.nodes[y].clock) && s.log[|s.log| - 1].rec.leaseMs < 0
    ensures Live(c, t) && !Exclusive(t)
  {
    hide Live, Shape, NodeShape;
    LiveShape(c, s, y);
    var s3 := WinAttempt(c, s, y);
    LiveShape(c, s3, y);
    hide Look, Compose;
    t := DoAct(c, s3, y, Ack);
    assert t.nodes[x].phase.Leading? && t.nodes[y].phase.Leading?;
  }

  /** An attempt that ends with a failed fetch. */
  lemma Missed(c: Cfg, s: State, y: Id) returns (t: State)
    requires Live(c, s) && y in s.nodes && s.nodes[y].step.Started? && s.nodes[y].phase.Acquiring?
    ensures Live(c, t) && t.log == s.log && t.sent == s.sent && t.nodes.Keys == s.nodes.Keys
    ensures forall j :: j in s.nodes && j != y ==> t.nodes[j] == s.nodes[j]
    ensures t.nodes[y].phase.Acquiring? && t.nodes[y].step == NoAttempt
    ensures t.nodes[y].view == s.nodes[y].view && t.nodes[y].clock == s.nodes[y].clock
  {
    hide Live, Shape, NodeShape;
    LiveShape(c, s, y);
    assert s.sent + [] == s.sent;
    t := DoAct(c, s, y, Get(false));
  }

  /** Whenever some node's stored lease falls short, a run with two leaders exists. */
  lemma TwoLeaders(c: Cfg, x: Id, y: Id) returns (s: State)
    requires CfgOk(c) && x in c.nodes && y in c.nodes && x != y
    requires c.nodes[x].leaseMs as real < Scaled(c.ratio, Window(c.nodes[x]) + 1.0)
    ensures Reachable(c, s) && !Exclusive(s)
  {
    hide Scene, Live, Exclusive, Window, Slack, Shape;
    if c.nodes[x].leaseMs < 0 {
      s := AtOnce(c, x, y);
      LiveReachable(c, s);
      return;
    }
    var window := Window(c.nodes[x]);
    var due := DueTime(c.ratio, c.nodes[x].leaseMs as real, window + 1.0);
    var r := Max(0.0, due - window);
    var s0, cx := LastRound(c, x, y, r);
    assert window == Slack(c.nodes[x]) + c.nodes[x].renewDeadline by { WindowSum(c.nodes[x]); }
    SceneKnows(c, s0, x, y, cx);
    var at := Max(cx, due);
    var s1 := SceneTick(c, s0, x, y, cx, at - cx);
    NotLess(c.ratio, due, at);
    assert cx + (at - cx) == at;
    s := Overlap(c, s1, x, y, at);
    LiveReachable(c, s);
  }

  lemma WindowSum(n: NodeCfg)
    ensures Window(n) == Slack(n) + n.renewDeadline
  {
  }

  lemma DueTime(ratio: real, lease: real, span: real) returns (due: real)
    requires ratio >= 1.0 && lease < ratio * span
    ensures ratio * due == lease && due < span
  {
    due := lease / ratio;
    Divided(ratio, due, span);
  }

  lemma LiveReachable(c: Cfg, s: State)
    requires Live(c, s)
    ensures Reachable(c, s)
  {
  }

  lemma Divided(r: real, a: real, b: real)
    requires r >= 1.0 && r * a < r * b
    ensures a < b
  {
  }

  lemma NotLess(r: real, a: real, b: real)
    requires r >= 1.0 && a <= b
    ensures r * a <= r * b
  {
  }

  /** Exclusion, exactly: with at least two nodes, no run ever has two leaders if
      and only if every stored lease meets the bound. */
  lemma ExclusionIff(c: Cfg, x: Id, y: Id)
    requires CfgOk(c) && x in c.nodes && y in c.nodes && x != y
    ensures (forall s :: Reachable(c, s) ==> Exclusive(s)) <==> Bound(c)
  {
    hide Reachable, Exclusive, Window;
    if Bound(c) {
      forall s | Reachable(c, s)
        ensures Exclusive(s)
      {
        ExclusionHolds(c, s);
      }
    } else {
      var i :| i in c.nodes && c.nodes[i].leaseMs as real < Scaled(c.ratio, Window(c.nodes[i]) + 1.0);
      var s := TwoLeaders(c, i, if i == x then y else x);
    }
  }

  /** `New` does not ask enough: a configuration it accepts, with perfect clocks
      and instant answers, under which two nodes lead at once. */
  lemma AcceptedButNotExclusive(x: Id, y: Id) returns (c: Cfg, s: State)
    requires x != "" && y != "" && x != y
    ensures CfgOk(c) && c.ratio == 1.0 && c.nodes.Keys == {x, y}
    ensures forall i :: i in c.nodes ==>
                          && AcceptedByNew(c.nodes[i].lease, c.nodes[i].renewDeadline, c.nodes[i].retryPeriod)
                          && c.nodes[i].leaseMs == c.nodes[i].lease.Floor && c.nodes[i].latency == 0.0
    ensures Reachable(c, s) && !Exclusive(s)
  {
    hide Reachable, Exclusive;
    var n := NodeCfg(11000, 11000.0, 10000.0, 2000.0, 0.0);
    c := Cfg(map[x := n, y := n], 1.0, 1);
    s := TwoLeaders(c, x, y);
  }
}
