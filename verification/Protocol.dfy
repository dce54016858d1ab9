/** N electors sharing one compare-and-swap register, as a state machine.
    The register is the sequence of writes it has accepted: its version is the
    length of that sequence and version 0 means that no record exists. A write
    request stays in flight after its sender has given up on it and may land at
    any later moment, as long as the version it expects is still current. */
module Protocol {
  import opened Records
  import opened Elector

  /** Per-node settings in milliseconds. `leaseMs` is the duration the backend
      stores for this node; `latency` bounds how long after its clock read a
      successful attempt may return. */
  datatype NodeCfg = NodeCfg(leaseMs: int, lease: real, renewDeadline: real, retryPeriod: real, latency: real)

  /** `ratio` bounds the time passed on one node by the time passed on another. */
  datatype Cfg = Cfg(nodes: map<Id, NodeCfg>, ratio: real, releaseMs: nat)

  predicate CfgOk(c: Cfg) {
    && "" !in c.nodes
    && c.ratio >= 1.0
    && forall i :: i in c.nodes ==>
                     c.nodes[i].renewDeadline > 0.0 && c.nodes[i].retryPeriod > 0.0 && c.nodes[i].latency >= 0.0
  }

  datatype Kind = Create | Renewal | Takeover | Release

  /** A write sent to the register. `read` is the clock read behind it; `basis` is
      its sender's view when it was composed, and `seen` records when, on every
      clock, that view was last refreshed. */
  datatype Request = Request(
    node: Id, kind: Kind, expected: nat, rec: Record, read: real, basis: View, seen: map<Id, real>)

  /** `Leading(round)` is the renew loop: its current round starts at `round` and
      must end by the renew deadline. `Stopping` lies between leaving the loop
      and returning. */
  datatype Phase = Idle | Acquiring(notBefore: real) | Leading(round: real) | Stopping

  datatype Step = NoAttempt | Started(start: real) | Fetched(start: real, ver: nat) | Waiting(req: nat, landed: bool)

  /** `cached` is the version held by the node's lock; `seen` is a history variable
      that no step reads: all clocks at the moment `observedTime` was last set. */
  datatype Node = Node(clock: real, view: View, cached: nat, phase: Phase, step: Step, seen: map<Id, real>)

  datatype State = State(log: seq<Request>, sent: seq<Request>, nodes: map<Id, Node>)

  /** Steps of a single node. */
  datatype Action = Start | Begin | Get(ok: bool) | Decide | GiveUp | Ack | Stop | Quit | SendRelease

  datatype Event = Act(i: Id, a: Action) | Land(k: nat) | Tick(d: map<Id, real>)

  function Clocks(s: State): map<Id, real> {
    map i | i in s.nodes :: s.nodes[i].clock
  }

  predicate Init(c: Cfg, s: State) {
    && s.log == [] && s.sent == []
    && s.nodes.Keys == c.nodes.Keys
    && forall i :: i in s.nodes ==>
                     && s.nodes[i].view.observed == NO_RECORD
                     && s.nodes[i].view.raw == None
                     && s.nodes[i].cached == 0
                     && s.nodes[i].phase == Idle
                     && s.nodes[i].step == NoAttempt
                     && s.nodes[i].seen == Clocks(s)
  }

  predicate NodeShape(c: Cfg, log: seq<Request>, sent: seq<Request>, n: Node) {
    && n.seen.Keys == c.nodes.Keys
    && (n.step.Fetched? ==> n.step.ver <= |log|)
    && (n.step.Waiting? ==> n.step.req < |sent|)
  }

  predicate Shape(c: Cfg, s: State) {
    && s.nodes.Keys == c.nodes.Keys
    && forall i :: i in s.nodes ==> NodeShape(c, s.log, s.sent, s.nodes[i])
  }

  /** The most that another clock can advance while one advances by `t`. */
  function Scaled(ratio: real, t: real): real {
    ratio * t
  }

  /** No clock runs faster than `ratio` times another. */
  predicate Steady(ratio: real, d: map<Id, real>) {
    forall i, j :: i in d && j in d ==> d[i] <= ratio * d[j]
  }

  predicate MayTick(c: Cfg, s: State, d: map<Id, real>) {
    && d.Keys == s.nodes.Keys
    && (forall i :: i in d ==> d[i] >= 0.0)
    && Steady(c.ratio, d)
    && forall i :: i in s.nodes && i in c.nodes && i in d && s.nodes[i].phase.Leading? ==>
                     s.nodes[i].clock + d[i] <= s.nodes[i].phase.round + c.nodes[i].renewDeadline
  }

  predicate MayBegin(n: Node) {
    || (n.phase.Acquiring? && n.phase.notBefore <= n.clock)
    || (n.phase.Leading? && n.phase.round <= n.clock)
  }

  predicate MayAck(cfg: NodeCfg, n: Node, q: Request) {
    q.kind == Release || n.clock <= q.read + cfg.latency
  }

  predicate May(cfg: NodeCfg, sent: seq<Request>, i: Id, n: Node, a: Action)
    requires n.step.Waiting? ==> n.step.req < |sent|
  {
    match a
    case Start => n.phase.Idle? && n.step.NoAttempt?
    case Begin => n.step.NoAttempt? && MayBegin(n)
    case Get(_) => n.step.Started?
    case Decide => n.step.Fetched?
    case GiveUp => n.step.Waiting?
    case Ack => n.step.Waiting? && n.step.landed && MayAck(cfg, n, sent[n.step.req])
    case Stop => n.step.NoAttempt? && (n.phase.Acquiring? || n.phase.Leading?)
    case Quit => n.phase.Stopping?
    case SendRelease => n.phase.Stopping? && n.step.NoAttempt? && IsLeader(n.view, i)
  }

  predicate Enabled(c: Cfg, s: State, e: Event)
    requires Shape(c, s)
  {
    match e
    case Tick(d) => MayTick(c, s, d)
    case Land(k) => k < |s.sent| && s.sent[k].expected == |s.log| && s.sent[k].node in s.nodes
    case Act(i, a) => i in s.nodes && May(c.nodes[i], s.sent, i, s.nodes[i], a)
  }

  /** An attempt that returned false: the acquire loop waits a retry period. */
  function Fail(cfg: NodeCfg, n: Node): Node {
    n.(step := NoAttempt, phase := if n.phase.Acquiring? then Acquiring(n.clock + cfg.retryPeriod) else n.phase)
  }

  /** The node after comparing the fetched record with what it had observed. */
  function Look(n: Node, fetched: Record, clocks: map<Id, real>): Node {
    if n.view.raw == Some(fetched) then n
    else n.(view := Observe(n.view, fetched, n.clock), seen := clocks)
  }

  /** The request an attempt sends once it is not blocked; `n` has looked. */
  function Compose(cfg: NodeCfg, i: Id, n: Node, log: seq<Request>, start: real, ver: nat): Request
    requires ver <= |log|
  {
    if ver == 0 then
      Request(i, Create, 0, FirstRecord(i, cfg.leaseMs, start), start, n.view, n.seen)
    else
      Request(i, if IsLeader(n.view, i) then Renewal else Takeover, ver,
              Proposal(n.view, i, cfg.leaseMs, log[ver - 1].rec, start), start, n.view, n.seen)
  }

  function ComposeRelease(releaseMs: nat, i: Id, n: Node): Request {
    Request(i, Release, n.cached, ReleaseRecord(n.view, releaseMs, n.clock), n.clock, n.view, n.seen)
  }

  /** What a node's step does: its new state and the requests it sends. */
  datatype Effect = Effect(node: Node, out: seq<Request>)

  function DecideEffect(cfg: NodeCfg, i: Id, n: Node, log: seq<Request>, k: nat, clocks: map<Id, real>): Effect
    requires n.step.Fetched? && n.step.ver <= |log|
  {
    var start, ver := n.step.start, n.step.ver;
    var n1 := if ver == 0 then n else Look(n, log[ver - 1].rec, clocks);
    if ver > 0 && Blocked(n1.view, i, log[ver - 1].rec, start) then Effect(Fail(cfg, n1), [])
    else Effect(n1.(step := Waiting(k, false)), [Compose(cfg, i, n1, log, start, ver)])
  }

  function Acked(cfg: NodeCfg, n: Node, q: Request, clocks: map<Id, real>): Node {
    var phase :=
      if n.phase.Acquiring? then Leading(n.clock)
      else if n.phase.Leading? then Leading(n.clock + cfg.retryPeriod)
      else n.phase;
    Node(n.clock, Adopt(n.view, q.rec, n.clock), q.expected + 1, phase, NoAttempt, clocks)
  }

  function Do(c: Cfg, log: seq<Request>, sent: seq<Request>, clocks: map<Id, real>, i: Id, n: Node, a: Action): Effect
    requires i in c.nodes && NodeShape(c, log, sent, n) && May(c.nodes[i], sent, i, n, a)
  {
    match a
    case Start => Effect(n.(phase := Acquiring(n.clock)), [])
    case Begin => Effect(n.(step := Started(n.clock)), [])
    case Get(ok) =>
      if !ok then Effect(Fail(c.nodes[i], n), [])
      else Effect(n.(step := Fetched(n.step.start, |log|), cached := if log == [] then n.cached else |log|), [])
    case Decide => DecideEffect(c.nodes[i], i, n, log, |sent|, clocks)
    case GiveUp => Effect(Fail(c.nodes[i], n), [])
    case Ack => Effect(Acked(c.nodes[i], n, sent[n.step.req], clocks), [])
    case Stop => Effect(n.(phase := if n.phase.Leading? then Stopping else Idle), [])
    case Quit => Effect(n.(phase := Idle), [])
    case SendRelease =>
      Effect(n.(phase := Idle, step := Waiting(|sent|, false)), [ComposeRelease(c.releaseMs, i, n)])
  }

  /** A landed write is known to its sender only while the sender still waits. */
  function Landed(n: Node, k: nat): Node {
    if n.step == Waiting(k, false) then n.(step := Waiting(k, true)) else n
  }

  function Later(s: State, d: map<Id, real>): map<Id, Node>
    requires d.Keys == s.nodes.Keys
  {
    map i | i in s.nodes :: s.nodes[i].(clock := s.nodes[i].clock + d[i])
  }

  function Next(c: Cfg, s: State, e: Event): State
    requires Shape(c, s) && Enabled(c, s, e)
  {
    match e
    case Tick(d) => State(s.log, s.sent, Later(s, d))
    case Land(k) =>
      var q := s.sent[k];
      State(s.log + [q], s.sent, s.nodes[q.node := Landed(s.nodes[q.node], k)])
    case Act(i, a) =>
      var f := Do(c, s.log, s.sent, Clocks(s), i, s.nodes[i], a);
      State(s.log, s.sent + f.out, s.nodes[i := f.node])
  }

  lemma ShapeAt(c: Cfg, s: State, i: Id)
    requires Shape(c, s) && i in s.nodes
    ensures NodeShape(c, s.log, s.sent, s.nodes[i]) && i in c.nodes
  {
  }

  lemma DoShape(c: Cfg, log: seq<Request>, sent: seq<Request>, clocks: map<Id, real>, i: Id, n: Node, a: Action)
    requires i in c.nodes && NodeShape(c, log, sent, n) && May(c.nodes[i], sent, i, n, a)
    requires clocks.Keys == c.nodes.Keys
    ensures var f := Do(c, log, sent, clocks, i, n, a); NodeShape(c, log, sent + f.out, f.node)
  {
  }

  lemma NextShape(c: Cfg, s: State, e: Event)
    requires Shape(c, s) && Enabled(c, s, e)
    ensures Shape(c, Next(c, s, e))
  {
    hide Do, May, NodeShape;
    var t := Next(c, s, e);
    forall i | i in t.nodes
      ensures NodeShape(c, t.log, t.sent, t.nodes[i])
    {
      assert NodeShape(c, s.log, s.sent, s.nodes[i]);
      match e {
        case Act(j, a) =>
          if i == j {
            DoShape(c, s.log, s.sent, Clocks(s), i, s.nodes[i], a);
          } else {
            ShapeKept(c, s.log, s.sent, s.nodes[i], t.log, t.sent, t.nodes[i]);
          }
        case _ => ShapeKept(c, s.log, s.sent, s.nodes[i], t.log, t.sent, t.nodes[i]);
      }
    }
  }

  lemma ShapeKept(c: Cfg, log: seq<Request>, sent: seq<Request>, n: Node, log': seq<Request>, sent': seq<Request>,
                  n': Node)
    requires NodeShape(c, log, sent, n)
    requires |log| <= |log'| && |sent| <= |sent'|
    requires n'.seen == n.seen
             && (n'.step == n.step || (n.step.Waiting? && n'.step.Waiting? && n'.step.req == n.step.req))
    ensures NodeShape(c, log', sent', n')
  {
  }

  /** A run: every event enabled in turn. */
  ghost predicate Valid(c: Cfg, s: State, es: seq<Event>)
    decreases |es|
  {
    && Shape(c, s)
    && (es != [] ==> Enabled(c, s, es[0]) && Valid(c, Next(c, s, es[0]), es[1..]))
  }

  ghost function Run(c: Cfg, s: State, es: seq<Event>): (r: State)
    requires Valid(c, s, es)
    ensures Shape(c, r)
    decreases |es|
  {
    if es == [] then s else Run(c, Next(c, s, es[0]), es[1..])
  }

  ghost predicate RunsTo(c: Cfg, s0: State, es: seq<Event>, s: State) {
    Init(c, s0) && Valid(c, s0, es) && Run(c, s0, es) == s
  }

  ghost predicate Reachable(c: Cfg, s: State) {
    exists s0, es :: RunsTo(c, s0, es, s)
  }

  lemma {:induction false} RunExtends(c: Cfg, s0: State, es: seq<Event>, e: Event)
    requires Valid(c, s0, es) && Enabled(c, Run(c, s0, es), e)
    ensures Valid(c, s0, es + [e]) && Run(c, s0, es + [e]) == Next(c, Run(c, s0, es), e)
    decreases |es|
  {
    hide Next, Shape, Enabled, Do;
    if es == [] {
      NextShape(c, s0, e);
      assert [e][1..] == [];
    } else {
      assert (es + [e])[1..] == es[1..] + [e];
      RunExtends(c, Next(c, s0, es[0]), es[1..], e);
    }
  }

  lemma InitReachable(c: Cfg, s: State)
    requires Init(c, s)
    ensures Shape(c, s) && Reachable(c, s)
  {
    assert RunsTo(c, s, [], s);
  }

  lemma StepReachable(c: Cfg, s: State, e: Event)
    requires Reachable(c, s) && Shape(c, s) && Enabled(c, s, e)
    ensures Shape(c, Next(c, s, e)) && Reachable(c, Next(c, s, e))
  {
    hide Next, Shape, Enabled, Do;
    var s0, es :| RunsTo(c, s0, es, s);
    RunExtends(c, s0, es, e);
    assert RunsTo(c, s0, es + [e], Next(c, s, e));
    NextShape(c, s, e);
  }
}
