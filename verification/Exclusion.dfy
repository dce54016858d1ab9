/** At most one elector is inside its renew loop, in every run, when every
    stored lease outlasts the window in which its holder may still lead. */
module Exclusion {
  import opened Records
  import opened Elector
  import opened Protocol
  import opened Invariant

  function Max(a: real, b: real): real { if a < b then b else a }
  function Min(a: real, b: real): real { if a < b then a else b }

  /** From the clock read behind a write to the start of the last round that the
      write's success can open: an acquisition opens a round when it returns, a
      renewal, bounded by its own round too, one retry period after it returns. */
  function Slack(n: NodeCfg): real {
    Max(n.latency, Min(n.latency, n.renewDeadline) + n.retryPeriod)
  }

  /** From the clock read behind a node's last write to the last instant at which
      that write lets the node lead. */
  function Window(n: NodeCfg): real {
    Slack(n) + n.renewDeadline
  }

  /** One extra millisecond: record times are truncated, so renewals within one
      millisecond look the same to every observer. */
  predicate Bound(c: Cfg) {
    forall i :: i in c.nodes ==> c.nodes[i].leaseMs as real >= Scaled(c.ratio, Window(c.nodes[i]) + 1.0)
  }

  predicate Exclusive(s: State) {
    forall i, j :: i in s.nodes && j in s.nodes && s.nodes[i].phase.Leading? && s.nodes[j].phase.Leading? ==> i == j
  }

  /** Whoever leads is the stored holder, by a write that is not a release. */
  predicate HolderLeads(s: State) {
    forall i :: i in s.nodes && s.nodes[i].phase.Leading? ==>
                  |s.log| > 0 && s.log[|s.log| - 1].rec.holder == i && s.log[|s.log| - 1].kind != Release
  }

  /** The stored write can no longer let its writer lead. */
  predicate Spent(c: Cfg, log: seq<Request>, clocks: map<Id, real>) {
    |log| > 0 ==>
      var p := log[|log| - 1];
      p.kind == Release || (p.node in clocks && p.node in c.nodes && clocks[p.node] > p.read + Window(c.nodes[p.node]))
  }

  /** Leading, or about to on an answer already given. */
  predicate Leads(sent: seq<Request>, n: Node) {
    || n.phase.Leading?
    || (n.step.Waiting? && n.step.landed && n.step.req < |sent| && sent[n.step.req].kind != Release)
  }

  /** A request that can still land. */
  predicate LiveOk(c: Cfg, log: seq<Request>, sent: seq<Request>, nodes: map<Id, Node>, clocks: map<Id, real>,
                   q: Request) {
    |log| > 0 && q.expected == |log| ==>
      && (q.kind == Takeover ==> Spent(c, log, clocks))
      && (q.node == log[|log| - 1].node ==> log[|log| - 1].read <= q.read)
      && (q.kind == Release ==> q.node in nodes && !Leads(sent, nodes[q.node]))
  }

  predicate Backed(log: seq<Request>, i: Id, t: real) {
    && |log| > 0
    && log[|log| - 1].node == i && log[|log| - 1].kind != Release && t <= log[|log| - 1].read
  }

  predicate LeadOk(cfg: NodeCfg, log: seq<Request>, sent: seq<Request>, i: Id, n: Node) {
    && (n.phase.Leading? ==> Backed(log, i, n.phase.round - Slack(cfg)))
    && (n.step.Waiting? && n.step.landed && n.step.req < |sent| && sent[n.step.req].kind != Release
        && n.clock <= sent[n.step.req].read + cfg.latency ==>
          Backed(log, i, sent[n.step.req].read))
  }

  predicate Safe(c: Cfg, s: State) {
    && s.nodes.Keys == c.nodes.Keys
    && (forall k :: 0 <= k < |s.sent| ==> LiveOk(c, s.log, s.sent, s.nodes, Clocks(s), s.sent[k]))
    && (forall i :: i in s.nodes ==> LeadOk(c.nodes[i], s.log, s.sent, i, s.nodes[i]))
  }

  // ---- the timing argument ------------------------------------------------

  lemma Outlasts(ratio: real, lease: real, span: real, mine: real, theirs: real)
    requires ratio >= 1.0 && lease >= Scaled(ratio, span)
    requires lease <= mine && mine <= Scaled(ratio, theirs)
    ensures theirs >= span
  {
  }

  lemma Grows(r: real, a: real, b: real)
    requires r > 0.0 && a < b
    ensures r * a < r * b
  {
  }

  /** No early takeover, in time: when a takeover is decided on the stored write,
      that write's writer can no longer lead by it. */
  lemma TakeoverSpent(c: Cfg, log: seq<Request>, sent: seq<Request>, clocks: map<Id, real>, i: Id, n: Node)
    requires Bound(c) && Context(c, log, sent, clocks, i, n)
    requires n.step.Fetched? && 0 < n.step.ver == |log|
    requires var n1 := Look(n, log[|log| - 1].rec, clocks);
             !Blocked(n1.view, i, log[|log| - 1].rec, n.step.start) && !IsLeader(n1.view, i)
    ensures Spent(c, log, clocks)
  {
    hide Past, StepOk, Recent, Agrees, Holds, SentOk, LogOk, RatioOk, Look, Blocked, Proper, NodeOk, Bound, Window,
         Scaled;
    ContextParts(c, log, sent, clocks, i, n);
    var p := log[|log| - 1];
    LogAt(c, log, |log| - 1);
    LookDecides(c, log, sent, clocks, i, n);
    var n1 := Look(n, p.rec, clocks);
    LookRatio(c, clocks, i, n, p.rec);
    RatioAt(c, clocks, i, n1.seen, p.node);
    StartPast(log, sent, i, n);
    if p.kind != Release {
      var mine := clocks[i] - n1.seen[i];
      Expired(c, log, i, n1, p, n.step.start);
      var span := Window(c.nodes[p.node]) + 1.0;
      Outlasts(c.ratio, p.rec.leaseMs as real, span, mine, clocks[p.node] - n1.seen[p.node]);
    }
  }

  lemma LookRatio(c: Cfg, clocks: map<Id, real>, i: Id, n: Node, fetched: Record)
    requires RatioOk(c, clocks, i, n.seen)
    ensures RatioOk(c, clocks, i, Look(n, fetched, clocks).seen)
  {
  }

  /** What an attempt that was not blocked knows about the stored write `p`. */
  lemma Expired(c: Cfg, log: seq<Request>, i: Id, n1: Node, p: Request, start: real)
    requires CfgOk(c) && Bound(c) && Proper(c, log, p) && p.kind != Release
    requires !Blocked(n1.view, i, p.rec, start) && !IsLeader(n1.view, i)
    requires ViewOk(c, log, i, n1) && n1.view.raw == Some(p.rec)
    ensures n1.seen[i] + p.rec.leaseMs as real <= start
    ensures p.rec.leaseMs as real >= Scaled(c.ratio, Window(c.nodes[p.node]) + 1.0)
    ensures p.read < p.rec.renewMs as real + 1.0 && p.rec.renewMs as real <= n1.seen[p.node]
  {
    assert p.read.Floor as real <= p.read < p.read.Floor as real + 1.0;
  }

  lemma StartPast(log: seq<Request>, sent: seq<Request>, i: Id, n: Node)
    requires StepOk(log, sent, i, n) && n.step.Fetched?
    ensures n.step.start <= n.clock
    ensures 0 < n.step.ver <= |log| && log[n.step.ver - 1].node == i ==> log[n.step.ver - 1].read <= n.step.start
  {
  }

  // ---- actions ------------------------------------------------------------

  lemma DecideLive(c: Cfg, log: seq<Request>, sent: seq<Request>, nodes: map<Id, Node>, clocks: map<Id, real>, i: Id,
                   n: Node)
    requires Bound(c) && Context(c, log, sent, clocks, i, n) && n.step.Fetched?
    ensures var f := DecideEffect(c.nodes[i], i, n, log, |sent|, clocks);
            forall k :: 0 <= k < |f.out| ==> LiveOk(c, log, sent + f.out, nodes, clocks, f.out[k])
  {
    hide LogOk, SentOk, NodeOk, RatioOk, Spent, Blocked, Look, Context;
    ContextParts(c, log, sent, clocks, i, n);
    StartPast(log, sent, i, n);
    var f := DecideEffect(c.nodes[i], i, n, log, |sent|, clocks);
    if |f.out| > 0 && 0 < n.step.ver == |log| {
      var n1 := Look(n, log[|log| - 1].rec, clocks);
      LookDecides(c, log, sent, clocks, i, n);
      if !IsLeader(n1.view, i) {
        TakeoverSpent(c, log, sent, clocks, i, n);
      }
    }
  }

  lemma ContextParts(c: Cfg, log: seq<Request>, sent: seq<Request>, clocks: map<Id, real>, i: Id, n: Node)
    requires Context(c, log, sent, clocks, i, n)
    ensures NodeShape(c, log, sent, n) && StepOk(log, sent, i, n) && Past(log, i, n.clock)
            && Recent(c.nodes[i], n) && i in c.nodes
    ensures n.cached <= |log| && CfgOk(c)
  {
  }

  lemma ReleaseLive(c: Cfg, log: seq<Request>, sent: seq<Request>, nodes: map<Id, Node>, clocks: map<Id, real>,
                    i: Id, n: Node)
    requires Context(c, log, sent, clocks, i, n) && May(c.nodes[i], sent, i, n, SendRelease)
    requires i in nodes && !Leads(sent + [ComposeRelease(c.releaseMs, i, n)], nodes[i])
    ensures LiveOk(c, log, sent + [ComposeRelease(c.releaseMs, i, n)], nodes, clocks, ComposeRelease(c.releaseMs, i, n))
  {
  }

  /** Nobody starts to lead except on an answer already given. */
  lemma DoLeads(c: Cfg, log: seq<Request>, sent: seq<Request>, clocks: map<Id, real>, i: Id, n: Node, a: Action)
    requires i in c.nodes && NodeShape(c, log, sent, n) && May(c.nodes[i], sent, i, n, a)
    requires n.step.Waiting? && n.step.req < |sent| && sent[n.step.req].kind == Release ==> n.phase.Idle?
    ensures var f := Do(c, log, sent, clocks, i, n, a); Leads(sent + f.out, f.node) ==> Leads(sent, n)
  {
  }

  lemma AckLead(c: Cfg, log: seq<Request>, sent: seq<Request>, clocks: map<Id, real>, i: Id, n: Node)
    requires CfgOk(c) && i in c.nodes && StepOk(log, sent, i, n) && Recent(c.nodes[i], n)
    requires n.step.Waiting? && n.step.req < |sent| && n.step.landed && MayAck(c.nodes[i], n, sent[n.step.req])
    requires LeadOk(c.nodes[i], log, sent, i, n)
    ensures LeadOk(c.nodes[i], log, sent, i, Acked(c.nodes[i], n, sent[n.step.req], clocks))
  {
  }

  lemma DoLeadOk(c: Cfg, log: seq<Request>, sent: seq<Request>, clocks: map<Id, real>, i: Id, n: Node, a: Action)
    requires Context(c, log, sent, clocks, i, n) && NodeShape(c, log, sent, n) && May(c.nodes[i], sent, i, n, a)
    requires LeadOk(c.nodes[i], log, sent, i, n)
    ensures var f := Do(c, log, sent, clocks, i, n, a); LeadOk(c.nodes[i], log, sent + f.out, i, f.node)
  {
    ContextParts(c, log, sent, clocks, i, n);
    hide Context, Recent, SentOk, LogOk, NodeOk, RatioOk, Past, StepOk;
    if a == Ack {
      hide Acked, LeadOk;
      AckLead(c, log, sent, clocks, i, n);
      assert sent + [] == sent;
    }
  }

  // ---- landing and time ---------------------------------------------------

  /** A live write of another node meets no leader: it is a takeover of a spent record. */
  lemma LandOther(c: Cfg, log: seq<Request>, sent: seq<Request>, nodes: map<Id, Node>, clocks: map<Id, real>, k: nat,
                  i: Id, n: Node)
    requires k < |sent| && sent[k].expected == |log| && sent[k].node != i
    requires Proper(c, log, sent[k]) && LiveOk(c, log, sent, nodes, clocks, sent[k])
    requires i in c.nodes && i in clocks && clocks[i] == n.clock && Recent(c.nodes[i], n)
    requires c.nodes[i].renewDeadline > 0.0 && c.nodes[i].retryPeriod > 0.0 && c.nodes[i].latency >= 0.0
    requires LeadOk(c.nodes[i], log, sent, i, n)
    ensures LeadOk(c.nodes[i], log + [sent[k]], sent, i, n)
    ensures !n.phase.Leading?
  {
  }

  lemma LandOwn(c: Cfg, log: seq<Request>, sent: seq<Request>, nodes: map<Id, Node>, clocks: map<Id, real>, k: nat,
                i: Id)
    requires k < |sent| && sent[k].expected == |log| && sent[k].node == i
    requires Proper(c, log, sent[k]) && LiveOk(c, log, sent, nodes, clocks, sent[k])
    requires i in c.nodes && i in nodes
    requires LeadOk(c.nodes[i], log, sent, i, nodes[i])
    ensures LeadOk(c.nodes[i], log + [sent[k]], sent, i, Landed(nodes[i], k))
  {
  }

  lemma TickLive(c: Cfg, log: seq<Request>, sent: seq<Request>, nodes: map<Id, Node>, nodes': map<Id, Node>,
                 clocks: map<Id, real>, clocks': map<Id, real>, q: Request)
    requires LiveOk(c, log, sent, nodes, clocks, q)
    requires nodes'.Keys == nodes.Keys
    requires forall i :: i in nodes ==> nodes'[i].phase == nodes[i].phase && nodes'[i].step == nodes[i].step
    requires clocks'.Keys == clocks.Keys && forall i :: i in clocks ==> clocks[i] <= clocks'[i]
    ensures LiveOk(c, log, sent, nodes', clocks', q)
  {
  }

  // ---- whole states -------------------------------------------------------

  lemma LeadsKept(c: Cfg, log: seq<Request>, sent: seq<Request>, out: seq<Request>, n: Node)
    requires NodeShape(c, log, sent, n)
    ensures Leads(sent + out, n) == Leads(sent, n)
  {
  }

  lemma LeadOkKept(c: Cfg, cfg: NodeCfg, log: seq<Request>, sent: seq<Request>, out: seq<Request>, i: Id, n: Node)
    requires NodeShape(c, log, sent, n) && LeadOk(cfg, log, sent, i, n)
    ensures LeadOk(cfg, log, sent + out, i, n)
  {
  }

  lemma LiveKept(c: Cfg, log: seq<Request>, sent: seq<Request>, sent': seq<Request>,
                 nodes: map<Id, Node>, nodes': map<Id, Node>, clocks: map<Id, real>, q: Request)
    requires LiveOk(c, log, sent, nodes, clocks, q)
    requires q.node in nodes ==> q.node in nodes' && (Leads(sent', nodes'[q.node]) ==> Leads(sent, nodes[q.node]))
    ensures LiveOk(c, log, sent', nodes', clocks, q)
  {
  }

  lemma DoLive(c: Cfg, log: seq<Request>, sent: seq<Request>, nodes: map<Id, Node>, clocks: map<Id, real>, i: Id,
               n: Node, a: Action)
    requires Bound(c) && Context(c, log, sent, clocks, i, n)
    requires NodeShape(c, log, sent, n) && i in c.nodes && May(c.nodes[i], sent, i, n, a)
    requires i in nodes && nodes[i] == Do(c, log, sent, clocks, i, n, a).node
    ensures var f := Do(c, log, sent, clocks, i, n, a);
            forall k :: 0 <= k < |f.out| ==> LiveOk(c, log, sent + f.out, nodes, clocks, f.out[k])
  {
    hide Context, LiveOk, DecideEffect, ComposeRelease;
    if a == Decide {
      DecideLive(c, log, sent, nodes, clocks, i, n);
    } else if a == SendRelease {
      ReleaseLive(c, log, sent, nodes, clocks, i, n);
    }
  }

  lemma ReleaseIdle(c: Cfg, log: seq<Request>, sent: seq<Request>, i: Id, n: Node)
    requires NodeOk(c, log, sent, i, n)
    ensures n.step.Waiting? && n.step.req < |sent| && sent[n.step.req].kind == Release ==> n.phase.Idle?
  {
  }

  lemma ActSafe(c: Cfg, s: State, i: Id, a: Action)
    requires CfgOk(c) && Bound(c) && Inv(c, s) && Safe(c, s) && Enabled(c, s, Act(i, a))
    ensures Safe(c, Next(c, s, Act(i, a)))
  {
    hide LogOk, SentOk, NodeOk, RatioOk, Do, Shape, NodeShape, May, Context, Leads, LiveOk, LeadOk;
    Unpack(c, s, i, a);
    ContextAt(c, s, i);
    var clocks := Clocks(s);
    var f := Do(c, s.log, s.sent, clocks, i, s.nodes[i], a);
    var nodes' := s.nodes[i := f.node];
    var sent' := s.sent + f.out;
    var t := Next(c, s, Act(i, a));
    assert t == State(s.log, sent', nodes');
    hide Next;
    DoSends(c, s.log, s.sent, clocks, i, s.nodes[i], a);
    assert Clocks(t) == clocks;
    DoLive(c, s.log, s.sent, nodes', clocks, i, s.nodes[i], a);
    ReleaseIdle(c, s.log, s.sent, i, s.nodes[i]);
    DoLeads(c, s.log, s.sent, clocks, i, s.nodes[i], a);
    forall k | 0 <= k < |sent'|
      ensures LiveOk(c, s.log, sent', nodes', clocks, sent'[k])
    {
      if k < |s.sent| {
        var q := s.sent[k];
        if q.node in s.nodes && q.node != i {
          ShapeAt(c, s, q.node);
          LeadsKept(c, s.log, s.sent, f.out, s.nodes[q.node]);
        }
        LiveKept(c, s.log, s.sent, sent', s.nodes, nodes', clocks, q);
      } else {
        assert sent'[k] == f.out[k - |s.sent|];
      }
    }
    forall j | j in nodes'
      ensures LeadOk(c.nodes[j], s.log, sent', j, nodes'[j])
    {
      if j == i {
        DoLeadOk(c, s.log, s.sent, clocks, i, s.nodes[i], a);
      } else {
        ShapeAt(c, s, j);
        LeadOkKept(c, c.nodes[j], s.log, s.sent, f.out, j, s.nodes[j]);
      }
    }
  }

  lemma LandSafe(c: Cfg, s: State, k: nat)
    requires CfgOk(c) && Inv(c, s) && Safe(c, s) && Enabled(c, s, Land(k))
    ensures Safe(c, Next(c, s, Land(k)))
  {
    hide LogOk, SentOk, NodeOk, RatioOk, Shape, NodeShape, May, Leads, LeadOk;
    var q := s.sent[k];
    SentAt(c, s.log, s.sent, k);
    var t := Next(c, s, Land(k));
    assert t == State(s.log + [q], s.sent, s.nodes[q.node := Landed(s.nodes[q.node], k)]);
    hide Next;
    forall j | j in t.nodes
      ensures LeadOk(c.nodes[j], t.log, t.sent, j, t.nodes[j])
    {
      if j == q.node {
        LandOwn(c, s.log, s.sent, s.nodes, Clocks(s), k, j);
      } else {
        NodeRecent(c, s.log, s.sent, j, s.nodes[j]);
        LandOther(c, s.log, s.sent, s.nodes, Clocks(s), k, j, s.nodes[j]);
      }
    }
    forall x | 0 <= x < |t.sent|
      ensures LiveOk(c, t.log, t.sent, t.nodes, Clocks(t), t.sent[x])
    {
      SentAt(c, s.log, s.sent, x);
    }
  }

  lemma NodeRecent(c: Cfg, log: seq<Request>, sent: seq<Request>, i: Id, n: Node)
    requires NodeOk(c, log, sent, i, n)
    ensures i in c.nodes && Recent(c.nodes[i], n)
  {
  }

  lemma TickSafe(c: Cfg, s: State, d: map<Id, real>)
    requires Inv(c, s) && Safe(c, s) && Enabled(c, s, Tick(d))
    ensures Safe(c, Next(c, s, Tick(d)))
  {
    hide LiveOk, Steady, Do, May, Shape, MayTick, Leads, NodeOk, LogOk, SentOk, RatioOk;
    var t := Next(c, s, Tick(d));
    TickFacts(c, s, d);
    hide Next;
    forall x | 0 <= x < |t.sent|
      ensures LiveOk(c, t.log, t.sent, t.nodes, Clocks(t), t.sent[x])
    {
      TickLive(c, s.log, s.sent, s.nodes, t.nodes, Clocks(s), Clocks(t), s.sent[x]);
    }
    forall j | j in t.nodes
      ensures LeadOk(c.nodes[j], t.log, t.sent, j, t.nodes[j])
    {
      assert LeadOk(c.nodes[j], s.log, s.sent, j, s.nodes[j]);
    }
  }

  lemma NextSafe(c: Cfg, s: State, e: Event)
    requires CfgOk(c) && Bound(c) && Inv(c, s) && Safe(c, s) && Enabled(c, s, e)
    ensures Safe(c, Next(c, s, e))
  {
    hide Inv, Next, Enabled, Safe, Bound;
    match e {
      case Act(i, a) => ActSafe(c, s, i, a);
      case Land(k) => LandSafe(c, s, k);
      case Tick(d) => TickSafe(c, s, d);
    }
  }

  lemma {:induction false} RunSafe(c: Cfg, s: State, es: seq<Event>)
    requires CfgOk(c) && Bound(c) && Inv(c, s) && Safe(c, s) && Valid(c, s, es)
    ensures Inv(c, Run(c, s, es)) && Safe(c, Run(c, s, es))
    decreases |es|
  {
    hide Inv, Next, Enabled, Safe, Bound;
    if es != [] {
      NextInv(c, s, es[0]);
      NextSafe(c, s, es[0]);
      RunSafe(c, Next(c, s, es[0]), es[1..]);
    }
  }

  lemma SafeHolder(c: Cfg, s: State)
    requires Inv(c, s) && Safe(c, s)
    ensures HolderLeads(s) && Exclusive(s)
  {
  }

  /** Exclusion: under the bound, in every reachable state at most one node is in
      its renew loop, and it is the stored holder. */
  lemma ExclusionHolds(c: Cfg, s: State)
    requires CfgOk(c) && Bound(c) && Reachable(c, s)
    ensures Exclusive(s) && HolderLeads(s)
  {
    hide Inv, Valid, Run, Safe, Bound, Exclusive, HolderLeads;
    var s0, es :| RunsTo(c, s0, es, s);
    InitInv(c, s0);
    InitSafe(c, s0);
    RunSafe(c, s0, es);
    SafeHolder(c, s);
  }

  lemma InitSafe(c: Cfg, s: State)
    requires Init(c, s)
    ensures Safe(c, s)
  {
  }
}
