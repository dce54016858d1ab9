/** What can be read off the register's history and off any node, in every
    reachable state and whatever the timing settings. */
module History {
  import opened Records
  import opened Elector
  import opened Protocol
  import opened Invariant
  import opened Tightness

  /** How often the holder changed from one stored record to the next. */
  function HolderChanges(log: seq<Request>): nat
    decreases |log|
  {
    if |log| < 2 then 0
    else
      HolderChanges(log[..|log| - 1]) +
      if log[|log| - 2].rec.holder == log[|log| - 1].rec.holder then 0 else 1
  }

  /** Neighbours in the log: each write properly follows the one before it. */
  lemma Neighbours(c: Cfg, log: seq<Request>, k: nat)
    requires LogOk(c, log) && k < |log|
    ensures log[k].rec.holder == log[k].node && log[k].rec.renewMs == log[k].read.Floor
    ensures k == 0 ==>
            log[k].kind == Create && log[k].rec.transitions == 0 && log[k].rec.acquireMs == log[k].rec.renewMs
    ensures k > 0 ==> Follows(log[k - 1], log[k]) && log[k - 1].rec.holder == log[k - 1].node
    ensures log[k].expected == k && log[k].node in c.nodes
  {
    hide LogOk, Follows;
    LogAt(c, log, k);
    if k > 0 {
      LogAt(c, log, k - 1);
    }
  }

  lemma LogPrefix(c: Cfg, log: seq<Request>, n: nat)
    requires LogOk(c, log) && n <= |log|
    ensures LogOk(c, log[..n])
  {
  }

  lemma {:induction false} CountsChanges(c: Cfg, log: seq<Request>)
    requires LogOk(c, log) && |log| > 0
    ensures log[|log| - 1].rec.transitions == HolderChanges(log)
    decreases |log|
  {
    hide LogOk;
    var k := |log| - 1;
    Neighbours(c, log, k);
    if k > 0 {
      LogPrefix(c, log, k);
      CountsChanges(c, log[..k]);
      assert log[..k][k - 1] == log[k - 1];
    }
  }

  /** LeaderTransitions always equals the number of holder changes since the
      record was created. */
  lemma TransitionsExact(c: Cfg, s: State)
    requires CfgOk(c) && Reachable(c, s) && |s.log| > 0
    ensures s.log[|s.log| - 1].rec.transitions == HolderChanges(s.log)
  {
    hide Reachable, SentOk, NodeOk, RatioOk, Shape;
    ReachableInv(c, s);
    CountsChanges(c, s.log);
  }

  /** From version `a` to version `b` the record stays with one holder and no
      write after `a` is a release. */
  predicate Tenure(log: seq<Request>, a: nat, b: nat) {
    a <= b < |log| && forall k :: a < k <= b ==> log[k].rec.holder == log[a].rec.holder && log[k].kind != Release
  }

  lemma {:induction false} TenureKeeps(c: Cfg, log: seq<Request>, a: nat, b: nat)
    requires LogOk(c, log) && Tenure(log, a, b)
    ensures log[b].rec.acquireMs == log[a].rec.acquireMs
    decreases b
  {
    hide LogOk;
    if a < b {
      TenureKeeps(c, log, a, b - 1);
      Neighbours(c, log, b);
    }
  }

  /** AcquireTime stays that of the write that took the lease, through every
      renewal, until a release; the write that took it stamped its own clock. */
  lemma AcquireTimeStable(c: Cfg, s: State, a: nat, b: nat)
    requires CfgOk(c) && Reachable(c, s) && Tenure(s.log, a, b)
    ensures s.log[b].rec.acquireMs == s.log[a].rec.acquireMs
    ensures a == 0 || s.log[a - 1].rec.holder != s.log[a].rec.holder || s.log[a].kind == Release ==>
              s.log[b].rec.acquireMs == s.log[a].read.Floor
  {
    hide Reachable, SentOk, NodeOk, RatioOk, Shape, Valid, Run, LogOk;
    ReachableInv(c, s);
    Neighbours(c, s.log, a);
    TenureKeeps(c, s.log, a, b);
  }

  /** Every change of holder is fair: the new holder Y had last refreshed its view
      with exactly X's record, and waited, on its own clock, at least the stored
      duration since; at that moment X's clock had already reached the record's
      renew time; and Y's write replaced exactly the version it had fetched. */
  lemma NoEarlyTakeover(c: Cfg, s: State, k: nat)
    requires CfgOk(c) && Reachable(c, s) && 0 < k < |s.log|
    requires s.log[k].rec.holder != s.log[k - 1].rec.holder
    ensures var p, q := s.log[k - 1], s.log[k];
            && q.kind == Takeover && q.expected == k
            && q.basis.observed == p.rec && q.basis.raw == Some(p.rec)
            && q.basis.observedTime + p.rec.leaseMs as real <= q.read
            && q.node in q.seen && q.seen[q.node] == q.basis.observedTime
            && p.node in q.seen && p.rec.renewMs as real <= q.seen[p.node]
            && q.node in s.nodes && q.read <= s.nodes[q.node].clock
  {
    hide Reachable, SentOk, RatioOk, Shape, Valid, Run;
    ReachableInv(c, s);
    Neighbours(c, s.log, k);
    KeysAt(c, s);
    var q := s.log[k];
    assert NodeOk(c, s.log, s.sent, q.node, s.nodes[q.node]);
  }

  lemma KeysAt(c: Cfg, s: State)
    requires Shape(c, s)
    ensures s.nodes.Keys == c.nodes.Keys
  {
  }

  /** A release only ever replaces a record that names the releasing node, after
      any mix of failed fetches, conflicts and lost acknowledgements. */
  lemma ReleaseReplacesOwn(c: Cfg, s: State, k: nat)
    requires CfgOk(c) && Reachable(c, s) && k < |s.log| && s.log[k].kind == Release
    ensures 0 < k && s.log[k - 1].rec.holder == s.log[k].node == s.log[k].rec.holder
    ensures s.log[k].rec.transitions == s.log[k - 1].rec.transitions
    ensures s.log[k].rec.leaseMs == c.releaseMs
    ensures s.log[k].rec.acquireMs == s.log[k].rec.renewMs == s.log[k].read.Floor
  {
    hide Reachable, SentOk, NodeOk, RatioOk, Shape, Valid, Run;
    ReachableInv(c, s);
    Neighbours(c, s.log, k);
    LogAt(c, s.log, k);
  }

  /** A release frees the lease: whoever fetches it writes, unless its clock read lies
      less than the release's short duration after its own first look at it. */
  lemma ReleaseFrees(c: Cfg, s: State, i: Id)
    requires CfgOk(c) && Reachable(c, s) && i in s.nodes && i in c.nodes && s.nodes[i].step.Fetched?
    requires 0 < s.nodes[i].step.ver <= |s.log| && s.log[s.nodes[i].step.ver - 1].kind == Release
    requires var n := s.nodes[i];
             Observe(n.view, s.log[n.step.ver - 1].rec, n.clock).observedTime + c.releaseMs as real <= n.step.start
    ensures var f := DecideEffect(c.nodes[i], i, s.nodes[i], s.log, |s.sent|, Clocks(s));
            |f.out| == 1 && f.out[0].rec.holder == i && f.out[0].expected == s.nodes[i].step.ver
  {
    hide Reachable, SentOk, NodeOk, RatioOk, Shape, Valid, Run, LogOk;
    ReachableInv(c, s);
    LogAt(c, s.log, s.nodes[i].step.ver - 1);
  }

  /** At the decision point a node takes itself for leader exactly when the
      record it has just fetched names it, stale raw form or not. */
  lemma LeaderAtDecision(c: Cfg, s: State, i: Id)
    requires CfgOk(c) && Reachable(c, s) && i in s.nodes && s.nodes[i].step.Fetched?
             && 0 < s.nodes[i].step.ver <= |s.log|
    ensures var fetched := s.log[s.nodes[i].step.ver - 1].rec;
            IsLeader(Observe(s.nodes[i].view, fetched, s.nodes[i].clock), i) <==> fetched.holder == i
  {
    hide Reachable, SentOk, NodeOk, RatioOk, Shape, Valid, Run, Context;
    ReachableInv(c, s);
    ContextAt(c, s, i);
    var n := s.nodes[i];
    LogAt(c, s.log, n.step.ver - 1);
    LookDecides(c, s.log, s.sent, Clocks(s), i, n);
    assert Look(n, s.log[n.step.ver - 1].rec, Clocks(s)).view == Observe(n.view, s.log[n.step.ver - 1].rec, n.clock);
  }

  /** Check with this tolerance stays silent throughout the renew loop. */
  ghost predicate AlwaysHealthy(c: Cfg, i: Id, tolerance: real)
    requires i in c.nodes
  {
    forall s ::
      Reachable(c, s) && i in s.nodes && s.nodes[i].phase.Leading? ==>
        Healthy(s.nodes[i].view, i, c.nodes[i].lease, s.nodes[i].clock, tolerance)
  }

  lemma HealthyInLoop(c: Cfg, s: State, i: Id, tolerance: real)
    requires CfgOk(c) && Reachable(c, s) && i in s.nodes && i in c.nodes
    requires s.nodes[i].phase.Leading?
    requires c.nodes[i].lease + tolerance >= c.nodes[i].retryPeriod + c.nodes[i].renewDeadline
    ensures Healthy(s.nodes[i].view, i, c.nodes[i].lease, s.nodes[i].clock, tolerance)
  {
    hide Reachable, SentOk, RatioOk, Shape, LogOk;
    ReachableInv(c, s);
    assert NodeOk(c, s.log, s.sent, i, s.nodes[i]);
  }

  /** A run in which a leader's last renewal lies a retry period and a renew
      deadline back. */
  lemma LongestRound(c: Cfg, x: Id) returns (s: State)
    requires CfgOk(c) && x in c.nodes
    ensures Reachable(c, s) && x in s.nodes && s.nodes[x].phase.Leading? && IsLeader(s.nodes[x].view, x)
    ensures s.nodes[x].clock == s.nodes[x].view.observedTime + c.nodes[x].retryPeriod + c.nodes[x].renewDeadline
  {
    hide Reachable, Shape, Live, NodeShape;
    s := Renewed(c, x);
    s := EvenTick(c, s, c.nodes[x].retryPeriod + c.nodes[x].renewDeadline);
    LiveReachable(c, s);
  }

  lemma Renewed(c: Cfg, x: Id) returns (s: State)
    requires CfgOk(c) && x in c.nodes
    ensures Live(c, s) && s.nodes.Keys == c.nodes.Keys
    ensures s.nodes[x].phase == Leading(c.nodes[x].retryPeriod) && IsLeader(s.nodes[x].view, x)
    ensures s.nodes[x].clock == s.nodes[x].view.observedTime == 0.0
    ensures forall i :: i in s.nodes && i != x ==> !s.nodes[i].phase.Leading?
  {
    hide Reachable, Shape, Live, NodeShape;
    var s2 := Alone(c, x);
    LiveShape(c, s2, x);
    var s3 := WinAttempt(c, s2, x);
    LiveShape(c, s3, x);
    s := DoAct(c, s3, x, Ack);
  }

  lemma Alone(c: Cfg, x: Id) returns (s: State)
    requires CfgOk(c) && x in c.nodes
    ensures Live(c, s) && s.nodes.Keys == c.nodes.Keys && |s.log| == 1 && s.log[0].rec == Early(c, x)
    ensures s.nodes[x].clock == 0.0 && s.nodes[x].view.observed == Early(c, x) && s.nodes[x].view.raw == None
    ensures s.nodes[x].phase == Leading(0.0) && s.nodes[x].step == NoAttempt
    ensures forall i :: i in s.nodes && i != x ==> !s.nodes[i].phase.Leading?
  {
    AllIdleLive(c, -1.0);
    hide Reachable, Shape, Live, NodeShape;
    var s1 := EvenTick(c, AllIdle(c, -1.0), 1.0);
    s := Acquired(c, s1, x);
  }

  /** Health while leading, exactly and for each tolerance: the check never fires
      inside the loop if and only if the lease and the tolerance together cover a
      retry period plus a renew deadline. */
  lemma HealthyIff(c: Cfg, i: Id, tolerance: real)
    requires CfgOk(c) && i in c.nodes
    ensures AlwaysHealthy(c, i, tolerance) <==>
            c.nodes[i].lease + tolerance >= c.nodes[i].retryPeriod + c.nodes[i].renewDeadline
  {
    hide Reachable;
    if c.nodes[i].lease + tolerance >= c.nodes[i].retryPeriod + c.nodes[i].renewDeadline {
      forall s | Reachable(c, s) && i in s.nodes && s.nodes[i].phase.Leading?
        ensures Healthy(s.nodes[i].view, i, c.nodes[i].lease, s.nodes[i].clock, tolerance)
      {
        HealthyInLoop(c, s, i, tolerance);
      }
    } else {
      var s := LongestRound(c, i);
      assert !Healthy(s.nodes[i].view, i, c.nodes[i].lease, s.nodes[i].clock, tolerance);
    }
  }

  /** Nobody but the observed holder is ever reported, in the loop or not. */
  lemma StandbyHealthy(v: View, id: Id, lease: real, now: real, tolerance: real)
    requires !Healthy(v, id, lease, now, tolerance)
    ensures v.observed.holder == id && now > v.observedTime + lease + tolerance
  {
  }

  // ---- the end of the renew loop ------------------------------------------

  lemma {:induction false} RoundGoesOn(c: Cfg, s: State, es: seq<Event>, i: Id, r: real)
    requires CfgOk(c) && Inv(c, s) && Valid(c, s, es) && i in s.nodes && i in c.nodes
    requires s.nodes[i].phase == Leading(r) && s.nodes[i].clock <= r + c.nodes[i].renewDeadline
    requires Act(i, Ack) !in es && Act(i, Stop) !in es
    ensures var t := Run(c, s, es);
            && i in t.nodes && t.nodes[i].phase == Leading(r) && t.nodes[i].clock <= r + c.nodes[i].renewDeadline
    decreases |es|
  {
    hide Inv, Next, Enabled;
    if es != [] {
      assert es[0] in es;
      InvParts(c, s, i);
      RoundStep(c, s, es[0], i, r);
      NextInv(c, s, es[0]);
      RoundGoesOn(c, Next(c, s, es[0]), es[1..], i, r);
    }
  }

  lemma ActInRound(c: Cfg, log: seq<Request>, sent: seq<Request>, clocks: map<Id, real>, i: Id, n: Node, a: Action)
    requires i in c.nodes && NodeShape(c, log, sent, n) && May(c.nodes[i], sent, i, n, a)
    requires n.phase.Leading? && a != Ack && a != Stop
    ensures var f := Do(c, log, sent, clocks, i, n, a); f.node.phase == n.phase && f.node.clock == n.clock
  {
    hide Blocked, Compose, Observe;
  }

  lemma RoundStep(c: Cfg, s: State, e: Event, i: Id, r: real)
    requires Shape(c, s) && Enabled(c, s, e) && i in s.nodes && i in c.nodes
    requires s.nodes[i].phase == Leading(r) && s.nodes[i].clock <= r + c.nodes[i].renewDeadline
    requires e != Act(i, Ack) && e != Act(i, Stop)
    ensures var t := Next(c, s, e);
            && i in t.nodes && t.nodes[i].phase == Leading(r) && t.nodes[i].clock <= r + c.nodes[i].renewDeadline
  {
    hide Shape, NodeShape, MayTick, Do;
    match e {
      case Act(j, a) =>
        if j == i {
          ShapeAt(c, s, i);
          ActInRound(c, s.log, s.sent, Clocks(s), i, s.nodes[i], a);
        }
      case Land(_) =>
      case Tick(d) => TickFacts(c, s, d);
    }
  }

  lemma StoppingIdle(log: seq<Request>, sent: seq<Request>, i: Id, n: Node)
    requires StepOk(log, sent, i, n) && n.phase.Stopping?
    ensures n.step == NoAttempt
  {
  }

  lemma StoppingActs(c: Cfg, log: seq<Request>, sent: seq<Request>, clocks: map<Id, real>, i: Id, n: Node, a: Action)
    requires i in c.nodes && NodeShape(c, log, sent, n) && May(c.nodes[i], sent, i, n, a)
    requires n.phase.Stopping? && n.step == NoAttempt
    ensures a in {Quit, SendRelease}
    ensures var f := Do(c, log, sent, clocks, i, n, a);
            f.node.phase == Idle && f.out == if a == Quit then [] else [ComposeRelease(c.releaseMs, i, n)]
  {
  }

  lemma InvParts(c: Cfg, s: State, i: Id)
    requires Inv(c, s) && i in s.nodes
    ensures Shape(c, s) && i in c.nodes && NodeOk(c, s.log, s.sent, i, s.nodes[i])
    ensures NodeShape(c, s.log, s.sent, s.nodes[i])
  {
    hide LogOk, SentOk, NodeOk, RatioOk;
  }

  /** A round without a success ends the loop: while no success is acknowledged, a
      leader cannot get past the deadline of its round except by leaving the
      loop, and then it only returns, after a release or without one. */
  lemma RoundWithoutSuccess(c: Cfg, s: State, es: seq<Event>, i: Id)
    requires CfgOk(c) && Reachable(c, s) && i in s.nodes && i in c.nodes && Valid(c, s, es)
    ensures s.nodes[i].phase.Leading? && Act(i, Ack) !in es ==>
              var t := Run(c, s, es);
              && i in t.nodes
              && (t.nodes[i].clock > s.nodes[i].phase.round + c.nodes[i].renewDeadline ==> Act(i, Stop) in es)
    ensures s.nodes[i].phase.Stopping? ==>
              forall a :: Enabled(c, s, Act(i, a)) ==>
                            && a in {Quit, SendRelease}
                            && Next(c, s, Act(i, a)).sent ==
                               s.sent + (if a == Quit then [] else [ComposeRelease(c.releaseMs, i, s.nodes[i])])
                            && Next(c, s, Act(i, a)).nodes[i].phase == Idle
  {
    hide *;
    ReachableInv(c, s);
    InvParts(c, s, i);
    NodeParts(c, s.log, s.sent, i, s.nodes[i]);
    if s.nodes[i].phase.Leading? && Act(i, Ack) !in es {
      LeaderInRound(c, s, i);
      KeysOfRun(c, s, es);
      if Act(i, Stop) !in es {
        RoundGoesOn(c, s, es, i, s.nodes[i].phase.round);
      }
    } else if s.nodes[i].phase.Stopping? {
      StoppingIdle(s.log, s.sent, i, s.nodes[i]);
      forall a | Enabled(c, s, Act(i, a))
        ensures a in {Quit, SendRelease}
        ensures i in Next(c, s, Act(i, a)).nodes && Next(c, s, Act(i, a)).nodes[i].phase == Idle
        ensures Next(c, s, Act(i, a)).sent ==
                s.sent + (if a == Quit then [] else [ComposeRelease(c.releaseMs, i, s.nodes[i])])
      {
        StoppingNext(c, s, i, a);
      }
    }
  }

  lemma StoppingNext(c: Cfg, s: State, i: Id, a: Action)
    requires Shape(c, s) && Enabled(c, s, Act(i, a)) && i in c.nodes
    requires s.nodes[i].phase.Stopping? && s.nodes[i].step == NoAttempt
    ensures a in {Quit, SendRelease} && i in Next(c, s, Act(i, a)).nodes
    ensures Next(c, s, Act(i, a)).nodes[i].phase == Idle
    ensures Next(c, s, Act(i, a)).sent ==
            s.sent + (if a == Quit then [] else [ComposeRelease(c.releaseMs, i, s.nodes[i])])
  {
    hide Shape, NodeShape, May, Do, ComposeRelease;
    ShapeAt(c, s, i);
    StoppingActs(c, s.log, s.sent, Clocks(s), i, s.nodes[i], a);
  }

  lemma LeaderInRound(c: Cfg, s: State, i: Id)
    requires i in s.nodes && i in c.nodes && Recent(c.nodes[i], s.nodes[i]) && s.nodes[i].phase.Leading?
    ensures s.nodes[i].clock <= s.nodes[i].phase.round + c.nodes[i].renewDeadline
  {
  }

  lemma {:induction false} KeysOfRun(c: Cfg, s: State, es: seq<Event>)
    requires Valid(c, s, es)
    ensures Run(c, s, es).nodes.Keys == s.nodes.Keys
    decreases |es|
  {
    KeysAt(c, s);
    hide Next, Enabled, Shape;
    if es != [] {
      KeysOfRun(c, Next(c, s, es[0]), es[1..]);
      KeysAt(c, Next(c, s, es[0]));
    }
  }
}
