/** The elector's method and the protocol agree: the separate protocol steps of an
    attempt, whatever other nodes do between them, add up to one call of the
    method with the answers the steps received. */
module Refinement {
  import opened Records
  import opened Elector
  import opened Protocol

  /** The answers that the steps of an attempt gave. */
  function Answers(start: real, ver: nat, log: seq<Request>, decidedAt: real, wrote: bool, ackAt: real): Io
    requires ver <= |log|
  {
    Io(start, if ver == 0 then Missing else Got(log[ver - 1].rec), decidedAt, wrote, ackAt)
  }

  /** An attempt that decides not to write is the method returning false. */
  lemma BlockedAttempt(c: NodeCfg, i: Id, n: Node, log: seq<Request>, k: nat, clocks: map<Id, real>, io: Io)
    requires n.step.Fetched? && n.step.ver <= |log|
    requires io == Answers(n.step.start, n.step.ver, log, n.clock, io.wrote, io.ackAt)
    ensures DecideEffect(c, i, n, log, k, clocks).out == [] <==> Attempt(n.view, i, c.leaseMs, io).write.None?
    ensures DecideEffect(c, i, n, log, k, clocks).out == [] ==>
              Attempt(n.view, i, c.leaseMs, io) == Outcome(DecideEffect(c, i, n, log, k, clocks).node.view, false, None)
  {
  }

  /** An attempt that writes sends the method's record; given up, it leaves the
      method's view after an error, and acknowledged, after a success. */
  lemma WritingAttempt(c: NodeCfg, i: Id, n: Node, log: seq<Request>, k: nat, clocks: map<Id, real>, later: Node,
                       laterClocks: map<Id, real>, io: Io)
    requires n.step.Fetched? && n.step.ver <= |log|
    requires DecideEffect(c, i, n, log, k, clocks).out != []
    requires later.view == DecideEffect(c, i, n, log, k, clocks).node.view
    requires io == Answers(n.step.start, n.step.ver, log, n.clock, io.wrote, later.clock)
    ensures var q := DecideEffect(c, i, n, log, k, clocks).out[0];
            var o := Attempt(n.view, i, c.leaseMs, io);
            && DecideEffect(c, i, n, log, k, clocks).out == [q] && q.node == i && q.expected == n.step.ver
            && o.write == Some(if n.step.ver == 0 then CreateCall(q.rec) else UpdateCall(q.rec))
            && o.ok == io.wrote
            && o.view == if io.wrote then Acked(c, later, q, laterClocks).view else Fail(c, later).view
  {
  }

  /** A failed fetch is the method's early return. */
  lemma FailedAttempt(c: NodeCfg, i: Id, n: Node, io: Io)
    requires io.got.Failed?
    ensures Attempt(n.view, i, c.leaseMs, io) == Outcome(Fail(c, n).view, false, None)
  {
  }

  /** Sending the release, and its answer, add up to the release of the method: the
      record names the node, keeps its count and carries the short duration. */
  lemma ReleaseSteps(c: NodeCfg, releaseMs: nat, i: Id, n: Node, later: Node, laterClocks: map<Id, real>)
    requires IsLeader(n.view, i) && later.view == n.view
    ensures var q := ComposeRelease(releaseMs, i, n);
            && q.node == i && q.expected == n.cached && q.read == n.clock
            && q.rec == Record(i, releaseMs, n.clock.Floor, n.clock.Floor, n.view.observed.transitions)
            && Fail(c, later).view == n.view
            && Acked(c, later, q, laterClocks).view == Adopt(n.view, q.rec, later.clock)
  {
  }

  /** In the acquire loop the next attempt after a failed one starts a retry period
      later at the earliest, and after a success in the renew loop a retry period
      later too, while the success that ends the acquire loop is followed at once. */
  lemma AttemptGap(c: Cfg, log: seq<Request>, sent: seq<Request>, clocks: map<Id, real>, i: Id, n: Node, a: Action,
                   t: real)
    requires i in c.nodes && NodeShape(c, log, sent, n) && May(c.nodes[i], sent, i, n, a)
    requires n.step != NoAttempt && (n.phase.Acquiring? || n.phase.Leading?)
    ensures var f := Do(c, log, sent, clocks, i, n, a).node;
            f.step == NoAttempt && t >= n.clock ==>
              (MayBegin(f.(clock := t)) <==>
               if n.phase.Acquiring? then a == Ack || n.clock + c.nodes[i].retryPeriod <= t
               else if a == Ack then n.clock + c.nodes[i].retryPeriod <= t
               else n.phase.round <= t)
  {
    hide Compose, Blocked, Observe, Adopt;
  }
}
