/** One elector: the local bookkeeping, the decisions it takes, and the class
    whose methods carry them out. Results of lock calls and clock readings are
    parameters; the pure functions below are shared with module Protocol. */
module Elector {
  import opened Records

  /** `observedRecord`, `observedRawRecord` and `observedTime`. The raw bytes are
      an injective encoding of a record, so they are represented by the record
      they encode; `None` is the initial nil slice. */
  datatype View = View(observed: Record, raw: Option<Record>, observedTime: real)

  const FRESH_VIEW := View(NO_RECORD, None, 0.0)

  predicate IsLeader(v: View, id: Id) {
    v.observed.holder == id
  }

  /** A fetched record refreshes the view only when its raw form is new. */
  function Observe(v: View, fetched: Record, t: real): View {
    if v.raw == Some(fetched) then v else View(fetched, Some(fetched), t)
  }

  /** A record this elector wrote itself: the raw form is left alone. */
  function Adopt(v: View, rec: Record, t: real): View {
    v.(observed := rec, observedTime := t)
  }

  /** The lock is held by someone else and has not yet expired. */
  predicate Blocked(v: View, id: Id, fetched: Record, now: real) {
    && fetched.holder != ""
    && v.observedTime + fetched.leaseMs as real > now
    && !IsLeader(v, id)
  }

  function FirstRecord(id: Id, leaseMs: int, now: real): Record {
    Record(id, leaseMs, now.Floor, now.Floor, 0)
  }

  function Proposal(v: View, id: Id, leaseMs: int, fetched: Record, now: real): Record {
    if IsLeader(v, id) then
      Record(id, leaseMs, fetched.acquireMs, now.Floor, fetched.transitions)
    else
      Record(id, leaseMs, now.Floor, now.Floor, fetched.transitions + 1)
  }

  /** Releasing keeps the holder and shortens the lease. */
  function ReleaseRecord(v: View, releaseMs: int, now: real): Record {
    Record(v.observed.holder, releaseMs, now.Floor, now.Floor, v.observed.transitions)
  }

  datatype GetResult = Got(rec: Record) | Missing | Failed

  datatype Write = CreateCall(rec: Record) | UpdateCall(rec: Record)

  /** What the outside world answers during one attempt. */
  datatype Io = Io(now: real, got: GetResult, seenAt: real, wrote: bool, ackAt: real)

  datatype Outcome = Outcome(view: View, ok: bool, write: Option<Write>)

  /** One whole attempt as a function of the view and the answers. */
  function Attempt(v: View, id: Id, leaseMs: int, io: Io): Outcome {
    match io.got
    case Failed => Outcome(v, false, None)
    case Missing =>
      var rec := FirstRecord(id, leaseMs, io.now);
      Outcome(if io.wrote then Adopt(v, rec, io.ackAt) else v, io.wrote, Some(CreateCall(rec)))
    case Got(fetched) =>
      var v1 := Observe(v, fetched, io.seenAt);
      if Blocked(v1, id, fetched, io.now) then Outcome(v1, false, None)
      else
        var rec := Proposal(v1, id, leaseMs, fetched, io.now);
        Outcome(if io.wrote then Adopt(v1, rec, io.ackAt) else v1, io.wrote, Some(UpdateCall(rec)))
  }

  /** Attempts made one after the other until one succeeds or the context ends
      (the script is exhausted); `used` counts the attempts made. */
  datatype Polled = Polled(view: View, ok: bool, used: nat)

  function Poll(v: View, id: Id, leaseMs: int, script: seq<Io>): (p: Polled)
    ensures p.used <= |script|
    ensures p.ok ==> p.used > 0
    decreases |script|
  {
    if script == [] then Polled(v, false, 0)
    else
      var o := Attempt(v, id, leaseMs, script[0]);
      if o.ok then Polled(o.view, true, 1)
      else
        var rest := Poll(o.view, id, leaseMs, script[1..]);
        rest.(used := rest.used + 1)
  }

  // ---- what a sequence of attempts amounts to -----------------------------

  /** The view after the first `k` attempts, each starting from the last one's view. */
  function After(v: View, id: Id, leaseMs: int, script: seq<Io>, k: nat): View
    requires k <= |script|
    decreases k
  {
    if k == 0 then v else Attempt(After(v, id, leaseMs, script, k - 1), id, leaseMs, script[k - 1]).view
  }

  /** The outcome of attempt `k` in such a sequence. */
  function Try(v: View, id: Id, leaseMs: int, script: seq<Io>, k: nat): Outcome
    requires k < |script|
  {
    Attempt(After(v, id, leaseMs, script, k), id, leaseMs, script[k])
  }

  /** Some attempt of the sequence succeeds. */
  predicate Succeeds(v: View, id: Id, leaseMs: int, script: seq<Io>) {
    exists k :: 0 <= k < |script| && Try(v, id, leaseMs, script, k).ok
  }

  lemma {:induction false} AfterTail(v: View, id: Id, leaseMs: int, script: seq<Io>, k: nat)
    requires 0 < k <= |script|
    ensures After(v, id, leaseMs, script, k) ==
            After(Attempt(v, id, leaseMs, script[0]).view, id, leaseMs, script[1..], k - 1)
    decreases k
  {
    hide Attempt;
    if k == 1 {
      assert After(v, id, leaseMs, script, 0) == v;
    } else {
      AfterTail(v, id, leaseMs, script, k - 1);
    }
  }

  /** What a poll does, for every script: it goes through failed fetches, failed
      writes and blocked attempts alike, one attempt at a time, stops at the
      first success, and gives up only when its context ends. */
  lemma {:induction false} PollRuns(v: View, id: Id, leaseMs: int, script: seq<Io>)
    ensures var p := Poll(v, id, leaseMs, script);
            && p.used <= |script| && p.view == After(v, id, leaseMs, script, p.used)
            && (forall k :: 0 <= k < p.used - 1 ==> !Try(v, id, leaseMs, script, k).ok)
            && (p.ok <==> p.used > 0 && Try(v, id, leaseMs, script, p.used - 1).ok)
            && (!p.ok ==> p.used == |script|)
            && (p.ok <==> Succeeds(v, id, leaseMs, script))
    decreases |script|
  {
    hide Attempt;
    var p := Poll(v, id, leaseMs, script);
    if script != [] {
      var o := Attempt(v, id, leaseMs, script[0]);
      assert Try(v, id, leaseMs, script, 0) == o;
      if !o.ok {
        var tail := script[1..];
        PollRuns(o.view, id, leaseMs, tail);
        forall k | 0 < k <= |script|
          ensures After(v, id, leaseMs, script, k) == After(o.view, id, leaseMs, tail, k - 1)
          ensures k < |script| ==> Try(v, id, leaseMs, script, k) == Try(o.view, id, leaseMs, tail, k - 1)
        {
          AfterTail(v, id, leaseMs, script, k);
        }
        if k :| 0 <= k < |tail| && Try(o.view, id, leaseMs, tail, k).ok {
          assert Try(v, id, leaseMs, script, k + 1).ok;
        }
      } else {
        assert After(v, id, leaseMs, script, 1) == o.view;
      }
    }
  }

  /** Where the poll stops is determined by what it does. */
  lemma PollIs(v: View, id: Id, leaseMs: int, script: seq<Io>, used: nat)
    requires used <= |script|
    requires forall k :: 0 <= k < used - 1 ==> !Try(v, id, leaseMs, script, k).ok
    requires used < |script| ==> used > 0 && Try(v, id, leaseMs, script, used - 1).ok
    ensures Poll(v, id, leaseMs, script) ==
            Polled(After(v, id, leaseMs, script, used), used > 0 && Try(v, id, leaseMs, script, used - 1).ok, used)
  {
    PollRuns(v, id, leaseMs, script);
    hide Poll, Try, After;
  }

  /** The writes sent by the first `k` attempts, oldest first. */
  function Sent(v: View, id: Id, leaseMs: int, script: seq<Io>, k: nat): seq<Write>
    requires k <= |script|
    decreases k
  {
    if k == 0 then []
    else
      var w := Try(v, id, leaseMs, script, k - 1).write;
      Sent(v, id, leaseMs, script, k - 1) + if w.Some? then [w.value] else []
  }

  /** The view at the start of round `k` of the renew loop. */
  function RoundView(v: View, id: Id, leaseMs: int, rounds: seq<seq<Io>>, k: nat): View
    requires k <= |rounds|
    decreases k
  {
    if k == 0 then v else Poll(RoundView(v, id, leaseMs, rounds, k - 1), id, leaseMs, rounds[k - 1]).view
  }

  /** The writes sent in the first `k` rounds, oldest first. */
  function RoundSent(v: View, id: Id, leaseMs: int, rounds: seq<seq<Io>>, k: nat): seq<Write>
    requires k <= |rounds|
    decreases k
  {
    if k == 0 then []
    else
      var u := RoundView(v, id, leaseMs, rounds, k - 1);
      RoundSent(v, id, leaseMs, rounds, k - 1) +
      Sent(u, id, leaseMs, rounds[k - 1], Poll(u, id, leaseMs, rounds[k - 1]).used)
  }

  /** The holders reported when `seen` are observed one after the other. */
  function Reports(reported: Id, seen: seq<Id>): seq<Id>
    decreases |seen|
  {
    if seen == [] then []
    else
      var n := |seen| - 1;
      Reports(reported, seen[..n]) +
      if seen[n] == (if n == 0 then reported else seen[n - 1]) then [] else [seen[n]]
  }

  /** One more holder observed. */
  lemma ReportsGrow(reported: Id, seen: seq<Id>, h: Id)
    ensures Reports(reported, seen + [h]) ==
            Reports(reported, seen) + if h == LastSeen(reported, seen) then [] else [h]
  {
    assert (seen + [h])[..|seen|] == seen;
  }

  function LastSeen(reported: Id, seen: seq<Id>): Id {
    if seen == [] then reported else seen[|seen| - 1]
  }

  lemma HoldersGrow(v: View, id: Id, leaseMs: int, script: seq<Io>, k: nat)
    requires k < |script|
    ensures Holders(v, id, leaseMs, script, k + 1) ==
            Holders(v, id, leaseMs, script, k) + [After(v, id, leaseMs, script, k + 1).observed.holder]
  {
  }

  lemma RoundHoldersGrow(v: View, id: Id, leaseMs: int, rounds: seq<seq<Io>>, k: nat)
    requires k < |rounds|
    ensures RoundHolders(v, id, leaseMs, rounds, k + 1) ==
            RoundHolders(v, id, leaseMs, rounds, k) + [RoundView(v, id, leaseMs, rounds, k + 1).observed.holder]
  {
  }

  lemma NoneYet(v: View, id: Id, leaseMs: int, script: seq<Io>, reported: Id)
    ensures After(v, id, leaseMs, script, 0) == v && Sent(v, id, leaseMs, script, 0) == []
    ensures Holders(v, id, leaseMs, script, 0) == [] && Reports(reported, []) == []
  {
  }

  lemma NoRoundYet(v: View, id: Id, leaseMs: int, rounds: seq<seq<Io>>, reported: Id)
    ensures RoundView(v, id, leaseMs, rounds, 0) == v && RoundSent(v, id, leaseMs, rounds, 0) == []
    ensures RoundHolders(v, id, leaseMs, rounds, 0) == [] && Reports(reported, []) == []
  {
  }

  lemma TryAfter(v: View, id: Id, leaseMs: int, script: seq<Io>, k: nat)
    requires k < |script|
    ensures After(v, id, leaseMs, script, k + 1) == Try(v, id, leaseMs, script, k).view
    ensures Try(v, id, leaseMs, script, k) == Attempt(After(v, id, leaseMs, script, k), id, leaseMs, script[k])
    ensures var w := Try(v, id, leaseMs, script, k).write;
            Sent(v, id, leaseMs, script, k + 1) ==
            Sent(v, id, leaseMs, script, k) + if w.Some? then [w.value] else []
  {
  }

  lemma RoundAfter(v: View, id: Id, leaseMs: int, rounds: seq<seq<Io>>, k: nat)
    requires k < |rounds|
    ensures var u := RoundView(v, id, leaseMs, rounds, k);
            var p := Poll(u, id, leaseMs, rounds[k]);
            && RoundView(v, id, leaseMs, rounds, k + 1) == p.view && p.used <= |rounds[k]|
            && RoundSent(v, id, leaseMs, rounds, k + 1) ==
               RoundSent(v, id, leaseMs, rounds, k) + Sent(u, id, leaseMs, rounds[k], p.used)
            && (p.ok <==> Succeeds(u, id, leaseMs, rounds[k]))
  {
    hide Attempt, Sent;
    PollRuns(RoundView(v, id, leaseMs, rounds, k), id, leaseMs, rounds[k]);
  }

  /** The holders observed after each of the first `k` attempts. */
  function Holders(v: View, id: Id, leaseMs: int, script: seq<Io>, k: nat): (h: seq<Id>)
    requires k <= |script|
    ensures |h| == k
  {
    seq(k, n requires 0 <= n < k => After(v, id, leaseMs, script, n + 1).observed.holder)
  }

  /** The holders observed after each of the first `k` rounds. */
  function RoundHolders(v: View, id: Id, leaseMs: int, rounds: seq<seq<Io>>, k: nat): (h: seq<Id>)
    requires k <= |rounds|
    ensures |h| == k
  {
    seq(k, n requires 0 <= n < k => RoundView(v, id, leaseMs, rounds, n + 1).observed.holder)
  }

  /** A record that names nobody is up for grabs: every attempt on it writes, and
      succeeds if the write does. */
  lemma EmptyHolderWrites(v: View, id: Id, leaseMs: int, io: Io)
    requires io.got.Got? && io.got.rec.holder == ""
    ensures var o := Attempt(v, id, leaseMs, io);
            && o.ok == io.wrote && o.write.Some? && o.write.value.UpdateCall? && o.write.value.rec.holder == id
            && (io.wrote ==> IsLeader(o.view, id) && o.view.observedTime == io.ackAt)
  {
  }

  /** Answers while a record held by somebody else stays put and writes succeed. */
  predicate Quiet(script: seq<Io>, held: Record) {
    forall k :: 0 <= k < |script| ==>
                  script[k].got == Got(held) && script[k].wrote && script[k].now <= script[k].seenAt
  }

  /** With a quiet record, attempts whose clock read falls before the expiry fail
      and the first one at or after it succeeds. */
  lemma {:induction false} TakeoverAtExpiry(v: View, id: Id, leaseMs: int, held: Record, script: seq<Io>, k: nat)
    requires held.holder != "" && held.holder != id
    requires v.raw == Some(held) && v.observed.holder != id
    requires Quiet(script, held)
    requires k <= |script|
    requires forall j :: 0 <= j < k ==> script[j].now < v.observedTime + held.leaseMs as real
    requires k < |script| ==> v.observedTime + held.leaseMs as real <= script[k].now
    ensures k < |script| ==>
              Poll(v, id, leaseMs, script) ==
              Polled(Adopt(v, Record(id, leaseMs, script[k].now.Floor, script[k].now.Floor, held.transitions + 1),
                     script[k].ackAt),
                     true, k + 1)
    ensures k == |script| ==> Poll(v, id, leaseMs, script) == Polled(v, false, k)
    decreases k
  {
    if k > 0 {
      assert script[0].got == Got(held);
      assert Attempt(v, id, leaseMs, script[0]) == Outcome(v, false, None);
      assert Quiet(script[1..], held);
      TakeoverAtExpiry(v, id, leaseMs, held, script[1..], k - 1);
    }
  }

  /** Bounded takeover: from any view that does not name this node, attempts at
      most `gap` apart, answered within `delay`, that reach past the expiry end
      with leadership: the successful attempt returns within the stored duration
      plus `gap` plus `delay` of the first observation, and never before the
      stored duration has passed. */
  lemma BoundedTakeover(v: View, id: Id, leaseMs: int, held: Record, script: seq<Io>, gap: real, delay: real)
    returns (k: nat)
    requires held.holder != "" && held.holder != id && held.leaseMs > 0
    requires v.raw == Some(held) ==> v.observed.holder != id
    requires |script| > 0 && Quiet(script, held)
    requires v.raw == Some(held) ==> script[0].now < v.observedTime + held.leaseMs as real
    requires forall j :: 0 < j < |script| ==> script[j].now <= script[j - 1].now + gap
    requires forall j :: 0 <= j < |script| ==> script[j].now <= script[j].ackAt <= script[j].now + delay
    requires script[|script| - 1].now >= Observe(v, held, script[0].seenAt).observedTime + held.leaseMs as real
    ensures 0 < k < |script|
    ensures var first := Observe(v, held, script[0].seenAt).observedTime;
            && Poll(v, id, leaseMs, script).ok
            && Poll(v, id, leaseMs, script).used == k + 1
            && IsLeader(Poll(v, id, leaseMs, script).view, id)
            && Poll(v, id, leaseMs, script).view.observedTime == script[k].ackAt
            && first + held.leaseMs as real <= script[k].ackAt < first + held.leaseMs as real + gap + delay
            && first + held.leaseMs as real <= script[k].now < first + held.leaseMs as real + gap
            && forall j :: 0 <= j < k ==> script[j].now < first + held.leaseMs as real
  {
    var v1 := Observe(v, held, script[0].seenAt);
    var expiry := v1.observedTime + held.leaseMs as real;
    assert script[0].got == Got(held) && script[0].now < expiry;
    k := 1;
    while script[k].now < expiry
      invariant 0 < k < |script|
      invariant forall j :: 0 <= j < k ==> script[j].now < expiry
      decreases |script| - k
    {
      k := k + 1;
    }
    assert script[k].now <= script[k - 1].now + gap;
    assert Attempt(v, id, leaseMs, script[0]) == Outcome(v1, false, None);
    assert Quiet(script[1..], held);
    TakeoverAtExpiry(v1, id, leaseMs, held, script[1..], k - 1);
    assert script[1..][k - 1] == script[k];
  }

  /** The bounds that `New` checks, with the jitter factor as 6/5. */
  predicate AcceptedByNew(lease: real, renewDeadline: real, retryPeriod: real) {
    && lease > renewDeadline
    && 5.0 * renewDeadline > 6.0 * retryPeriod
    && lease > 0.0 && renewDeadline > 0.0 && retryPeriod > 0.0
  }

  /** The checks of `New`, in order; each failure has its own message. The last
      three parameters say whether both callbacks and the lock are there. */
  method Validate(lease: real, renewDeadline: real, retryPeriod: real, onStarted: bool, onStopped: bool, lock: bool)
    returns (r: Result<()>)
    ensures r.Ok? <==>
            && lease > renewDeadline > 1.2 * retryPeriod && lease > 0.0 && renewDeadline > 0.0 && retryPeriod > 0.0
            && onStarted && onStopped && lock
    ensures AcceptedByNew(lease, renewDeadline, retryPeriod) && onStarted && onStopped && lock <==> r.Ok?
  {
    if lease <= renewDeadline {
      return Err("leaseDuration must be greater than renewDeadline");
    }
    if renewDeadline <= 6.0 * retryPeriod / 5.0 {
      return Err("renewDeadline must be greater than retryPeriod*JitterFactor");
    }
    if lease <= 0.0 {
      return Err("leaseDuration must be greater than zero");
    }
    if renewDeadline <= 0.0 {
      return Err("renewDeadline must be greater than zero");
    }
    if retryPeriod <= 0.0 {
      return Err("retryPeriod must be greater than zero");
    }
    if !onStarted {
      return Err("OnStartedLeading callback must not be nil");
    }
    if !onStopped {
      return Err("OnStoppedLeading callback must not be nil");
    }
    if !lock {
      return Err("Lock must not be nil.");
    }
    return Ok(());
  }

  class LeaderElector {
    const id: Id
    const leaseDuration: real
    const releaseOnCancel: bool
    var observedRecord: Record
    var observedRawRecord: Option<Record>
    var observedTime: real
    var reportedLeader: Id
    /** Identities handed to OnNewLeader, oldest first. */
    var announced: seq<Id>

    ghost function Abs(): View
      reads this
    {
      View(observedRecord, observedRawRecord, observedTime)
    }

    constructor (id: Id, leaseDuration: real, releaseOnCancel: bool)
      ensures this.id == id && this.leaseDuration == leaseDuration && this.releaseOnCancel == releaseOnCancel
      ensures Abs() == FRESH_VIEW && reportedLeader == "" && announced == []
    {
      this.id, this.leaseDuration, this.releaseOnCancel := id, leaseDuration, releaseOnCancel;
      observedRecord, observedRawRecord, observedTime := NO_RECORD, None, 0.0;
      reportedLeader, announced := "", [];
    }

    method SetObservedRecord(rec: Record, t: real)
      modifies this`observedRecord, this`observedTime
      ensures Abs() == Adopt(old(Abs()), rec, t)
    {
      observedRecord := rec;
      observedTime := t;
    }

    method TryAcquireOrRenew(io: Io) returns (ok: bool, write: Option<Write>)
      modifies this`observedRecord, this`observedRawRecord, this`observedTime
      ensures io.got.Failed? ==> !ok && write == None && Abs() == old(Abs())
      ensures io.got.Missing? ==>
                && ok == io.wrote && observedRawRecord == old(observedRawRecord)
                && write == Some(CreateCall(Record(id, leaseDuration.Floor, io.now.Floor, io.now.Floor, 0)))
                && (!ok ==> Abs() == old(Abs()))
      ensures io.got.Got? ==>
                var fetched, lease, now := io.got.rec, leaseDuration.Floor, io.now.Floor;
                var same := old(observedRawRecord) == Some(fetched);
                var seen := if same then old(observedRecord) else fetched;
                var at := if same then old(observedTime) else io.seenAt;
                var held := fetched.holder != "" && at + fetched.leaseMs as real > io.now && seen.holder != id;
                && observedRawRecord == Some(fetched)
                && ok == (!held && io.wrote) && (write.None? <==> held)
                && (!held && seen.holder == id ==>
                      write == Some(UpdateCall(Record(id, lease, fetched.acquireMs, now, fetched.transitions))))
                && (!held && seen.holder != id ==>
                      write == Some(UpdateCall(Record(id, lease, now, now, fetched.transitions + 1))))
                && (!ok ==> observedRecord == seen && observedTime == at)
      ensures ok ==> observedRecord == write.value.rec && observedTime == io.ackAt
      ensures Outcome(Abs(), ok, write) == Attempt(old(Abs()), id, leaseDuration.Floor, io)
    {
      var rec := Record(id, leaseDuration.Floor, io.now.Floor, io.now.Floor, 0);
      match io.got {
        case Failed => return false, None;
        case Missing =>
          if !io.wrote {
            return false, Some(CreateCall(rec));
          }
          SetObservedRecord(rec, io.ackAt);
          return true, Some(CreateCall(rec));
        case Got(fetched) =>
          if observedRawRecord != Some(fetched) {
            SetObservedRecord(fetched, io.seenAt);
            observedRawRecord := Some(fetched);
          }
          if fetched.holder != "" && observedTime + fetched.leaseMs as real > io.now && observedRecord.holder != id {
            return false, None;
          }
          if observedRecord.holder == id {
            rec := rec.(acquireMs := fetched.acquireMs, transitions := fetched.transitions);
          } else {
            rec := rec.(transitions := fetched.transitions + 1);
          }
          if !io.wrote {
            return false, Some(UpdateCall(rec));
          }
          SetObservedRecord(rec, io.ackAt);
          return true, Some(UpdateCall(rec));
      }
    }

    /** Reports a leader exactly when it differs from the last one reported. */
    method MaybeReportTransition()
      modifies this`reportedLeader, this`announced
      ensures reportedLeader == observedRecord.holder
      ensures announced == old(announced) +
                           (if old(reportedLeader) == observedRecord.holder then [] else [observedRecord.holder])
    {
      if observedRecord.holder == reportedLeader {
        return;
      }
      reportedLeader := observedRecord.holder;
      announced := announced + [reportedLeader];
    }

    /** Polls until an attempt succeeds, with a report after each attempt;
        announcements never repeat. */
    method Acquire(script: seq<Io>) returns (ok: bool, used: nat, sent: seq<Write>)
      requires Alternating(announced, reportedLeader)
      modifies this
      ensures Polled(Abs(), ok, used) == Poll(old(Abs()), id, leaseDuration.Floor, script)
      ensures sent == Sent(old(Abs()), id, leaseDuration.Floor, script, used)
      ensures announced == old(announced) +
                           Reports(old(reportedLeader), Holders(old(Abs()), id, leaseDuration.Floor, script, used))
      ensures Alternating(announced, reportedLeader)
      ensures used > 0 ==> reportedLeader == observedRecord.holder
    {
      hide Attempt, After, Try, Sent, Holders, Reports, Alternating, Poll;
      NoneYet(Abs(), id, leaseDuration.Floor, script, reportedLeader);
      ghost var v := old(Abs());
      ghost var leaseMs := leaseDuration.Floor;
      ok, used, sent := false, 0, [];
      while used < |script| && !ok
        invariant used <= |script| && Abs() == After(v, id, leaseMs, script, used)
        invariant ok <==> used > 0 && Try(v, id, leaseMs, script, used - 1).ok
        invariant forall k :: 0 <= k < used - 1 ==> !Try(v, id, leaseMs, script, k).ok
        invariant sent == Sent(v, id, leaseMs, script, used)
        invariant announced == old(announced) + Reports(old(reportedLeader), Holders(v, id, leaseMs, script, used))
        invariant Alternating(announced, reportedLeader)
        invariant reportedLeader == LastSeen(old(reportedLeader), Holders(v, id, leaseMs, script, used))
        invariant used > 0 ==> reportedLeader == observedRecord.holder
      {
        TryAfter(v, id, leaseMs, script, used);
        HoldersGrow(v, id, leaseMs, script, used);
        ReportsGrow(old(reportedLeader), Holders(v, id, leaseMs, script, used),
                    After(v, id, leaseMs, script, used + 1).observed.holder);
        AlternatingGrows(announced, reportedLeader, After(v, id, leaseMs, script, used + 1).observed.holder);
        var write;
        ok, write := TryAcquireOrRenew(script[used]);
        sent := sent + if write.Some? then [write.value] else [];
        MaybeReportTransition();
        used := used + 1;
      }
      PollIs(v, id, leaseMs, script, used);
    }

    /** The renew loop, then the release that follows it when configured.
        `releaseIo` answers the release's Update: its clock read, whether it
        succeeded, and when. `ran` counts the rounds made: the loop ends with the
        first round that has no success, or when its context ends. */
    method Renew(rounds: seq<seq<Io>>, releaseNow: real, releaseOk: bool, releaseAck: real)
      returns (released: Option<Record>, ran: nat, sent: seq<Write>)
      requires Alternating(announced, reportedLeader)
      modifies this
      ensures ran <= |rounds|
      ensures forall k :: 0 <= k < ran - 1 ==>
                            Succeeds(RoundView(old(Abs()), id, leaseDuration.Floor, rounds, k), id,
                                     leaseDuration.Floor, rounds[k])
      ensures ran < |rounds| ==>
                && ran > 0
                && !Succeeds(RoundView(old(Abs()), id, leaseDuration.Floor, rounds, ran - 1), id,
                             leaseDuration.Floor, rounds[ran - 1])
      ensures sent == RoundSent(old(Abs()), id, leaseDuration.Floor, rounds, ran)
      ensures var v := RoundView(old(Abs()), id, leaseDuration.Floor, rounds, ran);
              && (released.Some? <==> releaseOnCancel && IsLeader(v, id))
              && (released.Some? ==>
                    && released.value.holder == id && released.value.leaseMs == 1
                    && released.value.acquireMs == released.value.renewMs == releaseNow.Floor
                    && released.value.transitions == v.observed.transitions)
              && Abs() == (if released.Some? && releaseOk then Adopt(v, released.value, releaseAck) else v)
              && (ran > 0 ==> reportedLeader == v.observed.holder)
      ensures announced ==
              old(announced) +
              Reports(old(reportedLeader), RoundHolders(old(Abs()), id, leaseDuration.Floor, rounds, ran))
      ensures Alternating(announced, reportedLeader)
    {
      hide Attempt, Poll, Sent, Succeeds, RoundView, RoundSent, RoundHolders, Reports, Alternating;
      NoRoundYet(Abs(), id, leaseDuration.Floor, rounds, reportedLeader);
      ghost var v := old(Abs());
      ghost var leaseMs := leaseDuration.Floor;
      var going := true;
      ran, sent := 0, [];
      while ran < |rounds| && going
        invariant ran <= |rounds| && Abs() == RoundView(v, id, leaseMs, rounds, ran)
        invariant forall k :: 0 <= k < ran - 1 ==>
                                Succeeds(RoundView(v, id, leaseMs, rounds, k), id, leaseMs, rounds[k])
        invariant going <==> (ran > 0 ==> Succeeds(RoundView(v, id, leaseMs, rounds, ran - 1), id, leaseMs,
                                                   rounds[ran - 1]))
        invariant sent == RoundSent(v, id, leaseMs, rounds, ran)
        invariant announced == old(announced) + Reports(old(reportedLeader), RoundHolders(v, id, leaseMs, rounds, ran))
        invariant Alternating(announced, reportedLeader)
        invariant reportedLeader == LastSeen(old(reportedLeader), RoundHolders(v, id, leaseMs, rounds, ran))
        invariant ran > 0 ==> reportedLeader == observedRecord.holder
      {
        RoundAfter(v, id, leaseMs, rounds, ran);
        RoundHoldersGrow(v, id, leaseMs, rounds, ran);
        ReportsGrow(old(reportedLeader), RoundHolders(v, id, leaseMs, rounds, ran),
                    RoundView(v, id, leaseMs, rounds, ran + 1).observed.holder);
        AlternatingGrows(announced, reportedLeader, RoundView(v, id, leaseMs, rounds, ran + 1).observed.holder);
        var used, writes;
        going, used, writes := PollRound(rounds[ran]);
        sent := sent + writes;
        MaybeReportTransition();
        ran := ran + 1;
      }
      released := None;
      if releaseOnCancel {
        var done;
        released, done := ReleaseLease(releaseNow, releaseOk, releaseAck);
      }
    }

    /** One bounded poll inside the renew loop. */
    method PollRound(script: seq<Io>) returns (ok: bool, used: nat, sent: seq<Write>)
      modifies this`observedRecord, this`observedRawRecord, this`observedTime
      ensures Polled(Abs(), ok, used) == Poll(old(Abs()), id, leaseDuration.Floor, script)
      ensures sent == Sent(old(Abs()), id, leaseDuration.Floor, script, used)
    {
      ghost var v := old(Abs());
      ghost var leaseMs := leaseDuration.Floor;
      ok, used, sent := false, 0, [];
      while used < |script| && !ok
        invariant used <= |script| && Abs() == After(v, id, leaseMs, script, used)
        invariant ok <==> used > 0 && Try(v, id, leaseMs, script, used - 1).ok
        invariant forall k :: 0 <= k < used - 1 ==> !Try(v, id, leaseMs, script, k).ok
        invariant sent == Sent(v, id, leaseMs, script, used)
      {
        hide Attempt;
        var write;
        ok, write := TryAcquireOrRenew(script[used]);
        sent := sent + if write.Some? then [write.value] else [];
        used := used + 1;
      }
      PollIs(v, id, leaseMs, script, used);
    }

    method ReleaseLease(now: real, wrote: bool, ackAt: real) returns (write: Option<Record>, ok: bool)
      modifies this`observedRecord, this`observedTime
      ensures !IsLeader(old(Abs()), id) ==> write == None && ok && Abs() == old(Abs())
      ensures IsLeader(old(Abs()), id) ==>
                && ok == wrote && write.Some?
                && write.value.holder == id && write.value.leaseMs == 1
                && write.value.acquireMs == write.value.renewMs == now.Floor
                && write.value.transitions == old(observedRecord).transitions
                && write.value == ReleaseRecord(old(Abs()), 1, now)
                && Abs() == if wrote then Adopt(old(Abs()), write.value, ackAt) else old(Abs())
    {
      if observedRecord.holder != id {
        return None, true;
      }
      var rec := Record(observedRecord.holder, 1, now.Floor, now.Floor, observedRecord.transitions);
      if !wrote {
        return Some(rec), false;
      }
      SetObservedRecord(rec, ackAt);
      return Some(rec), true;
    }

    /** Healthy unless this node leads a lease expired by more than `tolerance`. */
    method Check(now: real, tolerance: real) returns (healthy: bool)
      ensures healthy <==> observedRecord.holder != id || now - observedTime <= leaseDuration + tolerance
      ensures healthy <==> Healthy(Abs(), id, leaseDuration, now, tolerance)
    {
      if observedRecord.holder != id {
        return true;
      }
      healthy := !(now - observedTime > leaseDuration + tolerance);
    }
  }

  predicate Healthy(v: View, id: Id, lease: real, now: real, tolerance: real) {
    IsLeader(v, id) ==> now - v.observedTime <= lease + tolerance
  }

  /** Announcements end with the reported leader and no two neighbours agree. */
  predicate Alternating(announced: seq<Id>, reported: Id) {
    && (if announced == [] then reported == "" else announced[0] != "" && announced[|announced| - 1] == reported)
    && forall j :: 0 < j < |announced| ==> announced[j - 1] != announced[j]
  }

  lemma AlternatingGrows(announced: seq<Id>, reported: Id, h: Id)
    requires Alternating(announced, reported)
    ensures Alternating(announced + (if reported == h then [] else [h]), h)
  {
  }
}
