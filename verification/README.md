# Lease election, modelled and proved

A Dafny model of the `leaderelection` library: the elector that takes, renews and
releases a lease, the gossip store, and the S3 and Kubernetes locks.

## What is modelled

* **The elector** (`Elector.dfy`). A class with the fields of `LeaderElector`; lock
  answers and clock readings are parameters. Its methods equal pure functions
  (`Observe`, `Blocked`, `Proposal`, `Attempt`, `Poll`) that the protocol
  reuses; `Refinement.dfy` shows that the protocol's separate steps add up to one
  call of the method. The raw record bytes are represented by the record they encode.
* **The protocol** (`Protocol.dfy`). Any number of electors share one register, which
  is the sequence of writes it accepted; its version is the length of that sequence.
  An attempt is split into clock read, fetch, decision, landing and acknowledgement.
  A request stays in flight after its sender gave up, so it can land late, or land
  with its answer lost; it lands only while the version it expects is current.
  Clocks are reals in milliseconds, one per node. Time passes by ticks that carry one
  advance per node, any two within the factor `ratio`, and that do not take a leader
  beyond the renew deadline of its round. A success counts only within `latency` of
  its clock read. "Leading" means being inside the renew loop.
* **The proofs about it.** `Invariant.dfy`: what every step keeps. `Exclusion.dfy` and
  `Tightness.dfy`: at most one leader, and exactly when. `History.dfy`: transition
  counts, acquire times, fair takeovers, releases, health. `Skew.dfy`: clock offsets.
* **Gossip**. `Codec.dfy`: both byte formats, read and written. `Lww.dfy`: the merge of
  one key. `Delegate.dfy`: a node as a class. `Gossip.dfy`, `Convergence.dfy`,
  `Flooding.dfy`: a cluster with delay, duplication, reordering and loss.
* **Lock backends**. `S3.dfy`: the entity-tag protocol as separate requests; `S3Electors.dfy`:
  electors on it, over whole runs. `K8s.dfy`: optimistic concurrency and the
  conversion to Lease specs.

## What the proofs say about the code

* Exclusion needs more than `New` asks. Write L for the latency, P for RetryPeriod, R
  for RenewDeadline. A node may lead until W = R + max(L, min(L, R) + P) after the clock
  read behind its last write. With at least two nodes, exclusion holds in all runs if and
  only if each stored lease is at least ratio × (W + 1 ms). `New` compares LeaseDuration
  with R only: leases of 11 s with R = 10 s and P = 2 s are accepted and admit two leaders
  with perfect clocks and instant answers. The extra millisecond is there because record
  times are whole milliseconds, so two renewals within one look alike to others.
* The package comment's rule of thumb, a lease to deadline ratio equal to the clock rate
  ratio, leaves out the retry period and the latency.
* `interface.go` says a node that steps down empties the holder; the code keeps it and
  stores a lease of 1 ms (1 s on Kubernetes). The model follows the code.
* `Check` can report a healthy leader as failed unless LeaseDuration plus the tolerance
  covers RetryPeriod + RenewDeadline; this condition is exact too.
* The gossip map converges for every order and repetition of deliveries if and only if no
  entry of another value is stamped between, or together with, two entries of one
  value. While that holds over a whole run, a node stores the newest value it has seen in
  every state if and only if none of its own sets is stamped before the entry it replaces;
  a run with such a stale set may still end in agreement after another delivery.
* Re-broadcasts of pure deliveries are bounded if and only if no two values tie. Over whole
  runs the bound also grows with the node's own stale sets; without a limit on those,
  nothing but a single value bounds them. Deletes and messages of unknown type are queued
  again each time they arrive for an absent key, so nothing bounds their re-broadcasts.
* A gossip `set` of the value already stored but not yet confirmed keeps the map locked
  while it waits, so no echo can confirm it.
* On S3, when each Put gets a fresh tag, a Put replaces the version its node last fetched
  or wrote if and only if nothing was put since its check and the version whose tag is
  cached is no newer than that one; a Get that fails after its Stat can make it newer.
  Runs in which all Puts do so reach only states of the register protocol, so the exclusion
  bound is enough there. In others two first attempts can both create the record, so exclusion fails for
  all settings.
* Kubernetes cuts leases to whole seconds, which can break exclusion by itself, and wraps
  their milliseconds to 32 bits, after which longer leases can be stored as negative.

## Model

| member | source | states |
|---|---|---|
| Elector.Validate | leaderelection.go:75-98 | the configuration is accepted exactly when the lease exceeds the renew deadline, the deadline exceeds 6/5 of the retry period, all are positive, and both callbacks and the lock are there |
| Elector.LeaderElector.constructor | leaderelection.go:101-107 | a new elector has observed nothing and reported nobody |
| Elector.LeaderElector.SetObservedRecord | leaderelection.go:401-407 | record and time are replaced, the raw form is not |
| Elector.LeaderElector.TryAcquireOrRenew | leaderelection.go:314-371 | for every combination of lock answers: nothing happens on a failed fetch, a missing record is created, a record of somebody else that has not expired blocks, any other is renewed or taken over; the raw form becomes the fetched one, and the written record is adopted on success only |
| Elector.LeaderElector.MaybeReportTransition | leaderelection.go:373-381 | the reported leader follows the observed holder and a callback is made exactly on a change |
| Elector.LeaderElector.Acquire | leaderelection.go:239-258 | the attempts, their views and their writes are those of a poll; the holder is reported after every attempt exactly when it has changed |
| Elector.PollRuns | leaderelection.go:245-256 | for every script a poll goes through failed fetches, failed writes and blocked attempts one by one, stops at the first success and at nothing else, and gives up only when its context ends |
| Elector.EmptyHolderWrites | leaderelection.go:340-366 | every attempt on a record that names nobody writes, and leads if the write succeeds |
| Elector.LeaderElector.PollRound | leaderelection.go:268-270 | one round of the renew loop is a poll, with its views and writes |
| Elector.LeaderElector.Renew | leaderelection.go:261-287 | every round but the last has a successful attempt; a loop that ends before its context does ends with a round that has none, and nothing is written after it but the release, which is sent exactly when configured and observed as own, with a 1 ms lease; the holder is reported after every round |
| Elector.LeaderElector.ReleaseLease | leaderelection.go:290-309 | nothing is written unless this node is the observed leader; the record keeps holder and count, lasts 1 ms and is stamped now, and the view changes only on success |
| Elector.LeaderElector.Check | leaderelection.go:384-397 | nil exactly when another holder is observed or no more than lease plus tolerance has passed since the observed time |
| Elector.TakeoverAtExpiry | leaderelection.go:340-371 | against a record that stays put, every attempt with a clock read before observed time plus duration fails, the first one at or after it succeeds |
| Elector.BoundedTakeover | leaderelection.go:239-258 | attempts at most a gap apart and answered within a delay end in leadership: the successful attempt returns within duration plus gap plus delay of the first observation, and never before the duration has passed |
| Refinement.BlockedAttempt | leaderelection.go:340-351 | the protocol's decision not to write is the method returning false with the same view |
| Refinement.WritingAttempt | leaderelection.go:353-371 | the protocol's request is the method's write; acknowledgement and giving up leave the method's view after success and error |
| Refinement.FailedAttempt | leaderelection.go:324-329 | a failed fetch is the method's early return |
| Refinement.ReleaseSteps | leaderelection.go:290-309 | the protocol's release is the method's record, and its answers leave the method's view |
| Refinement.AttemptGap | leaderelection.go:243-281 | the attempt after a failed one in the acquire loop, and after a success in the renew loop, starts a retry period later at the earliest; the first renewal follows acquisition at once |
| Invariant.LookDecides | leaderelection.go:340-360 | after comparing raw forms a node considers itself leader exactly when the fetched write is its own, and its observed count is the fetched one |
| Invariant.TransitionsGrow | leaderelection.go:353-360 | stored transition counts never decrease |
| Invariant.ComposeProper | leaderelection.go:316-360 | the record an unblocked attempt writes properly succeeds the one fetched: a renewal keeps count and acquire time, a takeover adds one and waited out the stored lease |
| Invariant.DecideKeeps | leaderelection.go:340-366 | the decision keeps the node's invariant and sends only proper successors |
| Invariant.AckKeeps | leaderelection.go:369-370 | adopting an own write keeps the node's invariant although the raw form is left stale |
| Invariant.ReleaseKeeps | leaderelection.go:294-302 | a release sent on the cached version is a proper successor of the node's own write |
| Invariant.DoKeeps | leaderelection.go:239-371 | every action keeps the invariant of the node that takes it |
| Invariant.LandKeeps | leaderelection.go:362-366 | a landing write, late or unacknowledged, keeps every node's invariant |
| Invariant.NextInv | leaderelection.go:239-371 | every event keeps the global invariant |
| Invariant.ReachableInv | leaderelection.go:239-371 | the global invariant holds in every reachable state |
| Exclusion.TakeoverSpent | leaderelection.go:341-351 | under the bound, when a takeover is decided on the stored record its writer can no longer lead by it |
| Exclusion.LandOther | leaderelection.go:362-371 | a foreign write that lands meets no node still in its renew loop |
| Exclusion.AckLead | leaderelection.go:265-281 | a success opens a round that starts no later than the allowed slack after the clock read behind the stored write |
| Exclusion.NextSafe | leaderelection.go:239-371 | every event keeps the timing invariant under the bound |
| Exclusion.ExclusionHolds | leaderelection.go:17-36 | under the bound, in every reachable state at most one node is in the renew loop, and it is the stored holder |
| Tightness.TwoLeaders | leaderelection.go:76-81 | with at least two nodes, whenever a stored lease misses the bound some run has two leaders |
| Tightness.ExclusionIff | leaderelection.go:28-36 | with at least two nodes, no run has two leaders if and only if every stored lease is at least ratio × (window + 1 ms) |
| Tightness.AcceptedButNotExclusive | leaderelection.go:76-90 | a configuration that `New` accepts, with ratio 1 and latency 0, that reaches two leaders |
| History.TransitionsExact | leaderelection.go:353-360 | the stored LeaderTransitions equals the number of holder changes since creation |
| History.AcquireTimeStable | leaderelection.go:355-357 | AcquireTime stays the taker's own clock read through all renewals until a release |
| History.NoEarlyTakeover | leaderelection.go:341-371 | a new holder had last refreshed its view with exactly the record it replaced and waited that record's full duration on its own clock since; at that same moment the record's holder had already reached its renew time on its own clock; and it replaced exactly the version it fetched |
| History.ReleaseReplacesOwn | leaderelection.go:290-309 | a release only replaces a record naming the releasing node, keeps its count, stores the short release duration and stamps its own clock |
| History.ReleaseFrees | leaderelection.go:290-351 | whoever fetches a release writes, unless its clock read lies less than the release duration after its own first look at it |
| History.LeaderAtDecision | leaderelection.go:340-355 | at the decision point IsLeader is true exactly when the fetched record names this node, in every reachable state |
| History.HealthyInLoop | leaderelection.go:384-397 | Check returns nil in the renew loop if lease plus tolerance covers retry period plus renew deadline |
| History.HealthyIff | leaderelection.go:261-281 | for each tolerance, in all runs if and only if it does |
| History.StandbyHealthy | leaderelection.go:385-395 | an error names a node that observes itself as holder, more than lease plus tolerance after its observed time |
| History.RoundWithoutSuccess | leaderelection.go:261-287 | in every run, without an acknowledged success a leader gets past the deadline of its round only by leaving the loop, and then sends nothing but the release |
| Skew.ProposalShift | leaderelection.go:315-360 | moving a node's clock moves the record it writes, since a leader only keeps the acquire time of its own record |
| Skew.NextShift | leaderelection.go:314-371 | an event enabled in a state is enabled in the shifted state and leads to the shifted outcome |
| Skew.OffsetInvariance | leaderelection.go:22-28 | with any whole-millisecond offset per clock the same event sequences are runs, with the same holders, leaders, durations and counts, clocks and stored times staying apart by the offsets |
| Codec.ActionRoundTrip | gossip/action.go:51-71 | decoding an encoded message returns it, for NUL-free keys and signed 64-bit times |
| Codec.ActionOnto | gossip/action.go:62-71 | every buffer that decodes is the encoding of its result |
| Codec.SetMessageBytes | gossip/action.go:27-60 | the bytes of every set message by position: type 1, the time little-endian in two's complement, key, NUL, value |
| Codec.EntryBytes | gossip/kv.go:40-51 | the bytes of every entry by position: key, NUL, time and value length big-endian, value |
| Codec.ItemRoundTrip | gossip/kv.go:40-63 | decoding an encoded entry followed by any tail returns it with its exact length, at least 17 |
| Codec.ItemOnto | gossip/kv.go:53-63 | the bytes used by a decode are the encoding of its result |
| Codec.SnapshotRoundTrip | gossip/delegate.go:110-129 | the merge loop recovers every concatenated entry |
| Codec.ActionBuffer.Encode | gossip/action.go:51-60 | fails exactly on a NUL in the key, else yields bytes that decode to the message |
| Codec.ActionBuffer.Decode | gossip/action.go:62-71 | reads a message, leaves the receiver alone on an empty buffer and fails exactly where a bound panics |
| Codec.EntryBuffer.Encode | gossip/kv.go:40-51 | fails exactly on a NUL in the key, else yields bytes that decode to the entry |
| Codec.EntryBuffer.Decode | gossip/kv.go:53-63 | reads one entry and its length, or fails exactly where a bound panics |
| Lww.ConvergenceIff | gossip/delegate.go:132-145 | for one key, delivering the same entries in any order and number gives one value if and only if the entries are separated |
| Lww.OneToOneSeparated | gossip/delegate.go:132-145 | one timestamp per value and one value per timestamp make the entries separated |
| Lww.SeparatedNoTies | gossip/delegate.go:72-95 | separated entries never tie, so the same hypothesis also bounds re-broadcasts |
| Lww.FloodIff | gossip/delegate.go:72-95 | re-broadcasts of a key are bounded over all deliveries if and only if no two values tie; the bound is the number of timestamps |
| Lww.ExchangeIff | gossip/delegate.go:132-145 | a two-way exchange of one key ends equal if and only if the two sides are not different values with one timestamp |
| Delegate.Node.MaybeClose | gossip/delegate.go:219-227 | closes a channel once and reports whether this call did it |
| Delegate.Node.NotifyMsg | gossip/delegate.go:62-96 | old messages change nothing, echoes only confirm, and neither is queued; newer values are stored confirmed, deletes remove, other types store nothing, and all three are queued once |
| Delegate.Node.LocalState | gossip/delegate.go:105-115 | in any iteration order the snapshot decodes to exactly the stored entries |
| Delegate.Node.MergeRemoteState | gossip/delegate.go:117-147 | the map after merging equals offering the decoded entries one by one, up to the first malformed one |
| Delegate.Node.Absorb | gossip/delegate.go:132-145 | one decoded entry is skipped, confirms, or is stored confirmed |
| Delegate.Node.SetBegin | gossip/delegate.go:166-184 | an equal value waits on the stored entry, any other is stored unconfirmed and queued in a form that decodes to it |
| Delegate.Node.SetTick | gossip/delegate.go:185-195 | a cluster of one member confirms the waiting set |
| Delegate.Node.Await | gossip/delegate.go:185-202 | nil only on a confirmed channel, an error only when the context is done, either when both are ready, and a wait exactly while neither is |
| Delegate.Node.GetDone | gossip/delegate.go:149-164 | a read returns the value of the entry it found only once that entry is confirmed, does so whenever it is and the context is not done, and ends with the context otherwise |
| Delegate.OfferCells | gossip/delegate.go:132-145 | an incoming entry touches only its key, by the merge law including confirmation |
| Delegate.MergeIsPointwise | gossip/delegate.go:105-147 | merging another node's state is the pointwise last-writer-wins merge for every iteration order |
| Delegate.MergeIsDelivery | gossip/delegate.go:62-96 | merging entries equals delivering them as set messages |
| Delegate.MergeSelf | gossip/delegate.go:105-147 | merging one's own state changes confirmations only |
| Delegate.ExchangeAgrees | gossip/delegate.go:105-147 | a simultaneous two-way push/pull leaves equal values on every key if and only if no key has two values with one timestamp |
| Gossip.ConfirmationSound | gossip/delegate.go:62-96 | in every run every confirmed channel was made for a key and value that another node has stored, or the cluster was seen with one member |
| Gossip.SetSound | gossip/delegate.go:166-203 | whenever in any run the channel of a set is confirmed, which is when it returns nil, another node has stored exactly its value for its key, or the cluster was seen with one member |
| Gossip.GetSound | gossip/delegate.go:149-164 | whatever value a read answers with, however long it waited, is that of the entry found and was stored by another node, or the cluster was seen with one member |
| Gossip.DeliverIsReceive | gossip/delegate.go:62-96 | a delivered message leaves the map and channels that handling it leaves, and is under way again exactly when the node queues it |
| Gossip.StepIsNode | gossip/delegate.go:117-184 | a delivered snapshot leaves what merging it leaves, and a set what the node's set leaves, with a message under way exactly for a new value |
| Gossip.SetChannel | gossip/delegate.go:166-184 | a set waits on a channel made for exactly its key and value, unconfirmed when new |
| Gossip.OverwrittenNeverConfirmed | gossip/delegate.go:62-203 | in every run, once another set or a delivered newer entry replaces an unconfirmed entry, the set that waits on it never reports success except on the one-member path |
| Gossip.BlockedIsOwn | gossip/delegate.go:62-184 | in every run a read can block only on an entry that its own node has set |
| Gossip.RepeatedSetLocks | gossip/delegate.go:166-176 | two sets of one value from the start lock the map on an unconfirmed channel |
| Gossip.RepeatedSetBlocks | gossip/delegate.go:168-176 | a repeated set of an unconfirmed value keeps the map locked and unconfirmed until its context or a one-member look ends it |
| Convergence.Converges | gossip/delegate.go:62-147 | in every run with separated entries, any two nodes whose own sets were fresh store the greatest-timestamp value they have seen, agree once they have seen the same, and store the newest once everything has reached them, whatever the other clocks do |
| Convergence.ReadsAgree | gossip/lock.go:43-54 | any two reads begun at such nodes after everything has reached them return the same, newest value whenever both return one, and find the key absent on both or on neither |
| Convergence.HoldsIffFresh | gossip/delegate.go:62-184 | with separated entries, a node stores the greatest-timestamp value it has seen in every state of a run if and only if none of its own sets is stamped before the entry it replaces |
| Convergence.StaleSetDiverges | gossip/delegate.go:178-181 | a set stamped before the entry it replaces leaves two nodes apart although all is delivered |
| Flooding.FloodingEnds | gossip/delegate.go:72-95 | in every run without ties a node queues messages of a key again at most once per timestamp ever set for it, and as often once more for each of its own stale sets |
| Flooding.EchoesBounded | gossip/delegate.go:72-95 | handling any sequence of set messages without ties, a node queues a key again at most once per timestamp newer than what it stores |
| Flooding.OthersEcho | gossip/delegate.go:86-95 | on an absent key a delete or a message of unknown type is queued again every time it arrives |
| Flooding.StaleSetsFlood | gossip/delegate.go:72-95 | stale sets of one node over two untied entries exceed every number of re-broadcasts |
| Flooding.FloodRunsIff | gossip/delegate.go:72-95 | for any allowance of stale sets, a node's re-broadcasts of a key are bounded over all runs if and only if no two values tie |
| Flooding.UnlimitedFloodIff | gossip/delegate.go:72-184 | with no limit on stale sets they are bounded over all runs if and only if every entry that may be set for the key has the same value |
| S3.Lock.Get | s3/s3.go:62-84 | the cached tag is Stat's, kept when missing and cleared by another error, whatever the body read does |
| S3.Lock.Set | s3/s3.go:104-127 | the body is put exactly when Stat's tag equals the cached one; the tag moves on only with success |
| S3.MatchCertifies | s3/s3.go:62-84 | if no replaced tag returns, a matching check certifies the record last fetched or written, even after a write between Get's Stat and body read, unless the cached tag is newer than that record, which takes a Get that failed after its Stat |
| S3.PutIsCas | s3/s3.go:104-127 | with nothing put since the check and a cached tag no newer than the record last fetched or written, a Put replaces exactly that record |
| S3.PutIsCasIff | s3/s3.go:62-127 | with a fresh tag per Put, the version replaced is the one last fetched or written if and only if no Put landed after the check and the cached tag's version is no newer than it |
| S3.BothCreate | s3/s3.go:113-126 | two nodes pass the check on the missing object and the second replaces the first's record unseen |
| S3.TornGet | s3/s3.go:66-82 | after a Get that fails past its Stat, a set replaces a record never fetched |
| S3.HarmlessTornGet | s3/s3.go:66-82 | such a Get is harmless when the object is the one already fetched or written |
| S3.TwoLeadersOnS3 | s3/s3.go:104-127 | whatever the durations, two first attempts both succeed in creating the record and both electors believe they lead |
| S3Electors.CleanRunRefines | s3/s3.go:62-127 | a run of electors on S3 in which every Put, late ones included, gets a fresh tag and replaces the version last fetched or written reaches only states of the register protocol |
| S3Electors.CleanIff | s3/s3.go:62-127 | in such a run a checked Put is of that kind if and only if no Put landed since the check and the tag checked is no newer than the version last fetched or written |
| S3Electors.CleanExclusion | leaderelection.go:17-36 | under the bound, at most one node is in the renew loop in every such run, and it is the stored holder |
| S3Electors.RacyTwoLeaders | s3/s3.go:104-127 | without that, some run has two nodes in the renew loop, for all settings |
| K8s.StoredRecord | k8s/k8s.go:165-199 | storing keeps holder and times, keeps a 32-bit count, and cuts a duration to whole seconds, at least one |
| K8s.StoredIffExact | k8s/k8s.go:165-199 | a record survives storage unchanged if and only if count and duration fit 32 bits and the duration is a non-zero number of whole seconds |
| K8s.StoredIdempotent | k8s/k8s.go:165-199 | storing twice is storing once, for every record |
| K8s.SpecRoundTrip | k8s/k8s.go:165-199 | a spec survives reading and writing back exactly when every field is present and in range |
| K8s.LeaseLock.Get | k8s/k8s.go:92-107 | on success the current record is returned and its version cached; a missing object and other errors change nothing |
| K8s.LeaseLock.Create | k8s/k8s.go:110-120 | the write lands exactly on an empty server; after an error the cached object is blank |
| K8s.LeaseLock.Update | k8s/k8s.go:123-139 | the write lands exactly when the cached version is current; the cached version moves on only with a received success |
| K8s.KubernetesExclusion | k8s/k8s.go:186-191 | on Kubernetes no run has two leaders if and only if the durations cut to whole seconds meet the bound; durations whose milliseconds wrap to a negative number never do |
| K8s.StoredDuration | k8s/k8s.go:186-190 | a duration is cut to whole seconds, at least one, while its milliseconds fit 32 bits, and is negative or starts over beyond |
| K8s.RoundingBreaksExclusion | k8s/k8s.go:186-190 | durations that exclude on a backend storing milliseconds do not on Kubernetes |

## Left out

- `git/lock.go`: it rests on go-git pull, push and checkout semantics that are not part of this model.
- `gossip/internal/dns`: name resolution, unrelated to the election.
- Exclusion over the gossip lock: its Update is an unconditional set, so only agreement after delivery is claimed.
- Gossip deletes over whole runs: `Node.NotifyMsg` handles them as the code does, but there are no tombstones and the election never deletes; the runs carry set messages only.
- Replacement of queued broadcasts by newer ones of the same key, retransmit limits, node metadata and member discovery: a packet once sent may be delivered any number of times, or never.
- Convergence.Converges: speaks of what nodes store; a read also waits for the confirmation of the entry it found, which by `Gossip.BlockedIsOwn` can take time only for an entry set by its own node and may never come if messages are lost. `Convergence.ReadsAgree` says what reads return.
- The converse of `S3Electors.CleanRunRefines`: that every run of the register protocol is a clean run on S3.
- Timers that fire late: the next round of the renew loop starts exactly one retry period after a success (leaderelection.go:265-281). A late timer of `wait.Until` would move the whole round, and with it the window that the exclusion bound rests on.
- The ticker and the condition of a waiting call: how often a set looks at the cluster size and when a waiting call is woken.
- Deletion of the stored record and writers other than the electors.
- JSON text: raw bytes are represented by the record they encode, which assumes that the encoding is injective.
- Overflow of times and counts in the elector; the 32-bit conversions of the Kubernetes backend are explicit.
- A lock call that ignores its cancelled context: time does not take a leader past its round's deadline. `wait.PollImmediateUntil` would count a success that arrives later.
- Clocks that run backwards: each node's clock only advances. Instants are reals, so the exclusion bound is exact up to the nanosecond grain of Go's time.
- The protocol lets a leader retry at any time within its round and lets a node stop and start again; the retry period is a lower bound between attempts of the acquire loop only.
- In the protocol an acknowledged record is kept in the form the backend stores; on Kubernetes the elector keeps its unconverted duration, which no later step reads.
- Spare capacity behind a byte slice: an entry whose length runs past the end of the buffer is an error.
- Signals, logging, metrics, event recording, the HTTP health adaptor and client construction.
