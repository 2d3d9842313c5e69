# Verified models of CharlotteOS components

Four components of CharlotteOS, modelled in Dafny and proved correct.

**The Raft core** (`crates/catten-graft`). `Node.dfy` and `Handlers.dfy` hold one node as a value and every
entry point as a function from node and message to node and reply, branch by branch; each durable write is
recorded in a trail. `RaftNode.dfy` is the same node as a class whose methods run the source's loops and are
proved equal to those functions, on top of the log store class of `LogStore.dfy`. `Cluster.dfy` puts any number of
such nodes on a network that only grows, and lets a node crash after any durable write of any handler.
`Protocol.dfy` and `ProtocolSteps.dfy` prove Raft over whole logs with an inductive invariant; `Simulation.dfy`,
`FollowerSimulation.dfy` and `ClusterSimulation.dfy` prove that the cluster refines it; `ClusterSafety.dfy` draws the
conclusions over whole runs. With changing membership, `Coherence.dfy`, `Recovery.dfy`, `NodeRuns.dfy`, `NodeLives.dfy`,
`Compaction.dfy`, `CommitRule.dfy`, `Progress.dfy` and `JoinFence.dfy` prove what a single node keeps, through every
event and through a crash after any durable write of it.

**The snapshot envelope** (`snapshot_codec.rs`). `Base64.dfy`, `Json.dfy`, `Numerals.dfy` and `SnapshotCodec.dfy` model
printer and parser byte by byte; `EnvelopeRoundTrip.dfy` computes what decoding a wrapped snapshot gives for every
input and from that the exact condition of the round trip.

**The object-store image.** `StoreFormat.dfy` is the strict parser as functions of the image bytes and `ObjectStore.dfy`
the parser as it runs; `StoreSoundness.dfy` is about any image whatsoever and `HeaderBounds.dfy` about where the parser
lets a header lie. `ImageWriter.dfy` is the writer on its arrays, and `ImageRoundTrip.dfy` proves that the parser reads
back what it wrote.

**The installer's cache and undo log** (`limine.c`). `Installer.dfy` is the one-block write-back cache and the undo
records as they change in place; `Patches.dfy` proves that undoing is exact.

Identifiers and payloads are byte strings. An application is any deterministic machine whose `restore` undoes its
`snapshot`; checksums are any deterministic functions. What reaches a node from outside, such as the token that names
a read domain, is a parameter.

The results over whole runs are for a fixed, stable membership: clients submit application commands and no-ops. They
ask of the member ids what the envelope asks (`EnvelopeRoundTrip.Faithful`), because a node with other ids loses its
membership, or its application state, when it restarts from a compacted log: see `EnvelopeRoundTrip.BraceLosesRole` and
`EnvelopeRoundTrip.ForeignIdLosesEnvelope`.

Where the code differs from what one might expect, the model follows the code:

- The envelope parser ends a member at the first closing brace, so a brace inside an id hides role and service name,
  and one unreadable id makes the whole envelope undecodable. `EnvelopeRoundTrip.RoundTrip` gives the exact condition.
- The image parser checks extents against the device size, but a header only against the data area, the image file and
  the reach of the bitmap. So an accepted object need not lie inside the device: `HeaderBounds.HeaderPastDevice` gives an
  image, and `HeaderBounds.HeadersInsideExactly` the exact condition on block size, device size and file length.
- The wrapped epoch reads back as zero when it does not fit 64 bits.

## Model

| member | source | states |
|---|---|---|
| `ClusterSafety.StateMachineSafety` | crates/catten-graft/src/node.rs:424-932 | For every run of a cluster with a fixed membership, whatever messages are lost, repeated, reordered or late and at whatever durable write a node crashes: one log exists such that every node, at every moment, has applied exactly a prefix of it, holds its committed entries from it, and stores a snapshot that restores its fold. |
| `ClusterSafety.ElectionSafety` | crates/catten-graft/src/node.rs:380-535 | Two nodes that lead in the same term, at whatever two moments of one run, are the same node; crashes between the durable writes of term and vote are part of the run. |
| `ClusterSafety.LinearizableReads` | crates/catten-graft/src/node.rs:1520-1591 | One log explains every node at every moment of the run. If a read begun by some node at moment i is answered by some node at moment j, the answer is the query of the fold of a prefix of that log, which holds the read's fence and, below it, everything any node had applied at any moment up to i. |
| `ClusterSafety.FencePassed` | crates/catten-graft/src/node.rs:1540-1575 | The fence of a read that is answered lies above whatever any node had applied before the read began, and the answering node has applied it. |
| `ClusterSafety.SnapshotIntegrity` | crates/catten-graft/src/node.rs:783-932 | A snapshot that a chunk makes a node install is, byte for byte, the one that the chunk's sender, as the leader of the chunk's term, held at that boundary at some earlier moment of the run. |
| `ClusterSafety.OneSnapshot` | crates/catten-graft/src/node.rs:997-1013 | All snapshots that leaders of one term hold at one boundary, at whatever moments of a run, are the same bytes. |
| `ClusterSafety.RecoversFromEveryWrite` | crates/catten-graft/src/node.rs:147-275 | In a run, the disk after any durable write of any handler can be started from: restoring it does not fail. |
| `ClusterSafety.StartsUp` | crates/catten-graft/src/node.rs:147-275 | Every membership has an initial cluster, so the statements about runs are about something. |
| `Protocol.LeaderCompleteness` | crates/catten-graft/src/node.rs:424-488 | Section 5.4 of the Raft paper: a position decided in term t is in the log of every leader of a term from t on. |
| `Protocol.LogMatching` | crates/catten-graft/src/node.rs:614-650 | Two logs with equal terms at one index are equal up to that index. |
| `Protocol.CommittedCompare` | crates/catten-graft/src/node.rs:1130-1170 | Of two committed prefixes the shorter is a prefix of the longer, in whatever terms they were committed. |
| `Protocol.DecidedNotDead` | crates/catten-graft/src/node.rs:1130-1170 | A position that a majority acknowledged is never one that a majority has left behind. |
| `Protocol.FenceCoversCommitted` | crates/catten-graft/src/node.rs:1540-1575 | If the leader of a term decides a position at or past a fence it had not yet written, everything committed anywhere before the fence was set lies below the fence in that leader's log. |
| `Protocol.CommitOfOwnTerm` | crates/catten-graft/src/node.rs:1559-1575 | A commit index that points at an entry of term t was decided by the leader of t. |
| `ProtocolSteps.StartElectionKeeps` | crates/catten-graft/src/node.rs:380-402 | Raising the term and voting for oneself keeps the protocol invariant. |
| `ProtocolSteps.RaiseTermKeeps` | crates/catten-graft/src/node.rs:494-500 | Making a later term durable, with whatever vote is still stored beside it, keeps the invariant. |
| `ProtocolSteps.CastVoteKeeps` | crates/catten-graft/src/node.rs:424-461 | Granting a vote under the source's conditions keeps the invariant: one vote per term, and only for a log that is at least as current. |
| `ProtocolSteps.OneWinner` | crates/catten-graft/src/node.rs:463-492 | Whoever holds a majority of a term's votes is the leader already recorded for that term. |
| `ProtocolSteps.ElectKeeps` | crates/catten-graft/src/node.rs:510-535 | Taking office with a majority of votes keeps the invariant; in particular the winner's log holds everything that may still commit. |
| `ProtocolSteps.AppendKeeps` | crates/catten-graft/src/node.rs:528-535 | A leader's own entry keeps the invariant. |
| `ProtocolSteps.AcceptKeeps` | crates/catten-graft/src/node.rs:635-650 | Adopting an offered prefix, or keeping a log that already extends it, keeps the invariant and leaves the offer in the log. |
| `ProtocolSteps.AckCommittedKeeps` | crates/catten-graft/src/node.rs:591-598 | Acknowledging a committed prefix without reading the request further keeps the invariant. |
| `ProtocolSteps.CutKeeps` | crates/catten-graft/src/node.rs:638-645 | A crash after a conflicting suffix is cut and before its replacement is written keeps the invariant and loses nothing committed. |
| `ProtocolSteps.LearnKeeps` | crates/catten-graft/src/node.rs:652-663 | Committing what an offer says is committed keeps the invariant. |
| `ProtocolSteps.DecideKeeps` | crates/catten-graft/src/node.rs:1130-1170 | Committing an entry of the leader's own term that a majority acknowledged keeps the invariant. |
| `ClusterSimulation.StepRelated` | crates/catten-graft/src/node.rs:380-1036 | Every step of the cluster, handler, heartbeat, crash or restart, is matched by protocol steps that keep the relation between the two. |
| `ClusterSimulation.CrashRelated` | crates/catten-graft/src/node.rs:380-508 | The same for a node that stops after any one durable write of any handler and starts again from it. |
| `Simulation.VoteRequestSim` | crates/catten-graft/src/node.rs:424-461 | What `handle_vote_request` does, write by write, is allowed by the protocol, and a granted reply stands for a recorded vote. |
| `Simulation.BecomeLeaderSim` | crates/catten-graft/src/node.rs:510-535 | A candidate with a majority of the effective configuration takes office as the protocol allows. |
| `Simulation.AdvanceSim` | crates/catten-graft/src/node.rs:1130-1194 | What the commit scan finds and the apply loop applies is a decision the protocol allows, for a log of any compaction. |
| `Simulation.AppendReplySim` | crates/catten-graft/src/node.rs:675-730 | Append replies, however late, move a leader only as the protocol allows. |
| `FollowerSimulation.MergeAdopts` | crates/catten-graft/src/node.rs:635-650 | Skipping agreeing entries, cutting at a conflict and appending the rest leaves the offered log, or a log that extends it. |
| `FollowerSimulation.CutsAtConflict` | crates/catten-graft/src/node.rs:638-645 | The merge cuts only at an index where the two logs truly differ and agree before. |
| `FollowerSimulation.AppendSim` | crates/catten-graft/src/node.rs:537-673 | `handle_append_entries` is allowed by the protocol and a successful reply stands for an acknowledgement, compacted prefix or not. |
| `FollowerSimulation.ChunkSim` | crates/catten-graft/src/node.rs:732-932 | `handle_install_snapshot` is allowed by the protocol; a completed reply stands for an acknowledgement. |
| `FollowerSimulation.BootSim` | crates/catten-graft/src/node.rs:147-275 | A disk left by any durable write starts a follower that has applied its snapshot and no more. |
| `Compaction.CompactionIsInvisible` | crates/catten-graft/src/node.rs:584-672 | Two nodes with the same log and commit index but different snapshots, given one request that agrees with their committed prefix, end with the same log, commit index, membership and application state. |
| `Compaction.AppendIsWhole` | crates/catten-graft/src/node.rs:584-672 | What an accepted request leaves is the effect on the whole log, as a store without snapshots would compute it. |
| `Compaction.NoConflictNoCut` | crates/catten-graft/src/node.rs:635-650 | A merge cuts if and only if some overlapping entry has another term; without one the log never gets shorter. |
| `CommitRule.AdvancesToLargest` | crates/catten-graft/src/node.rs:1130-1170 | The scan ends at c exactly if c is the largest index whose holders are a quorum at c, and before every uncommitted Finalize up to c, with an entry of the current term. |
| `CommitRule.StaysIffNothingAllowed` | crates/catten-graft/src/node.rs:1130-1170 | The scan stays at the commit index exactly if the rule allows no later index. |
| `CommitRule.NeighboursShareVoter` | crates/catten-graft/src/membership.rs:96-127 | Quorums of the configurations before and after any one log entry share a voter of both. |
| `CommitRule.FinalizeMeetsBothHalves` | crates/catten-graft/src/node.rs:1152-1164 | A commit that passes an uncommitted Finalize meets every quorum of the old half and of the new half of the joint configuration before it. |
| `Membership.QuorumsShareVoter` | crates/catten-graft/src/membership.rs:96-127 | Quorums of two configurations that one membership change connects share a voter of both. |
| `Membership.ListingRebuilds` | crates/catten-graft/src/membership.rs:23-43 | Listing members in order of id and collecting them again gives the same members. |
| `Node.ApplyCommitted` | crates/catten-graft/src/node.rs:1172-1194 | Application terminates on the number of unapplied Joint entries, then unapplied entries, and ends with the applied index at the commit index. |
| `Node.AdvanceCommit` | crates/catten-graft/src/node.rs:1130-1170 | Committing never lowers the commit index, and whatever it commits is applied when it returns. |
| `Node.MaybeAutoFinalize` | crates/catten-graft/src/node.rs:1349-1372 | Auto-finalization, which may commit and apply before it returns, terminates and leaves no fewer entries applied than committed by it. |
| `Coherence.ApplyCommittedCoherent` | crates/catten-graft/src/node.rs:1172-1233 | Re-entrant application applies each command once and in order: machine, configuration and stored snapshot are the folds of the log, which grew by Finalize entries at most. |
| `Coherence.ConfigurationIsFold` | crates/catten-graft/src/node.rs:1235-1253 | The configuration at an index, computed from the snapshot and the retained entries, is the fold of the whole log up to it. |
| `Coherence.SealedImageOk` | crates/catten-graft/src/node.rs:1210-1231 | The envelope that compaction writes decodes to the same members and restores the same application state. |
| `NodeRuns.StepKeepsSound` | crates/catten-graft/src/node.rs:380-1556 | Every entry point, with changing membership, keeps the applied membership, the application state and the stored snapshot equal to the folds of the log, given authentic leaders and snapshots. The log afterwards keeps every entry committed before, and so does the disk after each durable write of the step. |
| `NodeRuns.RestartKeepsSound` | crates/catten-graft/src/node.rs:147-275 | A sound node that stops at rest and restarts is sound, with its snapshot's state and membership. |
| `NodeRuns.CrashKeepsSound` | crates/catten-graft/src/node.rs:147-275 | Whichever durable write of whichever event is the last before a crash, with changing membership: the node starts from that disk, and soundly, with a log that holds everything committed before the event. |
| `NodeRuns.BootIsSound` | crates/catten-graft/src/node.rs:147-275 | From any disk whose snapshot is the fold of the log prefix it hides, a start succeeds and the node is sound. |
| `NodeLives.AppliedFollowsLog` | crates/catten-graft/src/node.rs:1231-1314 | At every moment of every life, from an empty disk through honest events, restarts and crashes after any durable write: the applied membership equals the configuration at the applied index and the fold of the log up to it, the state and the stored snapshot are folds of that log, and the next log keeps what is committed. |
| `NodeLives.LifeGoesOn` | crates/catten-graft/src/node.rs:147-275 | Every honest event of a life leaves a disk that stands for a log with everything committed, and every disk on the way can be started from. |
| `NodeLives.BeginsSound` | crates/catten-graft/src/node.rs:147-193 | A node that starts on an empty disk is sound for the empty log. |
| `NodeLives.SoundForAny` | crates/catten-graft/src/node.rs:1235-1253 | A node that is sound for one log that its store stands for is sound for every other: what is hidden by the snapshot matters only through its fold. |
| `Recovery.ApplyCommittedLogged` | crates/catten-graft/src/node.rs:1172-1279 | Every durable write of the re-entrant apply, nested Finalize, admission and compaction included, leaves a disk that stands for an extension of the log. |
| `NodeRuns.MembershipFollowsLog` | crates/catten-graft/src/node.rs:1235-1314 | For a sound node the applied membership equals the configuration at the applied index, and the stored snapshot restores the fold of the commands it covers. |
| `NodeRuns.TruncationRestores` | crates/catten-graft/src/node.rs:1235-1253 | Cutting an uncommitted suffix restores the effective configuration that was in force before it. |
| `NodeRuns.RejectionKeepsCore` | crates/catten-graft/src/node.rs:847-872 | A chunk that is rejected, or a snapshot that does not restore, changes neither log, commit index, membership nor application state. |
| `JoinFence.JoinFenceHolds` | crates/catten-graft/src/node.rs:298-344 | Through every life of a node, with crashes after any durable write: after an admission record is written the node neither grants a vote nor may campaign, and the record is not gone, before a membership snapshot naming the node has been written. |
| `JoinFence.JoinFenceAccounted` | crates/catten-graft/src/node.rs:298-344 | With local compaction off, before a recorded joiner votes or campaigns, and before its record is gone, its disk has held a snapshot naming it that either is the stream a chunk completed, byte for byte, or seals the membership entry of its own log at that index. |
| `JoinFence.AdmissionAccounted` | crates/catten-graft/src/node.rs:875-904 | Every write of a life that admits the node is such a received or sealed snapshot. |
| `JoinFence.AdmissionsOnly` | crates/catten-graft/src/node.rs:1259-1347 | With local compaction off, no handler other than snapshot reception replaces a node's snapshot, except to seal what the membership entry of its log at exactly that index made of the configuration, with the node in it. |
| `JoinFence.JoiningGuard` | crates/catten-graft/src/node.rs:298-344 | `begin_joining` makes the record durable before it clears the log and the vote. |
| `JoinFence.BootGuard` | crates/catten-graft/src/node.rs:201-212 | A restart clears the record if and only if the disk holds a later membership snapshot that names the node; otherwise the node is fenced again. |
| `Progress.LeadershipTracked` | crates/catten-graft/src/node.rs:518-526 | Through any events of any kind that leave the node the leader of its term, and through replies, submissions, promotions and vote requests that end its office, for every peer reset when it began: match index < next index <= last index + 1. |
| `Progress.MatchNeverDecreases` | crates/catten-graft/src/node.rs:723-730 | Through the same leadership, what a peer confirmed never goes back while the leader keeps track of it. |
| `RaftNode.RaftNode.Open` | crates/catten-graft/src/node.rs:147-275 | The started node is what `Boot` makes of the disk; there is none exactly if the snapshot cannot be restored. |
| `RaftNode.RaftNode.StepDownTo` | crates/catten-graft/src/node.rs:494-508 | Two durable writes, term first; the state is `StepDown` of the old one. |
| `RaftNode.RaftNode.TimeOut` | crates/catten-graft/src/node.rs:380-422 | The new state is `StartElection` of the old one and the request carries the next term and the end of the log. |
| `RaftNode.RaftNode.OnVoteRequest` | crates/catten-graft/src/node.rs:424-461 | New state and reply are those of `HandleVoteRequest`. |
| `RaftNode.RaftNode.OnVoteReply` | crates/catten-graft/src/node.rs:463-492 | The new state is `HandleVoteReply` of the old one. |
| `RaftNode.RaftNode.MergeEntries` | crates/catten-graft/src/node.rs:635-650 | The loop with its early exits performs the merge, cut and append each as one durable write. |
| `RaftNode.RaftNode.OnAppend` | crates/catten-graft/src/node.rs:537-673 | New state and reply are those of `HandleAppend`. |
| `RaftNode.RaftNode.OnAppendReply` | crates/catten-graft/src/node.rs:675-712 | The new state is `HandleAppendReply` of the old one. |
| `RaftNode.RaftNode.RecordMatch` | crates/catten-graft/src/node.rs:723-730 | The strongest acknowledgement is kept and the next index moves past it. |
| `RaftNode.RaftNode.OnChunk` | crates/catten-graft/src/node.rs:732-932 | New state and reply are those of `HandleChunk`. |
| `RaftNode.RaftNode.InstallPending` | crates/catten-graft/src/node.rs:854-920 | A complete stream is installed, or nothing but the stream changes. |
| `RaftNode.RaftNode.OnChunkReply` | crates/catten-graft/src/node.rs:935-968 | The new state is `HandleChunkReply` of the old one. |
| `RaftNode.RaftNode.Beat` | crates/catten-graft/src/node.rs:970-1033 | What is sent is a chunk of the snapshot or every entry from the peer's next index on. |
| `RaftNode.RaftNode.Submit` | crates/catten-graft/src/node.rs:1108-1128 | The command is appended and what it commits is applied; the index is where it went. |
| `RaftNode.RaftNode.FindCommit` | crates/catten-graft/src/node.rs:1130-1163 | The ascending loop over candidates finds what the scan from the end finds. |
| `RaftNode.RaftNode.CountReplicated` | crates/catten-graft/src/node.rs:1138-1150 | The loop over the members collects exactly those known to hold the index. |
| `RaftNode.RaftNode.FinalizesHaveQuorum` | crates/catten-graft/src/node.rs:1151-1160 | The loop over positions answers whether every uncommitted Finalize has its quorum. |
| `RaftNode.RaftNode.Advance` | crates/catten-graft/src/node.rs:1130-1170 | The new state is `AdvanceCommit` of the old one. |
| `RaftNode.RaftNode.ApplyEntry` | crates/catten-graft/src/node.rs:1172-1192 | One turn of the loop, nested commits included, is `ApplyNext`. |
| `RaftNode.RaftNode.Apply` | crates/catten-graft/src/node.rs:1172-1194 | The whole loop and the compaction after it are `ApplyCommitted`. |
| `RaftNode.RaftNode.CompactLocalSnapshot` | crates/catten-graft/src/node.rs:1196-1233 | The snapshot is written exactly under the source's conditions. |
| `RaftNode.RaftNode.GetConfigurationAt` | crates/catten-graft/src/node.rs:1239-1253 | The loop over retained entries is the fold. |
| `RaftNode.RaftNode.ApplyConfigurationCommand` | crates/catten-graft/src/node.rs:1281-1342 | A committed Joint or Finalize changes the node as `Reconfigure` says, admission before fence. |
| `RaftNode.RaftNode.EndAdmission` | crates/catten-graft/src/node.rs:1259-1279 | The membership snapshot is durable before the record is cleared. |
| `RaftNode.RaftNode.AutoFinalize` | crates/catten-graft/src/node.rs:1349-1372 | The new state is `MaybeAutoFinalize` of the old one. |
| `RaftNode.RaftNode.ProposeJoint` | crates/catten-graft/src/node.rs:1385-1401 | New state and result are those of `SubmitJoint`, the refusal of a proposal whose encoding is too large included. |
| `RaftNode.RaftNode.ChangeIsUnderway` | crates/catten-graft/src/node.rs:1374-1383 | The loop finds whether an uncommitted membership entry exists. |
| `RaftNode.RaftNode.ProposeJoin` | crates/catten-graft/src/node.rs:1403-1425 | New state and result are those of `SubmitJoin`; a retried join finds its earlier entry, and one whose encoding is too large is refused. |
| `RaftNode.RaftNode.StartJoining` | crates/catten-graft/src/node.rs:298-344 | Record, then empty log, then no vote, each durable; the state is `BeginJoining` of the old one. |
| `RaftNode.RaftNode.StartRead` | crates/catten-graft/src/node.rs:1526-1556 | A fresh no-op fences the read at its own index. |
| `RaftNode.RaftNode.Query` | crates/catten-graft/src/node.rs:1559-1591 | The answer is that of `HandleQuery`. |
| `LogStore.QueriesAgree` | crates/catten-graft/src/log_store.rs:93-167 | Every query of a store whose prefix was compacted gives what the whole log would give, from the snapshot boundary on. |
| `LogStore.CompactRepresents` | crates/catten-graft/src/log_store.rs:173-202 | A snapshot of the log's own prefix hides that prefix and nothing else. |
| `LogStore.ReplaceRepresents` | crates/catten-graft/src/log_store.rs:173-202 | A snapshot whose boundary the log does not hold replaces everything. |
| `LogStore.TruncateRepresents` | crates/catten-graft/src/log_store.rs:145-153 | Truncating the store truncates the whole log behind it. |
| `LogStore.InMemoryLogStore.GetTermAt` | crates/catten-graft/src/log_store.rs:113-129 | The term at an index, zero where the store knows none. |
| `LogStore.InMemoryLogStore.GetEntriesFrom` | crates/catten-graft/src/log_store.rs:155-167 | The retained entries from an index on. |
| `LogStore.InMemoryLogStore.Truncate` | crates/catten-graft/src/log_store.rs:145-153 | Entries from the index on are dropped; the compacted prefix is never touched. |
| `LogStore.InMemoryLogStore.Install` | crates/catten-graft/src/log_store.rs:173-202 | The suffix is kept exactly if the store holds the boundary with that term. |
| `EnvelopeRoundTrip.RoundTrip` | crates/catten-graft/src/snapshot_codec.rs:100-253 | Decoding a wrapped snapshot gives back epoch, both member lists and state if and only if the epoch fits 64 bits and every member is faithful: printable ASCII, newline, carriage return or tab in the id, and no brace in the id of a learner or of a peer with a service name. |
| `EnvelopeRoundTrip.DecodeOfWrap` | crates/catten-graft/src/snapshot_codec.rs:100-253 | For all inputs, the exact value that decoding a wrapped snapshot gives. |
| `EnvelopeRoundTrip.BraceLosesRole` | crates/catten-graft/src/snapshot_codec.rs:161-191 | A learner whose id holds a closing brace comes back as a voter without a service name. |
| `EnvelopeRoundTrip.ForeignIdLosesEnvelope` | crates/catten-graft/src/snapshot_codec.rs:222-253 | One id with an unreadable byte makes the whole envelope undecodable. |
| `EnvelopeRoundTrip.SeenAllFaithful` | crates/catten-graft/src/snapshot_codec.rs:161-191 | A member list survives exactly if every member is faithful. |
| `Base64.RoundTrip` | crates/catten-graft/src/snapshot_codec.rs:22-71 | Decoding the encoding of any bytes gives the bytes: the alphabet of section 4 of RFC 4648 without padding. |
| `Base64.EncodeLoop` | crates/catten-graft/src/snapshot_codec.rs:22-40 | The chunk loop computes the encoding. |
| `Base64.DecodeLoop` | crates/catten-graft/src/snapshot_codec.rs:42-71 | The chunk loop computes the decoding, failures included. |
| `Json.QuoteIsEscape` | crates/catten-graft/src/snapshot_codec.rs:73-81 | The five replacement passes amount to escaping each byte once. |
| `Json.QuotedParses` | crates/catten-graft/src/snapshot_codec.rs:222-253 | A quoted readable string parses back to itself, whatever follows it. |
| `CodecLoops.ParseString` | crates/catten-graft/src/snapshot_codec.rs:222-253 | The cursor loop is the parser function. |
| `CodecLoops.MatchingArrayEnd` | crates/catten-graft/src/snapshot_codec.rs:201-220 | The loop finds the first closing bracket outside a string. |
| `CodecLoops.CollectMembers` | crates/catten-graft/src/snapshot_codec.rs:161-191 | The search loop collects what the member function says. |
| `Installer.Installer.FlushCache` | limine-binary/limine.c:268-294 | After a flush the device equals the flat byte array, which is unchanged. |
| `Installer.Installer.CacheBlock` | limine-binary/limine.c:296-324 | Changing the cached block leaves the flat byte array as it was; it fails exactly for a block that the device does not hold whole. |
| `Installer.Installer.ReadRaw` | limine-binary/limine.c:467-487 | An unaligned read over any number of blocks returns the bytes of the flat array and succeeds exactly if every block it touches is there. |
| `Installer.Installer.WriteRaw` | limine-binary/limine.c:489-546 | An unaligned write changes the flat array in that range only, records what was there, and a write that cannot be recorded changes nothing; the original stays recoverable. |
| `Installer.Installer.ReverseUndo` | limine-binary/limine.c:340-346 | The records are reversed in place. |
| `Installer.Installer.Uninstall` | limine-binary/limine.c:548-598 | The cache is dropped, dirty or not, and the device ends as the records replayed over what it held, each cut to what whole blocks of the device hold of it; it succeeds if and only if every record reaches, also for records from an undo file. |
| `Installer.Installer.Rollback` | limine-binary/limine.c:1800-1814 | After any recorded writes, flushed or not, the device is byte for byte what it was before the first of them. |
| `Patches.UndoIsExact` | limine-binary/limine.c:548-598 | Replaying saved bytes backwards restores the original, for any overlapping records and any mixture of flushed and lost blocks. |
| `Patches.MixedIsUndoable` | limine-binary/limine.c:548-556 | A device on which some blocks are older than others is just as recoverable. |
| `Installer.WriteThrough` | limine-binary/limine.c:536-540 | A write into the cached block is a write at its place on the device. |
| `ImageRoundTrip.ImageReadsBack` | scripts/fs-inspect.py:234-442 | An image that the writer finished parses without an error, holds exactly the objects that were put into it and gives back the bytes of each, content hash included. |
| `ImageRoundTrip.ChoosesStandard` | scripts/fs-inspect.py:270-305 | In a finished image the parser finds the writer's superblock and takes nothing else, at any block size, for one. |
| `ImageRoundTrip.ScanSees` | scripts/fs-inspect.py:332-372 | The directory scan of a finished image gathers exactly the stored objects and their blocks, without an error. |
| `StoreImage.HeaderReadsBack` | scripts/make-nvme-image.py:170-192 | A header that the writer encoded parses to the record of its object. |
| `StoreImage.EntryReadsBack` | scripts/make-nvme-image.py:160-168 | A directory entry that the writer encoded decodes to itself. |
| `StoreImage.SuperblockFields` | scripts/make-nvme-image.py:142-158 | Every field of an encoded superblock reads back. |
| `StoreImage.SuperblockReadsBack` | scripts/make-nvme-image.py:142-158 | A sealed superblock of any geometry, in its slot and padded with zeros, decodes to itself. |
| `StoreImage.StandardLayout` | scripts/make-nvme-image.py:87-97 | The layout of the default image as the parser computes it. |
| `ImageWriting.ImageWriter.constructor` | scripts/make-nvme-image.py:101-111 | A blank image with the metadata blocks marked as used. |
| `ImageWriting.ImageWriter.Alloc` | scripts/make-nvme-image.py:119-134 | First fit finds the end of what is used, and fails exactly if the rest is too short. |
| `ImageWriting.ImageWriter.DirectoryIndex` | scripts/make-nvme-image.py:216-229 | Probing takes a slot that was free, and fails exactly if none is. |
| `ImageWriting.ImageWriter.WriteEntry` | scripts/make-nvme-image.py:206-214 | Reading a directory block, changing an entry and writing it back changes that entry only. |
| `ImageWriting.ImageWriter.PutObject` | scripts/make-nvme-image.py:194-214 | The object and everything before it are stored; it fails exactly if blocks or slots run out; empty content stores nothing. |
| `ImageWriting.ImageWriter.Write` | scripts/make-nvme-image.py:235-242 | Superblocks and bitmap complete the image around the stored objects. |
| `ImageWriting.Stage` | scripts/make-nvme-image.py:245-272 | The whole tool: it produces an image if and only if ids differ, headers and contents fit the blocks and the objects fit the directory; the image parses cleanly and gives back the content of every object, and of nothing else. |
| `Bitmap.MarkIs` | scripts/make-nvme-image.py:113-117 | Marking a block leaves every other mark as it was. |
| `StoreSoundness.ParserIsSound` | scripts/fs-inspect.py:332-424 | Whatever the image: accepted objects lie in the data area, their extents inside the device, their headers inside the image file and under the bitmap, no two share a block, and no object's ranges overlap each other. |
| `StoreSoundness.ReadsExactly` | scripts/fs-inspect.py:426-442 | Reading an accepted object, content hash aside, always yields exactly its length. |
| `StoreSoundness.ExactMeansApart` | scripts/fs-inspect.py:361-370 | As many distinct blocks as the ranges promise means that no range runs into another. |
| `HeaderBounds.HeadersInsideExactly` | scripts/fs-inspect.py:332-424 | For every checksum pair, block size, device size and file length: all images of that shape have every accepted header inside the device if and only if the device size is a multiple of eight times the block size or the file has no room for one more block. |
| `HeaderBounds.HeadersInside` | scripts/fs-inspect.py:372-384 | Under that condition no accepted header of an image lies past its device. |
| `HeaderBounds.OverhangParses` | scripts/fs-inspect.py:234-424 | For every shape, and every block of the data area with a bit in the bitmap and a place in the file, there is an image that parses without a complaint and has a header at that block. |
| `HeaderBounds.HeaderPastDevice` | scripts/fs-inspect.py:377-384 | A device of 1024 blocks of 512 bytes in a file of 2049 blocks, with an accepted header at block 2000. |
| `ObjectStore.ObjectStore.Parse` | scripts/fs-inspect.py:270-309 | The fields after parsing are those of `ParseImage`, for every image. |
| `ObjectStore.ObjectStore.ScanSlots` | scripts/fs-inspect.py:332-371 | The loop over directory slots gathers what `ScanTo` says, errors in order. |
| `ObjectStore.ObjectStore.CheckBitmap` | scripts/fs-inspect.py:372-375 | The check raises exactly if some reachable block lies past the bitmap; otherwise the omitted blocks are exactly the reachable ones that the bitmap does not mark. |
| `ObjectStore.ObjectStore.ReadHeader` | scripts/fs-inspect.py:377-424 | The extent loop and the checks around it are `ParseHeader`. |
| `ObjectStore.ObjectStore.Read` | scripts/fs-inspect.py:426-442 | The extent loop returns what `ReadObject` says. |

## Left out

- Global safety across dynamic membership and joiner promotion: a pending joiner's old match index can survive a re-election, and `begin_joining` keeps the pre-join configurations. These paths have the single-node results only.
- Liveness of elections, snapshot transfer and finalization; timers, jitter, contact times and the freshness hints built on them.
- Wrap-around of 64-bit terms, indexes and offsets, and the refusal of a read at the greatest index: numbers are unbounded.
- The protobuf encoding of messages and configuration commands; the length of an encoded Joint or Join is a parameter (`Env.encodedBytes`).
- A node without a state machine, `command_result` and the table of applied results, `committed_configurations`, and the transport itself.
- `maybe_promote_pending_joiners` exists as the function `Handlers.PromoteJoiners` only, not as a method of the class.
- `submit_finalize_configuration` and `apply_configuration_change` as entry points of their own: Finalize is reached through the auto-finalize guard.
- Faults of the device, of memory allocation and of the undo file; GPT, MBR and enrolment code in `limine.c`.
- Image geometries other than 512 bytes by 32768 blocks in the writer; the parser is modelled for all of them.
- ObjectStore.ObjectStore.CheckBitmap: keeps the omitted blocks as a set, because the source iterates over a Python set, whose order the language does not fix.
- NodeLives.AppliedFollowsLog: lives without `begin_joining`, which keeps the pre-join configurations, and with snapshots that carry membership; what a joiner's life keeps is in `JoinFence.dfy`.
- Filesystem trees, magic scanning and formatting in `fs-inspect.py`, and every other script.
