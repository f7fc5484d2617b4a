# Cabinet consensus core: a verified model

Cabinet replicates a customer store with weighted consensus. The leader gives every node a weight, answers a
write as soon as the nodes that ran it weigh more than half of the total, and hands the weights out again each
round in the order of the replies. This project models that core in Dafny and proves what it promises.

Three parts are modelled and then joined.

- **Weights.** `RatioSearch`, `DeployedRatio`, `ToleranceRange`, `DeployedTolerance`, `Weights` and
  `PriorityManagers` follow `pmgr.go`: the downward search for the geometric ratio, the scheme with its majority, and the per-round
  re-ranking. `float64` is an exact `real` and `math.Pow` a recursive power. The search with the deployed step
  0.01 and the default tolerance is decided for every cluster size: it ends at a usable ratio exactly for odd n
  up to 19 and even n up to 28, and otherwise ends only for n = 3 mod 4, at a negative ratio. For any other
  tolerance, usable ratios exist exactly below half the nodes; any step with n(n+1) step < 1 meets one, and the
  deployed step does up to twenty nodes.
- **One leader's epoch.** `Epochs` is a step machine over rounds, one call task per follower and round
  (`JobQueue`), the followers' weight states and stores, replies, timeouts and broken connections, in every
  interleaving. With `alone` set the epoch is the initial leader's and nobody else calls the followers. With
  `alone` clear, other leaders may at any moment rewrite any follower's state and, on the leader, its store, its
  weight and the leader id by which it re-ranks. `EpochInvariants`, `EpochTheorems` and `Replicas` prove
  invariants and theorems over all runs; `Executions` ties what counts as run to the steps that ran it;
  `EpochRuns` and `EpochWitnesses` build runs that reach the bounds. `Rounds.WaitLoop` and
  `Leaders.RunConsensus` are the loops themselves, over the manager and the collection they update.
- **Terms and votes.** `Elections` interrupts candidates and vote handlers between any two of their separately
  locked reads and writes; a node stands only while its heartbeat monitor runs, which on node 0, the first
  leader, it does only after one of its heartbeats was refused; `AtomicElections` takes each handler and each
  candidate start as one step, and is proved to be a part of the former. `Services` holds the handlers, the vote
  count and the step-down as methods.

`Cabinet` joins them: a ratio that passed gives a valid epoch, and each write acknowledged in a round whose
numbers meet one comparison was run by at least t+1 nodes, one of which is among the votes of any later winner.
Undisturbed, every round of the initial leader meets it.

## What turned out not to hold

- **One winner per term.** `StartElection` counts its own vote even if `TryVote` refused it. When handlers and
  starts are interrupted, two nodes can win one term. `ElectionWitnesses.OneWinnerPerTermExact` gives the exact
  condition, over all cluster sizes and tolerances: never two winners if and only if n > 2t+1 or n <= 1. The
  default tolerance satisfies it for even n and not for odd n >= 3. Among candidates whose own vote was granted,
  2t < n is enough, and with uninterrupted handlers 2t < n is exactly what is needed (n >= 2).
- **A reply stands for t+1 nodes.** The loop adds `PrioVal` for itself, not its entry in the clock's map.
  `Miscounts.LargeExitExact` gives the exact condition, one comparison that the leader can make before the round:
  every exit has t+1 nodes if and only if t <= 1 or `PrioVal` and the t-1 heaviest other nodes stay within the
  majority. `Miscounts.FirstRoundExact` is its instance for an elected leader's first round, on the initial map
  with the `PrioVal` of an earlier epoch. The guard holds whenever `PrioVal` is at most the leader's own entry
  (`Miscounts.HonestNeedsMany`), so at every clock that the leader ranked for itself. Two runs in which a write is
  acknowledged by only t nodes, both met by seven nodes as deployed: `ElectedLeaders.FirstWriteOnFew`, an elected
  leader's first round, and `DeposedLeaders.AcknowledgedOnFew`, a deposed leader that re-ranks by the leader id of
  another node's heartbeat.
- **A reply stands for a weighted quorum.** `Miscounts.QuorumExitExact`: every exit is one if and only if no set of
  followers pushes `PrioVal` over the majority without also pushing the leader's own entry over it. Whenever free
  followers form such a set, `EpochWitnesses.MisleadingIsReached` runs into it.
- **Every clock has weights.** The re-ranking fails if the leader id it reads is that of a node that replied, and
  then the next clock has no map: `EpochWitnesses.ClockGoesUnranked` is a run, from every valid start that other
  leaders may disturb. `EpochInvariants.RerankSucceedsIff` and `EpochTheorems.WorstCaseTolerance` say that the
  re-ranking fails, and that the tolerance of a clock is lost, exactly then.
- **A stale leader is found out.** With whole handlers t+1 answers after a later term was won include a refusal.
  Interrupted handlers can set terms back: in `StaleLeaders.StaleLeaderAccepted`, with three nodes, node 1 wins term
  1 after node 2 won term 2, and everybody accepts its heartbeats. What survives every interleaving is the votes
  (`StaleLeaders.VotesSurvive`), and with them the refusal, among any t+1 nodes whose term has not fallen behind
  their vote (`StaleLeaders.StaleLeaderFoundUnlessLagging`).
- **Tolerances of half the nodes or more.** The command line accepts them. `Cabinet.RatioExistsIffMinority` shows
  that a usable ratio exists if and only if 2t < n, so a valid scheme implies 2t < n and no theorem about quorums
  needs that as a hypothesis. Beyond it a search that ends returns no positive ratio: one node with t = 1 gets
  -0.01 (`Cabinet.OneNodeOneFailure`).
- **Replicas after a timeout.** A timed-out round may have run on followers. `Replicas.AgreementExact` says that
  the leader stays on the followers' common history if and only if each timed-out command changes nothing at its
  place there; `EpochWitnesses.ReplicasPart` is a run in which they part.

Where comments and code disagree the model follows the code: commands are INSERT, REPLACE and DELETE, not the
"PUT" of `server/cabinet/service.go:17`; a fresh node's `votedForID` is 0, not the -1 of
`server/cabinet/smr/state.go:12`; a vote needs a term above the last vote's term as well as above the node's
own, where `server/cabinet/service.go:67` names only the latter.

## Model

| member | source | states |
|---|---|---|
| RatioSearch.CalcInitPrioRatio | server/cabinet/smr/pmgr.go:64-73 | returns the first ratio on the grid that passes both tests, none before it passing; it exceeds 1 if any positive one on the grid passes |
| RatioSearch.FirstPassingUnique | server/cabinet/smr/pmgr.go:64-73 | there is one such ratio for a given grid |
| RatioSearch.PositiveIsAboveOne | server/cabinet/smr/pmgr.go:67-68 | the two tests contradict each other on (0, 1] |
| RatioSearch.FindsPositiveIffLowest | server/cabinet/smr/pmgr.go:64-73 | a usable ratio is tried exactly if the lowest grid point above 1 passes |
| RatioSearch.LoadIsPasses | server/cabinet/smr/pmgr.go:67-68 | the test at 1+d, for the default tolerance, as one bound on a geometric sum |
| RatioSearch.SearchHalts | server/cabinet/smr/pmgr.go:64-73 | halts above 1 for every n and step in (0, 1] with m(m+2)step < 1 (n = 2m+1) or < 2 (n = 2m) |
| DeployedRatio.DeployedSearchExact | server/main.go:174 | with step 0.01 and default tolerance a positive ratio is tried exactly for odd n <= 19 and even n <= 28 |
| DeployedRatio.DeployedSearchHaltsExact | server/cabinet/smr/pmgr.go:66-72 | the same search ends at all exactly for those n and for n = 3 mod 4 |
| DeployedRatio.TwentyOneNodesNeverHalts | server/main.go:371-372 | n = 21 loops forever |
| DeployedRatio.TwentyThreeNodesHaltsNegative | server/main.go:371-372 | n = 23 ends, but with no positive ratio |
| ToleranceRange.SearchHaltsForMinority | server/cabinet/smr/pmgr.go:64-73 | for every t with 2t < n and every step with n(n+1) step < 1 the search meets a ratio above 1 |
| ToleranceRange.SecondTestForced | server/cabinet/smr/pmgr.go:67-68 | where the first test holds but fails one such step higher, the second test holds |
| Weights.BuiltTopSum | server/cabinet/smr/pmgr.go:36-40 | closed form of the sum of the k heaviest weights |
| Weights.SoundIffPasses | server/cabinet/smr/pmgr.go:60-63 | for r > 1 the search's test holds exactly if the built scheme has I1 and I2 |
| Weights.BuiltSchemeIsSound | server/cabinet/smr/pmgr.go:23-50 | any positive ratio that passed gives a strictly decreasing scheme with I1 and I2 |
| Weights.TotalWeight | server/cabinet/smr/pmgr.go:44 | under any ranking all nodes weigh twice the majority |
| Weights.AtMostTop | server/cabinet/smr/pmgr.go:87-124 | under any ranking k nodes weigh at most the k heaviest entries |
| Weights.FewAreNoQuorum | server/cabinet/smr/pmgr.go:63 | under any ranking at most t nodes weigh less than the majority |
| Weights.QuorumIsLarge | server/cabinet/smr/pmgr.go:63 | a weighted quorum has at least t+1 nodes |
| Weights.QuorumsIntersect | server/cabinet/smr/pmgr.go:44 | two weighted quorums of one ranking share a node |
| Weights.ManyAreQuorum | server/cabinet/smr/pmgr.go:61-63 | any n-t nodes are a weighted quorum |
| Weights.TopRankedAreQuorum | server/cabinet/smr/pmgr.go:62 | the t+1 highest ranked nodes are a weighted quorum |
| PriorityManagers.ReverseSlice | server/cabinet/smr/pmgr.go:52-58 | reverses the array in place |
| PriorityManagers.Sum | server/cabinet/smr/pmgr.go:75-81 | the sum of all weights |
| PriorityManagers.PriorityManager.Init | server/cabinet/smr/pmgr.go:23-50 | the ratio is the first on the requested grid that passes (1 without isCab); builds its heaviest-first scheme, half its sum, and the map of clock 0 |
| PriorityManagers.PriorityManager.AppendWeights | server/cabinet/smr/pmgr.go:36-40 | the loop appends lightest first and gives node id entry id of the final scheme |
| PriorityManagers.PlaceUnreplied | server/cabinet/smr/pmgr.go:103-118 | for any iteration order of the map: fails exactly if the nodes exceed the scheme, else places everyone |
| PriorityManagers.PriorityManager.UpdateFollowerPriorities | server/cabinet/smr/pmgr.go:87-124 | stores the redistributed map under the clock, or fails and changes nothing |
| PriorityManagers.PriorityManager.GetFollowerPriorities | server/cabinet/smr/pmgr.go:126-132 | the clock's map, or an empty one |
| PriorityManagers.InitialIsRanked | server/cabinet/smr/pmgr.go:34-48 | the first map ranks the nodes by id |
| PriorityManagers.RedistributedIsRanked | server/cabinet/smr/pmgr.go:87-124 | every re-ranking is a bijection of the nodes onto the scheme: leader, repliers in order, the rest |
| PriorityManagers.NewWeightAt | server/cabinet/smr/pmgr.go:97-118 | rank i of that order holds scheme[i] |
| PriorityManagers.FailsIffLeaderReplied | server/cabinet/smr/pmgr.go:105-114 | for distinct replies the update fails exactly if the leader's id is among them or is no node's |
| PriorityManagers.RepliersOutweigh | server/cabinet/smr/pmgr.go:83-86 | leader scheme[0], k-th replier scheme[k], every replier above every other follower |
| PriorityStates.PriorityState.UpdatePriority | server/cabinet/smr/priority.go:27-36 | takes on clock and weight exactly for clocks that do not go back, and else changes neither |
| KVStore.Collection.Run | server/main.go:186-224 | when each of the three commands succeeds, the collection it then leaves, and the error of each case in which it leaves the collection alone |
| KVStore.Collection.InsertOne | server/main.go:196 | inserts exactly when the id is new |
| KVStore.Collection.ReplaceOne | server/main.go:203 | matches exactly a present key, and refuses to change its id |
| KVStore.Collection.DeleteOne | server/main.go:212 | deletes exactly a present key |
| KVStore.OnlyTargetChanges | server/main.go:186-224 | a command changes at most the document it addresses |
| KVStore.DeleteUndoesInsert | server/main.go:191-217 | deleting what an insert put in restores the store |
| KVStore.ErrorsExact | server/main.go:191-222 | each error is given in exactly one case, and changes nothing |
| KVStore.SuccessLeaves | server/main.go:191-217 | what a command that succeeded leaves under its id, and which ids are then present |
| KVStore.LastWriteWins | server/main.go:186-224 | over any sequence of commands, an id reads as its last successful command left it: the document written, or none after a delete |
| KVStore.NeverWritten | server/main.go:186-224 | and as the seed had it if there was none |
| JobQueue.DockInvKept | server/cabinet/consensus.go:136-165 | every step of every task keeps slots, token chain, call order, run order and honest results |
| JobQueue.StartsAfterAllEarlier | server/cabinet/consensus.go:143-152 | a call starts only as the next one, after all earlier ones returned |
| JobQueue.NothingInFlight | server/cabinet/consensus.go:143-152 | on a working connection the peer has run exactly the earlier calls when the next one starts |
| JobQueue.TokensOnce | server/cabinet/consensus.go:148-156 | each token is sent once and taken once |
| JobQueue.SignalNeverBlocks | server/cabinet/consensus.go:154-157 | the send under the lock finds the slot present and empty |
| JobQueue.StuckForever | server/cabinet/consensus.go:144-149 | a task that found no predecessor slot waits forever, and no later call starts |
| JobQueue.LateJoinerNeverCalled | server/cabinet/primary.go:11-42 | a peer connected after the first round is never called |
| Rounds.WaitLoop | server/cabinet/consensus.go:57-84 | weighs replies in arrival order; stops at the first that passes the majority, or at the deadline with none |
| Rounds.LoopIsArrivalSteps | server/cabinet/consensus.go:62-84 | the loop's queue, sum and verdict are those of the machine's single arrival steps |
| EpochInvariants.ReachableInv | server/cabinet/consensus.go:24-129 | the epoch's invariant holds after every run |
| EpochInvariants.RepliesAdmissible | server/cabinet/consensus.go:107-122 | each round's replies are distinct followers, fewer than n |
| EpochInvariants.RerankSucceedsIff | server/cabinet/consensus.go:120-123 | in every run the re-ranking succeeds exactly if the leader id read is that of a node that did not reply; the leader's own always is |
| EpochTheorems.RankingOf | server/cabinet/consensus.go:120-127 | the map of each clock whose re-ranking succeeded is a ranking that starts with the id read and the previous round's replies |
| EpochTheorems.UnrankedIsEmpty | server/cabinet/smr/pmgr.go:111-114 | a clock whose re-ranking failed has no map |
| EpochTheorems.LeaderWeight | server/cabinet/smr/pmgr.go:107-109 | the leader's own entry is the heaviest: at clock 0 for node 0, and at each later clock for a leader that read its own id |
| EpochTheorems.QuorumsAtEveryClock | server/cabinet/smr/pmgr.go:44-50 | at every clock of every run, quorums have t+1 nodes or more and any two of them meet; where there is one, the total is twice the majority |
| EpochTheorems.WorstCaseTolerance | README.md:80 | any n-t nodes are a weighted quorum of a clock if and only if its re-ranking succeeded |
| EpochTheorems.BestCaseTolerance | README.md:80 | when t followers replied and the re-ranking succeeded, they and the node it was for are a quorum of the next round, so n-t-1 nodes may fail |
| EpochTheorems.LastArrivalDecides | server/cabinet/consensus.go:57-77 | for t >= 1, on quorum exit the sum is the true weight of leader and distinct successful followers, above the majority, and without the last one not |
| EpochTheorems.TimeoutMeansManySilent | server/cabinet/consensus.go:79-82 | for t >= 1, a round without quorum heard fewer than n-t-1 followers, and those heard are no quorum |
| EpochTheorems.QuorumExitIsQuorum | server/cabinet/consensus.go:75-77 | a round that did not time out was answered by a weighted quorum, unless a set of followers can mislead its count |
| EpochTheorems.NeedsManyExact | server/cabinet/consensus.go:58-77 | in every run it takes t followers to pass a round's majority if and only if the guard holds at its clock, or the clock has no map |
| EpochTheorems.TrustIsExact | server/cabinet/consensus.go:58-77 | in every run, of each round: every exit its weights allow is a weighted quorum if and only if no set misleads it, and has t+1 nodes if and only if the guard holds |
| EpochTheorems.TopWeightIsTrusted | server/cabinet/consensus.go:58-77 | at every clock where the leader holds the heaviest weight no set misleads it and the guard holds |
| EpochTheorems.AcknowledgedIsHeld | server/cabinet/consensus.go:57-100 | an acknowledged command of a round whose guard holds was run by the leader and at least t+1 nodes in all |
| EpochTheorems.AcknowledgedByTopWeight | server/cabinet/consensus.go:57-100 | so was any acknowledged at a clock the leader ranked for itself, whatever other leaders did |
| EpochTheorems.AcknowledgedMeetsElectionQuorum | server/cabinet/election.go:32 | one of those is in every set of n-t nodes |
| EpochTheorems.HoldersOnlyGrow | server/cabinet/consensus.go:131-165 | no step takes a node from those that ran a command |
| Executions.CallIs | server/cabinet/service.go:118-129 | in any epoch, a call succeeds exactly if its clock is not below the follower's and its command applies, and leaves clock, weight and store accordingly |
| Executions.DecideIs | server/cabinet/consensus.go:86-100 | the leader runs a quorate round's command and answers with its result; an expired round runs nothing |
| Executions.TakeCommandIs | server/cabinet/consensus.go:34-58 | a round opens with its clock's map and with the PrioVal of that moment as its sum |
| Executions.RanExact | server/cabinet/consensus.go:131-165 | in every run, other leaders or not, a node counts as having run a command exactly if the run has a step in which that command applied to the node's store, at a clock not stale, and was run |
| Executions.AcknowledgedWasExecuted | server/cabinet/consensus.go:57-100 | so t+1 nodes really ran an acknowledged write wherever its round's guard holds |
| EpochTheorems.CallsInOrderPerFollower | server/cabinet/consensus.go:133-149 | in every run each follower is called for 0, 1, 2, ..., runs them in that order, and no call overtakes |
| EpochTheorems.ChannelsHaveRoom | server/cabinet/consensus.go:35-36 | both channels of a round hold at most n-1 replies together |
| EpochTheorems.TaskNeverBlocks | server/cabinet/consensus.go:154-164 | a task can always send its token and its reply, however late |
| EpochTheorems.LoopNeverBlocks | server/cabinet/consensus.go:65-67 | the wait and drain loops can always queue a reply they received |
| EpochTheorems.OneReplyPerCommand | server/cabinet/consensus.go:97-100 | each command taken is answered once, in order, with its own round's verdict |
| EpochRuns.FollowerAnswers | server/cabinet/consensus.go:136-165 | a free follower whose handler succeeds can answer its round in any state of everyone else |
| EpochRuns.RoundSucceeds | server/cabinet/consensus.go:57-100 | a round just opened can be acknowledged by any free followers that are heavy enough together, the others not being called |
| EpochWitnesses.FewAnswersSuffice | README.md:80 | from every valid start there is a run in which only nodes 1 to t are called (one node for t = 0) and the first write is acknowledged |
| EpochWitnesses.BestCaseCarries | README.md:80 | after any settled round of any run with t replies (one for t = 0), the next write can be acknowledged with only the first t of them being called |
| EpochWitnesses.ReplicasPart | server/cabinet/consensus.go:86-90 | from every valid start, a run in which a timed-out write leaves a follower's store ahead of the leader's |
| EpochWitnesses.MisleadingIsReached | server/cabinet/consensus.go:57-100 | a misleading set of free followers leads to a reachable acknowledged round that was no weighted quorum |
| EpochWitnesses.FewAreReached | server/cabinet/consensus.go:57-100 | fewer than t free followers that pass lead to a reachable acknowledged round of at most t nodes |
| EpochWitnesses.ClockGoesUnranked | server/cabinet/consensus.go:120-123 | from every valid start that others may disturb, a run whose re-ranking fails and leaves clock 1 without a map |
| Replicas.NoCallIsStale | server/cabinet/service.go:118-122 | in the initial leader's epoch no call on the wire is ever rejected as stale |
| Replicas.FollowerHoldsManagersWeight | server/cabinet/service.go:118-122 | a follower's weight is exactly the manager's for it at the clock of its last call |
| Replicas.WhatReplicasHold | server/cabinet/consensus.go:34-100 | in every run each follower has replayed a prefix of the commands, and the leader exactly those that did not time out, answering what became of each |
| Replicas.AgreementExact | server/cabinet/consensus.go:86-90 | the leader is on the followers' history at every answer if and only if each timed-out command changes nothing there |
| Replicas.ReplicasAgree | server/cabinet/consensus.go:34-100 | then the leader's store is each follower's after as many calls, and its own execution never failed |
| Leaders.RunRound | server/cabinet/consensus.go:34-128 | one round on any node: honest count, the command run exactly if not timed out, the reply that fits, the next clock ranked for the id read or left without a map |
| Leaders.Commit | server/cabinet/consensus.go:86-100 | a timed-out command does not reach the collection; any other does, and its error is the reply |
| Leaders.Rerank | server/cabinet/consensus.go:120-127 | the re-ranking for any id: a new map exactly if it is a node's that did not reply |
| Leaders.RunConsensus | server/cabinet/consensus.go:24-129 | the loop on any node, with any PrioVal and leader id read each round: a reply per command in order, the collection exactly the commands that did not time out, each clock ranked for the id read and then by the replies in order, or without a map, and a quorum of t+1 or more behind each reply where the leader's weight is not overstated |
| Leaders.LoopAnswers | server/cabinet/consensus.go:57-118 | each round of the loop queues the arrivals before its verdict and then the late ones, stops at the first sum above the majority or at the deadline, and answers with what the command did to the collection |
| Leaders.LoopRewardsReplies | server/cabinet/consensus.go:107-127 | after each round of the loop whose re-ranking succeeds, the node ranked for holds scheme[0] and the j-th replier scheme[j+1] |
| Leaders.InitialLeaderIsTrusted | server/cabinet/consensus.go:57-100 | ranking by its own id, the initial leader has a quorum behind every reply |
| Miscounts.SumAgainstWeight | server/cabinet/consensus.go:58-70 | the sum differs from the true weight by what the leader's PrioVal differs from its map entry |
| Miscounts.QuorumExitExact | server/cabinet/consensus.go:58-77 | every exit is a weighted quorum if and only if no set of followers is misleading |
| Miscounts.LargeExitExact | server/cabinet/consensus.go:58-77 | under a ranking every exit has t+1 nodes or more if and only if t <= 1 or PrioVal and the t-1 heaviest others stay within the majority |
| Miscounts.FirstRoundExact | server/main.go:301-305 | the same on the initial map: exactly which PrioVal exposes an elected leader's first round |
| Miscounts.HonestLeader | server/cabinet/consensus.go:58 | no set misleads a leader whose PrioVal is at most its map entry |
| Miscounts.HonestNeedsMany | server/cabinet/consensus.go:58 | and it then takes t followers to pass |
| Miscounts.TwoAreEnough | server/cabinet/consensus.go:58 | no set misleads any leader where n - t <= 2, as with three nodes by default |
| Leaders.RoundHasQuorum | server/cabinet/consensus.go:58-77 | a round of the loop that did not time out has a weighted quorum if PrioVal is at most the leader's map entry |
| SevenNodes.SevenNodesRatio | server/cabinet/smr/pmgr.go:64-73 | seven nodes with the default tolerance get ratio 1.08 |
| ElectedLeaders.FirstWriteOnFew | server/main.go:301-305 | a run of the initial leader's epoch, then one of the epoch node 4 takes over from it, whose first write is acknowledged and run by at most 3 nodes with t >= 3 |
| ElectedLeaders.SevenNodesTempted | server/main.go:174 | seven nodes as deployed meet that run's condition |
| DeposedLeaders.AcknowledgedOnFew | server/cabinet/consensus.go:120 | a run in which a deposed leader re-ranks by another's id and acknowledges a write run by at most 3 nodes with t >= 3 |
| DeposedLeaders.SevenNodesOnFew | server/cabinet/service.go:56 | the same with seven nodes as deployed |
| Services.ServerState.TryVote | server/cabinet/smr/state.go:41-53 | votes exactly for terms above the last vote's |
| Services.ServerState.SetTerm | server/cabinet/smr/state.go:38 | overwrites the term, up or down, and nothing else |
| Services.ServerState.SetLeaderID | server/cabinet/smr/state.go:29-32 | overwrites the leader id and nothing else |
| Services.CabService.RequestVote | server/cabinet/service.go:66-88 | grants exactly above both terms, and then moves to the term with its vote; else changes nothing; the leader id stays |
| Services.CabService.Heartbeat | server/cabinet/service.go:45-64 | accepts exactly terms not below its own and then takes the sender as leader; a refusal keeps the old leader and refreshes nothing; term and vote never change |
| Services.CabService.ConsensusService | server/cabinet/service.go:115-130 | succeeds exactly if the clock is not below the node's and the command applies, and then has run it; a call that is not stale leaves its clock and weight even if the command fails; a stale one changes nothing |
| Services.StartElection | server/cabinet/election.go:22-87 | stands for the next term and wins exactly on n-t votes, its own counted unconditionally, and a winner is its own leader; calls its service handles meanwhile take effect in between, and never let it vote in its term again |
| Services.Stand | server/cabinet/election.go:28-30 | stores the next term, and votes for itself exactly if it has not voted in that term or a later one |
| Services.CallsOnlyRaise | server/cabinet/service.go:48-85 | no sequence of heartbeats and vote requests lowers a node's term or changes its vote in a term |
| Services.LastCallCounts | server/cabinet/service.go:45-88 | what one more call adds to those a service has handled |
| Services.CountIsMachineCount | server/cabinet/election.go:62-66 | the method's count is the machine's |
| Services.RunHeartbeat | server/cabinet/heartbeat.go:23-68 | over any answers the leader is deposed once if one is a rejection, else never |
| Services.Deposition.Stop | server/cabinet/heartbeat.go:25-33 | the once-guarded stop |
| Services.Deposition.Hear | server/cabinet/heartbeat.go:57-68 | only an answer that refuses the heartbeat stops the leader |
| ElectionSafeties.RunVoteInv | server/cabinet/election.go:22-87 | every vote a candidacy holds was really cast for its node in its term, in every run |
| ElectionSafeties.RunNeverMutual | server/cabinet/election.go:28-43 | two candidates of one term never hold each other's vote |
| ElectionSafeties.ElectionSafety | server/cabinet/election.go:30-33 | 2t < n, all interleavings: of two nodes that won one term, one had its self-vote refused |
| ElectionSafeties.SpareNodeMakesSafe | server/cabinet/election.go:32-33 | with 2t+1 < n no two nodes win one term, refused self-votes or not |
| ElectionSafeties.HeartbeatIs | server/cabinet/service.go:48-56 | in the machine too a heartbeat of a term not below the node's sets its leader id only, and any other sets nothing but the sender's monitor going |
| ElectionSafeties.LeaderIdIs | server/cabinet/service.go:56 | no step but an accepted heartbeat and a won election changes a leader id |
| ElectionSafeties.LeadersHaveWon | server/cabinet/election.go:77-81 | in every run each leader id held is node 0's or that of a node that has won an election |
| Elections.FinishIs | server/cabinet/election.go:77-86 | in the machine a candidate wins exactly on n-t counted votes, and otherwise goes back to its monitor |
| ElectionWitnesses.DoubleWin | server/cabinet/election.go:28-33 | for 2 <= n <= 2t+1, a run in which node 1 refuses node 0's heartbeat and both win term 1 |
| ElectionWitnesses.OneWinnerPerTermExact | server/cabinet/election.go:22-87 | at most one winner per term in all runs if and only if n > 2t+1 or n <= 1 |
| ElectionWitnesses.AtomicOneWinnerPerTermExact | server/cabinet/election.go:22-87 | with uninterrupted handlers and starts: if and only if n > 2t or n <= 1 |
| AtomicElections.StandIs | server/cabinet/election.go:28-30 | an uninterrupted start as one change of the candidate's state |
| AtomicElections.RequestIs | server/cabinet/service.go:68-88 | an uninterrupted RequestVote as one change of the voter's state |
| AtomicElections.AtomicIsReachable | server/cabinet/service.go:68-88 | uninterrupted runs are runs of the interruptible machine |
| AtomicElections.VotesFollowTerms | server/cabinet/smr/state.go:44-53 | term and votedForTerm agree on every node, self-votes always succeed, term 0 is never voted for |
| AtomicElections.TermsNeverDecrease | server/cabinet/service.go:79-80 | no node's term or votedForTerm ever falls |
| AtomicElections.AtomicElectionSafety | server/cabinet/election.go:32-33 | 2t < n alone gives one winner per term |
| AtomicElections.StaleLeaderFound | server/cabinet/service.go:48-54 | with whole handlers, after a later term is won, any t+1 nodes that answer an older heartbeat, each at its own later moment, include a refusal |
| StaleLeaders.StaleLeaderAccepted | server/cabinet/service.go:79-80 | with interrupted handlers, a run after which a leader of a term older than one already won is accepted by all |
| StaleLeaders.VotesSurvive | server/cabinet/smr/state.go:44-53 | in every interleaving, once a term is won any t+1 nodes include one that votes for no term up to it again |
| StaleLeaders.StaleLeaderFoundUnlessLagging | server/cabinet/service.go:48-54 | in every interleaving, t+1 nodes whose terms have not fallen behind their votes include a refusal |
| Cabinet.SoundImpliesMinority | server/cabinet/smr/pmgr.go:61-63 | I1 and I2 imply 2t < n |
| Cabinet.NoRatioForMajorityTolerance | server/main.go:373-375 | for 2t >= n, t beyond n included, no positive ratio passes |
| Cabinet.OneNodeOneFailure | server/main.go:373-375 | with n = 1 and t = 1 the search runs past zero and stops at -0.01 |
| Cabinet.RatioExistsIffMinority | server/main.go:373-375 | a positive ratio that passes exists if and only if 2t < n |
| DeployedTolerance.SpanPasses | server/cabinet/smr/pmgr.go:67-68 | at a fixed ratio and tolerance, passing at both ends of a span of cluster sizes means passing throughout |
| DeployedTolerance.TwentyOneIsTheFirstGap | server/main.go:174 | with 21 nodes and tolerance 10 the deployed step finds none |
| Cabinet.TwentyNodesAnyTolerance | server/main.go:373-375 | up to twenty nodes the deployed step finds a positive ratio if and only if 2t < n |
| Cabinet.InitCabinetPriority | server/main.go:170-181 | the manager and weight state a node starts with: the geometric scheme of base 10 and of the first ratio that passes, valid whenever the search tries a positive ratio |
| Cabinet.StartDeployed | server/main.go:170-181 | every node of a supported cluster starts with the scheme, majority and own weight of one valid epoch; with seven nodes those of ratio 1.08 |
| Cabinet.SevenNodesSearch | server/cabinet/smr/pmgr.go:64-73 | the first passing ratio of seven nodes is the 93rd tried, 1.08 |
| Cabinet.DeployedIsValid | server/main.go:174 | so they do for every supported cluster size as deployed |
| Cabinet.AcknowledgedReachesEveryWinner | server/cabinet/election.go:32-86 | an acknowledged write of a round whose guard holds was run by t+1 nodes or more, one of them among the votes any winner counted |
| Cabinet.DeployedClusterKeepsWrites | server/main.go:170-181 | the same for every write the undisturbed initial leader acknowledged, every supported cluster size, default tolerance and step |
| Cabinet.StaleLeaderIsDeposed | server/cabinet/heartbeat.go:57-68 | with whole handlers the stale leader hears a rejection, hence RunHeartbeat deposes it |

## Left out

- RatioSearch.CalcInitPrioRatio: is stated where some ratio passes; elsewhere the source loops forever, which `Halts` decides for the deployed parameters.
- PriorityManagers.PriorityManager.Init: likewise requires that the search ends.
- Cabinet.InitCabinetPriority: likewise requires that the search ends.
- PriorityManagers.PriorityManager.UpdateFollowerPriorities: takes the queue as a list shorter than the scheme; a longer one panics in the source and never occurs in an epoch.
- Services.StartElection: has the peers' answers given, asked in id order rather than at once; the calls its own service handles come between the standing and the verdict, and its start is not interrupted, which is the subject of `Elections`.
- Services.RunHeartbeat: takes the answers in the order they come back; tickers, intervals and reconnecting are not modelled.
- Leaders.RunConsensus: takes each round's arrivals, distinct followers, and the PrioVal and leader id it reads as given; in `Epochs` the tasks and the other leaders that decide these run concurrently.
- ToleranceRange.SearchHaltsForMinority: gives a sufficient step; beyond twenty nodes and for tolerances other than the default it is not decided which coarser steps also meet a ratio.
- executeRPC, the channels and the connection table are values in `Epochs` and `JobQueue`, not shared objects, so that all interleavings are covered; locks appear as atomic steps.
- Floating-point rounding and the accuracy of math.Pow.
- net/rpc and TCP: a connection may break at any time, and sends nothing more once it has; a call already sent may still run.
- MongoDB faults and JSON decoding: a command carries its decoded value or none, and a collection is a finite map from id to document with the shared seed.
- Clocks, jitter and timeouts are free choices of the machines; that rounds and elections do finish is not claimed.
- Weights that other leaders hand to a leading node are taken to be at most the heaviest of the scheme, which all nodes share.
- Data safety across leader changes: consensus calls carry no term and votes compare no logs, so none is claimed.
- A node that leads a second time, with connections and maps left from an earlier epoch of its own.
- Restarts: a node that crashes and comes back has forgotten its votes and could cast a second one in a term, which no result on winners survives; the source disclaims crash recovery, and a node that fails here stays silent.
- That a winner is deposed at most once per term it won: a monitor may be started by any refused heartbeat of it, which only adds runs.
- The heartbeat of an elected leader uses the term it reads after winning; the theorems take the heartbeat's term as given.
- Commit and log index counters, the gateway, HTTP handlers, CSV seeding, the command line and the scripts.
