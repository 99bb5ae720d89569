# Coinkit: consensus and ledger, verified

Coinkit is a cryptocurrency whose nodes agree on one block after another with the
Stellar Consensus Protocol (SCP). This project models two cores of it in Dafny and
proves what they keep over every run.

**Consensus.** A node has a *quorum slice*: some members and a threshold. It nominates
values, then votes on *ballots* (a number and a value) in three phases: Prepare,
Confirm and Externalize. It keeps its ballot `b`, the two highest conflicting ballots
it accepted as prepared (`p`, `p'`), the range `[cn, hn]` it votes to commit, the next
value `z`, and the latest message of each peer.

**Ledger.** A block is a *chunk* of signed operations. Accounts live in a layered
copy-on-write map. A queue keeps the best pending operations and the chunks under
consideration. Chain, queue and database move from slot to slot together, and a node
restarts by replaying its database.

## How the model is laid out

Code that updates fields in place is a class whose methods keep the loops and branches
of the program. Every such method is proved against a function on values, and the
properties are lemmas about those functions.

| part | functions on values | classes | properties |
|---|---|---|---|
| quorums and ranges | Quorum, Ranges | | Quorum, Ranges |
| balloting | BallotMessages, Balloting, Investigation | BallotNode | BallotHistory, BallotRuns, HandleTermination, MessageMeaning, Progress, Externalizing, HandleProgress, Patience |
| networks | Agreement, Network, Calls | | Agreement, Network, BallotValidity, Disagreement, SettlingRuns |
| nomination | Nominating | NominationNode | NominationRefinement, NominationNetwork, NominationRuns, NominationProgress, NominationSuccess |
| accounts and money | Ledger | AccountMaps | Money, WholeLedger |
| queue and chunks | Priority, Chunks, Queueing | OperationQueues | Priority, Chunks, Queueing |
| node | Lockstep | Blocks, Chains, Nodes | Lockstep, Replicas |

## Results worth knowing

* **Agreement is not unconditional.** The code moves to its next ballot with `z`, or
  the nominated value, in every phase (`consensus/ballot_state.go:429-437`), and a node
  that leaves Prepare for the value it already has does not set `z`
  (`consensus/ballot_state.go:359-367`). `Disagreement.CorrectNodesCanDisagree` gives a
  run of four nodes, one of them faulty, in which two correct nodes claim different
  values. `Network.AgreementIffNoStrayBump` says exactly when correct nodes agree, for
  every run. `Network.AgreementWhenEntriesAreAnchored` is agreement for runs in which
  `z` holds `b.x` on leaving Prepare, and `Network.QuorumEntryIsNotLoose` shows that
  leaving by a quorum always satisfies this.
* **The loop of `Handle` need not end, even while all correct nodes agree.**
  `SettlingRuns.HandleCanLoopInPrepare` is a run within the fault bound after which one
  message of the faulty member keeps a correct node in Prepare in the loop for ever: the
  correct nodes agree, and the only one past Prepare holds its value in `z`. The loop ends
  when the peers past Prepare do not block us (`HandleTermination.SettleTerminates`). In
  every phase there is an exact condition while the messages in hand let nothing be
  accepted or confirmed (`HandleTermination.QuietSettlesIff`), and past Prepare there are
  two more (`ExternalizedSettlesIff`, `ConfirmedSettlesIff`). Past Prepare the loop always
  ends in runs where `z` holds `b.x` on leaving Prepare
  (`SettlingRuns.HandleEndsOutsidePrepare`); it may not after correct nodes have come to
  disagree (`SettlingRuns.HandleCanLoopForever`).
* **A message past Prepare can change without comparing as newer, or even compare as
  older**, and a receiver then drops it. `BallotRuns.StepMovesUpIff` and `RunMovesUpIff`
  say exactly when: a commit is accepted below the accepted range, the next ballot has
  another value, or it starts a range that was still open.
  `Disagreement.ConfirmMessageCanChangeUnnoticed` reaches such a state. In Prepare this
  never happens.
* **What the messages in hand allow is found, within limits of the code.** A number above
  what a blocking set talks about is not examined, nor is our own ballot when it lies below
  every number the messages name, and a ballot below two conflicting accepted ones is
  forgotten. Within that, a commit of a blocking set ends Prepare
  (`Externalizing.CommitIsFound`), and with a quorum it ends in an outcome
  (`Externalizing.ValueExternalizes`, `HandleProgress.HandleExternalizes`). A Confirm or
  Externalize message whose numbers are all 0 supports ballots that its range does not
  name (`MessageMeaning.RangeSharesIff`); correct nodes send none
  (`MessageMeaning.SendersAreSane`).
* **Money is not always conserved.** Writing signer and recipient in turn goes wrong
  when they are the same, and sums wrap around. `Money.ProcessConservesIff` says exactly
  when processing conserves money, `Money.ReplayIff` when an operation can be accepted
  again at once; `Money.SelfPaymentCreatesMoney` and `SelfPaymentCanBeReplayed` are
  operations for which it goes wrong.
* **A built chunk need not be valid**, because it is built from all operations and not
  from those that went through, and its documentation says otherwise
  (`currency/operation_queue.go:226-262`). `Chunks.BuiltChunkIsValidIff` and
  `Queueing.KnownChunksCanBeFinalized` say when finalizing cannot fail.
* **Hashing a chunk stops the program when it lists an account that does not exist**
  (`currency/ledger_chunk.go:45-49`). `Chunks.BuiltChunkHashesIff` says when that happens to
  a built chunk, and `Chunks.BuiltChunkMayNotHash` is one.
  `Queueing.MissingAccountStopsLearning` is a received one.
* **Nominating a value is not followed by an evaluation**, so a value can be left behind.
  `NominationRefinement.NominatingKeepsAllCheckedIff` and
  `NominationRuns.AlwaysCheckedIff` say exactly when.
* **A node supports every valid nomination it hears**, also when it already has a
  candidate, against the comment (`consensus/nomination_state.go:240-245`).
* **A transaction message adds at most one of its operations**
  (`currency/operation_queue.go:186-188`, `Queueing.MessageAddsAtMostOne`).

## What is assumed

* Ballot numbers, slots and counters are unbounded naturals. Numbers in messages are not
  negative, as `MakeRange` demands. Account fields are 32 and 64 bits wide and wrap.
* Senders are authentic, and messages a node sends to itself are ignored, as the
  program does.
* Map iteration is in an arbitrary order.
* The hash of a chunk, the verification of an operation and of its signature are
  arbitrary functions. Only `Lockstep.SameOutcomesSameLedger` and
  `Replicas.ReplicasAgree` need the hash to be injective. Where operations have to be told apart by fee and signature, a lemma says so.
* During one call, what the value store answers to the consensus (predicted value,
  known values, suggestion, priority) is arbitrary. Asking it also caches the chunk it
  builds; that is a step of its own, which may happen at any time.
* The sorted set library replaces an element that compares equal.
* `fatal` and `panic` end the program: the methods report it and promise nothing
  further, or prove that it cannot happen.

## Model

| member | source | states |
|---|---|---|
| Quorum.AtLeast | consensus/quorum.go:28-42 | true exactly when at least one member, and at least `t` of them, are among the nodes |
| Quorum.BlockedBy | consensus/quorum.go:44-46 | true exactly when at least one member, and at least n-t+1 of them, are among the nodes |
| Quorum.SatisfiedWith | consensus/quorum.go:48-50 | true exactly when at least one member, and at least t of them, are among the nodes |
| Quorum.MeetsQuorum | consensus/quorum.go:74-95 | terminates, and is true exactly when some subset of the nodes contains us and satisfies the known slice of each of its members |
| Quorum.FilterKeepsQuorums | consensus/quorum.go:74-95 | dropping the nodes whose slice is unknown or unsatisfied loses no quorum, so filtering reaches the greatest fixpoint |
| Quorum.BlockingIsDualToSatisfying | consensus/quorum.go:44-50 | for unique members and 1 <= t <= n, a set blocks if and only if it meets every satisfying set |
| Quorum.QuorumsIntersect | consensus/quorum.go:48-50 | two satisfying sets share at least 2t-n members |
| Quorum.DefaultThresholdToleratesFaults | consensus/quorum.go:55-66 | with t = 2n/3+1 and f = (n-1)/3, two quorums share more than f members and a blocking set has more than f |
| Ranges.UnionIsLeastCover | consensus/range.go:7-27 | the union is valid, covers both ranges, and lies in every range that does |
| Ranges.MakeRange | consensus/range.go:30-39 | the loop gives the tight range around the numbers that are not zero |
| BallotMessages.CompareIsTotalPreorder | consensus/ballot_message.go:398-462 | comparing messages is antisymmetric and transitive across phases |
| MessageMeaning.PrepareMessageSays | consensus/ballot_message.go:172-208 | a Prepare message accepts, votes to prepare, votes to commit and could vote for exactly what its sender's p, p', b, cn and hn say |
| MessageMeaning.PrepareMessageSaysThePast | consensus/ballot_message.go:172-181 | what it says is prepared was accepted by its sender, and every ballot its sender ever accepted is said to be prepared, unless two conflicting ones of other values, at least as high, are |
| MessageMeaning.ConfirmMessageSays | consensus/ballot_message.go:279-297 | a Confirm message says that its value is prepared at every number and committed exactly from cn to hn |
| MessageMeaning.ExternalizeMessageSays | consensus/ballot_message.go:353-371 | an Externalize message says that its value is prepared at every number and committed exactly from cn on |
| MessageMeaning.RuledOutIsNeverHeld | consensus/ballot_message.go:198-208 | over every run, a sender in Prepare that could never vote for a ballot does not come to hold it in Prepare |
| MessageMeaning.RangeSharesIff | consensus/ballot_message.go:210-222 | for every ballot a message supports in some way, the range of its value holds one that it supports in that way, if and only if it is a Prepare message or has a number that is not 0 |
| MessageMeaning.SendersAreSane | consensus/ballot_state.go:683-732 | over every run, what a node sends is such a message |
| BallotNode.BallotState.constructor | consensus/ballot_state.go:70-79 | starts in Prepare with nothing and an empty history |
| BallotNode.BallotState.MaybeAcceptAsPrepared | consensus/ballot_state.go:123-202 | accepts (n,x) by quorum or blocking set, updates p and p', drops an aborted commit vote, keeps the invariant on the whole history, and returns whether anything changed |
| BallotNode.BallotState.MaybeConfirmAsPrepared | consensus/ballot_state.go:228-311 | confirms by a quorum of acceptances, updates hn, z, b and starts to vote to commit when nothing aborts it |
| BallotNode.BallotState.MaybeAcceptAsCommitted | consensus/ballot_state.go:314-369 | enters Confirm or widens its range by quorum or blocking set, replacing another value |
| BallotNode.BallotState.MaybeConfirmAsCommitted | consensus/ballot_state.go:372-416 | externalizes, or widens the externalized range, by a quorum of acceptances |
| BallotNode.BallotState.GoToNextBallot | consensus/ballot_state.go:419-446 | takes the next number with z or else the prediction, and votes to commit it when it was already confirmed prepared and is not aborted |
| BallotNode.BallotState.CheckForBlockedBallot | consensus/ballot_state.go:451-470 | moves on exactly when peers that could never vote for the ballot block us and there is a value |
| BallotNode.BallotState.HandleStaleQuorum | consensus/ballot_state.go:476-497 | moves on unless peers with lower ballots block us, and returns whether it did |
| BallotNode.BallotState.CountRepeat | consensus/ballot_state.go:502-513 | counts a repeated message and gives up on the ballot when a quorum has repeated itself three times |
| BallotNode.BallotState.MaxActionableBallotNumber | consensus/ballot_state.go:540-567 | the largest n such that the peers with MaxN >= n block us, and 0 if there is none |
| BallotNode.BallotState.InvestigateValue | consensus/ballot_state.go:570-585 | examines exactly the relevant ballots up to the actionable number, and then the current one |
| BallotNode.BallotState.InvestigateValues | consensus/ballot_state.go:587-596 | examines each value once |
| BallotNode.BallotState.Handle | consensus/ballot_state.go:609-637 | a message that is not newer counts as a repeat; a newer one is stored and investigated until no ballot is blocked |
| BallotNode.BallotState.AssertValid | consensus/ballot_state.go:643-681 | none of the fatal checks can fail |
| BallotNode.BallotState.OutgoingMessage | consensus/ballot_state.go:683-732 | the message that advertises the state in its phase |
| Investigation.MinorityCannotStretchRange | consensus/ballot_state.go:540-585 | peers that do not block us cannot make us examine a number above what somebody else talks about |
| Progress.BallotIsAccepted | consensus/ballot_state.go:123-202 | investigating a ballot that a quorum supports or a blocking set accepted as prepared accepts it, or leaves Prepare, unless two conflicting ballots at least as high are accepted |
| Progress.PreparedIsConfirmed | consensus/ballot_state.go:228-311 | investigating a ballot above hn that we and a quorum accepted as prepared confirms it, or leaves Prepare |
| Progress.VotedCommitIsAccepted | consensus/ballot_state.go:314-369 | investigating a number we vote to commit, which a quorum around us supports, accepts the commit |
| Progress.CommitIsAccepted | consensus/ballot_state.go:314-369 | investigating a ballot that a blocking set committed, in Prepare or past it with its value, leads past Prepare with that value, and in Confirm the range covers the number |
| Progress.CoveredNumberIsExternalized | consensus/ballot_state.go:372-416 | in Confirm, investigating a number of our range that a quorum around us covers externalizes it, with cn and hn equal to it |
| Progress.ExternalizedRangeGrows | consensus/ballot_state.go:407-415 | after externalizing, investigating a number that a quorum around us covers adds it to the range |
| Progress.PreparedIsFound | consensus/ballot_state.go:570-585 | investigating a value finds every such ballot at a number that is examined |
| Externalizing.CommitIsExamined | consensus/ballot_state.go:540-585 | when a blocking set committed a ballot within the actionable numbers, a number is examined that all of them committed |
| Externalizing.CommitIsFound | consensus/ballot_state.go:570-585 | so investigating the value, in Prepare or past it with that value, leads past Prepare with that value |
| Externalizing.ValueExternalizes | consensus/ballot_state.go:570-585 | and externalizes it, if these peers and we are a quorum |
| HandleProgress.HandleFindsPrepared | consensus/ballot_state.go:587-637 | handling a new message accepts as prepared every examined ballot of each value it names that a quorum supports or a blocking set accepted, unless two conflicting ones at least as high are, or leaves Prepare |
| HandleProgress.HandleExternalizes | consensus/ballot_state.go:609-637 | a node in Prepare, or past it with the value of a new message past Prepare, externalizes if with this message a blocking set that makes a quorum with us has committed a ballot of that value within the actionable numbers; with that value and at rest, unless its ballot is blocked then |
| HandleProgress.ConfirmingStartsVote | consensus/ballot_state.go:296-308 | a node that confirms a ballot of its value at or above its own then votes to commit every number between the two, if no ballot it ever accepted rivals it |
| HandleProgress.MovingStartsVote | consensus/ballot_state.go:438-445 | a node that moves to a ballot already confirmed as prepared then votes to commit every number up to hn, under the same condition |
| HandleProgress.CorrectNodesCanExternalize | consensus/ballot_state.go:372-416 | a run from the start within the fault bound in which correct nodes agree and one of them comes to an outcome |
| Patience.NewsIsActedUpon | consensus/ballot_state.go:609-637 | a new message is remembered and clears its sender's count, and the node then rests only with a ballot that no blocking set rules out, or without a value to move on with |
| Patience.MovesOnIff | consensus/ballot_state.go:476-513 | a message that is not new makes us take the next ballot if and only if with it a quorum has repeated itself three times, no blocking set lags behind, and there is a value; otherwise it only counts |
| Patience.PatienceRunsOut | consensus/ballot_state.go:476-513 | in whatever order they come, three repetitions by every node of a quorum make a node with a value leave its ballot, unless a blocking set lags behind |
| Investigation.HandleIsPlay | consensus/ballot_state.go:609-637 | handling a message is a list of single events, of which only the first receives a message |
| BallotHistory.PairIsLosslessForAborts | consensus/ballot_state.go:131-225 | p and p' answer every abort question as the full set of ballots ever accepted as prepared would |
| BallotHistory.NeverConfirmsContradiction | consensus/ballot_state.go:284-287 | a node that votes to commit never has to confirm another value |
| BallotHistory.StepKeepsInv | consensus/ballot_state.go:123-446 | every event keeps the invariant that ties the fields to the node's whole past |
| BallotRuns.FatalChecksNeverFail | consensus/ballot_state.go:643-681 | over every sequence of events and any messages: the checks on cn, hn, p and p' hold, b is monotone in Prepare, and the contradiction check never fires |
| BallotRuns.NeverVotesAgainstItself | consensus/ballot_state.go:289-308 | over every run: while cn is set in Prepare, z holds b.x, every earlier ballot of another value is below cn, and (hn,b.x) was accepted as prepared and not as aborted |
| BallotRuns.PairIsLosslessOverRuns | consensus/ballot_state.go:206-225 | over every run, AcceptedAbort(n,x) holds exactly when a ballot accepted as prepared has number >= n and another value |
| BallotRuns.MessagesOnlyMoveUp | consensus/ballot_message.go:398-462 | over every run, phases never go back, a later phase compares higher, and a later Prepare message is the same or compares higher |
| BallotRuns.StepMovesUpIff | consensus/ballot_message.go:398-462 | in every phase, an event leaves the message as it is or makes it compare higher, if and only if it does not accept a commit below the range, take another value or start an open range past Prepare |
| BallotRuns.RunMovesUpIff | consensus/ballot_state.go:609-619 | over every run, of any two messages the later is the same or compares higher, if and only if the run has no such event |
| HandleTermination.SettleTerminates | consensus/ballot_state.go:621-636 | the loop ends within (highest Prepare vote) + 2 - b.n rounds when senders past Prepare do not block us |
| HandleTermination.ExternalizedSettlesIff | consensus/ballot_state.go:451-470 | after externalizing, the loop ends if and only if it need not move on, or senders past Prepare with another value than it moves on with do not block us |
| HandleTermination.ConfirmedSettlesIff | consensus/ballot_state.go:451-470 | the same in Confirm, if z or else the prediction keeps our value and no commit of another value can be accepted |
| HandleTermination.QuietSettlesIff | consensus/ballot_state.go:621-636 | the same in every phase, while the messages in hand, with our own support, let nothing be accepted or confirmed |
| SettlingRuns.HandleEndsOutsidePrepare | consensus/ballot_state.go:621-636 | over every run within the fault bound in which z holds b.x on leaving Prepare, handling any message that can arrive ends at every correct node past Prepare |
| SettlingRuns.HandleCanLoopForever | consensus/ballot_state.go:621-636 | a run within the fault bound after which one message keeps a correct node past Prepare in the loop for ever |
| SettlingRuns.HandleCanLoopInPrepare | consensus/ballot_state.go:621-636 | a run within the fault bound, in which correct nodes agree and the only one past Prepare holds its value in z, after which one message keeps a correct node in Prepare in the loop for ever |
| Agreement.OneValueChosen | consensus/ballot_state.go:314-369 | at most one value gathers a commit quorum, if every acceptance as prepared has settled its rivals |
| Network.AcceptedIsSettled | consensus/ballot_state.go:123-202 | the inductive core: when a correct node may accept (m,y) as prepared, every (n,x) with n <= m and x different is dead or a rival below it was chosen |
| Network.CommittedIsChosen | consensus/ballot_state.go:314-369 | when a correct node may accept a commit of x, then x has gathered a commit quorum at some ballot |
| Network.RunKeepsNetInv | consensus/ballot_state.go:123-446 | every run without a stray bump keeps the safety invariant of the whole network |
| Network.AgreementIffNoStrayBump | consensus/ballot_state.go:419-446 | over every run within the fault bound, all values ever claimed outside Prepare by correct nodes agree if and only if no node outside Prepare moved on with another value |
| Network.QuorumEntryIsNotLoose | consensus/ballot_state.go:314-369 | a node that leaves Prepare by a quorum holds its value in z |
| Network.AgreementWhenEntriesAreAnchored | consensus/ballot_state.go:359-367 | over every run in which z holds b.x on leaving Prepare, correct nodes in Confirm or Externalize have the same value |
| BallotValidity.ValuesWerePredicted | consensus/ballot_state.go:123-446 | over every run in which the faulty members do not block, every value a correct node votes for, accepts as prepared or claims past Prepare was predicted by nomination to some correct node |
| Calls.HandleExtendsRun | consensus/ballot_state.go:609-637 | handling any deliverable message extends a run of the network |
| Disagreement.CorrectNodesCanDisagree | consensus/ballot_state.go:429-437 | a run of four nodes within the fault bound, made of whole calls, that ends with two correct nodes in Confirm on different values |
| Disagreement.ConfirmMessageCanChangeUnnoticed | consensus/ballot_message.go:398-462 | a run within the fault bound after which a correct node's Confirm message changes its value and compares equal |
| NominationNode.NominationState.MaybeNominateNewValue | consensus/nomination_state.go:76-96 | nominates the suggestion exactly when we have none and it is our turn |
| NominationNode.NominationState.MaybeAdvance | consensus/nomination_state.go:153-202 | accepts by quorum or blocking set, confirms by quorum, each value once, and returns whether anything changed |
| NominationNode.NominationState.Handle | consensus/nomination_state.go:205-256 | drops a message that is not longer, supports the valid new values, and advances each new value once |
| Nominating.HandleKeepsInv | consensus/nomination_state.go:205-256 | X, Y and Z stay free of duplicates, only grow by appending, and Z lies in Y |
| Nominating.SupportIsValid | consensus/nomination_state.go:234-246 | X grows by exactly the new nominations that are valid |
| NominationProgress.SupportedIsAccepted | consensus/nomination_state.go:153-193 | what we and the latest messages of a quorum around us nominate or accept is in Y after advancing it |
| NominationProgress.BlockedIsAccepted | consensus/nomination_state.go:153-193 | so is what a blocking set of peers accepts |
| NominationProgress.AcceptedIsConfirmed | consensus/nomination_state.go:153-202 | what we and a quorum around us accept is in Z after advancing it |
| NominationProgress.HandleAccepts | consensus/nomination_state.go:205-256 | a message that brings a value makes it accepted, if all of a quorum then support it |
| NominationProgress.HandleConfirms | consensus/nomination_state.go:205-256 | it makes it confirmed, if we and all of a quorum then accept it |
| NominationProgress.HandleRemembers | consensus/nomination_state.go:205-231 | every message counts towards our turn, and just those that list more and take nothing back replace what we have of their sender |
| NominationProgress.TurnComesIff | consensus/nomination_state.go:76-96 | after any messages, a node with nothing nominated takes up a suggestion exactly when it has heard at least threshold times priority of them |
| NominationProgress.PredictionPrefersConfirmed | consensus/nomination_state.go:115-126 | a prediction is made of all confirmed values and no others as soon as there is one, before that of the accepted, before that of the nominated ones |
| NominationProgress.SameConfirmedSamePrediction | consensus/nomination_state.go:115-126 | nodes that confirmed the same values, in any order and whatever else they know, combine the same operations, when fee and signature identify them |
| NominationSuccess.QuorumCanConfirm | consensus/nomination_state.go:76-256 | for every network, value and quorum of at least two correct nodes there is a run after which all of them have accepted and confirmed the value |
| NominationRefinement.AllCheckedMeansIdle | consensus/nomination_state.go:153-202 | every value that meets a rule is listed, if and only if re-evaluating any value changes nothing |
| NominationRefinement.HandleKeepsAllChecked | consensus/nomination_state.go:205-256 | looking only at the new values of an honest message misses nothing that full re-evaluation would find |
| NominationRefinement.NominatingKeepsAllCheckedIff | consensus/nomination_state.go:106-112 | our own nomination leaves nothing to find if and only if it does not complete a quorum for a value not yet accepted |
| NominationRefinement.OwnNominationCanCompleteQuorum | consensus/nomination_state.go:106-112 | a state in which it does, and leaves a value behind |
| NominationRuns.AlwaysCheckedIff | consensus/nomination_state.go:76-256 | over every run in which faulty senders only add to what they said, no correct node ever has a value left to advance, if and only if no own nomination completes a quorum |
| NominationNetwork.AcceptedValuesWereVotedFor | consensus/nomination_state.go:153-256 | over every run of a network whose faulty members do not block, what a correct node accepted or confirmed was voted for by a correct node |
| NominationNetwork.PredictionsWereVotedFor | consensus/nomination_state.go:115-126 | over every run, a correct node predicts only from values that a correct node voted for |
| NominationNetwork.CorrectPeersAreHonest | consensus/nomination_state.go:205-256 | in every reachable network, a correct peer's message is stale or extends its previous one, so the refinement applies |
| AccountMaps.AccountMap.CowCopy | currency/account_map.go:25-30 | the copy sees the same accounts and leaves the original to itself |
| AccountMaps.AccountMap.Get | currency/account_map.go:60-66 | looking through any depth of layers gives what the flat map holds |
| AccountMaps.AccountMap.Set | currency/account_map.go:68-70 | sets one account of the flat map and touches no other layer |
| AccountMaps.AccountMap.Validate | currency/account_map.go:73-91 | the signer exists, the sequence number is next, and the 64-bit cost is covered |
| AccountMaps.AccountMap.Process | currency/account_map.go:103-127 | writes signer and recipient as on a flat map, or nothing if not valid |
| AccountMaps.AccountMap.CheckEqual | currency/account_map.go:49-58 | compares an account, present or not |
| AccountMaps.AccountMap.ProcessChunk | currency/account_map.go:132-153 | processes the operations up to the first failure and then compares the listed accounts, as on a flat map |
| AccountMaps.AccountMap.ValidateChunk | currency/account_map.go:156-159 | returns exactly what ProcessChunk would, and changes no existing map |
| Money.ProcessConservesIff | currency/account_map.go:103-127 | on any accounts, processing conserves balances plus fee if and only if, for another recipient, both sums wrap or neither does, and for oneself, the cost is what a wrap-around takes away |
| Money.AllGoThroughIff | currency/account_map.go:137-144 | operations all go through if and only if each verifies and validates on what those before it leave |
| Money.OthersAreUntouched | currency/account_map.go:103-127 | processing an operation changes no account but those of signer and recipient |
| Money.SelfPaymentCreatesMoney | currency/account_map.go:116-125 | an operation that adds to the total |
| Money.OrdinaryDoesNotWrap | currency/account_map.go:111-125 | with signer and recipient different and a sum that fits, no addition or subtraction wraps |
| Money.RunConserves | currency/account_map.go:132-153 | over any run of ordinary operations (signer and recipient differ, the sum fits in 64 bits) from a total below 2^64, total balance plus fees is constant |
| Money.AttemptsConserve | currency/account_map.go:103-127 | so it is when any of these operations fail |
| Money.RunNeverWraps | currency/account.go:10-13 | from at most the total supply, no addition or subtraction of a run of ordinary operations wraps |
| Money.SequencesAreConsecutive | currency/account_map.go:82-84 | the accepted operations of a signer who does not pay themselves carry consecutive sequence numbers, modulo 2^32 |
| Money.NoReplays | currency/account_map.go:82-84 | an operation of a signer who does not pay themselves is accepted twice only a multiple of 2^32 of their operations apart |
| Money.ReplayIff | currency/account_map.go:116-125 | an accepted operation can be accepted again at once exactly when its signer pays themselves and can afford it |
| Money.SelfPaymentCanBeReplayed | currency/account_map.go:116-125 | an operation that can |
| WholeLedger.ReplayIsOneRun | currency/operation_queue.go:305-325 | finalizing chunk after chunk is one run of all their operations |
| WholeLedger.LedgerConserves | currency/operation_queue.go:305-325 | after any run of a queue from a total below 2^64 whose finalized operations are all ordinary, balances plus all fees ever paid equal the initial total |
| WholeLedger.NothingIsFinalizedTwice | currency/operation_queue.go:305-325 | after any run of a queue, an operation of a signer who never paid themselves was finalized twice only a multiple of 2^32 of their operations apart |
| Priority.HighestFeeFirstIsTotalOrder | util/signed_operation.go:110-128 | the comparator is a total order, and gives 0 exactly for equal fee and signature |
| Priority.ComesFirstIff | util/signed_operation.go:110-128 | a higher fee comes first, and for equal fees the signature that is a prefix of the other or smaller where they first differ |
| Priority.SortedIsUnique | util/signed_operation.go:110-128 | a set sorted by the comparator is determined by its members |
| Chunks.BuiltChunkIsValidIff | currency/operation_queue.go:231-270 | a built chunk is valid if and only if there are at most MaxChunkSize operations and each verifies and goes through in turn |
| Chunks.ChunkIsValidIff | currency/account_map.go:132-153 | a chunk is valid if and only if it has at most MaxChunkSize operations that all go through, and each account it lists then has the listed sequence and balance, or is listed as missing and is |
| Chunks.ValidChunksAgree | currency/account_map.go:146-150 | valid chunks with the same operations that list the same accounts list them alike |
| Chunks.ConflictingPendingMakeInvalidChunk | currency/operation_queue.go:259-262 | two operations with the same signer and sequence number, the first not a self-payment, make an invalid chunk |
| Chunks.BuiltChunkHashesIff | currency/ledger_chunk.go:35-51 | a built chunk can be hashed if and only if everybody named by an operation that is tried has an account beforehand or is paid by one that goes through |
| Chunks.GoodChunksHash | currency/operation_queue.go:231-263 | it can if all its operations go through |
| Chunks.BuiltChunkMayNotHash | currency/operation_queue.go:246-263 | two pending operations whose chunk cannot be hashed |
| Queueing.OfferAllKeepsTheBest | currency/operation_queue.go:90-108 | from empty, adding operations in any order leaves the first QueueLimit of the acceptable ones: any other is preceded by a full queue |
| Queueing.LeftOutPaysLess | currency/operation_queue.go:90-108 | a valid operation is left out only when the queue is full of operations that pay at least as much |
| Queueing.BestIsUnique | currency/operation_queue.go:90-108 | those are one particular sequence when fee and signature identify operations |
| Queueing.RunKeepsInv | currency/operation_queue.go:90-325 | over every run: pending operations are sorted, at most QueueLimit and each valid against the current accounts, the cache is keyed by hash, and accounts, last value and count are the replay of the old chunks |
| Queueing.PendingIsValid | currency/operation_queue.go:213-224 | over every run, each pending operation verifies, is next in its signer's sequence and is covered by their balance |
| Queueing.FinalizeKeepsWhatIsValid | currency/operation_queue.go:218-224 | finalizing keeps exactly the pending operations that still verify and are valid |
| Queueing.ValidOperationGetsIn | currency/operation_queue.go:90-108 | a valid operation gets into a queue with room, unless one there compares equal |
| Queueing.MessageAddsAtMostOne | currency/operation_queue.go:184-189 | a message adds at most one operation, however many are new |
| Queueing.FirstNewIsAdded | currency/operation_queue.go:184-189 | namely the first new one, as if it had come alone |
| Queueing.NothingNewIsAdded | currency/operation_queue.go:184-189 | without a new one the queue stays as it is |
| Queueing.UpdatedIffChanged | currency/operation_queue.go:179-207 | a message counts as an update exactly when it changes the queue |
| Queueing.LearnIff | currency/operation_queue.go:190-204 | after a message just those chunks are known that were, or that it brings valid and under their hash |
| Queueing.FittingSuggestionCanBeFinalized | currency/operation_queue.go:231-270 | a chunk built from operations that fit can be finalized |
| Queueing.MergedIsUnion | currency/operation_queue.go:272-286 | the combined operations are sorted, all from the given chunks, and leave none out |
| Queueing.CombiningIgnoresOrder | currency/operation_queue.go:272-292 | combining the same chunks in another order gives the same operations, when fee and signature identify them |
| Queueing.BuildKeepsCacheValidIff | currency/operation_queue.go:259-268 | building keeps every cached chunk valid exactly when the operations fit or nothing new is cached |
| Queueing.CacheAlwaysValidIff | currency/operation_queue.go:190-268 | over every run, all cached chunks are valid at all times if and only if no new chunk is built from operations that do not fit |
| Queueing.KnownChunksCanBeFinalized | currency/operation_queue.go:305-313 | in such a run finalizing a known chunk does not fail |
| Queueing.MissingAccountStopsLearning | currency/operation_queue.go:190-204 | a message with an empty chunk that lists an account nobody has stops the program |
| Queueing.FittingBuildsDoNotStop | currency/operation_queue.go:259-263 | building from operations that fit does not stop the program |
| OperationQueues.OperationQueue.constructor | currency/operation_queue.go:46-57 | starts empty at slot 1 with at most the mint account |
| OperationQueues.OperationQueue.Validate | currency/operation_queue.go:213-215 | an operation is there, verifies and is valid now |
| OperationQueues.OperationQueue.Add | currency/operation_queue.go:90-108 | adds a valid new operation, drops the worst above the limit, and returns whether the operation is newly in |
| OperationQueues.OperationQueue.Remove | currency/operation_queue.go:73-78 | removes what compares equal |
| OperationQueues.OperationQueue.Revalidate | currency/operation_queue.go:218-224 | keeps exactly the operations that are valid now, in order |
| OperationQueues.OperationQueue.NewChunk | currency/operation_queue.go:231-270 | builds and caches the chunk and leaves the accounts alone, or stops exactly when the chunk cannot be hashed; the panic on unsorted lists cannot happen for sorted ones |
| OperationQueues.OperationQueue.Combine | currency/operation_queue.go:272-292 | builds one chunk of all operations of the given chunks, or stops exactly when one is unknown, all are empty, or the result cannot be hashed |
| OperationQueues.OperationQueue.SuggestValue | currency/operation_queue.go:332-340 | builds a chunk of everything pending, or nothing, or stops when it cannot be hashed |
| OperationQueues.OperationQueue.HandleTransactionMessage | currency/operation_queue.go:179-207 | adds operations until one is new, then learns exactly the chunks that are unknown, valid and listed under their hash, in any order; stops exactly when some unknown and valid chunk cannot be hashed |
| OperationQueues.OperationQueue.Finalize | currency/operation_queue.go:305-325 | fails exactly for an unknown or invalid chunk; the panic after a successful validation cannot happen; else moves to the next slot |
| OperationQueues.OperationQueue.FinalizeChunk | currency/operation_queue.go:299-303 | fails exactly for a chunk that is invalid or cannot be hashed; else finalizes it |
| Blocks.Block.constructor | consensus/block.go:35-48 | a new block has no outcome and may nominate the suggestion |
| Blocks.Block.Handle | consensus/block.go:95-119 | drives nomination or balloting, ignores our own messages, says when ballots settle, and sets the outcome once, to the message advertised when first externalized |
| Blocks.Block.PredictValue | consensus/nomination_state.go:115-126 | predicts the combination of the confirmed values, or else the accepted, or else the nominated ones, exactly when there is a nomination and their chunks are known, not all empty and hashable together |
| Blocks.Block.AssertValid | consensus/block.go:50-57 | none of the fatal checks of a block can fail |
| Blocks.Block.OutgoingMessages | consensus/block.go:61-83 | the outcome alone, or nominations and the ballot message after starting on a ballot if there is none |
| Blocks.Block.ValueStoreUpdated | consensus/block.go:90-92 | may nominate the new suggestion |
| Chains.Chain.constructor | consensus/chain.go:108-116 | an empty chain at slot 1 |
| Chains.Chain.Handle | consensus/chain.go:36-83 | for the current slot, ballots and nomination do what the block does; once ballots settle, the chain moves on exactly when the block is done and its chunk known; a peer that is behind gets the old outcome |
| Chains.Chain.MoveOn | consensus/chain.go:58-64 | finalizes the outcome's chunk, records the outcome and opens a next block with no ballots, or stops exactly when the chunk is invalid |
| Chains.Chain.AlreadyExternalized | consensus/chain.go:100-106 | records an outcome for the current slot and opens a next block with no ballots, or stops for another slot |
| Lockstep.ChainStepKeepsInv | consensus/chain.go:56-65 | handling a consensus message keeps node, chain, queue, history and database in step, and stops exactly when the outcome's chunk is known but invalid |
| Lockstep.ChainStepMovesOnIff | consensus/chain.go:56-65 | a node moves to the next slot exactly when its block has an outcome whose chunk is known; then that chunk is finalized, the outcome recorded and the block saved with its cn and hn |
| Lockstep.RunStaysInStep | network/node.go:117-139 | over every run: the three slots agree, history and old chunks cover exactly the slots before, every cached chunk is keyed by its hash, and every old chunk hashes to its externalized value |
| Lockstep.OutcomeIsWrittenOnce | consensus/block.go:114-116 | over every run, the chain never goes back and the outcome of the block at hand never changes once set |
| Lockstep.RestartIsEquivalent | network/node.go:39-47 | replaying the database of a node in step yields the same accounts, history, last value, old chunks and slot |
| Lockstep.RestartAfterAnyRun | network/node.go:39-47 | so it does after every run from an empty database, and the restarted node is in step |
| Lockstep.RestartedNodeIsInStep | network/node.go:39-47 | whatever the database, a node that loads it without stopping is in step and at the slot after it |
| Lockstep.SameOutcomesSameLedger | currency/operation_queue.go:305-325 | two nodes in step that externalized the same values have the same chunks as far as both go, and the same accounts at the same slot |
| Replicas.ReplicasAgree | consensus/chain.go:56-65 | two correct nodes whose outcomes come from one run of the consensus per slot, within the fault bound and without a stray bump, have one ledger |
| Lockstep.LoadIsChainStep | data/block.go:23-31 | loading a stored block does what externalizing and saving it did |
| Nodes.Node.FollowChain | network/node.go:120-139 | follows the chain by one slot and saves the block it left |
| Nodes.Node.HandleChainMessage | network/node.go:117-157 | steps node and chain together exactly when ballots settle; a peer that is behind gets the outcome of its slot and the chunk that hashes to it |
| Nodes.Node.HandleTransactions | network/node.go:91-95 | updates the queue and may nominate, and stays in step; stops exactly when the queue does |
| Nodes.Node.Handle | network/node.go:66-114 | the node stays in step as long as the program goes on; a query is answered with the account as it is, or with the outcome of an old slot, whose value is the hash of the chunk finalized there; a history message is its transactions and then its outcome |
| Nodes.NewNodeWithMint | network/node.go:23-50 | starts a node from its initial balance and database exactly as the replay function says, and fails exactly when that does |

## Left out

- Sockets, timers, goroutines, the web server and the command line.
- Postgres and JSON: the block table is a sequence without gaps, and a stored chunk reads back as it was.
- Key pairs, signatures and SHA-512/256: parameters, as said above.
- Seeds and priorities of nomination (`consensus/seed_sort.go`): a block's priority is a parameter. During replay the program computes it before the last value is updated, so it may differ from that of the live node; the restart results do not speak about the block at hand.
- The call from balloting into `PredictValue`: the predicted value is a parameter of balloting, so that every prediction is covered.
- Liveness and convergence: it is proved what each message makes a node do and that runs to an outcome exist, not that every fair run comes to one. Staleness is modelled as the code has it; its timing is not.
- Go's fixed width for ballot numbers and slots.
- Operations other than sending money, and missing operations inside a chunk, which crash the program.
- `MaxBalance`, `SetBalance` on a running queue, statistics and logging.
- `SelfInvestigate`, which nothing calls.
- BallotNode.BallotState.Handle: takes a bound on the rounds of its loop, because the loop of the program need not end; it says whether the loop came to its end within the bound.
- Blocks.Block.Handle: when ballots have not settled within that bound it says where they are, but not that the block is valid.
- HandleTermination.ConfirmedSettlesIff: leaves out Confirm states in which something can still be accepted and the next value differs, or a commit of another value can be accepted, for the same reason.
- HandleTermination.SettleTerminates: states when the loop ends, not the exact condition, in Prepare states in which something can still be accepted or confirmed; there each round may change the value the next round starts from. All other Prepare states are in QuietSettlesIff.
- NominationRuns.AlwaysCheckedIff: assumes that faulty senders only add to their lists and keep their slice; a sender that takes values back is outside what incremental nomination looks at.
