/** A node: its chain, its queue, its database, and the slot it is at (network/node.go). */
module Nodes {
  import Quorum
  import opened BallotMessages
  import opened Blocks
  import opened Chains
  import opened Ledger
  import opened Lockstep
  import opened OperationQueues
  import opened Queueing
  import BallotHistory
  import Investigation
  import Nominating

  /** What a node answers: nothing, an old outcome, an account as it is now, or an old outcome
      with its chunk. It halts when the program would stop, and is busy while ballots have not settled. */
  datatype Answer =
    | Silence
    | Known(e: Message)
    | AccountInfo(slot: nat, owner: string, account: Option<Account>)
    | Catchup(t: Option<TransactionMessage>, e: Message)
    | Halt
    | Busy
  {
    /** The program has not stopped, and this message is done with. */
    predicate GoesOn() {
      !Halt? && !Busy?
    }
  }

  /** The messages a node understands. */
  datatype NodeMessage =
    | History(t: Option<TransactionMessage>, e: Message)
    | Info(account: string, i: nat)
    | Transactions(m: Option<TransactionMessage>)
    | Consensus(c: ChainMessage)

  class Node {
    const us: Quorum.Node
    const chain: Chain
    const queue: OperationQueue
    var slot: nat
    var database: Option<seq<StoredBlock>>

    ghost function View(): NodeState
      requires chain.values.Shaped()
      reads this, chain, chain.current, chain.values, chain.values.accounts
    {
      chain.View().(slot := slot, database := database)
    }

    ghost predicate Valid()
      reads this, chain, chain.current, chain.current.nState, chain.current.bState, chain.values, chain.values.accounts
    {
      && chain.Valid() && chain.us == us && chain.values == queue
      && NodeInv(queue.rules, queue.initial, chain.d, View())
    }

    constructor (us: Quorum.Node, d: Quorum.QuorumSlice, queue: OperationQueue, opening: Opening,
                 database: Option<seq<StoredBlock>>)
      requires queue.Valid()
      ensures fresh(chain) && chain.Valid() && chain.us == us && chain.d == d && chain.values == queue
      ensures this.us == us && this.queue == queue
      ensures fresh(chain.current) && fresh(chain.current.nState) && fresh(chain.current.bState)
      ensures View() == NodeState(1, 1, None, map[], queue.View(), database)
    {
      hide QueueInv, BallotHistory.Inv, Nominating.Inv;
      this.us, this.queue, this.slot, this.database := us, queue, 1, database;
      chain := new Chain(us, d, queue, opening);
    }

    // ---------------------------------------------------------------- messages

    /** The message that tells others about an old chunk. */
    method OldChunkMessage(i: nat) returns (t: Option<TransactionMessage>)
      requires i in queue.oldChunks ==> Hashable(queue.oldChunks[i])
      ensures i !in queue.oldChunks ==> t == None
      ensures i in queue.oldChunks ==>
                var chunk := queue.oldChunks[i];
                t == Some(TransactionMessage([], map[queue.rules.hash(chunk) := Some(chunk)]))
    {
      if i !in queue.oldChunks {
        return None;
      }
      var chunk := queue.oldChunks[i];
      return Some(TransactionMessage([], map[queue.rules.hash(chunk) := Some(chunk)]));
    }

    /** Follows the chain if it has moved on, and saves the block it has left. */
    method FollowChain()
      requires chain.values.Shaped() && chain.values == queue && Save(View()).Some?
      modifies this`slot, this`database
      ensures Some(View()) == Save(old(View()))
    {
      if chain.current.slot > slot {
        slot := slot + 1;
        if database.Some? {
          var last := chain.history[chain.current.slot - 1];
          var block := StoredBlock(last.i, queue.oldChunks[last.i], last.cn, last.hn);
          database := Some(database.value + [block]);
        }
      }
    }

    /** Lets the chain handle a message, and follows it. */
    method StepChain(from: Quorum.Node, message: ChainMessage, answers: Answers, fuel: nat, opening: Opening)
      returns (reply: Reply)
      requires Valid() && from != us
      modifies this, chain, chain.current, chain.current.nState, chain.current.bState, queue, queue.accounts`data
      ensures reply.Reply? ==> Valid()
      ensures SlotOf(message) == 0 ==> reply == Stopped
      ensures SlotOf(message) != 0 && SlotOf(message) == old(slot) ==>
                && old(chain.current).bState.View() == old(chain.current.BallotsAfter(from, message, answers, fuel))
                && old(chain.current).nState.View() == old(chain.current.NominationAfter(from, message, answers))
                && var outcome := old(chain.current.OutcomeAfter(from, message, answers, fuel));
                   var next := ChainStep(queue.rules, old(View()), outcome);
                   if !old(chain.current.WillSettle(from, message, answers, fuel)) then reply == Unfinished
                   else if next.None? then reply == Stopped
                   else reply == Reply(None) && View() == next.value
      ensures SlotOf(message) != 0 && SlotOf(message) != old(slot) ==>
                && View() == old(View())
                && reply == Reply(if SlotOf(message) < slot && !(message.Votes? && message.vote.ExternalizeMessage?)
                                  then Some(chain.history[SlotOf(message)]) else None)
    {
      hide QueueInv, BallotHistory.Inv, Nominating.Inv, Investigation.Handle, HistoryMatches, DatabaseInv, Advance,
           Save;
      ghost var before := View();
      ghost var start := chain.View();
      ghost var outcome := chain.current.OutcomeAfter(from, message, answers, fuel);
      reply := chain.Handle(from, message, answers, fuel, opening);
      if SlotOf(message) != 0 && SlotOf(message) == before.slot {
        assert outcome == ResultOf(old(chain.current).bState.View(), before.slot);
        assert ExternalInv(chain.d, before.slot, outcome);
        AdvanceIgnoresNode(queue.rules, start, outcome, before.slot, before.database);
        StepAfterAdvance(queue.rules, queue.initial, chain.d, before, outcome);
      }
      if reply.Reply? {
        if SlotOf(message) != before.slot {
          NothingToSave(View());
        }
        FollowChain();
      }
    }

    /** Handles a message of the consensus. Somebody who is behind gets a catch-up. */
    method HandleChainMessage(from: Quorum.Node, message: ChainMessage, answers: Answers, fuel: nat, opening: Opening)
      returns (answer: Answer)
      requires Valid() && from != us
      modifies this, chain, chain.current, chain.current.nState, chain.current.bState, queue, queue.accounts`data
      ensures answer.GoesOn() ==> Valid()
      ensures Handled(queue.rules, old(View()), View(), message, answer,
                      old(chain.current.OutcomeAfter(from, message, answers, fuel)),
                      old(chain.current.WillSettle(from, message, answers, fuel)))
      ensures SlotOf(message) != 0 && SlotOf(message) == old(slot) ==>
                && old(chain.current).bState.View() == old(chain.current.BallotsAfter(from, message, answers, fuel))
                && old(chain.current).nState.View() == old(chain.current.NominationAfter(from, message, answers))
    {
      hide QueueInv, BallotHistory.Inv, Nominating.Inv, Investigation.Handle, Nominating.Handle, HistoryMatches,
           DatabaseInv, ChainStep, ResultOf;
      var reply := StepChain(from, message, answers, fuel, opening);
      match reply {
        case Stopped => answer := Halt;
        case Unfinished => answer := Busy;
        case Reply(None) => answer := Silence;
        case Reply(Some(e)) =>
          CatchupIsConvincing(queue.rules, chain.d, View(), SlotOf(message));
          var t := OldChunkMessage(e.i);
          answer := Catchup(t, e);
      }
    }

    /** Handles operations and chunks. Returns whether the program goes on. */
    method HandleTransactions(m: Option<TransactionMessage>, suggestion: Option<SlotValue>) returns (ok: bool)
      requires Valid()
      modifies queue`pending, queue`chunks, chain.current.nState`x
      ensures ok == Queueing.HandleTransactions(queue.rules, old(queue.View()), m).Some?
      ensures ok ==> Valid()
      ensures ok ==>
                var next := Queueing.HandleTransactions(queue.rules, old(queue.View()), m).value;
                && View() == old(View()).(queue := next.queue)
                && chain.current.nState.View() == old(chain.current.nState.Suggested(next.updated, suggestion))
    {
      hide QueueInv, BallotHistory.Inv, Nominating.Inv, Queueing.HandleTransactions, HistoryInv, DatabaseInv;
      ghost var before := View();
      var updated;
      ok, updated := queue.HandleTransactionMessage(m);
      if !ok {
        return;
      }
      QueueStepKeepsInv(queue.rules, queue.initial, chain.d, before, queue.View());
      if updated {
        chain.current.ValueStoreUpdated(suggestion);
      }
    }

    /** Handles any message. As long as the program goes on, everything stays in step. */
    method Handle(from: Quorum.Node, message: NodeMessage, answers: Answers, fuel: nat, opening: Opening)
      returns (answer: Answer)
      requires Valid() && (message.History? ==> message.e.ExternalizeMessage?)
      modifies this, chain, chain.current, chain.current.nState, chain.current.bState, queue, queue.accounts`data
      ensures answer.GoesOn() ==> Valid()
      ensures from == us ==> answer == Silence && View() == old(View())
      ensures from != us && message.Info? ==>
                && View() == old(View())
                && if message.account != ""
                   then answer ==
                        AccountInfo(queue.slot, message.account, Lookup(queue.View().accounts, message.account))
                   else if 1 <= message.i < slot
                   then answer.Known? && Outcome(queue.rules, View(), message.i, answer.e)
                   else answer == Silence
      ensures from != us && message.Transactions? ==>
                var next := Queueing.HandleTransactions(queue.rules, old(queue.View()), message.m);
                && answer == (if next.None? then Halt else Silence)
                && (next.Some? ==>
                      && View() == old(View()).(queue := next.value.queue)
                      && chain.current == old(chain.current)
                      && chain.current.nState.View() ==
                         old(chain.current.nState.Suggested(next.value.updated, answers.suggestion)))
      ensures from != us && message.Consensus? ==>
                Handled(queue.rules, old(View()), View(), message.c, answer,
                        old(chain.current.OutcomeAfter(from, message.c, answers, fuel)),
                        old(chain.current.WillSettle(from, message.c, answers, fuel)))
      ensures from != us && message.Consensus? && SlotOf(message.c) != 0 && SlotOf(message.c) == old(slot) ==>
                && old(chain.current).bState.View() == old(chain.current.BallotsAfter(from, message.c, answers, fuel))
                && old(chain.current).nState.View() == old(chain.current.NominationAfter(from, message.c, answers))
      ensures from != us && message.History? ==>
                var next := Queueing.HandleTransactions(queue.rules, old(queue.View()), message.t);
                if next.None? then answer == Halt
                else Handled(queue.rules, old(View()).(queue := next.value.queue), View(), Votes(message.e), answer,
                             old(chain.current.OutcomeAfter(from, Votes(message.e), answers, fuel)),
                             old(chain.current.WillSettle(from, Votes(message.e), answers, fuel)))
    {
      hide QueueInv, BallotHistory.Inv, Nominating.Inv, Queueing.HandleTransactions, HistoryMatches, DatabaseInv,
           Handled, Investigation.Handle, Nominating.Handle, ResultOf;
      if from == us {
        return Silence;
      }
      match message {
        case History(t, e) =>
          var ok := HandleTransactions(t, answers.suggestion);
          if !ok {
            return Halt;
          }
          answer := HandleChainMessage(from, Votes(e), answers, fuel, opening);
        case Info(account, i) =>
          answer := Silence;
          if account != "" {
            answer := AccountInfo(queue.slot, account, queue.accounts.Get(account));
          } else if i != 0 {
            var reply := chain.HandleInfo(from, i);
            if reply.message.Some? {
              OutcomeIsKnown(queue.rules, chain.d, View(), i);
              answer := Known(reply.message.value);
            }
          }
        case Transactions(m) =>
          var ok := HandleTransactions(m, answers.suggestion);
          answer := if ok then Silence else Halt;
        case Consensus(m) =>
          answer := HandleChainMessage(from, m, answers, fuel, opening);
      }
    }
  }

  /** What handling a message of the consensus does: for the slot at hand, a step of node
      and chain together once ballots have settled; for an old slot, a catch-up. */
  ghost predicate Handled(rules: Rules, before: NodeState, after: NodeState, message: ChainMessage, answer: Answer,
                          outcome: Option<Message>, settles: bool)
  {
    var i := SlotOf(message);
    if i == 0 then answer == Halt
    else if i == before.slot then
      if !settles then answer == Busy
      else
        var next := ChainStep(rules, before, outcome);
        if next.None? then answer == Halt else answer == Silence && after == next.value
    else
      && after == before
      && if i < before.slot && !(message.Votes? && message.vote.ExternalizeMessage?)
         then Convincing(rules, before, answer, i)
         else answer == Silence
  }

  /** The message is the outcome of slot `i`, and its value is the hash of the chunk
      finalized there. */
  ghost predicate Outcome(rules: Rules, s: NodeState, i: nat, e: Message) {
    && e.ExternalizeMessage? && e.i == i
    && i in s.queue.oldChunks && e.x == rules.hash(s.queue.oldChunks[i])
  }

  lemma OutcomeIsKnown(rules: Rules, d: Quorum.QuorumSlice, s: NodeState, i: nat)
    requires HistoryInv(rules, d, s) && i in s.history
    ensures Outcome(rules, s, i, s.history[i]) && Hashable(s.queue.oldChunks[i])
  {
    assert HistoryMatches(rules, d, s.history, s.queue.oldChunks, i);
  }

  /** Moving the chain on does not look at the node around it. */
  lemma AdvanceIgnoresNode(rules: Rules, s: NodeState, outcome: Option<Message>, slot: nat,
                           database: Option<seq<StoredBlock>>)
    ensures var s' := Advance(rules, Seal(s, outcome));
      Advance(rules, Seal(s.(slot := slot, database := database), outcome)) ==
      if s'.None? then None else Some(s'.value.(slot := slot, database := database))
  {
    hide Finalize, CanFinalize;
  }

  /** If the chain can move on, so can the node. */
  lemma StepAfterAdvance(rules: Rules, initial: Accounts, d: Quorum.QuorumSlice, s: NodeState, outcome: Option<Message>)
    requires NodeInv(rules, initial, d, s) && ExternalInv(d, s.chainSlot, outcome)
    ensures var s' := Advance(rules, Seal(s, outcome));
      && (s'.Some? <==> ChainStep(rules, s, outcome).Some?)
      && (s'.Some? ==> Save(s'.value).Some? && Save(s'.value) == ChainStep(rules, s, outcome) &&
                       NodeInv(rules, initial, d, ChainStep(rules, s, outcome).value))
  {
    ChainStepKeepsInv(rules, initial, d, s, outcome);
    hide NodeInv, CanFinalize, Finalize, Save;
  }

  lemma NothingToSave(s: NodeState)
    requires s.chainSlot == s.slot
    ensures Save(s) == Some(s)
  {
  }

  /** A catch-up for a slot carries its outcome and the one chunk with that hash. */
  ghost predicate Convincing(rules: Rules, s: NodeState, answer: Answer, i: nat) {
    && answer.Catchup? && Outcome(rules, s, i, answer.e)
    && answer.t == Some(TransactionMessage([], map[answer.e.x := Some(s.queue.oldChunks[i])]))
  }

  lemma CatchupIsConvincing(rules: Rules, d: Quorum.QuorumSlice, s: NodeState, i: nat)
    requires HistoryInv(rules, d, s) && i in s.history
    ensures i in s.queue.oldChunks && s.history[i].i == i && Hashable(s.queue.oldChunks[i])
    ensures var chunk := s.queue.oldChunks[i];
      var t := TransactionMessage([], map[rules.hash(chunk) := Some(chunk)]);
      Convincing(rules, s, Catchup(Some(t), s.history[i]), i)
  {
    OutcomeIsKnown(rules, d, s, i);
  }

  // ----------------------------------------------------------------- starting

  /** Loads one stored block into the chain, then into the queue. Returns false when the
      program would stop. */
  method LoadBlock(node: Node, block: StoredBlock, opening: Opening) returns (ok: bool)
    requires node.chain.Valid() && node.chain.values == node.queue
    modifies node.chain, node.queue, node.queue.accounts`data
    ensures ok == Load(node.queue.rules, node.chain.d, old(node.View()), block).Some?
    ensures ok ==> node.chain.Valid() && fresh(node.chain.current)
    ensures ok ==> fresh(node.chain.current.nState) && fresh(node.chain.current.bState)
    ensures ok ==> Some(node.View()) == Load(node.queue.rules, node.chain.d, old(node.View()), block)
  {
    hide QueueInv, BallotHistory.Inv, Nominating.Inv, ChunkIsValid, Finalize, WithChunk;
    var queue := node.queue;
    var m := ExternalizeMessage(block.slot, queue.rules.hash(block.chunk), block.c, block.h, node.chain.d);
    ok := node.chain.AlreadyExternalized(m, opening);
    if ok {
      ok := queue.FinalizeChunk(block.chunk);
    }
  }

  lemma {:induction false} LoadAllFails(rules: Rules, d: Quorum.QuorumSlice, s: NodeState, blocks: seq<StoredBlock>,
                                        k: nat)
    requires k <= |blocks| && LoadAll(rules, d, s, blocks[..k]).None?
    ensures LoadAll(rules, d, s, blocks).None?
    decreases |blocks|
  {
    if k == |blocks| {
      assert blocks[..k] == blocks;
    } else {
      var front := blocks[..|blocks| - 1];
      assert front[..k] == blocks[..k];
      LoadAllFails(rules, d, s, front, k);
    }
  }

  function InitialAccounts(mint: string, balance: uint64): Accounts {
    if balance == 0 then map[] else map[mint := Account(0, balance)]
  }

  /** Loads all stored blocks into a node that has just been made. */
  method LoadBlocks(node: Node, blocks: seq<StoredBlock>, openings: nat -> Opening) returns (ok: bool)
    requires node.chain.Valid() && node.chain.values == node.queue
    modifies node`slot, node.chain, node.queue, node.queue.accounts`data
    ensures ok == LoadAll(node.queue.rules, node.chain.d, old(node.View()), blocks).Some?
    ensures ok ==>
              && node.chain.Valid()
              && var loaded := LoadAll(node.queue.rules, node.chain.d, old(node.View()), blocks).value;
                 node.View() == loaded.(slot := |blocks| + 1)
    ensures ok ==>
              || node.chain.current == old(node.chain.current)
              || (fresh(node.chain.current) && fresh(node.chain.current.nState) && fresh(node.chain.current.bState))
  {
    hide QueueInv, BallotHistory.Inv, Nominating.Inv, Load;
    ghost var start := node.View();
    assert blocks[..0] == [];
    for i := 0 to |blocks|
      invariant node.chain.Valid() && node.chain.values == node.queue
      invariant Some(node.View()) == LoadAll(node.queue.rules, node.chain.d, start, blocks[..i])
      invariant node.chain.current == old(node.chain.current) ||
                (fresh(node.chain.current) && fresh(node.chain.current.nState) && fresh(node.chain.current.bState))
    {
      assert blocks[..i + 1][..i] == blocks[..i];
      ok := LoadBlock(node, blocks[i], openings(i + 2));
      if !ok {
        LoadAllFails(node.queue.rules, node.chain.d, start, blocks, i + 1);
        return;
      }
    }
    assert blocks[..|blocks|] == blocks;
    node.slot := |blocks| + 1;
    return true;
  }

  /** Makes a node that starts with one account, or from the blocks of a database. Returns
      none when the program would stop while loading. */
  method NewNodeWithMint(rules: Rules, us: Quorum.Node, d: Quorum.QuorumSlice, database: Option<seq<StoredBlock>>,
                         mint: string, balance: uint64, openings: nat -> Opening) returns (node: Node?)
    ensures node == null <==>
              database.Some? && Restart(rules, InitialAccounts(mint, balance), d, database.value).None?
    ensures node != null ==>
              && fresh(node) && node.Valid() && node.us == us
              && node.View() == if database.None? then Empty(InitialAccounts(mint, balance), None)
                                else Restart(rules, InitialAccounts(mint, balance), d, database.value).value
  {
    hide QueueInv, BallotHistory.Inv, Nominating.Inv, NodeInv, LoadAll;
    var queue := new OperationQueue(rules, mint, balance);
    var n := new Node(us, d, queue, openings(1), database);
    ghost var initial := InitialAccounts(mint, balance);
    if database.Some? {
      var ok := LoadBlocks(n, database.value, openings);
      if !ok {
        return null;
      }
      RestartedNodeIsInStep(rules, initial, d, database.value);
    } else {
      EmptyInv(rules, initial, d, None);
    }
    return n;
  }
}
