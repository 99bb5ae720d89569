/** The chain of blocks, gaining consensus on one at a time (consensus/chain.go). */
module Chains {
  import opened Quorum
  import opened BallotMessages
  import opened Blocks
  import opened Lockstep
  import opened OperationQueues
  import BallotHistory
  import Investigation
  import Nominating
  import Queueing

  /** What a new block starts with: our priority, and what the value store suggests. */
  datatype Opening = Opening(priority: int, suggestion: Option<SlotValue>)

  /** The answer to a message, unless the program has stopped or ballots have not settled. */
  datatype Reply = Reply(message: Option<Message>) | Stopped | Unfinished

  function SlotOf(message: ChainMessage): nat {
    match message
    case Nominates(m) => m.i
    case Votes(m) => m.i
  }

  class Chain {
    const us: Node
    const d: QuorumSlice
    const values: OperationQueue
    var current: Block
    var history: map<nat, Message>

    ghost predicate Valid()
      reads this, current, current.nState, current.bState, values, values.accounts
    {
      && current.us == us && current.d == d && current.Valid()
      && values.Valid()
    }

    /** As much of the node's state as the chain has. */
    ghost function View(): NodeState
      requires values.Shaped()
      reads this, current, values, values.accounts
    {
      NodeState(0, current.slot, current.external, history, values.View(), None)
    }

    constructor (us: Node, d: QuorumSlice, values: OperationQueue, opening: Opening)
      requires values.Valid()
      ensures Valid() && fresh(current) && fresh(current.nState) && fresh(current.bState)
      ensures current.IsNew(opening.priority, opening.suggestion)
      ensures this.us == us && this.d == d && this.values == values
      ensures View() == NodeState(0, 1, None, map[], values.View(), None)
    {
      hide Queueing.QueueInv, BallotHistory.Inv, Nominating.Inv;
      this.us, this.d, this.values, history := us, d, values, map[];
      current := new Block(us, d, 1, opening.priority, opening.suggestion);
    }

    /** What we know about an old slot. */
    method HandleInfo(from: Node, slot: nat) returns (reply: Reply)
      ensures reply == if from == us then Reply(None) else if slot == 0 then Stopped
                       else Reply(if slot in history then Some(history[slot]) else None)
    {
      if from == us {
        return Reply(None);
      }
      if slot == 0 {
        return Stopped;  // fatal: slot should not be zero
      }
      if slot in history {
        return Reply(Some(history[slot]));
      }
      return Reply(None);
    }

    /** Moves on to the next block if this one is done and its chunk is known. Returns false
        when the program would stop, because the chunk is not valid. */
    method MoveOn(opening: Opening) returns (ok: bool)
      requires Valid()
      modifies this, values, values.accounts`data
      ensures current == old(current) || (fresh(current) && fresh(current.nState) && fresh(current.bState))
      ensures current != old(current) ==> current.IsNew(opening.priority, opening.suggestion)
      ensures ok ==> Valid() && Some(View()) == Advance(values.rules, old(View()))
      ensures !ok ==> Advance(values.rules, old(View())).None?
    {
      hide Queueing.QueueInv, BallotHistory.Inv, Nominating.Inv, Queueing.Finalize, Queueing.CanFinalize;
      if current.external.None? || current.external.value.x !in values.chunks {
        return true;
      }
      ok := values.Finalize(current.external.value.x);
      if ok {
        history := history[current.slot := current.external.value];
        current := new Block(us, d, current.slot + 1, opening.priority, opening.suggestion);
      }
    }

    /** Handles a message for the block at hand, and moves on once the block is done and its
        chunk is known. */
    method HandleCurrent(from: Node, message: ChainMessage, answers: Answers, fuel: nat, opening: Opening)
      returns (reply: Reply)
      requires Valid() && from != us
      modifies this, current, current.nState, current.bState, values, values.accounts`data
      ensures current == old(current) || (fresh(current) && fresh(current.nState) && fresh(current.bState))
      ensures current != old(current) ==> current.IsNew(opening.priority, opening.suggestion)
      ensures reply.Reply? ==> Valid()
      ensures old(current).bState.View() == old(current.BallotsAfter(from, message, answers, fuel))
      ensures old(current).nState.View() == old(current.NominationAfter(from, message, answers))
      ensures var outcome := old(current.OutcomeAfter(from, message, answers, fuel));
        var next := Advance(values.rules, Seal(old(View()), outcome));
        if !old(current.WillSettle(from, message, answers, fuel)) then reply == Unfinished
        else if next.None? then reply == Stopped
        else reply == Reply(None) && View() == next.value
    {
      hide Queueing.QueueInv, BallotHistory.Inv, Nominating.Inv, Investigation.Handle, Nominating.Handle, Advance;
      ghost var before := View();
      var settled := current.Handle(from, message, answers, fuel);
      if !settled {
        return Unfinished;
      }
      assert View() == Seal(before, old(current.OutcomeAfter(from, message, answers, fuel)));
      var ok := MoveOn(opening);
      return if ok then Reply(None) else Stopped;
    }

    /** Handles a message of the consensus. A peer that is behind gets the outcome of its
        slot. */
    method Handle(from: Node, message: ChainMessage, answers: Answers, fuel: nat, opening: Opening)
      returns (reply: Reply)
      requires Valid()
      modifies this, current, current.nState, current.bState, values, values.accounts`data
      ensures current == old(current) || (fresh(current) && fresh(current.nState) && fresh(current.bState))
      ensures current != old(current) ==> current.IsNew(opening.priority, opening.suggestion)
      ensures reply.Reply? ==> Valid()
      ensures from == us ==> reply == Reply(None) && View() == old(View())
      ensures from != us && SlotOf(message) == 0 ==> reply == Stopped && View() == old(View())
      ensures from != us && SlotOf(message) != 0 && SlotOf(message) != old(current.slot) ==>
                && View() == old(View())
                && reply == Reply(if SlotOf(message) in history && !(message.Votes? && message.vote.ExternalizeMessage?)
                                  then Some(history[SlotOf(message)]) else None)
      ensures from != us && SlotOf(message) != 0 && SlotOf(message) == old(current.slot) ==>
                && old(current).bState.View() == old(current.BallotsAfter(from, message, answers, fuel))
                && old(current).nState.View() == old(current.NominationAfter(from, message, answers))
                && var outcome := old(current.OutcomeAfter(from, message, answers, fuel));
                   var next := Advance(values.rules, Seal(old(View()), outcome));
                   if !old(current.WillSettle(from, message, answers, fuel)) then reply == Unfinished
                   else if next.None? then reply == Stopped
                   else reply == Reply(None) && View() == next.value
    {
      hide Queueing.QueueInv, BallotHistory.Inv, Nominating.Inv, Investigation.Handle, Advance, Seal;
      if from == us {
        return Reply(None);
      }
      var slot := SlotOf(message);
      if slot == 0 {
        return Stopped;  // fatal: slot should not be zero
      }
      if slot == current.slot {
        reply := HandleCurrent(from, message, answers, fuel, opening);
        return;
      }
      if message.Votes? && message.vote.ExternalizeMessage? {
        return Reply(None);
      }
      if slot in history {
        return Reply(Some(history[slot]));
      }
      return Reply(None);
    }

    /** The slot at hand is known to be externalized already. Returns false, changing
        nothing, when the program would stop: the message is for another slot. */
    method AlreadyExternalized(m: Message, opening: Opening) returns (ok: bool)
      requires Valid()
      modifies this
      ensures Valid() && ok == (m.i == old(current.slot))
      ensures ok ==> fresh(current) && fresh(current.nState) && fresh(current.bState)
      ensures ok ==> current.IsNew(opening.priority, opening.suggestion)
      ensures !ok ==> current == old(current)
      ensures !ok ==> View() == old(View())
      ensures ok ==> View() == old(View()).(chainSlot := m.i + 1, external := None, history := old(history)[m.i := m])
    {
      hide Queueing.QueueInv, BallotHistory.Inv, Nominating.Inv;
      if m.i != current.slot {
        return false;  // panic: slot mismatch
      }
      history := history[m.i := m];
      current := new Block(us, d, m.i + 1, opening.priority, opening.suggestion);
      return true;
    }
  }
}
