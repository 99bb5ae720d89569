/** One block of the chain: nomination, balloting and the outcome (consensus/block.go). */
module Blocks {
  import opened Quorum
  import opened BallotMessages
  import opened Nominating
  import opened NominationNode
  import opened BallotNode
  import opened Lockstep
  import opened OperationQueues
  import Queueing
  import Balloting
  import BallotHistory
  import Investigation

  /** What the value store answers while a message is handled: the combination of the
      nominated values, which values it knows, and what it suggests to nominate. */
  datatype Answers = Answers(prediction: Option<SlotValue>, valid: SlotValue -> bool, suggestion: Option<SlotValue>)

  /** The messages of the consensus. */
  datatype ChainMessage = Nominates(nomination: Nomination) | Votes(vote: Message)

  /** The value to start a ballot with: none before the first nomination, or the program
      stops because it cannot be put together. */
  datatype Prediction = NoNomination | Unavailable | Predicted(value: SlotValue)

  /** The message that ballots have come to, if they have. */
  ghost function ResultOf(s: Balloting.State, slot: nat): Option<Message> {
    if s.phase == Externalize && s.b.Some? then Some(Balloting.Advertise(s, slot)) else None
  }

  class Block {
    const us: Node
    const d: QuorumSlice
    const slot: nat
    const nState: NominationState
    const bState: BallotState
    var external: Option<Message>

    ghost predicate Valid()
      reads this, nState, bState
    {
      && nState.us == us && nState.d == d && nState.Valid()
      && bState.us == us && bState.d == d && bState.Valid()
      && (bState.phase == Externalize ==> external.Some?)
      && ExternalInv(d, slot, external)
    }

    // ------------------------------------- what handling a message will lead to

    /** Whether ballots come to rest within `fuel` rounds. */
    ghost predicate WillSettle(from: Node, message: ChainMessage, answers: Answers, fuel: nat)
      reads bState
    {
      from != us && message.Votes? ==>
        Investigation.Handle(bState.View(), from, message.vote, answers.prediction, fuel).settled
    }

    ghost function BallotsAfter(from: Node, message: ChainMessage, answers: Answers, fuel: nat): Balloting.State
      reads bState
    {
      if from == us || message.Nominates? then bState.View()
      else Investigation.Handle(bState.View(), from, message.vote, answers.prediction, fuel).s
    }

    ghost function NominationAfter(from: Node, message: ChainMessage, answers: Answers): Nominating.State
      reads nState
    {
      if from == us || message.Votes? then nState.View()
      else MaybeNominate(Nominating.Handle(nState.View(), from, message.nomination, answers.valid),
                         nState.priority, answers.suggestion)
    }

    /** The outcome that ballots come to, if any. */
    ghost function OutcomeAfter(from: Node, message: ChainMessage, answers: Answers, fuel: nat): Option<Message>
      reads bState
    {
      ResultOf(BallotsAfter(from, message, answers, fuel), slot)
    }

    /** The block is new: no ballots, and nothing nominated but what was suggested. */
    ghost predicate IsNew(priority: int, suggestion: Option<SlotValue>)
      reads this, nState, bState
    {
      && external == None && nState.priority == priority
      && bState.View() == Balloting.Initial(us, d)
      && nState.View() == MaybeNominate(Nominating.Initial(us, d), priority, suggestion)
    }

    /** A new block, in which we may nominate what the value store suggests. */
    constructor (us: Node, d: QuorumSlice, slot: nat, priority: int, suggestion: Option<SlotValue>)
      ensures Valid() && fresh(nState) && fresh(bState)
      ensures this.us == us && this.d == d && this.slot == slot && IsNew(priority, suggestion)
    {
      this.us, this.d, this.slot, external := us, d, slot, None;
      var n := new NominationState(us, d, priority);
      var _ := n.MaybeNominateNewValue(suggestion);
      nState := n;
      bState := new BallotState(us, d);
    }

    /** The value to start a ballot with, when nothing is confirmed as prepared yet: the
        combination of the confirmed values, or else the accepted, or else the nominated
        ones. It is built and cached. */
    method PredictValue(values: OperationQueue) returns (r: Prediction)
      requires Valid() && values.Valid()
      modifies values`chunks
      ensures Valid() && values.Valid()
      ensures r.NoNomination? <==> nState.x == []
      ensures r.Predicted? <==>
                && nState.x != []
                && (forall v :: v in ToCombine(nState.View()) ==> v in old(values.chunks))
                && Queueing.BuildOutcome(values.rules, old(values.View()),
                                         Queueing.Merged(old(values.chunks), ToCombine(nState.View()))).Key?
      ensures r.Predicted? ==>
                var ops := Queueing.Merged(old(values.chunks), ToCombine(nState.View()));
                && Queueing.Key(r.value) == Queueing.BuildOutcome(values.rules, old(values.View()), ops)
                && Some(values.View()) == Queueing.Do(values.rules, old(values.View()), Queueing.Building(ops))
      ensures !r.Predicted? ==> values.View() == old(values.View())
    {
      hide Queueing.QueueInv, BallotHistory.Inv, Nominating.Inv, Queueing.BuildOutcome, Queueing.Merged, Queueing.Do;
      if nState.x == [] {
        return NoNomination;
      }
      var list := nState.x;
      if |nState.z| > 0 {
        list := nState.z;
      } else if |nState.y| > 0 {
        list := nState.y;
      }
      var v := values.Combine(list);
      if v.None? {
        return Unavailable;
      }
      return Predicted(v.value);
    }

    /** Handles a message, giving ballots at most `fuel` rounds to settle. Returns whether
        they did. */
    method Handle(from: Node, message: ChainMessage, answers: Answers, fuel: nat) returns (settled: bool)
      requires Valid()
      modifies this`external, nState, bState
      ensures settled ==> Valid()
      ensures settled <==> old(WillSettle(from, message, answers, fuel))
      ensures !settled ==> nState.Valid() && bState.Valid()
      ensures bState.View() == old(BallotsAfter(from, message, answers, fuel))
      ensures nState.View() == old(NominationAfter(from, message, answers))
      ensures external == if !settled || old(external).Some? then old(external)
                          else old(OutcomeAfter(from, message, answers, fuel))
    {
      hide BallotHistory.Inv, Nominating.Inv, Investigation.Handle, Nominating.Handle;
      settled := true;
      if from == us {
        return;
      }
      match message {
        case Nominates(m) =>
          nState.Handle(from, m, answers.valid);
          var _ := nState.MaybeNominateNewValue(answers.suggestion);
        case Votes(m) =>
          settled := bState.Handle(from, m, answers.prediction, fuel);
          if !settled {
            return;
          }
      }
      if bState.phase == Externalize && external.None? {
        HasBallot();
        var m := bState.OutgoingMessage(slot);
        external := Some(m);
      }
      AssertValid();
    }

    lemma HasBallot()
      requires bState.Valid() && bState.phase == Externalize
      ensures bState.b.Some?
    {
    }

    /** The fatal checks of a block: none of them can fail. */
    method AssertValid()
      requires Valid()
      modifies bState`last
      ensures Valid() && bState.View() == old(bState.View())
    {
      assert NoDupes(nState.x) && NoDupes(nState.y) && NoDupes(nState.z);
      hide BallotHistory.Inv, Nominating.Inv;
      bState.AssertValid();
      assert bState.phase == Externalize ==> external.Some?;
    }

    /** We may have something to nominate after an update of the value store. */
    method ValueStoreUpdated(suggestion: Option<SlotValue>)
      requires Valid()
      modifies nState`x
      ensures Valid() && nState.View() == MaybeNominate(old(nState.View()), nState.priority, suggestion)
    {
      hide BallotHistory.Inv;
      var _ := nState.MaybeNominateNewValue(suggestion);
    }

    /** What we send out: the outcome alone, or else our nominations and, if we have or can
        start on a ballot, where we are with it. */
    method OutgoingMessages(prediction: Option<SlotValue>) returns (out: seq<ChainMessage>)
      requires Valid()
      modifies bState
      ensures Valid() && external == old(external)
      ensures external.Some? ==> out == [Votes(external.value)] && bState.View() == old(bState.View())
      ensures external.None? ==>
                && bState.View() == (if old(bState.b).Some? then old(bState.View())
                                     else Balloting.GoToNextBallot(old(bState.View()), prediction))
                && out == [Nominates(Nominating.Advertise(nState.View(), slot))] +
                          (if bState.b.Some? then [Votes(Balloting.Advertise(bState.View(), slot))] else [])
    {
      hide BallotHistory.Inv, Nominating.Inv;
      if external.Some? {
        return [Votes(external.value)];
      }
      out := [Nominates(NominationMessage(slot, nState.x, nState.y, d))];
      if bState.b.None? {
        var _ := bState.GoToNextBallot(prediction);
      }
      if bState.b.Some? {
        var m := bState.OutgoingMessage(slot);
        out := out + [Votes(m)];
      }
    }
  }
}
