/** Calls to whole operations of a node, as runs of the network. */
module Calls {
  import opened Quorum
  import opened BallotMessages
  import opened Balloting
  import opened BallotHistory
  import opened Investigation
  import opened Network

  /** From `net` to `net'` only `v` moved, and its last state can be seen by others. */
  ghost predicate Moved(net: Net, net': Net, v: Node, slot: nat) {
    && v in net && net'.Keys == net.Keys
    && (forall u :: u in net && u != v ==> net'[u] == net[u])
    && net[v].sent <= net'[v].sent && net[v].h.claims <= net'[v].h.claims
    && (net'[v].s.b.Some? ==> Advertise(net'[v].s, slot) in net'[v].sent)
    && (net'[v].s.b.Some? && net'[v].s.phase != Prepare ==> net'[v].s.b.value.x in net'[v].h.claims)
  }

  lemma OneActMoves(net: Net, a: Act, slot: nat)
    requires a.node in net
    ensures Moved(net, Perform(net, a, slot), a.node, slot)
    ensures Perform(net, a, slot)[a.node].s == Step(net[a.node].s, a.event)
  {
    hide Step, NewlyPrepared, CommitVotes, Advertise;
  }

  lemma MovedTwice(net: Net, net': Net, net'': Net, v: Node, slot: nat)
    requires Moved(net, net', v, slot) && Moved(net', net'', v, slot)
    ensures Moved(net, net'', v, slot)
  {
    hide Advertise;
  }

  lemma OneMoreAct(start: Net, acts: seq<Act>, a: Act, slot: nat)
    requires Valid(start, acts, slot) && Possible(After(start, acts, slot), a)
    ensures Valid(start, acts + [a], slot)
    ensures After(start, acts + [a], slot) == Perform(After(start, acts, slot), a, slot)
    ensures NoStrayBump(start, acts, slot) && !StrayBump(After(start, acts, slot)[a.node].s, a.event) ==>
              NoStrayBump(start, acts + [a], slot)
  {
    hide Possible, Perform;
    assert Front(acts + [a]) == acts;
  }

  /** A list of events at one node extends a run of the network. */
  lemma {:induction false} EventsExtendRun(start: Net, acts: seq<Act>, v: Node, events: seq<Event>, slot: nat)
    returns (acts': seq<Act>)
    requires Valid(start, acts, slot) && v in After(start, acts, slot)
    requires events != [] && AllSensible(v, events) && Silent(events[1..])
    requires Possible(After(start, acts, slot), Act(v, events[0]))
    ensures Valid(start, acts', slot)
    ensures Moved(After(start, acts, slot), After(start, acts', slot), v, slot)
    ensures After(start, acts', slot)[v].s == Play(After(start, acts, slot)[v].s, events)
    ensures NoStrayBump(start, acts, slot) && Calm(events) ==> NoStrayBump(start, acts', slot)
    decreases |events|
  {
    hide Step, Moved, Perform;
    var net, a := After(start, acts, slot), Act(v, events[0]);
    acts' := acts + [a];
    OneMoreAct(start, acts, a, slot);
    OneActMoves(net, a, slot);
    var net1 := Perform(net, a, slot);
    assert v in net1 by { MovedKeys(net, net1, v, slot); }
    assert Play(net[v].s, events) == Play(net1[v].s, events[1..]);
    if |events| > 1 {
      assert Silent(events[1..][1..]);
      acts' := EventsExtendRun(start, acts', v, events[1..], slot);
      MovedTwice(net, net1, After(start, acts', slot), v, slot);
    }
  }

  lemma MovedKeys(net: Net, net': Net, v: Node, slot: nat)
    requires Moved(net, net', v, slot)
    ensures v in net' && net'.Keys == net.Keys
  {
    hide Advertise;
  }

  /** A new message is handled in one round. */
  ghost predicate SettlesAtOnce(s: State, from: Node, message: Message, prediction: Option<SlotValue>, fuel: nat) {
    !IsOld(s, from, message) && fuel == 1 && Handle(s, from, message, prediction, fuel).settled
  }

  /** Handling a message that may be delivered extends a run of the network. */
  lemma HandleExtendsRun(start: Net, acts: seq<Act>, v: Node, from: Node, message: Message,
                         prediction: Option<SlotValue>, fuel: nat, slot: nat) returns (acts': seq<Act>)
    requires Valid(start, acts, slot) && v in After(start, acts, slot) && from != v
    requires After(start, acts, slot)[v].s.us == v
    requires from in After(start, acts, slot) ==> message in After(start, acts, slot)[from].sent
    ensures Valid(start, acts', slot)
    ensures Moved(After(start, acts, slot), After(start, acts', slot), v, slot)
    ensures After(start, acts', slot)[v].s ==
            Handle(After(start, acts, slot)[v].s, from, message, prediction, fuel).s
    ensures SettlesAtOnce(After(start, acts, slot)[v].s, from, message, prediction, fuel) ==>
              NoStrayBump(start, acts, slot) ==> NoStrayBump(start, acts', slot)
  {
    hide Moved, Handle, Step;
    var events := HandleIsPlay(After(start, acts, slot)[v].s, from, message, prediction, fuel);
    acts' := EventsExtendRun(start, acts, v, events, slot);
  }

  /** Starting on a first ballot, as is done before sending messages, extends a run. */
  lemma StartExtendsRun(start: Net, acts: seq<Act>, v: Node, prediction: Option<SlotValue>, slot: nat)
    returns (acts': seq<Act>)
    requires Valid(start, acts, slot) && v in After(start, acts, slot)
    ensures Valid(start, acts', slot)
    ensures Moved(After(start, acts, slot), After(start, acts', slot), v, slot)
    ensures After(start, acts', slot)[v].s == GoToNextBallot(After(start, acts, slot)[v].s, prediction)
    ensures NoStrayBump(start, acts, slot) && After(start, acts, slot)[v].s.phase == Prepare ==>
              NoStrayBump(start, acts', slot)
  {
    hide Moved, Perform, GoToNextBallot;
    acts' := acts + [Act(v, NextBallot(prediction))];
    OneMoreAct(start, acts, Act(v, NextBallot(prediction)), slot);
    OneActMoves(After(start, acts, slot), Act(v, NextBallot(prediction)), slot);
  }
}
