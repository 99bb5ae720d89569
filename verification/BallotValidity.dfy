/** Validity of ballots: nothing is ever held, accepted or claimed that nomination did not
    predict to some correct node. */
module BallotValidity {
  import opened Quorum
  import opened BallotMessages
  import opened Balloting
  import opened BallotHistory
  import opened Network

  /** The value that nomination predicted to the node, if it was asked. */
  function PredictionOf(e: Event): set<SlotValue> {
    match e
    case NextBallot(Some(x)) => {x}
    case Repeat(_, Some(x)) => {x}
    case _ => {}
  }

  /** Everything predicted to correct nodes during a run. */
  function Predictions(acts: seq<Act>): set<SlotValue> {
    if acts == [] then {} else Predictions(Front(acts)) + PredictionOf(Last(acts).event)
  }

  ghost predicate BallotIn(b: Option<Ballot>, values: set<SlotValue>) {
    b.Some? ==> b.value.x in values
  }

  ghost predicate StateIn(s: State, values: set<SlotValue>) {
    && BallotIn(s.b, values) && BallotIn(s.p, values) && BallotIn(s.pPrime, values)
    && (s.z.Some? ==> s.z.value in values)
  }

  ghost predicate PastIn(h: History, values: set<SlotValue>) {
    && (forall b :: b in h.held ==> b.x in values)
    && (forall b :: b in h.prepared ==> b.x in values)
    && (forall x :: x in h.claims ==> x in values)
  }

  ghost predicate NetIn(net: Net, values: set<SlotValue>) {
    forall v :: v in net ==> StateIn(net[v].s, values) && PastIn(net[v].h, values)
  }

  // ----------------------------------------------------------------- the rules

  lemma AcceptingPeerHasIt(qs: QuorumSlice, net: Net, values: set<SlotValue>, s: State, peers: set<Node>, n: nat,
                           x: SlotValue)
    requires Sound(qs, net) && NetIn(net, values) && Authentic(net, s)
    requires FaultsDoNotBlock(qs, net.Keys) && Blocks(qs, peers) && peers <= s.m.Keys
    requires forall k :: k in peers ==> (n >= 1 && AcceptsPrepared(s.m[k], n, x)) || AcceptsCommitted(s.m[k], n, x)
    ensures x in values
  {
    BlockingHasCorrect(qs, net.Keys, peers);
    var k :| k in peers && k in net.Keys;
    assert NodeOk(qs, k, net[k]) && Backed(s.m[k], net[k].h) && PastIn(net[k].h, values);
    if AcceptsCommitted(s.m[k], n, x) {
      CommittingMessage(s.m[k], net[k].h, n, x);
    } else {
      AcceptingMessage(s.m[k], net[k].h, n, x);
    }
  }

  /** A value that may be accepted as prepared is known. */
  lemma AcceptedIsKnown(qs: QuorumSlice, net: Net, values: set<SlotValue>, v: Node, n: nat, x: SlotValue)
    requires Sound(qs, net) && NetIn(net, values) && FaultsDoNotBlock(qs, net.Keys)
    requires v in net && n >= 1 && MayAcceptPrepared(net[v].s, n, x)
    ensures x in values
  {
    var s := net[v].s;
    assert NodeOk(qs, v, net[v]) && Authentic(net, s) && StateIn(s, values);
    if MeetsQuorumHere(s, PrepareVoters(s, n, x)) {
      QuorumNeedsUs(s, PrepareVoters(s, n, x));
    } else {
      hide Sound, NetIn, FaultsDoNotBlock, Blocks;
      AcceptingPeerHasIt(qs, net, values, s, PreparedBy(s, n, x), n, x);
    }
  }

  lemma ConfirmedIsKnown(s: State, values: set<SlotValue>, n: nat, x: SlotValue)
    requires StateIn(s, values) && s.us !in s.m && MayConfirmPrepared(s, n, x)
    ensures x in values
  {
    QuorumNeedsUs(s, PrepareAccepters(s, n, x));
  }

  /** A value whose commit may be accepted is known. */
  lemma CommittedIsKnown(qs: QuorumSlice, net: Net, values: set<SlotValue>, v: Node, n: nat, x: SlotValue)
    requires Sound(qs, net) && NetIn(net, values) && FaultsDoNotBlock(qs, net.Keys)
    requires v in net && MayAcceptCommitted(net[v].s, n, x)
    ensures x in values
  {
    var s := net[v].s;
    assert NodeOk(qs, v, net[v]) && Authentic(net, s) && StateIn(s, values);
    if MeetsQuorumHere(s, CommitVoters(s, n, x)) {
      QuorumNeedsUs(s, CommitVoters(s, n, x));
    } else {
      hide Sound, NetIn, FaultsDoNotBlock, Blocks;
      AcceptingPeerHasIt(qs, net, values, s, CommittedBy(s, n, x), n, x);
    }
  }

  // ---------------------------------------------------------------------- events

  lemma BumpStaysIn(s: State, prediction: Option<SlotValue>, values: set<SlotValue>)
    requires StateIn(s, values) && (prediction.Some? ==> prediction.value in values)
    ensures StateIn(GoToNextBallot(s, prediction), values)
  {
    hide AcceptedAbort;
  }

  lemma RepeatStaysIn(s: State, from: Node, prediction: Option<SlotValue>, values: set<SlotValue>)
    requires StateIn(s, values) && (prediction.Some? ==> prediction.value in values)
    ensures StateIn(CountStale(s, from, prediction), values)
  {
    BumpStaysIn(s.(stale := map[]), prediction, values);
    hide StaleQuorum, Blocks, GoToNextBallot;
  }

  lemma AcceptingStaysIn(s: State, n: nat, x: SlotValue, values: set<SlotValue>)
    requires StateIn(s, values) && (MayAcceptPrepared(s, n, x) ==> x in values)
    ensures StateIn(MaybeAcceptAsPrepared(s, n, x), values)
  {
    hide MayAcceptPrepared, AcceptedAbort, PreparedIsOld;
  }

  lemma ConfirmingStaysIn(s: State, n: nat, x: SlotValue, values: set<SlotValue>)
    requires StateIn(s, values) && (MayConfirmPrepared(s, n, x) ==> x in values)
    ensures StateIn(MaybeConfirmAsPrepared(s, n, x), values)
  {
    hide MayConfirmPrepared, GteIncompat;
  }

  lemma CommittingStaysIn(s: State, n: nat, x: SlotValue, values: set<SlotValue>)
    requires StateIn(s, values) && (MayAcceptCommitted(s, n, x) ==> x in values)
    ensures StateIn(MaybeAcceptAsCommitted(s, n, x), values)
  {
    hide MayAcceptCommitted;
  }

  lemma ExternalizingStaysIn(s: State, n: nat, x: SlotValue, values: set<SlotValue>)
    requires StateIn(s, values)
    ensures StateIn(MaybeConfirmAsCommitted(s, n, x), values)
  {
    hide MayConfirmCommitted;
  }

  lemma NodeFacts(qs: QuorumSlice, net: Net, values: set<SlotValue>, v: Node)
    requires Sound(qs, net) && NetIn(net, values) && v in net
    ensures StateIn(net[v].s, values) && net[v].s.us !in net[v].s.m
  {
    assert NodeOk(qs, v, net[v]);
  }

  lemma StepStaysIn(qs: QuorumSlice, net: Net, a: Act, values: set<SlotValue>)
    requires Sound(qs, net) && FaultsDoNotBlock(qs, net.Keys) && Possible(net, a)
    requires NetIn(net, values) && PredictionOf(a.event) <= values
    ensures StateIn(Step(net[a.node].s, a.event), values)
    ensures NewlyPrepared(net[a.node].s, a.event) ==> a.event.x in values
  {
    hide Sound, NetIn, StateIn, FaultsDoNotBlock, MayAcceptPrepared, MayConfirmPrepared, MayAcceptCommitted,
         MaybeAcceptAsPrepared, MaybeConfirmAsPrepared, MaybeAcceptAsCommitted, MaybeConfirmAsCommitted, CountStale,
         GoToNextBallot, Store;
    var s, v := net[a.node].s, a.node;
    NodeFacts(qs, net, values, v);
    match a.event
    case TryAcceptPrepared(n, x) =>
      if MayAcceptPrepared(s, n, x) { AcceptedIsKnown(qs, net, values, v, n, x); }
      AcceptingStaysIn(s, n, x, values);
    case TryConfirmPrepared(n, x) =>
      if MayConfirmPrepared(s, n, x) { ConfirmedIsKnown(s, values, n, x); }
      ConfirmingStaysIn(s, n, x, values);
    case TryAcceptCommitted(n, x) =>
      if MayAcceptCommitted(s, n, x) { CommittedIsKnown(qs, net, values, v, n, x); }
      CommittingStaysIn(s, n, x, values);
    case TryConfirmCommitted(n, x) => ExternalizingStaysIn(s, n, x, values);
    case NextBallot(prediction) => BumpStaysIn(s, prediction, values);
    case Repeat(from, prediction) => RepeatStaysIn(s, from, prediction, values);
    case Receive(from, message) => StoreStaysIn(s, from, message, values);
  }

  lemma StoreStaysIn(s: State, from: Node, message: Message, values: set<SlotValue>)
    requires StateIn(s, values)
    ensures StateIn(Store(s, from, message), values)
  {
  }

  lemma ActStaysIn(qs: QuorumSlice, net: Net, a: Act, slot: nat, values: set<SlotValue>)
    requires Sound(qs, net) && FaultsDoNotBlock(qs, net.Keys) && Possible(net, a)
    requires NetIn(net, values) && PredictionOf(a.event) <= values
    ensures NetIn(Perform(net, a, slot), values)
  {
    hide Sound, FaultsDoNotBlock, Step, NewlyPrepared, CommitVotes;
    StepStaysIn(qs, net, a, values);
    assert StateIn(net[a.node].s, values) && PastIn(net[a.node].h, values);
    assert PastIn(Record(net[a.node].h, net[a.node].s, a.event), values);
  }

  // ----------------------------------------------------------------- whole runs

  lemma InMore(net: Net, values: set<SlotValue>, more: set<SlotValue>)
    requires NetIn(net, values) && values <= more
    ensures NetIn(net, more)
  {
  }

  lemma StartIsSound(qs: QuorumSlice, correct: set<Node>)
    ensures Sound(qs, Start(qs, correct)) && NetIn(Start(qs, correct), {})
  {
    forall v | v in correct ensures NodeOk(qs, v, Start(qs, correct)[v]) {
      InitialInv(v, qs);
    }
  }

  lemma {:induction false} RunStaysIn(qs: QuorumSlice, correct: set<Node>, acts: seq<Act>, slot: nat)
    requires FaultsDoNotBlock(qs, correct) && Valid(Start(qs, correct), acts, slot)
    ensures var net := After(Start(qs, correct), acts, slot);
      net.Keys == correct && Sound(qs, net) && NetIn(net, Predictions(acts))
    decreases |acts|
  {
    hide Sound, NetIn, FaultsDoNotBlock, Possible, Step, Record;
    if acts == [] {
      StartIsSound(qs, correct);
      assert Start(qs, correct).Keys == correct;
    } else {
      var net, a := After(Start(qs, correct), Front(acts), slot), Last(acts);
      RunStaysIn(qs, correct, Front(acts), slot);
      assert a.node in net by { ActIsAtNode(net, a); }
      InMore(net, Predictions(Front(acts)), Predictions(acts));
      ActKeepsSound(qs, net, a, slot);
      ActStaysIn(qs, net, a, slot, Predictions(acts));
    }
  }

  lemma ActIsAtNode(net: Net, a: Act)
    requires Possible(net, a)
    ensures a.node in net
  {
  }

  /** Over every run in which the faulty members do not block: every value that a correct node
      votes for, accepts as prepared or claims past the Prepare phase was predicted by
      nomination to some correct node. */
  lemma ValuesWerePredicted(qs: QuorumSlice, correct: set<Node>, acts: seq<Act>, slot: nat, v: Node, x: SlotValue)
    requires FaultsDoNotBlock(qs, correct) && Valid(Start(qs, correct), acts, slot)
    requires v in After(Start(qs, correct), acts, slot)
    ensures var h := After(Start(qs, correct), acts, slot)[v].h;
      x in h.claims || (exists n :: Ballot(n, x) in h.held || Ballot(n, x) in h.prepared) ==> x in Predictions(acts)
  {
    RunStaysIn(qs, correct, acts, slot);
    var net := After(Start(qs, correct), acts, slot);
    hide After, Sound, Predictions;
    assert PastIn(net[v].h, Predictions(acts));
  }
}
