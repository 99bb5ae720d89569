/** The loop of `Handle` in whole networks: it ends for every node past the Prepare phase as
    long as entries are anchored, and may run for ever in the Prepare phase or otherwise. */
module SettlingRuns {
  import opened Quorum
  import opened BallotMessages
  import opened Balloting
  import opened Investigation
  import opened HandleTermination
  import opened Agreement
  import opened Network
  import opened Calls
  import opened Disagreement

  // --------------------------------------------------- runs with anchored entries

  lemma ClaimIsOurs(qs: QuorumSlice, net: Net, v: Node, k: Node, y: SlotValue)
    requires NetInv(qs, net) && v in net && net[v].s.phase != Prepare && k in net && y in net[k].h.claims
    ensures net[v].s.b.Some? && y == net[v].s.b.value.x
  {
    assert NodeOk(qs, v, net[v]);
    assert net[v].s.b.value.x in Pasts(net)[v].claims && y in Pasts(net)[k].claims;
    SafeImpliesAgreement(qs, Pasts(net));
  }

  /** Correct nodes past the Prepare phase agree, and the faulty ones do not block. */
  lemma OpponentsDoNotBlock(qs: QuorumSlice, net: Net, v: Node)
    requires NetInv(qs, net) && v in net && net[v].s.phase != Prepare && net[v].s.b.Some?
    ensures !Blocks(qs, Opponents(net[v].s.m, net[v].s.b.value.x))
  {
    var s := net[v].s;
    var opponents := Opponents(s.m, s.b.value.x);
    if Blocks(qs, opponents) {
      assert net.Keys == Pasts(net).Keys;
      BlockingHasCorrect(qs, net.Keys, opponents);
      var k :| k in opponents && k in net.Keys;
      assert NodeOk(qs, k, net[k]) && Authentic(net, s);
      assert Backed(s.m[k], net[k].h);
      ClaimIsOurs(qs, net, v, k, s.m[k].x);
    }
  }

  lemma RivalIsNotCommitted(qs: QuorumSlice, net: Net, v: Node, n: nat, y: SlotValue)
    requires NetInv(qs, net) && v in net && net[v].s.phase != Prepare && net[v].s.b.Some? && y != net[v].s.b.value.x
    ensures !Blocks(qs, CommittedBy(net[v].s, n, y))
  {
    var s := net[v].s;
    var senders := CommittedBy(s, n, y);
    if Blocks(qs, senders) {
      assert net.Keys == Pasts(net).Keys;
      BlockingHasCorrect(qs, net.Keys, senders);
      var k :| k in senders && k in net.Keys;
      assert NodeOk(qs, k, net[k]) && Authentic(net, s);
      CommittingMessage(s.m[k], net[k].h, n, y);
      ClaimIsOurs(qs, net, v, k, y);
    }
  }

  lemma LateNodesSettle(qs: QuorumSlice, net: Net, v: Node, message: Message, prediction: Option<SlotValue>)
    requires NetInv(qs, net) && v in net && net[v].s.phase != Prepare && Anchored(net[v].s)
    ensures Settles(net[v].s, message, prediction)
  {
    var s := net[v].s;
    assert NodeOk(qs, v, net[v]);
    OpponentsDoNotBlock(qs, net, v);
    hide NetInv, Settles, Blocks;
    forall n: nat, y | n >= 1 && y != s.b.value.x ensures !Blocks(s.d, CommittedBy(s, n, y)) {
      RivalIsNotCommitted(qs, net, v, n, y);
    }
    LockedSettlesIff(s, message, prediction, s.b.value.x);
  }

  lemma AnchoredRunIsSafe(qs: QuorumSlice, correct: set<Node>, acts: seq<Act>, slot: nat)
    requires Tolerates(qs, correct) && Valid(Start(qs, correct), acts, slot)
    requires NoLooseEntry(Start(qs, correct), acts, slot)
    ensures var net := After(Start(qs, correct), acts, slot);
      NetInv(qs, net) && forall v :: v in net ==> Anchored(net[v].s)
  {
    var start := Start(qs, correct);
    AnchoredRun(start, acts, slot);
    StartIsSafe(qs, correct);
    hide NetInv, Tolerates;
    RunKeepsNetInv(qs, start, acts, slot);
  }

  lemma ReceivingIsNotLoose(s: State, from: Node, message: Message)
    ensures !LooseEntry(s, Receive(from, message))
  {
  }

  lemma StoreKeepsPhase(s: State, from: Node, message: Message)
    ensures Store(s, from, message).phase == s.phase
  {
  }

  /** Over every run within the fault bound in which z holds b.x on leaving the Prepare
      phase, handling any message that can arrive ends at every correct node past that
      phase. */
  lemma HandleEndsOutsidePrepare(qs: QuorumSlice, correct: set<Node>, acts: seq<Act>, slot: nat, v: Node,
                                 from: Node, message: Message, prediction: Option<SlotValue>)
    requires Tolerates(qs, correct) && Valid(Start(qs, correct), acts, slot)
    requires NoLooseEntry(Start(qs, correct), acts, slot)
    requires Possible(After(Start(qs, correct), acts, slot), Act(v, Receive(from, message)))
    requires After(Start(qs, correct), acts, slot)[v].s.phase != Prepare
    ensures var net := After(Start(qs, correct), acts, slot);
      exists fuel: nat :: Handle(net[v].s, from, message, prediction, fuel).settled
  {
    hide NetInv, Settle, CountStale, IsOld, Store, Tolerates, LooseEntry;
    var start, a := Start(qs, correct), Act(v, Receive(from, message));
    var net, acts' := After(start, acts, slot), acts + [a];
    var s := net[v].s;
    OneMoreAct(start, acts, a, slot);
    assert Front(acts') == acts && Last(acts') == a;
    assert !LooseEntry(s, a.event) by { ReceivingIsNotLoose(s, from, message); }
    AnchoredRunIsSafe(qs, correct, acts', slot);
    var net' := After(start, acts', slot);
    assert net'[v].s == Store(s, from, message);
    assert net'[v].s.phase != Prepare by { StoreKeepsPhase(s, from, message); }
    hide After, Valid, NoLooseEntry;
    LateNodesSettle(qs, net', v, message, prediction);
    var fuel: nat :| Settle(Store(s, from, message), message, prediction, fuel).settled;
    assert Handle(s, from, message, prediction, fuel).settled;
  }

  // ------------------------------------------------------------- an endless loop

  function CalSays(): Message {
    ConfirmMessage(1, Y, 1, 0, 1, SLICE)
  }

  function DanSays(): Message {
    ConfirmMessage(1, Y, 0, 5, 5, SLICE)
  }

  /** bob has committed X and heard from cal that it is with Y. */
  ghost predicate BobTorn(s: State) {
    && s.us == BOB && s.d == SLICE && s.b == Some(Ballot(1, X)) && s.z == Some(X)
    && (s.phase == Confirm || s.phase == Externalize)
    && s.m == map[DAN := VotesToCommit(), AMY := VotesToCommit(), CAL := CalSays()]
  }

  lemma BobHearsCal(prediction: Option<SlotValue>)
    ensures Handle(BobCommits(), CAL, CalSays(), prediction, 1).settled
    ensures BobTorn(Handle(BobCommits(), CAL, CalSays(), prediction, 1).s)
  {
    var s := Store(BobCommits(), CAL, CalSays());
    forall n: nat, y | n >= 1 && y != X ensures !Blocks(s.d, CommittedBy(s, n, y)) {
      TwoBlockButDoNotSatisfy(CommittedBy(s, n, y), CAL, CAL);
    }
    RoundKeeps(s, CalSays(), X);
    var s' := Round(s, CalSays());
    hide Round;
    TwoBlockButDoNotSatisfy(Blockers(s'), CAL, CAL);
    OneRound(s, CalSays(), prediction);
  }

  lemma BobLoops(s: State, prediction: Option<SlotValue>, fuel: nat)
    requires BobTorn(s)
    ensures !Handle(s, DAN, DanSays(), prediction, fuel).settled
  {
    var s' := Store(s, DAN, DanSays());
    forall n: nat, y | n >= 1 && y != X ensures !Blocks(s'.d, CommittedBy(s', n, y)) {
      var one := if n <= 1 then CAL else DAN;
      TwoBlockButDoNotSatisfy(CommittedBy(s', n, y), one, one);
    }
    assert Opponents(s'.m, X) == {CAL, DAN};
    TwoBlockButDoNotSatisfy({CAL, DAN}, CAL, DAN);
    hide Settle, Blocks;
    NeverSettles(s', DanSays(), prediction, X, fuel);
  }

  /** A correct node can be kept in the loop for ever by one message of the one faulty
      member, after a run in which correct nodes have come to disagree. */
  lemma HandleCanLoopForever() returns (acts: seq<Act>)
    ensures Tolerates(SLICE, {AMY, BOB, CAL}) && Valid(Start(SLICE, {AMY, BOB, CAL}), acts, 1)
    ensures var net := After(Start(SLICE, {AMY, BOB, CAL}), acts, 1);
      && BOB in net && DAN !in net
      && forall prediction, fuel: nat :: !Handle(net[BOB].s, DAN, DanSays(), prediction, fuel).settled
  {
    OneFaultIsTolerated();
    acts := CalStraysInRun();
    BobHearsCal(None);
    assert Advertise(CalStrays(), 1) == CalSays();
    assert CalGone().bob == BobCommits() && (CAL, CalSays()) in CalGone().said;
    hide Handle, CalGone;
    var s' := Handle(BobCommits(), CAL, CalSays(), None, 1).s;
    acts := Delivered(acts, CalGone(), BOB, CAL, CalSays(), None, s');
    forall prediction, fuel: nat ensures !Handle(s', DAN, DanSays(), prediction, fuel).settled {
      BobLoops(s', prediction, fuel);
    }
    assert Then(CalGone(), BOB, s').bob == s';
    hide Then;
    assert Shows(After(Start(SLICE, {AMY, BOB, CAL}), acts, 1), Then(CalGone(), BOB, s'));
  }

  // ------------------------------------------- an endless loop without disagreement

  /** dan is alone with a value of its own. */
  function DanAlone(): Message {
    ConfirmMessage(1, "w", 0, 1, 1, SLICE)
  }

  /** cal votes for Y and has heard that bob committed X. */
  function CalHearsX(): State {
    Store(VotingFor(CAL, Y), BOB, Committed())
  }

  lemma OneSupporterIsQuiet(s: State, n: nat, x: SlotValue, q: Node)
    requires s.d == SLICE && PreparedBy(s, n, x) <= {q} && CommittedBy(s, n, x) <= {q}
    requires PrepareSupport(s, n, x) <= {s.us, q} && CommitSupport(s, n, x) <= {s.us, q}
    ensures QuietAbout(s, n, x)
  {
    TwoBlockButDoNotSatisfy(PreparedBy(s, n, x), q, q);
    TwoBlockButDoNotSatisfy(CommittedBy(s, n, x), q, q);
    NoQuorumOfTwo(s, PrepareSupport(s, n, x), s.us, q);
    NoQuorumOfTwo(s, CommitSupport(s, n, x), s.us, q);
  }

  lemma CalIsQuiet()
    ensures Quiet(CalHearsX()) && Quiet(Store(CalHearsX(), DAN, DanAlone()))
  {
    var s, s' := CalHearsX(), Store(CalHearsX(), DAN, DanAlone());
    forall n: nat, x | n >= 1 ensures QuietAbout(s, n, x) && QuietAbout(s', n, x) {
      OneSupporterIsQuiet(s, n, x, BOB);
      OneSupporterIsQuiet(s', n, x, if x == X then BOB else DAN);
    }
  }

  lemma CalHearsBobCommit()
    ensures !IsOld(VotingFor(CAL, Y), BOB, Committed())
    ensures Handle(VotingFor(CAL, Y), BOB, Committed(), Some(Y), 1) == Outcome(CalHearsX(), true)
  {
    var s := CalHearsX();
    CalIsQuiet();
    QuietRound(s, Committed());
    TwoBlockButDoNotSatisfy(Blockers(s), BOB, BOB);
    hide Round, Quiet;
    OneRound(s, Committed(), Some(Y));
  }

  lemma CalLoops(fuel: nat)
    ensures !Handle(CalHearsX(), DAN, DanAlone(), Some(Y), fuel).settled
  {
    var s := Store(CalHearsX(), DAN, DanAlone());
    CalIsQuiet();
    assert Opponents(s.m, Y) == {BOB, DAN};
    TwoBlockButDoNotSatisfy({BOB, DAN}, BOB, DAN);
    hide Settle, Blocks, Quiet;
    QuietNeverSettles(s, DanAlone(), Some(Y), Y, fuel);
  }

  /** The same can happen in the Prepare phase, although correct nodes agree and the only one
      that has left that phase holds its value in z. */
  lemma HandleCanLoopInPrepare() returns (acts: seq<Act>)
    ensures Tolerates(SLICE, {AMY, BOB, CAL}) && Valid(Start(SLICE, {AMY, BOB, CAL}), acts, 1)
    ensures var net := After(Start(SLICE, {AMY, BOB, CAL}), acts, 1);
      && net.Keys == {AMY, BOB, CAL} && Agreed(net)
      && net[AMY].s.phase == Prepare && net[CAL].s.phase == Prepare && Anchored(net[BOB].s)
      && forall fuel: nat :: !Handle(net[CAL].s, DAN, DanAlone(), Some(Y), fuel).settled
  {
    OneFaultIsTolerated();
    CalHearsBobCommit();
    acts := BobCommitsInRun();
    var scene := Then(BobDone(), CAL, VotingFor(CAL, Y));
    assert (BOB, Committed()) in scene.said && scene.cal == VotingFor(CAL, Y);
    assert Anchored(BobCommits()) && AmyVotes().phase == Prepare && CalHearsX().phase == Prepare;
    hide Handle, IsOld, Advertise, Tolerates, AmyVotes, BobCommits, CalHearsX, VotingFor;
    acts := Started(acts, BobDone(), CAL, Y);
    acts := Delivered(acts, scene, CAL, BOB, Committed(), Some(Y), CalHearsX());
    AgreementIffNoStrayBump(SLICE, {AMY, BOB, CAL}, acts, 1);
    forall fuel: nat ensures !Handle(CalHearsX(), DAN, DanAlone(), Some(Y), fuel).settled {
      CalLoops(fuel);
    }
    assert Shows(After(Start(SLICE, {AMY, BOB, CAL}), acts, 1), Then(scene, CAL, CalHearsX()));
  }
}
