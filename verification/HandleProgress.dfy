/** What handling a message is bound to find, and a run in which a correct node comes to an
    outcome (consensus/ballot_state.go). */
module HandleProgress {
  import opened Quorum
  import opened BallotMessages
  import opened Balloting
  import opened BallotHistory
  import opened Investigation
  import opened Progress
  import opened Externalizing
  import opened HandleTermination
  import opened Agreement
  import opened Network
  import opened Disagreement
  import opened SettlingRuns
  import Outcomes = Blocks

  // ------------------------------------------------------------ several values

  /** Support and examined numbers stay while we are in the Prepare phase. */
  lemma SupportStays(s: State, s': State, n: nat, x: SlotValue)
    requires Onward(s, s') && s.phase == s'.phase == Prepare && Examined(s, x, n)
    requires HasQuorum(Slices(s), s.us, Supporters(s, n, x)) || Blocks(s.d, Preparers(s, n, x))
    ensures Examined(s', x, n)
    ensures HasQuorum(Slices(s'), s'.us, Supporters(s', n, x)) || Blocks(s'.d, Preparers(s', n, x))
  {
    SameSupport(s, s', n, x);
    hide HasQuorum, Blocks;
  }

  lemma {:induction false} ValuesFindPrepared(s: State, values: seq<SlotValue>, done: set<SlotValue>, n: nat,
                                              x: SlotValue)
    requires InOrder(s) && s.phase == Prepare && Examined(s, x, n) && x in values && x !in done
    requires HasQuorum(Slices(s), s.us, Supporters(s, n, x)) || Blocks(s.d, Preparers(s, n, x))
    ensures var s' := InvestigateValues(s, values, done); s'.phase != Prepare || AcceptedOrBeyond(s', n, x)
    decreases |values|
  {
    hide HasQuorum, Blocks, Slices, Supporters, Preparers, Examined, InvestigateValue, AcceptedOrBeyond;
    var y, rest := values[0], values[1..];
    if y in done {
      ValuesFindPrepared(s, rest, done, n, x);
    } else {
      var s1 := InvestigateValue(s, y);
      ValueIsOnward(s, y);
      ValuesAreOnward(s1, rest, done + {y});
      if y == x {
        PreparedIsFound(s, n, x);
      } else if s1.phase == Prepare {
        SupportStays(s, s1, n, x);
        ValuesFindPrepared(s1, rest, done + {y}, n, x);
      }
    }
  }

  // ---------------------------------------------------------------- the loop

  lemma BumpIsInOrder(s: State, prediction: Option<SlotValue>)
    requires InOrder(s) && s.b.Some?
    ensures var s' := GoToNextBallot(s, prediction);
      && InOrder(s') && s'.phase == s.phase && s'.b.Some? && s'.p == s.p && s'.pPrime == s.pPrime
  {
    hide AcceptedAbort;
  }

  /** Rounds and bumps never go back on a phase or on what is accepted as prepared. */
  lemma {:induction false} SettleKeepsFindings(s: State, message: Message, prediction: Option<SlotValue>, fuel: nat)
    requires InOrder(s)
    ensures var s' := Settle(s, message, prediction, fuel).s;
      && PhaseRank(s.phase) <= PhaseRank(s'.phase) && (s.b.Some? ==> s'.b.Some?)
      && forall n, x :: AcceptedOrBeyond(s, n, x) ==> AcceptedOrBeyond(s', n, x)
    decreases fuel
  {
    hide Round, GoToNextBallot, WillBump;
    if fuel > 0 {
      var s1 := Round(s, message);
      RoundIsOnward(s, message);
      if WillBump(s1, prediction) {
        assert s1.b.Some? by { BumpNeedsBallot(s1, prediction); }
        BumpIsInOrder(s1, prediction);
        SettleKeepsFindings(GoToNextBallot(s1, prediction), message, prediction, fuel - 1);
      }
    }
  }

  lemma BumpNeedsBallot(s: State, prediction: Option<SlotValue>)
    requires WillBump(s, prediction)
    ensures s.b.Some?
  {
  }

  lemma RoundIsOnward(s: State, message: Message)
    requires InOrder(s)
    ensures Onward(s, Round(s, message))
  {
    ValuesAreOnward(s, Topics(message), {});
  }

  /** The message is about a value. */
  predicate Names(message: Message, x: SlotValue) {
    match message
    case PrepareMessage(_, _, bx, _, px, _, ppx, _, _, _) => x == bx || x == px || x == ppx
    case ConfirmMessage(_, mx, _, _, _, _) => x == mx
    case ExternalizeMessage(_, mx, _, _, _) => x == mx
  }

  /** The message is the first of its sender, or newer than the one in hand. */
  predicate IsNews(s: State, from: Node, message: Message) {
    from !in s.m || Compare(s.m[from], message) < 0
  }

  lemma RoundThenRest(s: State, message: Message, prediction: Option<SlotValue>, fuel: nat)
    requires InOrder(s) && fuel >= 1
    ensures var s1, s' := Round(s, message), Settle(s, message, prediction, fuel).s;
      && PhaseRank(s1.phase) <= PhaseRank(s'.phase) && (s1.b.Some? ==> s'.b.Some?)
      && (forall n, x :: AcceptedOrBeyond(s1, n, x) ==> AcceptedOrBeyond(s', n, x))
  {
    hide Round, GoToNextBallot, WillBump;
    var s1 := Round(s, message);
    RoundIsOnward(s, message);
    if WillBump(s1, prediction) {
      BumpNeedsBallot(s1, prediction);
      BumpIsInOrder(s1, prediction);
      SettleKeepsFindings(GoToNextBallot(s1, prediction), message, prediction, fuel - 1);
    }
  }

  /** Handling a message about a value accepts as prepared every examined ballot of it that
      a quorum supports or a blocking set has accepted. */
  lemma HandleFindsPrepared(s: State, from: Node, message: Message, prediction: Option<SlotValue>, fuel: nat,
                            n: nat, x: SlotValue)
    requires InOrder(s) && s.phase == Prepare && IsNews(s, from, message) && Names(message, x) && fuel >= 1
    requires var s1 := Store(s, from, message);
      Examined(s1, x, n) &&
      (HasQuorum(Slices(s1), s1.us, Supporters(s1, n, x)) || Blocks(s1.d, Preparers(s1, n, x)))
    ensures var s' := Handle(s, from, message, prediction, fuel).s;
      s'.phase != Prepare || AcceptedOrBeyond(s', n, x)
  {
    var s1 := Store(s, from, message);
    assert !IsOld(s, from, message) && x in Topics(message);
    hide HasQuorum, Blocks, Supporters, Preparers, Examined, InvestigateValues, Settle, AcceptedOrBeyond, IsOld;
    hide Compare;
    ValuesFindPrepared(s1, Topics(message), {}, n, x);
    RoundThenRest(s1, message, prediction, fuel);
  }

  lemma OneTopic(s: State, message: Message)
    requires !message.PrepareMessage?
    ensures Round(s, message) == InvestigateValue(s, message.x)
  {
    hide InvestigateValue;
    var s', x := InvestigateValue(s, message.x), message.x;
    assert [x][1..] == [];
    assert InvestigateValues(s', [], {} + {x}) == s';
  }

  /** A node open for a value that hears of it from a peer past the Prepare phase, and then
      has decisive messages in hand, externalizes: with that value, unless it is at once made
      to move on. */
  lemma HandleExternalizes(s: State, from: Node, message: Message, prediction: Option<SlotValue>, fuel: nat, n: nat)
    requires InOrder(s) && IsNews(s, from, message) && !message.PrepareMessage? && OpenFor(s, message.x) && fuel >= 1
    requires Decisive(Store(s, from, message), n, message.x)
    ensures var r := Handle(s, from, message, prediction, fuel);
      && r.s.phase == Externalize && r.s.b.Some?
      && (!BallotIsBlocked(InvestigateValue(Store(s, from, message), message.x)) ==>
            r.settled && r.s.b.value.x == message.x)
  {
    var s1, x := Store(s, from, message), message.x;
    assert !IsOld(s, from, message);
    hide InvestigateValue, Decisive, IsOld, Compare, BallotIsBlocked;
    ValueExternalizes(s1, n, x);
    OneTopic(s1, message);
    RoundThenRest(s1, message, prediction, fuel);
    hide Round, GoToNextBallot;
  }

  // ------------------------------------------------------- starting to commit

  /** A node that confirms its own ballot, or a higher one of its value, as prepared votes to
      commit from its ballot on, if nothing it accepted aborts that. */
  lemma ConfirmingStartsVote(s: State, h: History, n: nat, k: nat, slot: nat)
    requires Inv(s, h) && s.phase == Prepare && s.b.Some? && s.cn == 0 && s.hn < n
    requires s.b.value.n <= k <= n && !HasRival(h.prepared, n, s.b.value.x)
    requires MayConfirmPrepared(s, n, s.b.value.x)
    ensures VotesCommit(Advertise(Step(s, TryConfirmPrepared(n, s.b.value.x)), slot), k, s.b.value.x)
  {
    hide MayConfirmPrepared;
  }

  /** A node whose next ballot has been confirmed as prepared already votes to commit it as
      soon as it moves there, if nothing it accepted aborts that. */
  lemma MovingStartsVote(s: State, h: History, prediction: Option<SlotValue>, k: nat, slot: nat)
    requires Inv(s, h) && s.phase == Prepare && s.b.Some? && s.cn == 0 && s.z.Some?
    requires s.b.value.n + 1 <= k <= s.hn && !HasRival(h.prepared, s.hn, s.z.value)
    ensures VotesCommit(Advertise(Step(s, NextBallot(prediction)), slot), k, s.z.value)
  {
  }

  // ------------------------------------------------------------------- a run

  /** cal, without a ballot of its own, has heard that bob committed X. */
  function CalKnows(): State {
    Store(Initial(CAL, SLICE), BOB, Committed())
  }

  lemma CalListens()
    ensures !IsOld(Initial(CAL, SLICE), BOB, Committed())
    ensures Handle(Initial(CAL, SLICE), BOB, Committed(), None, 1) == Outcome(CalKnows(), true)
  {
    var s := CalKnows();
    forall n: nat, x | n >= 1 ensures QuietAbout(s, n, x) {
      OneSupporterIsQuiet(s, n, x, BOB);
    }
    QuietRound(s, Committed());
    hide Round, Quiet;
    OneRound(s, Committed(), None);
  }

  lemma CalIsConvinced()
    ensures Decisive(Store(CalKnows(), DAN, Committed()), 1, X)
  {
    var s := Store(CalKnows(), DAN, Committed());
    assert Committers(s, 1, X) == {BOB, DAN} && TalkingAbout(s.m, 1) == {BOB, DAN};
    TwoBlockButDoNotSatisfy({BOB, DAN}, BOB, DAN);
    assert Actionable(s.d, s.m, 1);
    assert {BOB, DAN} + {CAL} == {BOB, CAL, DAN};
    QuorumOfThree(s, {BOB, CAL, DAN});
  }

  lemma CalExternalizes()
    ensures !IsOld(CalKnows(), DAN, Committed())
    ensures var r := Handle(CalKnows(), DAN, Committed(), None, 1);
      r.settled && r.s.phase == Externalize && r.s.b.Some? && r.s.b.value.x == X
  {
    var s := Store(CalKnows(), DAN, Committed());
    CalIsConvinced();
    hide Decisive, InvestigateValue;
    ValueExternalizes(s, 1, X);
    ValueIsOnward(s, X);
    NotBlocked(InvestigateValue(s, X), None);
    assert Blockers(InvestigateValue(s, X)) == {};
    NobodyHits(SLICE.members);
    HandleExternalizes(CalKnows(), DAN, Committed(), None, 1, 1);
  }

  lemma CalIsCal()
    ensures CalKnows().us == CAL
  {
  }

  lemma OutcomeOf(s: State)
    requires s.phase == Externalize && s.b.Some?
    ensures Advertise(s, 1).ExternalizeMessage? && Advertise(s, 1).x == s.b.value.x
  {
  }

  lemma BobHasCommitted()
    ensures (BOB, Committed()) in BobDone().said
    ensures StateOf(BobDone(), CAL) == Initial(CAL, SLICE) && Initial(CAL, SLICE).us == CAL
  {
  }

  lemma CalListensInRun() returns (acts: seq<Act>)
    ensures Disagreement.Reaches(acts, Then(BobDone(), CAL, CalKnows())) && Steadfast(acts)
  {
    hide Disagreement.Reaches, Handle, Steadfast, IsOld, StateOf, Then, CalKnows, Initial, BobDone, Committed;
    CalListens();
    BobHasCommitted();
    acts := BobCommitsInRun();
    acts := Delivered(acts, BobDone(), CAL, BOB, Committed(), None, CalKnows());
  }

  lemma SceneOf(sc: Scene, s: State)
    ensures StateOf(Then(sc, CAL, s), CAL) == s
  {
  }

  lemma CalExternalizesInRun() returns (acts: seq<Act>, s: State)
    ensures Disagreement.Reaches(acts, Then(Then(BobDone(), CAL, CalKnows()), CAL, s)) && Steadfast(acts)
    ensures s.phase == Externalize && s.b.Some? && s.b.value.x == X
  {
    hide Disagreement.Reaches, Handle, Steadfast, IsOld, StateOf, Then, CalKnows, BobDone, Committed;
    CalExternalizes();
    CalIsCal();
    acts := CalListensInRun();
    s := Handle(CalKnows(), DAN, Committed(), None, 1).s;
    var scene := Then(BobDone(), CAL, CalKnows());
    SceneOf(BobDone(), CalKnows());
    acts := Delivered(acts, scene, CAL, DAN, Committed(), None, s);
  }

  /** There is a run within the fault bound in which correct nodes agree and one of them
      comes to an outcome. */
  lemma CorrectNodesCanExternalize() returns (acts: seq<Act>)
    ensures Tolerates(SLICE, {AMY, BOB, CAL}) && Valid(Start(SLICE, {AMY, BOB, CAL}), acts, 1)
    ensures var net := After(Start(SLICE, {AMY, BOB, CAL}), acts, 1);
      && CAL in net && Agreed(net) && net[CAL].s.phase == Externalize
      && var outcome := Outcomes.ResultOf(net[CAL].s, 1);
         outcome.Some? && outcome.value.ExternalizeMessage? && outcome.value.x == X
  {
    OneFaultIsTolerated();
    var s;
    acts, s := CalExternalizesInRun();
    OutcomeOf(s);
    hide Advertise, Tolerates, CalKnows, BobDone, Agreed;
    AgreementIffNoStrayBump(SLICE, {AMY, BOB, CAL}, acts, 1);
  }
}
