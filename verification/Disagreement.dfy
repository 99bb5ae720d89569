/** A run in which correct nodes disagree: four members with threshold three, one of
    them faulty, and a node that entered the Confirm phase without its value in z. */
module Disagreement {
  import opened Quorum
  import opened Ranges
  import opened BallotMessages
  import opened Balloting
  import opened Investigation
  import opened Agreement
  import opened Network
  import opened Calls

  // ------------------------------------- investigating when all numbers are low

  /** Our ballot is number 1, and nobody talks about anything higher. */
  ghost predicate Low(s: State) {
    s.b.Some? && s.b.value.n == 1 && forall k :: k in s.m ==> MaxN(s.m[k]) <= 1 && !s.m[k].ExternalizeMessage?
  }

  lemma HullIsBelow(numbers: seq<nat>, bound: nat)
    requires forall n :: n in numbers ==> n <= bound
    ensures Hull(numbers).max <= bound
  {
    assert Hull(numbers).Null() || Hull(numbers).max in numbers;
  }

  lemma RangeIsWithinMaxN(m: Message, x: SlotValue)
    requires !m.ExternalizeMessage?
    ensures RelevantRange(m, x).max <= MaxN(m)
  {
    hide Hull, MaxOf;
    if m.PrepareMessage? {
      var numbers := [m.bn, m.cn, m.hn, m.pn, m.ppn];
      assert m.bn in numbers && m.cn in numbers && m.hn in numbers && m.pn in numbers && m.ppn in numbers;
      HullIsBelow([m.bn, m.cn, m.hn], MaxN(m));
    } else {
      HullIsBelow([m.pn, m.cn, m.hn], MaxN(m));
    }
  }

  lemma LowSpan(s: State, x: SlotValue)
    requires Low(s)
    ensures Span(s.m, x) == NullRange || Span(s.m, x) == Range(1, 1)
  {
    var r := Span(s.m, x);
    if !r.Null() {
      var k :| k in s.m && !RelevantRange(s.m[k], x).Null() && RelevantRange(s.m[k], x).max == r.max;
      RangeIsWithinMaxN(s.m[k], x);
    }
  }

  lemma LowValueIsOneBallot(s: State, x: SlotValue)
    requires Low(s) && InvestigateBallot(s, 1, x).b == s.b
    ensures InvestigateValue(s, x) == InvestigateBallot(s, 1, x)
  {
    LowSpan(s, x);
    assert InvestigateBallot(s, 0, x) == s;
    hide InvestigateBallot, Span, MaxActionable;
    var r := Span(s.m, x);
    var hi := Min(r.max, MaxActionable(s.d, s.m));
    assert hi <= 1;
    assert InvestigateBallots(InvestigateBallot(s, r.min, x), r.min + 1, hi, x) == InvestigateBallot(s, r.min, x);
  }

  /** Nobody, ourselves included, supports (1,w) in any way. */
  ghost predicate Unheard(s: State, w: SlotValue) {
    && !GteCompat(s.b, Ballot(1, w)) && !GteCompat(s.p, Ballot(1, w)) && !GteCompat(s.pPrime, Ballot(1, w))
    && (s.b.Some? ==> s.b.value.x != w)
    && forall k :: k in s.m ==>
         && !AcceptsPrepared(s.m[k], 1, w) && !VotesPrepare(s.m[k], 1, w)
         && !AcceptsCommitted(s.m[k], 1, w) && !VotesCommit(s.m[k], 1, w)
  }

  lemma UnheardIsIdle(s: State, w: SlotValue)
    requires Unheard(s, w)
    ensures InvestigateBallot(s, 1, w) == s
  {
    NobodyHits(s.d.members);
    assert PrepareVoters(s, 1, w) == {} && PreparedBy(s, 1, w) == {} && PrepareAccepters(s, 1, w) == {};
    assert CommitVoters(s, 1, w) == {} && CommittedBy(s, 1, w) == {};
    assert !MayAcceptPrepared(s, 1, w) && !MayConfirmPrepared(s, 1, w) && !MayAcceptCommitted(s, 1, w);
    hide MayAcceptPrepared, MayConfirmPrepared, MayAcceptCommitted, MayConfirmCommitted;
  }

  /** A message whose topics are `x` first, and otherwise `x` or the empty value. */
  ghost predicate SpeaksOf(message: Message, x: SlotValue) {
    Topics(message) == [x] || Topics(message) == [x, x, ""] || Topics(message) == [x, "", ""]
  }

  lemma LowRound(s: State, message: Message, x: SlotValue, s': State)
    requires Low(s) && SpeaksOf(message, x) && x != ""
    requires s' == InvestigateBallot(s, 1, x) && s'.b == s.b && s'.m == s.m && Unheard(s', "")
    ensures Round(s, message) == s'
  {
    LowValueIsOneBallot(s, x);
    UnheardIsIdle(s', "");
    LowValueIsOneBallot(s', "");
    InvestigateTopics(s, s', x);
  }

  lemma InvestigateTopics(s: State, s': State, x: SlotValue)
    requires x != "" && InvestigateValue(s, x) == s' && InvestigateValue(s', "") == s'
    ensures InvestigateValues(s, [x], {}) == s'
    ensures InvestigateValues(s, [x, x, ""], {}) == s'
    ensures InvestigateValues(s, [x, "", ""], {}) == s'
  {
    hide InvestigateValue;
    assert [x][1..] == [] && [x, x, ""][1..] == [x, ""] && [x, "", ""][1..] == ["", ""];
    assert [x, ""][1..] == [""] && ["", ""][1..] == [""];
    var done := {} + {x};
    assert InvestigateValues(s', [""], done) == s' && InvestigateValues(s', [""], done + {""}) == s';
    assert InvestigateValues(s', [x, ""], done) == s' && InvestigateValues(s', ["", ""], done) == s';
  }

  /** Everybody could still vote for our ballot, so it is not blocked. */
  lemma NotBlocked(s: State, prediction: Option<SlotValue>)
    requires s.b.Some? && forall k :: k in s.m ==> CouldEverVoteFor(s.m[k], s.b.value.n, s.b.value.x)
    ensures !WillBump(s, prediction)
  {
    NobodyHits(s.d.members);
    assert Blockers(s) == {};
  }

  lemma OneRound(s: State, message: Message, prediction: Option<SlotValue>)
    requires !WillBump(Round(s, message), prediction)
    ensures Settle(s, message, prediction, 1) == Outcome(Round(s, message), true)
  {
    hide Round, WillBump, GoToNextBallot;
  }

  /** Handling a new low message amounts to investigating one ballot. */
  lemma LowHandle(s: State, from: Node, message: Message, prediction: Option<SlotValue>, x: SlotValue, s': State)
    requires !IsOld(s, from, message) && SpeaksOf(message, x) && x != ""
    requires Low(Store(s, from, message)) && s' == InvestigateBallot(Store(s, from, message), 1, x)
    requires s'.b == s.b == Some(Ballot(1, x)) && s'.m == s.m[from := message] && Unheard(s', "")
    requires forall k :: k in s'.m ==> CouldEverVoteFor(s'.m[k], 1, x)
    ensures Handle(s, from, message, prediction, 1) == Outcome(s', true)
  {
    hide IsOld, InvestigateBallot, Low, Unheard, SpeaksOf, CouldEverVoteFor, Round, WillBump, Settle;
    var received := Store(s, from, message);
    LowRound(received, message, x, s');
    NotBlocked(s', prediction);
    OneRound(received, message, prediction);
  }

  // ------------------------------------------------------------ the four members

  const AMY := "amy"
  const BOB := "bob"
  const CAL := "cal"
  const DAN := "dan"
  const SLICE := QuorumSlice([AMY, BOB, CAL, DAN], 3)
  /** A slice that nothing satisfies. Only the faulty member claims it. */
  const BAD_SLICE := QuorumSlice([], 1)
  const X := "x"
  const Y := "y"

  lemma MembersAreFour()
    ensures WellFormed(SLICE) && Elems(SLICE.members) == {AMY, BOB, CAL, DAN}
  {
  }

  lemma OneFaultIsTolerated()
    ensures Tolerates(SLICE, {AMY, BOB, CAL})
  {
    MembersAreFour();
    assert Elems(SLICE.members) - {AMY, BOB, CAL} == {DAN};
  }

  lemma ThreeSatisfy(s: set<Node>)
    requires s == {AMY, BOB, CAL} || s == {AMY, BOB, DAN} || s == {BOB, CAL, DAN}
    ensures Satisfies(SLICE, s)
  {
    MembersAreFour();
    HitsIsCardinality(SLICE.members, s);
    assert Elems(SLICE.members) * s == s;
  }

  lemma TwoBlockButDoNotSatisfy(s: set<Node>, p: Node, q: Node)
    requires s <= {p, q}
    ensures !Satisfies(SLICE, s)
    ensures p != q && s == {p, q} && p in SLICE.members && q in SLICE.members ==> Blocks(SLICE, s)
    ensures p == q ==> !Blocks(SLICE, s)
  {
    MembersAreFour();
    HitsIsCardinality(SLICE.members, s);
    SubsetSize(Elems(SLICE.members) * s, {p, q});
    if p != q && s == {p, q} && p in SLICE.members && q in SLICE.members {
      assert Elems(SLICE.members) * s == s;
    }
  }

  /** Two nodes, or any nodes without us, hold no quorum around us. */
  lemma NoQuorumOfTwo(s: State, nodes: set<Node>, p: Node, q: Node)
    requires s.d == SLICE && (nodes <= {p, q} || s.us !in nodes)
    ensures !MeetsQuorumHere(s, nodes)
  {
    if u :| u <= nodes && IsQuorum(Slices(s), s.us, u) {
      assert Slices(s)[s.us] == SLICE;
      TwoBlockButDoNotSatisfy(u, p, q);
    }
  }

  // ------------------------------------------------------------------ the states

  function VotingFor(us: Node, x: SlotValue): State {
    Initial(us, SLICE).(b := Some(Ballot(1, x)))
  }

  function Voting(us: Node): State {
    VotingFor(us, X)
  }

  function PrepareOf(pn: nat, px: SlotValue, cn: nat, hn: nat): Message {
    PrepareMessage(1, 1, X, pn, px, 0, "", cn, hn, SLICE)
  }

  function VoteOnly(): Message {
    PrepareOf(0, "", 0, 0)
  }

  function AcceptsOnly(): Message {
    PrepareOf(1, X, 0, 0)
  }

  /** What dan tells amy and bob, and what amy comes to say herself. */
  function VotesToCommit(): Message {
    PrepareOf(1, X, 1, 1)
  }

  function Committed(): Message {
    ConfirmMessage(1, X, 1, 1, 1, SLICE)
  }

  /** What dan tells cal. */
  function BadConfirm(): Message {
    ConfirmMessage(1, X, 0, 1, 1, BAD_SLICE)
  }

  /** The state of `us` that has heard from dan only. */
  function HeardDan(us: Node): State {
    Voting(us).(m := map[DAN := VotesToCommit()], stale := map[DAN := 0])
  }

  ghost predicate Plain(m: Message) {
    m in {VoteOnly(), AcceptsOnly(), VotesToCommit(), Committed(), BadConfirm()}
  }

  lemma PlainMessageIsLow(m: Message)
    requires Plain(m)
    ensures MaxN(m) <= 1 && !m.ExternalizeMessage?
  {
  }

  lemma PlainMessageIsAboutX(m: Message)
    requires Plain(m)
    ensures CouldEverVoteFor(m, 1, X)
    ensures !AcceptsPrepared(m, 1, "") && !VotesPrepare(m, 1, "")
    ensures !AcceptsCommitted(m, 1, "") && !VotesCommit(m, 1, "")
  {
  }

  lemma PlainMessages(s: State)
    requires s.b == Some(Ballot(1, X)) && (s.p.Some? ==> s.p.value.x == X) && s.pPrime.None?
    requires forall k :: k in s.m ==> Plain(s.m[k])
    ensures Low(s) && Unheard(s, "")
    ensures forall k :: k in s.m ==> CouldEverVoteFor(s.m[k], 1, X)
  {
    hide Plain, MaxN, CouldEverVoteFor, AcceptsPrepared, VotesPrepare, AcceptsCommitted, VotesCommit;
    forall k | k in s.m
      ensures MaxN(s.m[k]) <= 1 && !s.m[k].ExternalizeMessage? && CouldEverVoteFor(s.m[k], 1, X)
      ensures !AcceptsPrepared(s.m[k], 1, "") && !VotesPrepare(s.m[k], 1, "")
      ensures !AcceptsCommitted(s.m[k], 1, "") && !VotesCommit(s.m[k], 1, "")
    {
      PlainMessageIsLow(s.m[k]);
      PlainMessageIsAboutX(s.m[k]);
    }
  }

  /** Two supporters are not enough to do anything at all. */
  lemma TwoIsTooFew(s: State, q: Node)
    requires s.d == SLICE && s.phase == Prepare && s.cn == 0
    requires s.m.Keys == {q} && q != s.us
    ensures InvestigateBallot(s, 1, X) == s
  {
    TwoBlockButDoNotSatisfy(PreparedBy(s, 1, X), q, q);
    TwoBlockButDoNotSatisfy(CommittedBy(s, 1, X), q, q);
    NoQuorumOfTwo(s, PrepareVoters(s, 1, X), s.us, q);
    NoQuorumOfTwo(s, PrepareAccepters(s, 1, X), s.us, q);
    NoQuorumOfTwo(s, CommitVoters(s, 1, X), s.us, q);
    assert !MayAcceptPrepared(s, 1, X) && !MayConfirmPrepared(s, 1, X) && !MayAcceptCommitted(s, 1, X);
    hide MayAcceptPrepared, MayConfirmPrepared, MayAcceptCommitted, MayConfirmCommitted;
  }

  lemma HearDan(us: Node)
    requires us in {AMY, BOB}
    ensures Handle(Voting(us), DAN, VotesToCommit(), Some(X), 1) == Outcome(HeardDan(us), true)
  {
    var s := HeardDan(us);
    assert s == Store(Voting(us), DAN, VotesToCommit());
    TwoIsTooFew(s, DAN);
    PlainMessages(s);
    LowHandle(Voting(us), DAN, VotesToCommit(), Some(X), X, s);
  }

  // -------------------------------------------------------- bob, amy, bob again

  /** bob has accepted (1,X) as prepared. */
  function BobAccepts(): State {
    HeardDan(BOB).(p := Some(Ballot(1, X)),
                   m := map[DAN := VotesToCommit(), AMY := VoteOnly()], stale := map[DAN := 0, AMY := 0])
  }

  /** amy has confirmed (1,X) as prepared and votes to commit it. */
  function AmyVotes(): State {
    HeardDan(AMY).(p := Some(Ballot(1, X)), cn := 1, hn := 1, z := Some(X),
                   m := map[DAN := VotesToCommit(), BOB := AcceptsOnly()], stale := map[DAN := 0, BOB := 0])
  }

  /** bob has accepted the commit of (1,X). */
  function BobCommits(): State {
    BobAccepts().(phase := Confirm, cn := 1, hn := 1, z := Some(X),
                  m := map[DAN := VotesToCommit(), AMY := VotesToCommit()])
  }

  /** Three members with the shared slice are a quorum. */
  lemma QuorumOfThree(s: State, nodes: set<Node>)
    requires s.d == SLICE && s.us in nodes && nodes <= s.m.Keys + {s.us}
    requires nodes == {AMY, BOB, CAL} || nodes == {AMY, BOB, DAN} || nodes == {BOB, CAL, DAN}
    requires forall k :: k in nodes && k in s.m ==> s.m[k].d == SLICE
    ensures MeetsQuorumHere(s, nodes)
  {
    ThreeSatisfy(nodes);
    assert IsQuorum(Slices(s), s.us, nodes);
  }

  lemma BobInvestigates(s: State)
    requires s == HeardDan(BOB).(m := BobAccepts().m, stale := BobAccepts().stale)
    ensures InvestigateBallot(s, 1, X) == BobAccepts()
  {
    var s' := BobAccepts();
    assert PrepareVoters(s, 1, X) == {AMY, BOB, DAN};
    QuorumOfThree(s, {AMY, BOB, DAN});
    assert s' == MaybeAcceptAsPrepared(s, 1, X);
    assert PrepareAccepters(s', 1, X) == {BOB, DAN} && CommitVoters(s', 1, X) == {DAN} && CommittedBy(s', 1, X) == {};
    NoQuorumOfTwo(s', {BOB, DAN}, BOB, DAN);
    NoQuorumOfTwo(s', {DAN}, DAN, DAN);
    TwoBlockButDoNotSatisfy({}, DAN, DAN);
  }

  lemma BobAcceptsPrepared()
    ensures Handle(HeardDan(BOB), AMY, VoteOnly(), Some(X), 1) == Outcome(BobAccepts(), true)
  {
    var s := Store(HeardDan(BOB), AMY, VoteOnly());
    BobInvestigates(s);
    PlainMessages(s);
    PlainMessages(BobAccepts());
    LowHandle(HeardDan(BOB), AMY, VoteOnly(), Some(X), X, BobAccepts());
  }

  lemma AmyInvestigates(s: State)
    requires s == HeardDan(AMY).(m := AmyVotes().m, stale := AmyVotes().stale)
    ensures InvestigateBallot(s, 1, X) == AmyVotes()
  {
    var s', s'' := s.(p := Some(Ballot(1, X))), AmyVotes();
    assert PrepareVoters(s, 1, X) == {AMY, BOB, DAN};
    QuorumOfThree(s, {AMY, BOB, DAN});
    assert s' == MaybeAcceptAsPrepared(s, 1, X);
    assert PrepareAccepters(s', 1, X) == {AMY, BOB, DAN};
    QuorumOfThree(s', {AMY, BOB, DAN});
    assert s'' == MaybeConfirmAsPrepared(s', 1, X);
    assert CommitVoters(s'', 1, X) == {AMY, DAN} && CommittedBy(s'', 1, X) == {};
    NoQuorumOfTwo(s'', {AMY, DAN}, AMY, DAN);
    TwoBlockButDoNotSatisfy({}, DAN, DAN);
  }

  lemma AmyVotesToCommit()
    ensures Handle(HeardDan(AMY), BOB, AcceptsOnly(), Some(X), 1) == Outcome(AmyVotes(), true)
  {
    var s := Store(HeardDan(AMY), BOB, AcceptsOnly());
    AmyInvestigates(s);
    PlainMessages(s);
    PlainMessages(AmyVotes());
    LowHandle(HeardDan(AMY), BOB, AcceptsOnly(), Some(X), X, AmyVotes());
  }

  lemma BobInvestigatesAgain(s: State)
    requires s == BobAccepts().(m := BobCommits().m)
    ensures InvestigateBallot(s, 1, X) == BobCommits()
  {
    var s', s'' := s.(cn := 1, hn := 1, z := Some(X)), BobCommits();
    assert s == MaybeAcceptAsPrepared(s, 1, X);
    assert PrepareAccepters(s, 1, X) == {AMY, BOB, DAN};
    QuorumOfThree(s, {AMY, BOB, DAN});
    assert s' == MaybeConfirmAsPrepared(s, 1, X);
    assert CommitVoters(s', 1, X) == {AMY, BOB, DAN};
    QuorumOfThree(s', {AMY, BOB, DAN});
    assert s'' == MaybeAcceptAsCommitted(s', 1, X);
    assert CommitAccepters(s'', 1, X) == {BOB};
    NoQuorumOfTwo(s'', {BOB}, BOB, BOB);
  }

  lemma BobAcceptsCommit()
    ensures Handle(BobAccepts(), AMY, VotesToCommit(), Some(X), 1) == Outcome(BobCommits(), true)
  {
    hide Handle, InvestigateBallot, Low, Unheard, CouldEverVoteFor;
    var s := Store(BobAccepts(), AMY, VotesToCommit());
    BobInvestigatesAgain(s);
    PlainMessages(s);
    PlainMessages(BobCommits());
    LowHandle(BobAccepts(), AMY, VotesToCommit(), Some(X), X, BobCommits());
  }

  // ------------------------------------------------------------------------- cal

  /** cal has heard bob's commit. */
  function CalHears(): State {
    Voting(CAL).(m := map[BOB := Committed()], stale := map[BOB := 0])
  }

  /** cal has accepted the commit of (1,X) by a blocking set, without confirming that
      it is prepared: z holds nothing. */
  function CalCommits(): State {
    Voting(CAL).(phase := Confirm, p := Some(Ballot(1, X)), hn := 1,
                 m := map[BOB := Committed(), DAN := BadConfirm()], stale := map[BOB := 0, DAN := 0])
  }

  /** cal has also heard from amy, and then `a` repeats from amy and `b` from bob. */
  function CalWaits(a: nat, b: nat): State {
    CalCommits().(m := map[BOB := Committed(), DAN := BadConfirm(), AMY := VotesToCommit()],
                  stale := map[BOB := b, DAN := 0, AMY := a])
  }

  lemma CalHearsBob()
    ensures Handle(Voting(CAL), BOB, Committed(), Some(X), 1) == Outcome(CalHears(), true)
  {
    var s := CalHears();
    assert s == Store(Voting(CAL), BOB, Committed());
    TwoIsTooFew(s, BOB);
    PlainMessages(s);
    LowHandle(Voting(CAL), BOB, Committed(), Some(X), X, s);
  }

  /** dan's slice keeps it out of every quorum. */
  lemma DanIsNoHelp(s: State, nodes: set<Node>)
    requires s.d == SLICE && s.us == CAL && DAN in s.m && s.m[DAN] == BadConfirm() && nodes <= {BOB, CAL, DAN}
    ensures !MeetsQuorumHere(s, nodes)
  {
    if u :| u <= nodes && IsQuorum(Slices(s), s.us, u) {
      assert DAN !in u;
      assert Slices(s)[s.us] == SLICE;
      TwoBlockButDoNotSatisfy(u, BOB, CAL);
    }
  }

  lemma CalInvestigates(s: State)
    requires s == Voting(CAL).(m := CalCommits().m, stale := CalCommits().stale)
    ensures InvestigateBallot(s, 1, X) == CalCommits()
  {
    var s', s'' := s.(p := Some(Ballot(1, X))), CalCommits();
    assert PreparedBy(s, 1, X) == {BOB, DAN};
    TwoBlockButDoNotSatisfy({BOB, DAN}, BOB, DAN);
    assert s' == MaybeAcceptAsPrepared(s, 1, X);
    assert PrepareAccepters(s', 1, X) == {BOB, CAL, DAN};
    DanIsNoHelp(s', {BOB, CAL, DAN});
    assert s' == MaybeConfirmAsPrepared(s', 1, X);
    assert CommittedBy(s', 1, X) == {BOB, DAN};
    assert s'' == MaybeAcceptAsCommitted(s', 1, X);
    assert CommitAccepters(s'', 1, X) == {BOB, CAL, DAN};
    DanIsNoHelp(s'', {BOB, CAL, DAN});
  }

  lemma CalAcceptsCommit()
    ensures Handle(CalHears(), DAN, BadConfirm(), Some(X), 1) == Outcome(CalCommits(), true)
  {
    hide Handle, InvestigateBallot, Low, Unheard, CouldEverVoteFor;
    var s := Store(CalHears(), DAN, BadConfirm());
    CalInvestigates(s);
    PlainMessages(s);
    PlainMessages(CalCommits());
    LowHandle(CalHears(), DAN, BadConfirm(), Some(X), X, CalCommits());
  }

  lemma CalHearsAmy()
    ensures Handle(CalCommits(), AMY, VotesToCommit(), Some(X), 1) == Outcome(CalWaits(0, 0), true)
  {
    var s := CalWaits(0, 0);
    assert s == Store(CalCommits(), AMY, VotesToCommit());
    assert CommitAccepters(s, 1, X) == {BOB, CAL, DAN};
    DanIsNoHelp(s, {BOB, CAL, DAN});
    assert InvestigateBallot(s, 1, X) == s;
    PlainMessages(s);
    LowHandle(CalCommits(), AMY, VotesToCommit(), Some(X), X, s);
  }

  /** cal has given up on its ballot and taken the value nomination predicts by now. */
  function CalStrays(): State {
    CalWaits(3, 3).(b := Some(Ballot(2, Y)), stale := map[])
  }

  lemma NotStaleYet(s: State, a: nat, b: nat)
    requires s == CalWaits(a, b) && b < 3
    ensures !StaleQuorum(s)
  {
    assert StaleNodes(s) <= {CAL, AMY};
    NoQuorumOfTwo(s, StaleNodes(s), CAL, AMY);
  }

  lemma CalWaitsOn(a: nat, b: nat)
    requires b < 3
    ensures Handle(CalWaits(a, b), AMY, VotesToCommit(), Some(Y), 1) == Outcome(CalWaits(a + 1, b), true)
  {
    NotStaleYet(CalWaits(a + 1, b), a + 1, b);
    assert CalWaits(a, b).(stale := CalWaits(a, b).stale[AMY := a + 1]) == CalWaits(a + 1, b);
    hide StaleQuorum, HandleStaleQuorum, Settle;
  }

  lemma CalWaitsForBob(a: nat, b: nat)
    requires b < 2
    ensures Handle(CalWaits(a, b), BOB, Committed(), Some(Y), 1) == Outcome(CalWaits(a, b + 1), true)
  {
    NotStaleYet(CalWaits(a, b + 1), a, b + 1);
    assert CalWaits(a, b).(stale := CalWaits(a, b).stale[BOB := b + 1]) == CalWaits(a, b + 1);
    hide StaleQuorum, HandleStaleQuorum, Settle;
  }

  lemma CalGivesUp()
    ensures Handle(CalWaits(3, 2), BOB, Committed(), Some(Y), 1) == Outcome(CalStrays(), true)
  {
    var s := CalWaits(3, 3);
    assert CalWaits(3, 2).(stale := CalWaits(3, 2).stale[BOB := 3]) == s;
    assert StaleNodes(s) == {AMY, BOB, CAL};
    QuorumOfThree(s, {AMY, BOB, CAL});
    assert StaleQuorum(s);
    var quiet := s.(stale := map[]);
    assert Behind(quiet) == {};
    NobodyHits(SLICE.members);
    assert !Blocks(SLICE, {});
    hide StaleQuorum, Blocks;
  }

  // --------------------------------------------------------------------- the run

  /** What is known of the network at some point of the run: the states of the correct
      nodes, some messages they have sent and some values they have claimed. */
  datatype Scene = Scene(
    amy: State,
    bob: State,
    cal: State,
    said: set<(Node, Message)>,
    claimed: set<(Node, SlotValue)>)

  function StateOf(sc: Scene, v: Node): State {
    if v == AMY then sc.amy else if v == BOB then sc.bob else sc.cal
  }

  /** The scene after `v` has moved to `s`. */
  ghost function Then(sc: Scene, v: Node, s: State): Scene {
    Scene(if v == AMY then s else sc.amy, if v == BOB then s else sc.bob, if v == CAL then s else sc.cal,
          sc.said + (if s.b.Some? then {(v, Advertise(s, 1))} else {}),
          sc.claimed + (if s.b.Some? && s.phase != Prepare then {(v, s.b.value.x)} else {}))
  }

  ghost predicate Shows(net: Net, sc: Scene) {
    && net.Keys == {AMY, BOB, CAL}
    && net[AMY].s == sc.amy && net[BOB].s == sc.bob && net[CAL].s == sc.cal
    && (forall pair :: pair in sc.said ==> pair.0 in net && pair.1 in net[pair.0].sent)
    && (forall pair :: pair in sc.claimed ==> pair.0 in net && pair.1 in net[pair.0].h.claims)
  }

  ghost predicate Reaches(acts: seq<Act>, sc: Scene) {
    Valid(Start(SLICE, {AMY, BOB, CAL}), acts, 1) && Shows(After(Start(SLICE, {AMY, BOB, CAL}), acts, 1), sc)
  }

  /** Nobody past the Prepare phase has moved on with another value. */
  ghost predicate Steadfast(acts: seq<Act>) {
    Valid(Start(SLICE, {AMY, BOB, CAL}), acts, 1) && NoStrayBump(Start(SLICE, {AMY, BOB, CAL}), acts, 1)
  }

  lemma MoveShows(net: Net, net': Net, sc: Scene, v: Node)
    requires Shows(net, sc) && Moved(net, net', v, 1)
    ensures Shows(net', Then(sc, v, net'[v].s))
  {
    hide Advertise;
  }

  /** One call of Handle leads from scene to scene. */
  lemma Delivered(acts: seq<Act>, sc: Scene, v: Node, from: Node, message: Message,
                  prediction: Option<SlotValue>, s': State) returns (acts': seq<Act>)
    requires Reaches(acts, sc) && v in {AMY, BOB, CAL} && StateOf(sc, v).us == v
    requires from != v && (from == DAN || (from, message) in sc.said)
    requires Handle(StateOf(sc, v), from, message, prediction, 1) == Outcome(s', true)
    ensures Reaches(acts', Then(sc, v, s'))
    ensures Steadfast(acts) && !IsOld(StateOf(sc, v), from, message) ==> Steadfast(acts')
  {
    hide Handle, Moved, Then, IsOld;
    var start := Start(SLICE, {AMY, BOB, CAL});
    assert from == DAN ==> from !in After(start, acts, 1);
    acts' := HandleExtendsRun(start, acts, v, from, message, prediction, 1, 1);
    MoveShows(After(start, acts, 1), After(start, acts', 1), sc, v);
  }

  lemma Started(acts: seq<Act>, sc: Scene, v: Node, x: SlotValue) returns (acts': seq<Act>)
    requires Reaches(acts, sc) && v in {AMY, BOB, CAL} && StateOf(sc, v) == Initial(v, SLICE)
    ensures Reaches(acts', Then(sc, v, VotingFor(v, x)))
    ensures Steadfast(acts) ==> Steadfast(acts')
  {
    assert GoToNextBallot(Initial(v, SLICE), Some(x)) == VotingFor(v, x);
    hide GoToNextBallot, Moved, Then, VotingFor;
    var start := Start(SLICE, {AMY, BOB, CAL});
    acts' := StartExtendsRun(start, acts, v, Some(x), 1);
    MoveShows(After(start, acts, 1), After(start, acts', 1), sc, v);
  }

  lemma Messages()
    ensures Advertise(Voting(AMY), 1) == VoteOnly() && Advertise(BobAccepts(), 1) == AcceptsOnly()
    ensures Advertise(AmyVotes(), 1) == VotesToCommit() && Advertise(BobCommits(), 1) == Committed()
  {
  }

  lemma MessagesAreNew()
    ensures !IsOld(Voting(AMY), DAN, VotesToCommit()) && !IsOld(Voting(BOB), DAN, VotesToCommit())
    ensures !IsOld(HeardDan(BOB), AMY, VoteOnly())
    ensures !IsOld(HeardDan(AMY), BOB, AcceptsOnly()) && !IsOld(BobAccepts(), AMY, VotesToCommit())
  {
  }

  function Opening(): Scene {
    Scene(Voting(AMY), Voting(BOB), Initial(CAL, SLICE), {(AMY, VoteOnly())}, {})
  }

  lemma FewerFacts(acts: seq<Act>, sc: Scene, sc': Scene)
    requires Reaches(acts, sc) && sc' == sc.(said := sc'.said, claimed := sc'.claimed)
    requires sc'.said <= sc.said && sc'.claimed <= sc.claimed
    ensures Reaches(acts, sc')
  {
    hide Valid, After;
  }

  lemma AmyAndBobVote() returns (acts: seq<Act>)
    ensures Reaches(acts, Opening()) && Steadfast(acts)
  {
    var sc := Scene(Initial(AMY, SLICE), Initial(BOB, SLICE), Initial(CAL, SLICE), {}, {});
    assert Reaches([], sc);
    Messages();
    assert Steadfast([]);
    hide Reaches, Initial, Advertise, VoteOnly, Steadfast;
    acts := Started([], sc, AMY, X);
    acts := Started(acts, Then(sc, AMY, Voting(AMY)), BOB, X);
    FewerFacts(acts, Then(Then(sc, AMY, Voting(AMY)), BOB, Voting(BOB)), Opening());
  }

  /** bob, then amy, hear dan and each other until bob accepts the commit of X. */
  function BobDone(): Scene {
    Scene(AmyVotes(), BobCommits(), Initial(CAL, SLICE), {(AMY, VotesToCommit()), (BOB, Committed())}, {(BOB, X)})
  }

  function BobPrepared(): Scene {
    Scene(HeardDan(AMY), BobAccepts(), Initial(CAL, SLICE), {(BOB, AcceptsOnly())}, {})
  }

  lemma BobAcceptsInRun() returns (acts: seq<Act>)
    ensures Reaches(acts, BobPrepared()) && Steadfast(acts)
  {
    hide Reaches, Handle, Steadfast, IsOld;
    acts := AmyAndBobVote();
    HearDan(BOB);
    HearDan(AMY);
    BobAcceptsPrepared();
    Messages();
    MessagesAreNew();
    hide Advertise, VoteOnly, AcceptsOnly, VotesToCommit;
    var sc1 := Opening().(amy := HeardDan(AMY));
    var sc2 := sc1.(bob := HeardDan(BOB));
    acts := Delivered(acts, Opening(), AMY, DAN, VotesToCommit(), Some(X), HeardDan(AMY));
    FewerFacts(acts, Then(Opening(), AMY, HeardDan(AMY)), sc1);
    acts := Delivered(acts, sc1, BOB, DAN, VotesToCommit(), Some(X), HeardDan(BOB));
    FewerFacts(acts, Then(sc1, BOB, HeardDan(BOB)), sc2);
    acts := Delivered(acts, sc2, BOB, AMY, VoteOnly(), Some(X), BobAccepts());
    FewerFacts(acts, Then(sc2, BOB, BobAccepts()), BobPrepared());
  }

  lemma BobCommitsInRun() returns (acts: seq<Act>)
    ensures Reaches(acts, BobDone()) && Steadfast(acts)
  {
    hide Reaches, Handle, Steadfast, IsOld;
    acts := BobAcceptsInRun();
    AmyVotesToCommit();
    BobAcceptsCommit();
    Messages();
    MessagesAreNew();
    hide Advertise, VoteOnly, AcceptsOnly, VotesToCommit, Committed;
    var sc1 := Then(BobPrepared(), AMY, AmyVotes());
    acts := Delivered(acts, BobPrepared(), AMY, BOB, AcceptsOnly(), Some(X), AmyVotes());
    acts := Delivered(acts, sc1, BOB, AMY, VotesToCommit(), Some(X), BobCommits());
    FewerFacts(acts, Then(sc1, BOB, BobCommits()), BobDone());
  }

  /** cal hears bob, is pushed over by dan, and waits. */
  function CalDone(a: nat, b: nat): Scene {
    BobDone().(cal := CalWaits(a, b))
  }

  lemma CalCommitsInRun() returns (acts: seq<Act>)
    ensures Reaches(acts, CalDone(0, 0))
  {
    acts := BobCommitsInRun();
    CalHearsBob();
    CalAcceptsCommit();
    CalHearsAmy();
    hide Reaches, Handle, Advertise, VotesToCommit, Committed, BadConfirm;
    acts := Started(acts, BobDone(), CAL, X);
    var sc0 := Then(BobDone(), CAL, Voting(CAL));
    var sc1 := Then(sc0, CAL, CalHears());
    var sc2 := Then(sc1, CAL, CalCommits());
    acts := Delivered(acts, sc0, CAL, BOB, Committed(), Some(X), CalHears());
    acts := Delivered(acts, sc1, CAL, DAN, BadConfirm(), Some(X), CalCommits());
    acts := Delivered(acts, sc2, CAL, AMY, VotesToCommit(), Some(X), CalWaits(0, 0));
    FewerFacts(acts, Then(sc2, CAL, CalWaits(0, 0)), CalDone(0, 0));
  }

  lemma CalWaitsInRun(acts: seq<Act>, a: nat, b: nat) returns (acts1: seq<Act>, acts2: seq<Act>)
    requires Reaches(acts, CalDone(a, b)) && b < 3
    ensures Reaches(acts1, CalDone(a + 1, b))
    ensures b < 2 ==> Reaches(acts2, CalDone(a, b + 1))
  {
    CalWaitsOn(a, b);
    hide Reaches, Handle, Advertise, VotesToCommit, Committed, AmyVotes, BobCommits;
    acts1 := Delivered(acts, CalDone(a, b), CAL, AMY, VotesToCommit(), Some(Y), CalWaits(a + 1, b));
    FewerFacts(acts1, Then(CalDone(a, b), CAL, CalWaits(a + 1, b)), CalDone(a + 1, b));
    acts2 := acts1;
    if b < 2 {
      CalWaitsForBob(a, b);
      acts2 := Delivered(acts, CalDone(a, b), CAL, BOB, Committed(), Some(Y), CalWaits(a, b + 1));
      FewerFacts(acts2, Then(CalDone(a, b), CAL, CalWaits(a, b + 1)), CalDone(a, b + 1));
    }
  }

  /** cal has given up on X. */
  ghost function CalGone(): Scene {
    Then(CalDone(3, 2), CAL, CalStrays())
  }

  lemma CalStraysInRun() returns (acts: seq<Act>)
    ensures Reaches(acts, CalGone())
  {
    CalGivesUp();
    acts := CalReadyInRun();
    hide Handle, Advertise, Then, AmyVotes, CalStrays, Reaches;
    acts := Delivered(acts, CalDone(3, 2), CAL, BOB, Committed(), Some(Y), CalStrays());
  }

  /** Two correct nodes of four can end up claiming different values, with one faulty
      member and every call made as the program makes it. */
  lemma CorrectNodesCanDisagree() returns (acts: seq<Act>)
    ensures Tolerates(SLICE, {AMY, BOB, CAL}) && Valid(Start(SLICE, {AMY, BOB, CAL}), acts, 1)
    ensures var net := After(Start(SLICE, {AMY, BOB, CAL}), acts, 1);
      && !Agreed(net)
      && BOB in net && CAL in net
      && net[BOB].s.phase == Confirm && net[BOB].s.b == Some(Ballot(1, X))
      && net[CAL].s.phase == Confirm && net[CAL].s.b == Some(Ballot(2, Y))
  {
    OneFaultIsTolerated();
    var final := CalGone();
    assert (BOB, X) in final.claimed && (CAL, Y) in final.claimed;
    assert final.bob.phase == Confirm && final.bob.b == Some(Ballot(1, X)) && final.cal == CalStrays();
    assert CalStrays().phase == Confirm && CalStrays().b == Some(Ballot(2, Y));
    acts := CalStraysInRun();
    hide Handle, Advertise, CalGone, Tolerates, AmyVotes, CalStrays;
    var net := After(Start(SLICE, {AMY, BOB, CAL}), acts, 1);
    assert Shows(net, final);
    assert X in Pasts(net)[BOB].claims && Y in Pasts(net)[CAL].claims;
  }

  /** A Confirm message can change without comparing as newer: cal's does when it gives up
      on X, after a run within the fault bound. */
  lemma ConfirmMessageCanChangeUnnoticed() returns (acts: seq<Act>)
    ensures Valid(Start(SLICE, {AMY, BOB, CAL}), acts, 1)
    ensures var net := After(Start(SLICE, {AMY, BOB, CAL}), acts, 1);
      && CAL in net && net[CAL].s.b.Some? && net[CAL].s.phase == Confirm
      && var s := Handle(net[CAL].s, BOB, Committed(), Some(Y), 1);
         && s.settled && s.s.b.Some? && BOB in net && Committed() in net[BOB].sent
         && Advertise(s.s, 1) != Advertise(net[CAL].s, 1) && Compare(Advertise(net[CAL].s, 1), Advertise(s.s, 1)) == 0
  {
    acts := CalReadyInRun();
    CalGivesUp();
    assert (BOB, Committed()) in CalDone(3, 2).said && CalDone(3, 2).cal == CalWaits(3, 2);
    assert Advertise(CalWaits(3, 2), 1) == ConfirmMessage(1, X, 1, 0, 1, SLICE);
    assert Advertise(CalStrays(), 1) == ConfirmMessage(1, Y, 1, 0, 1, SLICE);
    hide Handle, CalDone;
    assert Shows(After(Start(SLICE, {AMY, BOB, CAL}), acts, 1), CalDone(3, 2));
  }

  lemma CalReadyInRun() returns (acts: seq<Act>)
    ensures Reaches(acts, CalDone(3, 2))
  {
    hide Reaches, CalDone;
    acts := CalCommitsInRun();
    var spare;
    acts, spare := CalWaitsInRun(acts, 0, 0);
    acts, spare := CalWaitsInRun(acts, 1, 0);
    acts, spare := CalWaitsInRun(acts, 2, 0);
    spare, acts := CalWaitsInRun(acts, 3, 0);
    spare, acts := CalWaitsInRun(acts, 3, 1);
  }
}
