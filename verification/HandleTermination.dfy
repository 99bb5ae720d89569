/** The loop of `Handle` ends when the peers past the Prepare phase do not block us. */
module HandleTermination {
  import opened Quorum
  import opened BallotMessages
  import opened Balloting
  import opened Investigation

  /** The peers whose latest message is past the Prepare phase. */
  function LateSenders(m: map<Node, Message>): set<Node> {
    set k | k in m && !m[k].PrepareMessage?
  }

  /** The highest ballot that a Prepare message in `m` votes for. */
  ghost function HighestVote(m: map<Node, Message>): (n: nat)
    ensures forall k :: k in m && m[k].PrepareMessage? ==> m[k].bn <= n
    ensures n > 0 ==> exists k :: k in m && m[k].PrepareMessage? && m[k].bn == n
  {
    if m == map[] then 0
    else
      var k :| k in m;
      var rest := HighestVote(m - {k});
      assert forall j :: j in m && j != k ==> m[j] == (m - {k})[j];
      if m[k].PrepareMessage? && m[k].bn > rest then m[k].bn else rest
  }

  /** Peers and slice are the same, and a ballot in hand is still in hand. */
  ghost predicate Steady(s: State, s': State) {
    s'.us == s.us && s'.d == s.d && s'.m == s.m && (s.b.Some? ==> s'.b == s.b)
  }

  lemma CommitDoesNotReplace(s: State, n: nat, x: SlotValue)
    requires !Blocks(s.d, LateSenders(s.m)) && s.us !in s.m
    ensures Steady(s, MaybeAcceptAsCommitted(s, n, x))
  {
    var s' := MaybeAcceptAsCommitted(s, n, x);
    if s' != s {
      if MeetsQuorumHere(s, CommitVoters(s, n, x)) {
        assert s.us in CommitVoters(s, n, x);
      } else {
        assert CommittedBy(s, n, x) <= LateSenders(s.m);
        HitsMonotone(s.d.members, CommittedBy(s, n, x), LateSenders(s.m));
      }
    }
  }

  lemma OtherStepsAreSteady(s: State, n: nat, x: SlotValue)
    ensures Steady(s, MaybeAcceptAsPrepared(s, n, x))
    ensures Steady(s, MaybeConfirmAsPrepared(s, n, x))
    ensures Steady(s, MaybeConfirmAsCommitted(s, n, x))
  {
    hide HasQuorum, Blocks, AcceptedAbort, GteCompat, GteIncompat;
  }

  lemma InvestigateBallotIsSteady(s: State, n: nat, x: SlotValue)
    requires !Blocks(s.d, LateSenders(s.m)) && s.us !in s.m
    ensures Steady(s, InvestigateBallot(s, n, x))
  {
    var s1 := MaybeAcceptAsPrepared(s, n, x);
    var s2 := MaybeConfirmAsPrepared(s1, n, x);
    var s3 := MaybeAcceptAsCommitted(s2, n, x);
    OtherStepsAreSteady(s, n, x);
    OtherStepsAreSteady(s1, n, x);
    CommitDoesNotReplace(s2, n, x);
    OtherStepsAreSteady(s3, n, x);
    SteadyChain(s, s1, s2, s3, MaybeConfirmAsCommitted(s3, n, x));
  }

  lemma SteadyChain(s: State, s1: State, s2: State, s3: State, s4: State)
    requires Steady(s, s1) && Steady(s1, s2) && Steady(s2, s3) && Steady(s3, s4)
    ensures Steady(s, s4)
  {
  }

  lemma {:induction false} InvestigateBallotsIsSteady(s: State, lo: nat, hi: nat, x: SlotValue)
    requires !Blocks(s.d, LateSenders(s.m)) && s.us !in s.m
    ensures Steady(s, InvestigateBallots(s, lo, hi, x))
    decreases hi + 1 - lo
  {
    if lo <= hi {
      InvestigateBallotIsSteady(s, lo, x);
      InvestigateBallotsIsSteady(InvestigateBallot(s, lo, x), lo + 1, hi, x);
    }
  }

  lemma InvestigateValueIsSteady(s: State, x: SlotValue)
    requires !Blocks(s.d, LateSenders(s.m)) && s.us !in s.m
    ensures Steady(s, InvestigateValue(s, x))
  {
    var r := Span(s.m, x);
    var hi := Min(r.max, MaxActionable(s.d, s.m));
    var s' := InvestigateBallots(s, r.min, hi, x);
    InvestigateBallotsIsSteady(s, r.min, hi, x);
    if s'.b.Some? {
      InvestigateBallotIsSteady(s', s'.b.value.n, x);
    }
  }

  lemma {:induction false} InvestigateValuesIsSteady(s: State, values: seq<SlotValue>, done: set<SlotValue>)
    requires !Blocks(s.d, LateSenders(s.m)) && s.us !in s.m
    ensures Steady(s, InvestigateValues(s, values, done))
    decreases |values|
  {
    if values != [] {
      if values[0] in done {
        InvestigateValuesIsSteady(s, values[1..], done);
      } else {
        InvestigateValueIsSteady(s, values[0]);
        InvestigateValuesIsSteady(InvestigateValue(s, values[0]), values[1..], done + {values[0]});
      }
    }
  }

  lemma RoundIsSteady(s: State, message: Message)
    requires !Blocks(s.d, LateSenders(s.m)) && s.us !in s.m
    ensures Steady(s, Round(s, message))
  {
    InvestigateValuesIsSteady(s, Topics(message), {});
  }

  /** A blocked ballot is not above every ballot that peers vote for. */
  lemma BlockedBallotIsLow(s: State)
    requires !Blocks(s.d, LateSenders(s.m)) && BallotIsBlocked(s)
    ensures s.b.value.n <= HighestVote(s.m)
  {
    if s.b.value.n > HighestVote(s.m) {
      assert Blockers(s) <= LateSenders(s.m);
      HitsMonotone(s.d.members, Blockers(s), LateSenders(s.m));
    }
  }

  lemma BumpRaises(s: State, prediction: Option<SlotValue>)
    requires WillBump(s, prediction)
    ensures var s' := GoToNextBallot(s, prediction);
      s'.us == s.us && s'.d == s.d && s'.m == s.m && NumberOf(s'.b) == NumberOf(s.b) + 1
  {
  }

  /** The loop settles within one round per ballot number still to pass. */
  lemma {:induction false} SettleTerminates(s: State, message: Message, prediction: Option<SlotValue>, fuel: nat)
    requires !Blocks(s.d, LateSenders(s.m)) && s.us !in s.m
    requires fuel >= 1 && fuel + NumberOf(s.b) >= HighestVote(s.m) + 2
    ensures Settle(s, message, prediction, fuel).settled
    decreases fuel
  {
    hide Round, GoToNextBallot;
    var s' := Round(s, message);
    RoundIsSteady(s, message);
    if WillBump(s', prediction) {
      BlockedBallotIsLow(s');
      BumpRaises(s', prediction);
      SettleTerminates(GoToNextBallot(s', prediction), message, prediction, fuel - 1);
    }
  }

  // ------------------------------------------- outside the Prepare phase: exactly when

  /** The peers past the Prepare phase that are there with another value. */
  function Opponents(m: map<Node, Message>, x: SlotValue): set<Node> {
    set k | k in m && !m[k].PrepareMessage? && m[k].x != x
  }

  /** No commit of a value other than `x` can be accepted because a blocking set did. */
  ghost predicate NoRivalCommit(s: State, x: SlotValue) {
    forall n: nat, y :: n >= 1 && y != x ==> !Blocks(s.d, CommittedBy(s, n, y))
  }

  /** We hold `x` and no message in hand can take us to another value. */
  ghost predicate Locked(s: State, x: SlotValue) {
    && s.b.Some? && s.b.value.x == x
    && (s.phase == Externalize || (s.phase == Confirm && s.us !in s.m && NoRivalCommit(s, x)))
  }

  /** Only the range may have changed, and the phase may have moved on. */
  ghost predicate Keeps(s: State, s': State, x: SlotValue) {
    && Locked(s', x) && (s.phase == Externalize ==> s'.phase == Externalize)
    && s'.us == s.us && s'.d == s.d && s'.m == s.m && s'.b == s.b && s'.z == s.z
  }

  lemma SameRivals(s: State, s': State, x: SlotValue)
    requires s'.d == s.d && s'.m == s.m && NoRivalCommit(s, x)
    ensures NoRivalCommit(s', x)
  {
    hide Blocks;
    assert forall n: nat, y :: CommittedBy(s', n, y) == CommittedBy(s, n, y);
  }

  lemma CommitKeeps(s: State, n: nat, y: SlotValue, x: SlotValue)
    requires Locked(s, x) && n >= 1
    ensures Keeps(s, MaybeAcceptAsCommitted(s, n, y), x)
  {
    var s' := MaybeAcceptAsCommitted(s, n, y);
    if s' != s {
      assert s.us !in CommitVoters(s, n, y);
      assert Blocks(s.d, CommittedBy(s, n, y));
      assert y == x;
      hide Blocks, HasQuorum;
      SameRivals(s, s', x);
    }
  }

  lemma ConfirmKeeps(s: State, n: nat, y: SlotValue, x: SlotValue)
    requires Locked(s, x)
    ensures Keeps(s, MaybeConfirmAsCommitted(s, n, y), x)
  {
    hide Blocks, HasQuorum, NoRivalCommit;
  }

  lemma InvestigateBallotKeeps(s: State, n: nat, y: SlotValue, x: SlotValue)
    requires Locked(s, x)
    ensures Keeps(s, InvestigateBallot(s, n, y), x)
  {
    if n >= 1 {
      CommitKeeps(s, n, y, x);
      ConfirmKeeps(MaybeAcceptAsCommitted(s, n, y), n, y, x);
    }
    hide MaybeAcceptAsCommitted, MaybeConfirmAsCommitted, NoRivalCommit;
  }

  lemma {:induction false} InvestigateBallotsKeeps(s: State, lo: nat, hi: nat, y: SlotValue, x: SlotValue)
    requires Locked(s, x)
    ensures Keeps(s, InvestigateBallots(s, lo, hi, y), x)
    decreases hi + 1 - lo
  {
    hide InvestigateBallot, NoRivalCommit;
    if lo <= hi {
      InvestigateBallotKeeps(s, lo, y, x);
      InvestigateBallotsKeeps(InvestigateBallot(s, lo, y), lo + 1, hi, y, x);
    }
  }

  lemma InvestigateValueKeeps(s: State, y: SlotValue, x: SlotValue)
    requires Locked(s, x)
    ensures Keeps(s, InvestigateValue(s, y), x)
  {
    hide InvestigateBallot, InvestigateBallots, NoRivalCommit;
    var r := Span(s.m, y);
    var hi := Min(r.max, MaxActionable(s.d, s.m));
    var s' := InvestigateBallots(s, r.min, hi, y);
    InvestigateBallotsKeeps(s, r.min, hi, y, x);
    InvestigateBallotKeeps(s', s'.b.value.n, y, x);
  }

  lemma {:induction false} InvestigateValuesKeeps(s: State, values: seq<SlotValue>, done: set<SlotValue>, x: SlotValue)
    requires Locked(s, x)
    ensures Keeps(s, InvestigateValues(s, values, done), x)
    decreases |values|
  {
    hide InvestigateValue, NoRivalCommit;
    if values != [] {
      if values[0] in done {
        InvestigateValuesKeeps(s, values[1..], done, x);
      } else {
        InvestigateValueKeeps(s, values[0], x);
        InvestigateValuesKeeps(InvestigateValue(s, values[0]), values[1..], done + {values[0]}, x);
      }
    }
  }

  lemma RoundKeeps(s: State, message: Message, x: SlotValue)
    requires Locked(s, x)
    ensures Keeps(s, Round(s, message), x)
  {
    InvestigateValuesKeeps(s, Topics(message), {}, x);
  }

  /** Moving on with the value in hand, or after externalizing with any value. */
  lemma BumpKeepsLock(s: State, prediction: Option<SlotValue>, x: SlotValue)
    requires s.b.Some? && Locked(s, s.b.value.x) && NextValue(s, prediction) == Some(x)
    requires s.phase == Externalize || s.b.value.x == x
    ensures var s' := GoToNextBallot(s, prediction);
      && Locked(s', x) && s'.d == s.d && s'.m == s.m && s'.z == s.z && NumberOf(s'.b) == NumberOf(s.b) + 1
  {
    if s.phase == Confirm {
      SameRivals(s, GoToNextBallot(s, prediction), x);
    }
    hide NoRivalCommit;
  }

  lemma OpponentsBlockForever(s: State, x: SlotValue)
    requires s.b.Some? && s.b.value.x == x && Blocks(s.d, Opponents(s.m, x))
    ensures BallotIsBlocked(s)
  {
    assert Opponents(s.m, x) <= Blockers(s);
    HitsMonotone(s.d.members, Opponents(s.m, x), Blockers(s));
  }

  lemma {:induction false} NeverSettles(s: State, message: Message, prediction: Option<SlotValue>, x: SlotValue,
                                        fuel: nat)
    requires Locked(s, x) && NextValue(s, prediction) == Some(x) && Blocks(s.d, Opponents(s.m, x))
    ensures !Settle(s, message, prediction, fuel).settled
    decreases fuel
  {
    hide Round, GoToNextBallot, Blocks, NoRivalCommit;
    if fuel > 0 {
      var s' := Round(s, message);
      RoundKeeps(s, message, x);
      OpponentsBlockForever(s', x);
      BumpKeepsLock(s', prediction, x);
      NeverSettles(GoToNextBallot(s', prediction), message, prediction, x, fuel - 1);
    }
  }

  lemma HighBallotIsOpposed(s: State, x: SlotValue)
    requires s.b.Some? && s.b.value.x == x && s.b.value.n > HighestVote(s.m) && !Blocks(s.d, Opponents(s.m, x))
    ensures !BallotIsBlocked(s)
  {
    assert Blockers(s) <= Opponents(s.m, x);
    HitsMonotone(s.d.members, Blockers(s), Opponents(s.m, x));
  }

  lemma {:induction false} LockedSettles(s: State, message: Message, prediction: Option<SlotValue>, x: SlotValue,
                                         fuel: nat)
    requires Locked(s, x) && NextValue(s, prediction) == Some(x) && !Blocks(s.d, Opponents(s.m, x))
    requires fuel >= 1 && fuel + NumberOf(s.b) >= HighestVote(s.m) + 2
    ensures Settle(s, message, prediction, fuel).settled
    decreases fuel
  {
    hide Round, GoToNextBallot, Blocks, NoRivalCommit;
    RoundKeeps(s, message, x);
    var s' := Round(s, message);
    if WillBump(s', prediction) {
      if s'.b.value.n > HighestVote(s.m) {
        HighBallotIsOpposed(s', x);
      }
      BumpKeepsLock(s', prediction, x);
      LockedSettles(GoToNextBallot(s', prediction), message, prediction, x, fuel - 1);
    }
  }

  /** The loop ends for some number of rounds. */
  ghost predicate Settles(s: State, message: Message, prediction: Option<SlotValue>) {
    exists fuel: nat :: Settle(s, message, prediction, fuel).settled
  }

  lemma {:induction false} SettlesAfterBump(s: State, message: Message, prediction: Option<SlotValue>)
    requires WillBump(Round(s, message), prediction)
    ensures var s' := GoToNextBallot(Round(s, message), prediction);
      Settles(s, message, prediction) <==> Settles(s', message, prediction)
  {
    hide Round, GoToNextBallot, WillBump;
    var s2 := GoToNextBallot(Round(s, message), prediction);
    if fuel: nat :| Settle(s, message, prediction, fuel).settled {
      assert Settle(s2, message, prediction, fuel - 1).settled;
    }
    if fuel: nat :| Settle(s2, message, prediction, fuel).settled {
      assert Settle(s, message, prediction, fuel + 1).settled;
    }
  }

  lemma SettlesAtOnce(s: State, message: Message, prediction: Option<SlotValue>)
    requires !WillBump(Round(s, message), prediction)
    ensures Settles(s, message, prediction)
  {
    hide Round, GoToNextBallot, WillBump;
    assert Settle(s, message, prediction, 1).settled;
  }

  /** With the value we would move on with settled, the loop ends exactly when its
      opponents do not block us. */
  lemma LockedSettlesIff(s: State, message: Message, prediction: Option<SlotValue>, x: SlotValue)
    requires Locked(s, x) && NextValue(s, prediction) == Some(x)
    ensures Settles(s, message, prediction) <==> !Blocks(s.d, Opponents(s.m, x))
  {
    hide Settle, Blocks, Locked;
    if Blocks(s.d, Opponents(s.m, x)) {
      forall fuel: nat ensures !Settle(s, message, prediction, fuel).settled {
        NeverSettles(s, message, prediction, x, fuel);
      }
    } else {
      LockedSettles(s, message, prediction, x, HighestVote(s.m) + 2);
    }
  }

  /** Our ballot is blocked, and so would every later one be. */
  ghost predicate Hopeless(s: State, prediction: Option<SlotValue>) {
    WillBump(s, prediction) && Blocks(s.d, Opponents(s.m, NextValue(s, prediction).value))
  }

  /** Once a value is externalized, the loop ends exactly when it does not have to move on,
      or the peers past the Prepare phase with another value than it moves on with do not
      block us. */
  lemma ExternalizedSettlesIff(s: State, message: Message, prediction: Option<SlotValue>)
    requires s.phase == Externalize && s.b.Some?
    ensures Settles(s, message, prediction) <==> !Hopeless(s, prediction)
  {
    var s' := Round(s, message);
    RoundKeeps(s, message, s.b.value.x);
    assert WillBump(s', prediction) <==> WillBump(s, prediction);
    hide Round, GoToNextBallot, Blocks, Settles;
    if !WillBump(s', prediction) {
      SettlesAtOnce(s, message, prediction);
    } else {
      var x := NextValue(s, prediction).value;
      BumpKeepsLock(s', prediction, x);
      SettlesAfterBump(s, message, prediction);
      LockedSettlesIff(GoToNextBallot(s', prediction), message, prediction, x);
    }
  }

  /** In the Confirm phase the same holds if z, or else the prediction, keeps our value and
      no commit of another value can be accepted. */
  lemma ConfirmedSettlesIff(s: State, message: Message, prediction: Option<SlotValue>)
    requires s.phase == Confirm && s.b.Some? && s.us !in s.m && NoRivalCommit(s, s.b.value.x)
    requires NextValue(s, prediction).Some? ==> NextValue(s, prediction).value == s.b.value.x
    ensures Settles(s, message, prediction) <==> !Hopeless(s, prediction)
  {
    var x := s.b.value.x;
    RoundKeeps(s, message, x);
    hide Round, GoToNextBallot, Blocks, Settles, NoRivalCommit;
    if NextValue(s, prediction).None? {
      SettlesAtOnce(s, message, prediction);
    } else {
      LockedSettlesIff(s, message, prediction, x);
      if Blocks(s.d, Opponents(s.m, x)) {
        OpponentsBlockForever(s, x);
      }
    }
  }

  // ------------------------------------- when nothing can be accepted: exactly when

  /** We and the peers that would support preparing (n,x). */
  function PrepareSupport(s: State, n: nat, x: SlotValue): set<Node> {
    {s.us} + (set k | k in s.m && (AcceptsPrepared(s.m[k], n, x) || VotesPrepare(s.m[k], n, x)))
  }

  /** We and the peers that would support committing (n,x). */
  function CommitSupport(s: State, n: nat, x: SlotValue): set<Node> {
    {s.us} + (set k | k in s.m && (AcceptsCommitted(s.m[k], n, x) || VotesCommit(s.m[k], n, x)))
  }

  /** Whatever we vote for, the messages in hand let nothing about (n,x) be accepted. */
  ghost predicate QuietAbout(s: State, n: nat, x: SlotValue) {
    && !Blocks(s.d, PreparedBy(s, n, x)) && !MeetsQuorumHere(s, PrepareSupport(s, n, x))
    && !Blocks(s.d, CommittedBy(s, n, x)) && !MeetsQuorumHere(s, CommitSupport(s, n, x))
  }

  ghost predicate Quiet(s: State) {
    s.us !in s.m && forall n: nat, x :: n >= 1 ==> QuietAbout(s, n, x)
  }

  lemma FewerMeetNoQuorum(s: State, a: set<Node>, b: set<Node>)
    requires a <= b && !MeetsQuorumHere(s, b)
    ensures !MeetsQuorumHere(s, a)
  {
  }

  lemma QuietIsIdle(s: State, n: nat, x: SlotValue)
    requires n >= 1 && QuietAbout(s, n, x)
    ensures InvestigateBallot(s, n, x) == s
  {
    FewerMeetNoQuorum(s, PrepareVoters(s, n, x), PrepareSupport(s, n, x));
    FewerMeetNoQuorum(s, PrepareAccepters(s, n, x), PrepareSupport(s, n, x));
    FewerMeetNoQuorum(s, CommitVoters(s, n, x), CommitSupport(s, n, x));
    FewerMeetNoQuorum(s, CommitAccepters(s, n, x), CommitSupport(s, n, x));
    assert !MayAcceptPrepared(s, n, x) && !MayConfirmPrepared(s, n, x);
    assert !MayAcceptCommitted(s, n, x) && !MayConfirmCommitted(s, n, x);
    hide MayAcceptPrepared, MayConfirmPrepared, MayAcceptCommitted, MayConfirmCommitted, QuietAbout;
  }

  lemma InvestigateBallotIsIdle(s: State, n: nat, x: SlotValue)
    requires Quiet(s)
    ensures InvestigateBallot(s, n, x) == s
  {
    if n >= 1 {
      QuietIsIdle(s, n, x);
    }
    hide QuietAbout;
  }

  lemma {:induction false} InvestigateBallotsIsIdle(s: State, lo: nat, hi: nat, x: SlotValue)
    requires Quiet(s)
    ensures InvestigateBallots(s, lo, hi, x) == s
    decreases hi + 1 - lo
  {
    hide Quiet, InvestigateBallot;
    if lo <= hi {
      InvestigateBallotIsIdle(s, lo, x);
      InvestigateBallotsIsIdle(s, lo + 1, hi, x);
    }
  }

  lemma InvestigateValueIsIdle(s: State, x: SlotValue)
    requires Quiet(s)
    ensures InvestigateValue(s, x) == s
  {
    hide Quiet, InvestigateBallot, InvestigateBallots;
    var r := Span(s.m, x);
    InvestigateBallotsIsIdle(s, r.min, Min(r.max, MaxActionable(s.d, s.m)), x);
    if s.b.Some? {
      InvestigateBallotIsIdle(s, s.b.value.n, x);
    }
  }

  lemma {:induction false} InvestigateValuesIsIdle(s: State, values: seq<SlotValue>, done: set<SlotValue>)
    requires Quiet(s)
    ensures InvestigateValues(s, values, done) == s
    decreases |values|
  {
    hide Quiet, InvestigateValue;
    if values != [] {
      if values[0] in done {
        InvestigateValuesIsIdle(s, values[1..], done);
      } else {
        InvestigateValueIsIdle(s, values[0]);
        InvestigateValuesIsIdle(s, values[1..], done + {values[0]});
      }
    }
  }

  lemma QuietRound(s: State, message: Message)
    requires Quiet(s)
    ensures Round(s, message) == s
  {
    InvestigateValuesIsIdle(s, Topics(message), {});
  }

  /** Quiet depends on the messages alone. */
  lemma BumpStaysQuiet(s: State, prediction: Option<SlotValue>)
    requires Quiet(s)
    ensures Quiet(GoToNextBallot(s, prediction))
  {
    hide Blocks, HasQuorum;
    var s' := GoToNextBallot(s, prediction);
    assert Slices(s') == Slices(s);
    forall n: nat, x | n >= 1 ensures QuietAbout(s', n, x) {
      assert QuietAbout(s, n, x);
      assert PreparedBy(s', n, x) == PreparedBy(s, n, x) && CommittedBy(s', n, x) == CommittedBy(s, n, x);
      assert PrepareSupport(s', n, x) == PrepareSupport(s, n, x) && CommitSupport(s', n, x) == CommitSupport(s, n, x);
    }
  }

  /** Quiet, and holding the value we would move on with. */
  ghost predicate QuietWith(s: State, prediction: Option<SlotValue>, x: SlotValue) {
    Quiet(s) && s.b.Some? && s.b.value.x == x && NextValue(s, prediction) == Some(x)
  }

  lemma QuietBump(s: State, prediction: Option<SlotValue>, x: SlotValue)
    requires Quiet(s) && s.b.Some? && NextValue(s, prediction) == Some(x)
    ensures var s' := GoToNextBallot(s, prediction);
      QuietWith(s', prediction, x) && s'.d == s.d && s'.m == s.m && NumberOf(s'.b) == NumberOf(s.b) + 1
  {
    BumpStaysQuiet(s, prediction);
    hide Quiet;
  }

  lemma {:induction false} QuietNeverSettles(s: State, message: Message, prediction: Option<SlotValue>, x: SlotValue,
                                             fuel: nat)
    requires QuietWith(s, prediction, x) && Blocks(s.d, Opponents(s.m, x))
    ensures !Settle(s, message, prediction, fuel).settled
    decreases fuel
  {
    hide Round, GoToNextBallot, Blocks, Quiet;
    if fuel > 0 {
      QuietRound(s, message);
      OpponentsBlockForever(s, x);
      QuietBump(s, prediction, x);
      QuietNeverSettles(GoToNextBallot(s, prediction), message, prediction, x, fuel - 1);
    }
  }

  lemma {:induction false} QuietSettles(s: State, message: Message, prediction: Option<SlotValue>, x: SlotValue,
                                        fuel: nat)
    requires QuietWith(s, prediction, x) && !Blocks(s.d, Opponents(s.m, x))
    requires fuel >= 1 && fuel + NumberOf(s.b) >= HighestVote(s.m) + 2
    ensures Settle(s, message, prediction, fuel).settled
    decreases fuel
  {
    hide Round, GoToNextBallot, Blocks, Quiet;
    QuietRound(s, message);
    if WillBump(s, prediction) {
      if s.b.value.n > HighestVote(s.m) {
        HighBallotIsOpposed(s, x);
      }
      QuietBump(s, prediction, x);
      QuietSettles(GoToNextBallot(s, prediction), message, prediction, x, fuel - 1);
    }
  }

  /** In every phase, while the messages in hand let nothing be accepted or confirmed, the
      loop ends exactly when it does not have to move on, or the peers past the Prepare phase
      with another value than it moves on with do not block us. */
  lemma QuietSettlesIff(s: State, message: Message, prediction: Option<SlotValue>)
    requires Quiet(s)
    ensures Settles(s, message, prediction) <==> !Hopeless(s, prediction)
  {
    QuietRound(s, message);
    hide Round, GoToNextBallot, Blocks, Settle, Quiet;
    if !WillBump(s, prediction) {
      SettlesAtOnce(s, message, prediction);
    } else {
      var x := NextValue(s, prediction).value;
      var s' := GoToNextBallot(s, prediction);
      QuietBump(s, prediction, x);
      SettlesAfterBump(s, message, prediction);
      if Blocks(s.d, Opponents(s.m, x)) {
        forall fuel: nat ensures !Settle(s', message, prediction, fuel).settled {
          QuietNeverSettles(s', message, prediction, x, fuel);
        }
      } else {
        QuietSettles(s', message, prediction, x, HighestVote(s.m) + 2);
      }
    }
  }
}
