/** Investigating finds what there is to find: what the messages in hand let a node accept
    as prepared, confirm, commit and externalize (consensus/ballot_state.go). */
module Progress {
  import opened Quorum
  import opened BallotMessages
  import opened Balloting
  import opened BallotHistory
  import opened Investigation

  // ------------------------------------------------------------- the supporters

  /** The peers whose latest message is Confirm or Externalize of `x` and covers `n`. */
  function Committers(s: State, n: nat, x: SlotValue): set<Node> {
    set k | k in s.m &&
      ( || (s.m[k].ConfirmMessage? && s.m[k].x == x && s.m[k].cn <= n <= s.m[k].hn)
        || (s.m[k].ExternalizeMessage? && s.m[k].x == x && s.m[k].cn <= n))
  }

  /** The peers whose latest message has accepted (n,x) as prepared. */
  function Preparers(s: State, n: nat, x: SlotValue): set<Node> {
    set k | k in s.m && AcceptsPrepared(s.m[k], n, x)
  }

  /** The peers whose latest message has accepted (n,x) as prepared or votes for it, and us
      if our ballot does. */
  function Supporters(s: State, n: nat, x: SlotValue): set<Node> {
    (set k | k in s.m && (AcceptsPrepared(s.m[k], n, x) || VotesPrepare(s.m[k], n, x))) +
    (if s.b.Some? && s.b.value.x == x && s.b.value.n >= n then {s.us} else {})
  }

  // -------------------------------------------------------------- one ballot

  /** A step about preparing leaves peers and phase alone, and a ballot in hand. */
  ghost predicate Mild(s: State, s': State) {
    && s'.us == s.us && s'.d == s.d && s'.m == s.m && s'.phase == s.phase && s'.cn <= s'.hn
    && (s.phase != Prepare ==> s' == s) && (s.b.Some? ==> s'.b == s.b)
  }

  lemma AcceptingIsMild(s: State, n: nat, x: SlotValue)
    requires s.cn <= s.hn
    ensures Mild(s, MaybeAcceptAsPrepared(s, n, x))
  {
    hide MayAcceptPrepared, AcceptedAbort, PreparedIsOld;
  }

  lemma ConfirmingIsMild(s: State, n: nat, x: SlotValue)
    requires s.cn <= s.hn
    ensures Mild(s, MaybeConfirmAsPrepared(s, n, x))
  {
    hide MayConfirmPrepared, GteIncompat;
  }

  lemma EarlyStepsAreMild(s: State, n: nat, x: SlotValue)
    requires s.cn <= s.hn
    ensures Mild(s, MaybeConfirmAsPrepared(MaybeAcceptAsPrepared(s, n, x), n, x))
  {
    hide MaybeAcceptAsPrepared, MaybeConfirmAsPrepared;
    AcceptingIsMild(s, n, x);
    ConfirmingIsMild(MaybeAcceptAsPrepared(s, n, x), n, x);
  }

  /** (n,x) has been accepted as prepared, or two conflicting ballots at n or above have. */
  ghost predicate AcceptedOrBeyond(s: State, n: nat, x: SlotValue) {
    GteCompat(s.p, Ballot(n, x)) || GteCompat(s.pPrime, Ballot(n, x)) || (s.pPrime.Some? && s.pPrime.value.n >= n)
  }

  /** A node in the Prepare phase accepts as prepared what a quorum supports or a blocking
      set has accepted. */
  lemma BallotIsAccepted(s: State, n: nat, x: SlotValue)
    requires s.phase == Prepare && n >= 1
    requires HasQuorum(Slices(s), s.us, Supporters(s, n, x)) || Blocks(s.d, Preparers(s, n, x))
    ensures var s' := InvestigateBallot(s, n, x); s'.phase != Prepare || AcceptedOrBeyond(s', n, x)
  {
    assert Supporters(s, n, x) == PrepareVoters(s, n, x) && Preparers(s, n, x) == PreparedBy(s, n, x);
    hide HasQuorum, Blocks;
    assert MayAcceptPrepared(s, n, x);
    AcceptanceShows(s, n, x);
    LaterStepsKeepPair(MaybeAcceptAsPrepared(s, n, x), n, x);
    hide MayAcceptPrepared, MaybeAcceptAsPrepared, MaybeConfirmAsPrepared, MaybeAcceptAsCommitted;
    hide MaybeConfirmAsCommitted;
  }

  lemma AcceptanceShows(s: State, n: nat, x: SlotValue)
    requires s.phase == Prepare && n >= 1 && MayAcceptPrepared(s, n, x)
    ensures AcceptedOrBeyond(MaybeAcceptAsPrepared(s, n, x), n, x)
  {
    hide MayAcceptPrepared, AcceptedAbort;
  }

  /** Only accepting as prepared changes p and p'. */
  lemma OtherStepsKeepPair(s: State, n: nat, x: SlotValue)
    ensures MaybeConfirmAsPrepared(s, n, x).p == s.p && MaybeConfirmAsPrepared(s, n, x).pPrime == s.pPrime
    ensures MaybeAcceptAsCommitted(s, n, x).p == s.p && MaybeAcceptAsCommitted(s, n, x).pPrime == s.pPrime
    ensures MaybeConfirmAsCommitted(s, n, x).p == s.p && MaybeConfirmAsCommitted(s, n, x).pPrime == s.pPrime
  {
    hide MayConfirmPrepared, MayAcceptCommitted, MayConfirmCommitted, GteIncompat;
  }

  lemma LaterStepsKeepPair(s: State, n: nat, x: SlotValue)
    ensures var s' := MaybeConfirmAsCommitted(MaybeAcceptAsCommitted(MaybeConfirmAsPrepared(s, n, x), n, x), n, x);
      s'.p == s.p && s'.pPrime == s.pPrime
  {
    hide MaybeConfirmAsPrepared, MaybeAcceptAsCommitted, MaybeConfirmAsCommitted;
    OtherStepsKeepPair(s, n, x);
    OtherStepsKeepPair(MaybeConfirmAsPrepared(s, n, x), n, x);
    OtherStepsKeepPair(MaybeAcceptAsCommitted(MaybeConfirmAsPrepared(s, n, x), n, x), n, x);
  }

  /** It confirms as prepared what a quorum of acceptances with its own supports. */
  lemma PreparedIsConfirmed(s: State, n: nat, x: SlotValue)
    requires s.phase == Prepare && n > s.hn && (GteCompat(s.p, Ballot(n, x)) || GteCompat(s.pPrime, Ballot(n, x)))
    requires HasQuorum(Slices(s), s.us, Preparers(s, n, x) + {s.us})
    ensures var s' := InvestigateBallot(s, n, x); s'.phase != Prepare || (s'.hn == n && s'.z == Some(x))
  {
    assert s == MaybeAcceptAsPrepared(s, n, x);
    assert PrepareAccepters(s, n, x) == Preparers(s, n, x) + {s.us};
    assert MayConfirmPrepared(s, n, x);
    hide MayConfirmPrepared, MayAcceptCommitted, MayConfirmCommitted, MaybeAcceptAsPrepared, GteIncompat;
  }

  /** We are not past the Prepare phase with a value other than `x`. */
  ghost predicate OpenFor(s: State, x: SlotValue) {
    s.phase == Prepare || (s.b.Some? && s.b.value.x == x)
  }

  /** A node in Confirm externalizes a number of its range as soon as a quorum around it
      covers that number. */
  lemma CoveredNumberIsExternalized(s: State, n: nat, x: SlotValue)
    requires s.phase == Confirm && s.b.Some? && s.b.value.x == x && s.cn <= n <= s.hn && n >= 1
    requires HasQuorum(Slices(s), s.us, Committers(s, n, x) + {s.us})
    ensures var s' := InvestigateBallot(s, n, x);
      s'.phase == Externalize && s'.cn == s'.hn == n && s'.b == s.b
  {
    assert CommitAccepters(s, n, x) == Committers(s, n, x) + {s.us};
  }

  /** A node that has externalized widens its range to every number that a quorum around it
      covers. */
  lemma ExternalizedRangeGrows(s: State, n: nat, x: SlotValue)
    requires s.phase == Externalize && s.b.Some? && s.b.value.x == x && n >= 1
    requires HasQuorum(Slices(s), s.us, Committers(s, n, x))
    ensures var s' := InvestigateBallot(s, n, x);
      s'.phase == Externalize && s'.b == s.b && s'.cn <= n <= s'.hn && s'.cn <= s.cn && s.hn <= s'.hn
  {
    assert CommitAccepters(s, n, x) == Committers(s, n, x);
  }

  /** The peers whose latest message votes to commit (n,x) or has committed it. */
  function CommitSupporters(s: State, n: nat, x: SlotValue): set<Node> {
    Committers(s, n, x) + set k | k in s.m && VotesCommit(s.m[k], n, x)
  }

  lemma ConfirmStepCovers(s: State, n: nat, x: SlotValue)
    requires s.phase != Prepare && s.b.Some? && s.b.value.x == x && (s.phase == Confirm ==> s.cn <= n <= s.hn)
    ensures var s' := MaybeConfirmAsCommitted(s, n, x);
      s'.phase != Prepare && s'.b == s.b && (s'.phase == Confirm ==> s'.cn <= n <= s'.hn)
  {
    hide MayConfirmCommitted;
  }

  lemma VoteIsKept(s: State, h: History, n: nat, x: SlotValue)
    requires Inv(s, h) && s.phase == Prepare && s.b.Some? && s.b.value.x == x && s.cn != 0 && s.cn <= n <= s.hn
    ensures var s' := MaybeAcceptAsPrepared(s, n, x);
      && s'.us == s.us && s'.d == s.d && s'.m == s.m && s'.phase == Prepare && s'.b == s.b
      && s'.cn == s.cn && s'.hn == s.hn && s'.z == Some(x)
  {
    hide MayAcceptPrepared, PreparedIsOld, VotesAreSound, Summarizes;
  }

  lemma VoteSurvives(s: State, h: History, n: nat, x: SlotValue)
    requires Inv(s, h) && s.phase == Prepare && s.b.Some? && s.b.value.x == x && s.cn != 0 && s.cn <= n <= s.hn
    ensures var s' := MaybeConfirmAsPrepared(MaybeAcceptAsPrepared(s, n, x), n, x);
      && s'.us == s.us && s'.d == s.d && s'.m == s.m && s'.phase == Prepare && s'.b == s.b
      && s'.cn == s.cn && s'.hn == s.hn
  {
    VoteIsKept(s, h, n, x);
    hide Inv, MaybeAcceptAsPrepared, MayConfirmPrepared;
  }

  lemma VoteIsJoined(s: State, n: nat, x: SlotValue)
    requires s.phase == Prepare && s.b.Some? && s.b.value.x == x && s.cn != 0 && s.cn <= n <= s.hn
    requires HasQuorum(Slices(s), s.us, CommitSupporters(s, n, x) + {s.us})
    ensures var s' := MaybeAcceptAsCommitted(s, n, x);
      s'.phase == Confirm && s'.b == s.b && s'.cn == s.cn && s'.hn == s.hn
  {
    assert CommitVoters(s, n, x) == CommitSupporters(s, n, x) + {s.us};
  }

  /** A node that votes to commit a number accepts the commit as soon as a quorum around it
      supports it. */
  lemma VotedCommitIsAccepted(s: State, h: History, n: nat, x: SlotValue)
    requires Inv(s, h) && s.phase == Prepare && s.b.Some? && s.b.value.x == x && s.cn != 0 && s.cn <= n <= s.hn
    requires HasQuorum(Slices(s), s.us, CommitSupporters(s, n, x) + {s.us})
    ensures var s' := InvestigateBallot(s, n, x);
      s'.phase != Prepare && s'.b == s.b && (s'.phase == Confirm ==> s'.cn <= n <= s'.hn)
  {
    var s2 := MaybeConfirmAsPrepared(MaybeAcceptAsPrepared(s, n, x), n, x);
    VoteSurvives(s, h, n, x);
    assert CommitSupporters(s2, n, x) == CommitSupporters(s, n, x) && Slices(s2) == Slices(s);
    hide MaybeAcceptAsPrepared, MaybeConfirmAsPrepared, MaybeAcceptAsCommitted, MaybeConfirmAsCommitted, Inv;
    hide HasQuorum, CommitSupporters, Slices;
    VoteIsJoined(s2, n, x);
    ConfirmStepCovers(MaybeAcceptAsCommitted(s2, n, x), n, x);
  }

  lemma CommitStepCovers(s: State, n: nat, x: SlotValue)
    requires OpenFor(s, x) && s.cn <= s.hn && Blocks(s.d, Committers(s, n, x))
    ensures var s' := MaybeAcceptAsCommitted(s, n, x);
      && s'.us == s.us && s'.d == s.d && s'.m == s.m && s'.phase != Prepare && s'.b.Some? && s'.b.value.x == x
      && (s'.phase == Confirm ==> s'.cn <= n <= s'.hn)
  {
    assert Committers(s, n, x) == CommittedBy(s, n, x);
    assert MayAcceptCommitted(s, n, x);
    hide MayAcceptCommitted, Blocks;
  }

  lemma SameCommitted(s: State, s2: State, n: nat, x: SlotValue)
    requires OpenFor(s, x) && Mild(s, s2)
    ensures OpenFor(s2, x) && Committers(s2, n, x) == Committers(s, n, x)
  {
  }

  /** A node accepts a commit that a blocking set has accepted. */
  lemma CommitIsAccepted(s: State, n: nat, x: SlotValue)
    requires OpenFor(s, x) && n >= 1 && s.cn <= s.hn && Blocks(s.d, Committers(s, n, x))
    ensures var s' := InvestigateBallot(s, n, x);
      s'.phase != Prepare && s'.b.Some? && s'.b.value.x == x && (s'.phase == Confirm ==> s'.cn <= n <= s'.hn)
  {
    hide MaybeAcceptAsPrepared, MaybeConfirmAsPrepared, MaybeAcceptAsCommitted, MaybeConfirmAsCommitted;
    hide Blocks, Committers, OpenFor;
    var s2 := MaybeConfirmAsPrepared(MaybeAcceptAsPrepared(s, n, x), n, x);
    EarlyStepsAreMild(s, n, x);
    SameCommitted(s, s2, n, x);
    CommitStepCovers(s2, n, x);
    ConfirmStepCovers(MaybeAcceptAsCommitted(s2, n, x), n, x);
  }

  // ------------------------------------------------- what investigating keeps

  /** The conditions on a state that investigating relies on. */
  ghost predicate InOrder(s: State) {
    s.cn <= s.hn && (s.pPrime.Some? ==> s.p.Some? && s.p.value.n >= s.pPrime.value.n)
  }

  /** Peers stay, phases do not go back, nothing accepted as prepared is lost, and in the
      Prepare phase a ballot in hand stays. */
  ghost predicate Onward(s: State, s': State) {
    && InOrder(s') && s'.us == s.us && s'.d == s.d && s'.m == s.m
    && PhaseRank(s.phase) <= PhaseRank(s'.phase)
    && (s'.phase == Prepare && s.b.Some? ==> s'.b == s.b)
    && (s.b.Some? ==> s'.b.Some?)
    && (forall n, x :: AcceptedOrBeyond(s, n, x) ==> AcceptedOrBeyond(s', n, x))
  }

  lemma OnwardTwice(s: State, s1: State, s2: State)
    requires Onward(s, s1) && Onward(s1, s2)
    ensures Onward(s, s2)
  {
  }

  lemma AcceptingIsOnward(s: State, n: nat, x: SlotValue)
    requires InOrder(s)
    ensures Onward(s, MaybeAcceptAsPrepared(s, n, x))
  {
    hide MayAcceptPrepared, AcceptedAbort;
  }

  lemma ConfirmingIsOnward(s: State, n: nat, x: SlotValue)
    requires InOrder(s)
    ensures Onward(s, MaybeConfirmAsPrepared(s, n, x))
  {
    hide MayConfirmPrepared, GteIncompat;
  }

  lemma CommittingIsOnward(s: State, n: nat, x: SlotValue)
    requires InOrder(s)
    ensures Onward(s, MaybeAcceptAsCommitted(s, n, x)) && Onward(s, MaybeConfirmAsCommitted(s, n, x))
  {
    hide MayAcceptCommitted, MayConfirmCommitted;
  }

  lemma BallotIsOnward(s: State, n: nat, x: SlotValue)
    requires InOrder(s)
    ensures Onward(s, InvestigateBallot(s, n, x))
  {
    hide Onward, MaybeAcceptAsPrepared, MaybeConfirmAsPrepared, MaybeAcceptAsCommitted, MaybeConfirmAsCommitted;
    if n < 1 {
      StandingStillIsOnward(s);
    } else {
      var s1 := MaybeAcceptAsPrepared(s, n, x);
      var s2 := MaybeConfirmAsPrepared(s1, n, x);
      var s3 := MaybeAcceptAsCommitted(s2, n, x);
      AcceptingIsOnward(s, n, x);
      OnwardIsInOrder(s, s1);
      ConfirmingIsOnward(s1, n, x);
      OnwardTwice(s, s1, s2);
      OnwardIsInOrder(s, s2);
      CommittingIsOnward(s2, n, x);
      OnwardTwice(s, s2, s3);
      OnwardIsInOrder(s, s3);
      CommittingIsOnward(s3, n, x);
      OnwardTwice(s, s3, MaybeConfirmAsCommitted(s3, n, x));
    }
  }

  lemma OnwardIsInOrder(s: State, s': State)
    requires Onward(s, s')
    ensures InOrder(s')
  {
  }

  lemma StandingStillIsOnward(s: State)
    requires InOrder(s)
    ensures Onward(s, s)
  {
  }

  lemma {:induction false} BallotsAreOnward(s: State, lo: nat, hi: nat, x: SlotValue)
    requires InOrder(s)
    ensures Onward(s, InvestigateBallots(s, lo, hi, x))
    decreases hi + 1 - lo
  {
    hide Onward, InvestigateBallot;
    if lo > hi {
      StandingStillIsOnward(s);
    } else {
      var s1 := InvestigateBallot(s, lo, x);
      BallotIsOnward(s, lo, x);
      OnwardIsInOrder(s, s1);
      BallotsAreOnward(s1, lo + 1, hi, x);
      OnwardTwice(s, s1, InvestigateBallots(s1, lo + 1, hi, x));
    }
  }

  lemma ValueIsOnward(s: State, x: SlotValue)
    requires InOrder(s)
    ensures Onward(s, InvestigateValue(s, x))
  {
    hide Onward, InvestigateBallot, InvestigateBallots;
    var r := Span(s.m, x);
    var hi := Min(r.max, MaxActionable(s.d, s.m));
    var s1 := InvestigateBallots(s, r.min, hi, x);
    BallotsAreOnward(s, r.min, hi, x);
    OnwardIsInOrder(s, s1);
    if s1.b.Some? {
      BallotIsOnward(s1, s1.b.value.n, x);
      OnwardTwice(s, s1, InvestigateBallot(s1, s1.b.value.n, x));
    }
  }

  lemma {:induction false} ValuesAreOnward(s: State, values: seq<SlotValue>, done: set<SlotValue>)
    requires InOrder(s)
    ensures Onward(s, InvestigateValues(s, values, done))
    decreases |values|
  {
    hide Onward, InvestigateValue;
    if values == [] {
      StandingStillIsOnward(s);
    } else if values[0] in done {
      ValuesAreOnward(s, values[1..], done);
    } else {
      var s1 := InvestigateValue(s, values[0]);
      ValueIsOnward(s, values[0]);
      OnwardIsInOrder(s, s1);
      ValuesAreOnward(s1, values[1..], done + {values[0]});
      OnwardTwice(s, s1, InvestigateValues(s1, values[1..], done + {values[0]}));
    }
  }

  /** Work on one value does not take us to another. */
  lemma BallotStaysOpen(s: State, n: nat, x: SlotValue)
    requires OpenFor(s, x)
    ensures OpenFor(InvestigateBallot(s, n, x), x)
  {
    if n >= 1 {
      EarlyStepsStayOpen(s, n, x);
      LateStepsStayOpen(MaybeConfirmAsPrepared(MaybeAcceptAsPrepared(s, n, x), n, x), n, x);
    }
    hide MaybeAcceptAsPrepared, MaybeConfirmAsPrepared, MaybeAcceptAsCommitted, MaybeConfirmAsCommitted;
  }

  lemma EarlyStepsStayOpen(s: State, n: nat, x: SlotValue)
    requires OpenFor(s, x)
    ensures OpenFor(MaybeConfirmAsPrepared(MaybeAcceptAsPrepared(s, n, x), n, x), x)
  {
    hide MayAcceptPrepared, MayConfirmPrepared, AcceptedAbort, GteIncompat, PreparedIsOld;
  }

  lemma LateStepsStayOpen(s: State, n: nat, x: SlotValue)
    requires OpenFor(s, x)
    ensures OpenFor(MaybeConfirmAsCommitted(MaybeAcceptAsCommitted(s, n, x), n, x), x)
  {
    hide MayAcceptCommitted, MayConfirmCommitted;
  }

  lemma {:induction false} BallotsStayOpen(s: State, lo: nat, hi: nat, x: SlotValue)
    requires OpenFor(s, x)
    ensures OpenFor(InvestigateBallots(s, lo, hi, x), x)
    decreases hi + 1 - lo
  {
    hide OpenFor, InvestigateBallot;
    if lo <= hi {
      BallotStaysOpen(s, lo, x);
      BallotsStayOpen(InvestigateBallot(s, lo, x), lo + 1, hi, x);
    }
  }

  lemma ValueStaysOpen(s: State, x: SlotValue)
    requires OpenFor(s, x)
    ensures OpenFor(InvestigateValue(s, x), x)
  {
    hide OpenFor, InvestigateBallot, InvestigateBallots;
    var lo, hi := Span(s.m, x).min, Min(Span(s.m, x).max, MaxActionable(s.d, s.m));
    var s1 := InvestigateBallots(s, lo, hi, x);
    BallotsStayOpen(s, lo, hi, x);
    if s1.b.Some? {
      BallotStaysOpen(s1, s1.b.value.n, x);
    }
  }

  // ------------------------------------------------------- reaching a number

  /** The numbers of a value that are examined: those in the range of the messages up to the
      actionable number, and in the Prepare phase our own if it is not below that range. */
  ghost predicate Examined(s: State, x: SlotValue, n: nat) {
    && n >= 1 && Span(s.m, x).min <= n
    && (n <= Min(Span(s.m, x).max, MaxActionable(s.d, s.m)) || (s.phase == Prepare && s.b.Some? && s.b.value.n == n))
  }

  lemma {:induction false} BallotsSplit(s: State, lo: nat, n: nat, hi: nat, x: SlotValue)
    requires 1 <= n && lo <= n <= hi
    ensures var before := InvestigateBallots(s, lo, n - 1, x);
      InvestigateBallots(s, lo, hi, x) == InvestigateBallots(InvestigateBallot(before, n, x), n + 1, hi, x)
    decreases n - lo
  {
    hide InvestigateBallot;
    if lo < n {
      BallotsSplit(InvestigateBallot(s, lo, x), lo + 1, n, hi, x);
    }
  }

  /** Some state on the way from `s` investigates (n,x) and goes on to `s'`. */
  ghost predicate Passes(s: State, s': State, n: nat, x: SlotValue) {
    exists s1 :: Onward(s, s1) && (OpenFor(s, x) ==> OpenFor(s1, x)) && Onward(InvestigateBallot(s1, n, x), s')
  }

  lemma RangeThenRest(s: State, x: SlotValue)
    requires InOrder(s)
    ensures var s1 := InvestigateBallots(s, Span(s.m, x).min, Min(Span(s.m, x).max, MaxActionable(s.d, s.m)), x);
      Onward(s1, InvestigateValue(s, x))
  {
    hide Onward, InvestigateBallot, InvestigateBallots;
    var lo, hi := Span(s.m, x).min, Min(Span(s.m, x).max, MaxActionable(s.d, s.m));
    var s1 := InvestigateBallots(s, lo, hi, x);
    BallotsAreOnward(s, lo, hi, x);
    OnwardIsInOrder(s, s1);
    StandingStillIsOnward(s1);
    if s1.b.Some? {
      BallotIsOnward(s1, s1.b.value.n, x);
    }
  }

  lemma PassesBy(s: State, s1: State, s': State, n: nat, x: SlotValue)
    requires Onward(s, s1) && (OpenFor(s, x) ==> OpenFor(s1, x)) && Onward(InvestigateBallot(s1, n, x), s')
    ensures Passes(s, s', n, x)
  {
    hide Onward, InvestigateBallot;
  }

  lemma PassesThrough(s: State, lo: nat, n: nat, hi: nat, x: SlotValue, s': State)
    requires InOrder(s) && 1 <= n && lo <= n <= hi && Onward(InvestigateBallots(s, lo, hi, x), s')
    ensures Passes(s, s', n, x)
  {
    hide Onward, InvestigateBallot, InvestigateBallots, Passes;
    var s1 := InvestigateBallots(s, lo, n - 1, x);
    var s2 := InvestigateBallot(s1, n, x);
    BallotsSplit(s, lo, n, hi, x);
    BallotsAreOnward(s, lo, n - 1, x);
    OnwardIsInOrder(s, s1);
    BallotIsOnward(s1, n, x);
    OnwardIsInOrder(s1, s2);
    BallotsAreOnward(s2, n + 1, hi, x);
    OnwardTwice(s2, InvestigateBallots(s2, n + 1, hi, x), s');
    if OpenFor(s, x) {
      BallotsStayOpen(s, lo, n - 1, x);
    }
    PassesBy(s, s1, s', n, x);
  }

  lemma PassesInRange(s: State, n: nat, x: SlotValue)
    requires InOrder(s) && 1 <= n && Span(s.m, x).min <= n <= Min(Span(s.m, x).max, MaxActionable(s.d, s.m))
    ensures Passes(s, InvestigateValue(s, x), n, x)
  {
    hide Onward, InvestigateBallots, InvestigateValue, Passes;
    var hi := Min(Span(s.m, x).max, MaxActionable(s.d, s.m));
    RangeThenRest(s, x);
    PassesThrough(s, Span(s.m, x).min, n, hi, x, InvestigateValue(s, x));
  }

  lemma PassesCurrent(s: State, n: nat, x: SlotValue)
    requires InOrder(s) && s.phase == Prepare && s.b.Some? && s.b.value.n == n && n >= 1
    requires Span(s.m, x).min <= n && n > Min(Span(s.m, x).max, MaxActionable(s.d, s.m))
    ensures Passes(s, InvestigateValue(s, x), n, x) || InvestigateValue(s, x).phase != Prepare
  {
    hide InvestigateBallot, InvestigateBallots, Passes;
    var lo, hi := Span(s.m, x).min, Min(Span(s.m, x).max, MaxActionable(s.d, s.m));
    var s1 := InvestigateBallots(s, lo, hi, x);
    BallotsAreOnward(s, lo, hi, x);
    ValueIsOnward(s, x);
    if s1.phase == Prepare {
      var s2 := InvestigateBallot(s1, n, x);
      assert InvestigateValue(s, x) == s2;
      BallotIsOnward(s1, n, x);
      StandingStillIsOnward(s2);
      PassesBy(s, s1, s2, n, x);
    } else {
      BallotIsOnward(s1, s1.b.value.n, x);
    }
    hide Onward;
  }

  /** An examined number of a value is investigated, unless we leave the Prepare phase. */
  lemma ExaminedIsInvestigated(s: State, n: nat, x: SlotValue)
    requires InOrder(s) && Examined(s, x, n)
    ensures || Passes(s, InvestigateValue(s, x), n, x)
            || (s.phase == Prepare && InvestigateValue(s, x).phase != Prepare)
  {
    hide Passes, InvestigateValue;
    if n <= Min(Span(s.m, x).max, MaxActionable(s.d, s.m)) {
      PassesInRange(s, n, x);
    } else {
      PassesCurrent(s, n, x);
    }
  }

  /** What a quorum supports or a blocking set has accepted as prepared, at a number that is
      examined, is accepted by investigating the value. */
  lemma PreparedIsFound(s: State, n: nat, x: SlotValue)
    requires InOrder(s) && s.phase == Prepare && Examined(s, x, n)
    requires HasQuorum(Slices(s), s.us, Supporters(s, n, x)) || Blocks(s.d, Preparers(s, n, x))
    ensures var s' := InvestigateValue(s, x); s'.phase != Prepare || AcceptedOrBeyond(s', n, x)
  {
    var s' := InvestigateValue(s, x);
    ExaminedIsInvestigated(s, n, x);
    hide InvestigateValue, InvestigateBallot, Examined, Onward, HasQuorum, Blocks;
    if s'.phase == Prepare {
      var s1 :| Onward(s, s1) && (OpenFor(s, x) ==> OpenFor(s1, x)) && Onward(InvestigateBallot(s1, n, x), s');
      FoundOnTheWay(s, s1, s', n, x);
    }
  }

  lemma FoundOnTheWay(s: State, s1: State, s': State, n: nat, x: SlotValue)
    requires InOrder(s) && s.phase == Prepare && n >= 1
    requires Onward(s, s1) && Onward(InvestigateBallot(s1, n, x), s')
    requires HasQuorum(Slices(s), s.us, Supporters(s, n, x)) || Blocks(s.d, Preparers(s, n, x))
    ensures s'.phase != Prepare || AcceptedOrBeyond(s', n, x)
  {
    hide InvestigateBallot, HasQuorum, Blocks, Slices, Supporters, Preparers;
    if s'.phase == Prepare {
      BallotIsOnward(s1, n, x);
      assert s1.phase == Prepare;
      SameSupport(s, s1, n, x);
      BallotIsAccepted(s1, n, x);
    }
  }

  lemma SameSupport(s: State, s1: State, n: nat, x: SlotValue)
    requires s.phase == s1.phase == Prepare && Onward(s, s1)
    ensures Slices(s1) == Slices(s) && Preparers(s1, n, x) == Preparers(s, n, x)
    ensures Supporters(s, n, x) <= Supporters(s1, n, x)
    ensures HasQuorum(Slices(s), s.us, Supporters(s, n, x)) ==> HasQuorum(Slices(s1), s1.us, Supporters(s1, n, x))
  {
  }
}
