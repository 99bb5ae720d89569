/** From what peers have committed to an outcome: a node that hears of enough commits of a
    value leaves the Prepare phase and externalizes it (consensus/ballot_state.go). */
module Externalizing {
  import opened Quorum
  import opened Ranges
  import opened BallotMessages
  import opened Balloting
  import opened Investigation
  import opened MessageMeaning
  import opened Progress

  // ----------------------------------------- some committed number is examined

  /** The number of a range that is nearest to `n`. */
  function Clamp(n: nat, r: Range): nat {
    if n < r.min then r.min else if n > r.max then r.max else n
  }

  /** A message that commits (n,x) also commits the number of the range nearest to n. */
  lemma CommitReachesRange(m: Message, n: nat, x: SlotValue, r: Range)
    requires Sane(m) && n >= 1 && AcceptsCommitted(m, n, x) && r.Valid() && Covers(r, RelevantRange(m, x))
    ensures !r.Null() && r.Has(Clamp(n, r)) && AcceptsCommitted(m, Clamp(n, r), x)
    ensures n < r.min ==> MaxN(m) >= r.min
  {
    if m.hn >= 1 {
      RangeHasNumbers(m, x, m.hn);
    }
    if m.cn >= 1 {
      RangeHasNumbers(m, x, m.cn);
    }
    hide RelevantRange;
  }

  ghost predicate SaneAll(s: State, peers: set<Node>) {
    forall k :: k in peers && k in s.m ==> Sane(s.m[k])
  }

  /** If a blocking set has committed a ballot within the actionable numbers, some number
      that is examined has been committed by all of that set. */
  lemma CommitIsExamined(s: State, n: nat, x: SlotValue) returns (k: nat)
    requires n >= 1 && Blocks(s.d, Committers(s, n, x)) && SaneAll(s, Committers(s, n, x))
    requires n <= MaxActionable(s.d, s.m)
    ensures k >= 1 && Span(s.m, x).min <= k <= Min(Span(s.m, x).max, MaxActionable(s.d, s.m))
    ensures Committers(s, n, x) <= Committers(s, k, x)
  {
    var r, peers := Span(s.m, x), Committers(s, n, x);
    k := Clamp(n, r);
    forall q | q in peers
      ensures r.Has(k) && AcceptsCommitted(s.m[q], k, x) && (n < r.min ==> MaxN(s.m[q]) >= r.min)
    {
      assert Covers(r, RelevantRange(s.m[q], x));
      CommitReachesRange(s.m[q], n, x, r);
    }
    SomebodyBlocks(s.d, peers);
    hide RelevantRange, MaxN, AcceptsCommitted;
    if n < r.min {
      assert peers <= TalkingAbout(s.m, r.min);
      HitsMonotone(s.d.members, peers, TalkingAbout(s.m, r.min));
      assert Actionable(s.d, s.m, r.min);
    }
    assert peers <= Committers(s, k, x) by { SameCommitters(s, peers, k, x); }
  }

  lemma SomebodyBlocks(d: QuorumSlice, peers: set<Node>)
    requires Blocks(d, peers)
    ensures peers != {}
  {
    NobodyHits(d.members);
  }

  lemma SameCommitters(s: State, peers: set<Node>, k: nat, x: SlotValue)
    requires forall q :: q in peers ==> q in s.m && AcceptsCommitted(s.m[q], k, x)
    ensures peers <= Committers(s, k, x)
  {
  }

  // -------------------------------------------------- accepting and externalizing

  /** A node that is open for a value and investigates it accepts a commit that a blocking
      set has accepted. */
  lemma CommitIsFound(s: State, n: nat, x: SlotValue)
    requires InOrder(s) && OpenFor(s, x) && n >= 1 && n <= MaxActionable(s.d, s.m)
    requires Blocks(s.d, Committers(s, n, x)) && SaneAll(s, Committers(s, n, x))
    ensures var s' := InvestigateValue(s, x); s'.phase != Prepare && s'.b.Some? && s'.b.value.x == x
  {
    var k := CommitIsExamined(s, n, x);
    HitsMonotone(s.d.members, Committers(s, n, x), Committers(s, k, x));
    PassesInRange(s, k, x);
    ValueStaysOpen(s, x);
    var s' := InvestigateValue(s, x);
    hide InvestigateValue, InvestigateBallot, Onward, Committers;
    var s1 :| Onward(s, s1) && (OpenFor(s, x) ==> OpenFor(s1, x)) && Onward(InvestigateBallot(s1, k, x), s');
    CommittedOnTheWay(s, s1, s', k, x);
  }

  lemma CommittedOnTheWay(s: State, s1: State, s': State, k: nat, x: SlotValue)
    requires Onward(s, s1) && OpenFor(s1, x) && Onward(InvestigateBallot(s1, k, x), s')
    requires k >= 1 && Blocks(s.d, Committers(s, k, x))
    ensures s'.phase != Prepare
  {
    hide InvestigateBallot, Blocks;
    assert Committers(s1, k, x) == Committers(s, k, x);
    CommitIsAccepted(s1, k, x);
  }

  /** With us, the peers that have committed (n,x) are a quorum, and they block us. */
  ghost predicate Decisive(s: State, n: nat, x: SlotValue) {
    && n >= 1 && n <= MaxActionable(s.d, s.m)
    && Blocks(s.d, Committers(s, n, x)) && SaneAll(s, Committers(s, n, x))
    && HasQuorum(Slices(s), s.us, Committers(s, n, x) + {s.us})
  }

  /** One ballot is enough to accept and to confirm a commit. */
  lemma BallotExternalizes(s: State, n: nat, x: SlotValue)
    requires InOrder(s) && OpenFor(s, x) && n >= 1 && Blocks(s.d, Committers(s, n, x))
    requires HasQuorum(Slices(s), s.us, Committers(s, n, x) + {s.us})
    ensures InvestigateBallot(s, n, x).phase == Externalize
  {
    var s2 := MaybeConfirmAsPrepared(MaybeAcceptAsPrepared(s, n, x), n, x);
    var s3 := MaybeAcceptAsCommitted(s2, n, x);
    EarlyStepsAreMild(s, n, x);
    hide MaybeAcceptAsPrepared, MaybeConfirmAsPrepared, HasQuorum, Blocks;
    assert OpenFor(s2, x) && Committers(s2, n, x) == Committers(s, n, x) && Slices(s2) == Slices(s);
    CommitStepCovers(s2, n, x);
    ConfirmStepExternalizes(s3, n, x);
    hide MaybeAcceptAsCommitted, MaybeConfirmAsCommitted;
  }

  lemma ConfirmStepExternalizes(s: State, n: nat, x: SlotValue)
    requires s.phase != Prepare && s.b.Some? && s.b.value.x == x && (s.phase == Confirm ==> s.cn <= n <= s.hn)
    requires HasQuorum(Slices(s), s.us, Committers(s, n, x) + {s.us})
    ensures MaybeConfirmAsCommitted(s, n, x).phase == Externalize
  {
    if s.phase == Confirm {
      assert CommitAccepters(s, n, x) == Committers(s, n, x) + {s.us};
    }
    hide HasQuorum;
  }

  /** A node that is open for a value and investigates it externalizes it, once decisive
      peers have committed it. */
  lemma ValueExternalizes(s: State, n: nat, x: SlotValue)
    requires InOrder(s) && OpenFor(s, x) && Decisive(s, n, x)
    ensures var s' := InvestigateValue(s, x); s'.phase == Externalize && s'.b.Some? && s'.b.value.x == x
  {
    var k := CommitIsExamined(s, n, x);
    HitsMonotone(s.d.members, Committers(s, n, x), Committers(s, k, x));
    assert HasQuorum(Slices(s), s.us, Committers(s, k, x) + {s.us});
    PassesInRange(s, k, x);
    ValueStaysOpen(s, x);
    var s' := InvestigateValue(s, x);
    hide InvestigateValue, InvestigateBallot, Onward, Committers, HasQuorum;
    var s1 :| Onward(s, s1) && (OpenFor(s, x) ==> OpenFor(s1, x)) && Onward(InvestigateBallot(s1, k, x), s');
    ExternalizedOnTheWay(s, s1, s', k, x);
  }

  lemma ExternalizedOnTheWay(s: State, s1: State, s': State, k: nat, x: SlotValue)
    requires Onward(s, s1) && OpenFor(s1, x) && Onward(InvestigateBallot(s1, k, x), s')
    requires k >= 1 && Blocks(s.d, Committers(s, k, x))
    requires HasQuorum(Slices(s), s.us, Committers(s, k, x) + {s.us})
    ensures s'.phase == Externalize
  {
    hide InvestigateBallot, Blocks, HasQuorum;
    assert Committers(s1, k, x) == Committers(s, k, x) && Slices(s1) == Slices(s);
    BallotExternalizes(s1, k, x);
  }
}
