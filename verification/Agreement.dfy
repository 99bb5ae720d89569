/** Agreement among the correct nodes of a network whose members share one slice. */
module Agreement {
  import opened Quorum
  import opened BallotMessages
  import opened Balloting
  import opened BallotHistory

  /** The pasts of all correct nodes. Members outside the map are faulty. */
  type Histories = map<Node, History>

  /** The fault bound: f faulty members with 2t-n > f and n-t+1 > f. */
  ghost predicate Tolerates(qs: QuorumSlice, correct: set<Node>) {
    && WellFormed(qs)
    && correct <= Elems(qs.members)
    && 2 * qs.threshold - |qs.members| > |Elems(qs.members) - correct|
    && |qs.members| - qs.threshold + 1 > |Elems(qs.members) - correct|
  }

  /** The members that voted to commit (n,x), counting every faulty one. */
  ghost function CommitSide(qs: QuorumSlice, hs: Histories, n: nat, x: SlotValue): set<Node> {
    set v | v in qs.members && (v in hs ==> Ballot(n, x) in hs[v].votes)
  }

  /** (n,x) has gathered a commit quorum. */
  ghost predicate Chosen(qs: QuorumSlice, hs: Histories, n: nat, x: SlotValue) {
    |CommitSide(qs, hs, n, x)| >= qs.threshold
  }

  /** The correct nodes that have not voted to commit (n,x) and held a rival ballot. */
  ghost function Lost(hs: Histories, n: nat, x: SlotValue): set<Node> {
    set v | v in hs && Ballot(n, x) !in hs[v].votes && HasRival(hs[v].held, n, x)
  }

  /** (n,x) can no longer gather a commit quorum. */
  ghost predicate Dead(qs: QuorumSlice, hs: Histories, n: nat, x: SlotValue) {
    |Lost(hs, n, x)| >= |qs.members| - qs.threshold + 1
  }

  ghost predicate RivalChosenBelow(qs: QuorumSlice, hs: Histories, n: nat, x: SlotValue) {
    exists k: nat, w :: k < n && w != x && Chosen(qs, hs, k, w)
  }

  /** (n,x) is dead, or a rival below it has already been chosen. */
  ghost predicate Settled(qs: QuorumSlice, hs: Histories, n: nat, x: SlotValue) {
    Dead(qs, hs, n, x) || RivalChosenBelow(qs, hs, n, x)
  }

  /** The inductive core: a correct node accepts a ballot as prepared only when
      every rival at or below it is settled. */
  ghost predicate PreparedSettlesRivals(qs: QuorumSlice, hs: Histories) {
    forall v, q, n: nat, x ::
      v in hs && q in hs[v].prepared && n <= q.n && x != q.x ==> Settled(qs, hs, n, x)
  }

  ghost predicate ClaimsAreChosen(qs: QuorumSlice, hs: Histories) {
    forall v, x :: v in hs && x in hs[v].claims ==> exists k: nat :: Chosen(qs, hs, k, x)
  }

  ghost predicate AllVotesSound(hs: Histories) {
    forall v :: v in hs ==> VotesAreSound(hs[v])
  }

  ghost predicate Safe(qs: QuorumSlice, hs: Histories) {
    && Tolerates(qs, hs.Keys)
    && AllVotesSound(hs)
    && PreparedSettlesRivals(qs, hs)
    && ClaimsAreChosen(qs, hs)
  }

  // ------------------------------------------------------------ static facts

  /** A quorum contains a correct node. */
  lemma ChosenHasVoter(qs: QuorumSlice, hs: Histories, n: nat, x: SlotValue)
    requires Tolerates(qs, hs.Keys) && Chosen(qs, hs, n, x)
    ensures exists v :: v in hs && Ballot(n, x) in hs[v].votes
  {
    HitsIsCardinality(qs.members, {});
    NotAllInside(CommitSide(qs, hs, n, x), Elems(qs.members) - hs.Keys);
    var v :| v in CommitSide(qs, hs, n, x) && v !in Elems(qs.members) - hs.Keys;
    assert v in hs;
  }

  lemma DeadIsNotChosen(qs: QuorumSlice, hs: Histories, n: nat, x: SlotValue)
    requires Tolerates(qs, hs.Keys) && Dead(qs, hs, n, x)
    ensures !Chosen(qs, hs, n, x)
  {
    assert CommitSide(qs, hs, n, x) * Lost(hs, n, x) == {};
    HitsIsCardinality(qs.members, {});
    SharedSize(Elems(qs.members), CommitSide(qs, hs, n, x), Lost(hs, n, x));
  }

  /** Choosing a value settles every ballot of every other value. */
  lemma ChosenSettlesRivals(qs: QuorumSlice, hs: Histories, k: nat, y: SlotValue, n: nat, x: SlotValue)
    requires Safe(qs, hs) && Chosen(qs, hs, k, y) && x != y
    ensures Settled(qs, hs, n, x)
  {
    if k < n {
      assert RivalChosenBelow(qs, hs, n, x);
    } else {
      ChosenHasVoter(qs, hs, k, y);
      var v :| v in hs && Ballot(k, y) in hs[v].votes;
      assert VoteIsSound(Ballot(k, y), hs[v].held, hs[v].prepared);
      var q :| q in hs[v].prepared && q.x == y && q.n >= k;
      assert n <= q.n;
    }
  }

  /** At most one value is ever chosen: look at the lowest chosen ballot. */
  lemma OneValueChosen(qs: QuorumSlice, hs: Histories, n: nat, x: SlotValue, k: nat, y: SlotValue)
    requires Safe(qs, hs) && Chosen(qs, hs, n, x) && Chosen(qs, hs, k, y)
    ensures x == y
    decreases n
  {
    if x != y {
      ChosenSettlesRivals(qs, hs, k, y, n, x);
      if Dead(qs, hs, n, x) {
        DeadIsNotChosen(qs, hs, n, x);
      } else {
        var k': nat, w :| k' < n && w != x && Chosen(qs, hs, k', w);
        OneValueChosen(qs, hs, k', w, n, x);
      }
    }
  }

  ghost predicate AllClaimsAgree(hs: Histories) {
    forall u, v, x, y :: u in hs && v in hs && x in hs[u].claims && y in hs[v].claims ==> x == y
  }

  /** The safety invariant implies agreement. */
  lemma SafeImpliesAgreement(qs: QuorumSlice, hs: Histories)
    requires Safe(qs, hs)
    ensures AllClaimsAgree(hs)
  {
    forall u, v, x, y | u in hs && v in hs && x in hs[u].claims && y in hs[v].claims
      ensures x == y
    {
      var n: nat :| Chosen(qs, hs, n, x);
      var k: nat :| Chosen(qs, hs, k, y);
      OneValueChosen(qs, hs, n, x, k, y);
    }
  }

  // ------------------------------------------------------- what support means

  /** The evidence a correct node gives for preparing (m,y). */
  ghost predicate Supports(h: History, m: nat, y: SlotValue) {
    HasAtLeast(h.held, m, y) || Accepts(h, m, y)
  }

  ghost predicate Accepts(h: History, m: nat, y: SlotValue) {
    HasAtLeast(h.prepared, m, y) || y in h.claims
  }

  lemma AcceptanceSettles(qs: QuorumSlice, hs: Histories, v: Node, m: nat, y: SlotValue, n: nat, x: SlotValue)
    requires Safe(qs, hs) && v in hs && Accepts(hs[v], m, y) && n <= m && x != y
    ensures Settled(qs, hs, n, x)
  {
    if y in hs[v].claims {
      var k: nat :| Chosen(qs, hs, k, y);
      ChosenSettlesRivals(qs, hs, k, y, n, x);
    } else {
      var q :| q in hs[v].prepared && q.x == y && q.n >= m;
    }
  }

  /** A node that voted for (n,x) and now holds a rival has accepted its abort. */
  lemma AbandonedVoteSettles(qs: QuorumSlice, hs: Histories, v: Node, n: nat, x: SlotValue)
    requires Safe(qs, hs) && v in hs && Ballot(n, x) in hs[v].votes && HasRival(hs[v].held, n, x)
    ensures Settled(qs, hs, n, x)
  {
    assert VoteIsSound(Ballot(n, x), hs[v].held, hs[v].prepared);
    var q :| q in hs[v].prepared && q.x != x && q.n >= n;
  }

  /** A quorum behind (m,y) settles every rival at or below m. */
  lemma QuorumSettles(qs: QuorumSlice, hs: Histories, u: set<Node>, m: nat, y: SlotValue, n: nat, x: SlotValue)
    requires Safe(qs, hs) && Satisfies(qs, u) && n <= m && x != y
    requires forall v :: v in u && v in hs ==> Supports(hs[v], m, y)
    ensures Settled(qs, hs, n, x)
  {
    if v :| v in u && v in hs && Accepts(hs[v], m, y) {
      AcceptanceSettles(qs, hs, v, m, y, n, x);
    } else {
      forall v | v in u && v in hs
        ensures HasRival(hs[v].held, n, x)
      {
        var q :| q in hs[v].held && q.x == y && q.n >= m;
      }
      if v :| v in u && v in hs && Ballot(n, x) in hs[v].votes {
        AbandonedVoteSettles(qs, hs, v, n, x);
      } else {
        CorrectPartIsLarge(qs, hs.Keys, u);
        assert u * hs.Keys <= Lost(hs, n, x);
        SubsetSize(u * hs.Keys, Lost(hs, n, x));
      }
    }
  }

  /** The correct part of a quorum is a blocking set. */
  lemma CorrectPartIsLarge(qs: QuorumSlice, correct: set<Node>, u: set<Node>)
    requires Tolerates(qs, correct) && Satisfies(qs, u)
    ensures |u * correct| >= |qs.members| - qs.threshold + 1
  {
    var m := Elems(qs.members);
    HitsIsCardinality(qs.members, u);
    assert m * u == (m * u) * correct + (m * u) * (m - correct);
    assert |m * u| == |(m * u) * correct| + |(m * u) * (m - correct)|;
    SubsetSize((m * u) * (m - correct), m - correct);
    SubsetSize((m * u) * correct, u * correct);
  }

  /** A blocking set that accepted (m,y) settles every rival at or below m. */
  lemma BlockingSettles(qs: QuorumSlice, hs: Histories, b: set<Node>, m: nat, y: SlotValue, n: nat, x: SlotValue)
    requires Safe(qs, hs) && Blocks(qs, b) && n <= m && x != y
    requires forall v :: v in b && v in hs ==> Accepts(hs[v], m, y)
    ensures Settled(qs, hs, n, x)
  {
    BlockingHasCorrect(qs, hs.Keys, b);
    var v :| v in b && v in hs.Keys;
    AcceptanceSettles(qs, hs, v, m, y, n, x);
  }

  /** A quorum that voted to commit (n,x), or claims x already, means x is chosen. */
  lemma QuorumChooses(qs: QuorumSlice, hs: Histories, u: set<Node>, n: nat, x: SlotValue)
    requires Safe(qs, hs) && Satisfies(qs, u)
    requires forall v :: v in u && v in hs ==> Ballot(n, x) in hs[v].votes || x in hs[v].claims
    ensures exists k: nat :: Chosen(qs, hs, k, x)
  {
    if v :| v in u && v in hs && x in hs[v].claims {
    } else {
      HitsIsCardinality(qs.members, u);
      SubsetSize(Elems(qs.members) * u, CommitSide(qs, hs, n, x));
      assert Chosen(qs, hs, n, x);
    }
  }

  lemma BlockingChooses(qs: QuorumSlice, hs: Histories, b: set<Node>, x: SlotValue)
    requires Safe(qs, hs) && Blocks(qs, b)
    requires forall v :: v in b && v in hs ==> x in hs[v].claims
    ensures exists k: nat :: Chosen(qs, hs, k, x)
  {
    BlockingHasCorrect(qs, hs.Keys, b);
    var v :| v in b && v in hs.Keys;
    assert x in hs[v].claims;
  }

  // ------------------------------------------------------ how histories grow

  /** A history grows, and never by a vote for a ballot it has already held a rival of. */
  ghost predicate Grows(h: History, h': History) {
    && h.held <= h'.held && h.prepared <= h'.prepared && h.votes <= h'.votes && h.claims <= h'.claims
    && (forall v :: v in h'.votes && v !in h.votes ==> !HasRival(h.held, v.n, v.x))
  }

  lemma RecordGrows(s: State, h: History, e: Event)
    requires Inv(s, h) && Sensible(s.us, e)
    ensures Grows(h, Record(h, s, e))
  {
    StepKeepsInv(s, h, e);
    var s', h' := Step(s, e), Record(h, s, e);
    forall v | v in h'.votes && v !in h.votes
      ensures !HasRival(h.held, v.n, v.x)
    {
      assert v in CommitVotes(s');
      assert h.held <= h'.held;
    }
  }

  lemma GrowthKeepsChosen(qs: QuorumSlice, hs: Histories, u: Node, h': History, n: nat, x: SlotValue)
    requires u in hs && Grows(hs[u], h') && Chosen(qs, hs, n, x)
    ensures Chosen(qs, hs[u := h'], n, x)
  {
    SubsetSize(CommitSide(qs, hs, n, x), CommitSide(qs, hs[u := h'], n, x));
  }

  lemma GrowthKeepsSettled(qs: QuorumSlice, hs: Histories, u: Node, h': History, n: nat, x: SlotValue)
    requires u in hs && Grows(hs[u], h') && Settled(qs, hs, n, x)
    ensures Settled(qs, hs[u := h'], n, x)
  {
    var hs' := hs[u := h'];
    if Dead(qs, hs, n, x) {
      forall v | v in Lost(hs, n, x)
        ensures v in Lost(hs', n, x)
      {
        if v == u {
          var q :| q in hs[u].held && q.x != x && q.n >= n;
          assert q in h'.held;
        }
      }
      SubsetSize(Lost(hs, n, x), Lost(hs', n, x));
    } else {
      var k: nat, w :| k < n && w != x && Chosen(qs, hs, k, w);
      GrowthKeepsChosen(qs, hs, u, h', k, w);
      assert RivalChosenBelow(qs, hs', n, x);
    }
  }

  /** Safety survives the growth of one history, given that what is new in it is justified. */
  lemma GrowthKeepsSafe(qs: QuorumSlice, hs: Histories, u: Node, h': History)
    requires Safe(qs, hs) && u in hs && Grows(hs[u], h') && VotesAreSound(h')
    requires forall q, n: nat, x ::
      q in h'.prepared && q !in hs[u].prepared && n <= q.n && x != q.x ==> Settled(qs, hs, n, x)
    requires forall x :: x in h'.claims && x !in hs[u].claims ==> exists k: nat :: Chosen(qs, hs, k, x)
    ensures Safe(qs, hs[u := h'])
  {
    var hs' := hs[u := h'];
    assert hs'.Keys == hs.Keys;
    forall v, q, n: nat, x | v in hs' && q in hs'[v].prepared && n <= q.n && x != q.x
      ensures Settled(qs, hs', n, x)
    {
      assert v != u ==> q in hs[v].prepared;
      assert Settled(qs, hs, n, x);
      GrowthKeepsSettled(qs, hs, u, h', n, x);
    }
    forall v, x | v in hs' && x in hs'[v].claims
      ensures exists k: nat :: Chosen(qs, hs', k, x)
    {
      assert v != u ==> x in hs[v].claims;
      var k: nat :| Chosen(qs, hs, k, x);
      GrowthKeepsChosen(qs, hs, u, h', k, x);
    }
  }
}
