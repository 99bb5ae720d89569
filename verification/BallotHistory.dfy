/** What one node remembers of its past, and the invariant every event keeps. */
module BallotHistory {
  import opened Quorum
  import opened BallotMessages
  import opened Balloting

  /** Ghost record of a node's past.
      held: every ballot that was `b` during the Prepare phase;
      prepared: every ballot whose accept-as-prepared rule held when it was tried
      during the Prepare phase, whether or not it was kept in p or p';
      votes: every ballot this node voted to commit;
      claims: every value held outside the Prepare phase. */
  datatype History = History(
    held: set<Ballot>,
    prepared: set<Ballot>,
    votes: set<Ballot>,
    claims: set<SlotValue>)

  const NoHistory := History({}, {}, {}, {})

  ghost function BallotRange(lo: nat, hi: nat, x: SlotValue): set<Ballot> {
    set k | lo <= k <= hi :: Ballot(k, x)
  }

  /** The commit votes that a state in the Prepare phase stands for. */
  ghost function CommitVotes(s: State): set<Ballot> {
    if s.b.Some? && s.cn != 0 then BallotRange(s.cn, s.hn, s.b.value.x) else {}
  }

  function Singleton(b: Option<Ballot>): set<Ballot> {
    if b.Some? then {b.value} else {}
  }

  /** The record after reaching `s`, having found `accepted` to be acceptable as prepared. */
  ghost function Recorded(h: History, s: State, accepted: set<Ballot>): History {
    if s.phase == Prepare
    then History(h.held + Singleton(s.b), h.prepared + accepted, h.votes + CommitVotes(s), h.claims)
    else h.(claims := h.claims + (if s.b.Some? then {s.b.value.x} else {}))
  }

  ghost predicate NewlyPrepared(s: State, e: Event) {
    e.TryAcceptPrepared? && s.phase == Prepare && MayAcceptPrepared(s, e.n, e.x)
  }

  ghost function Record(h: History, s: State, e: Event): History {
    Recorded(h, Step(s, e), if NewlyPrepared(s, e) then {Ballot(e.n, e.x)} else {})
  }

  /** Some ballot of the set is compatible with (n,x) and at least as high. */
  ghost predicate HasAtLeast(ballots: set<Ballot>, n: nat, x: SlotValue) {
    exists q :: q in ballots && q.x == x && q.n >= n
  }

  /** Some ballot of the set is incompatible with (n,x) and at least as high:
      preparing it means aborting (n,x). */
  ghost predicate HasRival(ballots: set<Ballot>, n: nat, x: SlotValue) {
    exists q :: q in ballots && q.x != x && q.n >= n
  }

  // --------------------------------------------------------------- invariants

  /** p and p' are the two highest incompatible ballots among all prepared ones. */
  ghost predicate Summarizes(p: Option<Ballot>, pPrime: Option<Ballot>, prepared: set<Ballot>) {
    && (p.None? ==> pPrime.None? && prepared == {})
    && (p.Some? ==> p.value in prepared && p.value.n >= 1)
    && (pPrime.Some? ==>
          && pPrime.value in prepared
          && pPrime.value.n >= 1
          && pPrime.value.x != p.value.x
          && pPrime.value.n <= p.value.n)
    && (forall q :: q in prepared ==>
          && q.n <= p.value.n
          && (q.x != p.value.x ==> pPrime.Some? && q.n <= pPrime.value.n))
  }

  /** b only moves up, so it is the highest ballot ever held. */
  ghost predicate HoldsHighest(b: Option<Ballot>, held: set<Ballot>) {
    && (b.None? ==> held == {})
    && (b.Some? ==> b.value in held && b.value.n >= 1)
    && (forall q :: q in held ==> q.n <= b.value.n && (q.n == b.value.n ==> q == b.value))
  }

  /** The vote to commit [cn,hn] of b.x is live and has never been voted against. */
  ghost predicate VoteIsLive(b: Option<Ballot>, p: Option<Ballot>, pPrime: Option<Ballot>,
                             cn: nat, hn: nat, z: Option<SlotValue>, held: set<Ballot>) {
    cn != 0 ==>
      && b.Some?
      && z == Some(b.value.x)
      && cn <= hn
      && cn <= b.value.n
      && !GteIncompat(p, Ballot(hn, b.value.x))
      && !GteIncompat(pPrime, Ballot(hn, b.value.x))
      && (forall q :: q in held && q.x != b.value.x ==> q.n < cn)
  }

  /** z is the highest ballot confirmed as prepared, if its value is unique. */
  ghost predicate RemembersConfirmed(b: Option<Ballot>, pPrime: Option<Ballot>, hn: nat, z: Option<SlotValue>,
                                     prepared: set<Ballot>) {
    && (b.None? ==> hn == 0)
    && (hn == 0 ==> z.None?)
    && (z.Some? ==> HasAtLeast(prepared, hn, z.value))
    && (z.None? && hn > 0 ==> pPrime.Some? && pPrime.value.n >= hn)
  }

  /** A commit vote was for a prepared ballot, and a ballot held against it later
      is justified by an accepted abort. */
  ghost predicate VoteIsSound(v: Ballot, held: set<Ballot>, prepared: set<Ballot>) {
    && v.n >= 1
    && HasAtLeast(prepared, v.n, v.x)
    && (HasRival(held, v.n, v.x) ==> HasRival(prepared, v.n, v.x))
  }

  ghost predicate VotesAreSound(h: History) {
    forall v :: v in h.votes ==> VoteIsSound(v, h.held, h.prepared)
  }

  ghost predicate PrepareInv(s: State, h: History) {
    && HoldsHighest(s.b, h.held)
    && VoteIsLive(s.b, s.p, s.pPrime, s.cn, s.hn, s.z, h.held)
    && RemembersConfirmed(s.b, s.pPrime, s.hn, s.z, h.prepared)
    && CommitVotes(s) <= h.votes
    && (forall v :: v in h.votes ==> v.n <= s.hn)
    && h.claims == {}
  }

  ghost predicate Inv(s: State, h: History) {
    && s.us !in s.m
    && Summarizes(s.p, s.pPrime, h.prepared)
    && VotesAreSound(h)
    && (s.phase == Prepare ==> PrepareInv(s, h))
    && (s.phase != Prepare ==> s.b.Some? && s.cn <= s.hn && s.b.value.x in h.claims)
  }

  lemma InitialInv(us: Node, d: QuorumSlice)
    ensures Inv(Initial(us, d), NoHistory)
  {
  }

  /** A quorum around us contains us, so we support what we confirm ourselves. */
  lemma QuorumNeedsUs(s: State, nodes: set<Node>)
    requires MeetsQuorumHere(s, nodes)
    ensures s.us in nodes
  {
  }

  /** The pair (p, p') answers every abort question as the full history would. */
  lemma PairIsLosslessForAborts(s: State, h: History, n: nat, x: SlotValue)
    requires s.phase == Prepare && Inv(s, h)
    ensures AcceptedAbort(s, n, x) <==> HasRival(h.prepared, n, x)
  {
  }

  // ------------------------------------------------------ the parts, one by one

  /** Keeping p and p' up to date, with ties and swaps. */
  lemma AcceptingSummarizes(s: State, prepared: set<Ballot>, ballot: Ballot)
    requires Summarizes(s.p, s.pPrime, prepared) && ballot.n >= 1
    ensures PreparedIsOld(s, ballot.n, ballot.x) ==> Summarizes(s.p, s.pPrime, prepared + {ballot})
    ensures !PreparedIsOld(s, ballot.n, ballot.x) ==>
      Summarizes(AcceptPrepared(s, ballot).p, AcceptPrepared(s, ballot).pPrime, prepared + {ballot})
  {
  }

  lemma VoteStaysSound(v: Ballot, held: set<Ballot>, held': set<Ballot>, prepared: set<Ballot>, prepared': set<Ballot>)
    requires VoteIsSound(v, held, prepared) && prepared <= prepared'
    requires HasRival(held', v.n, v.x) ==> HasRival(held, v.n, v.x) || HasRival(prepared', v.n, v.x)
    ensures VoteIsSound(v, held', prepared')
  {
    assert HasAtLeast(prepared, v.n, v.x);
  }

  lemma NewVotesAreSound(lo: nat, hi: nat, x: SlotValue, held: set<Ballot>, prepared: set<Ballot>)
    requires lo >= 1 && HasAtLeast(prepared, hi, x)
    requires forall q :: q in held && q.x != x ==> q.n < lo
    ensures forall v :: v in BallotRange(lo, hi, x) ==> VoteIsSound(v, held, prepared)
  {
    forall v | v in BallotRange(lo, hi, x)
      ensures VoteIsSound(v, held, prepared)
    {
      var q :| q in prepared && q.x == x && q.n >= hi;
      assert q.x == v.x && q.n >= v.n;
    }
  }

  /** A new ballot in hand goes against a vote only if that vote was aborted. */
  ghost predicate HoldingIsJustified(b: Option<Ballot>, h: History) {
    b.Some? ==>
      forall v :: v in h.votes && v.x != b.value.x && v.n <= b.value.n ==> HasRival(h.prepared, v.n, v.x)
  }

  /** Votes stay sound when the record grows by one step of the Prepare phase. */
  lemma RecordedVotesAreSound(h: History, s': State, accepted: set<Ballot>)
    requires VotesAreSound(h) && HoldingIsJustified(s'.b, h)
    requires s'.b.Some? && s'.cn != 0 ==>
      && HasAtLeast(h.prepared + accepted, s'.hn, s'.b.value.x)
      && forall q :: q in h.held + Singleton(s'.b) && q.x != s'.b.value.x ==> q.n < s'.cn
    ensures s'.phase == Prepare ==> VotesAreSound(Recorded(h, s', accepted))
  {
    var held', prepared' := h.held + Singleton(s'.b), h.prepared + accepted;
    if s'.b.Some? && s'.cn != 0 {
      NewVotesAreSound(s'.cn, s'.hn, s'.b.value.x, held', prepared');
    }
    forall v | v in h.votes
      ensures VoteIsSound(v, held', prepared')
    {
      assert VoteIsSound(v, h.held, h.prepared);
      if HasRival(held', v.n, v.x) && !HasRival(h.held, v.n, v.x) {
        assert HasRival(h.prepared, v.n, v.x);
      }
      VoteStaysSound(v, h.held, held', h.prepared, prepared');
    }
  }

  /** The common shape of every event that stays in the Prepare phase. */
  lemma PrepareStepKeepsInv(s: State, h: History, s': State, accepted: set<Ballot>)
    requires Inv(s, h) && s.phase == Prepare && s'.phase == Prepare
    requires s'.us !in s'.m && s.hn <= s'.hn
    requires Summarizes(s'.p, s'.pPrime, h.prepared + accepted)
    requires RemembersConfirmed(s'.b, s'.pPrime, s'.hn, s'.z, h.prepared + accepted)
    requires HoldsHighest(s'.b, h.held + Singleton(s'.b))
    requires VoteIsLive(s'.b, s'.p, s'.pPrime, s'.cn, s'.hn, s'.z, h.held + Singleton(s'.b))
    requires HoldingIsJustified(s'.b, h)
    ensures Inv(s', Recorded(h, s', accepted))
  {
    RecordedVotesAreSound(h, s', accepted);
  }

  /** The ballot in hand never contradicts an unaborted vote. */
  lemma HeldBallotIsJustified(s: State, h: History)
    requires Inv(s, h) && s.phase == Prepare
    ensures HoldingIsJustified(s.b, h)
    ensures h.held + Singleton(s.b) == h.held
  {
    if s.b.Some? {
      forall v | v in h.votes && v.x != s.b.value.x && v.n <= s.b.value.n
        ensures HasRival(h.prepared, v.n, v.x)
      {
        assert VoteIsSound(v, h.held, h.prepared);
      }
    }
  }

  /** Accepting a ballot either leaves the commit vote live or drops it. */
  lemma AcceptingKeepsVoteLive(s: State, n: nat, x: SlotValue, held: set<Ballot>)
    requires s.phase == Prepare && VoteIsLive(s.b, s.p, s.pPrime, s.cn, s.hn, s.z, held)
    ensures var s' := MaybeAcceptAsPrepared(s, n, x);
      && s' == s.(p := s'.p, pPrime := s'.pPrime, cn := s'.cn)
      && VoteIsLive(s'.b, s'.p, s'.pPrime, s'.cn, s'.hn, s'.z, held)
  {
  }

  lemma AcceptPreparedKeepsInv(s: State, h: History, n: nat, x: SlotValue)
    requires Inv(s, h) && s.phase == Prepare && n >= 1 && MayAcceptPrepared(s, n, x)
    ensures Inv(MaybeAcceptAsPrepared(s, n, x), Recorded(h, MaybeAcceptAsPrepared(s, n, x), {Ballot(n, x)}))
  {
    var s', prepared' := MaybeAcceptAsPrepared(s, n, x), h.prepared + {Ballot(n, x)};
    AcceptingSummarizes(s, h.prepared, Ballot(n, x));
    AcceptingKeepsVoteLive(s, n, x, h.held);
    HeldBallotIsJustified(s, h);
    if s.z.Some? {
      assert HasAtLeast(prepared', s.hn, s.z.value);
    }
    assert RemembersConfirmed(s'.b, s'.pPrime, s'.hn, s'.z, prepared');
    PrepareStepKeepsInv(s, h, s', {Ballot(n, x)});
  }

  /** The fatal check "we are voting to commit but must confirm a contradiction"
      cannot fire: confirming needs our own acceptance, which would have aborted the vote. */
  lemma NeverConfirmsContradiction(s: State, h: History, n: nat, x: SlotValue)
    requires Inv(s, h) && s.phase == Prepare && s.hn < n && MayConfirmPrepared(s, n, x)
    ensures s.cn > 0 ==> s.b.Some? && x == s.b.value.x
  {
    QuorumNeedsUs(s, PrepareAccepters(s, n, x));
  }

  lemma ConfirmPreparedKeepsInv(s: State, h: History, n: nat, x: SlotValue)
    requires Inv(s, h) && s.phase == Prepare && n >= 1
    ensures Inv(MaybeConfirmAsPrepared(s, n, x), Recorded(h, MaybeConfirmAsPrepared(s, n, x), {}))
  {
    var s' := MaybeConfirmAsPrepared(s, n, x);
    HeldBallotIsJustified(s, h);
    if s' != s {
      QuorumNeedsUs(s, PrepareAccepters(s, n, x));
      if s.hn < n {
        NeverConfirmsContradiction(s, h, n, x);
      }
    }
    assert h.prepared + {} == h.prepared;
    PrepareStepKeepsInv(s, h, s', {});
  }

  /** Whatever value comes next, a vote for another value has been aborted. */
  lemma NextValueIsJustified(s: State, h: History, c: Ballot)
    requires Inv(s, h) && s.phase == Prepare && (s.z.Some? ==> s.z.value == c.x)
    ensures HoldingIsJustified(Some(c), h)
  {
    forall v | v in h.votes && v.x != c.x
      ensures HasRival(h.prepared, v.n, v.x)
    {
      PairIsLosslessForAborts(s, h, v.n, v.x);
    }
  }

  lemma BumpKeepsInv(s: State, h: History, prediction: Option<SlotValue>)
    requires Inv(s, h) && s.phase == Prepare
    ensures Inv(GoToNextBallot(s, prediction), Recorded(h, GoToNextBallot(s, prediction), {}))
  {
    var s' := GoToNextBallot(s, prediction);
    HeldBallotIsJustified(s, h);
    if s' != s {
      NextValueIsJustified(s, h, s'.b.value);
    }
    assert h.prepared + {} == h.prepared;
    PrepareStepKeepsInv(s, h, s', {});
  }

  /** Outside the Prepare phase the record of the Prepare phase is frozen. */
  lemma LateStepKeepsInv(s: State, h: History, s': State)
    requires Inv(s, h) && s'.phase != Prepare
    requires LateShape(s, s')
    ensures Inv(s', Recorded(h, s', {}))
  {
  }

  /** The range [cn,hn] stays ordered whatever commits are accepted or confirmed. */
  lemma CommitStepShape(s: State, n: nat, x: SlotValue)
    requires s.cn <= s.hn && (s.phase != Prepare ==> s.b.Some?)
    ensures var s' := MaybeAcceptAsCommitted(s, n, x);
      s'.cn <= s'.hn && (s'.phase != Prepare ==> s'.b.Some?)
      && s' == s.(phase := s'.phase, b := s'.b, cn := s'.cn, hn := s'.hn, z := s'.z)
    ensures var s' := MaybeConfirmAsCommitted(s, n, x);
      s'.cn <= s'.hn && s' == s.(phase := s'.phase, cn := s'.cn, hn := s'.hn)
  {
  }

  lemma BumpShape(s: State, prediction: Option<SlotValue>)
    requires s.cn <= s.hn
    ensures var s' := GoToNextBallot(s, prediction);
      s'.cn <= s'.hn && (s.b.Some? ==> s'.b.Some?) && s' == s.(b := s'.b, cn := s'.cn)
  {
  }

  lemma RepeatShape(s: State, from: Node, prediction: Option<SlotValue>)
    requires s.cn <= s.hn
    ensures var s' := CountStale(s, from, prediction);
      s'.cn <= s'.hn && (s.b.Some? ==> s'.b.Some?) && s' == s.(b := s'.b, cn := s'.cn, stale := s'.stale)
  {
    BumpShape(s.(stale := map[]), prediction);
  }

  /** A late state is well formed: the checks made outside the Prepare phase hold. */
  ghost predicate LateShape(s: State, s': State) {
    s'.us !in s'.m && s'.p == s.p && s'.pPrime == s.pPrime && s'.b.Some? && s'.cn <= s'.hn
  }

  lemma LateStepShape(s: State, h: History, e: Event)
    requires Inv(s, h) && Sensible(s.us, e) && Step(s, e).phase != Prepare
    ensures LateShape(s, Step(s, e))
  {
    assert s.cn <= s.hn;
    match e
    case TryAcceptPrepared(n, x) =>
    case TryConfirmPrepared(n, x) =>
    case TryAcceptCommitted(n, x) => CommitStepShape(s, n, x);
    case TryConfirmCommitted(n, x) => CommitStepShape(s, n, x);
    case NextBallot(prediction) => BumpShape(s, prediction);
    case Receive(from, message) =>
    case Repeat(from, prediction) => RepeatShape(s, from, prediction);
  }

  /** Messages and repeat counts are not part of the invariant. */
  lemma IdleStepKeepsInv(s: State, h: History, s': State)
    requires Inv(s, h) && s.phase == Prepare && s'.us !in s'.m
    requires s' == s.(m := s'.m, stale := s'.stale)
    ensures Inv(s', Recorded(h, s', {}))
  {
    HeldBallotIsJustified(s, h);
    assert h.prepared + {} == h.prepared;
    PrepareStepKeepsInv(s, h, s', {});
  }

  lemma RepeatKeepsInv(s: State, h: History, from: Node, prediction: Option<SlotValue>)
    requires Inv(s, h) && from != s.us && s.phase == Prepare
    ensures Inv(CountStale(s, from, prediction), Recorded(h, CountStale(s, from, prediction), {}))
  {
    var s' := CountStale(s, from, prediction);
    if s' == s.(m := s'.m, stale := s'.stale) {
      IdleStepKeepsInv(s, h, s');
    } else {
      BumpKeepsInv(s.(stale := map[]), h, prediction);
    }
  }

  /** The core balloting invariant is kept by every event. */
  lemma StepKeepsInv(s: State, h: History, e: Event)
    requires Inv(s, h) && Sensible(s.us, e)
    ensures Inv(Step(s, e), Record(h, s, e))
  {
    if NewlyPrepared(s, e) {
      AcceptPreparedKeepsInv(s, h, e.n, e.x);
    } else if Step(s, e).phase != Prepare {
      LateStepShape(s, h, e);
      LateStepKeepsInv(s, h, Step(s, e));
    } else {
      PlainStepKeepsInv(s, h, e);
    }
  }

  lemma PlainStepKeepsInv(s: State, h: History, e: Event)
    requires Inv(s, h) && Sensible(s.us, e) && !NewlyPrepared(s, e) && Step(s, e).phase == Prepare
    ensures Inv(Step(s, e), Recorded(h, Step(s, e), {}))
  {
    assert s.us !in s.m;
    PhaseIsKept(s, e);
    hide Inv, Recorded, MaybeConfirmAsPrepared, GoToNextBallot, CountStale;
    match e
    case TryAcceptPrepared(_, _) => IdleStepKeepsInv(s, h, Step(s, e));
    case TryConfirmPrepared(n, x) => ConfirmPreparedKeepsInv(s, h, n, x);
    case TryAcceptCommitted(_, _) => IdleStepKeepsInv(s, h, Step(s, e));
    case TryConfirmCommitted(_, _) => IdleStepKeepsInv(s, h, Step(s, e));
    case NextBallot(prediction) => BumpKeepsInv(s, h, prediction);
    case Receive(_, _) => IdleStepKeepsInv(s, h, Step(s, e));
    case Repeat(from, prediction) => RepeatKeepsInv(s, h, from, prediction);
  }

  /** Nothing returns to the Prepare phase, and no node hears from itself. */
  lemma PhaseIsKept(s: State, e: Event)
    requires Step(s, e).phase == Prepare
    ensures s.phase == Prepare
    ensures e.TryAcceptCommitted? || e.TryConfirmCommitted? ==> Step(s, e) == s
    ensures e.TryAcceptPrepared? && !NewlyPrepared(s, e) ==> Step(s, e) == s
  {
    hide HasQuorum, Blocks;
  }
}
