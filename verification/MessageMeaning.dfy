/** A message says exactly what its sender holds, and the range it makes a receiver examine
    holds a ballot for everything it says (consensus/ballot_message.go). */
module MessageMeaning {
  import opened Ranges
  import opened BallotMessages
  import opened Balloting
  import opened BallotHistory
  import opened Investigation
  import opened BallotRuns

  // ------------------------------------------------------- what a message says

  /** A Prepare message says exactly what its sender has accepted as prepared, votes to
      prepare, votes to commit and could still come to vote for. */
  lemma PrepareMessageSays(s: State, h: History, slot: nat, n: nat, x: SlotValue)
    requires Inv(s, h) && s.phase == Prepare && s.b.Some? && n >= 1
    ensures var m := Advertise(s, slot);
      && (AcceptsPrepared(m, n, x) <==> GteCompat(s.p, Ballot(n, x)) || GteCompat(s.pPrime, Ballot(n, x)))
      && (VotesPrepare(m, n, x) <==> s.b.value.x == x && s.b.value.n >= n)
      && (VotesCommit(m, n, x) <==> s.b.value.x == x && s.cn != 0 && s.cn <= n <= s.hn)
      && (CouldEverVoteFor(m, n, x) <==> s.b.value.n < n || s.b.value == Ballot(n, x))
      && !AcceptsCommitted(m, n, x) && BallotNumber(m) == s.b.value.n
  {
  }

  /** The same in terms of the sender's whole past: it says a ballot is prepared exactly when
      the sender has accepted it, unless two higher conflicting ones are. */
  lemma PrepareMessageSaysThePast(s: State, h: History, slot: nat, n: nat, x: SlotValue)
    requires Inv(s, h) && s.phase == Prepare && s.b.Some? && n >= 1
    ensures AcceptsPrepared(Advertise(s, slot), n, x) ==> HasAtLeast(h.prepared, n, x)
    ensures HasAtLeast(h.prepared, n, x) ==>
              || AcceptsPrepared(Advertise(s, slot), n, x)
              || (s.pPrime.Some? && s.pPrime.value.n >= n && s.p.value.x != x && s.pPrime.value.x != x)
  {
    PrepareMessageSays(s, h, slot, n, x);
    hide AcceptsPrepared, Advertise;
  }

  /** A Confirm message says that every ballot of its value is prepared and the ones in its
      range are committed. */
  lemma ConfirmMessageSays(s: State, slot: nat, n: nat, x: SlotValue)
    requires s.phase == Confirm && s.b.Some?
    ensures var m, same := Advertise(s, slot), x == s.b.value.x;
      && (AcceptsPrepared(m, n, x) <==> same) && (VotesCommit(m, n, x) <==> same)
      && (CouldEverVoteFor(m, n, x) <==> same)
      && (AcceptsCommitted(m, n, x) <==> same && s.cn <= n <= s.hn)
      && !VotesPrepare(m, n, x) && BallotNumber(m) == s.hn
  {
  }

  /** An Externalize message says the same of every ballot from cn on. */
  lemma ExternalizeMessageSays(s: State, slot: nat, n: nat, x: SlotValue)
    requires s.phase == Externalize && s.b.Some?
    ensures var m, same := Advertise(s, slot), x == s.b.value.x;
      && (AcceptsPrepared(m, n, x) <==> same) && (CouldEverVoteFor(m, n, x) <==> same)
      && (AcceptsCommitted(m, n, x) <==> same && s.cn <= n)
      && !VotesCommit(m, n, x) && !VotesPrepare(m, n, x) && BallotNumber(m) == s.hn
  {
  }

  /** A sender in the Prepare phase that could not vote for a ballot never holds it later. */
  lemma RuledOutIsNeverHeld(s: State, h: History, events: seq<Event>, slot: nat, n: nat, x: SlotValue)
    requires Inv(s, h) && AllSensible(s.us, events) && s.phase == Prepare && s.b.Some? && n >= 1
    requires !CouldEverVoteFor(Advertise(s, slot), n, x) && Play(s, events).phase == Prepare
    ensures Play(s, events).b.Some? && Play(s, events).b.value != Ballot(n, x)
  {
    PrepareMessageSays(s, h, slot, n, x);
    RunKeepsInv(s, h, events);
    RunKeepsHeld(s, h, events);
    hide Play, Remember, Advertise, CouldEverVoteFor;
    assert s.b.value in Remember(s, h, events).held;
  }

  // ------------------------------------------------ the range a message is about

  /** Numbers count from 1, so a message past the Prepare phase is about some ballot. */
  predicate Sane(m: Message) {
    match m
    case PrepareMessage(_, _, _, _, _, _, _, _, _, _) => true
    case ConfirmMessage(_, _, pn, cn, hn, _) => pn >= 1 || cn >= 1 || hn >= 1
    case ExternalizeMessage(_, _, cn, hn, _) => cn >= 1 || hn >= 1
  }

  lemma HullHas(numbers: seq<nat>, n: nat)
    requires n in numbers && n >= 1
    ensures Hull(numbers).Has(n)
  {
    assert Tight(numbers, Hull(numbers));
  }

  /** The range of a value holds every number that a message attaches to it. */
  lemma RangeHasNumbers(m: Message, x: SlotValue, n: nat)
    requires n >= 1
    requires match m
      case PrepareMessage(_, bn, bx, pn, px, ppn, ppx, cn, hn, _) =>
        (bx == x && n in [bn, cn, hn]) || (px == x && n == pn) || (ppx == x && n == ppn)
      case ConfirmMessage(_, mx, pn, cn, hn, _) => mx == x && n in [pn, cn, hn]
      case ExternalizeMessage(_, mx, cn, hn, _) => mx == x && n in [cn, hn]
    ensures RelevantRange(m, x).Has(n)
  {
    hide Hull;
    match m
    case PrepareMessage(_, bn, bx, pn, px, ppn, ppx, cn, hn, _) =>
      if bx == x && n in [bn, cn, hn] {
        HullHas([bn, cn, hn], n);
      }
    case ConfirmMessage(_, _, pn, cn, hn, _) => HullHas([pn, cn, hn], n);
    case ExternalizeMessage(_, _, cn, hn, _) => HullHas([cn, hn], n);
  }

  /** Whatever a message says about this ballot, the range of its value holds a ballot of
      which it says the same. */
  ghost predicate RangeShares(m: Message, n: nat, x: SlotValue) {
    var r := RelevantRange(m, x);
    && (AcceptsPrepared(m, n, x) ==> exists k: nat :: r.Has(k) && AcceptsPrepared(m, k, x))
    && (VotesPrepare(m, n, x) ==> exists k: nat :: r.Has(k) && VotesPrepare(m, k, x))
    && (AcceptsCommitted(m, n, x) ==> exists k: nat :: r.Has(k) && AcceptsCommitted(m, k, x))
    && (VotesCommit(m, n, x) ==> exists k: nat :: r.Has(k) && VotesCommit(m, k, x))
  }

  /** The range misses nothing the message says, if and only if the message is sane. */
  lemma RangeSharesIff(m: Message)
    ensures Sane(m) <==> forall n: nat, x :: n >= 1 ==> RangeShares(m, n, x)
  {
    if Sane(m) {
      forall n: nat, x | n >= 1
        ensures RangeShares(m, n, x)
      {
        if m.PrepareMessage? {
          PrepareRangeShares(m, n, x);
        } else {
          LateRangeShares(m, n, x);
        }
      }
    } else {
      assert !RangeShares(m, 1, m.x);
    }
  }

  lemma PrepareRangeShares(m: Message, n: nat, x: SlotValue)
    requires m.PrepareMessage? && n >= 1
    ensures RangeShares(m, n, x)
  {
    hide RelevantRange;
    if AcceptsPrepared(m, n, x) {
      var k := if m.px == x then m.pn else m.ppn;
      RangeHasNumbers(m, x, k);
      assert AcceptsPrepared(m, k, x);
    }
    if VotesPrepare(m, n, x) {
      RangeHasNumbers(m, x, m.bn);
      assert VotesPrepare(m, m.bn, x);
    }
    if VotesCommit(m, n, x) {
      RangeHasNumbers(m, x, m.hn);
      assert VotesCommit(m, m.hn, x);
    }
  }

  lemma LateRangeShares(m: Message, n: nat, x: SlotValue)
    requires !m.PrepareMessage? && Sane(m) && n >= 1
    ensures RangeShares(m, n, x)
  {
    hide RelevantRange;
    if m.x == x {
      var k := if m.cn > m.hn then m.cn else if m.hn >= 1 then m.hn else m.pn;
      RangeHasNumbers(m, x, k);
      assert AcceptsPrepared(m, k, x);
      assert AcceptsCommitted(m, n, x) ==> AcceptsCommitted(m, k, x);
      assert VotesCommit(m, n, x) ==> VotesCommit(m, k, x);
    }
  }

  // -------------------------------------------------- correct senders are sane

  lemma StepStaysSane(s: State, e: Event)
    requires Sensible(s.us, e) && (s.phase != Prepare ==> s.hn >= 1)
    ensures Step(s, e).phase != Prepare ==> Step(s, e).hn >= 1
  {
    hide MayAcceptPrepared, MayConfirmPrepared, MayAcceptCommitted, MayConfirmCommitted, StaleQuorum, AcceptedAbort;
  }

  /** What a node sends is sane, over every run. */
  lemma {:induction false} SendersAreSane(s: State, events: seq<Event>, slot: nat)
    requires AllSensible(s.us, events) && (s.phase != Prepare ==> s.hn >= 1)
    ensures var s' := Play(s, events);
      (s'.phase != Prepare ==> s'.hn >= 1) && (s'.b.Some? ==> Sane(Advertise(s', slot)))
    decreases |events|
  {
    if events != [] {
      hide Step, Advertise;
      StepStaysSane(s, events[0]);
      StepKeepsUs(s, events[0]);
      SendersAreSane(Step(s, events[0]), events[1..], slot);
    }
  }
}
