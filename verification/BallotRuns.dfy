/** What holds of one node over whole runs, whatever its peers send. */
module BallotRuns {
  import opened Quorum
  import opened BallotMessages
  import opened Balloting
  import opened BallotHistory
  import opened Investigation

  /** The record after a list of events. */
  ghost function Remember(s: State, h: History, events: seq<Event>): History
    decreases |events|
  {
    if events == [] then h
    else Remember(Step(s, events[0]), Record(h, s, events[0]), events[1..])
  }

  lemma StepKeepsUs(s: State, e: Event)
    ensures Step(s, e).us == s.us
  {
  }

  lemma {:induction false} RunKeepsInv(s: State, h: History, events: seq<Event>)
    requires Inv(s, h) && AllSensible(s.us, events)
    ensures Inv(Play(s, events), Remember(s, h, events)) && Play(s, events).us == s.us
    decreases |events|
  {
    if events != [] {
      hide Inv, Step, Record;
      StepKeepsInv(s, h, events[0]);
      StepKeepsUs(s, events[0]);
      RunKeepsInv(Step(s, events[0]), Record(h, s, events[0]), events[1..]);
    }
  }

  lemma {:induction false} RememberConcat(s: State, h: History, a: seq<Event>, b: seq<Event>)
    ensures Remember(s, h, a + b) == Remember(Play(s, a), Remember(s, h, a), b)
    decreases |a|
  {
    hide Step, Record;
    if a == [] {
      assert a + b == b;
    } else {
      RememberConcat(Step(s, a[0]), Record(h, s, a[0]), a[1..], b);
      assert (a + b)[1..] == a[1..] + b;
    }
  }

  lemma RecordKeepsHeld(h: History, s: State, e: Event)
    ensures h.held <= Record(h, s, e).held
  {
    hide Step;
  }

  lemma {:induction false} RunKeepsHeld(s: State, h: History, events: seq<Event>)
    ensures h.held <= Remember(s, h, events).held
    decreases |events|
  {
    if events != [] {
      hide Step, Record;
      RecordKeepsHeld(h, s, events[0]);
      RunKeepsHeld(Step(s, events[0]), Record(h, s, events[0]), events[1..]);
    }
  }

  /** What the fatal checks of balloting ask of a state. */
  ghost predicate Checks(s: State) {
    && s.cn <= s.hn
    && (s.p.Some? && s.pPrime.Some? ==> s.p.value.x != s.pPrime.value.x && s.p.value.n >= s.pPrime.value.n)
    && (s.phase == Prepare && s.b.Some? && s.cn != 0 ==>
          && !GteIncompat(s.p, Ballot(s.hn, s.b.value.x))
          && !GteIncompat(s.pPrime, Ballot(s.hn, s.b.value.x)))
  }

  lemma InvImpliesChecks(s: State, h: History)
    requires Inv(s, h)
    ensures Checks(s)
  {
  }

  /** No fatal check of balloting can fail, over every run and every behaviour of the
      peers: the checks on cn, hn, p, p' hold, b never moves to another value without
      moving up, and confirming never contradicts a live commit vote. */
  lemma FatalChecksNeverFail(us: Node, d: QuorumSlice, before: seq<Event>, after: seq<Event>, n: nat, x: SlotValue)
    requires AllSensible(us, before + after)
    ensures Checks(Play(Initial(us, d), before + after))
    ensures var s, s' := Play(Initial(us, d), before), Play(Initial(us, d), before + after);
      s.phase == Prepare && s'.phase == Prepare && s.b.Some? ==>
        s'.b.Some? && s.b.value.n <= s'.b.value.n && (s.b.value.x != s'.b.value.x ==> s.b.value.n < s'.b.value.n)
    ensures var s' := Play(Initial(us, d), before + after);
      s'.phase == Prepare && s'.cn > 0 && s'.hn < n && MayConfirmPrepared(s', n, x) ==> s'.b.Some? && x == s'.b.value.x
  {
    hide Inv, Step, Record, Checks, MayConfirmPrepared;
    var start := Initial(us, d);
    var s, s' := Play(start, before), Play(start, before + after);
    var h, h' := Remember(start, NoHistory, before), Remember(start, NoHistory, before + after);
    InitialInv(us, d);
    SplitSensible(us, before, after);
    RunKeepsInv(start, NoHistory, before);
    RunKeepsInv(start, NoHistory, before + after);
    InvImpliesChecks(s', h');
    PlayConcat(start, before, after);
    RememberConcat(start, NoHistory, before, after);
    RunKeepsHeld(s, h, after);
    HeldBallotsAreBelow(s, h, s', h');
    if s'.phase == Prepare && s'.hn < n && MayConfirmPrepared(s', n, x) {
      NeverConfirmsContradiction(s', h', n, x);
    }
  }

  lemma SplitSensible(us: Node, a: seq<Event>, b: seq<Event>)
    requires AllSensible(us, a + b)
    ensures AllSensible(us, a) && AllSensible(us, b)
  {
    assert forall i :: 0 <= i < |a| ==> a[i] == (a + b)[i];
    assert forall i :: 0 <= i < |b| ==> b[i] == (a + b)[|a| + i];
  }

  lemma HeldBallotsAreBelow(s: State, h: History, s': State, h': History)
    requires Inv(s, h) && Inv(s', h') && h.held <= h'.held
    ensures s.phase == Prepare && s'.phase == Prepare && s.b.Some? ==>
      s'.b.Some? && s.b.value.n <= s'.b.value.n && (s.b.value.x != s'.b.value.x ==> s.b.value.n < s'.b.value.n)
    ensures s.phase == Prepare && s'.phase == Prepare && s.b.Some? && s'.cn != 0 && s.b.value.x != s'.b.value.x ==>
      s.b.value.n < s'.cn
  {
  }

  /** A node in the Prepare phase that votes to commit [cn,hn] of b.x keeps b.x as its
      next value, only ever held lower ballots of other values, has accepted (hn,b.x)
      as prepared and has not accepted its abort. */
  lemma NeverVotesAgainstItself(us: Node, d: QuorumSlice, before: seq<Event>, after: seq<Event>)
    requires AllSensible(us, before + after)
    ensures var s, s' := Play(Initial(us, d), before), Play(Initial(us, d), before + after);
      s'.phase == Prepare && s'.cn != 0 ==>
        && s'.b.Some? && s'.z == Some(s'.b.value.x)
        && (s.phase == Prepare && s.b.Some? && s.b.value.x != s'.b.value.x ==> s.b.value.n < s'.cn)
        && HasAtLeast(Remember(Initial(us, d), NoHistory, before + after).prepared, s'.hn, s'.b.value.x)
        && !HasRival(Remember(Initial(us, d), NoHistory, before + after).prepared, s'.hn, s'.b.value.x)
  {
    hide Inv, Step, Record, HasAtLeast, HasRival;
    var start := Initial(us, d);
    var s, s' := Play(start, before), Play(start, before + after);
    var h, h' := Remember(start, NoHistory, before), Remember(start, NoHistory, before + after);
    InitialInv(us, d);
    SplitSensible(us, before, after);
    RunKeepsInv(start, NoHistory, before);
    RunKeepsInv(start, NoHistory, before + after);
    PlayConcat(start, before, after);
    RememberConcat(start, NoHistory, before, after);
    RunKeepsHeld(s, h, after);
    LiveVoteIsPrepared(s', h');
    HeldBallotsAreBelow(s, h, s', h');
  }

  lemma LiveVoteIsPrepared(s: State, h: History)
    requires Inv(s, h)
    ensures s.phase == Prepare && s.cn != 0 ==>
      && s.b.Some? && s.z == Some(s.b.value.x)
      && HasAtLeast(h.prepared, s.hn, s.b.value.x)
      && !HasRival(h.prepared, s.hn, s.b.value.x)
  {
    if s.phase == Prepare && s.cn != 0 {
      PairIsLosslessForAborts(s, h, s.hn, s.b.value.x);
    }
  }

  /** Over every run in the Prepare phase, the two ballots p and p' answer every abort
      question exactly as the set of all ballots ever acceptable as prepared does. */
  lemma PairIsLosslessOverRuns(us: Node, d: QuorumSlice, events: seq<Event>, n: nat, x: SlotValue)
    requires AllSensible(us, events) && Play(Initial(us, d), events).phase == Prepare
    ensures AcceptedAbort(Play(Initial(us, d), events), n, x) <==>
            HasRival(Remember(Initial(us, d), NoHistory, events).prepared, n, x)
  {
    hide Inv, Step, Record;
    InitialInv(us, d);
    RunKeepsInv(Initial(us, d), NoHistory, events);
    PairIsLosslessForAborts(Play(Initial(us, d), events), Remember(Initial(us, d), NoHistory, events), n, x);
  }

  // ------------------------------------------------------- successive messages

  /** The second message is newer, or they are the same. */
  ghost predicate MovesUp(m1: Message, m2: Message) {
    Compare(m1, m2) < 0 || m1 == m2
  }

  /** Accepting a ballot raises p, or keeps p's number and raises p'. */
  lemma PairMovesUp(s: State, prepared: set<Ballot>, ballot: Ballot)
    requires Summarizes(s.p, s.pPrime, prepared) && ballot.n >= 1 && !PreparedIsOld(s, ballot.n, ballot.x)
    ensures var s' := AcceptPrepared(s, ballot);
      NumberOf(s.p) < NumberOf(s'.p) || (NumberOf(s.p) == NumberOf(s'.p) && NumberOf(s.pPrime) < NumberOf(s'.pPrime))
  {
  }

  lemma AcceptingMovesUp(s: State, h: History, n: nat, x: SlotValue, slot: nat)
    requires Inv(s, h) && s.phase == Prepare && s.b.Some? && n >= 1
    ensures var s' := MaybeAcceptAsPrepared(s, n, x);
      s'.phase == Prepare && s'.b.Some? && MovesUp(Advertise(s, slot), Advertise(s', slot))
  {
    if !PreparedIsOld(s, n, x) {
      PairMovesUp(s, h.prepared, Ballot(n, x));
    }
    var accepted := AcceptPrepared(s, Ballot(n, x));
    assert accepted == s.(p := accepted.p, pPrime := accepted.pPrime);
    hide MayAcceptPrepared, PreparedIsOld, AcceptPrepared, AcceptedAbort, Inv;
  }

  /** Two equally high ballots are confirmed only after the commit vote was dropped. */
  lemma TieHasNoVote(s: State, h: History, n: nat, x: SlotValue)
    requires Inv(s, h) && s.phase == Prepare && s.hn == n && n >= 1 && s.z.Some? && s.z.value != x
    requires MayConfirmPrepared(s, n, x)
    ensures s.cn == 0
  {
    QuorumNeedsUs(s, PrepareAccepters(s, n, x));
  }

  lemma ConfirmingMovesUp(s: State, h: History, n: nat, x: SlotValue, slot: nat)
    requires Inv(s, h) && s.phase == Prepare && s.b.Some? && n >= 1
    ensures var s' := MaybeConfirmAsPrepared(s, n, x);
      s'.phase == Prepare && s'.b.Some? && MovesUp(Advertise(s, slot), Advertise(s', slot))
  {
    if s.hn == n && s.z.Some? && s.z.value != x && MayConfirmPrepared(s, n, x) {
      TieHasNoVote(s, h, n, x);
    }
    hide MayConfirmPrepared;
  }

  lemma BumpMovesUp(s: State, prediction: Option<SlotValue>, slot: nat)
    requires s.phase == Prepare && s.b.Some?
    ensures var s' := GoToNextBallot(s, prediction);
      s'.phase == Prepare && s'.b.Some? && MovesUp(Advertise(s, slot), Advertise(s', slot))
  {
  }

  lemma RepeatMovesUp(s: State, from: Node, prediction: Option<SlotValue>, slot: nat)
    requires s.phase == Prepare && s.b.Some?
    ensures var s' := CountStale(s, from, prediction);
      s'.phase == Prepare && s'.b.Some? && MovesUp(Advertise(s, slot), Advertise(s', slot))
  {
    BumpMovesUp(s.(stale := map[]), prediction, slot);
    hide StaleQuorum, Blocks, GoToNextBallot;
  }

  ghost predicate MessageMovesUp(s: State, s': State, slot: nat) {
    && s.b.Some? && s'.b.Some?
    && PhaseRank(s.phase) <= PhaseRank(s'.phase)
    && (s'.phase == Prepare ==> MovesUp(Advertise(s, slot), Advertise(s', slot)))
  }

  lemma LateStepsStayLate(s: State, e: Event)
    requires s.b.Some?
    ensures Step(s, e).b.Some? && PhaseRank(s.phase) <= PhaseRank(Step(s, e).phase)
  {
    hide HasQuorum, Blocks;
  }

  lemma StepMovesUp(s: State, h: History, e: Event, slot: nat)
    requires Inv(s, h) && Sensible(s.us, e) && s.b.Some?
    ensures MessageMovesUp(s, Step(s, e), slot)
  {
    LateStepsStayLate(s, e);
    if s.phase == Prepare {
      match e
      case TryAcceptPrepared(n, x) => AcceptingMovesUp(s, h, n, x, slot);
      case TryConfirmPrepared(n, x) => ConfirmingMovesUp(s, h, n, x, slot);
      case NextBallot(prediction) => BumpMovesUp(s, prediction, slot);
      case Repeat(from, prediction) => RepeatMovesUp(s, from, prediction, slot);
      case _ =>
    }
    hide MaybeAcceptAsPrepared, MaybeConfirmAsPrepared, GoToNextBallot, CountStale, MayAcceptCommitted,
         MayConfirmCommitted, Inv;
  }

  lemma MovesUpTransitively(m1: Message, m2: Message, m3: Message)
    requires MovesUp(m1, m2) && MovesUp(m2, m3)
    ensures MovesUp(m1, m3)
  {
    CompareIsTotalPreorder(m1, m2, m3);
  }

  /** The phases of a node's messages never go back, and a later phase compares as newer. In
      the Prepare phase a later message that differs from an earlier one is newer, so a
      receiver holding the earlier one never drops it. */
  lemma {:induction false} MessagesOnlyMoveUp(s: State, h: History, events: seq<Event>, slot: nat)
    requires Inv(s, h) && AllSensible(s.us, events) && s.b.Some?
    ensures MessageMovesUp(s, Play(s, events), slot)
    ensures s.phase != Play(s, events).phase ==>
      Compare(Advertise(s, slot), Advertise(Play(s, events), slot)) < 0
    decreases |events|
  {
    if events != [] {
      hide Inv, Step, Record, MovesUp, Advertise;
      var s' := Step(s, events[0]);
      StepMovesUp(s, h, events[0], slot);
      StepKeepsInv(s, h, events[0]);
      StepKeepsUs(s, events[0]);
      MessagesOnlyMoveUp(s', Record(h, s, events[0]), events[1..], slot);
      if Play(s, events).phase == Prepare {
        MovesUpTransitively(Advertise(s, slot), Advertise(s', slot), Advertise(Play(s, events), slot));
      }
    }
    LaterPhaseIsNewer(s, Play(s, events), slot);
  }

  lemma LaterPhaseIsNewer(s: State, s': State, slot: nat)
    requires s.b.Some? && s'.b.Some?
    ensures PhaseRank(s.phase) < PhaseRank(s'.phase) ==> Compare(Advertise(s, slot), Advertise(s', slot)) < 0
    ensures PhaseRank(s.phase) <= PhaseRank(s'.phase) && s.phase != s'.phase ==>
              PhaseRank(s.phase) < PhaseRank(s'.phase)
  {
  }

  // ------------------------------------- messages after Prepare: exactly when newer

  /** This event changes the message without making it newer: it accepts a commit below the
      accepted range, it takes another value, or it starts a range that was still open. */
  ghost predicate Unnoticed(s: State, e: Event) {
    s.phase != Prepare && s.b.Some? &&
    ( || (s.phase == Confirm && e.TryAcceptCommitted? && e.n < s.cn && MayAcceptCommitted(s, e.n, e.x))
      || (GivesUp(s, e) && NextValue(s, e.prediction).Some? &&
          (NextValue(s, e.prediction).value != s.b.value.x || (s.cn == 0 && s.hn > s.b.value.n))))
  }

  lemma LateCommitMovesUpIff(s: State, n: nat, x: SlotValue, slot: nat)
    requires s.phase == Confirm && s.b.Some? && s.cn <= s.hn
    ensures Step(s, TryAcceptCommitted(n, x)).b.Some?
    ensures MovesUp(Advertise(s, slot), Advertise(Step(s, TryAcceptCommitted(n, x)), slot)) <==>
            !Unnoticed(s, TryAcceptCommitted(n, x))
  {
    hide MayAcceptCommitted;
  }

  /** After externalizing, a quorum of acceptances is never found again. */
  lemma ExternalizedIsNotConfirmedAgain(s: State, n: nat, x: SlotValue)
    requires s.phase == Externalize && s.us !in s.m
    ensures Step(s, TryConfirmCommitted(n, x)) == s
  {
    if MayConfirmCommitted(s, n, x) {
      QuorumNeedsUs(s, CommitAccepters(s, n, x));
    }
    hide MayConfirmCommitted;
  }

  lemma LateBumpMovesUpIff(s: State, prediction: Option<SlotValue>, slot: nat)
    requires s.phase != Prepare && s.b.Some?
    ensures GoToNextBallot(s, prediction).b.Some?
    ensures MovesUp(Advertise(s, slot), Advertise(GoToNextBallot(s, prediction), slot)) <==>
            !Unnoticed(s, NextBallot(prediction))
  {
  }

  lemma LateRepeatMovesUpIff(s: State, from: Node, prediction: Option<SlotValue>, slot: nat)
    requires s.phase != Prepare && s.b.Some?
    ensures Step(s, Repeat(from, prediction)).b.Some?
    ensures MovesUp(Advertise(s, slot), Advertise(Step(s, Repeat(from, prediction)), slot)) <==>
            !Unnoticed(s, Repeat(from, prediction))
  {
    LateBumpMovesUpIff(s, prediction, slot);
    LateBumpMovesUpIff(s.(stale := map[]), prediction, slot);
    hide StaleQuorum, Blocks;
  }

  /** Exactly when an event leaves the message as it is or makes it newer, in any phase. */
  lemma StepMovesUpIff(s: State, h: History, e: Event, slot: nat)
    requires Inv(s, h) && Sensible(s.us, e) && s.b.Some?
    ensures Step(s, e).b.Some?
    ensures MovesUp(Advertise(s, slot), Advertise(Step(s, e), slot)) <==> !Unnoticed(s, e)
  {
    LateStepsStayLate(s, e);
    if s.phase == Prepare {
      StepMovesUp(s, h, e, slot);
      LaterPhaseIsNewer(s, Step(s, e), slot);
    } else {
      match e
      case TryAcceptCommitted(n, x) => if s.phase == Confirm { LateCommitMovesUpIff(s, n, x, slot); }
      case TryConfirmCommitted(n, x) =>
        if s.phase == Externalize { ExternalizedIsNotConfirmedAgain(s, n, x); }
      case NextBallot(prediction) => LateBumpMovesUpIff(s, prediction, slot);
      case Repeat(from, prediction) => LateRepeatMovesUpIff(s, from, prediction, slot);
      case _ =>
    }
    hide Inv, GoToNextBallot, CountStale, MayAcceptCommitted, MayConfirmCommitted;
  }

  /** No event of the run changes the message without making it newer. */
  ghost predicate NoneUnnoticed(s: State, events: seq<Event>)
    decreases |events|
  {
    events == [] || (!Unnoticed(s, events[0]) && NoneUnnoticed(Step(s, events[0]), events[1..]))
  }

  ghost predicate NewerOrSame(s: State, s': State, slot: nat) {
    s.b.Some? && s'.b.Some? && MovesUp(Advertise(s, slot), Advertise(s', slot))
  }

  /** Of any two messages of the run the later one is newer, or they are the same. */
  ghost predicate AllMoveUp(s: State, events: seq<Event>, slot: nat) {
    forall i, j :: 0 <= i <= j <= |events| ==> NewerOrSame(Play(s, events[..i]), Play(s, events[..j]), slot)
  }

  lemma PlayShift(s: State, events: seq<Event>, i: nat)
    requires 1 <= i <= |events|
    ensures Play(s, events[..i]) == Play(Step(s, events[0]), events[1..][..i - 1])
  {
    hide Step;
    assert events[..i][0] == events[0] && events[..i][1..] == events[1..][..i - 1];
  }

  /** A run moves up if its first step does and the rest does. */
  lemma AllMoveUpStep(s: State, events: seq<Event>, slot: nat)
    requires events != [] && s.b.Some?
    ensures AllMoveUp(s, events, slot) <==>
            NewerOrSame(s, Step(s, events[0]), slot) && AllMoveUp(Step(s, events[0]), events[1..], slot)
  {
    hide Step, NewerOrSame;
    var s', rest := Step(s, events[0]), events[1..];
    assert Play(s, events[..0]) == s && Play(s', rest[..0]) == s';
    PlayShift(s, events, 1);
    if AllMoveUp(s, events, slot) {
      assert NewerOrSame(Play(s, events[..0]), Play(s, events[..1]), slot);
      forall i, j | 0 <= i <= j <= |rest| ensures NewerOrSame(Play(s', rest[..i]), Play(s', rest[..j]), slot) {
        PlayShift(s, events, i + 1);
        PlayShift(s, events, j + 1);
        assert NewerOrSame(Play(s, events[..i + 1]), Play(s, events[..j + 1]), slot);
      }
    }
    if NewerOrSame(s, s', slot) && AllMoveUp(s', rest, slot) {
      forall i, j | 0 <= i <= j <= |events| ensures NewerOrSame(Play(s, events[..i]), Play(s, events[..j]), slot) {
        MoveUpFrom(s, events, i, j, slot);
      }
    }
  }

  lemma MoveUpFrom(s: State, events: seq<Event>, i: nat, j: nat, slot: nat)
    requires events != [] && s.b.Some? && i <= j <= |events|
    requires NewerOrSame(s, Step(s, events[0]), slot) && AllMoveUp(Step(s, events[0]), events[1..], slot)
    ensures NewerOrSame(Play(s, events[..i]), Play(s, events[..j]), slot)
  {
    hide Step, Advertise, Compare;
    var s', rest := Step(s, events[0]), events[1..];
    assert events[..0] == [] && rest[..0] == [];
    if i > 0 {
      PlayShift(s, events, i);
      PlayShift(s, events, j);
      assert NewerOrSame(Play(s', rest[..i - 1]), Play(s', rest[..j - 1]), slot);
    } else if j > 0 {
      PlayShift(s, events, j);
      assert NewerOrSame(Play(s', rest[..0]), Play(s', rest[..j - 1]), slot);
      MovesUpTransitively(Advertise(s, slot), Advertise(s', slot), Advertise(Play(s, events[..j]), slot));
    }
  }

  /** Over every run and in all phases: later messages are newer or the same, exactly when
      no event went unnoticed. */
  lemma {:induction false} RunMovesUpIff(s: State, h: History, events: seq<Event>, slot: nat)
    requires Inv(s, h) && AllSensible(s.us, events) && s.b.Some?
    ensures AllMoveUp(s, events, slot) <==> NoneUnnoticed(s, events)
    decreases |events|
  {
    hide Inv, Step, Record, Unnoticed, AllMoveUp, MovesUp, Advertise;
    if events == [] {
      assert AllMoveUp(s, events, slot) by { NothingMoves(s, slot); }
    } else {
      StepMovesUpIff(s, h, events[0], slot);
      StepKeepsInv(s, h, events[0]);
      StepKeepsUs(s, events[0]);
      AllMoveUpStep(s, events, slot);
      RunMovesUpIff(Step(s, events[0]), Record(h, s, events[0]), events[1..], slot);
    }
  }

  lemma NothingMoves(s: State, slot: nat)
    requires s.b.Some?
    ensures AllMoveUp(s, [], slot)
  {
  }
}
