/** When a node leaves its ballot: because peers that could never vote for it block it, or
    because a quorum keeps repeating itself (consensus/ballot_state.go). */
module Patience {
  import opened Quorum
  import opened BallotMessages
  import opened Balloting
  import opened Investigation

  // -------------------------------------------------------------- what is kept

  /** Messages and repeat counts are the same. */
  ghost predicate SameMemory(s: State, s': State) {
    s'.us == s.us && s'.d == s.d && s'.m == s.m && s'.stale == s.stale
  }

  lemma PreparingKeepsMemory(s: State, n: nat, x: SlotValue)
    ensures SameMemory(s, MaybeAcceptAsPrepared(s, n, x)) && SameMemory(s, MaybeConfirmAsPrepared(s, n, x))
  {
    hide MayAcceptPrepared, MayConfirmPrepared, AcceptedAbort, PreparedIsOld;
  }

  lemma CommittingKeepsMemory(s: State, n: nat, x: SlotValue)
    ensures SameMemory(s, MaybeAcceptAsCommitted(s, n, x)) && SameMemory(s, MaybeConfirmAsCommitted(s, n, x))
  {
    hide MayAcceptCommitted, MayConfirmCommitted;
  }

  lemma BallotKeepsMemory(s: State, n: nat, x: SlotValue)
    ensures SameMemory(s, InvestigateBallot(s, n, x))
  {
    hide MaybeAcceptAsPrepared, MaybeConfirmAsPrepared, MaybeAcceptAsCommitted, MaybeConfirmAsCommitted;
    var s1 := MaybeAcceptAsPrepared(s, n, x);
    var s2 := MaybeConfirmAsPrepared(s1, n, x);
    PreparingKeepsMemory(s, n, x);
    PreparingKeepsMemory(s1, n, x);
    CommittingKeepsMemory(s2, n, x);
    CommittingKeepsMemory(MaybeAcceptAsCommitted(s2, n, x), n, x);
  }

  lemma {:induction false} BallotsKeepMemory(s: State, lo: nat, hi: nat, x: SlotValue)
    ensures SameMemory(s, InvestigateBallots(s, lo, hi, x))
    decreases hi + 1 - lo
  {
    hide InvestigateBallot;
    if lo <= hi {
      BallotKeepsMemory(s, lo, x);
      BallotsKeepMemory(InvestigateBallot(s, lo, x), lo + 1, hi, x);
    }
  }

  lemma ValueKeepsMemory(s: State, x: SlotValue)
    ensures SameMemory(s, InvestigateValue(s, x))
  {
    var r := Span(s.m, x);
    var hi := Min(r.max, MaxActionable(s.d, s.m));
    BallotsKeepMemory(s, r.min, hi, x);
    var s' := InvestigateBallots(s, r.min, hi, x);
    if s'.b.Some? {
      BallotKeepsMemory(s', s'.b.value.n, x);
    }
    hide InvestigateBallot, InvestigateBallots;
  }

  lemma {:induction false} ValuesKeepMemory(s: State, values: seq<SlotValue>, done: set<SlotValue>)
    ensures SameMemory(s, InvestigateValues(s, values, done))
    decreases |values|
  {
    hide InvestigateValue;
    if values != [] {
      if values[0] in done {
        ValuesKeepMemory(s, values[1..], done);
      } else {
        ValueKeepsMemory(s, values[0]);
        ValuesKeepMemory(InvestigateValue(s, values[0]), values[1..], done + {values[0]});
      }
    }
  }

  lemma BumpKeepsMemory(s: State, prediction: Option<SlotValue>)
    ensures SameMemory(s, GoToNextBallot(s, prediction))
  {
  }

  // ------------------------------------------------------- ballots that are blocked

  /** The sender of this message will never vote for the ballot: it is at a higher one, at
      another of the same number, or past the Prepare phase with another value. */
  predicate RulesOut(m: Message, b: Ballot) {
    match m
    case PrepareMessage(_, bn, bx, _, _, _, _, _, _, _) => bn > b.n || (bn == b.n && bx != b.x)
    case ConfirmMessage(_, x, _, _, _, _) => x != b.x
    case ExternalizeMessage(_, x, _, _, _) => x != b.x
  }

  function Opposed(s: State, b: Ballot): set<Node> {
    set k | k in s.m && RulesOut(s.m[k], b)
  }

  lemma {:induction false} SettledIsNotBlocked(s: State, message: Message, prediction: Option<SlotValue>, fuel: nat)
    ensures var r := Settle(s, message, prediction, fuel);
      && SameMemory(s, r.s)
      && (r.settled && r.s.b.Some? && NextValue(r.s, prediction).Some? ==> !Blocks(r.s.d, Opposed(r.s, r.s.b.value)))
    decreases fuel
  {
    hide GoToNextBallot, Blocks, InvestigateValues, NextValue;
    if fuel > 0 {
      var s' := Round(s, message);
      ValuesKeepMemory(s, Topics(message), {});
      BumpKeepsMemory(s', prediction);
      if WillBump(s', prediction) {
        SettledIsNotBlocked(GoToNextBallot(s', prediction), message, prediction, fuel - 1);
      } else if s'.b.Some? {
        assert Opposed(s', s'.b.value) == Blockers(s');
      }
    }
  }

  /** A message that is new is remembered and clears its sender's count. Then the node comes
      to rest only with a ballot that no blocking set rules out, or without a value for the
      next one. */
  lemma NewsIsActedUpon(s: State, from: Node, message: Message, prediction: Option<SlotValue>, fuel: nat)
    requires from !in s.m || Compare(s.m[from], message) < 0
    ensures var r := Handle(s, from, message, prediction, fuel);
      && r.s.m == s.m[from := message] && r.s.stale == s.stale[from := 0]
      && (r.settled && r.s.b.Some? && NextValue(r.s, prediction).Some? ==> !Blocks(r.s.d, Opposed(r.s, r.s.b.value)))
  {
    assert !IsOld(s, from, message);
    hide Settle, Blocks, Opposed, Compare, IsOld;
    SettledIsNotBlocked(Store(s, from, message), message, prediction, fuel);
  }

  // -------------------------------------------------------------- repeated messages

  /** How often `k` has repeated itself, with one more repetition of `from`. */
  function Repeats(s: State, from: Node, k: Node): nat {
    (if k in s.stale then s.stale[k] else 0) + (if k == from then 1 else 0)
  }

  /** Us, and everybody who has repeated themselves three times. */
  function Tired(s: State, from: Node): set<Node> {
    {s.us} + set k | k in s.stale.Keys + {from} && Repeats(s, from, k) >= 3
  }

  /** The peers whose message is about lower ballots only. */
  function Lagging(s: State, n: nat): set<Node> {
    set k | k in s.m && (if s.m[k].PrepareMessage? then s.m[k].bn else s.m[k].hn) < n
  }

  /** What a repetition leads to: the count, and perhaps the next ballot. */
  ghost predicate Repeated(s: State, from: Node, prediction: Option<SlotValue>, s': State) {
    var enough, value := HasQuorum(Slices(s), s.us, Tired(s, from)), NextValue(s, prediction);
    && s'.stale == (if enough then map[] else s.stale[from := Repeats(s, from, from)])
    && s'.b == if enough && s.b.Some? && value.Some? && !Blocks(s.d, Lagging(s, s.b.value.n))
               then Some(Ballot(s.b.value.n + 1, value.value)) else s.b
  }

  /** Only the count, the ballot and the commit vote differ. */
  ghost predicate SameBeliefs(s: State, s': State) {
    && s'.us == s.us && s'.d == s.d && s'.m == s.m && s'.phase == s.phase && s'.z == s.z
    && s'.p == s.p && s'.pPrime == s.pPrime && s'.hn == s.hn
  }

  /** A message that is not new makes us move on if and only if with it a quorum has repeated
      itself three times, no blocking set lags behind, and there is a value to move on with.
      Otherwise it only counts. */
  lemma MovesOnIff(s: State, from: Node, message: Message, prediction: Option<SlotValue>, fuel: nat)
    requires from in s.m && Compare(s.m[from], message) >= 0
    ensures var s' := Handle(s, from, message, prediction, fuel).s;
      SameBeliefs(s, s') && Repeated(s, from, prediction, s')
  {
    assert IsOld(s, from, message);
    hide Compare, IsOld, CountStale, Settle, Repeated;
    CountingMovesOnIff(s, from, prediction);
  }

  lemma CountingMovesOnIff(s: State, from: Node, prediction: Option<SlotValue>)
    ensures var s' := CountStale(s, from, prediction); SameBeliefs(s, s') && Repeated(s, from, prediction, s')
  {
    var s1 := s.(stale := s.stale[from := Repeats(s, from, from)]);
    assert StaleNodes(s1) == Tired(s, from);
    assert Slices(s1) == Slices(s);
    GivingUp(s1.(stale := map[]), prediction);
    assert s.b.Some? ==> Lagging(s1.(stale := map[]), s.b.value.n) == Lagging(s, s.b.value.n);
    hide HasQuorum, Blocks, HandleStaleQuorum, Slices, Lagging, StaleNodes, Tired;
  }

  lemma GivingUp(s: State, prediction: Option<SlotValue>)
    ensures var s', value := HandleStaleQuorum(s, prediction), NextValue(s, prediction);
      && SameBeliefs(s, s') && s'.stale == s.stale
      && s'.b == if s.b.Some? && value.Some? && !Blocks(s.d, Lagging(s, s.b.value.n))
                 then Some(Ballot(s.b.value.n + 1, value.value)) else s.b
  {
    assert s.b.Some? ==> Behind(s) == Lagging(s, s.b.value.n);
    hide Blocks, AcceptedAbort;
  }

  /** The node hears from each of these peers once more what they said last. */
  ghost function HearAgain(s: State, froms: seq<Node>, prediction: Option<SlotValue>): State
    decreases |froms|
  {
    if froms == [] then s
    else
      var s', k := HearAgain(s, froms[..|froms| - 1], prediction), froms[|froms| - 1];
      if k in s'.m then Handle(s', k, s'.m[k], prediction, 1).s else s'
  }

  /** Us, and everybody with a count of three. */
  function Weary(us: Node, stale: map<Node, nat>): set<Node> {
    {us} + set k | k in stale && stale[k] >= 3
  }

  /** The node has moved on, or it waits, has kept count, and has not heard enough yet. */
  ghost predicate Waits(s: State, froms: seq<Node>, s': State)
    requires s.b.Some?
  {
    && s'.us == s.us && s'.d == s.d && s'.m == s.m && s'.z == s.z && s'.b.Some?
    && (|| s'.b.value.n > s.b.value.n
        || (&& s'.b == s.b && (forall k :: k in froms ==> k in s'.stale && s'.stale[k] >= multiset(froms)[k])
            && (froms != [] ==> !HasQuorum(Slices(s), s.us, Weary(s.us, s'.stale)))))
  }

  lemma Counted(front: seq<Node>, k: Node, stale: map<Node, nat>)
    requires forall j :: j in front ==> j in stale && stale[j] >= multiset(front)[j]
    ensures var stale' := stale[k := (if k in stale then stale[k] else 0) + 1];
      forall j :: j in front + [k] ==> j in stale' && stale'[j] >= multiset(front + [k])[j]
  {
    assert multiset(front + [k]) == multiset(front) + multiset{k};
    assert k !in front ==> multiset(front)[k] == 0;
  }

  lemma OneMoreRepeat(s: State, front: seq<Node>, k: Node, s1: State, s2: State, prediction: Option<SlotValue>)
    requires s.b.Some? && NextValue(s, prediction).Some? && !Blocks(s.d, Lagging(s, s.b.value.n))
    requires Waits(s, front, s1)
    requires SameBeliefs(s1, s2) && Repeated(s1, k, prediction, s2)
    ensures Waits(s, front + [k], s2)
  {
    hide HasQuorum, Blocks;
    if s1.b == s.b {
      assert Lagging(s1, s1.b.value.n) == Lagging(s, s.b.value.n);
      if s2.b == s.b {
        assert Tired(s1, k) == Weary(s.us, s2.stale);
        Counted(front, k, s1.stale);
      }
    }
  }

  lemma HeardOnceMore(s: State, front: seq<Node>, k: Node, prediction: Option<SlotValue>)
    requires k in HearAgain(s, front, prediction).m
    ensures var s1 := HearAgain(s, front, prediction);
      HearAgain(s, front + [k], prediction) == Handle(s1, k, s1.m[k], prediction, 1).s
  {
    hide Handle;
    assert (front + [k])[..|front|] == front;
  }

  lemma {:induction false} WaitsOrMoves(s: State, froms: seq<Node>, prediction: Option<SlotValue>)
    requires s.b.Some? && NextValue(s, prediction).Some? && !Blocks(s.d, Lagging(s, s.b.value.n))
    requires forall k :: k in froms ==> k in s.m
    ensures Waits(s, froms, HearAgain(s, froms, prediction))
    decreases |froms|
  {
    hide HasQuorum, Blocks, Compare, Handle, Repeated, SameBeliefs, NextValue, Lagging, Slices, Weary;
    if froms != [] {
      var front, k := froms[..|froms| - 1], froms[|froms| - 1];
      WaitsOrMoves(s, front, prediction);
      hide HearAgain;
      assert froms == front + [k];
      var s1 := HearAgain(s, front, prediction);
      assert s1.m == s.m;
      hide Waits;
      HeardOnceMore(s, front, k, prediction);
      CompareIsTotalPreorder(s1.m[k], s1.m[k], s1.m[k]);
      MovesOnIff(s1, k, s1.m[k], prediction, 1);
      OneMoreRepeat(s, front, k, s1, HearAgain(s, froms, prediction), prediction);
    }
  }

  lemma EnoughAreWeary(s: State, u: set<Node>, froms: seq<Node>, stale: map<Node, nat>)
    requires HasQuorum(Slices(s), s.us, u + {s.us}) && forall k :: k in u ==> multiset(froms)[k] >= 3
    ensures (forall k :: k in froms ==> k in stale && stale[k] >= multiset(froms)[k]) ==>
              HasQuorum(Slices(s), s.us, Weary(s.us, stale))
  {
    if forall k :: k in froms ==> k in stale && stale[k] >= multiset(froms)[k] {
      assert forall k :: k in u ==> k in froms;
      assert u + {s.us} <= Weary(s.us, stale);
    }
  }

  /** However their messages come in, once every node of a quorum has repeated itself three
      times a node with a value to move on with has left its ballot, unless peers that block
      it lag behind. */
  lemma PatienceRunsOut(s: State, u: set<Node>, froms: seq<Node>, prediction: Option<SlotValue>)
    requires s.b.Some? && NextValue(s, prediction).Some? && !Blocks(s.d, Lagging(s, s.b.value.n))
    requires froms != [] && forall k :: k in froms ==> k in s.m
    requires HasQuorum(Slices(s), s.us, u + {s.us}) && forall k :: k in u ==> multiset(froms)[k] >= 3
    ensures var s' := HearAgain(s, froms, prediction); s'.b.Some? && s'.b.value.n > s.b.value.n
  {
    WaitsOrMoves(s, froms, prediction);
    EnoughAreWeary(s, u, froms, HearAgain(s, froms, prediction).stale);
    hide HearAgain, Blocks, HasQuorum;
  }
}
