/** The balloting of one node as an object whose methods update its fields
    (consensus/ballot_state.go). Every method is proved against Balloting and
    Investigation, and keeps the invariant of BallotHistory. */
module BallotNode {
  import opened Quorum
  import opened Ranges
  import opened BallotMessages
  import opened Balloting
  import opened BallotHistory
  import opened Investigation

  class BallotState {
    const us: Node
    const d: QuorumSlice
    var phase: Phase
    var b: Option<Ballot>
    var last: Option<Ballot>
    var p: Option<Ballot>
    var pPrime: Option<Ballot>
    var cn: nat
    var hn: nat
    var z: Option<SlotValue>
    var m: map<Node, Message>
    var stale: map<Node, nat>
    ghost var past: History

    function View(): State
      reads this
    {
      State(us, d, phase, b, p, pPrime, cn, hn, z, m, stale)
    }

    ghost predicate Valid()
      reads this
    {
      && Inv(View(), past)
      && (last.Some? ==> last.value in past.held)
    }

    constructor (us: Node, d: QuorumSlice)
      ensures Valid() && View() == Initial(us, d) && past == NoHistory && last == None
    {
      this.us, this.d := us, d;
      phase, b, last, p, pPrime := Prepare, None, None, None, None;
      cn, hn, z, m, stale := 0, 0, None, map[], map[];
      past := NoHistory;
      InitialInv(us, d);
    }

    // ------------------------------------------------------ asking the peers

    /** The peers whose latest message passes a test, in some order of the map. */
    method Peers(test: Message -> bool) returns (nodes: seq<Node>)
      ensures forall k :: k in nodes <==> k in m && test(m[k])
    {
      nodes := [];
      var todo := m.Keys;
      while todo != {}
        invariant todo <= m.Keys
        invariant forall k :: k in nodes <==> k in m.Keys - todo && test(m[k])
      {
        var k :| k in todo;
        if test(m[k]) {
          nodes := nodes + [k];
        }
        todo := todo - {k};
      }
    }

    method MeetsQuorumOf(nodes: seq<Node>) returns (r: bool)
      ensures r == MeetsQuorumHere(View(), Elems(nodes))
    {
      r := MeetsQuorum(Slices(View()), us, nodes);
    }
  
    /** Whether the accept-as-prepared rule holds for (n,x). */
    method MayAcceptPreparedNow(n: nat, x: SlotValue) returns (r: bool)
      ensures r == MayAcceptPrepared(View(), n, x)
    {
      var voted := Peers(msg => AcceptsPrepared(msg, n, x) || VotesPrepare(msg, n, x));
      var votedOrAccepted := if GteCompat(b, Ballot(n, x)) then [us] + voted else voted;
      var accepted := Peers(msg => AcceptsPrepared(msg, n, x));
      assert Elems(votedOrAccepted) == PrepareVoters(View(), n, x);
      assert Elems(accepted) == PreparedBy(View(), n, x);
      r := MeetsQuorumOf(votedOrAccepted);
      if !r {
        r := BlockedBy(d, accepted);
      }
    }

    ghost method Note(before: State, e: Event)
      requires Inv(before, past) && Sensible(us, e) && before.us == us
      requires View() == Step(before, e)
      requires last.Some? ==> last.value in past.held
      modifies this`past
      ensures Valid() && past == Record(old(past), before, e)
    {
      StepKeepsInv(before, past, e);
      past := Record(past, before, e);
    }

    /** Accepts (n,x) as prepared if it can. Returns whether anything changed. */
    method MaybeAcceptAsPrepared(n: nat, x: SlotValue) returns (changed: bool)
      requires Valid()
      modifies this
      ensures Valid() && last == old(last)
      ensures View() == Balloting.MaybeAcceptAsPrepared(old(View()), n, x)
      ensures changed <==> View() != old(View())
      ensures n >= 1 ==> past == Record(old(past), old(View()), TryAcceptPrepared(n, x))
    {
      changed := false;
      ghost var before := View();
      if phase == Prepare && n != 0 && !PreparedIsOld(View(), n, x) {
        changed := MayAcceptPreparedNow(n, x);
        if changed {
          UpdatePrepared(Ballot(n, x));
        }
      }
      if n >= 1 {
        Note(before, TryAcceptPrepared(n, x));
      }
    }

    /** Keeps p and p' as the top two conflicting ballots accepted as prepared, and
        drops the commit vote if it is now aborted. */
    method UpdatePrepared(ballot: Ballot)
      requires Valid() && phase == Prepare && ballot.n >= 1 && !PreparedIsOld(View(), ballot.n, ballot.x)
      requires MayAcceptPrepared(View(), ballot.n, ballot.x)
      modifies this`p, this`pPrime, this`cn
      ensures View() == Balloting.MaybeAcceptAsPrepared(old(View()), ballot.n, ballot.x)
      ensures View() != old(View())
    {
      if p.None? {
        p := Some(ballot);
      } else if p.value.x == ballot.x {
        assert ballot.n > p.value.n;  // fatal: should have short circuited already
        p := Some(ballot);
      } else if ballot.n >= p.value.n {
        pPrime := p;
        p := Some(ballot);
      } else {
        pPrime := Some(ballot);
      }
      if cn != 0 && hn != 0 {
        assert b.Some?;
        if AcceptedAbort(View(), hn, b.value.x) {
          cn := 0;
        }
      }
    }
  
    // -------------------------------------------------- confirming as prepared

    method MayConfirmPreparedNow(n: nat, x: SlotValue) returns (r: bool)
      ensures r == MayConfirmPrepared(View(), n, x)
    {
      var accepted := Peers(msg => AcceptsPrepared(msg, n, x));
      if GteCompat(p, Ballot(n, x)) || GteCompat(pPrime, Ballot(n, x)) {
        accepted := [us] + accepted;
      }
      assert Elems(accepted) == PrepareAccepters(View(), n, x);
      r := MeetsQuorumOf(accepted);
    }

    /** Confirms (n,x) as prepared if it can, and starts voting to commit if that is
        still allowed. Returns whether anything changed. */
    method MaybeConfirmAsPrepared(n: nat, x: SlotValue) returns (changed: bool)
      requires Valid() && n >= 1
      modifies this
      ensures Valid() && last == old(last)
      ensures View() == Balloting.MaybeConfirmAsPrepared(old(View()), n, x)
      ensures changed <==> View() != old(View())
      ensures past == Record(old(past), old(View()), TryConfirmPrepared(n, x))
    {
      changed := false;
      ghost var before := View();
      if phase == Prepare && hn <= n && (hn == n ==> z.Some? && z.value != x) {
        changed := MayConfirmPreparedNow(n, x);
        if changed {
          UpdateConfirmed(Ballot(n, x));
        }
      }
      Note(before, TryConfirmPrepared(n, x));
    }

    method UpdateConfirmed(ballot: Ballot)
      requires Valid() && phase == Prepare && ballot.n >= 1
      requires hn <= ballot.n && (hn == ballot.n ==> z.Some? && z.value != ballot.x)
      requires MayConfirmPrepared(View(), ballot.n, ballot.x)
      modifies this`b, this`cn, this`hn, this`z
      ensures View() == ConfirmPrepared(old(View()), ballot) && View() != old(View())
    {
      if hn == ballot.n {
        cn := 0;
        z := None;
        return;
      }
      NeverConfirmsContradiction(View(), past, ballot.n, ballot.x);
      assert cn > 0 ==> ballot.x == b.value.x;  // fatal: voting to commit but must confirm a contradiction
      hn := ballot.n;
      z := Some(ballot.x);
      if b.None? {
        b := Some(ballot);
      }
      if cn == 0 && ballot.x == b.value.x {
        if GteIncompat(p, ballot) || GteIncompat(pPrime, ballot) {
          // we have already accepted the abort of this
        } else if b.value.n > ballot.n {
          // we are already past this ballot number
        } else {
          cn := b.value.n;
        }
      }
    }

    // -------------------------------------------------- accepting as committed

    method MayAcceptCommittedNow(n: nat, x: SlotValue) returns (r: bool)
      ensures r == MayAcceptCommitted(View(), n, x)
    {
      var votedOrAccepted := Peers(msg => AcceptsCommitted(msg, n, x) || VotesCommit(msg, n, x));
      var accepted := Peers(msg => AcceptsCommitted(msg, n, x));
      if phase == Prepare && b.Some? && b.value.x == x && cn != 0 && cn <= n <= hn {
        votedOrAccepted := [us] + votedOrAccepted;
      }
      assert Elems(votedOrAccepted) == CommitVoters(View(), n, x);
      assert Elems(accepted) == CommittedBy(View(), n, x);
      r := MeetsQuorumOf(votedOrAccepted);
      if !r {
        r := BlockedBy(d, accepted);
      }
    }

    /** Accepts the commit of (n,x) if it can. Returns whether anything changed. */
    method MaybeAcceptAsCommitted(n: nat, x: SlotValue) returns (changed: bool)
      requires Valid() && n >= 1
      modifies this
      ensures Valid() && last == old(last)
      ensures View() == Balloting.MaybeAcceptAsCommitted(old(View()), n, x)
      ensures changed <==> View() != old(View())
      ensures past == Record(old(past), old(View()), TryAcceptCommitted(n, x))
    {
      changed := false;
      ghost var before := View();
      if phase != Externalize && !(phase == Confirm && cn <= n <= hn) {
        changed := MayAcceptCommittedNow(n, x);
        if changed {
          UpdateCommitted(n, x);
        }
      }
      Note(before, TryAcceptCommitted(n, x));
    }

    method UpdateCommitted(n: nat, x: SlotValue)
      requires phase == Prepare || (phase == Confirm && !(cn <= n <= hn))
      modifies this`phase, this`b, this`cn, this`hn, this`z
      ensures View() == AcceptCommitted(old(View()), n, x) && View() != old(View())
    {
      phase := Confirm;
      if b.None? || b.value.x != x {
        b := Some(Ballot(n, x));
        cn := n;
        hn := n;
        z := Some(x);
      } else {
        WidenRange(n);
      }
    }

    method WidenRange(n: nat)
      modifies this`cn, this`hn
      ensures View() == Widen(old(View()), n)
    {
      if n < cn {
        cn := n;
      }
      if n > hn {
        hn := n;
      }
    }

    // ------------------------------------------------- confirming as committed

    method MayConfirmCommittedNow(n: nat, x: SlotValue) returns (r: bool)
      ensures r == MayConfirmCommitted(View(), n, x)
    {
      var accepted := Peers(msg => AcceptsCommitted(msg, n, x));
      if phase == Confirm && cn <= n <= hn {
        accepted := [us] + accepted;
      }
      assert Elems(accepted) == CommitAccepters(View(), n, x);
      r := MeetsQuorumOf(accepted);
    }

    /** Confirms the commit of (n,x) if it can. Returns whether anything changed. */
    method MaybeConfirmAsCommitted(n: nat, x: SlotValue) returns (changed: bool)
      requires Valid() && n >= 1
      modifies this
      ensures Valid() && last == old(last)
      ensures View() == Balloting.MaybeConfirmAsCommitted(old(View()), n, x)
      ensures changed <==> View() != old(View())
      ensures past == Record(old(past), old(View()), TryConfirmCommitted(n, x))
    {
      changed := false;
      ghost var before := View();
      if phase != Prepare && b.Some? && b.value.x == x && !(phase == Externalize && cn <= n <= hn) {
        changed := MayConfirmCommittedNow(n, x);
        if changed {
          if phase == Confirm {
            phase := Externalize;
            cn := n;
            hn := n;
          } else {
            WidenRange(n);
          }
        }
      }
      Note(before, TryConfirmCommitted(n, x));
    }

    // ------------------------------------------------------- moving to a ballot

    /** Takes the next ballot for `x`, and votes to commit it at once if it can. */
    method TakeBallot(x: SlotValue, ghost prediction: Option<SlotValue>)
      requires NextValue(View(), prediction) == Some(x)
      modifies this`b, this`cn
      ensures View() == Balloting.GoToNextBallot(old(View()), prediction)
    {
      b := Some(Ballot(if b.None? then 1 else b.value.n + 1, x));
      if cn == 0 && hn >= b.value.n && !AcceptedAbort(View(), hn, x) {
        cn := b.value.n;
      }
    }

    /** Moves to the next ballot, with z or else the predicted value. Returns whether
        there was a value to move to. */
    method GoToNextBallot(prediction: Option<SlotValue>) returns (moved: bool)
      requires Valid()
      modifies this
      ensures Valid() && last == old(last)
      ensures View() == Balloting.GoToNextBallot(old(View()), prediction)
      ensures moved == NextValue(old(View()), prediction).Some?
      ensures past == Record(old(past), old(View()), NextBallot(prediction))
    {
      ghost var before := View();
      if z.Some? {
        TakeBallot(z.value, prediction);
        moved := true;
      } else if prediction.Some? {
        TakeBallot(prediction.value, prediction);
        moved := true;
      } else {
        moved := false;
      }
      Note(before, NextBallot(prediction));
    }

    /** Moves on if the peers that could never vote for our ballot block us. */
    method CheckForBlockedBallot(prediction: Option<SlotValue>) returns (moved: bool)
      requires Valid()
      modifies this
      ensures Valid() && last == old(last)
      ensures moved == WillBump(old(View()), prediction)
      ensures View() == if moved then Balloting.GoToNextBallot(old(View()), prediction) else old(View())
    {
      if b.None? {
        return false;
      }
      var ballot := b.value;
      var blockers := Peers(msg => !CouldEverVoteFor(msg, ballot.n, ballot.x));
      assert Elems(blockers) == Balloting.Blockers(View());
      var blocked := BlockedBy(d, blockers);
      if !blocked {
        return false;
      }
      moved := GoToNextBallot(prediction);
    }
  
    // ---------------------------------------------------------------- staleness

    /** Moves to the next ballot unless peers that are behind block us. Returns whether it
        did. */
    method HandleStaleQuorum(prediction: Option<SlotValue>) returns (moved: bool)
      requires Valid()
      modifies this
      ensures Valid() && last == old(last)
      ensures moved <==> old(b).Some? && !Blocks(d, Behind(old(View()))) && NextValue(old(View()), prediction).Some?
      ensures View() == Balloting.HandleStaleQuorum(old(View()), prediction)
    {
      if b.None? {
        return false;
      }
      var number := b.value.n;
      var behind := Peers(msg => BallotNumber(msg) < number);
      assert Elems(behind) == Behind(View());
      var blocked := BlockedBy(d, behind);
      if blocked {
        return false;
      }
      moved := GoToNextBallot(prediction);
    }

    method StaleNodes() returns (nodes: seq<Node>)
      ensures Elems(nodes) == Balloting.StaleNodes(View())
    {
      nodes := [us];
      var todo := stale.Keys;
      while todo != {}
        invariant todo <= stale.Keys
        invariant forall k :: k in nodes <==> k == us || (k in stale.Keys - todo && stale[k] >= 3)
      {
        var k :| k in todo;
        if stale[k] >= 3 {
          nodes := nodes + [k];
        }
        todo := todo - {k};
      }
    }

    /** Counts a repeated message, and gives up on the ballot once a quorum is stale. */
    method CountRepeat(from: Node, prediction: Option<SlotValue>)
      requires Valid() && from != us
      modifies this
      ensures Valid() && last == old(last)
      ensures View() == CountStale(old(View()), from, prediction)
    {
      hide HasQuorum, Blocks, Balloting.GoToNextBallot;
      stale := stale[from := (if from in stale then stale[from] else 0) + 1];
      var nodes := StaleNodes();
      var isStale := MeetsQuorumOf(nodes);
      if isStale {
        stale := map[];
        var _ := HandleStaleQuorum(prediction);
      }
    }

    // ------------------------------------------------------------- investigating

    /** Steps 1-8 of the processing algorithm for one ballot. */
    method InvestigateBallot(n: nat, x: SlotValue)
      requires Valid()
      modifies this
      ensures Valid() && last == old(last)
      ensures View() == Investigation.InvestigateBallot(old(View()), n, x)
    {
      if n < 1 {
        return;
      }
      var _ := MaybeAcceptAsPrepared(n, x);
      var _ := MaybeConfirmAsPrepared(n, x);
      var _ := MaybeAcceptAsCommitted(n, x);
      var _ := MaybeConfirmAsCommitted(n, x);
    }

    /** The range of ballots of value `x` that at least one peer is talking about. */
    method RelevantRange(x: SlotValue) returns (r: Range)
      ensures r == Span(m, x)
    {
      r := NullRange;
      var todo := m.Keys;
      ghost var seen: map<Node, Message> := map[];
      while todo != {}
        invariant todo <= m.Keys
        invariant seen == m - todo
        invariant Spans(seen, x, r)
      {
        var k :| k in todo;
        SpanGrows(seen, x, r, k, m[k]);
        r := RangeUnion(r, BallotMessages.RelevantRange(m[k], x));
        seen := seen[k := m[k]];
        todo := todo - {k};
      }
      assert seen == m;
      SpanIsUnique(m, x, r, Span(m, x));
    }
  
    /** The peers, grouped by the highest ballot number they talk about. */
    method GroupByMaxN() returns (groups: map<nat, seq<Node>>)
      ensures forall k :: k in m ==> MaxN(m[k]) in groups
      ensures forall n, k :: n in groups ==> (k in groups[n] <==> k in m && MaxN(m[k]) == n)
    {
      groups := map[];
      var todo := m.Keys;
      while todo != {}
        invariant todo <= m.Keys
        invariant forall k :: k in m.Keys - todo ==> MaxN(m[k]) in groups
        invariant forall n, k :: n in groups ==> (k in groups[n] <==> k in m.Keys - todo && MaxN(m[k]) == n)
      {
        var k :| k in todo;
        var n := MaxN(m[k]);
        var group := if n in groups then groups[n] else [];
        assert forall j :: j in group + [k] <==> j in group || j == k;
        assert m.Keys - (todo - {k}) == (m.Keys - todo) + {k};
        groups := groups[n := group + [k]];
        todo := todo - {k};
      }
      assert m.Keys - todo == m.Keys;
    }

    /** The highest ballot number that a blocking set of peers is talking about. */
    method MaxActionableBallotNumber() returns (r: nat)
      ensures IsMaxActionable(d, m, r)
    {
      var groups := GroupByMaxN();
      var keys := groups.Keys;
      var nodesAbove: seq<Node> := [];
      NobodyHits(d.members);
      assert Elems(nodesAbove) == {};
      while keys != {}
        invariant keys <= groups.Keys
        invariant forall k, j :: k in m && MaxN(m[k]) !in keys && j in keys ==> j < MaxN(m[k])
        invariant forall k :: k in nodesAbove <==> k in m && MaxN(m[k]) !in keys
        invariant !Blocks(d, Elems(nodesAbove))
        decreases keys
      {
        HasTop(keys);
        var n: nat :| IsTop(keys, n);
        FewerPeersAreNotActionable(d, m, Elems(nodesAbove), n);
        nodesAbove := nodesAbove + groups[n];
        assert Elems(nodesAbove) == TalkingAbout(m, n);
        var blocked := BlockedBy(d, nodesAbove);
        if blocked {
          return n;
        }
        keys := keys - {n};
      }
      FewerPeersAreNotActionable(d, m, Elems(nodesAbove), 0);
      return 0;
    }

    /** Checks whether anything can be updated for this value. */
    method InvestigateValue(x: SlotValue)
      requires Valid()
      modifies this
      ensures Valid() && last == old(last)
      ensures View() == Investigation.InvestigateValue(old(View()), x)
    {
      hide Inv, Investigation.InvestigateBallot, InvestigateBallots;
      var range := RelevantRange(x);
      var max := MaxActionableBallotNumber();
      MaxActionableIsUnique(d, m, max, MaxActionable(d, m));
      if max > range.max {
        max := range.max;
      }
      var i := InvestigateFrom(range.min, max, x);
      if b.Some? && i <= b.value.n {
        InvestigateBallot(b.value.n, x);
      }
    }

    /** Investigates every ballot from `min` to `max`. Returns the number it stopped at. */
    method InvestigateFrom(min: nat, max: nat, x: SlotValue) returns (i: nat)
      requires Valid()
      modifies this
      ensures Valid() && last == old(last)
      ensures View() == InvestigateBallots(old(View()), min, max, x)
      ensures i == if min <= max then max + 1 else min
    {
      hide Inv, Investigation.InvestigateBallot;
      i := min;
      while i <= max
        invariant min <= i && (i <= max + 1 || i == min)
        invariant Valid() && last == old(last)
        invariant InvestigateBallots(View(), i, max, x) == InvestigateBallots(old(View()), min, max, x)
        decreases max + 1 - i
      {
        InvestigateBallot(i, x);
        i := i + 1;
      }
    }

    method InvestigateValues(values: seq<SlotValue>)
      requires Valid()
      modifies this
      ensures Valid() && last == old(last)
      ensures View() == Investigation.InvestigateValues(old(View()), values, {})
    {
      var done: seq<SlotValue> := [];
      ghost var seen: set<SlotValue> := {};
      ghost var before := View();
      for i := 0 to |values|
        invariant Valid() && last == old(last)
        invariant forall v :: v in done <==> v in seen
        invariant Investigation.InvestigateValues(View(), values[i..], seen) ==
                  Investigation.InvestigateValues(before, values, {})
      {
        assert values[i..][1..] == values[i + 1..];
        if values[i] !in done {
          InvestigateValue(values[i]);
          done := done + [values[i]];
          seen := seen + {values[i]};
        }
      }
    }

    /** Handles a message from a peer, with at most `fuel` rounds of the loop. Returns
        whether the loop came to its end. */
    method Handle(from: Node, message: Message, prediction: Option<SlotValue>, fuel: nat) returns (settled: bool)
      requires Valid() && from != us
      modifies this
      ensures Valid() && last == old(last)
      ensures Outcome(View(), settled) == Investigation.Handle(old(View()), from, message, prediction, fuel)
    {
      hide Inv, Balloting.GoToNextBallot, Investigation.InvestigateValues, CountStale;
      if from in m && Compare(m[from], message) >= 0 {
        CountRepeat(from, prediction);
        return true;
      }
      Store(from, message);
      ghost var before := View();
      for round := 0 to fuel
        invariant Valid() && last == old(last)
        invariant Settle(View(), message, prediction, fuel - round) == Settle(before, message, prediction, fuel)
      {
        InvestigateValues(Topics(message));
        var moved := CheckForBlockedBallot(prediction);
        if !moved {
          return true;
        }
      }
      return false;
    }

    method Store(from: Node, message: Message)
      requires Valid() && from != us
      modifies this
      ensures Valid() && last == old(last)
      ensures View() == Balloting.Store(old(View()), from, message)
    {
      ghost var before := View();
      stale := stale[from := 0];
      m := m[from := message];
      Note(before, Receive(from, message));
    }

    // ------------------------------------------------- the checks and the message

    /** Every fatal check of balloting: none of them can fail. */
    method AssertValid()
      requires Valid()
      modifies this`last
      ensures Valid() && View() == old(View())
      ensures last == if b.Some? && phase == Prepare then b else old(last)
    {
      assert cn <= hn;  // fatal: c should be <= h
      assert p.Some? && pPrime.Some? ==> p.value.x != pPrime.value.x;  // fatal: p and p prime should not be compatible
      if b.Some? && phase == Prepare {
        // fatal: the vote to commit should have been aborted
        assert p.Some? && b.value.x != p.value.x && hn <= p.value.n ==> cn == 0;
        assert pPrime.Some? && b.value.x != pPrime.value.x && hn <= pPrime.value.n ==> cn == 0;
        // fatal: monotonicity violation
        assert last.Some? && b.value.x != last.value.x ==> last.value.n <= b.value.n;
        last := b;
      }
    }

    /** The message to send. */
    method OutgoingMessage(slot: nat) returns (message: Message)
      requires b.Some?
      ensures message == Advertise(View(), slot)
    {
      match phase
      case Prepare =>
        var pn, px, ppn, ppx := 0, "", 0, "";
        if p.Some? {
          pn, px := p.value.n, p.value.x;
        }
        if pPrime.Some? {
          ppn, ppx := pPrime.value.n, pPrime.value.x;
        }
        message := PrepareMessage(slot, b.value.n, b.value.x, pn, px, ppn, ppx, cn, hn, d);
      case Confirm =>
        var pn := 0;
        if p.Some? {
          pn := p.value.n;
        }
        message := ConfirmMessage(slot, b.value.x, pn, cn, hn, d);
      case Externalize =>
        message := ExternalizeMessage(slot, b.value.x, cn, hn, d);
    }
  }
}
