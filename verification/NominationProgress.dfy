/** Nomination makes progress: what a quorum nominates is accepted, and what a quorum has
    accepted is confirmed (consensus/nomination_state.go). */
module NominationProgress {
  import opened Quorum
  import opened BallotMessages
  import opened Nominating
  import Ledger
  import Queueing

  // ------------------------------------------------------------------- one node

  /** Everybody in `u` supports `v`: we list it, or their latest message nominates or has
      accepted it. */
  ghost predicate AllSupport(s: State, u: set<Node>, v: SlotValue) {
    forall k :: k in u ==>
      if k == s.us then v in s.x else k in s.n && (v in s.n[k].nom || v in s.n[k].acc)
  }

  /** Every peer in `u` has told us that it accepted `v`. */
  ghost predicate PeersAccepted(s: State, u: set<Node>, v: SlotValue) {
    forall k :: k in u && k != s.us ==> k in s.n && v in s.n[k].acc
  }

  /** What all of a quorum around us support is accepted. */
  lemma SupportedIsAccepted(s: State, u: set<Node>, v: SlotValue)
    requires Inv(s) && IsQuorum(Slices(s), s.us, u) && AllSupport(s, u, v)
    ensures v in MaybeAdvance(s, v).y
  {
    assert u <= Voters(s, v);
    assert MayAccept(s, v);
    hide MayAccept, MayConfirm;
  }

  /** What a blocking set has accepted is accepted. */
  lemma BlockedIsAccepted(s: State, u: set<Node>, v: SlotValue)
    requires Inv(s) && Blocks(s.d, u) && s.us !in u && PeersAccepted(s, u, v)
    ensures v in MaybeAdvance(s, v).y
  {
    assert u <= Accepters(s, v);
    HitsMonotone(s.d.members, u, Accepters(s, v));
    assert MayAccept(s, v);
    hide MayAccept, MayConfirm;
  }

  /** What all of a quorum around us has accepted is confirmed. */
  lemma AcceptedIsConfirmed(s: State, u: set<Node>, v: SlotValue)
    requires Inv(s) && IsQuorum(Slices(s), s.us, u) && v in s.y && PeersAccepted(s, u, v)
    ensures v in MaybeAdvance(s, v).z
  {
    assert u <= Accepters(s, v);
    assert MayConfirm(s, v);
    hide MayAccept, MayConfirm;
  }

  /** The message adds `v` to what its sender said before. */
  ghost predicate Brings(s: State, from: Node, m: Nomination, v: SlotValue) {
    !IsStale(s, from, m) && v in Fresh(s, from, m)
  }

  lemma HeardFacts(s: State, from: Node, m: Nomination, valid: SlotValue -> bool)
    requires Inv(s) && from != s.us && !IsStale(s, from, m)
    ensures var s1 := Heard(s, from, m, valid);
      Inv(s1) && s1.n == s.n[from := m] && s1.us == s.us && s1.d == s.d && s.x <= s1.x && s1.y == s.y
  {
    SupportExtends(s.x, m.nom[KnownNom(s, from)..], valid);
  }

  lemma {:induction false} AdvanceAllFacts(s: State, values: seq<SlotValue>)
    ensures var s' := AdvanceAll(s, values); s'.n == s.n && s'.us == s.us && s'.d == s.d && s'.x == s.x
    decreases |values|
  {
    if values != [] {
      AdvanceAllFacts(s, values[..|values| - 1]);
      hide MayAccept, MayConfirm;
    }
  }

  /** Advancing several values goes through advancing each of them. */
  lemma {:induction false} AdvancePasses(s: State, values: seq<SlotValue>, i: nat)
    requires Inv(s) && i < |values|
    ensures Extends(MaybeAdvance(AdvanceAll(s, values[..i]), values[i]), AdvanceAll(s, values))
    decreases |values|
  {
    hide MaybeAdvance, Inv;
    var front := values[..|values| - 1];
    if i == |values| - 1 {
      assert values[..i] == front;
    } else {
      assert front[..i] == values[..i];
      AdvancePasses(s, front, i);
      AdvanceAllKeepsInv(s, front);
      MaybeAdvanceKeepsInv(AdvanceAll(s, front), values[|values| - 1]);
    }
  }

  /** A value that a message brings is advanced with the message in hand. */
  lemma BroughtIsAdvanced(s: State, from: Node, m: Nomination, valid: SlotValue -> bool, v: SlotValue)
    returns (s1: State)
    requires Inv(s) && from != s.us && Brings(s, from, m, v)
    ensures Inv(s1) && s1.n == s.n[from := m] && s1.us == s.us && s1.d == s.d && s.x <= s1.x && s.y <= s1.y
    ensures Extends(MaybeAdvance(s1, v), Handle(s, from, m, valid))
  {
    var start, values := Heard(s, from, m, valid), Distinct(Fresh(s, from, m));
    HeardFacts(s, from, m, valid);
    DistinctKeepsValues(Fresh(s, from, m));
    var i :| 0 <= i < |values| && values[i] == v;
    hide MaybeAdvance, Fresh, Heard, Inv;
    s1 := AdvanceAll(start, values[..i]);
    AdvanceAllKeepsInv(start, values[..i]);
    AdvanceAllFacts(start, values[..i]);
    AdvancePasses(start, values, i);
  }

  /** A message that brings `v` makes it accepted, if all of a quorum then support it. */
  lemma HandleAccepts(s: State, from: Node, m: Nomination, valid: SlotValue -> bool, u: set<Node>, v: SlotValue)
    requires Inv(s) && from != s.us && Brings(s, from, m, v)
    requires var s1 := s.(n := s.n[from := m]); IsQuorum(Slices(s1), s.us, u) && AllSupport(s1, u, v)
    ensures v in Handle(s, from, m, valid).y
  {
    var s1 := BroughtIsAdvanced(s, from, m, valid, v);
    assert Slices(s1) == Slices(s.(n := s.n[from := m]));
    hide MaybeAdvance, Handle, Inv, Slices;
    SupportedIsAccepted(s1, u, v);
  }

  /** It makes it confirmed, if we and all others of a quorum then have accepted it. */
  lemma HandleConfirms(s: State, from: Node, m: Nomination, valid: SlotValue -> bool, u: set<Node>, v: SlotValue)
    requires Inv(s) && from != s.us && Brings(s, from, m, v) && v in s.y
    requires var s1 := s.(n := s.n[from := m]); IsQuorum(Slices(s1), s.us, u) && PeersAccepted(s1, u, v)
    ensures v in Handle(s, from, m, valid).z
  {
    var s1 := BroughtIsAdvanced(s, from, m, valid, v);
    assert Slices(s1) == Slices(s.(n := s.n[from := m]));
    hide MaybeAdvance, Handle, Inv, Slices;
    AcceptedIsConfirmed(s1, u, v);
  }

  /** The message has more to say than what we have of its sender, and takes nothing back. */
  predicate SaysMore(s: State, from: Node, m: Nomination) {
    var nom, acc := if from in s.n then s.n[from].nom else [], if from in s.n then s.n[from].acc else [];
    |m.nom| >= |nom| && |m.acc| >= |acc| && |m.nom| + |m.acc| > |nom| + |acc|
  }

  /** Every message counts towards our turn to nominate, and one that says more is
      remembered. */
  lemma HandleRemembers(s: State, from: Node, m: Nomination, valid: SlotValue -> bool)
    ensures var s' := Handle(s, from, m, valid);
      && s'.received == s.received + 1 && s'.us == s.us && s'.d == s.d
      && s'.n == if SaysMore(s, from, m) then s.n[from := m] else s.n
  {
    assert IsStale(s, from, m) <==> !SaysMore(s, from, m);
    if !IsStale(s, from, m) {
      AdvanceAllFacts(Heard(s, from, m, valid), Distinct(Fresh(s, from, m)));
      AdvanceAllCounts(Heard(s, from, m, valid), Distinct(Fresh(s, from, m)));
      hide AdvanceAll;
    }
  }

  lemma {:induction false} AdvanceAllCounts(s: State, values: seq<SlotValue>)
    ensures AdvanceAll(s, values).received == s.received
    decreases |values|
  {
    if values != [] {
      AdvanceAllCounts(s, values[..|values| - 1]);
      hide MayAccept, MayConfirm;
    }
  }

  /** The state after hearing some messages. */
  ghost function HearAll(s: State, messages: seq<(Node, Nomination)>, valid: SlotValue -> bool): State
    decreases |messages|
  {
    if messages == [] then s
    else
      var (from, m) := messages[|messages| - 1];
      Handle(HearAll(s, messages[..|messages| - 1], valid), from, m, valid)
  }

  lemma {:induction false} EveryMessageCounts(s: State, messages: seq<(Node, Nomination)>, valid: SlotValue -> bool)
    ensures var s' := HearAll(s, messages, valid); s'.received == s.received + |messages| && s'.d == s.d
    decreases |messages|
  {
    if messages != [] {
      var front, last := messages[..|messages| - 1], messages[|messages| - 1];
      EveryMessageCounts(s, front, valid);
      HandleRemembers(HearAll(s, front, valid), last.0, last.1, valid);
      hide Handle;
    }
  }

  /** Whatever the messages say, a node with nothing nominated takes up a suggestion exactly
      when it has heard as many of them as its threshold times its priority. */
  lemma TurnComesIff(us: Node, d: QuorumSlice, messages: seq<(Node, Nomination)>, valid: SlotValue -> bool,
                     priority: int, v: SlotValue)
    requires HearAll(Initial(us, d), messages, valid).x == []
    ensures var s := HearAll(Initial(us, d), messages, valid);
      v in MaybeNominate(s, priority, Some(v)).x <==> priority >= 0 && |messages| >= d.threshold * priority
  {
    EveryMessageCounts(Initial(us, d), messages, valid);
    hide HearAll;
  }

  // ------------------------------------------------------------- the prediction

  /** A prediction is made of all confirmed values and nothing else, as soon as there is one;
      before that of all accepted ones, and before that of all nominated ones. */
  lemma PredictionPrefersConfirmed(s: State, v: SlotValue)
    requires s.x != []
    ensures v in ToCombine(s) <==>
            if exists w :: w in s.z then v in s.z else if exists w :: w in s.y then v in s.y else v in s.x
  {
    if s.z != [] {
      assert s.z[0] in s.z;
    } else if s.y != [] {
      assert s.y[0] in s.y;
    }
  }

  /** Nodes that have confirmed the same values, in any order and whatever else they know,
      combine the same operations. */
  lemma SameConfirmedSamePrediction(s: State, t: State, chunks: map<SlotValue, Ledger.Chunk>)
    requires s.x != [] && t.x != [] && s.z != [] && (forall v :: v in s.z <==> v in t.z)
    requires (forall v :: v in s.z ==> v in chunks) && Queueing.KeysIdentify(Queueing.OperationsOf(chunks, s.z))
    ensures (forall v :: v in ToCombine(s) || v in ToCombine(t) ==> v in chunks) &&
            Queueing.Merged(chunks, ToCombine(s)) == Queueing.Merged(chunks, ToCombine(t))
  {
    assert s.z[0] in t.z;
    Queueing.CombiningIgnoresOrder(chunks, s.z, t.z);
  }
}
