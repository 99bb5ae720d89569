/** Nomination at one node on values: the specification of the class in
    NominationNode.dfy (consensus/nomination_state.go). */
module Nominating {
  import opened Quorum
  import opened BallotMessages

  datatype Nomination = NominationMessage(i: nat, nom: seq<SlotValue>, acc: seq<SlotValue>, d: QuorumSlice)

  datatype State = State(
    us: Node,
    d: QuorumSlice,
    x: seq<SlotValue>,
    y: seq<SlotValue>,
    z: seq<SlotValue>,
    n: map<Node, Nomination>,
    received: nat)

  function Initial(us: Node, d: QuorumSlice): State {
    State(us, d, [], [], [], map[], 0)
  }

  function Slices(s: State): map<Node, QuorumSlice> {
    (map k | k in s.n :: s.n[k].d)[s.us := s.d]
  }

  // ------------------------------------------------------------ the two rules

  function Voters(s: State, v: SlotValue): set<Node> {
    (if v in s.x then {s.us} else {}) + (set k | k in s.n && (v in s.n[k].acc || v in s.n[k].nom))
  }

  function Accepters(s: State, v: SlotValue): set<Node> {
    (if v in s.y then {s.us} else {}) + (set k | k in s.n && v in s.n[k].acc)
  }

  /** A quorum voted for or accepted `v`, or a blocking set accepted it. */
  ghost predicate MayAccept(s: State, v: SlotValue) {
    HasQuorum(Slices(s), s.us, Voters(s, v)) || Blocks(s.d, Accepters(s, v))
  }

  /** A quorum accepted `v`. */
  ghost predicate MayConfirm(s: State, v: SlotValue) {
    HasQuorum(Slices(s), s.us, Accepters(s, v))
  }

  // -------------------------------------------------------------- the operations

  ghost function MaybeAdvance(s: State, v: SlotValue): State {
    if v in s.z then s
    else
      var s' := if MayAccept(s, v) && v !in s.y then s.(y := s.y + [v]) else s;
      if MayConfirm(s', v) then s'.(z := s'.z + [v]) else s'
  }

  function NominateNewValue(s: State, v: SlotValue): State {
    if s.x != [] then s else s.(x := [v])
  }

  /** Nominates what is suggested, if we have nothing yet and it is our turn. */
  function MaybeNominate(s: State, priority: int, suggestion: Option<SlotValue>): State {
    if s.x != [] || priority < 0 || s.d.threshold * priority > s.received || suggestion.None? then s
    else NominateNewValue(s, suggestion.value)
  }

  function KnownNom(s: State, from: Node): nat {
    if from in s.n then |s.n[from].nom| else 0
  }

  function KnownAcc(s: State, from: Node): nat {
    if from in s.n then |s.n[from].acc| else 0
  }

  /** The message is shorter than the one we have, or as long. */
  predicate IsStale(s: State, from: Node, m: Nomination) {
    || |m.nom| < KnownNom(s, from)
    || |m.acc| < KnownAcc(s, from)
    || (|m.nom| == KnownNom(s, from) && |m.acc| == KnownAcc(s, from))
  }

  /** Appends to `x` each listed value that is valid and not there yet. */
  function Support(x: seq<SlotValue>, values: seq<SlotValue>, valid: SlotValue -> bool): seq<SlotValue> {
    if values == [] then x
    else
      var x' := Support(x, values[..|values| - 1], valid);
      var v := values[|values| - 1];
      if v !in x' && valid(v) then x' + [v] else x'
  }

  /** The listed values, each once, in the order they first appear. */
  function Distinct(values: seq<SlotValue>): seq<SlotValue> {
    if values == [] then []
    else
      var front := Distinct(values[..|values| - 1]);
      if values[|values| - 1] in front then front else front + [values[|values| - 1]]
  }

  ghost function AdvanceAll(s: State, values: seq<SlotValue>): State
    decreases |values|
  {
    if values == [] then s
    else MaybeAdvance(AdvanceAll(s, values[..|values| - 1]), values[|values| - 1])
  }

  /** The values a message mentions for the first time. */
  function Fresh(s: State, from: Node, m: Nomination): seq<SlotValue>
    requires !IsStale(s, from, m)
  {
    m.nom[KnownNom(s, from)..] + m.acc[KnownAcc(s, from)..]
  }

  /** The state with the message stored and its new nominations supported. */
  function Heard(s: State, from: Node, m: Nomination, valid: SlotValue -> bool): State
    requires !IsStale(s, from, m)
  {
    s.(received := s.received + 1, n := s.n[from := m], x := Support(s.x, m.nom[KnownNom(s, from)..], valid))
  }

  ghost function Handle(s: State, from: Node, m: Nomination, valid: SlotValue -> bool): State {
    if IsStale(s, from, m) then s.(received := s.received + 1)
    else AdvanceAll(Heard(s, from, m, valid), Distinct(Fresh(s, from, m)))
  }

  function Advertise(s: State, slot: nat): Nomination {
    NominationMessage(slot, s.x, s.y, s.d)
  }

  /** The values that make up the predicted value: the confirmed ones, or else the accepted
      ones, or else the nominated ones. There are none before the first nomination. */
  function ToCombine(s: State): seq<SlotValue> {
    if s.x == [] then []
    else if s.z != [] then s.z
    else if s.y != [] then s.y
    else s.x
  }

  // ------------------------------------------------------------------ the lists

  ghost predicate NoDupes(list: seq<SlotValue>) {
    forall i, j :: 0 <= i < j < |list| ==> list[i] != list[j]
  }

  /** Nothing is listed twice, and what is confirmed is accepted. */
  ghost predicate Inv(s: State) {
    && s.us !in s.n
    && NoDupes(s.x) && NoDupes(s.y) && NoDupes(s.z)
    && (forall v :: v in s.z ==> v in s.y)
  }

  /** The lists of `s'` extend those of `s`. */
  ghost predicate Extends(s: State, s': State) {
    s'.us == s.us && s'.d == s.d && s.x <= s'.x && s.y <= s'.y && s.z <= s'.z
  }

  lemma QuorumNeedsUs(s: State, nodes: set<Node>)
    requires HasQuorum(Slices(s), s.us, nodes)
    ensures s.us in nodes
  {
  }

  lemma {:induction false} SupportExtends(x: seq<SlotValue>, values: seq<SlotValue>, valid: SlotValue -> bool)
    requires NoDupes(x)
    ensures x <= Support(x, values, valid) && NoDupes(Support(x, values, valid))
    decreases |values|
  {
    if values != [] {
      var front, v := values[..|values| - 1], values[|values| - 1];
      SupportExtends(x, front, valid);
    }
  }

  /** Support adds exactly the listed values that are valid. */
  lemma {:induction false} SupportIsValid(x: seq<SlotValue>, values: seq<SlotValue>, valid: SlotValue -> bool)
    ensures forall v :: v in Support(x, values, valid) <==> v in x || (v in values && valid(v))
    decreases |values|
  {
    if values != [] {
      var front, v := values[..|values| - 1], values[|values| - 1];
      SupportIsValid(x, front, valid);
      assert values == front + [v];
    }
  }

  lemma {:induction false} DistinctKeepsValues(values: seq<SlotValue>)
    ensures NoDupes(Distinct(values))
    ensures forall v :: v in Distinct(values) <==> v in values
  {
    if values != [] {
      var front, v := values[..|values| - 1], values[|values| - 1];
      DistinctKeepsValues(front);
      assert values == front + [v];
    }
  }

  lemma MaybeAdvanceKeepsInv(s: State, v: SlotValue)
    requires Inv(s)
    ensures Inv(MaybeAdvance(s, v)) && Extends(s, MaybeAdvance(s, v))
  {
    var s' := if MayAccept(s, v) && v !in s.y then s.(y := s.y + [v]) else s;
    if v !in s.z && MayConfirm(s', v) {
      QuorumNeedsUs(s', Accepters(s', v));
      assert v in s'.y;
    }
    hide MayAccept, MayConfirm;
  }

  lemma {:induction false} AdvanceAllKeepsInv(s: State, values: seq<SlotValue>)
    requires Inv(s)
    ensures Inv(AdvanceAll(s, values)) && Extends(s, AdvanceAll(s, values))
    decreases |values|
  {
    if values != [] {
      AdvanceAllKeepsInv(s, values[..|values| - 1]);
      MaybeAdvanceKeepsInv(AdvanceAll(s, values[..|values| - 1]), values[|values| - 1]);
      hide MaybeAdvance, Inv;
    }
  }

  /** Over every message from a peer, X, Y and Z stay free of duplicates and only grow
      by appending, and Z stays inside Y. */
  lemma HandleKeepsInv(s: State, from: Node, m: Nomination, valid: SlotValue -> bool)
    requires Inv(s) && from != s.us
    ensures Inv(Handle(s, from, m, valid)) && Extends(s, Handle(s, from, m, valid))
  {
    if !IsStale(s, from, m) {
      SupportExtends(s.x, m.nom[KnownNom(s, from)..], valid);
      AdvanceAllKeepsInv(Heard(s, from, m, valid), Distinct(Fresh(s, from, m)));
      hide AdvanceAll;
    }
  }
}
