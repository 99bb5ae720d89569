/** Nomination at one node as an object (consensus/nomination_state.go). */
module NominationNode {
  import opened Quorum
  import opened BallotMessages
  import opened Nominating

  class NominationState {
    const us: Node
    const d: QuorumSlice
    /** Which priority we have for creating a nomination; negative means never. */
    const priority: int
    var x: seq<SlotValue>
    var y: seq<SlotValue>
    var z: seq<SlotValue>
    var n: map<Node, Nomination>
    var received: nat

    function View(): State
      reads this
    {
      State(us, d, x, y, z, n, received)
    }

    ghost predicate Valid()
      reads this
    {
      Inv(View())
    }

    /** The state after an update of the value store, if there was one. */
    ghost function Suggested(updated: bool, suggestion: Option<SlotValue>): State
      reads this
    {
      if updated then MaybeNominate(View(), priority, suggestion) else View()
    }

    constructor (us: Node, d: QuorumSlice, priority: int)
      ensures Valid() && View() == Initial(us, d) && this.priority == priority
    {
      this.us, this.d, this.priority := us, d, priority;
      x, y, z, n, received := [], [], [], map[], 0;
    }

    /** Nominates a value of our own unless we already support something. */
    method NominateNewValue(v: SlotValue)
      requires Valid()
      modifies this`x
      ensures Valid() && View() == Nominating.NominateNewValue(old(View()), v)
    {
      if x == [] {
        x := [v];
      }
    }

    /** Nominates the suggested value when it is our turn. Returns whether it did. */
    method MaybeNominateNewValue(suggestion: Option<SlotValue>) returns (nominated: bool)
      requires Valid()
      modifies this`x
      ensures Valid()
      ensures nominated <==> old(x) == [] && priority >= 0 && d.threshold * priority <= received && suggestion.Some?
      ensures View() == MaybeNominate(old(View()), priority, suggestion)
    {
      if |x| > 0 || priority < 0 || d.threshold * priority > received || suggestion.None? {
        return false;
      }
      NominateNewValue(suggestion.value);
      return true;
    }

    /** The peers whose latest message passes a test, in some order of the map. */
    method Peers(test: Nomination -> bool) returns (nodes: seq<Node>)
      ensures forall k :: k in nodes <==> k in n && test(n[k])
    {
      nodes := [];
      var todo := n.Keys;
      while todo != {}
        invariant todo <= n.Keys
        invariant forall k :: k in nodes <==> k in n.Keys - todo && test(n[k])
      {
        var k :| k in todo;
        if test(n[k]) {
          nodes := nodes + [k];
        }
        todo := todo - {k};
      }
    }

    method MayAcceptNow(v: SlotValue) returns (r: bool)
      ensures r == MayAccept(View(), v)
    {
      var voted := Peers((m: Nomination) => v in m.acc || v in m.nom);
      var accepted := Peers((m: Nomination) => v in m.acc);
      if v in x {
        voted := [us] + voted;
      }
      if v in y {
        accepted := [us] + accepted;
      }
      assert Elems(voted) == Voters(View(), v);
      assert Elems(accepted) == Accepters(View(), v);
      r := MeetsQuorum(Slices(View()), us, voted);
      if !r {
        r := BlockedBy(d, accepted);
      }
    }

    method MayConfirmNow(v: SlotValue) returns (r: bool)
      ensures r == MayConfirm(View(), v)
    {
      var accepted := Peers((m: Nomination) => v in m.acc);
      if v in y {
        accepted := [us] + accepted;
      }
      assert Elems(accepted) == Accepters(View(), v);
      r := MeetsQuorum(Slices(View()), us, accepted);
    }

    /** Accepts, then confirms, the nomination of `v` if it can. Returns whether anything
        changed. */
    method MaybeAdvance(v: SlotValue) returns (changed: bool)
      requires Valid()
      modifies this`y, this`z
      ensures Valid() && View() == Nominating.MaybeAdvance(old(View()), v)
      ensures changed <==> View() != old(View())
    {
      MaybeAdvanceKeepsInv(View(), v);
      if v in z {
        return false;
      }
      changed := false;
      var accept := MayAcceptNow(v);
      if accept && v !in y {
        changed := true;
        y := y + [v];
      }
      var confirm := MayConfirmNow(v);
      if confirm {
        changed := true;
        z := z + [v];
      }
    }

    /** Supports the values nominated from position `from` on. Returns them, each once. */
    method HearNominations(nom: seq<SlotValue>, first: nat, valid: SlotValue -> bool) returns (touched: seq<SlotValue>)
      requires first <= |nom|
      modifies this`x
      ensures x == Support(old(x), nom[first..], valid)
      ensures touched == Distinct(nom[first..])
    {
      touched := [];
      for i := first to |nom|
        invariant touched == Distinct(nom[first..i])
        invariant x == Support(old(x), nom[first..i], valid)
      {
        ghost var now := nom[first..i + 1];
        assert now[..|now| - 1] == nom[first..i];
        var value := nom[i];
        if value !in touched {
          touched := touched + [value];
        }
        if value !in x && valid(value) {
          x := x + [value];
        }
      }
      assert nom[first..|nom|] == nom[first..];
    }

    /** Adds the values accepted from position `first` on to those already touched. */
    static method HearAcceptances(acc: seq<SlotValue>, first: nat, ghost values: seq<SlotValue>, seen: seq<SlotValue>)
      returns (touched: seq<SlotValue>)
      requires first <= |acc| && seen == Distinct(values)
      ensures touched == Distinct(values + acc[first..])
    {
      touched := seen;
      assert values + acc[first..first] == values;
      for i := first to |acc|
        invariant touched == Distinct(values + acc[first..i])
      {
        ghost var now := values + acc[first..i + 1];
        assert now[..|now| - 1] == values + acc[first..i];
        if acc[i] !in touched {
          touched := touched + [acc[i]];
        }
      }
      assert acc[first..|acc|] == acc[first..];
    }

    /** Stores a message that is not stale, and supports what it newly nominates.
        Returns the values it newly mentions. */
    method Hear(from: Node, m: Nomination, valid: SlotValue -> bool) returns (touched: seq<SlotValue>)
      requires Valid() && from != us && !IsStale(View(), from, m)
      modifies this`x, this`n, this`received
      ensures Valid() && View() == Heard(old(View()), from, m, valid)
      ensures touched == Distinct(Fresh(old(View()), from, m))
    {
      var oldNom := if from in n then |n[from].nom| else 0;
      var oldAcc := if from in n then |n[from].acc| else 0;
      SupportExtends(x, m.nom[oldNom..], valid);
      received := received + 1;
      n := n[from := m];
      touched := HearNominations(m.nom, oldNom, valid);
      touched := HearAcceptances(m.acc, oldAcc, m.nom[oldNom..], touched);
    }

    /** Handles a nomination message from a peer. */
    method Handle(from: Node, m: Nomination, valid: SlotValue -> bool)
      requires Valid() && from != us
      modifies this
      ensures Valid() && View() == Nominating.Handle(old(View()), from, m, valid)
    {
      HandleKeepsInv(View(), from, m, valid);
      if IsStale(View(), from, m) {
        received := received + 1;
        return;
      }
      var touched := Hear(from, m, valid);
      ghost var before := View();
      assert touched[..|touched|] == touched;
      for i := 0 to |touched|
        invariant Valid() && View() == AdvanceAll(before, touched[..i])
      {
        assert touched[..i + 1][..i] == touched[..i];
        var _ := MaybeAdvance(touched[i]);
      }
    }
  }
}
