/** Re-checking only the newly mentioned values gives what re-checking every value would. */
module NominationRefinement {
  import opened Quorum
  import opened BallotMessages
  import opened Nominating

  /** Checking `v` again would change nothing. */
  ghost predicate Checked(s: State, v: SlotValue) {
    && (MayAccept(s, v) ==> v in s.y)
    && (MayConfirm(s, v) ==> v in s.z)
  }

  ghost predicate AllChecked(s: State) {
    forall v :: Checked(s, v)
  }

  /** A state is fully checked exactly when re-evaluating any value leaves it as it is. */
  lemma AllCheckedMeansIdle(s: State)
    requires Inv(s)
    ensures AllChecked(s) <==> forall v :: MaybeAdvance(s, v) == s
  {
    forall v
      ensures Checked(s, v) <==> MaybeAdvance(s, v) == s
    {
      assert v in s.z ==> v in s.y;
      assert s.y + [v] != s.y && s.z + [v] != s.z;
      hide MayAccept, MayConfirm;
    }
  }

  lemma AdvanceChecks(s: State, v: SlotValue)
    requires Inv(s)
    ensures Checked(MaybeAdvance(s, v), v)
  {
    var s1 := if MayAccept(s, v) && v !in s.y then s.(y := s.y + [v]) else s;
    var s' := MaybeAdvance(s, v);
    SameRules(s1, s', v);
    assert v in s.z ==> v in s.y;
    hide MayAccept, MayConfirm;
  }

  /** The rules for `v` read nothing but who supports `v` and what their slices are. */
  lemma SameRules(s: State, s': State, v: SlotValue)
    requires s'.us == s.us && s'.d == s.d
    requires Voters(s', v) == Voters(s, v) && Accepters(s', v) == Accepters(s, v)
    requires forall k :: k in Voters(s, v) || k in Accepters(s, v) ==>
      k in Slices(s) && k in Slices(s') && Slices(s)[k] == Slices(s')[k]
    ensures MayAccept(s', v) == MayAccept(s, v) && MayConfirm(s', v) == MayConfirm(s, v)
  {
    QuorumReadsOnlyItsMembers(Slices(s), Slices(s'), s.us, Voters(s, v));
    QuorumReadsOnlyItsMembers(Slices(s), Slices(s'), s.us, Accepters(s, v));
  }

  lemma QuorumReadsOnlyItsMembers(a: map<Node, QuorumSlice>, b: map<Node, QuorumSlice>, us: Node, nodes: set<Node>)
    requires forall k :: k in nodes ==> k in a && k in b && a[k] == b[k]
    ensures HasQuorum(a, us, nodes) == HasQuorum(b, us, nodes)
  {
    if HasQuorum(a, us, nodes) {
      var s :| s <= nodes && IsQuorum(a, us, s);
      assert IsQuorum(b, us, s);
    }
    if HasQuorum(b, us, nodes) {
      var s :| s <= nodes && IsQuorum(b, us, s);
      assert IsQuorum(a, us, s);
    }
  }

  lemma AdvanceLeavesOthers(s: State, v: SlotValue, w: SlotValue)
    requires v != w && Checked(s, w)
    ensures Checked(MaybeAdvance(s, v), w)
  {
    var s' := MaybeAdvance(s, v);
    assert (w in s'.y <==> w in s.y) && (w in s'.z <==> w in s.z) && s'.x == s.x && s'.n == s.n
           && s'.us == s.us && s'.d == s.d by { hide MayAccept, MayConfirm; }
    SameRules(s, s', w);
    hide MayAccept, MayConfirm, MaybeAdvance;
  }

  lemma {:induction false} AdvanceAllChecks(s: State, values: seq<SlotValue>, v: SlotValue)
    requires Inv(s) && (v in values || Checked(s, v))
    ensures Checked(AdvanceAll(s, values), v)
    decreases |values|
  {
    hide Checked, MaybeAdvance, Inv;
    if values != [] {
      var front, last := values[..|values| - 1], values[|values| - 1];
      assert values == front + [last];
      AdvanceAllKeepsInv(s, front);
      if v == last {
        AdvanceChecks(AdvanceAll(s, front), v);
      } else {
        AdvanceAllChecks(s, front, v);
        AdvanceLeavesOthers(AdvanceAll(s, front), last, v);
      }
    }
  }

  /** The message extends what its sender said before, with the same slice. */
  ghost predicate Honest(s: State, from: Node, m: Nomination) {
    from in s.n ==> s.n[from].nom <= m.nom && s.n[from].acc <= m.acc && s.n[from].d == m.d
  }

  lemma UnmentionedIsOld(before: seq<SlotValue>, now: seq<SlotValue>, v: SlotValue)
    requires before <= now && v !in now[|before|..]
    ensures v in now <==> v in before
  {
    assert now == before + now[|before|..];
  }

  /** A value the message does not newly mention has the supporters it had. */
  lemma UnmentionedKeepsSupport(s: State, from: Node, m: Nomination, valid: SlotValue -> bool, v: SlotValue)
    requires Inv(s) && from != s.us && !IsStale(s, from, m) && Honest(s, from, m)
    requires v !in Fresh(s, from, m)
    ensures var s' := Heard(s, from, m, valid);
      Voters(s', v) == Voters(s, v) && Accepters(s', v) == Accepters(s, v)
  {
    hide Support;
    var nom, acc := m.nom[KnownNom(s, from)..], m.acc[KnownAcc(s, from)..];
    assert v !in nom && v !in acc by { assert forall w :: w in nom || w in acc ==> w in nom + acc; }
    SupportIsValid(s.x, nom, valid);
    UnmentionedIsOld(if from in s.n then s.n[from].nom else [], m.nom, v);
    UnmentionedIsOld(if from in s.n then s.n[from].acc else [], m.acc, v);
    SupportersUpdate(s, Heard(s, from, m, valid), from, m, v);
  }

  lemma SupportersUpdate(s: State, s': State, from: Node, m: Nomination, v: SlotValue)
    requires s'.us == s.us && s'.n == s.n[from := m] && s'.y == s.y && (v in s'.x <==> v in s.x)
    requires v in m.nom <==> from in s.n && v in s.n[from].nom
    requires v in m.acc <==> from in s.n && v in s.n[from].acc
    ensures Voters(s', v) == Voters(s, v) && Accepters(s', v) == Accepters(s, v)
  {
  }

  lemma HearingLeavesUnmentioned(s: State, from: Node, m: Nomination, valid: SlotValue -> bool, v: SlotValue)
    requires Inv(s) && from != s.us && !IsStale(s, from, m) && Honest(s, from, m)
    requires v !in Fresh(s, from, m) && Checked(s, v)
    ensures Checked(Heard(s, from, m, valid), v)
  {
    var s' := Heard(s, from, m, valid);
    UnmentionedKeepsSupport(s, from, m, valid, v);
    forall k | k in Voters(s, v) || k in Accepters(s, v)
      ensures k in Slices(s) && k in Slices(s') && Slices(s)[k] == Slices(s')[k]
    {
      assert k == s.us || k in s.n;
    }
    SameRules(s, s', v);
    hide MayAccept, MayConfirm;
  }

  /** Incremental nomination refines full re-evaluation: if no value could be advanced
      before an honest message, none can be advanced after handling it. */
  lemma HandleKeepsAllChecked(s: State, from: Node, m: Nomination, valid: SlotValue -> bool)
    requires Inv(s) && from != s.us && Honest(s, from, m) && AllChecked(s)
    ensures AllChecked(Handle(s, from, m, valid))
  {
    if IsStale(s, from, m) {
      StaleKeepsChecked(s, from, m, valid);
    } else {
      var s', values := Heard(s, from, m, valid), Distinct(Fresh(s, from, m));
      SupportExtends(s.x, m.nom[KnownNom(s, from)..], valid);
      assert Inv(s');
      DistinctKeepsValues(Fresh(s, from, m));
      forall v
        ensures Checked(AdvanceAll(s', values), v)
      {
        hide Inv, Checked, Heard, Honest, AdvanceAll, Distinct;
        if v !in values {
          HearingLeavesUnmentioned(s, from, m, valid, v);
        }
        AdvanceAllChecks(s', values, v);
      }
    }
  }

  lemma StaleKeepsChecked(s: State, from: Node, m: Nomination, valid: SlotValue -> bool)
    requires IsStale(s, from, m) && AllChecked(s)
    ensures AllChecked(Handle(s, from, m, valid))
  {
    var s' := Handle(s, from, m, valid);
    forall v
      ensures Checked(s', v)
    {
      assert Checked(s, v);
      SameRules(s, s', v);
      hide MayAccept, MayConfirm;
    }
  }

  /** Our own nomination of `v` would be the vote that makes a quorum. */
  ghost predicate CompletesQuorum(s: State, v: SlotValue) {
    s.x == [] && v !in s.y && HasQuorum(Slices(s), s.us, Voters(s, v) + {s.us})
  }

  /** Nominating a value is not followed by a check. It leaves nothing unchecked exactly when
      our vote does not complete a quorum. */
  lemma NominatingKeepsAllCheckedIff(s: State, v: SlotValue)
    requires AllChecked(s)
    ensures AllChecked(NominateNewValue(s, v)) <==> !CompletesQuorum(s, v)
  {
    var s' := NominateNewValue(s, v);
    if s.x == [] {
      assert Slices(s') == Slices(s);
      assert Voters(s', v) == Voters(s, v) + {s.us} && Accepters(s', v) == Accepters(s, v);
      assert Checked(s, v);
      assert Checked(s', v) <==> !CompletesQuorum(s, v);
      forall w | w != v ensures Checked(s', w) {
        assert Checked(s, w);
        assert Voters(s', w) == Voters(s, w) && Accepters(s', w) == Accepters(s, w);
      }
    } else {
      assert Checked(s', v);
    }
  }

  /** A node that is a quorum by itself has a value left unchecked after nominating it. */
  lemma OwnNominationCanCompleteQuorum()
    ensures var s := Initial("amy", QuorumSlice(["amy"], 1));
      AllChecked(s) && CompletesQuorum(s, "v") && !AllChecked(NominateNewValue(s, "v"))
  {
    var s := Initial("amy", QuorumSlice(["amy"], 1));
    NobodyHits(["amy"]);
    forall v ensures Checked(s, v) {
      assert Voters(s, v) == {} && Accepters(s, v) == {};
    }
    assert {"amy"} <= Voters(s, "v") + {s.us} && IsQuorum(Slices(s), "amy", {"amy"});
    NominatingKeepsAllCheckedIff(s, "v");
  }
}
