/** Incremental nomination over whole runs: exactly when nobody ever has a value left that
    could be advanced. */
module NominationRuns {
  import opened Quorum
  import opened Nominating
  import opened NominationRefinement
  import opened NominationNetwork

  ghost predicate EverybodyChecked(net: Net) {
    forall v :: v in net ==> AllChecked(net[v].s)
  }

  /** A faulty sender does not take back what it said before. */
  ghost predicate HonestAct(net: Net, a: Act)
    requires a.node in net
  {
    a.Hear? && a.from !in net ==> IsStale(net[a.node].s, a.from, a.m) || Honest(net[a.node].s, a.from, a.m)
  }

  ghost predicate CompletingAct(net: Net, a: Act)
    requires a.node in net
  {
    a.Nominate? && CompletesQuorum(net[a.node].s, a.v)
  }

  lemma InitialIsChecked(us: Node, d: QuorumSlice)
    ensures AllChecked(Initial(us, d))
  {
    var s := Initial(us, d);
    NobodyHits(d.members);
    forall v ensures Checked(s, v) {
      assert Voters(s, v) == {} && Accepters(s, v) == {};
    }
  }

  lemma HearingKeepsChecked(qs: QuorumSlice, net: Net, a: Act)
    requires NetInv(qs, net) && Possible(net, a) && a.Hear? && HonestAct(net, a) && AllChecked(net[a.node].s)
    ensures AllChecked(Next(net[a.node].s, a))
  {
    if a.from in net {
      CorrectPeersAreHonest(qs, net, a);
    } else {
      var s := net[a.node].s;
      assert PeerOk(qs, a.node, net[a.node]);
      assert Inv(s) && s.us == a.node;
      hide NetInv, PeerOk, AllChecked, Handle, Honest;
      if IsStale(s, a.from, a.m) {
        StaleKeepsChecked(s, a.from, a.m, a.valid);
      } else {
        HandleKeepsAllChecked(s, a.from, a.m, a.valid);
      }
    }
  }

  lemma ActKeepsCheckedIff(qs: QuorumSlice, net: Net, a: Act, slot: nat)
    requires NetInv(qs, net) && Possible(net, a) && HonestAct(net, a) && EverybodyChecked(net)
    ensures EverybodyChecked(Perform(net, a, slot)) <==> !CompletingAct(net, a)
  {
    var s, net' := net[a.node].s, Perform(net, a, slot);
    if a.Hear? {
      HearingKeepsChecked(qs, net, a);
    } else {
      NominatingKeepsAllCheckedIff(s, a.v);
    }
    hide NetInv, AllChecked, CompletesQuorum, Next;
    assert net'[a.node].s == Next(s, a) && AllChecked(s);
  }

  // ---------------------------------------------------------------- whole runs

  ghost predicate HonestRun(net: Net, acts: seq<Act>, slot: nat)
    requires Valid(net, acts, slot)
    decreases |acts|
  {
    acts != [] ==>
      var front := acts[..|acts| - 1];
      HonestRun(net, front, slot) && HonestAct(After(net, front, slot), acts[|acts| - 1])
  }

  ghost predicate NobodyCompletes(net: Net, acts: seq<Act>, slot: nat)
    requires Valid(net, acts, slot)
    decreases |acts|
  {
    acts != [] ==>
      var front := acts[..|acts| - 1];
      NobodyCompletes(net, front, slot) && !CompletingAct(After(net, front, slot), acts[|acts| - 1])
  }

  /** At every time of the run, no correct node has a value that could be advanced. */
  ghost predicate AlwaysChecked(net: Net, acts: seq<Act>, slot: nat)
    requires Valid(net, acts, slot)
    decreases |acts|
  {
    && EverybodyChecked(After(net, acts, slot))
    && (acts != [] ==> AlwaysChecked(net, acts[..|acts| - 1], slot))
  }

  /** Over every run in which faulty senders only add to what they said, incremental
      nomination is up to date at all times, exactly when no node's own nomination ever
      completed a quorum. */
  lemma {:induction false} AlwaysCheckedIff(qs: QuorumSlice, correct: set<Node>, acts: seq<Act>, slot: nat)
    requires FaultsDoNotBlock(qs, correct) && Valid(Start(qs, correct), acts, slot)
    requires HonestRun(Start(qs, correct), acts, slot)
    ensures AlwaysChecked(Start(qs, correct), acts, slot) <==> NobodyCompletes(Start(qs, correct), acts, slot)
    decreases |acts|
  {
    hide NetInv, Possible, Perform, HonestAct, CompletingAct, EverybodyChecked, FaultsDoNotBlock;
    var start := Start(qs, correct);
    if acts == [] {
      StartIsChecked(qs, correct);
    } else {
      var front, last := acts[..|acts| - 1], acts[|acts| - 1];
      var net := After(start, front, slot);
      AlwaysCheckedIff(qs, correct, front, slot);
      RunKeepsNetInv(qs, correct, front, slot);
      if AlwaysChecked(start, front, slot) {
        ActKeepsCheckedIff(qs, net, last, slot);
      }
    }
  }

  lemma StartIsChecked(qs: QuorumSlice, correct: set<Node>)
    ensures EverybodyChecked(Start(qs, correct))
  {
    hide AllChecked;
    forall v | v in correct ensures AllChecked(Initial(v, qs)) {
      InitialIsChecked(v, qs);
    }
  }
}
