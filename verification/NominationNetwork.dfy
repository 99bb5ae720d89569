/** Nomination over whole runs of a network. */
module NominationNetwork {
  import opened Quorum
  import opened BallotMessages
  import opened Nominating
  import opened NominationRefinement

  /** A correct node and every message it could have sent. */
  datatype Peer = Peer(s: State, sent: set<Nomination>)

  /** The correct nodes. Every other sender is faulty. */
  type Net = map<Node, Peer>

  datatype Act =
    | Nominate(node: Node, v: SlotValue)
    | Hear(node: Node, from: Node, m: Nomination, valid: SlotValue -> bool)

  function Start(qs: QuorumSlice, correct: set<Node>): Net {
    map v | v in correct :: Peer(Initial(v, qs), {})
  }

  ghost predicate Possible(net: Net, a: Act) {
    && a.node in net
    && (a.Hear? ==> a.from != a.node && (a.from in net ==> a.m in net[a.from].sent))
  }

  ghost function Next(s: State, a: Act): State {
    match a
    case Nominate(_, v) => NominateNewValue(s, v)
    case Hear(_, from, m, valid) => Handle(s, from, m, valid)
  }

  ghost function Perform(net: Net, a: Act, slot: nat): Net
    requires a.node in net
  {
    var s' := Next(net[a.node].s, a);
    net[a.node := Peer(s', net[a.node].sent + {Nominating.Advertise(s', slot)})]
  }

  // --------------------------------------------------------------- invariants

  ghost predicate Within(m1: Nomination, m2: Nomination) {
    m1.nom <= m2.nom && m1.acc <= m2.acc
  }

  /** The messages of one node form a chain that ends in its present lists. */
  ghost predicate PeerOk(qs: QuorumSlice, v: Node, peer: Peer) {
    && peer.s.us == v && peer.s.d == qs && Inv(peer.s)
    && (forall m :: m in peer.sent ==> m.d == qs && m.nom <= peer.s.x && m.acc <= peer.s.y)
    && (forall m1, m2 :: m1 in peer.sent && m2 in peer.sent ==> Within(m1, m2) || Within(m2, m1))
  }

  ghost predicate Authentic(net: Net, s: State) {
    forall k :: k in s.n && k in net ==> s.n[k] in net[k].sent
  }

  /** Some correct node has voted for the value. */
  ghost predicate Voted(net: Net, v: SlotValue) {
    exists u :: u in net && v in net[u].s.x
  }

  ghost predicate AcceptedIsVoted(net: Net) {
    forall u, v :: u in net && v in net[u].s.y ==> Voted(net, v)
  }

  ghost predicate NetInv(qs: QuorumSlice, net: Net) {
    && FaultsDoNotBlock(qs, net.Keys)
    && (forall v :: v in net ==> PeerOk(qs, v, net[v]) && Authentic(net, net[v].s))
    && AcceptedIsVoted(net)
  }

  // ------------------------------------------------------------------ validity

  /** The state `s` of node `u` holds only accepted values that somebody correct voted for. */
  ghost predicate Justified(net: Net, s: State) {
    forall v :: v in s.y ==> v in s.x || Voted(net, v)
  }

  /** What a correct peer told us it accepted, it has accepted. */
  lemma PeerHasAccepted(qs: QuorumSlice, net: Net, s: State, k: Node, v: SlotValue)
    requires NetInv(qs, net) && Authentic(net, s) && k in s.n && k in net && v in s.n[k].acc
    ensures Voted(net, v)
  {
    hide Voted, FaultsDoNotBlock, Inv;
    assert PeerOk(qs, k, net[k]);
    assert v in net[k].s.y;
  }

  /** What may be accepted was voted for by us, or accepted by another correct node. */
  lemma AcceptanceIsJustified(qs: QuorumSlice, net: Net, s: State, v: SlotValue)
    requires NetInv(qs, net) && s.d == qs && Authentic(net, s) && s.us !in s.n
    requires MayAccept(s, v) && v !in s.y
    ensures v in s.x || Voted(net, v)
  {
    if HasQuorum(Slices(s), s.us, Voters(s, v)) {
      QuorumNeedsUs(s, Voters(s, v));
    } else {
      assert FaultsDoNotBlock(qs, net.Keys);
      BlockingHasCorrect(qs, net.Keys, Accepters(s, v));
      var k :| k in Accepters(s, v) && k in net.Keys;
      PeerHasAccepted(qs, net, s, k, v);
    }
    hide NetInv, Authentic, Voted, MayAccept;
  }

  lemma AdvanceIsJustified(qs: QuorumSlice, net: Net, s: State, v: SlotValue)
    requires NetInv(qs, net) && s.d == qs && Authentic(net, s) && s.us !in s.n && Justified(net, s)
    ensures var s' := MaybeAdvance(s, v);
      Justified(net, s') && s'.d == s.d && s'.us == s.us && s'.n == s.n && s'.x == s.x
  {
    hide NetInv, Authentic, Voted, MayAccept, MayConfirm;
    if MayAccept(s, v) && v !in s.y {
      AcceptanceIsJustified(qs, net, s, v);
    }
  }

  lemma {:induction false} AdvanceAllIsJustified(qs: QuorumSlice, net: Net, s: State, values: seq<SlotValue>)
    requires NetInv(qs, net) && s.d == qs && Authentic(net, s) && s.us !in s.n && Justified(net, s)
    ensures var s' := AdvanceAll(s, values);
      Justified(net, s') && s'.d == s.d && s'.us == s.us && s'.n == s.n && s'.x == s.x
    decreases |values|
  {
    hide NetInv, Justified, MaybeAdvance;
    if values != [] {
      AdvanceAllIsJustified(qs, net, s, values[..|values| - 1]);
      AdvanceIsJustified(qs, net, AdvanceAll(s, values[..|values| - 1]), values[|values| - 1]);
    }
  }

  // --------------------------------------------------------------- one act

  lemma NextExtends(s: State, a: Act)
    requires Inv(s) && (a.Hear? ==> a.from != s.us)
    ensures Inv(Next(s, a)) && Extends(s, Next(s, a))
  {
    if a.Hear? {
      HandleKeepsInv(s, a.from, a.m, a.valid);
    }
    hide Handle;
  }

  lemma NextHears(qs: QuorumSlice, net: Net, a: Act)
    requires NetInv(qs, net) && Possible(net, a)
    ensures var s' := Next(net[a.node].s, a);
      Justified(net, s') && (s'.n == net[a.node].s.n || (a.Hear? && s'.n == net[a.node].s.n[a.from := a.m]))
  {
    var s := net[a.node].s;
    assert PeerOk(qs, a.node, net[a.node]) && Authentic(net, s);
    assert s.us !in s.n;
    assert Justified(net, s);
    if a.Hear? && !IsStale(s, a.from, a.m) {
      var s1 := Heard(s, a.from, a.m, a.valid);
      SupportExtends(s.x, a.m.nom[KnownNom(s, a.from)..], a.valid);
      assert Justified(net, s1) && Authentic(net, s1);
      hide NetInv, Justified, Authentic, Inv, Heard, Fresh, AdvanceAll, PeerOk;
      AdvanceAllIsJustified(qs, net, s1, Distinct(Fresh(s, a.from, a.m)));
    }
  }

  lemma SentChainGrows(qs: QuorumSlice, v: Node, peer: Peer, s': State, slot: nat)
    requires PeerOk(qs, v, peer) && Inv(s') && Extends(peer.s, s')
    ensures PeerOk(qs, v, Peer(s', peer.sent + {Nominating.Advertise(s', slot)}))
  {
    hide Inv;
  }

  lemma VotesRemain(net: Net, a: Act, slot: nat)
    requires a.node in net && Extends(net[a.node].s, Next(net[a.node].s, a))
    ensures forall v :: Voted(net, v) ==> Voted(Perform(net, a, slot), v)
  {
    hide Next;
    var net' := Perform(net, a, slot);
    forall v | Voted(net, v)
      ensures Voted(net', v)
    {
      var u :| u in net && v in net[u].s.x;
      assert v in net'[u].s.x;
    }
  }

  lemma AcceptedStaysVoted(qs: QuorumSlice, net: Net, a: Act, slot: nat)
    requires NetInv(qs, net) && Possible(net, a)
    requires Extends(net[a.node].s, Next(net[a.node].s, a))
    ensures AcceptedIsVoted(Perform(net, a, slot))
  {
    var net' := Perform(net, a, slot);
    NextHears(qs, net, a);
    VotesRemain(net, a, slot);
    hide Next, Extends;
    forall u, v | u in net' && v in net'[u].s.y
      ensures Voted(net', v)
    {
      if u != a.node {
        assert v in net[u].s.y;
        assert Voted(net, v);
      } else if v in net'[u].s.x {
        assert Voted(net', v);
      }
    }
  }

  lemma PeerStaysOk(qs: QuorumSlice, net: Net, a: Act, slot: nat, v: Node)
    requires NetInv(qs, net) && Possible(net, a) && v in net
    ensures v in Perform(net, a, slot) && PeerOk(qs, v, Perform(net, a, slot)[v])
  {
    hide Next, FaultsDoNotBlock, AcceptedIsVoted, Authentic, Inv, Extends, Nominating.Advertise;
    assert PeerOk(qs, v, net[v]);
    if v == a.node {
      assert Inv(net[v].s);
      NextExtends(net[v].s, a);
      SentChainGrows(qs, v, net[v], Next(net[v].s, a), slot);
    }
  }

  lemma PeerStaysAuthentic(qs: QuorumSlice, net: Net, a: Act, slot: nat, v: Node)
    requires NetInv(qs, net) && Possible(net, a) && v in net
    ensures Authentic(Perform(net, a, slot), Perform(net, a, slot)[v].s)
  {
    NextHears(qs, net, a);
    hide Next, PeerOk, AcceptedIsVoted, FaultsDoNotBlock, Justified;
    assert Authentic(net, net[v].s);
  }

  lemma ActKeepsNetInv(qs: QuorumSlice, net: Net, a: Act, slot: nat)
    requires NetInv(qs, net) && Possible(net, a)
    ensures NetInv(qs, Perform(net, a, slot))
  {
    var net', s := Perform(net, a, slot), net[a.node].s;
    assert PeerOk(qs, a.node, net[a.node]);
    NextExtends(s, a);
    AcceptedStaysVoted(qs, net, a, slot);
    assert net'.Keys == net.Keys;
    hide Next, PeerOk, AcceptedIsVoted, FaultsDoNotBlock, Authentic, Extends, Inv;
    forall v | v in net'
      ensures PeerOk(qs, v, net'[v]) && Authentic(net', net'[v].s)
    {
      PeerStaysOk(qs, net, a, slot, v);
      PeerStaysAuthentic(qs, net, a, slot, v);
    }
  }

  // ---------------------------------------------------------------- whole runs

  ghost predicate Valid(net: Net, acts: seq<Act>, slot: nat)
    decreases |acts|, 0
  {
    acts == [] ||
    (Valid(net, acts[..|acts| - 1], slot) && Possible(After(net, acts[..|acts| - 1], slot), acts[|acts| - 1]))
  }

  ghost function After(net: Net, acts: seq<Act>, slot: nat): Net
    requires Valid(net, acts, slot)
    decreases |acts|, 1
  {
    if acts == [] then net else Perform(After(net, acts[..|acts| - 1], slot), acts[|acts| - 1], slot)
  }

  lemma StartIsFine(qs: QuorumSlice, correct: set<Node>)
    requires FaultsDoNotBlock(qs, correct)
    ensures NetInv(qs, Start(qs, correct))
  {
    assert Start(qs, correct).Keys == correct;
  }

  lemma {:induction false} RunKeepsNetInv(qs: QuorumSlice, correct: set<Node>, acts: seq<Act>, slot: nat)
    requires FaultsDoNotBlock(qs, correct) && Valid(Start(qs, correct), acts, slot)
    ensures NetInv(qs, After(Start(qs, correct), acts, slot))
    decreases |acts|
  {
    hide NetInv, Possible, Perform;
    if acts == [] {
      StartIsFine(qs, correct);
    } else {
      RunKeepsNetInv(qs, correct, acts[..|acts| - 1], slot);
      ActKeepsNetInv(qs, After(Start(qs, correct), acts[..|acts| - 1], slot), acts[|acts| - 1], slot);
    }
  }

  /** Over every run, a value that a correct node has accepted or confirmed was voted for
      by some correct node, and its lists hold nothing twice. */
  lemma AcceptedValuesWereVotedFor(qs: QuorumSlice, correct: set<Node>, acts: seq<Act>, slot: nat, u: Node,
                                   v: SlotValue)
    requires FaultsDoNotBlock(qs, correct) && Valid(Start(qs, correct), acts, slot)
    requires u in After(Start(qs, correct), acts, slot)
    ensures var net := After(Start(qs, correct), acts, slot);
      Inv(net[u].s) && (v in net[u].s.y || v in net[u].s.z ==> Voted(net, v))
  {
    RunKeepsNetInv(qs, correct, acts, slot);
    var net := After(Start(qs, correct), acts, slot);
    hide After;
    assert PeerOk(qs, u, net[u]);
  }

  /** Over every run, a correct node makes its prediction only from values that some
      correct node voted for. */
  lemma PredictionsWereVotedFor(qs: QuorumSlice, correct: set<Node>, acts: seq<Act>, slot: nat, u: Node, v: SlotValue)
    requires FaultsDoNotBlock(qs, correct) && Valid(Start(qs, correct), acts, slot)
    requires u in After(Start(qs, correct), acts, slot)
    ensures var net := After(Start(qs, correct), acts, slot);
      v in ToCombine(net[u].s) ==> Voted(net, v)
  {
    AcceptedValuesWereVotedFor(qs, correct, acts, slot, u, v);
    hide After;
  }

  /** Whatever order the messages of a correct node arrive in, each is either dropped as
      stale or extends what was known, so checking only what is new misses nothing. */
  lemma CorrectPeersAreHonest(qs: QuorumSlice, net: Net, a: Act)
    requires NetInv(qs, net) && Possible(net, a) && a.Hear? && a.from in net
    ensures IsStale(net[a.node].s, a.from, a.m) || Honest(net[a.node].s, a.from, a.m)
    ensures AllChecked(net[a.node].s) ==> AllChecked(Next(net[a.node].s, a))
  {
    var s := net[a.node].s;
    assert PeerOk(qs, a.from, net[a.from]) && PeerOk(qs, a.node, net[a.node]) && Authentic(net, s);
    if a.from in s.n && !IsStale(s, a.from, a.m) {
      assert Within(s.n[a.from], a.m) || Within(a.m, s.n[a.from]);
    }
    assert Inv(s) && s.us == a.node;
    hide NetInv, PeerOk, Authentic, AllChecked, Handle;
    if AllChecked(s) {
      if IsStale(s, a.from, a.m) {
        StaleKeepsChecked(s, a.from, a.m, a.valid);
      } else {
        HandleKeepsAllChecked(s, a.from, a.m, a.valid);
      }
    }
  }
}
