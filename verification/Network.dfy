/** Runs of a whole network: correct nodes exchanging any of their past messages,
    and faulty members sending anything. */
module Network {
  import opened Quorum
  import opened BallotMessages
  import opened Balloting
  import opened BallotHistory
  import opened Agreement

  /** A correct node: its state, its past, and every message it could have sent. */
  datatype Participant = Participant(s: State, h: History, sent: set<Message>)

  /** The correct nodes. Every other sender is faulty. */
  type Net = map<Node, Participant>

  datatype Act = Act(node: Node, event: Event)

  function Start(qs: QuorumSlice, correct: set<Node>): Net {
    map v | v in correct :: Participant(Initial(v, qs), NoHistory, {})
  }

  /** An event can happen at a node if it is sensible there, and a message received
      from a correct node is one that node sent at some time. Delay, loss,
      duplication and reordering are all allowed. */
  ghost predicate Possible(net: Net, a: Act) {
    && a.node in net
    && Sensible(a.node, a.event)
    && (a.event.Receive? && a.event.from in net ==> a.event.message in net[a.event.from].sent)
  }

  ghost function Perform(net: Net, a: Act, slot: nat): Net
    requires a.node in net
  {
    var v := net[a.node];
    var s' := Step(v.s, a.event);
    net[a.node := Participant(s', Record(v.h, v.s, a.event),
                              v.sent + (if s'.b.Some? then {Advertise(s', slot)} else {}))]
  }

  function Pasts(net: Net): Histories {
    map v | v in net :: net[v].h
  }

  // -------------------------------------------------------------- invariants

  /** What a message says is backed by its sender's past. */
  ghost predicate Backed(m: Message, h: History) {
    match m
    case PrepareMessage(_, bn, bx, pn, px, ppn, ppx, cn, hn, _) =>
      && Ballot(bn, bx) in h.held
      && (pn > 0 ==> Ballot(pn, px) in h.prepared)
      && (ppn > 0 ==> Ballot(ppn, ppx) in h.prepared)
      && (cn != 0 ==> BallotRange(cn, hn, bx) <= h.votes)
    case ConfirmMessage(_, x, _, _, _, _) => x in h.claims
    case ExternalizeMessage(_, x, _, _, _) => x in h.claims
  }

  ghost predicate NodeOk(qs: QuorumSlice, v: Node, node: Participant) {
    && node.s.us == v && node.s.d == qs
    && Inv(node.s, node.h)
    && (forall m :: m in node.sent ==> Backed(m, node.h))
  }

  /** Every message remembered from a correct node was sent by it. */
  ghost predicate Authentic(net: Net, s: State) {
    forall k :: k in s.m && k in net ==> s.m[k] in net[k].sent
  }

  /** What holds in every run. */
  ghost predicate Sound(qs: QuorumSlice, net: Net) {
    forall v :: v in net ==> NodeOk(qs, v, net[v]) && Authentic(net, net[v].s)
  }

  ghost predicate NetInv(qs: QuorumSlice, net: Net) {
    Sound(qs, net) && Safe(qs, Pasts(net))
  }

  // ------------------------------------------------------------ one participant

  lemma AdvertiseIsBacked(s: State, h: History, slot: nat)
    requires Inv(s, h) && s.b.Some?
    ensures Backed(Advertise(s, slot), h)
  {
  }

  lemma BackedStays(m: Message, h: History, h': History)
    requires Backed(m, h) && Grows(h, h')
    ensures Backed(m, h')
  {
  }

  lemma StepKeepsIdentity(s: State, e: Event)
    ensures Step(s, e).us == s.us && Step(s, e).d == s.d
  {
    hide HasQuorum, Blocks, AcceptedAbort, GteCompat, GteIncompat;
  }

  /** Outside the Prepare phase, only a commit just accepted or a stray bump changes
      the value. */
  lemma LateValueIsKept(s: State, e: Event)
    requires Step(s, e).phase != Prepare && Step(s, e).b.Some? && !StrayBump(s, e)
    requires s.phase != Prepare ==> s.b.Some?
    requires !(e.TryAcceptCommitted? && MayAcceptCommitted(s, e.n, e.x) && Step(s, e).b.value.x == e.x)
    ensures s.phase != Prepare && s.b.value.x == Step(s, e).b.value.x
  {
    hide HasQuorum, Blocks, AcceptedAbort;
  }

  /** A value newly claimed outside the Prepare phase comes from a commit just accepted. */
  lemma NewClaimIsAccepted(s: State, h: History, e: Event, x: SlotValue)
    requires Inv(s, h) && !StrayBump(s, e)
    requires x in Record(h, s, e).claims && x !in h.claims
    ensures e.TryAcceptCommitted? && e.x == x && MayAcceptCommitted(s, e.n, x)
  {
    hide Step, StrayBump, MayAcceptCommitted;
    var s' := Step(s, e);
    if !(e.TryAcceptCommitted? && MayAcceptCommitted(s, e.n, e.x) && s'.b.value.x == e.x) {
      LateValueIsKept(s, e);
    }
  }

  // ------------------------------------------------- what peers have proved

  /** A quorum found locally satisfies the shared slice. */
  lemma LocalQuorum(s: State, nodes: set<Node>) returns (u: set<Node>)
    requires MeetsQuorumHere(s, nodes)
    ensures u <= nodes && Satisfies(s.d, u)
  {
    u :| u <= nodes && IsQuorum(Slices(s), s.us, u);
    assert Slices(s)[s.us] == s.d;
  }

  lemma AcceptingMessage(m: Message, h: History, n: nat, x: SlotValue)
    requires Backed(m, h) && n >= 1 && AcceptsPrepared(m, n, x)
    ensures Accepts(h, n, x)
  {
    if m.PrepareMessage? {
      if m.px == x {
        assert Ballot(m.pn, m.px) in h.prepared;
      } else {
        assert Ballot(m.ppn, m.ppx) in h.prepared;
      }
    }
  }

  lemma PreparingMessage(m: Message, h: History, n: nat, x: SlotValue)
    requires Backed(m, h) && n >= 1 && (AcceptsPrepared(m, n, x) || VotesPrepare(m, n, x))
    ensures Supports(h, n, x)
  {
    if AcceptsPrepared(m, n, x) {
      AcceptingMessage(m, h, n, x);
    } else {
      assert Ballot(m.bn, m.bx) in h.held;
    }
  }

  lemma CommittingMessage(m: Message, h: History, n: nat, x: SlotValue)
    requires Backed(m, h) && (AcceptsCommitted(m, n, x) || VotesCommit(m, n, x))
    ensures Ballot(n, x) in h.votes || x in h.claims
    ensures AcceptsCommitted(m, n, x) ==> x in h.claims
  {
    if m.PrepareMessage? {
      assert Ballot(n, x) in BallotRange(m.cn, m.hn, m.bx);
    }
  }

  /** Accepting (m,y) as prepared is justified by the past of the network. */
  lemma AcceptedIsSettled(qs: QuorumSlice, net: Net, v: Node, m: nat, y: SlotValue, n: nat, x: SlotValue)
    requires NetInv(qs, net) && v in net && m >= 1 && n <= m && x != y
    requires net[v].s.phase == Prepare && MayAcceptPrepared(net[v].s, m, y)
    ensures Settled(qs, Pasts(net), n, x)
  {
    var s := net[v].s;
    if MeetsQuorumHere(s, PrepareVoters(s, m, y)) {
      var u := LocalQuorum(s, PrepareVoters(s, m, y));
      forall k | k in u && k in Pasts(net)
        ensures Supports(Pasts(net)[k], m, y)
      {
        if k == v {
          assert s.b.value in net[v].h.held;
        } else {
          PreparingMessage(s.m[k], net[k].h, m, y);
        }
      }
      QuorumSettles(qs, Pasts(net), u, m, y, n, x);
    } else {
      forall k | k in PreparedBy(s, m, y) && k in Pasts(net)
        ensures Accepts(Pasts(net)[k], m, y)
      {
        AcceptingMessage(s.m[k], net[k].h, m, y);
      }
      BlockingSettles(qs, Pasts(net), PreparedBy(s, m, y), m, y, n, x);
    }
  }

  /** Accepting a commit of x is justified: x has been chosen. */
  lemma CommittedIsChosen(qs: QuorumSlice, net: Net, v: Node, n: nat, x: SlotValue)
    requires NetInv(qs, net) && v in net && MayAcceptCommitted(net[v].s, n, x)
    ensures exists k: nat :: Chosen(qs, Pasts(net), k, x)
  {
    var s := net[v].s;
    if MeetsQuorumHere(s, CommitVoters(s, n, x)) {
      var u := LocalQuorum(s, CommitVoters(s, n, x));
      forall k | k in u && k in Pasts(net)
        ensures Ballot(n, x) in Pasts(net)[k].votes || x in Pasts(net)[k].claims
      {
        if k == v {
          assert Ballot(n, x) in CommitVotes(s);
        } else {
          CommittingMessage(s.m[k], net[k].h, n, x);
        }
      }
      QuorumChooses(qs, Pasts(net), u, n, x);
    } else {
      forall k | k in CommittedBy(s, n, x) && k in Pasts(net)
        ensures x in Pasts(net)[k].claims
      {
        CommittingMessage(s.m[k], net[k].h, n, x);
      }
      BlockingChooses(qs, Pasts(net), CommittedBy(s, n, x), x);
    }
  }

  // ------------------------------------------------------------- one act

  lemma ActKeepsNodesOk(qs: QuorumSlice, net: Net, a: Act, slot: nat)
    requires Sound(qs, net) && Possible(net, a)
    ensures var net' := Perform(net, a, slot);
      NodeOk(qs, a.node, net'[a.node]) && Grows(net[a.node].h, net'[a.node].h)
  {
    hide Step, Record, Inv, Backed, Advertise;
    var v, v' := net[a.node], Perform(net, a, slot)[a.node];
    StepKeepsIdentity(v.s, a.event);
    StepKeepsInv(v.s, v.h, a.event);
    RecordGrows(v.s, v.h, a.event);
    forall m | m in v'.sent
      ensures Backed(m, v'.h)
    {
      if m in v.sent {
        BackedStays(m, v.h, v'.h);
      } else {
        AdvertiseIsBacked(v'.s, v'.h, slot);
      }
    }
  }

  lemma ActKeepsAuthentic(net: Net, a: Act, slot: nat)
    requires Possible(net, a) && forall v :: v in net ==> Authentic(net, net[v].s)
    ensures var net' := Perform(net, a, slot);
      forall v :: v in net' ==> Authentic(net', net'[v].s)
  {
    var net' := Perform(net, a, slot);
    var s, s' := net[a.node].s, net'[a.node].s;
    ReceivedMessages(s, a.event);
    forall v | v in net'
      ensures Authentic(net', net'[v].s)
    {
      assert Authentic(net, net[v].s);
    }
  }

  lemma ReceivedMessages(s: State, e: Event)
    ensures Step(s, e).m == if e.Receive? then s.m[e.from := e.message] else s.m
  {
    hide HasQuorum, Blocks, AcceptedAbort, GteCompat, GteIncompat;
  }

  lemma ActKeepsSound(qs: QuorumSlice, net: Net, a: Act, slot: nat)
    requires Sound(qs, net) && Possible(net, a)
    ensures Sound(qs, Perform(net, a, slot))
  {
    hide Step, Record, NodeOk, Authentic;
    ActKeepsNodesOk(qs, net, a, slot);
    ActKeepsAuthentic(net, a, slot);
  }

  lemma NewPreparedIsSettled(qs: QuorumSlice, net: Net, v: Node, e: Event, h': History)
    requires NetInv(qs, net) && v in net && Sensible(v, e)
    requires h' == Record(net[v].h, net[v].s, e)
    ensures forall q, n: nat, x ::
      q in h'.prepared && q !in net[v].h.prepared && n <= q.n && x != q.x ==> Settled(qs, Pasts(net), n, x)
  {
    forall q, n: nat, x | q in h'.prepared && q !in net[v].h.prepared && n <= q.n && x != q.x
      ensures Settled(qs, Pasts(net), n, x)
    {
      assert NewlyPrepared(net[v].s, e) && q == Ballot(e.n, e.x);
      AcceptedIsSettled(qs, net, v, q.n, q.x, n, x);
    }
  }

  lemma NewClaimIsChosen(qs: QuorumSlice, net: Net, v: Node, e: Event, h': History)
    requires NetInv(qs, net) && v in net && !StrayBump(net[v].s, e)
    requires h' == Record(net[v].h, net[v].s, e)
    ensures forall x :: x in h'.claims && x !in net[v].h.claims ==> exists k: nat :: Chosen(qs, Pasts(net), k, x)
  {
    forall x | x in h'.claims && x !in net[v].h.claims
      ensures exists k: nat :: Chosen(qs, Pasts(net), k, x)
    {
      NewClaimIsAccepted(net[v].s, net[v].h, e, x);
      CommittedIsChosen(qs, net, v, e.n, x);
    }
  }

  lemma ActKeepsSafe(qs: QuorumSlice, net: Net, v: Node, e: Event, h': History)
    requires NetInv(qs, net) && v in net && Sensible(v, e) && !StrayBump(net[v].s, e)
    requires h' == Record(net[v].h, net[v].s, e)
    requires VotesAreSound(h') && Grows(net[v].h, h')
    ensures Safe(qs, Pasts(net)[v := h'])
  {
    NewPreparedIsSettled(qs, net, v, e, h');
    NewClaimIsChosen(qs, net, v, e, h');
    GrowthKeepsSafe(qs, Pasts(net), v, h');
  }

  lemma PastsUpdate(net: Net, v: Node, node: Participant)
    ensures Pasts(net[v := node]) == Pasts(net)[v := node.h]
  {
  }

  lemma ActKeepsNetInv(qs: QuorumSlice, net: Net, a: Act, slot: nat)
    requires NetInv(qs, net) && Possible(net, a) && !StrayBump(net[a.node].s, a.event)
    ensures NetInv(qs, Perform(net, a, slot))
  {
    var net' := Perform(net, a, slot);
    ActKeepsNodesOk(qs, net, a, slot);
    ActKeepsSound(qs, net, a, slot);
    ActKeepsSafe(qs, net, a.node, a.event, net'[a.node].h);
    PastsUpdate(net, a.node, net'[a.node]);
  }

  // ---------------------------------------------------------------- whole runs

  ghost predicate Valid(net: Net, acts: seq<Act>, slot: nat)
    decreases |acts|, 0
  {
    acts == [] ||
    (Valid(net, Front(acts), slot) && Possible(After(net, Front(acts), slot), Last(acts)))
  }

  ghost function After(net: Net, acts: seq<Act>, slot: nat): Net
    requires Valid(net, acts, slot)
    decreases |acts|, 1
  {
    if acts == [] then net else Perform(After(net, Front(acts), slot), Last(acts), slot)
  }

  function Front(acts: seq<Act>): seq<Act>
    requires acts != []
  {
    acts[..|acts| - 1]
  }

  function Last(acts: seq<Act>): Act
    requires acts != []
  {
    acts[|acts| - 1]
  }

  /** No act of the run takes a node outside the Prepare phase to another value. */
  ghost predicate NoStrayBump(net: Net, acts: seq<Act>, slot: nat)
    requires Valid(net, acts, slot)
    decreases |acts|
  {
    acts != [] ==>
      && NoStrayBump(net, Front(acts), slot)
      && !StrayBump(After(net, Front(acts), slot)[Last(acts).node].s, Last(acts).event)
  }

  lemma EmptyPastsAreSafe(qs: QuorumSlice, hs: Histories)
    requires Tolerates(qs, hs.Keys) && forall v :: v in hs ==> hs[v] == NoHistory
    ensures Safe(qs, hs)
  {
  }

  lemma StartIsSafe(qs: QuorumSlice, correct: set<Node>)
    requires Tolerates(qs, correct)
    ensures NetInv(qs, Start(qs, correct))
  {
    var net := Start(qs, correct);
    assert Pasts(net).Keys == correct;
    EmptyPastsAreSafe(qs, Pasts(net));
    forall v | v in net
      ensures NodeOk(qs, v, net[v]) && Authentic(net, net[v].s)
    {
      InitialInv(v, qs);
    }
  }

  lemma {:induction false} RunKeepsNetInv(qs: QuorumSlice, net: Net, acts: seq<Act>, slot: nat)
    requires NetInv(qs, net) && Valid(net, acts, slot) && NoStrayBump(net, acts, slot)
    ensures NetInv(qs, After(net, acts, slot))
    decreases |acts|
  {
    if acts != [] {
      RunKeepsNetInv(qs, net, Front(acts), slot);
      ActKeepsNetInv(qs, After(net, Front(acts), slot), Last(acts), slot);
    }
  }

  // -------------------------------------------------------------- agreement

  /** All values ever held outside the Prepare phase, by any correct nodes at any
      times, are the same. */
  ghost predicate Agreed(net: Net) {
    AllClaimsAgree(Pasts(net))
  }

  /** A stray bump leaves the node with two claims. */
  lemma StrayBumpDisagrees(qs: QuorumSlice, net: Net, a: Act, slot: nat)
    requires NetInv(qs, net) && Possible(net, a) && StrayBump(net[a.node].s, a.event)
    ensures !Agreed(Perform(net, a, slot))
  {
    var v, v' := net[a.node], Perform(net, a, slot)[a.node];
    StrayBumpMoves(v.s, a.event);
    var hs := Pasts(Perform(net, a, slot));
    assert v.s.b.value.x in hs[a.node].claims;
    assert v'.s.b.value.x in hs[a.node].claims;
  }

  lemma StrayBumpMoves(s: State, e: Event)
    requires StrayBump(s, e)
    ensures Step(s, e).phase != Prepare && Step(s, e).b.Some? && Step(s, e).b.value.x != s.b.value.x
  {
  }

  lemma DisagreementLasts(net: Net, a: Act, slot: nat)
    requires Possible(net, a) && !Agreed(net)
    ensures !Agreed(Perform(net, a, slot))
  {
    var hs, hs' := Pasts(net), Pasts(Perform(net, a, slot));
    var u, v, x, y :| u in hs && v in hs && x in hs[u].claims && y in hs[v].claims && x != y;
    assert x in hs'[u].claims && y in hs'[v].claims;
  }

  lemma {:induction false} StrayRunDisagrees(qs: QuorumSlice, net: Net, acts: seq<Act>, slot: nat)
    requires NetInv(qs, net) && Valid(net, acts, slot) && !NoStrayBump(net, acts, slot)
    ensures !Agreed(After(net, acts, slot))
    decreases |acts|
  {
    var front := Front(acts);
    if NoStrayBump(net, front, slot) {
      RunKeepsNetInv(qs, net, front, slot);
      StrayBumpDisagrees(qs, After(net, front, slot), Last(acts), slot);
    } else {
      StrayRunDisagrees(qs, net, front, slot);
      DisagreementLasts(After(net, front, slot), Last(acts), slot);
    }
  }

  /** Agreement, for every run of every network within the fault bound: the correct
      nodes agree exactly when no node outside the Prepare phase has taken a next
      ballot whose value differs from its own. */
  lemma AgreementIffNoStrayBump(qs: QuorumSlice, correct: set<Node>, acts: seq<Act>, slot: nat)
    requires Tolerates(qs, correct) && Valid(Start(qs, correct), acts, slot)
    ensures Agreed(After(Start(qs, correct), acts, slot)) <==> NoStrayBump(Start(qs, correct), acts, slot)
  {
    var net := Start(qs, correct);
    StartIsSafe(qs, correct);
    if NoStrayBump(net, acts, slot) {
      RunKeepsNetInv(qs, net, acts, slot);
      SafeImpliesAgreement(qs, Pasts(After(net, acts, slot)));
    } else {
      StrayRunDisagrees(qs, net, acts, slot);
    }
  }

  // --------------------------------------- when stray bumps cannot happen

  /** z holds the value in hand once the node has left the Prepare phase. */
  ghost predicate Anchored(s: State) {
    s.phase != Prepare ==> s.b.Some? && s.z == Some(s.b.value.x)
  }

  /** This event leaves the Prepare phase for a value already in hand, while z holds
      something else. */
  ghost predicate LooseEntry(s: State, e: Event) {
    && e.TryAcceptCommitted? && s.phase == Prepare && MayAcceptCommitted(s, e.n, e.x)
    && s.b.Some? && s.b.value.x == e.x && s.z != Some(e.x)
  }

  /** Leaving the Prepare phase by a quorum is never loose: such a node voted to commit. */
  lemma QuorumEntryIsNotLoose(s: State, h: History, n: nat, x: SlotValue)
    requires Inv(s, h) && s.phase == Prepare && MeetsQuorumHere(s, CommitVoters(s, n, x))
    ensures !LooseEntry(s, TryAcceptCommitted(n, x))
  {
    QuorumNeedsUs(s, CommitVoters(s, n, x));
  }

  lemma StepStaysAnchored(s: State, e: Event)
    requires Anchored(s) && !LooseEntry(s, e)
    ensures Anchored(Step(s, e)) && !StrayBump(s, e)
  {
  }

  ghost predicate NoLooseEntry(net: Net, acts: seq<Act>, slot: nat)
    requires Valid(net, acts, slot)
    decreases |acts|
  {
    acts != [] ==>
      && NoLooseEntry(net, Front(acts), slot)
      && !LooseEntry(After(net, Front(acts), slot)[Last(acts).node].s, Last(acts).event)
  }

  lemma {:induction false} AnchoredRun(net: Net, acts: seq<Act>, slot: nat)
    requires Valid(net, acts, slot) && NoLooseEntry(net, acts, slot)
    requires forall v :: v in net ==> Anchored(net[v].s)
    ensures forall v :: v in After(net, acts, slot) ==> Anchored(After(net, acts, slot)[v].s)
    ensures NoStrayBump(net, acts, slot)
    decreases |acts|
  {
    if acts != [] {
      AnchoredRun(net, Front(acts), slot);
      var before := After(net, Front(acts), slot);
      StepStaysAnchored(before[Last(acts).node].s, Last(acts).event);
    }
  }

  /** Agreement whenever z holds b.x on leaving the Prepare phase: any two correct
      nodes outside that phase have the same value. */
  lemma AgreementWhenEntriesAreAnchored(qs: QuorumSlice, correct: set<Node>, acts: seq<Act>, slot: nat, u: Node,
                                        v: Node)
    requires Tolerates(qs, correct) && Valid(Start(qs, correct), acts, slot)
    requires NoLooseEntry(Start(qs, correct), acts, slot)
    requires var net := After(Start(qs, correct), acts, slot);
      u in net && v in net && net[u].s.phase != Prepare && net[v].s.phase != Prepare
    ensures var net := After(Start(qs, correct), acts, slot);
      net[u].s.b.Some? && net[v].s.b.Some? && net[u].s.b.value.x == net[v].s.b.value.x
  {
    var start := Start(qs, correct);
    AnchoredRun(start, acts, slot);
    StartIsSafe(qs, correct);
    RunKeepsNetInv(qs, start, acts, slot);
    var net := After(start, acts, slot);
    SafeImpliesAgreement(qs, Pasts(net));
    assert NodeOk(qs, u, net[u]) && NodeOk(qs, v, net[v]);
    assert net[u].s.b.value.x in Pasts(net)[u].claims;
    assert net[v].s.b.value.x in Pasts(net)[v].claims;
  }
}
