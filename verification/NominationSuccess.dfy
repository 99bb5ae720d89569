/** Every quorum of correct nodes can get a value of its choice nominated, accepted and
    confirmed: there is a run in which it does. */
module NominationSuccess {
  import opened Quorum
  import opened BallotMessages
  import opened Nominating
  import opened NominationNetwork
  import opened NominationProgress

  /** A network with a shared slice, a quorum `u` of its correct nodes, and a value. */
  datatype Party = Party(qs: QuorumSlice, correct: set<Node>, u: set<Node>, v: SlotValue, slot: nat) {
    ghost predicate Able() {
      FaultsDoNotBlock(qs, correct) && u <= correct && Satisfies(qs, u) && |u| >= 2
    }

    /** What everybody in the quorum says first. */
    function Vote(): Nomination {
      NominationMessage(slot, [v], [], qs)
    }

    ghost predicate Reaches(acts: seq<Act>, net: Net) {
      Valid(Start(qs, correct), acts, slot) && After(Start(qs, correct), acts, slot) == net && net.Keys == correct
    }
  }

  lemma OneMore(p: Party, acts: seq<Act>, net: Net, a: Act)
    requires p.Reaches(acts, net) && Possible(net, a)
    ensures p.Reaches(acts + [a], Perform(net, a, p.slot))
  {
    hide Next;
    var more := acts + [a];
    assert more[..|more| - 1] == acts && more[|more| - 1] == a;
  }

  lemma ReachedIsFine(p: Party, acts: seq<Act>, net: Net, k: Node)
    requires p.Able() && p.Reaches(acts, net) && k in p.u
    ensures k in net && PeerOk(p.qs, k, net[k])
  {
    RunKeepsNetInv(p.qs, p.correct, acts, p.slot);
    hide PeerOk, After;
  }

  /** Only node `k` has moved. */
  ghost predicate OnlyMoved(net: Net, net': Net, k: Node) {
    net'.Keys == net.Keys && forall j :: j in net && j != k ==> net'[j] == net[j]
  }

  // ------------------------------------------------------------------- nominating

  ghost predicate HasVoted(p: Party, peer: Peer) {
    p.Vote() in peer.sent && p.v in peer.s.x && peer.s.n == map[]
  }

  lemma {:induction false} EverybodyNominates(p: Party, acts: seq<Act>, net: Net, todo: set<Node>)
    returns (acts': seq<Act>, net': Net)
    requires p.Able() && p.Reaches(acts, net) && todo <= p.u
    requires forall k :: k in p.u ==> if k in todo then net[k].s == Initial(k, p.qs) else HasVoted(p, net[k])
    ensures p.Reaches(acts', net') && forall k :: k in p.u ==> HasVoted(p, net'[k])
    decreases |todo|
  {
    if todo == {} {
      acts', net' := acts, net;
    } else {
      var k :| k in todo;
      var a := Nominate(k, p.v);
      OneMore(p, acts, net, a);
      var next := Perform(net, a, p.slot);
      assert HasVoted(p, next[k]);
      hide HasVoted;
      acts', net' := EverybodyNominates(p, acts + [a], next, todo - {k});
    }
  }

  // -------------------------------------------------------------------- accepting

  /** The node has told others that it accepted the value. */
  ghost predicate HasTold(p: Party, peer: Peer) {
    exists m :: m in peer.sent && p.v in m.acc
  }

  /** `h` has heard the vote of everybody in `u`. */
  ghost predicate HasHeard(p: Party, s: State, u: set<Node>) {
    forall w :: w in u ==> w in s.n && s.n[w] == p.Vote()
  }

  ghost predicate HasAccepted(p: Party, h: Node, peer: Peer) {
    && p.Vote() in peer.sent && p.v in peer.s.x && p.v in peer.s.y && HasTold(p, peer)
    && HasHeard(p, peer.s, p.u - {h})
  }

  lemma VoteIsNew(p: Party, s: State, w: Node)
    requires w !in s.n
    ensures Brings(s, w, p.Vote(), p.v)
  {
  }

  lemma SharedQuorum(p: Party, s: State, h: Node)
    requires p.Able() && h in p.u && s.us == h && s.d == p.qs
    requires forall w :: w in p.u && w != h ==> w in s.n && s.n[w].d == p.qs
    ensures IsQuorum(Slices(s), h, p.u)
  {
    hide Satisfies;
  }

  /** What one hearing does to the hearer. */
  lemma AfterHearing(p: Party, net: Net, h: Node, w: Node, m: Nomination)
    requires p.Able() && h in net && w != h && PeerOk(p.qs, h, net[h])
    ensures var a := Hear(h, w, m, (x: SlotValue) => true);
      var net' := Perform(net, a, p.slot);
      var s, s' := net[h].s, net'[h].s;
      && s' == Handle(s, w, m, (x: SlotValue) => true)
      && OnlyMoved(net, net', h) && Extends(s, s') && net[h].sent <= net'[h].sent
      && Nominating.Advertise(s', p.slot) in net'[h].sent
  {
    HandleKeepsInv(net[h].s, w, m, (x: SlotValue) => true);
    hide Handle, Inv, Nominating.Advertise;
  }

  lemma LastVoteIsEnough(p: Party, s: State, h: Node, w: Node)
    requires p.Able() && h in p.u && w in p.u && w != h && s.us == h && s.d == p.qs && Inv(s)
    requires p.v in s.x && w !in s.n && HasHeard(p, s, p.u - {h} - {w})
    ensures p.v in Handle(s, w, p.Vote(), (x: SlotValue) => true).y
  {
    var s1 := s.(n := s.n[w := p.Vote()]);
    VoteIsNew(p, s, w);
    SharedQuorum(p, s1, h);
    hide Handle, Inv, Brings, Slices;
    HandleAccepts(s, w, p.Vote(), (x: SlotValue) => true, p.u, p.v);
  }

  /** `h` supports the value, everybody's vote can be heard, and those in `rest` are still to
      be heard. */
  ghost predicate Listening(p: Party, net: Net, h: Node, rest: set<Node>) {
    && (forall k :: k in p.u ==> k in net && p.Vote() in net[k].sent)
    && h in net && Listener(p, net[h].s, h, rest)
  }

  ghost predicate Listener(p: Party, s: State, h: Node, rest: set<Node>) {
    p.v in s.x && HasHeard(p, s, p.u - {h} - rest) && s.n.Keys !! rest
  }

  lemma ListenerAfter(p: Party, s: State, h: Node, w: Node, rest: set<Node>)
    requires Listener(p, s, h, rest) && w in rest && w != h && s.us == h && Inv(s)
    ensures Listener(p, Handle(s, w, p.Vote(), (x: SlotValue) => true), h, rest - {w})
  {
    VoteIsNew(p, s, w);
    HandleRemembers(s, w, p.Vote(), (x: SlotValue) => true);
    HandleKeepsInv(s, w, p.Vote(), (x: SlotValue) => true);
    hide Handle, Inv, IsStale;
  }

  lemma HearVote(p: Party, acts: seq<Act>, net: Net, h: Node, w: Node, rest: set<Node>) returns (next: Net)
    requires p.Able() && p.Reaches(acts, net) && h in p.u && rest <= p.u - {h} && w in rest
    requires Listening(p, net, h, rest)
    ensures p.Reaches(acts + [Hear(h, w, p.Vote(), (x: SlotValue) => true)], next) && OnlyMoved(net, next, h)
    ensures Listening(p, next, h, rest - {w}) && (rest == {w} ==> HasAccepted(p, h, next[h]))
  {
    var a := Hear(h, w, p.Vote(), (x: SlotValue) => true);
    ReachedIsFine(p, acts, net, h);
    OneMore(p, acts, net, a);
    AfterHearing(p, net, h, w, p.Vote());
    ListenerAfter(p, net[h].s, h, w, rest);
    next := Perform(net, a, p.slot);
    hide Handle, Inv, Next, p.Able, p.Reaches, Listener, HasTold;
    if rest == {w} {
      ListenerHears(p, net[h].s, h, w);
      LastVoteIsEnough(p, net[h].s, h, w);
      ToldAfterAccepting(p, next[h]);
      ListenerDone(p, next[h].s, h, rest - {w});
    }
  }

  lemma ListenerHears(p: Party, s: State, h: Node, w: Node)
    requires Listener(p, s, h, {w})
    ensures p.v in s.x && w !in s.n && HasHeard(p, s, p.u - {h} - {w})
  {
  }

  lemma ListenerDone(p: Party, s: State, h: Node, rest: set<Node>)
    requires Listener(p, s, h, rest) && rest == {}
    ensures p.v in s.x && HasHeard(p, s, p.u - {h})
  {
    assert p.u - {h} - rest == p.u - {h};
  }

  lemma {:induction false} HearVotes(p: Party, acts: seq<Act>, net: Net, h: Node, rest: set<Node>)
    returns (acts': seq<Act>, net': Net)
    requires p.Able() && p.Reaches(acts, net) && h in p.u && rest <= p.u - {h} && rest != {}
    requires Listening(p, net, h, rest)
    ensures p.Reaches(acts', net') && OnlyMoved(net, net', h) && HasAccepted(p, h, net'[h])
    decreases |rest|
  {
    hide p.Able, p.Reaches, Listening, HasAccepted;
    var w :| w in rest;
    var next := HearVote(p, acts, net, h, w, rest);
    acts', net' := acts + [Hear(h, w, p.Vote(), (x: SlotValue) => true)], next;
    if rest != {w} {
      acts', net' := HearVotes(p, acts', next, h, rest - {w});
    }
  }

  lemma ToldAfterAccepting(p: Party, peer: Peer)
    requires p.v in peer.s.y && Nominating.Advertise(peer.s, p.slot) in peer.sent
    ensures HasTold(p, peer)
  {
  }

  lemma SomebodyElse(p: Party, h: Node)
    requires p.Able() && h in p.u
    ensures p.u - {h} != {}
  {
    assert p.u == (p.u - {h}) + {h};
  }

  /** Those in `todo` have voted, the others have accepted. */
  ghost predicate Accepting(p: Party, net: Net, todo: set<Node>) {
    forall k :: k in p.u ==> k in net && if k in todo then HasVoted(p, net[k]) else HasAccepted(p, k, net[k])
  }

  lemma OneMoreAccepts(p: Party, net: Net, net': Net, todo: set<Node>, h: Node)
    requires Accepting(p, net, todo) && h in todo && h in p.u && OnlyMoved(net, net', h) && HasAccepted(p, h, net'[h])
    ensures Accepting(p, net', todo - {h})
  {
    hide HasVoted, HasAccepted;
  }

  lemma {:induction false} EverybodyAccepts(p: Party, acts: seq<Act>, net: Net, todo: set<Node>)
    returns (acts': seq<Act>, net': Net)
    requires p.Able() && p.Reaches(acts, net) && todo <= p.u && Accepting(p, net, todo)
    ensures p.Reaches(acts', net') && Accepting(p, net', {})
    decreases |todo|
  {
    hide p.Reaches, Accepting, Listening, OnlyMoved, HasAccepted;
    acts', net' := acts, net;
    if todo != {} {
      var h :| h in todo;
      SomebodyElse(p, h);
      StartsListening(p, net, todo, h);
      acts', net' := HearVotes(p, acts, net, h, p.u - {h});
      OneMoreAccepts(p, net, net', todo, h);
      acts', net' := EverybodyAccepts(p, acts', net', todo - {h});
    }
  }

  lemma StartsListening(p: Party, net: Net, todo: set<Node>, h: Node)
    requires Accepting(p, net, todo) && h in todo && h in p.u
    ensures Listening(p, net, h, p.u - {h})
  {
    assert p.u - {h} - (p.u - {h}) == {};
    assert HasVoted(p, net[h]);
    hide HasTold;
  }

  // ------------------------------------------------------------------- confirming

  /** The node has confirmed the value, and still tells others that it accepted it. */
  ghost predicate HasConfirmed(p: Party, peer: Peer) {
    p.Vote() in peer.sent && HasTold(p, peer) && p.v in peer.s.y && p.v in peer.s.z
  }

  /** `h` has accepted the value, and has heard so of everybody but those in `rest`. */
  ghost predicate Learner(p: Party, s: State, h: Node, rest: set<Node>) {
    p.v in s.y && forall w :: w in p.u - {h} ==>
      w in s.n && s.n[w].d == p.qs && if w in rest then s.n[w] == p.Vote() else p.v in s.n[w].acc
  }

  ghost predicate Learning(p: Party, net: Net, h: Node, rest: set<Node>) {
    && (forall k :: k in p.u ==> k in net && p.Vote() in net[k].sent && HasTold(p, net[k]))
    && h in net && Learner(p, net[h].s, h, rest)
  }

  /** What a node said after accepting the value goes beyond its vote. */
  lemma ToldIsNew(p: Party, w: Node, peer: Peer, m: Nomination)
    requires PeerOk(p.qs, w, peer) && p.Vote() in peer.sent && m in peer.sent && p.v in m.acc
    ensures m.d == p.qs && |m.nom| >= 1
  {
    assert Within(m, p.Vote()) || Within(p.Vote(), m);
    hide Inv;
  }

  lemma ToldBrings(p: Party, s: State, w: Node, m: Nomination)
    requires w in s.n && s.n[w] == p.Vote() && p.v in m.acc && |m.nom| >= 1
    ensures Brings(s, w, m, p.v)
  {
    assert m.acc[0..] == m.acc;
    assert forall x :: x in m.acc ==> x in m.nom[1..] + m.acc;
  }

  lemma ToldSaysMore(p: Party, s: State, w: Node, m: Nomination)
    requires w in s.n && s.n[w] == p.Vote() && p.v in m.acc && |m.nom| >= 1
    ensures SaysMore(s, w, m)
  {
  }

  lemma LearnerAfter(p: Party, s: State, h: Node, w: Node, m: Nomination, rest: set<Node>)
    requires Learner(p, s, h, rest) && w in rest && rest <= p.u - {h}
    requires s.us == h && Inv(s) && p.v in m.acc && |m.nom| >= 1 && m.d == p.qs
    ensures Learner(p, Handle(s, w, m, (x: SlotValue) => true), h, rest - {w})
  {
    ToldSaysMore(p, s, w, m);
    HandleRemembers(s, w, m, (x: SlotValue) => true);
    HandleKeepsInv(s, w, m, (x: SlotValue) => true);
    hide Handle, Inv, SaysMore;
  }

  lemma LastAcceptanceIsEnough(p: Party, s: State, h: Node, w: Node, m: Nomination)
    requires p.Able() && h in p.u && Learner(p, s, h, {w}) && w in p.u - {h}
    requires s.us == h && s.d == p.qs && Inv(s) && p.v in m.acc && |m.nom| >= 1 && m.d == p.qs
    ensures p.v in Handle(s, w, m, (x: SlotValue) => true).z
  {
    ToldBrings(p, s, w, m);
    hide Handle, Inv, Brings;
    var s1 := s.(n := s.n[w := m]);
    SharedQuorum(p, s1, h);
    hide Slices;
    HandleConfirms(s, w, m, (x: SlotValue) => true, p.u, p.v);
  }

  lemma HearAcceptance(p: Party, acts: seq<Act>, net: Net, h: Node, w: Node, rest: set<Node>)
    returns (a: Act, next: Net)
    requires p.Able() && p.Reaches(acts, net) && h in p.u && rest <= p.u - {h} && w in rest && Learning(p, net, h, rest)
    ensures p.Reaches(acts + [a], next) && OnlyMoved(net, next, h)
    ensures Learning(p, next, h, rest - {w}) && (rest == {w} ==> HasConfirmed(p, next[h]))
  {
    hide Handle, Inv, Next, p.Able, p.Reaches, Learner;
    var m :| m in net[w].sent && p.v in m.acc;
    a := Hear(h, w, m, (x: SlotValue) => true);
    ReachedIsFine(p, acts, net, h);
    ReachedIsFine(p, acts, net, w);
    ToldIsNew(p, w, net[w], m);
    OneMore(p, acts, net, a);
    AfterHearing(p, net, h, w, m);
    LearnerAfter(p, net[h].s, h, w, m, rest);
    if rest == {w} {
      LastAcceptanceIsEnough(p, net[h].s, h, w, m);
    }
    next := Perform(net, a, p.slot);
    hide PeerOk;
    StillTold(p, net[h], next[h]);
    hide HasTold;
    assert p.v in next[h].s.y by { LearnerAccepted(p, next[h].s, h, rest - {w}); }
  }

  lemma StillTold(p: Party, peer: Peer, peer': Peer)
    requires HasTold(p, peer) && peer.sent <= peer'.sent
    ensures HasTold(p, peer')
  {
  }

  lemma LearnerAccepted(p: Party, s: State, h: Node, rest: set<Node>)
    requires Learner(p, s, h, rest)
    ensures p.v in s.y
  {
  }

  lemma {:induction false} HearAcceptances(p: Party, acts: seq<Act>, net: Net, h: Node, rest: set<Node>)
    returns (acts': seq<Act>, net': Net)
    requires p.Able() && p.Reaches(acts, net) && h in p.u && rest <= p.u - {h} && rest != {}
    requires Learning(p, net, h, rest)
    ensures p.Reaches(acts', net') && OnlyMoved(net, net', h) && HasConfirmed(p, net'[h])
    decreases |rest|
  {
    hide p.Able, p.Reaches, Learning, HasConfirmed;
    var w :| w in rest;
    var a, next := HearAcceptance(p, acts, net, h, w, rest);
    acts', net' := acts + [a], next;
    if rest != {w} {
      acts', net' := HearAcceptances(p, acts', next, h, rest - {w});
    }
  }

  /** Those in `todo` have accepted, the others have confirmed. */
  ghost predicate Confirming(p: Party, net: Net, todo: set<Node>) {
    forall k :: k in p.u ==> k in net && if k in todo then HasAccepted(p, k, net[k]) else HasConfirmed(p, net[k])
  }

  lemma OneMoreConfirms(p: Party, net: Net, net': Net, todo: set<Node>, h: Node)
    requires Confirming(p, net, todo) && h in todo && h in p.u && OnlyMoved(net, net', h) && HasConfirmed(p, net'[h])
    ensures Confirming(p, net', todo - {h})
  {
    hide HasConfirmed, HasAccepted;
  }

  lemma StartsLearning(p: Party, net: Net, todo: set<Node>, h: Node)
    requires Confirming(p, net, todo) && h in todo && h in p.u
    ensures Learning(p, net, h, p.u - {h})
  {
    assert HasAccepted(p, h, net[h]);
    hide HasTold;
  }

  lemma {:induction false} EverybodyConfirms(p: Party, acts: seq<Act>, net: Net, todo: set<Node>)
    returns (acts': seq<Act>, net': Net)
    requires p.Able() && p.Reaches(acts, net) && todo <= p.u && Confirming(p, net, todo)
    ensures p.Reaches(acts', net') && Confirming(p, net', {})
    decreases |todo|
  {
    hide p.Reaches, Confirming, Learning, OnlyMoved, HasConfirmed;
    acts', net' := acts, net;
    if todo != {} {
      var h :| h in todo;
      SomebodyElse(p, h);
      StartsLearning(p, net, todo, h);
      acts', net' := HearAcceptances(p, acts, net, h, p.u - {h});
      OneMoreConfirms(p, net, net', todo, h);
      acts', net' := EverybodyConfirms(p, acts', net', todo - {h});
    }
  }

  // ----------------------------------------------------------------- the run

  /** In every network, every quorum of at least two correct nodes and every value have a run
      after which all of that quorum have accepted and confirmed the value. */
  lemma QuorumCanConfirm(p: Party) returns (acts: seq<Act>)
    requires p.Able()
    ensures Valid(Start(p.qs, p.correct), acts, p.slot)
    ensures var net := After(Start(p.qs, p.correct), acts, p.slot);
      forall k :: k in p.u ==> k in net && p.v in net[k].s.y && p.v in net[k].s.z
  {
    var net := Start(p.qs, p.correct);
    assert p.Reaches([], net);
    acts, net := EverybodyNominates(p, [], net, p.u);
    assert Accepting(p, net, p.u) by { hide HasVoted; }
    acts, net := EverybodyAccepts(p, acts, net, p.u);
    assert Confirming(p, net, p.u) by { hide HasAccepted; }
    acts, net := EverybodyConfirms(p, acts, net, p.u);
    hide HasTold;
  }
}
