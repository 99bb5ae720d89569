/** From agreement in every slot to one replicated ledger. */
module Replicas {
  import opened Quorum
  import opened BallotMessages
  import opened Agreement
  import opened Network
  import opened Ledger
  import opened Queueing
  import opened Lockstep

  /** In this run of a slot, within the fault bound and without a stray bump, the two nodes
      sent these outcomes. */
  ghost predicate Decides(qs: QuorumSlice, correct: set<Node>, acts: seq<Act>, slot: nat, u: Node, m: Message,
                          v: Node, m': Message) {
    && Valid(Start(qs, correct), acts, slot) && NoStrayBump(Start(qs, correct), acts, slot)
    && var net := After(Start(qs, correct), acts, slot);
       && u in net && m in net[u].sent && m.ExternalizeMessage?
       && v in net && m' in net[v].sent && m'.ExternalizeMessage?
  }

  lemma DecidesOnce(qs: QuorumSlice, correct: set<Node>, acts: seq<Act>, slot: nat, u: Node, m: Message, v: Node,
                    m': Message)
    requires Tolerates(qs, correct) && Decides(qs, correct, acts, slot, u, m, v, m')
    ensures m.x == m'.x
  {
    var net := After(Start(qs, correct), acts, slot);
    StartIsSafe(qs, correct);
    RunKeepsNetInv(qs, Start(qs, correct), acts, slot);
    SafeImpliesAgreement(qs, Pasts(net));
    assert NodeOk(qs, u, net[u]) && NodeOk(qs, v, net[v]);
    assert Backed(m, net[u].h) && Backed(m', net[v].h);
    assert m.x in Pasts(net)[u].claims && m'.x in Pasts(net)[v].claims;
  }

  /** Two correct nodes that got the outcomes in their history from runs of the consensus,
      one run for each slot, have one ledger: the same chunks as far as both go, and at the
      same slot the same accounts. */
  lemma ReplicasAgree(qs: QuorumSlice, correct: set<Node>, runs: nat -> seq<Act>, rules: Rules, initial: Accounts,
                      u: Node, s: NodeState, v: Node, t: NodeState)
    requires Tolerates(qs, correct) && HashIsInjective(rules)
    requires NodeInv(rules, initial, qs, s) && NodeInv(rules, initial, qs, t) && s.slot <= t.slot
    requires forall i: nat :: 1 <= i < s.slot ==> Decides(qs, correct, runs(i), i, u, s.history[i], v, t.history[i])
    ensures Archive(s.queue) <= Archive(t.queue)
    ensures s.slot == t.slot ==>
              && s.queue.accounts == t.queue.accounts && s.queue.last == t.queue.last
              && s.queue.oldChunks == t.queue.oldChunks
  {
    hide QueueInv, DatabaseInv, HistoryMatches, Decides, Tolerates;
    forall i: nat | 1 <= i < s.slot
      ensures s.history[i].ExternalizeMessage? && t.history[i].ExternalizeMessage? && s.history[i].x == t.history[i].x
    {
      OutcomesAreThere(qs, correct, runs(i), i, u, s.history[i], v, t.history[i]);
      DecidesOnce(qs, correct, runs(i), i, u, s.history[i], v, t.history[i]);
    }
    SameOutcomesSameLedger(rules, initial, qs, qs, s, t);
  }

  lemma OutcomesAreThere(qs: QuorumSlice, correct: set<Node>, acts: seq<Act>, slot: nat, u: Node, m: Message,
                         v: Node, m': Message)
    requires Decides(qs, correct, acts, slot, u, m, v, m')
    ensures m.ExternalizeMessage? && m'.ExternalizeMessage?
  {
  }
}
