/** The ledger of a node over all its slots: one run of operations, which conserves money
    and finalizes no operation twice (currency/operation_queue.go, account_map.go). */
module WholeLedger {
  import opened Ledger
  import opened Money
  import opened Queueing

  /** All operations of some chunks, in order. */
  ghost function AllOperations(chunks: seq<Chunk>): seq<SignedOperation> {
    if chunks == [] then [] else AllOperations(chunks[..|chunks| - 1]) + chunks[|chunks| - 1].operations
  }

  lemma {:induction false} ProcessAllJoins(m: Accounts, a: seq<SignedOperation>, b: seq<SignedOperation>,
                                           verify: SendOperation -> bool)
    requires ProcessAll(m, a, verify).ok
    ensures ProcessAll(m, a + b, verify) == ProcessAll(ProcessAll(m, a, verify).accounts, b, verify)
    decreases |a|
  {
    if a == [] {
      assert a + b == b;
    } else {
      assert (a + b)[0] == a[0] && (a + b)[1..] == a[1..] + b;
      ProcessAllJoins(Apply(m, a[0].op), a[1..], b, verify);
    }
  }

  /** Replaying chunks is processing all their operations in turn. */
  lemma {:induction false} ReplayIsOneRun(m: Accounts, chunks: seq<Chunk>, verify: SendOperation -> bool)
    requires Replay(m, chunks, verify).ok
    ensures ProcessAll(m, AllOperations(chunks), verify) == Replay(m, chunks, verify)
    decreases |chunks|
  {
    hide ProcessAll;
    if chunks == [] {
      assert ProcessAll(m, [], verify) == Processed(m, true) by { NothingToProcess(m, verify); }
    } else {
      var front, chunk := chunks[..|chunks| - 1], chunks[|chunks| - 1];
      ReplayIsOneRun(m, front, verify);
      ProcessAllJoins(m, AllOperations(front), chunk.operations, verify);
    }
  }

  lemma NothingToProcess(m: Accounts, verify: SendOperation -> bool)
    ensures ProcessAll(m, [], verify) == Processed(m, true)
  {
  }

  ghost function History(q: Queue): seq<SignedOperation>
    requires q.slot >= 1 && CoversSlots(q.oldChunks, q.slot)
  {
    AllOperations(Archive(q))
  }

  /** After any run of the queue, the balances and all fees ever paid add up to the initial
      total, if all finalized operations are ordinary. */
  lemma LedgerConserves(rules: Rules, initial: Accounts, actions: seq<Action>)
    requires DoAll(rules, Fresh(initial), actions).Some? && Total(initial) < TWO64
    ensures var q := DoAll(rules, Fresh(initial), actions).value;
      && q.slot >= 1 && CoversSlots(q.oldChunks, q.slot)
      && (AllOrdinary(History(q)) ==> Total(q.accounts) + Fees(History(q)) == Total(initial))
  {
    hide Do, Total, Fees, AllOrdinary, Replay, ProcessAll, Archive;
    RunKeepsInv(rules, initial, actions);
    var q := DoAll(rules, Fresh(initial), actions).value;
    ReplayIsOneRun(initial, Archive(q), rules.verify);
    if AllOrdinary(History(q)) {
      RunConserves(initial, History(q), rules.verify);
    }
  }

  /** After any run of the queue, no operation of a signer who does not pay themselves has
      been finalized twice, unless a multiple of 2^32 of their operations apart. */
  lemma NothingIsFinalizedTwice(rules: Rules, initial: Accounts, actions: seq<Action>, who: string, i: nat, j: nat)
    requires DoAll(rules, Fresh(initial), actions).Some?
    ensures var q := DoAll(rules, Fresh(initial), actions).value;
      && q.slot >= 1 && CoversSlots(q.oldChunks, q.slot)
      && var mine := By(History(q), who);
         NeverPaysThemselves(History(q), who) && i < j < |mine| && mine[i] == mine[j] ==> (j - i) % TWO32 == 0
  {
    hide Do, By, NeverPaysThemselves, Replay, ProcessAll, Archive;
    RunKeepsInv(rules, initial, actions);
    var q := DoAll(rules, Fresh(initial), actions).value;
    ReplayIsOneRun(initial, Archive(q), rules.verify);
    if NeverPaysThemselves(History(q), who) && i < j < |By(History(q), who)| {
      NoReplays(initial, History(q), rules.verify, who, i, j);
    }
  }
}
