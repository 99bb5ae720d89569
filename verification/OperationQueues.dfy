/** The operation queue as an object (currency/operation_queue.go), proved against
    Queueing. */
module OperationQueues {
  import opened BallotMessages
  import opened Ledger
  import opened Chunks
  import opened AccountMaps
  import opened Priority
  import opened Queueing

  class OperationQueue {
    const rules: Rules
    /** The accounts before the first chunk. */
    ghost const initial: Accounts
    var pending: seq<SignedOperation>
    var chunks: map<SlotValue, Chunk>
    var oldChunks: map<nat, Chunk>
    const accounts: AccountMap
    var last: SlotValue
    var slot: nat
    var finalized: nat

    ghost predicate Shaped() {
      accounts.Valid() && accounts.fallback == null
    }

    ghost function View(): Queue
      requires Shaped()
      reads this, accounts
    {
      Queue(pending, chunks, oldChunks, accounts.Flat(), last, slot, finalized)
    }

    ghost predicate Valid()
      reads this, accounts
    {
      Shaped() && QueueInv(rules, initial, View())
    }

    /** A queue at the first slot. `mint` is an account to start with, if any. */
    constructor (rules: Rules, mint: string, balance: uint64)
      ensures Valid() && fresh(accounts) && this.rules == rules
      ensures initial == (if balance == 0 then map[] else map[mint := Account(0, balance)])
      ensures View() == Fresh(initial)
    {
      this.rules := rules;
      pending, chunks, oldChunks, last, slot, finalized := [], map[], map[], "", 1, 0;
      var a := new AccountMap();
      if balance != 0 {
        a.Set(mint, Account(0, balance));
      }
      accounts := a;
      initial := if balance == 0 then map[] else map[mint := Account(0, balance)];
      new;
      FreshInv(rules, initial);
    }

    // ------------------------------------------------------- pending operations

    method Validate(op: Option<SignedOperation>) returns (r: bool)
      requires Shaped()
      ensures r <==> op.Some? && Acceptable(rules, accounts.Flat(), op.value)
    {
      if op.None? || !rules.genuine(op.value) {
        return false;
      }
      r := accounts.Validate(op.value.op);
    }

    /** Removes an operation from the queue. */
    method Remove(op: Option<SignedOperation>)
      requires Valid()
      modifies this`pending
      ensures Valid()
      ensures View() == if op.None? then old(View()) else old(View()).(pending := Delete(old(pending), op.value))
    {
      if op.None? {
        return;
      }
      DoKeepsInv(rules, initial, View(), Removing(op.value));
      pending := Delete(pending, op.value);
    }

    /** Adds an operation unless it is invalid or already there; above the limit the worst
        one is dropped. Returns whether the operation is now new in the queue. */
    method Add(op: Option<SignedOperation>) returns (added: bool)
      requires Valid()
      modifies this`pending
      ensures Valid()
      ensures op.None? ==> !added && View() == old(View())
      ensures op.Some? ==> Some(View()) == Do(rules, old(View()), Adding(op.value))
      ensures op.Some? ==> (added <==> !Has(old(pending), op.value) && Has(pending, op.value))
    {
      var valid := Validate(op);
      if !valid {
        return false;
      }
      if Has(pending, op.value) {
        return false;
      }
      DoKeepsInv(rules, initial, View(), Adding(op.value));
      pending := Insert(pending, op.value);
      if |pending| > QUEUE_LIMIT {
        var worst := pending[|pending| - 1];
        pending := Delete(pending, worst);
      }
      added := Has(pending, op.value);
    }

    /** Drops the pending operations that are no longer valid. */
    method Revalidate()
      requires Shaped() && Sorted(pending)
      modifies this`pending
      ensures pending == Revalidated(rules, accounts.Flat(), old(pending))
    {
      hide Sorted, Delete, Revalidated, Acceptable;
      var ops := pending;
      ghost var m := accounts.Flat();
      ghost var kept: seq<SignedOperation> := [];
      assert ops == kept + ops[0..] && ops[0..] == ops;
      for i := 0 to |ops|
        invariant pending == kept + ops[i..] && Sorted(pending)
        invariant kept + Revalidated(rules, m, ops[i..]) == [] + Revalidated(rules, m, ops)
      {
        assert ops[i..] == [ops[i]] + ops[i + 1..];
        var valid := Validate(Some(ops[i]));
        if valid {
          RevalidateKeeps(rules, m, kept, ops[i], ops[i + 1..]);
          kept := kept + [ops[i]];
        } else {
          RevalidateDrops(rules, m, kept, ops[i], ops[i + 1..]);
          pending := Delete(pending, ops[i]);
        }
      }
      assert ops[|ops|..] == [] && pending == kept;
      NothingLeft(rules, m, kept, ops);
    }

    static lemma NothingLeft(rules: Rules, m: Accounts, kept: seq<SignedOperation>, ops: seq<SignedOperation>)
      requires kept + Revalidated(rules, m, []) == [] + Revalidated(rules, m, ops)
      ensures kept == Revalidated(rules, m, ops)
    {
      assert kept + [] == kept;
    }

    // ------------------------------------------------------------------- chunks

    /** Tries operations in turn on a copy of the accounts, until enough went through.
        Returns the states of the accounts they mention. */
    method TryOperations(ops: seq<SignedOperation>) returns (state: map<string, Option<Account>>)
      requires Shaped() && Sorted(ops)
      ensures state == TryAll(Draft(accounts.Flat(), 0, map[]), ops).state
    {
      hide Sorted, Ledger.Process;
      state := map[];
      var validOps: seq<SignedOperation> := [];
      var validator := accounts.CowCopy();
      ghost var start := Draft(accounts.Flat(), 0, map[]);
      var previous: Option<SignedOperation> := None;
      assert ops[0..] == ops;
      for i := 0 to |ops|
        invariant validator.Valid()
        invariant previous == if i == 0 then None else Some(ops[i - 1])
        invariant TryAll(Draft(validator.Flat(), |validOps|, state), ops[i..]) == TryAll(start, ops)
      {
        assert ops[i..][0] == ops[i] && ops[i..][1..] == ops[i + 1..];
        // panic: called on a list that is not sorted
        assert previous.Some? ==> HighestFeeFirst(previous.value, ops[i]) < 0 by { InOrder(ops, i); }
        previous := Some(ops[i]);
        var op := ops[i].op;
        var processed := validator.Process(op);
        if processed {
          validOps := validOps + [ops[i]];
        }
        state := state[op.signer := validator.Get(op.signer)];
        state := state[op.to := validator.Get(op.to)];
        if |validOps| == MAX_CHUNK_SIZE {
          return;
        }
      }
    }

    static lemma InOrder(ops: seq<SignedOperation>, i: nat)
      requires Sorted(ops) && i < |ops|
      ensures i > 0 ==> HighestFeeFirst(ops[i - 1], ops[i]) < 0
    {
    }

    /** Builds a chunk of sorted operations and caches it under its hash. Stops, changing
        nothing, if the chunk cannot be hashed. */
    method NewChunk(ops: seq<SignedOperation>) returns (r: BuildResult)
      requires Valid() && Sorted(ops)
      modifies this`chunks
      ensures Valid() && r == BuildOutcome(rules, old(View()), ops)
      ensures !r.Key? ==> View() == old(View())
      ensures !r.Stops? ==> Some(View()) == Do(rules, old(View()), Building(ops))
    {
      hide TryAll, LedgerInv, PendingInv;
      var state := TryOperations(ops);
      if |ops| == 0 {
        return NoChunk;
      }
      var chunk := Chunk(ops, state);
      if !Hashable(chunk) {
        return Stops;  // panic: hashing an account that does not exist
      }
      DoKeepsInv(rules, initial, View(), Building(ops));
      var key := rules.hash(chunk);
      if key !in chunks {
        chunks := chunks[key := chunk];
      }
      return Key(key);
    }

    /** A chunk of everything pending, as a value to nominate. */
    method SuggestValue() returns (r: BuildResult)
      requires Valid()
      modifies this`chunks
      ensures Valid() && r == BuildOutcome(rules, old(View()), pending)
      ensures !r.Key? ==> View() == old(View())
      ensures !r.Stops? ==> Some(View()) == Do(rules, old(View()), Building(pending))
    {
      r := NewChunk(pending);
    }

    /** Learns a chunk if it is new, valid and listed under its hash. Returns false as its
        first result when the program would stop. */
    method LearnChunk(key: SlotValue, chunk: Option<Chunk>) returns (ok: bool, learned: bool)
      requires Shaped()
      modifies this`chunks
      ensures ok <==> (Considers(rules, old(View()), key, chunk) ==> Hashable(chunk.value))
      ensures learned <==> ok && Learns(rules, old(View()), key, chunk)
      ensures chunks == if learned then old(chunks)[key := chunk.value] else old(chunks)
    {
      if key in chunks {
        return true, false;
      }
      var valid := accounts.ValidateChunk(chunk, rules.verify);
      if !valid {
        return true, false;
      }
      if !Hashable(chunk.value) {
        return false, false;  // panic: hashing an account that does not exist
      }
      if rules.hash(chunk.value) != key {
        return true, false;
      }
      chunks := chunks[key := chunk.value];
      return true, true;
    }

    static lemma LearnStep(known: map<SlotValue, Chunk>, learned: map<SlotValue, Chunk>, todo: set<SlotValue>,
                           key: SlotValue)
      requires key in todo
      ensures key in learned ==>
                known + (learned - (todo - {key})) == (known + (learned - todo))[key := learned[key]]
      ensures key in learned ==> key in learned - (todo - {key})
      ensures key !in learned ==> learned - (todo - {key}) == learned - todo
    {
    }

    /** Learns what it can of the offered chunks, in any order. Returns false as its first
        result when the program would stop. */
    method LearnChunks(offered: map<SlotValue, Option<Chunk>>) returns (ok: bool, updated: bool)
      requires Valid()
      modifies this`chunks
      ensures ok <==> !LearningStops(rules, old(View()), offered)
      ensures ok ==> Valid() && Some(View()) == Do(rules, old(View()), Learning(offered))
      ensures ok ==> (updated <==> Learned(rules, old(View()), offered) != map[])
    {
      hide QueueInv, Ledger.ProcessChunk, Hashable;
      ok, updated := true, false;
      var todo := offered.Keys;
      ghost var before := View();
      ghost var learned := Learned(rules, before, offered);
      assert learned - todo == map[];
      assert before.chunks + map[] == before.chunks;
      while todo != {}
        invariant todo <= offered.Keys
        invariant chunks == before.chunks + (learned - todo)
        invariant updated <==> learned - todo != map[]
        invariant forall k :: k in offered && k !in todo && Considers(rules, before, k, offered[k]) ==>
                    Hashable(offered[k].value)
      {
        var key :| key in todo;
        LearnStep(before.chunks, learned, todo, key);
        assert key in chunks <==> key in before.chunks;
        var isNew;
        ok, isNew := LearnChunk(key, offered[key]);
        if !ok {
          return;
        }
        assert isNew <==> key in learned;
        updated := updated || isNew;
        todo := todo - {key};
      }
      assert learned - {} == learned;
      DoKeepsInv(rules, initial, before, Learning(offered));
    }

    /** Handles a message with operations and chunks. Returns whether the program goes on,
        and whether anything is new. */
    method HandleTransactionMessage(message: Option<TransactionMessage>) returns (ok: bool, updated: bool)
      requires Valid()
      modifies this`pending, this`chunks
      ensures ok == HandleTransactions(rules, old(View()), message).Some?
      ensures ok ==> Valid() && Some(Updated(View(), updated)) == HandleTransactions(rules, old(View()), message)
    {
      hide QueueInv, Learn, Learned, Offer, LearningStops;
      if message.None? {
        return true, false;
      }
      updated := false;
      var ops := message.value.operations;
      ghost var before := View();
      assert ops[0..] == ops;
      for i := 0 to |ops|
        invariant Valid()
        invariant (if updated then Updated(View(), true) else AddUntilNew(rules, View(), ops[i..])) ==
                  AddUntilNew(rules, before, ops)
      {
        assert ops[i..][0] == ops[i] && ops[i..][1..] == ops[i + 1..];
        if !updated {
          updated := Add(ops[i]);
        }
      }
      var learned;
      ok, learned := LearnChunks(message.value.chunks);
      updated := updated || learned;
    }

    /** Combines known chunks into one, built from all their operations. Returns nothing
        when the program would stop: a chunk is unknown, they are all empty, or the result
        cannot be hashed. */
    method Combine(list: seq<SlotValue>) returns (r: Option<SlotValue>)
      requires Valid()
      modifies this`chunks
      ensures Valid()
      ensures r.None? ==> View() == old(View())
      ensures (exists v :: v in list && v !in old(chunks)) ==> r == None
      ensures (forall v :: v in list ==> v in old(chunks)) ==>
                var ops := Merged(old(chunks), list);
                var built := BuildOutcome(rules, old(View()), ops);
                && r == (if built.Key? then Some(built.key) else None)
                && (built.Key? ==> Some(View()) == Do(rules, old(View()), Building(ops)))
    {
      hide QueueInv, Do, Sorted, Insert, BuildOutcome;
      var ops: seq<SignedOperation> := [];
      assert list[..0] == [];
      for i := 0 to |list|
        invariant Valid() && View() == old(View())
        invariant forall v :: v in list[..i] ==> v in chunks
        invariant ops == Merged(chunks, list[..i])
      {
        assert list[..i + 1] == list[..i] + [list[i]];
        if list[i] !in chunks {
          return None;  // fatal: cannot combine unknown chunk
        }
        ops := AddOperations(ops, chunks[list[i]].operations);
        assert list[..i + 1][..i] == list[..i];
      }
      assert list[..|list|] == list;
      MergedIsUnion(chunks, list);
      var built := NewChunk(ops);
      return if built.Key? then Some(built.key) else None;
    }

    static method AddOperations(start: seq<SignedOperation>, ops: seq<SignedOperation>)
      returns (r: seq<SignedOperation>)
      ensures r == InsertAll(start, ops)
    {
      r := start;
      for i := 0 to |ops|
        invariant r == InsertAll(start, ops[..i])
      {
        assert ops[..i + 1][..i] == ops[..i];
        r := Insert(r, ops[i]);
      }
      assert ops[..|ops|] == ops;
    }

    // -------------------------------------------------------------- finalizing

    /** Processes a known chunk and moves to the next slot. Returns false, changing
        nothing, when the program would stop: the chunk is unknown or not valid. */
    method Finalize(v: SlotValue) returns (ok: bool)
      requires Valid()
      modifies this, accounts`data
      ensures Valid()
      ensures ok == Queueing.CanFinalize(rules, old(View()), v)
      ensures View() == if ok then Queueing.Finalize(rules, old(View()), v) else old(View())
    {
      hide QueueInv, Ledger.ProcessChunk, Revalidated;
      if v !in chunks {
        return false;  // panic: we don't know its data
      }
      var chunk := chunks[v];
      ok := accounts.ValidateChunk(Some(chunk), rules.verify);
      if !ok {
        return;  // panic: could not validate a finalized chunk
      }
      FinalizeKeepsInv(rules, initial, View(), v);
      PendingIsSorted(rules, initial, View());
      ok := accounts.ProcessChunk(Some(chunk), rules.verify);
      assert ok;  // panic: could not process a finalized chunk
      oldChunks := oldChunks[slot := chunk];
      finalized := finalized + |chunk.operations|;
      last := v;
      chunks := map[];
      slot := slot + 1;
      Revalidate();
    }

    static lemma PendingIsSorted(rules: Rules, initial: Accounts, q: Queue)
      requires QueueInv(rules, initial, q)
      ensures Sorted(q.pending)
    {
    }

    /** Finalizes a chunk that comes with its data. */
    method FinalizeChunk(chunk: Chunk) returns (ok: bool)
      requires Valid()
      modifies this, accounts`data
      ensures ok <==> Hashable(chunk) && ChunkIsValid(old(View()).accounts, chunk, rules.verify)
      ensures ok ==> Valid()
      ensures ok ==> View() == Queueing.Finalize(rules, WithChunk(rules, old(View()), chunk), rules.hash(chunk))
    {
      hide LedgerInv, PendingInv, Ledger.ProcessChunk, Queueing.Finalize;
      if !Hashable(chunk) {
        return false;  // panic: hashing an account that does not exist
      }
      KeepsLedger(rules, initial, View(), WithChunk(rules, View(), chunk));
      var v := rules.hash(chunk);
      chunks := chunks[v := chunk];
      ok := Finalize(v);
    }
  }
}
