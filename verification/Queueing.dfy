/** The queue of pending operations and the chunks around it, on values: the
    specification of the class in OperationQueues.dfy (currency/operation_queue.go). */
module Queueing {
  import opened BallotMessages
  import opened Chunks
  import opened Ledger
  import opened Priority
  import Quorum

  const QUEUE_LIMIT: nat := 1000

  /** What is not modelled further: hashing, whether an operation verifies, and whether a
      signed operation is well signed and verifies. */
  datatype Rules = Rules(hash: Chunk -> SlotValue, verify: SendOperation -> bool, genuine: SignedOperation -> bool)

  datatype Queue = Queue(
    pending: seq<SignedOperation>,
    chunks: map<SlotValue, Chunk>,
    oldChunks: map<nat, Chunk>,
    accounts: Accounts,
    last: SlotValue,
    slot: nat,
    finalized: nat)

  function Fresh(accounts: Accounts): Queue {
    Queue([], map[], map[], accounts, "", 1, 0)
  }

  predicate Acceptable(rules: Rules, m: Accounts, op: SignedOperation) {
    rules.genuine(op) && Validates(m, op.op)
  }

  // ---------------------------------------------------------- pending operations

  /** Adds an operation; above the limit the worst one is dropped. */
  function Admit(s: seq<SignedOperation>, op: SignedOperation): seq<SignedOperation> {
    var t := Insert(s, op);
    if |t| > QUEUE_LIMIT then Delete(t, t[|t| - 1]) else t
  }

  function Offer(rules: Rules, m: Accounts, s: seq<SignedOperation>, op: SignedOperation): seq<SignedOperation> {
    if Acceptable(rules, m, op) && !Has(s, op) then Admit(s, op) else s
  }

  function OfferAll(rules: Rules, m: Accounts, ops: seq<SignedOperation>): seq<SignedOperation> {
    if ops == [] then [] else Offer(rules, m, OfferAll(rules, m, ops[..|ops| - 1]), ops[|ops| - 1])
  }

  ghost predicate AllAcceptable(rules: Rules, m: Accounts, s: seq<SignedOperation>) {
    forall x :: x in s ==> Acceptable(rules, m, x)
  }

  ghost predicate PendingInv(rules: Rules, m: Accounts, s: seq<SignedOperation>) {
    Sorted(s) && |s| <= QUEUE_LIMIT && AllAcceptable(rules, m, s)
  }

  lemma DeleteLast(t: seq<SignedOperation>)
    requires Sorted(t) && t != []
    ensures Delete(t, t[|t| - 1]) == t[..|t| - 1]
  {
    var n := |t| - 1;
    assert t == t[..n] + [t[n]] + [];
    DeleteAt(t[..n], t[n], []);
  }

  /** What Admit leaves: everything, or all but the last. */
  lemma AdmitIsPrefix(s: seq<SignedOperation>, op: SignedOperation)
    requires Sorted(s) && |s| <= QUEUE_LIMIT && !Has(s, op)
    ensures var t := Insert(s, op);
      && Sorted(t) && |t| == |s| + 1
      && Admit(s, op) == t[..if |s| < QUEUE_LIMIT then |t| else |s|]
  {
    InsertKeepsSorted(s, op);
    InsertGrows(s, op);
    DeleteLast(Insert(s, op));
  }

  lemma OfferKeepsInv(rules: Rules, m: Accounts, s: seq<SignedOperation>, op: SignedOperation)
    requires PendingInv(rules, m, s)
    ensures PendingInv(rules, m, Offer(rules, m, s, op))
  {
    if Acceptable(rules, m, op) && !Has(s, op) {
      AdmitIsPrefix(s, op);
      InsertHolds(s, op);
      hide Acceptable, Insert, Delete;
    }
  }

  /** These are the best of the offered operations: each was offered, and one that is
      missing is preceded by a full queue. */
  ghost predicate BestOf(s: seq<SignedOperation>, offered: set<SignedOperation>) {
    && Sorted(s) && |s| <= QUEUE_LIMIT
    && (forall x :: x in s ==> x in offered)
    && (forall x :: x in offered ==> Has(s, x) || OutOfReach(s, x))
  }

  ghost predicate OutOfReach(s: seq<SignedOperation>, x: SignedOperation) {
    |s| == QUEUE_LIMIT && forall y :: y in s ==> Precedes(y, x)
  }

  lemma HasByMember(s: seq<SignedOperation>, t: seq<SignedOperation>, x: SignedOperation)
    requires Has(s, x) && forall y :: y in s ==> y in t
    ensures Has(t, x)
  {
    var i :| 0 <= i < |s| && SameKey(s[i], x);
    assert s[i] in t;
  }

  lemma InsertKeepsMembers(s: seq<SignedOperation>, op: SignedOperation)
    requires !Has(s, op)
    ensures forall y :: y in s ==> y in Insert(s, op)
  {
    InsertHolds(s, op);
    forall y | y in s ensures !SameKey(y, op) {
      var i :| 0 <= i < |s| && s[i] == y;
    }
  }

  /** Cutting the last of a full queue puts it, and whatever the queue preceded, out of
      reach. */
  lemma CutKeepsBest(t: seq<SignedOperation>, x: SignedOperation)
    requires Sorted(t) && |t| == QUEUE_LIMIT + 1 && Has(t, x)
    ensures Has(t[..QUEUE_LIMIT], x) || OutOfReach(t[..QUEUE_LIMIT], x)
  {
    var i :| 0 <= i < |t| && SameKey(t[i], x);
    if i < QUEUE_LIMIT {
      assert t[..QUEUE_LIMIT][i] == t[i];
    } else {
      forall y | y in t[..QUEUE_LIMIT] ensures Precedes(y, x) {
        HighestFeeFirstIsTotalOrder(y, t[i], x);
      }
    }
  }

  lemma StaysOutOfReach(s: seq<SignedOperation>, op: SignedOperation, x: SignedOperation)
    requires Sorted(s) && !Has(s, op) && OutOfReach(s, x)
    ensures OutOfReach(Admit(s, op), x)
  {
    AdmitIsPrefix(s, op);
    InsertHolds(s, op);
    var t := Insert(s, op);
    forall y | y in t[..QUEUE_LIMIT] ensures Precedes(y, x) {
      if y == op {
        var w := t[QUEUE_LIMIT];
        assert Precedes(op, w);
        HighestFeeFirstIsTotalOrder(op, w, x);
        HighestFeeFirstIsTotalOrder(op, op, op);
        assert w in s;
      }
    }
  }

  lemma AdmitKeepsBest(s: seq<SignedOperation>, offered: set<SignedOperation>, op: SignedOperation)
    requires BestOf(s, offered) && !Has(s, op)
    ensures BestOf(Admit(s, op), offered + {op})
  {
    var t, s' := Insert(s, op), Admit(s, op);
    AdmitIsPrefix(s, op);
    InsertHolds(s, op);
    InsertKeepsMembers(s, op);
    hide Insert, Delete, Precedes, SameKey;
    forall x | x in offered + {op} ensures Has(s', x) || OutOfReach(s', x) {
      if x != op && OutOfReach(s, x) {
        StaysOutOfReach(s, op, x);
      } else {
        assert Has(t, x) by {
          if x == op { HasMember(t, op); } else { HasByMember(s, t, x); }
        }
        if |s| == QUEUE_LIMIT {
          CutKeepsBest(t, x);
        } else {
          assert s' == t;
        }
      }
    }
  }

  lemma HasMember(s: seq<SignedOperation>, x: SignedOperation)
    requires x in s
    ensures Has(s, x)
  {
  }

  /** The acceptable operations among those offered. */
  ghost function Offered(rules: Rules, m: Accounts, ops: seq<SignedOperation>): set<SignedOperation> {
    set x | x in ops && rules.genuine(x) && Validates(m, x.op)
  }

  /** From an empty queue, adding operations in any order keeps the best acceptable ones. */
  lemma {:induction false} OfferAllKeepsTheBest(rules: Rules, m: Accounts, ops: seq<SignedOperation>)
    ensures BestOf(OfferAll(rules, m, ops), Offered(rules, m, ops))
    decreases |ops|
  {
    if ops != [] {
      var front, op := ops[..|ops| - 1], ops[|ops| - 1];
      var s := OfferAll(rules, m, front);
      OfferAllKeepsTheBest(rules, m, front);
      assert ops == front + [op];
      if Acceptable(rules, m, op) {
        assert Offered(rules, m, ops) == Offered(rules, m, front) + {op};
        if !Has(s, op) {
          AdmitKeepsBest(s, Offered(rules, m, front), op);
        }
      } else {
        assert Offered(rules, m, ops) == Offered(rules, m, front);
      }
    }
  }

  /** No operation is left out for one that pays less. */
  lemma LeftOutPaysLess(rules: Rules, m: Accounts, ops: seq<SignedOperation>, x: SignedOperation)
    requires x in ops && rules.genuine(x) && Validates(m, x.op) && !Has(OfferAll(rules, m, ops), x)
    ensures var s := OfferAll(rules, m, ops); |s| == QUEUE_LIMIT && forall y :: y in s ==> y.op.fee >= x.op.fee
  {
    OfferAllKeepsTheBest(rules, m, ops);
    assert x in Offered(rules, m, ops);
    hide OfferAll, Has;
  }

  /** Signatures tell operations apart. */
  ghost predicate KeysIdentify(ops: set<SignedOperation>) {
    forall x, y :: x in ops && y in ops && SameKey(x, y) ==> x == y
  }

  /** The best of a set of operations is one particular sequence. */
  lemma BestIsUnique(s: seq<SignedOperation>, t: seq<SignedOperation>, offered: set<SignedOperation>)
    requires BestOf(s, offered) && BestOf(t, offered) && KeysIdentify(offered)
    ensures s == t
  {
    BestIsContained(s, t, offered);
    BestIsContained(t, s, offered);
    SortedIsUnique(s, t);
  }

  lemma HasIsMember(s: seq<SignedOperation>, x: SignedOperation, offered: set<SignedOperation>)
    requires KeysIdentify(offered) && x in offered && Has(s, x) && forall y :: y in s ==> y in offered
    ensures x in s
  {
  }

  lemma BestIsContained(s: seq<SignedOperation>, t: seq<SignedOperation>, offered: set<SignedOperation>)
    requires BestOf(s, offered) && BestOf(t, offered) && KeysIdentify(offered)
    ensures forall x :: x in s ==> x in t
  {
    forall x | x in s ensures x in t {
      if x !in t {
        MissingIsOutOfReach(t, x, offered);
        forall y | y in t ensures y in s {
          HighestFeeFirstIsTotalOrder(x, y, y);
          if y !in s {
            MissingIsOutOfReach(s, y, offered);
          }
        }
        TooMany(s, t, x);
      }
    }
  }

  lemma MissingIsOutOfReach(s: seq<SignedOperation>, x: SignedOperation, offered: set<SignedOperation>)
    requires BestOf(s, offered) && KeysIdentify(offered) && x in offered && x !in s
    ensures OutOfReach(s, x)
  {
    if Has(s, x) {
      HasIsMember(s, x, offered);
    }
  }

  lemma {:induction false} SortedSize(s: seq<SignedOperation>)
    requires Sorted(s)
    ensures |(set x | x in s)| == |s|
  {
    if s != [] {
      FirstPrecedesRest(s);
      SortedSize(s[1..]);
      HighestFeeFirstIsTotalOrder(s[0], s[0], s[0]);
      assert (set x | x in s) == {s[0]} + (set x | x in s[1..]);
    }
  }

  lemma TooMany(s: seq<SignedOperation>, t: seq<SignedOperation>, x: SignedOperation)
    requires Sorted(s) && Sorted(t) && |t| == QUEUE_LIMIT && (forall y :: y in t ==> y in s) && x in s && x !in t
    ensures |s| > QUEUE_LIMIT
  {
    SortedSize(s);
    SortedSize(t);
    var a, b := set y | y in s, set y | y in t;
    assert b + {x} <= a;
    Quorum.SubsetSize(b + {x}, a);
  }

  // --------------------------------------------------------------------- chunks

  /** The offered chunks that are new, valid now, and listed under their own hash. */
  function Learned(rules: Rules, q: Queue, offered: map<SlotValue, Option<Chunk>>): map<SlotValue, Chunk> {
    map k | k in offered && Learns(rules, q, k, offered[k]) :: offered[k].value
  }

  /** The chunk under this key is looked at: it is new and valid now. */
  predicate Considers(rules: Rules, q: Queue, key: SlotValue, chunk: Option<Chunk>) {
    key !in q.chunks && chunk.Some? && ProcessChunk(q.accounts, chunk, rules.verify).ok
  }

  predicate Learns(rules: Rules, q: Queue, key: SlotValue, chunk: Option<Chunk>) {
    Considers(rules, q, key, chunk) && rules.hash(chunk.value) == key
  }

  /** Some chunk that is looked at cannot be hashed, which stops the program. */
  predicate LearningStops(rules: Rules, q: Queue, offered: map<SlotValue, Option<Chunk>>) {
    exists k :: k in offered && Considers(rules, q, k, offered[k]) && !Hashable(offered[k].value)
  }

  function Learn(rules: Rules, q: Queue, offered: map<SlotValue, Option<Chunk>>): Queue {
    q.(chunks := q.chunks + Learned(rules, q, offered))
  }

  /** Builds a chunk and caches it, unless there is nothing to build it from. */
  function Build(rules: Rules, q: Queue, ops: seq<SignedOperation>): Queue {
    var chunk := BuildChunk(q.accounts, ops);
    var key := rules.hash(chunk);
    if ops == [] || key in q.chunks then q else q.(chunks := q.chunks[key := chunk])
  }

  /** The chunk that would be built cannot be hashed, which stops the program. */
  predicate BuildingStops(q: Queue, ops: seq<SignedOperation>) {
    ops != [] && !Hashable(BuildChunk(q.accounts, ops))
  }

  /** What comes of building a chunk. */
  datatype BuildResult = NoChunk | Stops | Key(key: SlotValue)

  function BuildOutcome(rules: Rules, q: Queue, ops: seq<SignedOperation>): BuildResult {
    if ops == [] then NoChunk
    else if BuildingStops(q, ops) then Stops
    else Key(rules.hash(BuildChunk(q.accounts, ops)))
  }

  /** Puts all operations in their place. */
  function InsertAll(s: seq<SignedOperation>, ops: seq<SignedOperation>): seq<SignedOperation> {
    if ops == [] then s else Insert(InsertAll(s, ops[..|ops| - 1]), ops[|ops| - 1])
  }

  /** The operations of some known chunks in one sorted set. */
  function Merged(chunks: map<SlotValue, Chunk>, list: seq<SlotValue>): seq<SignedOperation>
    requires forall v :: v in list ==> v in chunks
  {
    if list == [] then []
    else InsertAll(Merged(chunks, list[..|list| - 1]), chunks[list[|list| - 1]].operations)
  }

  ghost predicate IsFrom(x: SignedOperation, chunks: map<SlotValue, Chunk>, list: seq<SlotValue>)
    requires forall v :: v in list ==> v in chunks
  {
    exists v :: v in list && x in chunks[v].operations
  }

  lemma {:induction false} InsertAllHolds(s: seq<SignedOperation>, ops: seq<SignedOperation>)
    requires Sorted(s)
    ensures Sorted(InsertAll(s, ops))
    ensures forall x :: x in InsertAll(s, ops) ==> x in s || x in ops
    ensures forall x :: x in s || x in ops ==> Has(InsertAll(s, ops), x)
    decreases |ops|
  {
    if ops == [] {
      forall x | x in s ensures Has(s, x) { HasMember(s, x); }
    } else {
      var front, op := ops[..|ops| - 1], ops[|ops| - 1];
      var before := InsertAll(s, front);
      InsertAllHolds(s, front);
      InsertKeepsSorted(before, op);
      InsertHolds(before, op);
      hide Sorted, Insert, Precedes, InsertAll;
      assert ops == front + [op];
      forall x | x in s || x in ops ensures Has(Insert(before, op), x) {
        InsertKeepsKeys(before, op, x);
      }
    }
  }

  lemma InsertKeepsKeys(s: seq<SignedOperation>, op: SignedOperation, x: SignedOperation)
    requires x == op || Has(s, x)
    ensures Has(Insert(s, op), x)
  {
    InsertHolds(s, op);
    if SameKey(op, x) {
      var i :| 0 <= i < |Insert(s, op)| && Insert(s, op)[i] == op;
    } else {
      var i :| 0 <= i < |s| && SameKey(s[i], x);
      HasMember(Insert(s, op), s[i]);
      assert !SameKey(s[i], op);
      var j :| 0 <= j < |Insert(s, op)| && Insert(s, op)[j] == s[i];
    }
  }

  /** The merged operations are sorted, all come from the chunks, and leave none out. */
  lemma {:induction false} MergedIsUnion(chunks: map<SlotValue, Chunk>, list: seq<SlotValue>)
    requires forall v :: v in list ==> v in chunks
    ensures Sorted(Merged(chunks, list))
    ensures forall x :: x in Merged(chunks, list) ==> IsFrom(x, chunks, list)
    ensures forall x :: IsFrom(x, chunks, list) ==> Has(Merged(chunks, list), x)
    decreases |list|
  {
    if list != [] {
      var front, v := list[..|list| - 1], list[|list| - 1];
      var before := Merged(chunks, front);
      MergedIsUnion(chunks, front);
      InsertAllHolds(before, chunks[v].operations);
      assert list == front + [v];
      hide Sorted, InsertAll;
      forall x | IsFrom(x, chunks, list) ensures Has(Merged(chunks, list), x) {
        if x !in chunks[v].operations {
          assert IsFrom(x, chunks, front);
          InsertAllKeepsKeys(before, chunks[v].operations, x);
        }
      }
    }
  }

  lemma {:induction false} InsertAllKeepsKeys(s: seq<SignedOperation>, ops: seq<SignedOperation>, x: SignedOperation)
    requires Has(s, x)
    ensures Has(InsertAll(s, ops), x)
    decreases |ops|
  {
    if ops != [] {
      InsertAllKeepsKeys(s, ops[..|ops| - 1], x);
      InsertKeepsKeys(InsertAll(s, ops[..|ops| - 1]), ops[|ops| - 1], x);
    }
  }

  /** All operations of some known chunks. */
  ghost function OperationsOf(chunks: map<SlotValue, Chunk>, list: seq<SlotValue>): set<SignedOperation>
    requires forall v :: v in list ==> v in chunks
  {
    set v, x | v in list && x in chunks[v].operations :: x
  }

  /** Combining depends on which chunks there are, not on their order: nodes that confirmed
      the same nominations predict the same value. */
  lemma CombiningIgnoresOrder(chunks: map<SlotValue, Chunk>, a: seq<SlotValue>, b: seq<SlotValue>)
    requires (forall v :: v in a ==> v in chunks) && (forall v :: v in a <==> v in b)
    requires KeysIdentify(OperationsOf(chunks, a))
    ensures Merged(chunks, a) == Merged(chunks, b)
  {
    MergedMembers(chunks, a);
    assert OperationsOf(chunks, a) == OperationsOf(chunks, b);
    MergedMembers(chunks, b);
    SortedIsUnique(Merged(chunks, a), Merged(chunks, b));
  }

  lemma MergedMembers(chunks: map<SlotValue, Chunk>, list: seq<SlotValue>)
    requires (forall v :: v in list ==> v in chunks) && KeysIdentify(OperationsOf(chunks, list))
    ensures Sorted(Merged(chunks, list))
    ensures forall x :: x in Merged(chunks, list) <==> x in OperationsOf(chunks, list)
  {
    MergedIsUnion(chunks, list);
    var s, all := Merged(chunks, list), OperationsOf(chunks, list);
    hide Merged, Sorted, SameKey;
    forall x | x in all ensures x in s {
      assert IsFrom(x, chunks, list);
      HasIsMember(s, x, all);
    }
  }

  predicate CanFinalize(rules: Rules, q: Queue, v: SlotValue) {
    v in q.chunks && ChunkIsValid(q.accounts, q.chunks[v], rules.verify)
  }

  /** The queue with a chunk in its cache. */
  function WithChunk(rules: Rules, q: Queue, chunk: Chunk): Queue {
    q.(chunks := q.chunks[rules.hash(chunk) := chunk])
  }

  /** The operations that are still acceptable. */
  function Revalidated(rules: Rules, m: Accounts, s: seq<SignedOperation>): seq<SignedOperation> {
    if s == [] then []
    else (if Acceptable(rules, m, s[0]) then [s[0]] else []) + Revalidated(rules, m, s[1..])
  }

  function Finalize(rules: Rules, q: Queue, v: SlotValue): Queue
    requires CanFinalize(rules, q, v)
  {
    var chunk := q.chunks[v];
    var m := ProcessChunk(q.accounts, Some(chunk), rules.verify).accounts;
    Queue(Revalidated(rules, m, q.pending), map[], q.oldChunks[q.slot := chunk], m, v, q.slot + 1,
          q.finalized + |chunk.operations|)
  }

  lemma {:induction false} RevalidatedHolds(rules: Rules, m: Accounts, s: seq<SignedOperation>)
    requires Sorted(s)
    ensures forall x :: x in Revalidated(rules, m, s) <==> x in s && Acceptable(rules, m, x)
    ensures Sorted(Revalidated(rules, m, s)) && |Revalidated(rules, m, s)| <= |s|
  {
    hide Acceptable;
    if s != [] {
      FirstPrecedesRest(s);
      RevalidatedHolds(rules, m, s[1..]);
      if Acceptable(rules, m, s[0]) {
        SortedAfterFirst(s[0], Revalidated(rules, m, s[1..]));
      }
    }
  }

  /** One step of revalidating in place, with `kept` already looked at: the operation stays. */
  lemma RevalidateKeeps(rules: Rules, m: Accounts, kept: seq<SignedOperation>, op: SignedOperation,
                        rest: seq<SignedOperation>)
    requires Acceptable(rules, m, op)
    ensures kept + [op] + rest == kept + ([op] + rest)
    ensures kept + [op] + Revalidated(rules, m, rest) == kept + Revalidated(rules, m, [op] + rest)
  {
    hide Acceptable;
    assert ([op] + rest)[1..] == rest;
  }

  /** The operation goes. */
  lemma RevalidateDrops(rules: Rules, m: Accounts, kept: seq<SignedOperation>, op: SignedOperation,
                        rest: seq<SignedOperation>)
    requires Sorted(kept + ([op] + rest)) && !Acceptable(rules, m, op)
    ensures Delete(kept + ([op] + rest), op) == kept + rest && Sorted(kept + rest)
    ensures kept + Revalidated(rules, m, rest) == kept + Revalidated(rules, m, [op] + rest)
  {
    hide Acceptable, Sorted;
    assert ([op] + rest)[1..] == rest;
    assert Revalidated(rules, m, [op] + rest) == [] + Revalidated(rules, m, rest);
    hide Revalidated;
    assert kept + [op] + rest == kept + ([op] + rest);
    DeleteAt(kept, op, rest);
    DeleteHolds(kept + [op] + rest, op);
  }

  // ---------------------------------------------------------------- the archive

  /** Processes chunks one after the other. */
  function Replay(m: Accounts, chunks: seq<Chunk>, verify: SendOperation -> bool): Processed {
    if chunks == [] then Processed(m, true)
    else
      var r := Replay(m, chunks[..|chunks| - 1], verify);
      if r.ok then ProcessChunk(r.accounts, Some(chunks[|chunks| - 1]), verify) else r
  }

  ghost predicate CoversSlots<T>(m: map<nat, T>, slot: nat) {
    forall i: nat :: i in m <==> 1 <= i < slot
  }

  /** The finalized chunks, in the order of their slots. */
  ghost function Archive(q: Queue): seq<Chunk>
    requires CoversSlots(q.oldChunks, q.slot) && q.slot >= 1
  {
    seq(q.slot - 1, i requires 0 <= i < q.slot - 1 => q.oldChunks[i + 1])
  }

  /** Every key of the cache is the hash of its chunk. */
  ghost predicate CacheIsSound(rules: Rules, chunks: map<SlotValue, Chunk>) {
    forall k :: k in chunks ==> Hashable(chunks[k]) && rules.hash(chunks[k]) == k
  }

  function LastHash(rules: Rules, chunks: seq<Chunk>): SlotValue {
    if chunks == [] then "" else rules.hash(chunks[|chunks| - 1])
  }

  function CountOperations(chunks: seq<Chunk>): nat {
    if chunks == [] then 0 else CountOperations(chunks[..|chunks| - 1]) + |chunks[|chunks| - 1].operations|
  }

  /** Accounts, last value and count are what the finalized chunks make of the initial
      accounts. */
  ghost predicate LedgerInv(rules: Rules, initial: Accounts, q: Queue) {
    && q.slot >= 1
    && CoversSlots(q.oldChunks, q.slot)
    && Replay(initial, Archive(q), rules.verify) == Processed(q.accounts, true)
    && q.last == LastHash(rules, Archive(q))
    && q.finalized == CountOperations(Archive(q))
  }

  ghost predicate QueueInv(rules: Rules, initial: Accounts, q: Queue) {
    && PendingInv(rules, q.accounts, q.pending)
    && CacheIsSound(rules, q.chunks)
    && LedgerInv(rules, initial, q)
  }

  lemma FreshInv(rules: Rules, initial: Accounts)
    ensures QueueInv(rules, initial, Fresh(initial))
  {
    assert Archive(Fresh(initial)) == [];
  }

  /** Finalizing appends to the archive. */
  lemma FinalizeArchives(rules: Rules, q: Queue, v: SlotValue)
    requires CanFinalize(rules, q, v) && CoversSlots(q.oldChunks, q.slot) && q.slot >= 1
    ensures CoversSlots(Finalize(rules, q, v).oldChunks, q.slot + 1)
    ensures Archive(Finalize(rules, q, v)) == Archive(q) + [q.chunks[v]]
  {
    hide ProcessChunk, ChunkIsValid, Revalidated;
  }

  lemma FinalizeKeepsLedger(rules: Rules, initial: Accounts, q: Queue, v: SlotValue)
    requires CanFinalize(rules, q, v) && LedgerInv(rules, initial, q) && CacheIsSound(rules, q.chunks)
    ensures LedgerInv(rules, initial, Finalize(rules, q, v))
  {
    hide Revalidated, ProcessChunk, Archive, CoversSlots;
    FinalizeArchives(rules, q, v);
    var before, chunk := Archive(q), q.chunks[v];
    var after := before + [chunk];
    assert after[..|after| - 1] == before && after[|after| - 1] == chunk;
  }

  lemma FinalizeKeepsInv(rules: Rules, initial: Accounts, q: Queue, v: SlotValue)
    requires CanFinalize(rules, q, v) && QueueInv(rules, initial, q)
    ensures QueueInv(rules, initial, Finalize(rules, q, v))
  {
    FinalizeKeepsLedger(rules, initial, q, v);
    hide LedgerInv, Acceptable, ProcessChunk, ChunkIsValid, Revalidated;
    RevalidatedHolds(rules, Finalize(rules, q, v).accounts, q.pending);
  }

  // ------------------------------------------------------------------ whole runs

  datatype Action =
    | Adding(op: SignedOperation)
    | Removing(op: SignedOperation)
    | Learning(offered: map<SlotValue, Option<Chunk>>)
    | Building(ops: seq<SignedOperation>)
    | Finalizing(v: SlotValue)

  /** The queue after an action; none if the program stops there. */
  function Do(rules: Rules, q: Queue, a: Action): Option<Queue> {
    match a
    case Adding(op) => Some(q.(pending := Offer(rules, q.accounts, q.pending, op)))
    case Removing(op) => Some(q.(pending := Delete(q.pending, op)))
    case Learning(offered) => if LearningStops(rules, q, offered) then None else Some(Learn(rules, q, offered))
    case Building(ops) => if BuildingStops(q, ops) then None else Some(Build(rules, q, ops))
    case Finalizing(v) => if CanFinalize(rules, q, v) then Some(Finalize(rules, q, v)) else None
  }

  function DoAll(rules: Rules, q: Queue, actions: seq<Action>): Option<Queue> {
    if actions == [] then Some(q)
    else
      var q' := DoAll(rules, q, actions[..|actions| - 1]);
      if q'.Some? then Do(rules, q'.value, actions[|actions| - 1]) else None
  }

  lemma SameArchive(q: Queue, q': Queue)
    requires q.slot >= 1 && CoversSlots(q.oldChunks, q.slot) && q'.slot == q.slot && q'.oldChunks == q.oldChunks
    ensures Archive(q') == Archive(q)
  {
  }

  /** An action that leaves the ledger alone. */
  lemma KeepsLedger(rules: Rules, initial: Accounts, q: Queue, q': Queue)
    requires LedgerInv(rules, initial, q)
    requires q'.accounts == q.accounts && q'.oldChunks == q.oldChunks
    requires q'.slot == q.slot && q'.last == q.last && q'.finalized == q.finalized
    ensures LedgerInv(rules, initial, q')
  {
    SameArchive(q, q');
    hide Archive, Replay, LastHash, CountOperations;
  }

  lemma DoKeepsInv(rules: Rules, initial: Accounts, q: Queue, a: Action)
    requires QueueInv(rules, initial, q) && Do(rules, q, a).Some?
    ensures QueueInv(rules, initial, Do(rules, q, a).value)
  {
    hide LedgerInv, Offer, Delete, BuildChunk, ProcessChunk, Finalize, PendingInv, CanFinalize;
    match a
    case Finalizing(v) => FinalizeKeepsInv(rules, initial, q, v);
    case Adding(op) =>
      OfferKeepsInv(rules, q.accounts, q.pending, op);
      KeepsLedger(rules, initial, q, Do(rules, q, a).value);
    case Removing(op) =>
      RemoveKeepsInv(rules, q.accounts, q.pending, op);
      KeepsLedger(rules, initial, q, Do(rules, q, a).value);
    case Learning(_) => KeepsLedger(rules, initial, q, Do(rules, q, a).value);
    case Building(_) => KeepsLedger(rules, initial, q, Do(rules, q, a).value);
  }

  lemma RemoveKeepsInv(rules: Rules, m: Accounts, s: seq<SignedOperation>, op: SignedOperation)
    requires PendingInv(rules, m, s)
    ensures PendingInv(rules, m, Delete(s, op))
  {
    hide Acceptable;
    DeleteHolds(s, op);
  }

  /** Finalizing keeps exactly the pending operations that are still well signed and valid. */
  lemma FinalizeKeepsWhatIsValid(rules: Rules, initial: Accounts, q: Queue, v: SlotValue, x: SignedOperation)
    requires QueueInv(rules, initial, q) && CanFinalize(rules, q, v)
    ensures var q' := Finalize(rules, q, v);
      x in q'.pending <==> x in q.pending && rules.genuine(x) && Validates(q'.accounts, x.op)
  {
    RevalidatedHolds(rules, Finalize(rules, q, v).accounts, q.pending);
    hide LedgerInv, ProcessChunk, ChunkIsValid, Revalidated;
  }

  /** Over every run, what is pending is well signed, next in its signer's sequence and paid
      for by their balance. */
  lemma PendingIsValid(rules: Rules, initial: Accounts, actions: seq<Action>, x: SignedOperation)
    requires DoAll(rules, Fresh(initial), actions).Some?
    ensures var q := DoAll(rules, Fresh(initial), actions).value;
      x in q.pending ==>
        && rules.genuine(x) && x.op.signer in q.accounts
        && x.op.sequence == (q.accounts[x.op.signer].sequence + 1) % TWO32
        && (x.op.amount + x.op.fee) % TWO64 <= q.accounts[x.op.signer].balance
  {
    RunKeepsInv(rules, initial, actions);
    hide DoAll, LedgerInv, Sorted, CacheIsSound, CoversSlots;
    ghost var q := DoAll(rules, Fresh(initial), actions).value;
    assert PendingInv(rules, q.accounts, q.pending);
  }

  /** Over every run: the queue stays sorted, within its limit and valid against the
      current accounts, the cache is keyed by hash, and the ledger is the replay of the
      finalized chunks. */
  lemma {:induction false} RunKeepsInv(rules: Rules, initial: Accounts, actions: seq<Action>)
    requires DoAll(rules, Fresh(initial), actions).Some?
    ensures QueueInv(rules, initial, DoAll(rules, Fresh(initial), actions).value)
    decreases |actions|
  {
    hide QueueInv, Do;
    if actions == [] {
      FreshInv(rules, initial);
    } else {
      var front := actions[..|actions| - 1];
      RunKeepsInv(rules, initial, front);
      DoKeepsInv(rules, initial, DoAll(rules, Fresh(initial), front).value, actions[|actions| - 1]);
    }
  }

  // ------------------------------------------------------- transaction messages

  datatype TransactionMessage = TransactionMessage(
    operations: seq<Option<SignedOperation>>,
    chunks: map<SlotValue, Option<Chunk>>)

  /** A queue, and whether it counts as updated. */
  datatype Updated = Updated(queue: Queue, updated: bool)

  function AddOne(rules: Rules, q: Queue, op: Option<SignedOperation>): Updated {
    if op.None? then Updated(q, false)
    else
      var pending := Offer(rules, q.accounts, q.pending, op.value);
      Updated(q.(pending := pending), !Has(q.pending, op.value) && Has(pending, op.value))
  }

  /** Adds operations until one of them is new: the rest of the list is not looked at. */
  function AddUntilNew(rules: Rules, q: Queue, ops: seq<Option<SignedOperation>>): Updated
    decreases |ops|
  {
    if ops == [] then Updated(q, false)
    else
      var r := AddOne(rules, q, ops[0]);
      if r.updated then r else AddUntilNew(rules, r.queue, ops[1..])
  }

  /** The queue after a message; none if the program stops. */
  function HandleTransactions(rules: Rules, q: Queue, m: Option<TransactionMessage>): Option<Updated> {
    if m.None? then Some(Updated(q, false))
    else
      var r := AddUntilNew(rules, q, m.value.operations);
      if LearningStops(rules, r.queue, m.value.chunks) then None
      else
        var learned := Learned(rules, r.queue, m.value.chunks);
        Some(Updated(Learn(rules, r.queue, m.value.chunks), r.updated || learned != map[]))
  }

  /** An operation that is not new in the queue afterwards has changed nothing. */
  lemma UnsuccessfulAddChangesNothing(rules: Rules, q: Queue, op: Option<SignedOperation>)
    requires PendingInv(rules, q.accounts, q.pending) && !AddOne(rules, q, op).updated
    ensures AddOne(rules, q, op).queue == q
  {
    if op.Some? && Acceptable(rules, q.accounts, op.value) && !Has(q.pending, op.value) {
      var s, x := q.pending, op.value;
      var t := Insert(s, x);
      AdmitIsPrefix(s, x);
      InsertHolds(s, x);
      InsertKeepsMembers(s, x);
      hide Insert, Delete, Acceptable;
      assert x !in Admit(s, x) by {
        if x in Admit(s, x) { HasMember(Admit(s, x), x); }
      }
      assert t[|s|] == x && |s| == QUEUE_LIMIT;
      WorstIsCut(s, t, x);
    }
  }

  lemma WorstIsCut(s: seq<SignedOperation>, t: seq<SignedOperation>, x: SignedOperation)
    requires Sorted(s) && Sorted(t) && |t| == |s| + 1 && t[|s|] == x && x !in s
    requires (forall y :: y in t ==> y == x || y in s) && (forall y :: y in s ==> y in t)
    ensures t[..|s|] == s
  {
    HighestFeeFirstIsTotalOrder(x, x, x);
    forall y ensures y in t[..|s|] <==> y in s {
      if y in s {
        var i :| 0 <= i < |t| && t[i] == y;
        assert t[..|s|][i] == y;
      }
    }
    SortedIsUnique(t[..|s|], s);
  }

  /** A message adds at most one of its operations, however many are new. */
  lemma {:induction false} MessageAddsAtMostOne(rules: Rules, q: Queue, ops: seq<Option<SignedOperation>>)
    requires PendingInv(rules, q.accounts, q.pending)
    ensures AddUntilNew(rules, q, ops) == Updated(q, false) ||
            exists op :: op in ops && AddUntilNew(rules, q, ops) == AddOne(rules, q, op)
    decreases |ops|
  {
    if ops != [] && !AddOne(rules, q, ops[0]).updated {
      UnsuccessfulAddChangesNothing(rules, q, ops[0]);
      hide AddOne, PendingInv;
      MessageAddsAtMostOne(rules, q, ops[1..]);
    }
  }

  /** Of a message's operations just the first new one is added, as if it had come alone. */
  lemma {:induction false} FirstNewIsAdded(rules: Rules, q: Queue, ops: seq<Option<SignedOperation>>, i: nat)
    requires PendingInv(rules, q.accounts, q.pending)
    requires i < |ops| && AddOne(rules, q, ops[i]).updated
    requires forall j :: 0 <= j < i ==> !AddOne(rules, q, ops[j]).updated
    ensures AddUntilNew(rules, q, ops) == AddOne(rules, q, ops[i])
    decreases i
  {
    hide AddOne, PendingInv;
    if i > 0 {
      UnsuccessfulAddChangesNothing(rules, q, ops[0]);
      FirstNewIsAdded(rules, q, ops[1..], i - 1);
    }
  }

  /** Without a new operation the queue stays as it is. */
  lemma {:induction false} NothingNewIsAdded(rules: Rules, q: Queue, ops: seq<Option<SignedOperation>>)
    requires PendingInv(rules, q.accounts, q.pending)
    requires forall j :: 0 <= j < |ops| ==> !AddOne(rules, q, ops[j]).updated
    ensures AddUntilNew(rules, q, ops) == Updated(q, false)
    decreases |ops|
  {
    hide AddOne, PendingInv;
    if ops != [] {
      UnsuccessfulAddChangesNothing(rules, q, ops[0]);
      NothingNewIsAdded(rules, q, ops[1..]);
    }
  }

  /** A message counts as an update exactly when it changes the queue. */
  lemma UpdatedIffChanged(rules: Rules, q: Queue, m: Option<TransactionMessage>)
    requires PendingInv(rules, q.accounts, q.pending) && HandleTransactions(rules, q, m).Some?
    ensures var r := HandleTransactions(rules, q, m).value; r.updated <==> r.queue != q
  {
    if m.Some? {
      var r := AddUntilNew(rules, q, m.value.operations);
      NewIsAChange(rules, q, m.value.operations);
      var learned := Learned(rules, r.queue, m.value.chunks);
      LearningIsAChange(r.queue.chunks, learned);
      hide AddUntilNew, LearningStops, PendingInv;
    }
  }

  lemma {:induction false} NewIsAChange(rules: Rules, q: Queue, ops: seq<Option<SignedOperation>>)
    requires PendingInv(rules, q.accounts, q.pending)
    ensures var r := AddUntilNew(rules, q, ops);
      && (r.updated <==> r.queue.pending != q.pending)
      && (!r.updated ==> r.queue == q) && r.queue.chunks == q.chunks
    decreases |ops|
  {
    hide PendingInv, Offer;
    if ops != [] && !AddOne(rules, q, ops[0]).updated {
      UnsuccessfulAddChangesNothing(rules, q, ops[0]);
      NewIsAChange(rules, q, ops[1..]);
    }
  }

  lemma LearningIsAChange(chunks: map<SlotValue, Chunk>, learned: map<SlotValue, Chunk>)
    requires forall k :: k in learned ==> k !in chunks
    ensures chunks + learned != chunks <==> learned != map[]
  {
    if learned != map[] {
      var k :| k in learned;
      assert k in chunks + learned;
    } else {
      assert chunks + learned == chunks;
    }
  }

  /** An operation that is well signed and valid gets into a queue that has room for it, if
      nothing there compares equal. */
  lemma ValidOperationGetsIn(rules: Rules, q: Queue, op: SignedOperation)
    requires PendingInv(rules, q.accounts, q.pending) && |q.pending| < QUEUE_LIMIT
    requires rules.genuine(op) && Validates(q.accounts, op.op) && !Has(q.pending, op)
    ensures AddOne(rules, q, Some(op)).updated && op in AddOne(rules, q, Some(op)).queue.pending
  {
    AdmitIsPrefix(q.pending, op);
    InsertHolds(q.pending, op);
    hide Insert, Delete;
    HasMember(Insert(q.pending, op), op);
  }

  /** After a message, the cache holds what it held before and just those offered chunks that
      are valid now and listed under their hash. */
  lemma LearnIff(rules: Rules, q: Queue, offered: map<SlotValue, Option<Chunk>>, key: SlotValue)
    ensures key in Learn(rules, q, offered).chunks <==>
              || key in q.chunks
              || (key in offered && offered[key].Some? && ChunkIsValid(q.accounts, offered[key].value, rules.verify) &&
                  rules.hash(offered[key].value) == key)
    ensures key in q.chunks ==> Learn(rules, q, offered).chunks[key] == q.chunks[key]
    ensures key in Learn(rules, q, offered).chunks && key !in q.chunks ==>
              key in offered && Some(Learn(rules, q, offered).chunks[key]) == offered[key]
  {
    hide ProcessChunk;
  }

  /** What a node suggests from operations that fit, it can finalize. */
  lemma FittingSuggestionCanBeFinalized(rules: Rules, q: Queue, ops: seq<SignedOperation>)
    requires ops != [] && Fit(rules, q.accounts, ops) && CacheIsValid(rules, q)
    ensures var key := rules.hash(BuildChunk(q.accounts, ops));
      BuildOutcome(rules, q, ops) == Key(key) && CanFinalize(rules, Build(rules, q, ops), key)
  {
    FittingBuildsDoNotStop(rules, q, ops);
    BuiltChunkIsValidIff(q.accounts, ops, rules.verify);
    hide BuildChunk, ProcessAll, ProcessChunk;
  }

  // ------------------------------------------ when finalizing a known chunk fails

  /** Every chunk of the cache goes through on the current accounts. */
  ghost predicate CacheIsValid(rules: Rules, q: Queue) {
    forall k :: k in q.chunks ==> ChunkIsValid(q.accounts, q.chunks[k], rules.verify)
  }

  /** The operations fit in a chunk and go through one after the other. */
  predicate Fit(rules: Rules, m: Accounts, ops: seq<SignedOperation>) {
    |ops| <= MAX_CHUNK_SIZE && ProcessAll(m, ops, rules.verify).ok
  }

  /** Building keeps the cache valid exactly when the operations fit, or nothing is cached. */
  lemma BuildKeepsCacheValidIff(rules: Rules, q: Queue, ops: seq<SignedOperation>)
    requires CacheIsValid(rules, q)
    ensures CacheIsValid(rules, Build(rules, q, ops)) <==>
            Fit(rules, q.accounts, ops) || ops == [] || rules.hash(BuildChunk(q.accounts, ops)) in q.chunks
  {
    BuiltChunkIsValidIff(q.accounts, ops, rules.verify);
    hide BuildChunk, ChunkIsValid, ProcessAll;
    var key := rules.hash(BuildChunk(q.accounts, ops));
    if ops != [] && key !in q.chunks {
      assert Build(rules, q, ops).chunks[key] == BuildChunk(q.accounts, ops);
    }
  }

  /** Building from operations that fit never stops the program. */
  lemma FittingBuildsDoNotStop(rules: Rules, q: Queue, ops: seq<SignedOperation>)
    requires Fit(rules, q.accounts, ops)
    ensures !BuildingStops(q, ops)
  {
    GoodChunksHash(q.accounts, ops, rules.verify);
  }

  /** This action caches a chunk that is not valid. */
  ghost predicate Spoils(rules: Rules, q: Queue, a: Action) {
    && a.Building? && a.ops != [] && !Fit(rules, q.accounts, a.ops)
    && rules.hash(BuildChunk(q.accounts, a.ops)) !in q.chunks
  }

  lemma DoKeepsCacheValidIff(rules: Rules, q: Queue, a: Action)
    requires CacheIsValid(rules, q) && Do(rules, q, a).Some?
    ensures CacheIsValid(rules, Do(rules, q, a).value) <==> !Spoils(rules, q, a)
  {
    hide ProcessAll, ProcessChunk, BuildChunk, Offer, Delete, Revalidated, Build, BuildingStops;
    if a.Building? {
      BuildKeepsCacheValidIff(rules, q, a.ops);
    }
  }

  /** No action of the run caches a chunk that is not valid. */
  ghost predicate NothingSpoils(rules: Rules, q: Queue, actions: seq<Action>) {
    actions != [] ==>
      var front := actions[..|actions| - 1];
      && NothingSpoils(rules, q, front)
      && (DoAll(rules, q, front).Some? ==> !Spoils(rules, DoAll(rules, q, front).value, actions[|actions| - 1]))
  }

  /** At every time of the run, every cached chunk is valid. */
  ghost predicate CacheAlwaysValid(rules: Rules, q: Queue, actions: seq<Action>) {
    && (DoAll(rules, q, actions).Some? ==> CacheIsValid(rules, DoAll(rules, q, actions).value))
    && (actions != [] ==> CacheAlwaysValid(rules, q, actions[..|actions| - 1]))
  }

  /** Over every run, all cached chunks are valid at all times exactly when no chunk was
      built from operations that do not fit. */
  lemma {:induction false} CacheAlwaysValidIff(rules: Rules, initial: Accounts, actions: seq<Action>)
    requires DoAll(rules, Fresh(initial), actions).Some?
    ensures CacheAlwaysValid(rules, Fresh(initial), actions) <==> NothingSpoils(rules, Fresh(initial), actions)
    decreases |actions|
  {
    hide Do, Spoils, ChunkIsValid;
    if actions != [] {
      var front := actions[..|actions| - 1];
      var q := DoAll(rules, Fresh(initial), front).value;
      CacheAlwaysValidIff(rules, initial, front);
      if CacheIsValid(rules, q) {
        DoKeepsCacheValidIff(rules, q, actions[|actions| - 1]);
      }
    }
  }

  /** In such a run, finalizing a known chunk never fails. */
  lemma KnownChunksCanBeFinalized(rules: Rules, initial: Accounts, actions: seq<Action>, v: SlotValue)
    requires DoAll(rules, Fresh(initial), actions).Some? && NothingSpoils(rules, Fresh(initial), actions)
    ensures var q := DoAll(rules, Fresh(initial), actions).value; CanFinalize(rules, q, v) <==> v in q.chunks
  {
    CacheAlwaysValidIff(rules, initial, actions);
    hide DoAll, NothingSpoils, ChunkIsValid;
  }

  /** A message can stop the program: an empty chunk that lists an account nobody has is
      valid, and it cannot be hashed. */
  lemma MissingAccountStopsLearning(rules: Rules, q: Queue, key: SlotValue, who: string)
    requires key !in q.chunks && who !in q.accounts
    ensures var chunk := Chunk([], map[who := None]);
      HandleTransactions(rules, q, Some(TransactionMessage([], map[key := Some(chunk)]))) == None
  {
    var chunk := Chunk([], map[who := None]);
    var offered := map[key := Some(chunk)];
    assert chunk.state[who].None?;
    assert Considers(rules, q, key, offered[key]) && !Hashable(offered[key].value);
  }
}
