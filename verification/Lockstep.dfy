/** How a node, its chain, its queue and its database move from slot to slot, and why the
    database is enough to rebuild them (consensus/chain.go, network/node.go, data/block.go). */
module Lockstep {
  import opened Quorum
  import opened BallotMessages
  import opened Ledger
  import opened Queueing

  /** One row of the database. */
  datatype StoredBlock = StoredBlock(slot: nat, chunk: Chunk, c: nat, h: nat)

  /** The message with which the network externalized a stored block. */
  function ExternalizeOf(rules: Rules, block: StoredBlock, d: QuorumSlice): Message {
    ExternalizeMessage(block.slot, rules.hash(block.chunk), block.c, block.h, d)
  }

  /** What a node keeps from slot to slot. `chainSlot` and `external` belong to the block
      its chain is working on. */
  datatype NodeState = NodeState(
    slot: nat,
    chainSlot: nat,
    external: Option<Message>,
    history: map<nat, Message>,
    queue: Queue,
    database: Option<seq<StoredBlock>>)

  function Empty(initial: Accounts, database: Option<seq<StoredBlock>>): NodeState {
    NodeState(1, 1, None, map[], Fresh(initial), database)
  }

  // ------------------------------------------------------------------- the steps

  /** The block has an outcome from the first one on. */
  function Seal(s: NodeState, outcome: Option<Message>): NodeState {
    if s.external.Some? then s else s.(external := outcome)
  }

  /** Moves the chain on if its block is done and its chunk is known. Nothing if the
      program stops because the chunk is not valid. */
  function Advance(rules: Rules, s: NodeState): Option<NodeState> {
    if s.external.None? || !s.external.value.ExternalizeMessage? || s.external.value.x !in s.queue.chunks then Some(s)
    else if !CanFinalize(rules, s.queue, s.external.value.x) then None
    else Some(s.(chainSlot := s.chainSlot + 1,
                 external := None,
                 history := s.history[s.chainSlot := s.external.value],
                 queue := Finalize(rules, s.queue, s.external.value.x)))
  }

  /** Follows the chain and saves the block it has left. Nothing if the program stops
      because there is no such block. */
  function Save(s: NodeState): Option<NodeState> {
    if s.chainSlot <= s.slot then Some(s)
    else if s.database.None? then Some(s.(slot := s.slot + 1))
    else if s.chainSlot == 0 || s.chainSlot - 1 !in s.history then None
    else
      var last := s.history[s.chainSlot - 1];
      if last.i !in s.queue.oldChunks then None
      else
        var block := StoredBlock(last.i, s.queue.oldChunks[last.i], last.cn, last.hn);
        Some(s.(slot := s.slot + 1, database := Some(s.database.value + [block])))
  }

  /** Handling a message of the consensus, which may give the block an outcome. */
  function ChainStep(rules: Rules, s: NodeState, outcome: Option<Message>): Option<NodeState> {
    var s' := Advance(rules, Seal(s, outcome));
    if s'.None? then None else Save(s'.value)
  }

  // --------------------------------------------------------------- the invariant

  /** Entry `i` of the history is the externalized value of chunk `i`. */
  ghost predicate HistoryMatches(rules: Rules, d: QuorumSlice, history: map<nat, Message>, chunks: map<nat, Chunk>,
                                 i: nat)
    requires i in history && i in chunks
  {
    && history[i].ExternalizeMessage?
    && history[i].i == i && history[i].d == d
    && Hashable(chunks[i]) && history[i].x == rules.hash(chunks[i])
  }

  ghost predicate HistoryInv(rules: Rules, d: QuorumSlice, s: NodeState) {
    && CoversSlots(s.history, s.chainSlot)
    && CoversSlots(s.queue.oldChunks, s.chainSlot)
    && forall i: nat :: 1 <= i < s.chainSlot ==> HistoryMatches(rules, d, s.history, s.queue.oldChunks, i)
  }

  /** Row `i` of the database is the block of slot `i + 1`. */
  ghost predicate RowMatches(s: NodeState, i: nat)
    requires s.database.Some? && i < |s.database.value| && i + 1 in s.history && i + 1 in s.queue.oldChunks
  {
    var last := s.history[i + 1];
    s.database.value[i] == StoredBlock(i + 1, s.queue.oldChunks[i + 1], last.cn, last.hn)
  }

  ghost predicate DatabaseInv(s: NodeState)
    requires CoversSlots(s.history, s.chainSlot) && CoversSlots(s.queue.oldChunks, s.chainSlot)
  {
    s.database.Some? ==>
      |s.database.value| == s.slot - 1 && s.slot <= s.chainSlot && forall i: nat :: i < s.slot - 1 ==> RowMatches(s, i)
  }

  /** The outcome of a block, if any, is for its slot and carries the common slice. */
  ghost predicate ExternalInv(d: QuorumSlice, slot: nat, external: Option<Message>) {
    external.Some? ==> external.value.ExternalizeMessage? && external.value.i == slot && external.value.d == d
  }

  /** Node, chain and queue are at the same slot; history, old chunks and database cover
      exactly the slots before it and agree. */
  ghost predicate NodeInv(rules: Rules, initial: Accounts, d: QuorumSlice, s: NodeState) {
    && s.slot >= 1
    && s.slot == s.chainSlot == s.queue.slot
    && QueueInv(rules, initial, s.queue)
    && ExternalInv(d, s.chainSlot, s.external)
    && HistoryInv(rules, d, s)
    && DatabaseInv(s)
  }

  lemma EmptyInv(rules: Rules, initial: Accounts, d: QuorumSlice, database: Option<seq<StoredBlock>>)
    requires database.Some? ==> database.value == []
    ensures NodeInv(rules, initial, d, Empty(initial, database))
  {
    FreshInv(rules, initial);
  }

  lemma CoversOneMore<T>(m: map<nat, T>, slot: nat, value: T)
    requires CoversSlots(m, slot) && slot >= 1
    ensures CoversSlots(m[slot := value], slot + 1)
  {
  }

  lemma FinalizeFields(rules: Rules, q: Queue, v: SlotValue)
    requires CanFinalize(rules, q, v)
    ensures Finalize(rules, q, v).slot == q.slot + 1
    ensures Finalize(rules, q, v).oldChunks == q.oldChunks[q.slot := q.chunks[v]]
  {
  }

  /** The chain moves on: everything but the node itself is in step again. */
  lemma AdvanceKeepsHistory(rules: Rules, initial: Accounts, d: QuorumSlice, s: NodeState)
    requires NodeInv(rules, initial, d, s) && s.external.Some?
    requires s.external.value.x in s.queue.chunks && CanFinalize(rules, s.queue, s.external.value.x)
    ensures var s' := Advance(rules, s).value;
      && s'.chainSlot == s'.queue.slot == s.slot + 1
      && QueueInv(rules, initial, s'.queue)
      && HistoryInv(rules, d, s') && DatabaseInv(s')
  {
    var v := s.external.value.x;
    FinalizeKeepsInv(rules, initial, s.queue, v);
    FinalizeFields(rules, s.queue, v);
    CoversOneMore(s.history, s.chainSlot, s.external.value);
    CoversOneMore(s.queue.oldChunks, s.queue.slot, s.queue.chunks[v]);
    assert Hashable(s.queue.chunks[v]) && rules.hash(s.queue.chunks[v]) == v;
    hide QueueInv, Finalize, CoversSlots, CanFinalize;
    var s' := Advance(rules, s).value;
    forall i: nat | 1 <= i < s'.chainSlot ensures HistoryMatches(rules, d, s'.history, s'.queue.oldChunks, i) {
      assert i != s.chainSlot ==> HistoryMatches(rules, d, s.history, s.queue.oldChunks, i);
    }
    if s.database.Some? {
      forall i: nat | i < s'.slot - 1 ensures RowMatches(s', i) {
        assert RowMatches(s, i);
      }
    }
  }

  lemma SaveKeepsInv(rules: Rules, initial: Accounts, d: QuorumSlice, s: NodeState)
    requires s.slot >= 1 && s.chainSlot == s.queue.slot == s.slot + 1
    requires QueueInv(rules, initial, s.queue) && HistoryInv(rules, d, s) && DatabaseInv(s)
    requires ExternalInv(d, s.chainSlot, s.external)
    ensures Save(s).Some? && NodeInv(rules, initial, d, Save(s).value)
  {
    hide QueueInv;
    assert HistoryMatches(rules, d, s.history, s.queue.oldChunks, s.slot);
    var s' := Save(s).value;
    assert HistoryInv(rules, d, s');
    if s.database.Some? {
      var rows := s.database.value;
      forall i: nat | i < s'.slot - 1 ensures RowMatches(s', i) {
        if i < |rows| {
          assert RowMatches(s, i);
        }
      }
    }
  }

  /** Handling a message of the consensus keeps everything in step. It stops the program
      exactly when the outcome's chunk is known but not valid. */
  lemma ChainStepKeepsInv(rules: Rules, initial: Accounts, d: QuorumSlice, s: NodeState, outcome: Option<Message>)
    requires NodeInv(rules, initial, d, s) && ExternalInv(d, s.chainSlot, outcome)
    ensures ChainStep(rules, s, outcome).None? <==>
            var external := Seal(s, outcome).external;
            external.Some? && external.value.x in s.queue.chunks && !CanFinalize(rules, s.queue, external.value.x)
    ensures ChainStep(rules, s, outcome).Some? ==> NodeInv(rules, initial, d, ChainStep(rules, s, outcome).value)
  {
    var s1 := Seal(s, outcome);
    SealKeepsInv(rules, initial, d, s, outcome);
    hide NodeInv, HistoryInv, DatabaseInv, QueueInv, CanFinalize;
    if s1.external.Some? && s1.external.value.x in s.queue.chunks {
      if CanFinalize(rules, s.queue, s1.external.value.x) {
        AdvanceKeepsHistory(rules, initial, d, s1);
        SaveKeepsInv(rules, initial, d, Advance(rules, s1).value);
      }
    }
  }

  /** A node moves on exactly when the block at hand has an outcome whose chunk is known and
      valid. Then the outcome is in its history, its chunk is finalized, and the block saved. */
  lemma ChainStepMovesOnIff(rules: Rules, initial: Accounts, d: QuorumSlice, s: NodeState, outcome: Option<Message>)
    requires NodeInv(rules, initial, d, s) && ExternalInv(d, s.chainSlot, outcome)
    requires ChainStep(rules, s, outcome).Some?
    ensures var s', external := ChainStep(rules, s, outcome).value, if s.external.Some? then s.external else outcome;
      && (s'.slot != s.slot <==> external.Some? && external.value.x in s.queue.chunks)
      && (s'.slot == s.slot ==> s' == s.(external := external))
      && (s'.slot != s.slot ==>
            && s'.slot == s.slot + 1 && s'.external == None && s'.history == s.history[s.slot := external.value]
            && s'.queue.last == external.value.x
            && s'.queue.oldChunks == s.queue.oldChunks[s.slot := s.queue.chunks[external.value.x]]
            && (s.database.Some? ==>
                  var m := external.value;
                  var block := StoredBlock(s.slot, s.queue.chunks[m.x], m.cn, m.hn);
                  s'.database == Some(s.database.value + [block])))
  {
    hide QueueInv, HistoryInv, DatabaseInv, ChunkIsValid, ProcessChunk, Revalidated;
  }

  lemma SealKeepsInv(rules: Rules, initial: Accounts, d: QuorumSlice, s: NodeState, outcome: Option<Message>)
    requires NodeInv(rules, initial, d, s) && ExternalInv(d, s.chainSlot, outcome)
    ensures var s' := Seal(s, outcome);
      && NodeInv(rules, initial, d, s') && ExternalInv(d, s.chainSlot, s'.external)
      && s'.queue == s.queue && s'.slot == s'.chainSlot == s.slot && s'.slot >= 1
  {
    hide QueueInv;
    if s.database.Some? {
      assert forall i: nat :: i < s.slot - 1 ==> RowMatches(s, i) ==> RowMatches(Seal(s, outcome), i);
    }
  }

  /** Work on the queue alone keeps everything in step. */
  lemma QueueStepKeepsInv(rules: Rules, initial: Accounts, d: QuorumSlice, s: NodeState, q: Queue)
    requires NodeInv(rules, initial, d, s) && QueueInv(rules, initial, q)
    requires q.slot == s.queue.slot && q.oldChunks == s.queue.oldChunks
    ensures NodeInv(rules, initial, d, s.(queue := q))
  {
    hide QueueInv;
    if s.database.Some? {
      assert forall i: nat :: i < s.slot - 1 ==> RowMatches(s, i) ==> RowMatches(s.(queue := q), i);
    }
  }

  // ------------------------------------------------------------------ whole runs

  /** What happens at a node: a consensus message is handled and may give the block an
      outcome, or something is done to the queue. */
  datatype Happening = Consensus(outcome: Option<Message>) | Queueing(action: Action)

  function React(rules: Rules, s: NodeState, h: Happening): Option<NodeState> {
    match h
    case Consensus(outcome) => ChainStep(rules, s, outcome)
    case Queueing(action) =>
      var q := Do(rules, s.queue, action);
      if q.None? then None else Some(s.(queue := q.value))
  }

  function ReactAll(rules: Rules, s: NodeState, hs: seq<Happening>): Option<NodeState> {
    if hs == [] then Some(s)
    else
      var s' := ReactAll(rules, s, hs[..|hs| - 1]);
      if s'.Some? then React(rules, s'.value, hs[|hs| - 1]) else None
  }

  /** Outcomes are for the block at hand, and only the chain finalizes. */
  ghost predicate Expected(d: QuorumSlice, s: NodeState, h: Happening) {
    match h
    case Consensus(outcome) => ExternalInv(d, s.chainSlot, outcome)
    case Queueing(action) => !action.Finalizing?
  }

  ghost predicate AllExpected(rules: Rules, d: QuorumSlice, s: NodeState, hs: seq<Happening>) {
    hs != [] ==>
      var front := hs[..|hs| - 1];
      && AllExpected(rules, d, s, front)
      && (ReactAll(rules, s, front).Some? ==> Expected(d, ReactAll(rules, s, front).value, hs[|hs| - 1]))
  }

  lemma ReactKeepsInv(rules: Rules, initial: Accounts, d: QuorumSlice, s: NodeState, h: Happening)
    requires NodeInv(rules, initial, d, s) && Expected(d, s, h) && React(rules, s, h).Some?
    ensures NodeInv(rules, initial, d, React(rules, s, h).value)
  {
    match h
    case Consensus(outcome) =>
      hide NodeInv, ChainStep;
      ChainStepKeepsInv(rules, initial, d, s, outcome);
    case Queueing(action) =>
      DoKeepsInv(rules, initial, s.queue, action);
      DoKeepsSlot(rules, s.queue, action);
      hide NodeInv, Do, QueueInv;
      assert QueueInv(rules, initial, Do(rules, s.queue, action).value);
      QueueStepKeepsInv(rules, initial, d, s, Do(rules, s.queue, action).value);
  }

  lemma DoKeepsSlot(rules: Rules, q: Queue, a: Action)
    requires !a.Finalizing? && Do(rules, q, a).Some?
    ensures Do(rules, q, a).value.slot == q.slot && Do(rules, q, a).value.oldChunks == q.oldChunks
  {
  }

  /** Over every run, node, chain, queue and database stay in step. */
  lemma {:induction false} RunStaysInStep(rules: Rules, initial: Accounts, d: QuorumSlice, start: NodeState,
                                          hs: seq<Happening>)
    requires NodeInv(rules, initial, d, start) && AllExpected(rules, d, start, hs) && ReactAll(rules, start, hs).Some?
    ensures NodeInv(rules, initial, d, ReactAll(rules, start, hs).value)
    decreases |hs|
  {
    hide NodeInv, React, Expected;
    if hs != [] {
      var front := hs[..|hs| - 1];
      RunStaysInStep(rules, initial, d, start, front);
      ReactKeepsInv(rules, initial, d, ReactAll(rules, start, front).value, hs[|hs| - 1]);
    }
  }

  lemma StepKeepsOutcome(rules: Rules, s: NodeState, h: Happening)
    requires React(rules, s, h).Some?
    ensures React(rules, s, h).value.chainSlot >= s.chainSlot
    ensures s.external.Some? && React(rules, s, h).value.chainSlot == s.chainSlot ==>
              React(rules, s, h).value.external == s.external
  {
    hide Do, Finalize, CanFinalize;
  }

  /** Over every run, the chain never goes back a slot, and for as long as a block is at hand
      its outcome never changes once it is there. */
  lemma {:induction false} OutcomeIsWrittenOnce(rules: Rules, s: NodeState, hs: seq<Happening>)
    requires ReactAll(rules, s, hs).Some?
    ensures ReactAll(rules, s, hs).value.chainSlot >= s.chainSlot
    ensures s.external.Some? && ReactAll(rules, s, hs).value.chainSlot == s.chainSlot ==>
              ReactAll(rules, s, hs).value.external == s.external
    decreases |hs|
  {
    hide React;
    if hs != [] {
      var front := hs[..|hs| - 1];
      OutcomeIsWrittenOnce(rules, s, front);
      StepKeepsOutcome(rules, ReactAll(rules, s, front).value, hs[|hs| - 1]);
    }
  }

  // --------------------------------------------------------------------- restart

  /** Loads one stored block: first the chain, then the queue. Nothing if the program
      stops: the block is for another slot, or its chunk cannot be hashed or is not valid. */
  function Load(rules: Rules, d: QuorumSlice, s: NodeState, block: StoredBlock): Option<NodeState> {
    if block.slot != s.chainSlot then None
    else if !Hashable(block.chunk) || !ChunkIsValid(s.queue.accounts, block.chunk, rules.verify) then None
    else Some(s.(chainSlot := s.chainSlot + 1,
                 external := None,
                 history := s.history[block.slot := ExternalizeOf(rules, block, d)],
                 queue := Finalize(rules, WithChunk(rules, s.queue, block.chunk), rules.hash(block.chunk))))
  }

  function LoadAll(rules: Rules, d: QuorumSlice, s: NodeState, blocks: seq<StoredBlock>): Option<NodeState> {
    if blocks == [] then Some(s)
    else
      var s' := LoadAll(rules, d, s, blocks[..|blocks| - 1]);
      if s'.Some? then Load(rules, d, s'.value, blocks[|blocks| - 1]) else None
  }

  /** The node that starts from a database. */
  function Restart(rules: Rules, initial: Accounts, d: QuorumSlice, blocks: seq<StoredBlock>): Option<NodeState> {
    var s := LoadAll(rules, d, Empty(initial, Some(blocks)), blocks);
    if s.None? then None else Some(s.value.(slot := |blocks| + 1))
  }

  /** What a restart can bring back: all but pending operations, chunks under
      consideration and the block at hand. */
  ghost function Durable(s: NodeState): NodeState {
    s.(external := None, queue := s.queue.(pending := [], chunks := map[]))
  }

  function Upto<T>(m: map<nat, T>, k: nat): map<nat, T> {
    map i | i in m && i <= k :: m[i]
  }

  lemma UptoNext<T>(m: map<nat, T>, k: nat)
    requires k + 1 in m
    ensures Upto(m, k)[k + 1 := m[k + 1]] == Upto(m, k + 1)
  {
  }

  lemma UptoAll<T>(m: map<nat, T>, slot: nat)
    requires CoversSlots(m, slot) && slot >= 1
    ensures Upto(m, 0) == map[] && Upto(m, slot - 1) == m
  {
  }

  /** The restarting node after `k` blocks. */
  ghost function Stage(rules: Rules, initial: Accounts, s: NodeState, k: nat): NodeState
    requires s.queue.slot >= 1 && CoversSlots(s.queue.oldChunks, s.queue.slot) && k < s.queue.slot
  {
    var chunks := Archive(s.queue)[..k];
    var q := Queue([], map[], Upto(s.queue.oldChunks, k), Replay(initial, chunks, rules.verify).accounts,
                   LastHash(rules, chunks), k + 1, CountOperations(chunks));
    NodeState(1, k + 1, None, Upto(s.history, k), q, s.database)
  }

  /** A replay that goes through does so from the start. */
  lemma {:induction false} ReplayPrefix(m: Accounts, chunks: seq<Chunk>, verify: SendOperation -> bool, k: nat)
    requires k <= |chunks| && Replay(m, chunks, verify).ok
    ensures Replay(m, chunks[..k], verify).ok
    decreases |chunks|
  {
    hide ProcessChunk;
    if k == |chunks| {
      assert chunks[..k] == chunks;
    } else {
      var front := chunks[..|chunks| - 1];
      ReplayPrefix(m, front, verify, k);
      assert front[..k] == chunks[..k];
    }
  }

  lemma ReplayNext(m: Accounts, chunks: seq<Chunk>, verify: SendOperation -> bool, k: nat)
    requires k < |chunks| && Replay(m, chunks, verify).ok
    ensures ChunkIsValid(Replay(m, chunks[..k], verify).accounts, chunks[k], verify)
    ensures Replay(m, chunks[..k + 1], verify) ==
            ProcessChunk(Replay(m, chunks[..k], verify).accounts, Some(chunks[k]), verify)
  {
    hide ProcessChunk;
    ReplayPrefix(m, chunks, verify, k + 1);
    assert chunks[..k + 1][..k] == chunks[..k];
  }

  /** Loading chunk `k + 1` into the queue of stage `k`. */
  lemma QueueOfNextStage(rules: Rules, initial: Accounts, q: Queue, k: nat)
    requires LedgerInv(rules, initial, q) && k + 1 < q.slot
    ensures var chunks := Archive(q);
      var before := Queue([], map[], Upto(q.oldChunks, k), Replay(initial, chunks[..k], rules.verify).accounts,
                          LastHash(rules, chunks[..k]), k + 1, CountOperations(chunks[..k]));
      var chunk := q.oldChunks[k + 1];
      && chunk == chunks[k]
      && ChunkIsValid(before.accounts, chunk, rules.verify)
      && Finalize(rules, WithChunk(rules, before, chunk), rules.hash(chunk)) ==
         Queue([], map[], Upto(q.oldChunks, k + 1), Replay(initial, chunks[..k + 1], rules.verify).accounts,
               LastHash(rules, chunks[..k + 1]), k + 2, CountOperations(chunks[..k + 1]))
  {
    hide ProcessChunk, Replay;
    var chunks := Archive(q);
    ReplayNext(initial, chunks, rules.verify, k);
    UptoNext(q.oldChunks, k);
    assert chunks[..k + 1][..k] == chunks[..k];
  }

  lemma LoadNext(rules: Rules, initial: Accounts, d: QuorumSlice, s: NodeState, k: nat)
    requires NodeInv(rules, initial, d, s) && s.database.Some? && k + 1 < s.slot
    ensures Load(rules, d, Stage(rules, initial, s, k), s.database.value[k]) == Some(Stage(rules, initial, s, k + 1))
  {
    assert RowMatches(s, k);
    assert HistoryMatches(rules, d, s.history, s.queue.oldChunks, k + 1);
    QueueOfNextStage(rules, initial, s.queue, k);
    UptoNext(s.history, k);
    hide Archive, Replay, ChunkIsValid, Finalize, LastHash, CountOperations, Upto, PendingInv;
  }

  lemma StageZero(rules: Rules, initial: Accounts, d: QuorumSlice, s: NodeState)
    requires NodeInv(rules, initial, d, s)
    ensures Stage(rules, initial, s, 0) == Empty(initial, s.database)
  {
    UptoAll(s.history, s.slot);
    UptoAll(s.queue.oldChunks, s.slot);
    assert Archive(s.queue)[..0] == [];
  }

  lemma {:induction false} LoadReachesStage(rules: Rules, initial: Accounts, d: QuorumSlice, s: NodeState, k: nat)
    requires NodeInv(rules, initial, d, s) && s.database.Some? && k < s.slot
    ensures LoadAll(rules, d, Empty(initial, s.database), s.database.value[..k]) == Some(Stage(rules, initial, s, k))
    decreases k
  {
    hide QueueInv, RowMatches, HistoryMatches, Load, Stage;
    var blocks := s.database.value;
    if k == 0 {
      StageZero(rules, initial, d, s);
    } else {
      LoadReachesStage(rules, initial, d, s, k - 1);
      LoadNext(rules, initial, d, s, k - 1);
      assert blocks[..k][..k - 1] == blocks[..k - 1];
    }
  }

  /** A node that restarts from its database gets back everything durable: accounts,
      history, last value, old chunks and slot. */
  lemma RestartIsEquivalent(rules: Rules, initial: Accounts, d: QuorumSlice, s: NodeState)
    requires NodeInv(rules, initial, d, s) && s.database.Some?
    ensures Restart(rules, initial, d, s.database.value) == Some(Durable(s))
  {
    var blocks := s.database.value;
    LoadReachesStage(rules, initial, d, s, s.slot - 1);
    assert blocks[..s.slot - 1] == blocks;
    UptoAll(s.history, s.slot);
    UptoAll(s.queue.oldChunks, s.slot);
    assert Archive(s.queue)[..s.slot - 1] == Archive(s.queue);
    hide Archive, Replay, LastHash, CountOperations, Upto, PendingInv;
  }

  /** The restarted node is in step again. */
  lemma DurableInv(rules: Rules, initial: Accounts, d: QuorumSlice, s: NodeState)
    requires NodeInv(rules, initial, d, s)
    ensures NodeInv(rules, initial, d, Durable(s))
  {
    KeepsLedger(rules, initial, s.queue, Durable(s).queue);
    hide LedgerInv;
    var s1, s' := s.(queue := Durable(s).queue), Durable(s);
    QueueStepKeepsInv(rules, initial, d, s, s'.queue);
    hide QueueInv;
    if s.database.Some? {
      assert forall i: nat :: i < s.slot - 1 ==> RowMatches(s1, i) ==> RowMatches(s', i);
    }
  }

  lemma {:induction false} DatabaseStays(rules: Rules, start: NodeState, hs: seq<Happening>)
    requires start.database.Some? && ReactAll(rules, start, hs).Some?
    ensures ReactAll(rules, start, hs).value.database.Some?
    decreases |hs|
  {
    if hs != [] {
      hide Do, Finalize, CanFinalize;
      DatabaseStays(rules, start, hs[..|hs| - 1]);
    }
  }

  /** After every run from an empty database, a restart gives back everything durable. */
  lemma RestartAfterAnyRun(rules: Rules, initial: Accounts, d: QuorumSlice, hs: seq<Happening>)
    requires AllExpected(rules, d, Empty(initial, Some([])), hs) && ReactAll(rules, Empty(initial, Some([])), hs).Some?
    ensures var s := ReactAll(rules, Empty(initial, Some([])), hs).value;
      && s.database.Some? && Restart(rules, initial, d, s.database.value) == Some(Durable(s))
      && NodeInv(rules, initial, d, Durable(s))
  {
    hide NodeInv, React, Restart;
    EmptyInv(rules, initial, d, Some([]));
    RunStaysInStep(rules, initial, d, Empty(initial, Some([])), hs);
    DatabaseStays(rules, Empty(initial, Some([])), hs);
    var s := ReactAll(rules, Empty(initial, Some([])), hs).value;
    RestartIsEquivalent(rules, initial, d, s);
    DurableInv(rules, initial, d, s);
  }

  // ------------------------------------------------------------- any database

  /** The loading node, seen as a live node that has saved the blocks loaded so far. */
  ghost function AsLive(s: NodeState, rows: seq<StoredBlock>): NodeState {
    s.(slot := s.chainSlot, database := Some(rows))
  }

  lemma WithChunkKeepsInv(rules: Rules, initial: Accounts, q: Queue, chunk: Chunk)
    requires QueueInv(rules, initial, q) && Hashable(chunk)
    ensures QueueInv(rules, initial, WithChunk(rules, q, chunk))
  {
    hide LedgerInv, PendingInv;
    KeepsLedger(rules, initial, q, WithChunk(rules, q, chunk));
  }

  /** Loading a block is learning its chunk and its outcome, and saving it again. */
  lemma LoadIsChainStep(rules: Rules, d: QuorumSlice, s: NodeState, rows: seq<StoredBlock>, block: StoredBlock)
    requires s.external.None? && s.chainSlot == s.queue.slot && Load(rules, d, s, block).Some?
    ensures var live := AsLive(s.(queue := WithChunk(rules, s.queue, block.chunk)), rows);
      ChainStep(rules, live, Some(ExternalizeOf(rules, block, d))) ==
      Some(AsLive(Load(rules, d, s, block).value, rows + [block]))
  {
    hide ChunkIsValid, ProcessChunk;
    var q, v := WithChunk(rules, s.queue, block.chunk), rules.hash(block.chunk);
    assert CanFinalize(rules, q, v);
    FinalizeFields(rules, q, v);
    hide Finalize;
  }

  lemma LoadKeepsInv(rules: Rules, initial: Accounts, d: QuorumSlice, s: NodeState, rows: seq<StoredBlock>,
                     block: StoredBlock)
    requires NodeInv(rules, initial, d, AsLive(s, rows)) && s.external.None? && Load(rules, d, s, block).Some?
    ensures NodeInv(rules, initial, d, AsLive(Load(rules, d, s, block).value, rows + [block]))
    ensures Load(rules, d, s, block).value.external.None?
  {
    var q := WithChunk(rules, s.queue, block.chunk);
    WithChunkKeepsInv(rules, initial, s.queue, block.chunk);
    QueueStepKeepsInv(rules, initial, d, AsLive(s, rows), q);
    LoadIsChainStep(rules, d, s, rows, block);
    var live := AsLive(s.(queue := q), rows);
    assert live == AsLive(s, rows).(queue := q);
    hide NodeInv, ChainStep, WithChunk;
    ChainStepKeepsInv(rules, initial, d, live, Some(ExternalizeOf(rules, block, d)));
  }

  lemma {:induction false} LoadAllKeepsInv(rules: Rules, initial: Accounts, d: QuorumSlice, s: NodeState,
                                           blocks: seq<StoredBlock>)
    requires NodeInv(rules, initial, d, AsLive(s, [])) && s.external.None? && LoadAll(rules, d, s, blocks).Some?
    ensures NodeInv(rules, initial, d, AsLive(LoadAll(rules, d, s, blocks).value, blocks))
    ensures LoadAll(rules, d, s, blocks).value.external.None?
    decreases |blocks|
  {
    hide NodeInv, Load;
    if blocks != [] {
      var front, block := blocks[..|blocks| - 1], blocks[|blocks| - 1];
      LoadAllKeepsInv(rules, initial, d, s, front);
      LoadKeepsInv(rules, initial, d, LoadAll(rules, d, s, front).value, front, block);
      assert blocks == front + [block];
    }
  }

  /** Whatever the database, a node that starts from it without stopping is in step and
      has all of its blocks. */
  lemma RestartedNodeIsInStep(rules: Rules, initial: Accounts, d: QuorumSlice, blocks: seq<StoredBlock>)
    requires Restart(rules, initial, d, blocks).Some?
    ensures var s := Restart(rules, initial, d, blocks).value;
      NodeInv(rules, initial, d, s) && s.database == Some(blocks) && s.slot == |blocks| + 1
  {
    var start := Empty(initial, Some(blocks));
    EmptyInv(rules, initial, d, Some([]));
    assert AsLive(start, []) == Empty(initial, Some([]));
    LoadAllKeepsInv(rules, initial, d, start, blocks);
    LoadAllKeepsDatabase(rules, d, start, blocks);
    var s := LoadAll(rules, d, start, blocks).value;
    assert |blocks| == AsLive(s, blocks).slot - 1;
    hide LoadAll, QueueInv, HistoryInv;
    assert Restart(rules, initial, d, blocks).value == AsLive(s, blocks);
  }

  lemma {:induction false} LoadAllKeepsDatabase(rules: Rules, d: QuorumSlice, s: NodeState, blocks: seq<StoredBlock>)
    requires LoadAll(rules, d, s, blocks).Some?
    ensures LoadAll(rules, d, s, blocks).value.database == s.database
    decreases |blocks|
  {
    hide ChunkIsValid, Finalize;
    if blocks != [] {
      LoadAllKeepsDatabase(rules, d, s, blocks[..|blocks| - 1]);
    }
  }

  // -------------------------------------------------------------- two replicas

  ghost predicate HashIsInjective(rules: Rules) {
    forall a, b :: rules.hash(a) == rules.hash(b) ==> a == b
  }

  /** The history of `s` externalized the same values as that of `t`, as far as it goes. */
  ghost predicate SameOutcomes(s: NodeState, t: NodeState)
    requires CoversSlots(s.history, s.chainSlot) && CoversSlots(t.history, t.chainSlot) && s.chainSlot <= t.chainSlot
  {
    forall i: nat :: 1 <= i < s.chainSlot ==>
      s.history[i].ExternalizeMessage? && t.history[i].ExternalizeMessage? && s.history[i].x == t.history[i].x
  }

  lemma SameChunk(rules: Rules, initial: Accounts, d: QuorumSlice, d': QuorumSlice, s: NodeState, t: NodeState, i: nat)
    requires NodeInv(rules, initial, d, s) && NodeInv(rules, initial, d', t) && HashIsInjective(rules)
    requires 1 <= i < s.slot <= t.slot && SameOutcomes(s, t)
    ensures s.queue.oldChunks[i] == t.queue.oldChunks[i]
  {
    hide QueueInv, DatabaseInv;
    assert HistoryMatches(rules, d, s.history, s.queue.oldChunks, i);
    assert HistoryMatches(rules, d', t.history, t.queue.oldChunks, i);
  }

  /** Nodes that externalize the same values have the same ledger: the one that is behind
      has a prefix of the other's chunks, and at the same slot their accounts are equal. */
  lemma SameOutcomesSameLedger(rules: Rules, initial: Accounts, d: QuorumSlice, d': QuorumSlice, s: NodeState,
                               t: NodeState)
    requires NodeInv(rules, initial, d, s) && NodeInv(rules, initial, d', t) && HashIsInjective(rules)
    requires s.slot <= t.slot && SameOutcomes(s, t)
    ensures Archive(s.queue) <= Archive(t.queue)
    ensures s.slot == t.slot ==>
              && s.queue.accounts == t.queue.accounts && s.queue.last == t.queue.last
              && s.queue.oldChunks == t.queue.oldChunks
  {
    hide PendingInv, DatabaseInv, HistoryMatches, Replay, LastHash, CountOperations;
    forall i: nat | 1 <= i < s.slot ensures s.queue.oldChunks[i] == t.queue.oldChunks[i] {
      SameChunk(rules, initial, d, d', s, t, i);
    }
    var a, b := Archive(s.queue), Archive(t.queue);
    assert a == b[..|a|];
    if s.slot == t.slot {
      assert a == b;
      assert s.queue.oldChunks == t.queue.oldChunks;
    }
  }
}
