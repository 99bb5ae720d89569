/** Building a chunk from a list of operations, and when the result is valid
    (currency/operation_queue.go, NewChunk). */
module Chunks {
  import opened BallotMessages
  import opened Ledger

  /** The accounts while a chunk is built, how many operations went through, and the
      account states noted so far. */
  datatype Draft = Draft(accounts: Accounts, valid: nat, state: map<string, Option<Account>>)

  /** Tries one operation and notes the two accounts it mentions. */
  function Try(draft: Draft, op: SendOperation): Draft {
    var r := Process(draft.accounts, op);
    Draft(r.accounts, draft.valid + (if r.ok then 1 else 0),
          draft.state[op.signer := Lookup(r.accounts, op.signer)][op.to := Lookup(r.accounts, op.to)])
  }

  /** Tries operations in turn, until enough of them went through. */
  function TryAll(draft: Draft, ops: seq<SignedOperation>): Draft
    decreases |ops|
  {
    if ops == [] then draft
    else
      var draft' := Try(draft, ops[0].op);
      if draft'.valid == MAX_CHUNK_SIZE then draft' else TryAll(draft', ops[1..])
  }

  /** The chunk that is built holds all the operations, valid or not. */
  function BuildChunk(m: Accounts, ops: seq<SignedOperation>): Chunk {
    Chunk(ops, TryAll(Draft(m, 0, map[]), ops).state)
  }

  ghost predicate Noted(draft: Draft) {
    StateMatches(draft.accounts, draft.state)
  }

  /** What is noted stays true: an operation changes only accounts that are noted again. */
  lemma TryKeepsNoted(draft: Draft, op: SendOperation)
    requires Noted(draft)
    ensures Noted(Try(draft, op))
  {
  }

  /** If all operations go through, the noted states are the final ones. */
  lemma {:induction false} TryAllNotesFinalState(draft: Draft, ops: seq<SignedOperation>, verify: SendOperation -> bool)
    requires Noted(draft) && draft.valid + |ops| <= MAX_CHUNK_SIZE && ProcessAll(draft.accounts, ops, verify).ok
    ensures StateMatches(ProcessAll(draft.accounts, ops, verify).accounts, TryAll(draft, ops).state)
    decreases |ops|
  {
    if ops != [] {
      var draft' := Try(draft, ops[0].op);
      TryKeepsNoted(draft, ops[0].op);
      if draft'.valid == MAX_CHUNK_SIZE {
        assert ops[1..] == [];
      } else {
        TryAllNotesFinalState(draft', ops[1..], verify);
      }
    }
  }

  /** A built chunk is valid exactly when there are not too many operations and every one
      of them verifies and goes through in turn. */
  lemma BuiltChunkIsValidIff(m: Accounts, ops: seq<SignedOperation>, verify: SendOperation -> bool)
    ensures ChunkIsValid(m, BuildChunk(m, ops), verify) <==> |ops| <= MAX_CHUNK_SIZE && ProcessAll(m, ops, verify).ok
  {
    if |ops| <= MAX_CHUNK_SIZE && ProcessAll(m, ops, verify).ok {
      TryAllNotesFinalState(Draft(m, 0, map[]), ops, verify);
    }
  }

  /** Two operations of one signer with the same sequence number never make a valid chunk,
      although both may be pending. */
  lemma ConflictingPendingMakeInvalidChunk(m: Accounts, a: SignedOperation, b: SignedOperation,
                                           verify: SendOperation -> bool)
    requires a.op.signer == b.op.signer && a.op.sequence == b.op.sequence && a.op.signer != a.op.to
    ensures !ChunkIsValid(m, BuildChunk(m, [a, b]), verify)
  {
    BuiltChunkIsValidIff(m, [a, b], verify);
    assert [a, b][1..] == [b];
    if Validates(m, a.op) {
      assert !Validates(Apply(m, a.op), b.op);
    }
  }

  /** The operations that are tried: all of them, or up to the one that fills the chunk. */
  function Tried(m: Accounts, ops: seq<SignedOperation>, valid: nat): seq<SendOperation>
    decreases |ops|
  {
    if ops == [] then []
    else
      var r := Process(m, ops[0].op);
      var valid' := valid + (if r.ok then 1 else 0);
      [ops[0].op] + (if valid' == MAX_CHUNK_SIZE then [] else Tried(r.accounts, ops[1..], valid'))
  }

  /** Everybody some operations name. */
  function Mentioned(ops: seq<SendOperation>): set<string> {
    if ops == [] then {} else {ops[0].signer, ops[0].to} + Mentioned(ops[1..])
  }

  /** The recipients of those that go through in turn. */
  function Paid(m: Accounts, ops: seq<SendOperation>): set<string>
    decreases |ops|
  {
    if ops == [] then {}
    else (if Validates(m, ops[0]) then {ops[0].to} else {}) + Paid(Process(m, ops[0]).accounts, ops[1..])
  }

  lemma TryKeys(draft: Draft, op: SendOperation)
    ensures var draft', r := Try(draft, op), Process(draft.accounts, op);
      && draft'.accounts == r.accounts && draft'.valid == draft.valid + (if r.ok then 1 else 0)
      && draft'.state.Keys == draft.state.Keys + {op.signer, op.to}
      && draft'.accounts.Keys == draft.accounts.Keys + (if Validates(draft.accounts, op) then {op.to} else {})
  {
  }

  /** Whom trying operations notes. */
  lemma {:induction false} TryAllNotes(draft: Draft, ops: seq<SignedOperation>)
    ensures var t := Tried(draft.accounts, ops, draft.valid);
      TryAll(draft, ops).state.Keys == draft.state.Keys + Mentioned(t)
    decreases |ops|
  {
    if ops != [] {
      var draft', t := Try(draft, ops[0].op), Tried(draft.accounts, ops, draft.valid);
      TryKeys(draft, ops[0].op);
      hide Try, Process, Validates;
      if draft'.valid == MAX_CHUNK_SIZE {
        assert t[1..] == [];
      } else {
        TryAllNotes(draft', ops[1..]);
        assert t[1..] == Tried(draft'.accounts, ops[1..], draft'.valid);
      }
    }
  }

  /** Whom trying operations leaves with an account. */
  lemma {:induction false} TryAllOpens(draft: Draft, ops: seq<SignedOperation>)
    ensures var t := Tried(draft.accounts, ops, draft.valid);
      TryAll(draft, ops).accounts.Keys == draft.accounts.Keys + Paid(draft.accounts, t)
    decreases |ops|
  {
    if ops != [] {
      var draft', t := Try(draft, ops[0].op), Tried(draft.accounts, ops, draft.valid);
      TryKeys(draft, ops[0].op);
      hide Try, Process, Validates;
      if draft'.valid == MAX_CHUNK_SIZE {
        assert t[1..] == [];
      } else {
        TryAllOpens(draft', ops[1..]);
        assert t[1..] == Tried(draft'.accounts, ops[1..], draft'.valid);
      }
    }
  }

  lemma {:induction false} TryAllKeepsNoted(draft: Draft, ops: seq<SignedOperation>)
    requires Noted(draft)
    ensures Noted(TryAll(draft, ops))
    decreases |ops|
  {
    hide Noted, Try;
    if ops != [] {
      TryKeepsNoted(draft, ops[0].op);
      if Try(draft, ops[0].op).valid != MAX_CHUNK_SIZE {
        TryAllKeepsNoted(Try(draft, ops[0].op), ops[1..]);
      }
    }
  }

  /** A built chunk can be hashed exactly when everybody named by an operation that is tried
      has an account already, or is paid by one that goes through. */
  lemma BuiltChunkHashesIff(m: Accounts, ops: seq<SignedOperation>)
    ensures var t := Tried(m, ops, 0);
      Hashable(BuildChunk(m, ops)) <==> Mentioned(t) <= m.Keys + Paid(m, t)
  {
    var start := Draft(m, 0, map[]);
    TryAllNotes(start, ops);
    TryAllOpens(start, ops);
    TryAllKeepsNoted(start, ops);
    hide Tried, Mentioned, Paid;
    var final := TryAll(start, ops);
    assert forall k :: k in final.state ==> (final.state[k].Some? <==> k in final.accounts);
  }

  lemma {:induction false} GoodOperationsAreHashed(draft: Draft, ops: seq<SignedOperation>,
                                                   verify: SendOperation -> bool)
    requires ProcessAll(draft.accounts, ops, verify).ok && forall k :: k in draft.state ==> draft.state[k].Some?
    ensures forall k :: k in TryAll(draft, ops).state ==> TryAll(draft, ops).state[k].Some?
    decreases |ops|
  {
    if ops != [] && Try(draft, ops[0].op).valid != MAX_CHUNK_SIZE {
      GoodOperationsAreHashed(Try(draft, ops[0].op), ops[1..], verify);
    }
  }

  /** Operations that all go through make a chunk that can be hashed. */
  lemma GoodChunksHash(m: Accounts, ops: seq<SignedOperation>, verify: SendOperation -> bool)
    requires ProcessAll(m, ops, verify).ok
    ensures Hashable(BuildChunk(m, ops))
  {
    GoodOperationsAreHashed(Draft(m, 0, map[]), ops, verify);
  }

  /** Not every chunk that is built can be hashed: amy's second payment does not go through,
      and nobody has opened an account for cal. */
  lemma BuiltChunkMayNotHash()
    ensures var m := map["amy" := Account(0, 10)];
      var a := SignedOperation(SendOperation("amy", 1, "bob", 1, 2), "s");
      var b := SignedOperation(SendOperation("amy", 1, "cal", 1, 1), "t");
      Validates(m, a.op) && Validates(m, b.op) && !Hashable(BuildChunk(m, [a, b]))
  {
    var m := map["amy" := Account(0, 10)];
    var a := SignedOperation(SendOperation("amy", 1, "bob", 1, 2), "s");
    var b := SignedOperation(SendOperation("amy", 1, "cal", 1, 1), "t");
    var d1 := Try(Draft(m, 0, map[]), a.op);
    var d2 := Try(d1, b.op);
    assert [a, b][1..] == [b];
    assert TryAll(d1, [b]) == d2;
    assert "cal" in d2.state && d2.state["cal"].None?;
  }

  // ---------------------------------------------------- what a valid chunk says

  /** The account under `key` is just as it is listed: not there, or with that sequence number
      and that balance. */
  predicate IsAsListed(m: Accounts, key: string, listed: Option<Account>) {
    if listed.None? then key !in m
    else key in m && m[key].sequence == listed.value.sequence && m[key].balance == listed.value.balance
  }

  /** A chunk is valid exactly when it is not too long, all its operations go through, and
      every account it lists is as listed afterwards. */
  lemma ChunkIsValidIff(m: Accounts, chunk: Chunk, verify: SendOperation -> bool)
    ensures var r := ProcessAll(m, chunk.operations, verify);
      ChunkIsValid(m, chunk, verify) <==>
        && |chunk.operations| <= MAX_CHUNK_SIZE && r.ok
        && forall k :: k in chunk.state ==> IsAsListed(r.accounts, k, chunk.state[k])
  {
    hide ProcessAll;
    var m' := ProcessAll(m, chunk.operations, verify).accounts;
    forall k | k in chunk.state
      ensures IsAsListed(m', k, chunk.state[k]) <==> Lookup(m', k) == chunk.state[k]
    {
    }
  }

  /** Two valid chunks with the same operations that list the same accounts list them alike:
      a valid chunk tells one ledger. */
  lemma ValidChunksAgree(m: Accounts, a: Chunk, b: Chunk, verify: SendOperation -> bool)
    requires ChunkIsValid(m, a, verify) && ChunkIsValid(m, b, verify)
    requires a.operations == b.operations && a.state.Keys == b.state.Keys
    ensures a == b
  {
    ChunkIsValidIff(m, a, verify);
    ChunkIsValidIff(m, b, verify);
    hide ChunkIsValid, ProcessAll;
    assert a.state == b.state;
  }
}
