/** Accounts, operations and chunks, and what processing them does to a flat map of
    accounts (currency/account.go, send_operation.go, ledger_chunk.go, account_map.go). */
module Ledger {
  import opened BallotMessages

  const TWO32 := 0x1_0000_0000
  const TWO64 := 0x1_0000_0000_0000_0000

  type uint32 = n: nat | n < 0x1_0000_0000
  type uint64 = n: nat | n < 0x1_0000_0000_0000_0000

  const TOTAL_MONEY: nat := 21 * 1000 * 1000 * (1000 * 1000 * 1000)
  const MAX_CHUNK_SIZE: nat := 100

  datatype Account = Account(sequence: uint32, balance: uint64)

  datatype SendOperation = SendOperation(signer: string, sequence: uint32, to: string, amount: uint64, fee: uint64)

  datatype SignedOperation = SignedOperation(op: SendOperation, signature: string)

  /** The operations of one block, and the accounts they mention as they are afterwards. */
  datatype Chunk = Chunk(operations: seq<SignedOperation>, state: map<string, Option<Account>>)

  /** Hashing a chunk reads every account it lists, so it needs all of them to exist. */
  predicate Hashable(chunk: Chunk) {
    forall k :: k in chunk.state ==> chunk.state[k].Some?
  }

  type Accounts = map<string, Account>

  function Lookup(m: Accounts, key: string): Option<Account> {
    if key in m then Some(m[key]) else None
  }

  /** What an operation costs its signer, as a 64-bit sum. */
  function Cost(op: SendOperation): uint64 {
    (op.amount + op.fee) % TWO64
  }

  predicate Validates(m: Accounts, op: SendOperation) {
    && op.signer in m
    && (m[op.signer].sequence + 1) % TWO32 == op.sequence
    && Cost(op) <= m[op.signer].balance
  }

  /** The recipient's account, or a new empty one. */
  function Target(m: Accounts, op: SendOperation): Account {
    if op.to in m then m[op.to] else Account(0, 0)
  }

  /** The accounts after an operation that validates: signer first, then recipient. */
  function Apply(m: Accounts, op: SendOperation): Accounts
    requires Validates(m, op)
  {
    var source, target := m[op.signer], Target(m, op);
    m[op.signer := Account(op.sequence, (source.balance - op.amount - op.fee) % TWO64)]
     [op.to := Account(target.sequence, (target.balance + op.amount) % TWO64)]
  }

  /** The accounts left by a process that may stop early, and whether it went through. */
  datatype Processed = Processed(accounts: Accounts, ok: bool)

  function Process(m: Accounts, op: SendOperation): Processed {
    if Validates(m, op) then Processed(Apply(m, op), true) else Processed(m, false)
  }

  /** Processes operations in turn, up to the first that does not verify or validate. */
  function ProcessAll(m: Accounts, ops: seq<SignedOperation>, verify: SendOperation -> bool): Processed
    decreases |ops|
  {
    if ops == [] then Processed(m, true)
    else if !verify(ops[0].op) || !Validates(m, ops[0].op) then Processed(m, false)
    else ProcessAll(Apply(m, ops[0].op), ops[1..], verify)
  }

  /** Every account the chunk lists is as it lists it. */
  predicate StateMatches(m: Accounts, state: map<string, Option<Account>>) {
    forall k :: k in state ==> Lookup(m, k) == state[k]
  }

  function ProcessChunk(m: Accounts, chunk: Option<Chunk>, verify: SendOperation -> bool): Processed {
    if chunk.None? || |chunk.value.operations| > MAX_CHUNK_SIZE then Processed(m, false)
    else
      var r := ProcessAll(m, chunk.value.operations, verify);
      if !r.ok then r else Processed(r.accounts, StateMatches(r.accounts, chunk.value.state))
  }

  /** The chunk goes through on these accounts. */
  predicate ChunkIsValid(m: Accounts, chunk: Chunk, verify: SendOperation -> bool) {
    ProcessChunk(m, Some(chunk), verify).ok
  }
}
