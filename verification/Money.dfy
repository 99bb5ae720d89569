/** When processing conserves money, and how sequence numbers prevent replays
    (currency/account_map.go). */
module Money {
  import opened Ledger

  // ------------------------------------------------------------ the total

  /** The sum of the balances of some accounts. */
  ghost function Sum(m: Accounts, keys: set<string>): nat
    requires keys <= m.Keys
    decreases |keys|
  {
    if keys == {} then 0
    else
      var k :| k in keys;
      m[k].balance + Sum(m, keys - {k})
  }

  ghost function Total(m: Accounts): nat {
    Sum(m, m.Keys)
  }

  /** Any key can be taken out of a sum. */
  lemma {:induction false} SumWithout(m: Accounts, keys: set<string>, k: string)
    requires keys <= m.Keys && k in keys
    ensures Sum(m, keys) == m[k].balance + Sum(m, keys - {k})
    decreases |keys|
  {
    var j :| j in keys && Sum(m, keys) == m[j].balance + Sum(m, keys - {j});
    if j != k {
      SumWithout(m, keys - {j}, k);
      SumWithout(m, keys - {k}, j);
      assert keys - {j} - {k} == keys - {k} - {j};
    }
  }

  lemma {:induction false} SumReadsOnlyKeys(m: Accounts, m': Accounts, keys: set<string>)
    requires keys <= m.Keys && keys <= m'.Keys && forall k :: k in keys ==> m[k] == m'[k]
    ensures Sum(m, keys) == Sum(m', keys)
    decreases |keys|
  {
    if keys != {} {
      var k :| k in keys;
      SumWithout(m, keys, k);
      SumWithout(m', keys, k);
      SumReadsOnlyKeys(m, m', keys - {k});
    }
  }

  function BalanceOf(m: Accounts, key: string): nat {
    if key in m then m[key].balance else 0
  }

  /** Writing one account changes the total by the change of that balance. */
  lemma TotalAfterSet(m: Accounts, key: string, account: Account)
    ensures Total(m[key := account]) == Total(m) - BalanceOf(m, key) + account.balance
    ensures BalanceOf(m, key) <= Total(m)
  {
    var m', rest := m[key := account], m.Keys - {key};
    SumWithout(m', m'.Keys, key);
    assert m'.Keys - {key} == rest;
    SumReadsOnlyKeys(m, m', rest);
    if key in m {
      SumWithout(m, m.Keys, key);
    } else {
      assert rest == m.Keys;
    }
  }

  lemma TwoBalancesFit(m: Accounts, a: string, b: string)
    requires a != b
    ensures BalanceOf(m, a) + BalanceOf(m, b) <= Total(m)
  {
    var m' := m[a := Account(0, 0)];
    TotalAfterSet(m, a, Account(0, 0));
    TotalAfterSet(m', b, Account(0, 0));
  }

  // --------------------------------------------------------- one operation

  /** The new balances of signer and recipient, and when they wrap. */
  lemma BalancesAfter(m: Accounts, op: SendOperation)
    requires Validates(m, op)
    ensures var m' := Apply(m, op);
      && m'.Keys == m.Keys + {op.signer, op.to}
      && (op.signer != op.to ==>
            && m'[op.signer].balance == m[op.signer].balance - Cost(op)
            && m'[op.to].balance == (BalanceOf(m, op.to) + op.amount) % TWO64
            && Total(m') == Total(m) - Cost(op) - BalanceOf(m, op.to) + (BalanceOf(m, op.to) + op.amount) % TWO64)
      && (op.signer == op.to ==>
            && m'[op.to].balance == (m[op.to].balance + op.amount) % TWO64
            && Total(m') == Total(m) - m[op.to].balance + (m[op.to].balance + op.amount) % TWO64)
  {
    var source, target := m[op.signer], Target(m, op);
    var newSource := Account(op.sequence, (source.balance - op.amount - op.fee) % TWO64);
    var newTarget := Account(target.sequence, (target.balance + op.amount) % TWO64);
    assert newSource.balance == source.balance - Cost(op);
    var m1 := m[op.signer := newSource];
    TotalAfterSet(m, op.signer, newSource);
    TotalAfterSet(m1, op.to, newTarget);
    assert Apply(m, op) == m1[op.to := newTarget];
  }

  /** What can be read off an operation and its two accounts beforehand. A transfer to
      somebody else is balanced if both its sums wrap around or neither does. A transfer to
      oneself is balanced if it moves nothing, or exactly what a wrap-around takes away. */
  predicate Balanced(m: Accounts, op: SendOperation) {
    if op.signer != op.to
    then op.amount + op.fee < TWO64 <==> BalanceOf(m, op.to) + op.amount < TWO64
    else op.amount + op.fee == (if BalanceOf(m, op.to) + op.amount < TWO64 then 0 else TWO64)
  }

  lemma Wraps(a: uint64, b: uint64)
    ensures (a + b) % TWO64 == if a + b < TWO64 then a + b else a + b - TWO64
  {
  }

  /** Processing an operation conserves money, counting its fee, exactly when it is
      balanced: on any accounts. */
  lemma ProcessConservesIff(m: Accounts, op: SendOperation)
    requires Validates(m, op)
    ensures Total(Apply(m, op)) + op.fee == Total(m) <==> Balanced(m, op)
  {
    BalancesAfter(m, op);
    hide Total, Apply;
    Wraps(op.amount, op.fee);
    Wraps(BalanceOf(m, op.to), op.amount);
  }

  /** Not every operation conserves money: paying oneself 5 adds 5. */
  lemma SelfPaymentCreatesMoney()
    ensures var m := map["amy" := Account(0, 10)];
      var op := SendOperation("amy", 1, "amy", 5, 0);
      Validates(m, op) && Total(Apply(m, op)) == Total(m) + 5
  {
    BalancesAfter(map["amy" := Account(0, 10)], SendOperation("amy", 1, "amy", 5, 0));
  }

  /** An ordinary transfer: to somebody else, with a sum that fits in 64 bits. */
  predicate Ordinary(op: SendOperation) {
    op.signer != op.to && op.amount + op.fee < TWO64
  }

  /** The 64-bit arithmetic of this operation is exact. */
  ghost predicate DoesNotWrap(m: Accounts, op: SendOperation) {
    && Validates(m, op)
    && m[op.signer].balance >= op.amount + op.fee
    && BalanceOf(m, op.to) + op.amount < TWO64
    && Apply(m, op)[op.signer].balance == m[op.signer].balance - op.amount - op.fee
    && Apply(m, op)[op.to].balance == BalanceOf(m, op.to) + op.amount
  }

  /** For an ordinary transfer no 64-bit addition or subtraction wraps. */
  lemma OrdinaryDoesNotWrap(m: Accounts, op: SendOperation)
    requires Validates(m, op) && Ordinary(op) && Total(m) < TWO64
    ensures DoesNotWrap(m, op)
  {
    BalancesAfter(m, op);
    TwoBalancesFit(m, op.signer, op.to);
  }

  /** Within 64 bits, ordinary transfers conserve money. */
  lemma OrdinaryIsBalanced(m: Accounts, op: SendOperation)
    requires Validates(m, op) && Ordinary(op) && Total(m) < TWO64
    ensures Total(Apply(m, op)) + op.fee == Total(m)
  {
    OrdinaryDoesNotWrap(m, op);
    ProcessConservesIff(m, op);
    hide Total, Apply;
  }

  /** An operation touches no account but the two it names. */
  lemma OthersAreUntouched(m: Accounts, op: SendOperation, who: string)
    requires who != op.signer && who != op.to
    ensures Lookup(Process(m, op).accounts, who) == Lookup(m, who)
  {
  }

  // ------------------------------------------------------------------ whole runs

  ghost function Fees(ops: seq<SignedOperation>): nat {
    if ops == [] then 0 else ops[0].op.fee + Fees(ops[1..])
  }

  ghost predicate AllOrdinary(ops: seq<SignedOperation>) {
    forall i :: 0 <= i < |ops| ==> Ordinary(ops[i].op)
  }

  /** Over any run of ordinary operations from at most the total supply, the balances and
      the fees paid add up to the same amount. */
  lemma {:induction false} RunConserves(m: Accounts, ops: seq<SignedOperation>, verify: SendOperation -> bool)
    requires AllOrdinary(ops) && Total(m) < TWO64 && ProcessAll(m, ops, verify).ok
    ensures Total(ProcessAll(m, ops, verify).accounts) + Fees(ops) == Total(m)
    decreases |ops|
  {
    if ops != [] {
      OrdinaryIsBalanced(m, ops[0].op);
      RunConserves(Apply(m, ops[0].op), ops[1..], verify);
    }
  }

  /** The accounts after trying operations one by one, whether they go through or not. */
  ghost function Attempts(m: Accounts, ops: seq<SendOperation>): Accounts
    decreases |ops|
  {
    if ops == [] then m else Attempts(Process(m, ops[0]).accounts, ops[1..])
  }

  /** The fees of those that go through. */
  ghost function FeesPaid(m: Accounts, ops: seq<SendOperation>): nat
    decreases |ops|
  {
    if ops == [] then 0
    else (if Process(m, ops[0]).ok then ops[0].fee else 0) + FeesPaid(Process(m, ops[0]).accounts, ops[1..])
  }

  /** Trying any ordinary operations conserves money, counting the fees that were paid. */
  lemma {:induction false} AttemptsConserve(m: Accounts, ops: seq<SendOperation>)
    requires (forall i :: 0 <= i < |ops| ==> Ordinary(ops[i])) && Total(m) < TWO64
    ensures Total(Attempts(m, ops)) + FeesPaid(m, ops) == Total(m)
    decreases |ops|
  {
    if ops != [] {
      if Validates(m, ops[0]) {
        OrdinaryIsBalanced(m, ops[0]);
      }
      hide Total, Apply, Validates;
      AttemptsConserve(Process(m, ops[0]).accounts, ops[1..]);
    }
  }

  lemma {:induction false} ProcessAllSplits(m: Accounts, a: seq<SignedOperation>, b: seq<SignedOperation>,
                                            verify: SendOperation -> bool)
    requires ProcessAll(m, a + b, verify).ok
    ensures ProcessAll(m, a, verify).ok
    ensures ProcessAll(ProcessAll(m, a, verify).accounts, b, verify) == ProcessAll(m, a + b, verify)
    decreases |a|
  {
    if a == [] {
      assert a + b == b;
    } else {
      assert (a + b)[1..] == a[1..] + b;
      ProcessAllSplits(Apply(m, a[0].op), a[1..], b, verify);
    }
  }

  /** Operations go through exactly when each verifies and is valid on the accounts that the
      ones before it leave. */
  lemma {:induction false} AllGoThroughIff(m: Accounts, ops: seq<SignedOperation>, verify: SendOperation -> bool)
    ensures ProcessAll(m, ops, verify).ok <==>
            forall i :: 0 <= i < |ops| ==>
              verify(ops[i].op) && Validates(ProcessAll(m, ops[..i], verify).accounts, ops[i].op)
    decreases |ops|
  {
    if ops != [] {
      var op, rest := ops[0].op, ops[1..];
      assert ProcessAll(m, ops[..0], verify).accounts == m;
      if verify(op) && Validates(m, op) {
        var m' := Apply(m, op);
        AllGoThroughIff(m', rest, verify);
        forall i | 0 <= i < |rest|
          ensures ProcessAll(m, ops[..i + 1], verify) == ProcessAll(m', rest[..i], verify) && ops[i + 1] == rest[i]
        {
          assert ops[..i + 1][0] == ops[0] && ops[..i + 1][1..] == rest[..i];
        }
        hide Apply, Validates;
      }
    }
  }

  /** From at most the total supply, no addition or subtraction of any operation of a run
      wraps. */
  lemma RunNeverWraps(m: Accounts, before: seq<SignedOperation>, op: SignedOperation, after: seq<SignedOperation>,
                      verify: SendOperation -> bool)
    requires AllOrdinary(before + ([op] + after)) && Total(m) <= TOTAL_MONEY
    requires ProcessAll(m, before + ([op] + after), verify).ok
    ensures DoesNotWrap(ProcessAll(m, before, verify).accounts, op.op)
  {
    hide ProcessAll, DoesNotWrap, Validates, AllOrdinary, Total, Fees;
    var here := ProcessAll(m, before, verify).accounts;
    SplitOrdinary(before, op, after);
    ProcessAllSplits(m, before, [op] + after, verify);
    RunConserves(m, before, verify);
    FirstValidates(here, op, after, verify);
    OrdinaryDoesNotWrap(here, op.op);
  }

  lemma FirstValidates(m: Accounts, op: SignedOperation, after: seq<SignedOperation>, verify: SendOperation -> bool)
    requires ProcessAll(m, [op] + after, verify).ok
    ensures Validates(m, op.op)
  {
  }

  lemma SplitOrdinary(before: seq<SignedOperation>, op: SignedOperation, after: seq<SignedOperation>)
    requires AllOrdinary(before + ([op] + after))
    ensures AllOrdinary(before) && Ordinary(op.op)
  {
    var all := before + ([op] + after);
    assert forall i :: 0 <= i < |before| ==> all[i] == before[i];
    assert all[|before|] == op;
  }

  // -------------------------------------------------------- sequence numbers

  /** The operations of one signer, in order. */
  ghost function By(ops: seq<SignedOperation>, who: string): seq<SendOperation> {
    if ops == [] then []
    else (if ops[0].op.signer == who then [ops[0].op] else []) + By(ops[1..], who)
  }

  ghost predicate NeverPaysThemselves(ops: seq<SignedOperation>, who: string) {
    forall i :: 0 <= i < |ops| && ops[i].op.signer == who ==> ops[i].op.to != who
  }

  /** The sequence number of an account; an account that does not exist yet has 0. */
  function SequenceOf(m: Accounts, who: string): uint32 {
    if who in m then m[who].sequence else 0
  }

  lemma SequenceAfter(m: Accounts, op: SendOperation, who: string)
    requires Validates(m, op) && (op.signer == who ==> op.to != who)
    ensures SequenceOf(Apply(m, op), who) == if who == op.signer then op.sequence else SequenceOf(m, who)
  {
  }

  /** The accepted operations of a signer who does not pay themselves carry consecutive
      sequence numbers. */
  lemma {:induction false} SequencesAreConsecutive(m: Accounts, ops: seq<SignedOperation>,
                                                   verify: SendOperation -> bool, who: string, i: nat)
    requires NeverPaysThemselves(ops, who) && ProcessAll(m, ops, verify).ok && i < |By(ops, who)|
    ensures By(ops, who)[i].sequence == (SequenceOf(m, who) + 1 + i) % TWO32
    decreases |ops|
  {
    var op, m' := ops[0].op, Apply(m, ops[0].op);
    SequenceAfter(m, op, who);
    hide Apply;
    if op.signer != who {
      assert By(ops, who) == By(ops[1..], who);
      SequencesAreConsecutive(m', ops[1..], verify, who, i);
    } else {
      assert By(ops, who) == [op] + By(ops[1..], who);
      if i > 0 {
        SequencesAreConsecutive(m', ops[1..], verify, who, i - 1);
        Consecutive(SequenceOf(m, who), i);
      }
    }
  }

  lemma Consecutive(s: nat, i: nat)
    requires i > 0
    ensures ((s + 1) % TWO32 + 1 + (i - 1)) % TWO32 == (s + 1 + i) % TWO32
  {
    var q := (s + 1) / TWO32;
    assert s + 1 == q * TWO32 + (s + 1) % TWO32;
    assert s + 1 + i == q * TWO32 + ((s + 1) % TWO32 + i);
  }

  /** An operation of such a signer can be accepted twice only a multiple of 2^32 of their
      operations apart, when the sequence numbers have come round. */
  lemma NoReplays(m: Accounts, ops: seq<SignedOperation>, verify: SendOperation -> bool, who: string, i: nat, j: nat)
    requires NeverPaysThemselves(ops, who) && ProcessAll(m, ops, verify).ok
    requires i < j < |By(ops, who)|
    ensures By(ops, who)[i] == By(ops, who)[j] ==> (j - i) % TWO32 == 0
  {
    hide ProcessAll, By;
    SequencesAreConsecutive(m, ops, verify, who, i);
    SequencesAreConsecutive(m, ops, verify, who, j);
    if By(ops, who)[i] == By(ops, who)[j] {
      SameResidue(SequenceOf(m, who) + 1 + i, SequenceOf(m, who) + 1 + j);
    }
  }

  lemma SameResidue(a: nat, b: nat)
    requires a < b && a % TWO32 == b % TWO32
    ensures (b - a) % TWO32 == 0
  {
    assert b - a == (b / TWO32 - a / TWO32) * TWO32;
  }

  /** An accepted operation can be accepted again at once exactly when its signer pays
      themselves and can still afford it. */
  lemma ReplayIff(m: Accounts, op: SendOperation)
    requires Validates(m, op)
    ensures Validates(Apply(m, op), op) <==>
            op.signer == op.to && Cost(op) <= (m[op.signer].balance + op.amount) % TWO64
  {
  }

  /** Paying oneself can be accepted over and over. */
  lemma SelfPaymentCanBeReplayed()
    ensures var m := map["amy" := Account(0, 10)];
      var op := SendOperation("amy", 1, "amy", 5, 0);
      Validates(m, op) && Validates(Apply(m, op), op)
  {
    ReplayIff(map["amy" := Account(0, 10)], SendOperation("amy", 1, "amy", 5, 0));
  }
}
