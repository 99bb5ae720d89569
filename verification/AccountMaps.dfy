/** The layered copy-on-write map of accounts (currency/account_map.go), proved to
    behave as one flat map at any depth of layering. */
module AccountMaps {
  import opened BallotMessages
  import opened Ledger

  class AccountMap {
    var data: map<string, Account>
    const fallback: AccountMap?
    /** This map and everything it falls back to. */
    ghost const layers: set<AccountMap>

    ghost predicate Valid()
      decreases layers
    {
      && this in layers
      && (fallback == null ==> layers == {this})
      && (fallback != null ==>
            && fallback.layers == layers - {this}
            && this !in fallback.layers
            && fallback.Valid())
    }

    /** The flat map that this layered map stands for. */
    ghost function Flat(): Accounts
      requires Valid()
      reads layers
      decreases layers
    {
      if fallback == null then data else fallback.Flat() + data
    }

    constructor ()
      ensures Valid() && fresh(layers) && Flat() == map[] && fallback == null
    {
      data := map[];
      fallback := null;
      layers := {this};
    }

    constructor Over(original: AccountMap)
      requires original.Valid()
      ensures Valid() && fallback == original && layers == original.layers + {this} && Flat() == original.Flat()
    {
      data := map[];
      fallback := original;
      layers := original.layers + {this};
      new;
      assert layers - {this} == original.layers;
    }

    /** A copy that sees this map until it is written to. */
    method CowCopy() returns (copy: AccountMap)
      requires Valid()
      ensures fresh(copy) && copy.Valid() && copy.layers == layers + {copy} && copy.Flat() == Flat()
    {
      copy := new AccountMap.Over(this);
    }

    /** Looks through the layers, nearest first. */
    function Get(key: string): (r: Option<Account>)
      requires Valid()
      reads layers
      ensures r == Lookup(Flat(), key)
      decreases layers
    {
      if key in data then Some(data[key])
      else if fallback != null then fallback.Get(key)
      else None
    }

    method Set(key: string, account: Account)
      requires Valid()
      modifies this`data
      ensures Flat() == old(Flat())[key := account]
    {
      FallbackIsUnchanged();
      data := data[key := account];
      FallbackIsUnchanged();
    }

    lemma FallbackIsUnchanged()
      requires Valid()
      ensures fallback == null ==> Flat() == data
      ensures fallback != null ==> this !in fallback.layers && Flat() == fallback.Flat() + data
    {
    }

    /** Whether this operation is valid. */
    method Validate(op: SendOperation) returns (r: bool)
      requires Valid()
      ensures r == Validates(Flat(), op)
    {
      var account := Get(op.signer);
      if account.None? {
        return false;
      }
      if (account.value.sequence + 1) % TWO32 != op.sequence {
        return false;
      }
      var cost := (op.amount + op.fee) % TWO64;
      if cost > account.value.balance {
        return false;
      }
      return true;
    }

    /** Processes one operation. Returns false, changing nothing, if it is not valid. */
    method Process(op: SendOperation) returns (ok: bool)
      requires Valid()
      modifies this`data
      ensures Processed(Flat(), ok) == Ledger.Process(old(Flat()), op)
    {
      ok := Validate(op);
      if ok {
        var source := Get(op.signer).value;
        var target := Get(op.to);
        if target.None? {
          target := Some(Account(0, 0));
        }
        var newSource := Account(op.sequence, (source.balance - op.amount - op.fee) % TWO64);
        var newTarget := Account(target.value.sequence, (target.value.balance + op.amount) % TWO64);
        Set(op.signer, newSource);
        Set(op.to, newTarget);
      }
    }

    method CheckEqual(key: string, account: Option<Account>) returns (r: bool)
      requires Valid()
      ensures r == (Lookup(Flat(), key) == account)
    {
      r := Get(key) == account;
    }

    /** Processes the operations in turn, up to the first that fails. */
    method ProcessOperations(ops: seq<SignedOperation>, verify: SendOperation -> bool) returns (ok: bool)
      requires Valid()
      modifies this`data
      ensures Processed(Flat(), ok) == ProcessAll(old(Flat()), ops, verify)
    {
      for i := 0 to |ops|
        invariant ProcessAll(Flat(), ops[i..], verify) == ProcessAll(old(Flat()), ops, verify)
      {
        assert ops[i..][1..] == ops[i + 1..];
        if !verify(ops[i].op) {
          return false;
        }
        var processed := Process(ops[i].op);
        if !processed {
          return false;
        }
      }
      return true;
    }

    method CheckState(state: map<string, Option<Account>>) returns (ok: bool)
      requires Valid()
      ensures ok == StateMatches(Flat(), state)
    {
      var todo := state.Keys;
      while todo != {}
        invariant todo <= state.Keys
        invariant forall k :: k in state.Keys - todo ==> Lookup(Flat(), k) == state[k]
      {
        var k :| k in todo;
        var same := CheckEqual(k, state[k]);
        if !same {
          return false;
        }
        todo := todo - {k};
      }
      return true;
    }

    /** Processes a whole chunk. When it returns false, some of it may have been processed. */
    method ProcessChunk(chunk: Option<Chunk>, verify: SendOperation -> bool) returns (ok: bool)
      requires Valid()
      modifies this`data
      ensures Processed(Flat(), ok) == Ledger.ProcessChunk(old(Flat()), chunk, verify)
    {
      if chunk.None? {
        return false;
      }
      if |chunk.value.operations| > MAX_CHUNK_SIZE {
        return false;
      }
      ok := ProcessOperations(chunk.value.operations, verify);
      if ok {
        ok := CheckState(chunk.value.state);
      }
    }

    /** Whether ProcessChunk would succeed. Works on a copy: no existing map changes. */
    method ValidateChunk(chunk: Option<Chunk>, verify: SendOperation -> bool) returns (ok: bool)
      requires Valid()
      ensures ok == Ledger.ProcessChunk(Flat(), chunk, verify).ok
    {
      var copy := CowCopy();
      ok := copy.ProcessChunk(chunk, verify);
    }
  }
}
