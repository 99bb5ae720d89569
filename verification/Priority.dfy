/** The order of pending operations, and sets kept in that order
    (util/signed_operation.go, HighestFeeFirst). */
module Priority {
  import opened Ledger

  // ------------------------------------------------------------- the comparator

  /** Strings are compared character by character; a prefix comes first. */
  predicate LexLess(a: string, b: string) {
    b != [] && (a == [] || a[0] < b[0] || (a[0] == b[0] && LexLess(a[1..], b[1..])))
  }

  /** Negative when `a` has priority: a higher fee, or the same fee and a lower signature. */
  function HighestFeeFirst(a: SignedOperation, b: SignedOperation): int {
    if a.op.fee > b.op.fee then -1
    else if a.op.fee < b.op.fee then 1
    else if LexLess(a.signature, b.signature) then -1
    else if LexLess(b.signature, a.signature) then 1
    else 0
  }

  lemma {:induction false} LexLessIsTrichotomous(a: string, b: string)
    ensures LexLess(a, b) ==> a != b && !LexLess(b, a)
    ensures a == b || LexLess(a, b) || LexLess(b, a)
    decreases |a|
  {
    if a != [] && b != [] {
      LexLessIsTrichotomous(a[1..], b[1..]);
      assert a[0] == b[0] && a[1..] == b[1..] ==> a == [a[0]] + a[1..] == b;
    }
  }

  lemma {:induction false} LexLessIsTransitive(a: string, b: string, c: string)
    requires LexLess(a, b) && LexLess(b, c)
    ensures LexLess(a, c)
    decreases |a|
  {
    if a != [] && a[0] == b[0] == c[0] {
      LexLessIsTransitive(a[1..], b[1..], c[1..]);
    }
  }

  /** `a` is a proper prefix of `b`, or is smaller where they first differ, after `i` characters. */
  predicate SmallerAt(a: string, b: string, i: nat) {
    && i <= |a| && i < |b| && a[..i] == b[..i]
    && (i == |a| || a[i] < b[i])
  }

  lemma {:induction false} LexLessIff(a: string, b: string)
    ensures LexLess(a, b) <==> exists i: nat :: SmallerAt(a, b, i)
    decreases |a|
  {
    if a == [] || b == [] || a[0] != b[0] {
      if LexLess(a, b) {
        assert SmallerAt(a, b, 0);
      }
    } else {
      LexLessIff(a[1..], b[1..]);
      if i: nat :| SmallerAt(a[1..], b[1..], i) {
        assert a[..i + 1] == [a[0]] + a[1..][..i] && b[..i + 1] == [b[0]] + b[1..][..i];
        assert SmallerAt(a, b, i + 1);
      }
      if i: nat :| SmallerAt(a, b, i) {
        assert a[1..][..i - 1] == a[..i][1..] && b[1..][..i - 1] == b[..i][1..];
        assert SmallerAt(a[1..], b[1..], i - 1);
      }
    }
  }

  /** A higher fee comes first, and among equal fees the signature that is smaller where the
      two first differ. */
  lemma ComesFirstIff(a: SignedOperation, b: SignedOperation)
    ensures HighestFeeFirst(a, b) < 0 <==>
            || a.op.fee > b.op.fee
            || (a.op.fee == b.op.fee && exists i: nat :: SmallerAt(a.signature, b.signature, i))
  {
    LexLessIff(a.signature, b.signature);
  }

  /** The comparator cannot tell the two apart. */
  predicate SameKey(a: SignedOperation, b: SignedOperation) {
    a.op.fee == b.op.fee && a.signature == b.signature
  }

  predicate Precedes(a: SignedOperation, b: SignedOperation) {
    HighestFeeFirst(a, b) < 0
  }

  /** The comparator is a total order on fee and signature. */
  lemma HighestFeeFirstIsTotalOrder(a: SignedOperation, b: SignedOperation, c: SignedOperation)
    ensures HighestFeeFirst(a, b) == -HighestFeeFirst(b, a)
    ensures HighestFeeFirst(a, b) == 0 <==> SameKey(a, b)
    ensures Precedes(a, b) && Precedes(b, c) ==> Precedes(a, c)
    ensures Precedes(a, b) && SameKey(b, c) ==> Precedes(a, c)
    ensures SameKey(a, b) && Precedes(b, c) ==> Precedes(a, c)
  {
    LexLessIsTrichotomous(a.signature, b.signature);
    if LexLess(a.signature, b.signature) && LexLess(b.signature, c.signature) {
      LexLessIsTransitive(a.signature, b.signature, c.signature);
    }
  }

  // --------------------------------------------------------------- sorted sets

  /** Strictly increasing: sorted and without repetition. */
  predicate Sorted(s: seq<SignedOperation>) {
    forall i, j :: 0 <= i < j < |s| ==> Precedes(s[i], s[j])
  }

  predicate Has(s: seq<SignedOperation>, op: SignedOperation) {
    exists i :: 0 <= i < |s| && SameKey(s[i], op)
  }

  /** Puts an operation in its place. One that the comparator cannot tell apart is replaced. */
  function Insert(s: seq<SignedOperation>, op: SignedOperation): seq<SignedOperation> {
    if s == [] then [op]
    else if HighestFeeFirst(s[0], op) < 0 then [s[0]] + Insert(s[1..], op)
    else if HighestFeeFirst(s[0], op) == 0 then [op] + s[1..]
    else [op] + s
  }

  function Delete(s: seq<SignedOperation>, op: SignedOperation): seq<SignedOperation> {
    if s == [] then []
    else if SameKey(s[0], op) then s[1..]
    else [s[0]] + Delete(s[1..], op)
  }

  /** Inserting adds the operation and loses at most the one it replaces. */
  lemma {:induction false} InsertHolds(s: seq<SignedOperation>, op: SignedOperation)
    ensures op in Insert(s, op)
    ensures forall x :: x in Insert(s, op) ==> x == op || x in s
    ensures forall x :: x in s && !SameKey(x, op) ==> x in Insert(s, op)
  {
    if s != [] {
      HighestFeeFirstIsTotalOrder(s[0], op, op);
      if HighestFeeFirst(s[0], op) < 0 {
        InsertHolds(s[1..], op);
      }
    }
  }

  lemma {:induction false} InsertGrows(s: seq<SignedOperation>, op: SignedOperation)
    requires Sorted(s)
    ensures |Insert(s, op)| == if Has(s, op) then |s| else |s| + 1
  {
    if s != [] {
      HighestFeeFirstIsTotalOrder(s[0], op, op);
      if HighestFeeFirst(s[0], op) < 0 {
        InsertGrows(s[1..], op);
        assert forall i :: 1 <= i < |s| ==> s[i] == s[1..][i - 1];
      } else if HighestFeeFirst(s[0], op) > 0 {
        forall i | 0 <= i < |s| ensures !SameKey(s[i], op) {
          HighestFeeFirstIsTotalOrder(op, s[0], s[i]);
          HighestFeeFirstIsTotalOrder(op, s[i], s[0]);
        }
      }
    }
  }

  lemma SortedAfterFirst(a: SignedOperation, s: seq<SignedOperation>)
    requires Sorted(s) && forall x :: x in s ==> Precedes(a, x)
    ensures Sorted([a] + s)
  {
    var t := [a] + s;
    forall i, j | 0 <= i < j < |t| ensures Precedes(t[i], t[j]) {
      assert t[j] == s[j - 1];
      if i > 0 {
        assert t[i] == s[i - 1];
      }
    }
  }

  lemma FirstPrecedesRest(s: seq<SignedOperation>)
    requires Sorted(s) && s != []
    ensures Sorted(s[1..]) && forall x :: x in s[1..] ==> Precedes(s[0], x)
  {
    forall x | x in s[1..] ensures Precedes(s[0], x) {
      var i :| 0 <= i < |s[1..]| && s[1..][i] == x;
      assert s[i + 1] == x;
    }
  }

  lemma {:induction false} InsertKeepsSorted(s: seq<SignedOperation>, op: SignedOperation)
    requires Sorted(s)
    ensures Sorted(Insert(s, op))
  {
    if s != [] {
      var first, rest := s[0], s[1..];
      FirstPrecedesRest(s);
      HighestFeeFirstIsTotalOrder(first, op, op);
      if HighestFeeFirst(first, op) < 0 {
        InsertKeepsSorted(rest, op);
        InsertHolds(rest, op);
        SortedAfterFirst(first, Insert(rest, op));
      } else {
        forall x | x in rest ensures Precedes(op, x) {
          HighestFeeFirstIsTotalOrder(op, first, x);
        }
        SortedAfterFirst(op, rest);
        if HighestFeeFirst(first, op) > 0 {
          assert forall x :: x in s ==> x == first || x in rest;
          SortedAfterFirst(op, s);
        }
      }
    }
  }

  /** Deleting takes out exactly what the comparator takes for the operation. */
  lemma {:induction false} DeleteHolds(s: seq<SignedOperation>, op: SignedOperation)
    requires Sorted(s)
    ensures Sorted(Delete(s, op))
    ensures forall x :: x in Delete(s, op) <==> x in s && !SameKey(x, op)
    ensures |Delete(s, op)| <= |s|
  {
    if s != [] {
      FirstPrecedesRest(s);
      if SameKey(s[0], op) {
        forall x | x in s[1..] ensures !SameKey(x, op) {
          HighestFeeFirstIsTotalOrder(s[0], x, x);
        }
      } else {
        DeleteHolds(s[1..], op);
        SortedAfterFirst(s[0], Delete(s[1..], op));
      }
    }
  }

  /** Deleting a member cuts the sequence at its place. */
  lemma {:induction false} DeleteAt(a: seq<SignedOperation>, op: SignedOperation, b: seq<SignedOperation>)
    requires Sorted(a + [op] + b)
    ensures Delete(a + [op] + b, op) == a + b
    decreases |a|
  {
    var s := a + [op] + b;
    if a == [] {
      assert s[1..] == b == a + b;
    } else {
      assert s[0] == a[0] && s[|a|] == op;
      HighestFeeFirstIsTotalOrder(a[0], op, op);
      assert s[1..] == a[1..] + [op] + b;
      DeleteAt(a[1..], op, b);
      assert a + b == [a[0]] + (a[1..] + b);
    }
  }

  lemma SameFirst(s: seq<SignedOperation>, t: seq<SignedOperation>)
    requires Sorted(s) && Sorted(t) && s != [] && t != [] && s[0] in t && t[0] in s
    ensures s[0] == t[0]
  {
    var i :| 0 <= i < |t| && t[i] == s[0];
    var j :| 0 <= j < |s| && s[j] == t[0];
    HighestFeeFirstIsTotalOrder(s[0], t[0], s[0]);
  }

  /** A sorted set is determined by its members. */
  lemma {:induction false} SortedIsUnique(s: seq<SignedOperation>, t: seq<SignedOperation>)
    requires Sorted(s) && Sorted(t) && forall x :: x in s <==> x in t
    ensures s == t
  {
    assert s == [] <==> t == [] by {
      assert s != [] ==> s[0] in t;
      assert t != [] ==> t[0] in s;
    }
    if s != [] {
      SameFirst(s, t);
      SameRest(s, t);
      SortedIsUnique(s[1..], t[1..]);
      assert s == [s[0]] + s[1..] && t == [t[0]] + t[1..];
    }
  }

  lemma SameRest(s: seq<SignedOperation>, t: seq<SignedOperation>)
    requires Sorted(s) && Sorted(t) && s != [] && t != [] && s[0] == t[0] && forall x :: x in s <==> x in t
    ensures forall x :: x in s[1..] <==> x in t[1..]
  {
    FirstPrecedesRest(s);
    FirstPrecedesRest(t);
    HighestFeeFirstIsTotalOrder(s[0], s[0], s[0]);
    assert forall x :: x in s <==> x == s[0] || x in s[1..];
    assert forall x :: x in t <==> x == t[0] || x in t[1..];
  }
}
