/** Quorum slices of the form "any `threshold` out of `members`", and the
    search for a quorum inside a list of nodes (consensus/quorum.go). */
module Quorum {

  type Node = string

  datatype QuorumSlice = QuorumSlice(members: seq<Node>, threshold: int)

  /** The nodes that occur in a list. */
  function Elems(nodes: seq<Node>): set<Node> {
    set n | n in nodes
  }

  /** How many entries of `members` are in `nodes`. */
  ghost function Hits(members: seq<Node>, nodes: set<Node>): nat {
    if members == [] then 0
    else Hits(members[..|members| - 1], nodes) + (if members[|members| - 1] in nodes then 1 else 0)
  }

  /** What `atLeast` decides. At least one hit is needed even when `t` is not
      positive, because the count is compared only after a hit. */
  ghost predicate Reaches(qs: QuorumSlice, nodes: set<Node>, t: int) {
    Hits(qs.members, nodes) >= 1 && Hits(qs.members, nodes) >= t
  }

  ghost predicate Blocks(qs: QuorumSlice, nodes: set<Node>) {
    Reaches(qs, nodes, |qs.members| - qs.threshold + 1)
  }

  ghost predicate Satisfies(qs: QuorumSlice, nodes: set<Node>) {
    Reaches(qs, nodes, qs.threshold)
  }

  method AtLeast(qs: QuorumSlice, nodes: seq<Node>, t: int) returns (r: bool)
    ensures r == Reaches(qs, Elems(nodes), t)
  {
    var members := qs.members;
    var count := 0;
    assert members[..|members|] == members;
    for i := 0 to |members|
      invariant count == Hits(members[..i], Elems(nodes))
      invariant count > 0 ==> count < t
    {
      assert members[..i + 1][..i] == members[..i];
      for j := 0 to |nodes|
        invariant members[i] !in nodes[..j]
        invariant count == Hits(members[..i], Elems(nodes))
        invariant count > 0 ==> count < t
      {
        if nodes[j] == members[i] {
          count := count + 1;
          if count >= t {
            HitsPrefix(members, i + 1, Elems(nodes));
            return true;
          }
          break;
        }
      }
    }
    return false;
  }

  method BlockedBy(qs: QuorumSlice, nodes: seq<Node>) returns (r: bool)
    ensures r == Blocks(qs, Elems(nodes))
  {
    r := AtLeast(qs, nodes, |qs.members| - qs.threshold + 1);
  }

  method SatisfiedWith(qs: QuorumSlice, nodes: seq<Node>) returns (r: bool)
    ensures r == Satisfies(qs, Elems(nodes))
  {
    r := AtLeast(qs, nodes, qs.threshold);
  }

  // ---------------------------------------------------------------- counting

  lemma {:induction false} HitsPrefix(members: seq<Node>, i: nat, nodes: set<Node>)
    requires i <= |members|
    ensures Hits(members[..i], nodes) <= Hits(members, nodes)
  {
    if i == |members| {
      assert members[..i] == members;
    } else {
      var front := members[..|members| - 1];
      HitsPrefix(front, i, nodes);
      assert front[..i] == members[..i];
    }
  }

  lemma {:induction false} HitsMonotone(members: seq<Node>, a: set<Node>, b: set<Node>)
    requires a <= b
    ensures Hits(members, a) <= Hits(members, b)
  {
    if members != [] {
      HitsMonotone(members[..|members| - 1], a, b);
    }
  }

  lemma {:induction false} NobodyHits(members: seq<Node>)
    ensures Hits(members, {}) == 0
  {
    if members != [] {
      NobodyHits(members[..|members| - 1]);
    }
  }

  ghost predicate Unique(members: seq<Node>) {
    forall i, j :: 0 <= i < j < |members| ==> members[i] != members[j]
  }

  lemma ElemsSplit(members: seq<Node>)
    requires members != []
    ensures Elems(members) == Elems(members[..|members| - 1]) + {members[|members| - 1]}
    ensures Unique(members) ==> Unique(members[..|members| - 1])
    ensures Unique(members) ==> members[|members| - 1] !in Elems(members[..|members| - 1])
  {
    assert members == members[..|members| - 1] + [members[|members| - 1]];
  }

  lemma AddedMember(front: set<Node>, last: Node, nodes: set<Node>)
    requires last !in front
    ensures |front + {last}| == |front| + 1
    ensures |(front + {last}) * nodes| == |front * nodes| + (if last in nodes then 1 else 0)
  {
    if last in nodes {
      assert (front + {last}) * nodes == front * nodes + {last};
    } else {
      assert (front + {last}) * nodes == front * nodes;
    }
  }

  /** With unique members, counting hits is the size of an intersection. */
  lemma {:induction false} HitsIsCardinality(members: seq<Node>, nodes: set<Node>)
    requires Unique(members)
    ensures Hits(members, nodes) == |Elems(members) * nodes|
    ensures |Elems(members)| == |members|
  {
    if members != [] {
      var front, last := members[..|members| - 1], members[|members| - 1];
      ElemsSplit(members);
      HitsIsCardinality(front, nodes);
      AddedMember(Elems(front), last, nodes);
    }
  }

  /** Inclusion and exclusion inside a universe. */
  lemma SharedSize(u: set<Node>, a: set<Node>, b: set<Node>)
    requires a <= u && b <= u
    ensures |a * b| >= |a| + |b| - |u|
  {
    assert |a + b| == |a| + |b| - |a * b|;
    SubsetSize(a + b, u);
  }

  lemma SubsetSize<T>(a: set<T>, b: set<T>)
    requires a <= b
    ensures |a| <= |b|
  {
    assert b == a + (b - a);
  }

  // ---------------------------------------------------------------- quorums

  /** A quorum around `us`: every member's known slice is satisfied inside it. */
  ghost predicate IsQuorum(slices: map<Node, QuorumSlice>, us: Node, s: set<Node>) {
    us in s && forall n :: n in s ==> n in slices && Satisfies(slices[n], s)
  }

  /** Some subset of `nodes` is a quorum around `us`. */
  ghost predicate HasQuorum(slices: map<Node, QuorumSlice>, us: Node, nodes: set<Node>) {
    exists s :: s <= nodes && IsQuorum(slices, us, s)
  }

  /** The members of `nodes` whose slice is met by `nodes`: one round of filtering. */
  ghost predicate Survives(slices: map<Node, QuorumSlice>, nodes: set<Node>, n: Node) {
    n in nodes && n in slices && Satisfies(slices[n], nodes)
  }

  /** Filtering never removes a member of a quorum, so it keeps every quorum. */
  lemma FilterKeepsQuorums(slices: map<Node, QuorumSlice>, us: Node, nodes: set<Node>, kept: set<Node>)
    requires forall n :: n in kept <==> Survives(slices, nodes, n)
    ensures HasQuorum(slices, us, nodes) <==> HasQuorum(slices, us, kept)
    ensures HasQuorum(slices, us, nodes) ==> us in kept
  {
    if HasQuorum(slices, us, nodes) {
      var s :| s <= nodes && IsQuorum(slices, us, s);
      forall n | n in s
        ensures n in kept
      {
        HitsMonotone(slices[n].members, s, nodes);
        assert Survives(slices, nodes, n);
      }
      assert s <= kept;
    }
    if HasQuorum(slices, us, kept) {
      var s :| s <= kept && IsQuorum(slices, us, s);
      assert forall n :: n in s ==> Survives(slices, nodes, n);
      assert s <= nodes;
    }
  }

  /** The recursion of `MeetsQuorum` finds a quorum exactly when there is one. */
  method MeetsQuorum(slices: map<Node, QuorumSlice>, us: Node, nodes: seq<Node>) returns (r: bool)
    ensures r == HasQuorum(slices, us, Elems(nodes))
    decreases |nodes|
  {
    var hasUs := false;
    var filtered := [];
    for i := 0 to |nodes|
      invariant |filtered| <= i
      invariant forall n :: n in filtered ==> Survives(slices, Elems(nodes), n)
      invariant forall k :: 0 <= k < i && Survives(slices, Elems(nodes), nodes[k]) ==> nodes[k] in filtered
      invariant |filtered| == i ==> forall k :: 0 <= k < i ==> Survives(slices, Elems(nodes), nodes[k])
      invariant hasUs == (us in filtered)
    {
      var node := nodes[i];
      if node in slices {
        var ok := SatisfiedWith(slices[node], nodes);
        if ok {
          filtered := filtered + [node];
          if node == us {
            hasUs := true;
          }
        }
      }
    }
    FilterKeepsQuorums(slices, us, Elems(nodes), Elems(filtered));
    if !hasUs {
      return false;
    }
    if |filtered| == |nodes| {
      assert IsQuorum(slices, us, Elems(nodes));
      return true;
    }
    r := MeetsQuorum(slices, us, filtered);
  }

  // ------------------------------------------------- duality and intersection

  ghost predicate WellFormed(qs: QuorumSlice) {
    Unique(qs.members) && 1 <= qs.threshold <= |qs.members|
  }

  /** A set blocks a slice exactly when it meets every set that satisfies it. */
  lemma BlockingIsDualToSatisfying(qs: QuorumSlice, blockers: set<Node>)
    requires WellFormed(qs)
    ensures Blocks(qs, blockers) <==> forall s :: Satisfies(qs, s) ==> s * blockers != {}
  {
    var m := Elems(qs.members);
    HitsIsCardinality(qs.members, blockers);
    if Blocks(qs, blockers) {
      forall s | Satisfies(qs, s)
        ensures s * blockers != {}
      {
        HitsIsCardinality(qs.members, s);
        SharedSize(m, m * s, m * blockers);
        assert (m * s) * (m * blockers) != {};
        var shared :| shared in (m * s) * (m * blockers);
        assert shared in s * blockers;
      }
    } else {
      var s := m - blockers;
      HitsIsCardinality(qs.members, s);
      assert m * s == s;
      assert m == s + m * blockers;
      assert |m| == |s| + |m * blockers|;
      assert s * blockers == {};
      assert Satisfies(qs, s);
    }
  }

  /** Two quorums over one shared slice have at least 2t-n members in common. */
  lemma QuorumsIntersect(qs: QuorumSlice, a: set<Node>, b: set<Node>)
    requires WellFormed(qs) && Satisfies(qs, a) && Satisfies(qs, b)
    ensures |Elems(qs.members) * (a * b)| >= 2 * qs.threshold - |qs.members|
  {
    var m := Elems(qs.members);
    HitsIsCardinality(qs.members, a);
    HitsIsCardinality(qs.members, b);
    SharedSize(m, m * a, m * b);
    assert (m * a) * (m * b) == m * (a * b);
  }

  /** The threshold chosen for a cluster of `size` nodes. */
  function DefaultThreshold(size: nat): int {
    2 * size / 3 + 1
  }

  /** How many faults a cluster of `size` nodes is meant to tolerate. */
  function FaultBound(size: nat): int
    requires size > 0
  {
    (size - 1) / 3
  }

  /** With the default threshold, any two quorums share a node outside any set of
      `FaultBound` faulty ones, and so does every blocking set. */
  lemma DefaultThresholdToleratesFaults(qs: QuorumSlice, a: set<Node>, b: set<Node>, blockers: set<Node>,
                                        faulty: set<Node>)
    requires |qs.members| > 0 && Unique(qs.members) && qs.threshold == DefaultThreshold(|qs.members|)
    requires |faulty| <= FaultBound(|qs.members|)
    requires Satisfies(qs, a) && Satisfies(qs, b) && Blocks(qs, blockers)
    ensures exists n :: n in a && n in b && n in qs.members && n !in faulty
    ensures exists n :: n in blockers && n in qs.members && n !in faulty
  {
    var m := Elems(qs.members);
    QuorumsIntersect(qs, a, b);
    HitsIsCardinality(qs.members, blockers);
    var shared := m * (a * b);
    NotAllInside(shared, faulty);
    var n :| n in shared && n !in faulty;
    assert n in a && n in b && n in qs.members && n !in faulty;
    NotAllInside(m * blockers, faulty);
    var k :| k in m * blockers && k !in faulty;
    assert k in blockers && k in qs.members && k !in faulty;
  }

  lemma NotAllInside<T>(a: set<T>, b: set<T>)
    requires |a| > |b|
    ensures exists n :: n in a && n !in b
  {
    if forall n :: n in a ==> n in b {
      SubsetSize(a, b);
    }
  }

  /** Fewer faulty members than it takes to block the shared slice. */
  ghost predicate FaultsDoNotBlock(qs: QuorumSlice, correct: set<Node>) {
    && WellFormed(qs)
    && correct <= Elems(qs.members)
    && |qs.members| - qs.threshold + 1 > |Elems(qs.members) - correct|
  }

  /** A blocking set then holds a correct node. */
  lemma BlockingHasCorrect(qs: QuorumSlice, correct: set<Node>, b: set<Node>)
    requires FaultsDoNotBlock(qs, correct) && Blocks(qs, b)
    ensures exists v :: v in b && v in correct
  {
    var m := Elems(qs.members);
    HitsIsCardinality(qs.members, b);
    NotAllInside(m * b, m - correct);
    var v :| v in m * b && v !in m - correct;
  }
}
