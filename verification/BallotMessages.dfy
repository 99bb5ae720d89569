/** The three balloting messages and what each one proves about its sender
    (consensus/ballot_message.go). */
module BallotMessages {
  import opened Quorum
  import opened Ranges

  type SlotValue = string

  datatype Option<+T> = None | Some(value: T)

  datatype Phase = Prepare | Confirm | Externalize

  datatype Ballot = Ballot(n: nat, x: SlotValue)

  datatype Message =
    | PrepareMessage(i: nat, bn: nat, bx: SlotValue, pn: nat, px: SlotValue,
                     ppn: nat, ppx: SlotValue, cn: nat, hn: nat, d: QuorumSlice)
    | ConfirmMessage(i: nat, x: SlotValue, pn: nat, cn: nat, hn: nat, d: QuorumSlice)
    | ExternalizeMessage(i: nat, x: SlotValue, cn: nat, hn: nat, d: QuorumSlice)

  /** Accepting `a` as prepared implies accepting `b` as prepared. */
  predicate GteCompat(a: Option<Ballot>, b: Ballot) {
    a.Some? && a.value.n >= b.n && a.value.x == b.x
  }

  /** Accepting `a` as prepared implies accepting that `b` is aborted. */
  predicate GteIncompat(a: Option<Ballot>, b: Ballot) {
    a.Some? && a.value.n >= b.n && a.value.x != b.x
  }

  function PhaseOf(m: Message): Phase {
    match m
    case PrepareMessage(_, _, _, _, _, _, _, _, _, _) => Prepare
    case ConfirmMessage(_, _, _, _, _, _) => Confirm
    case ExternalizeMessage(_, _, _, _, _) => Externalize
  }

  predicate AcceptsPrepared(m: Message, n: nat, x: SlotValue) {
    match m
    case PrepareMessage(_, _, _, pn, px, ppn, ppx, _, _, _) =>
      if px == x then pn >= n
      else if ppx == x then ppn >= n
      else false
    case ConfirmMessage(_, mx, _, _, _, _) => mx == x
    case ExternalizeMessage(_, mx, _, _, _) => mx == x
  }

  predicate VotesPrepare(m: Message, n: nat, x: SlotValue) {
    m.PrepareMessage? && x == m.bx && m.bn >= n
  }

  predicate AcceptsCommitted(m: Message, n: nat, x: SlotValue) {
    match m
    case PrepareMessage(_, _, _, _, _, _, _, _, _, _) => false
    case ConfirmMessage(_, mx, _, cn, hn, _) => mx == x && cn <= n <= hn
    case ExternalizeMessage(_, mx, cn, _, _) => mx == x && cn <= n
  }

  predicate VotesCommit(m: Message, n: nat, x: SlotValue) {
    match m
    case PrepareMessage(_, _, bx, _, _, _, _, cn, hn, _) =>
      if cn == 0 || hn == 0 || bx != x then false else cn <= n <= hn
    case ConfirmMessage(_, mx, _, _, _, _) => mx == x
    case ExternalizeMessage(_, _, _, _, _) => false
  }

  predicate CouldEverVoteFor(m: Message, n: nat, x: SlotValue) {
    match m
    case PrepareMessage(_, bn, bx, _, _, _, _, _, _, _) =>
      if bn > n then false else if bn == n && bx != x then false else true
    case ConfirmMessage(_, mx, _, _, _, _) => x == mx
    case ExternalizeMessage(_, mx, _, _, _) => x == mx
  }

  function BallotNumber(m: Message): nat {
    match m
    case PrepareMessage(_, bn, _, _, _, _, _, _, _, _) => bn
    case ConfirmMessage(_, _, _, _, hn, _) => hn
    case ExternalizeMessage(_, _, _, hn, _) => hn
  }

  /** The highest ballot number a message says anything about. */
  function MaxN(m: Message): nat {
    match m
    case PrepareMessage(_, bn, _, pn, _, ppn, _, cn, hn, _) => MaxOf([bn, cn, hn, pn, ppn])
    case ConfirmMessage(_, _, pn, cn, hn, _) => MaxOf([pn, cn, hn])
    case ExternalizeMessage(_, _, _, hn, _) => hn
  }

  /** The ballots of value `x` that a message gives information about. */
  function RelevantRange(m: Message, x: SlotValue): (r: Range)
    ensures r.Valid()
  {
    match m
    case PrepareMessage(_, bn, bx, pn, px, ppn, ppx, cn, hn, _) =>
      var r := if x == bx then Hull([bn, cn, hn]) else NullRange;
      var r' := if x == px then RangeUnion(r, Range(pn, pn)) else r;
      if x == ppx then RangeUnion(r', Range(ppn, ppn)) else r'
    case ConfirmMessage(_, mx, pn, cn, hn, _) =>
      if x == mx then Hull([pn, cn, hn]) else NullRange
    case ExternalizeMessage(_, mx, cn, hn, _) =>
      if x == mx then Hull([cn, hn]) else NullRange
  }

  function PhaseRank(p: Phase): nat {
    match p
    case Prepare => 1
    case Confirm => 2
    case Externalize => 3
  }

  /** The sign of `a - b`. */
  function Sign(a: nat, b: nat): int {
    if a < b then -1 else if a > b then 1 else 0
  }

  /** Orders two messages of one sender by phase, then by the numbers of that phase. */
  function Compare(m1: Message, m2: Message): int {
    if PhaseRank(PhaseOf(m1)) < PhaseRank(PhaseOf(m2)) then -1
    else if PhaseRank(PhaseOf(m1)) > PhaseRank(PhaseOf(m2)) then 1
    else
      match m1
      case PrepareMessage(_, bn, _, pn, _, ppn, _, _, hn, _) =>
        if bn != m2.bn then Sign(bn, m2.bn)
        else if pn != m2.pn then Sign(pn, m2.pn)
        else if ppn != m2.ppn then Sign(ppn, m2.ppn)
        else Sign(hn, m2.hn)
      case ConfirmMessage(_, _, pn, _, hn, _) =>
        if pn != m2.pn then Sign(pn, m2.pn)
        else Sign(hn, m2.hn)
      case ExternalizeMessage(_, _, _, hn, _) => Sign(hn, m2.hn)
  }

  /** `Compare` is a total preorder: what it calls older can be chained. */
  lemma CompareIsTotalPreorder(m1: Message, m2: Message, m3: Message)
    ensures Compare(m1, m1) == 0
    ensures Compare(m1, m2) == -Compare(m2, m1)
    ensures Compare(m1, m2) <= 0 && Compare(m2, m3) <= 0 ==> Compare(m1, m3) <= 0
    ensures Compare(m1, m2) < 0 && Compare(m2, m3) <= 0 ==> Compare(m1, m3) < 0
    ensures Compare(m1, m2) <= 0 && Compare(m2, m3) < 0 ==> Compare(m1, m3) < 0
  {
  }
}
