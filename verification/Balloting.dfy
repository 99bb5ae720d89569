/** One node's balloting as a state machine on values: the specification of the
    class in BallotNode.dfy (consensus/ballot_state.go). */
module Balloting {
  import opened Quorum
  import opened BallotMessages

  datatype State = State(
    us: Node,
    d: QuorumSlice,
    phase: Phase,
    b: Option<Ballot>,
    p: Option<Ballot>,
    pPrime: Option<Ballot>,
    cn: nat,
    hn: nat,
    z: Option<SlotValue>,
    m: map<Node, Message>,
    stale: map<Node, nat>)

  function Initial(us: Node, d: QuorumSlice): State {
    State(us, d, Prepare, None, None, None, 0, 0, None, map[], map[])
  }

  /** The slices this node knows: its own, and the one in each peer's latest message. */
  function Slices(s: State): map<Node, QuorumSlice> {
    (map k | k in s.m :: s.m[k].d)[s.us := s.d]
  }

  ghost predicate MeetsQuorumHere(s: State, nodes: set<Node>) {
    HasQuorum(Slices(s), s.us, nodes)
  }

  // --------------------------------------------------- accepting as prepared

  predicate OwnVoteToPrepare(s: State, n: nat, x: SlotValue) {
    GteCompat(s.b, Ballot(n, x))
  }

  function PreparedBy(s: State, n: nat, x: SlotValue): set<Node> {
    set k | k in s.m && AcceptsPrepared(s.m[k], n, x)
  }

  function PrepareVoters(s: State, n: nat, x: SlotValue): set<Node> {
    (if OwnVoteToPrepare(s, n, x) then {s.us} else {}) +
    (set k | k in s.m && (AcceptsPrepared(s.m[k], n, x) || VotesPrepare(s.m[k], n, x)))
  }

  /** The federated rule for accepting (n,x) as prepared: a quorum voted or
      accepted, or a blocking set accepted. */
  ghost predicate MayAcceptPrepared(s: State, n: nat, x: SlotValue) {
    MeetsQuorumHere(s, PrepareVoters(s, n, x)) || Blocks(s.d, PreparedBy(s, n, x))
  }

  /** Nothing new would be learned from accepting (n,x). */
  predicate PreparedIsOld(s: State, n: nat, x: SlotValue) {
    || GteCompat(s.p, Ballot(n, x))
    || GteCompat(s.pPrime, Ballot(n, x))
    || (s.pPrime.Some? && s.pPrime.value.n >= n)
  }

  function AcceptPrepared(s: State, ballot: Ballot): State {
    if s.p.None? || s.p.value.x == ballot.x then s.(p := Some(ballot))
    else if ballot.n >= s.p.value.n then s.(pPrime := s.p, p := Some(ballot))
    else s.(pPrime := Some(ballot))
  }

  predicate AcceptedAbort(s: State, n: nat, x: SlotValue) {
    if s.phase != Prepare then s.b.Some? && x != s.b.value.x
    else GteIncompat(s.p, Ballot(n, x)) || GteIncompat(s.pPrime, Ballot(n, x))
  }

  ghost function MaybeAcceptAsPrepared(s: State, n: nat, x: SlotValue): State {
    if s.phase != Prepare || n == 0 || PreparedIsOld(s, n, x) || !MayAcceptPrepared(s, n, x) then s
    else
      var s' := AcceptPrepared(s, Ballot(n, x));
      if s'.cn != 0 && s'.hn != 0 && s'.b.Some? && AcceptedAbort(s', s'.hn, s'.b.value.x)
      then s'.(cn := 0)
      else s'
  }

  // -------------------------------------------------- confirming as prepared

  function PrepareAccepters(s: State, n: nat, x: SlotValue): set<Node> {
    (if GteCompat(s.p, Ballot(n, x)) || GteCompat(s.pPrime, Ballot(n, x)) then {s.us} else {}) +
    PreparedBy(s, n, x)
  }

  ghost predicate MayConfirmPrepared(s: State, n: nat, x: SlotValue) {
    MeetsQuorumHere(s, PrepareAccepters(s, n, x))
  }

  function ConfirmPrepared(s: State, ballot: Ballot): State {
    if s.hn == ballot.n then s.(cn := 0, z := None)
    else
      var s' := s.(hn := ballot.n, z := Some(ballot.x), b := if s.b.None? then Some(ballot) else s.b);
      if s'.cn == 0 && ballot.x == s'.b.value.x
         && !GteIncompat(s'.p, ballot) && !GteIncompat(s'.pPrime, ballot)
         && s'.b.value.n <= ballot.n
      then s'.(cn := s'.b.value.n)
      else s'
  }

  ghost function MaybeConfirmAsPrepared(s: State, n: nat, x: SlotValue): State {
    if s.phase != Prepare || s.hn > n then s
    else if s.hn == n && (s.z.None? || s.z.value == x) then s
    else if !MayConfirmPrepared(s, n, x) then s
    else ConfirmPrepared(s, Ballot(n, x))
  }

  // ------------------------------------------------- accepting as committed

  predicate OwnVoteToCommit(s: State, n: nat, x: SlotValue) {
    s.phase == Prepare && s.b.Some? && s.b.value.x == x && s.cn != 0 && s.cn <= n <= s.hn
  }

  function CommittedBy(s: State, n: nat, x: SlotValue): set<Node> {
    set k | k in s.m && AcceptsCommitted(s.m[k], n, x)
  }

  function CommitVoters(s: State, n: nat, x: SlotValue): set<Node> {
    (if OwnVoteToCommit(s, n, x) then {s.us} else {}) +
    (set k | k in s.m && (AcceptsCommitted(s.m[k], n, x) || VotesCommit(s.m[k], n, x)))
  }

  ghost predicate MayAcceptCommitted(s: State, n: nat, x: SlotValue) {
    MeetsQuorumHere(s, CommitVoters(s, n, x)) || Blocks(s.d, CommittedBy(s, n, x))
  }

  function Widen(s: State, n: nat): State {
    s.(cn := if n < s.cn then n else s.cn, hn := if n > s.hn then n else s.hn)
  }

  function AcceptCommitted(s: State, n: nat, x: SlotValue): State {
    if s.b.None? || s.b.value.x != x
    then s.(phase := Confirm, b := Some(Ballot(n, x)), cn := n, hn := n, z := Some(x))
    else Widen(s.(phase := Confirm), n)
  }

  ghost function MaybeAcceptAsCommitted(s: State, n: nat, x: SlotValue): State {
    if s.phase == Externalize || (s.phase == Confirm && s.cn <= n <= s.hn) then s
    else if !MayAcceptCommitted(s, n, x) then s
    else AcceptCommitted(s, n, x)
  }

  // ------------------------------------------------ confirming as committed

  function CommitAccepters(s: State, n: nat, x: SlotValue): set<Node> {
    (if s.phase == Confirm && s.cn <= n <= s.hn then {s.us} else {}) + CommittedBy(s, n, x)
  }

  ghost predicate MayConfirmCommitted(s: State, n: nat, x: SlotValue) {
    MeetsQuorumHere(s, CommitAccepters(s, n, x))
  }

  ghost function MaybeConfirmAsCommitted(s: State, n: nat, x: SlotValue): State {
    if s.phase == Prepare || s.b.None? || s.b.value.x != x then s
    else if s.phase == Externalize && s.cn <= n <= s.hn then s
    else if !MayConfirmCommitted(s, n, x) then s
    else if s.phase == Confirm then s.(phase := Externalize, cn := n, hn := n)
    else Widen(s, n)
  }

  // ------------------------------------------------------ moving to a ballot

  /** The value of the next ballot: `z`, or else what nomination predicts. */
  function NextValue(s: State, prediction: Option<SlotValue>): Option<SlotValue> {
    if s.z.Some? then s.z else prediction
  }

  function NextBallotNumber(s: State): nat {
    if s.b.None? then 1 else s.b.value.n + 1
  }

  function GoToNextBallot(s: State, prediction: Option<SlotValue>): State {
    var x := NextValue(s, prediction);
    if x.None? then s
    else
      var s' := s.(b := Some(Ballot(NextBallotNumber(s), x.value)));
      if s'.cn == 0 && s'.hn >= s'.b.value.n && !AcceptedAbort(s', s'.hn, x.value)
      then s'.(cn := s'.b.value.n)
      else s'
  }

  /** The peers that could never vote for our ballot. */
  function Blockers(s: State): set<Node>
    requires s.b.Some?
  {
    set k | k in s.m && !CouldEverVoteFor(s.m[k], s.b.value.n, s.b.value.x)
  }

  ghost predicate BallotIsBlocked(s: State) {
    s.b.Some? && Blocks(s.d, Blockers(s))
  }

  ghost predicate WillBump(s: State, prediction: Option<SlotValue>) {
    BallotIsBlocked(s) && NextValue(s, prediction).Some?
  }

  // ---------------------------------------------------------------- staleness

  function Behind(s: State): set<Node>
    requires s.b.Some?
  {
    set k | k in s.m && BallotNumber(s.m[k]) < s.b.value.n
  }

  /** The peers that have repeated themselves at least three times, and us. */
  function StaleNodes(s: State): set<Node> {
    {s.us} + set k | k in s.stale && s.stale[k] >= 3
  }

  ghost predicate StaleQuorum(s: State) {
    MeetsQuorumHere(s, StaleNodes(s))
  }

  ghost function HandleStaleQuorum(s: State, prediction: Option<SlotValue>): State {
    if s.b.None? || Blocks(s.d, Behind(s)) then s else GoToNextBallot(s, prediction)
  }

  /** A repeated message from `from` counts towards giving up on this ballot. */
  ghost function CountStale(s: State, from: Node, prediction: Option<SlotValue>): State {
    var s' := s.(stale := s.stale[from := (if from in s.stale then s.stale[from] else 0) + 1]);
    if StaleQuorum(s') then HandleStaleQuorum(s'.(stale := map[]), prediction) else s'
  }

  /** Remembers the latest message of a peer. */
  function Store(s: State, from: Node, message: Message): State {
    s.(m := s.m[from := message], stale := s.stale[from := 0])
  }

  // ------------------------------------------------------------ single events

  /** The indivisible events of balloting at one node. */
  datatype Event =
    | TryAcceptPrepared(n: nat, x: SlotValue)
    | TryConfirmPrepared(n: nat, x: SlotValue)
    | TryAcceptCommitted(n: nat, x: SlotValue)
    | TryConfirmCommitted(n: nat, x: SlotValue)
    | NextBallot(prediction: Option<SlotValue>)
    | Receive(from: Node, message: Message)
    | Repeat(from: Node, prediction: Option<SlotValue>)

  /** Ballots are investigated from number 1 up, and nobody hears from themselves. */
  predicate Sensible(us: Node, e: Event) {
    match e
    case TryAcceptPrepared(n, _) => n >= 1
    case TryConfirmPrepared(n, _) => n >= 1
    case TryAcceptCommitted(n, _) => n >= 1
    case TryConfirmCommitted(n, _) => n >= 1
    case NextBallot(_) => true
    case Receive(from, _) => from != us
    case Repeat(from, _) => from != us
  }

  ghost function Step(s: State, e: Event): State {
    match e
    case TryAcceptPrepared(n, x) => MaybeAcceptAsPrepared(s, n, x)
    case TryConfirmPrepared(n, x) => MaybeConfirmAsPrepared(s, n, x)
    case TryAcceptCommitted(n, x) => MaybeAcceptAsCommitted(s, n, x)
    case TryConfirmCommitted(n, x) => MaybeConfirmAsCommitted(s, n, x)
    case NextBallot(prediction) => GoToNextBallot(s, prediction)
    case Receive(from, message) => Store(s, from, message)
    case Repeat(from, prediction) => CountStale(s, from, prediction)
  }

  /** This event makes the node try its next ballot. */
  ghost predicate GivesUp(s: State, e: Event) {
    || e.NextBallot?
    || (e.Repeat? && s.b.Some? && !Blocks(s.d, Behind(s)) &&
        StaleQuorum(s.(stale := s.stale[e.from := (if e.from in s.stale then s.stale[e.from] else 0) + 1])))
  }

  /** Outside the Prepare phase this event would move to a ballot of another value. */
  ghost predicate StrayBump(s: State, e: Event) {
    && s.phase != Prepare && s.b.Some?
    && GivesUp(s, e)
    && NextValue(s, e.prediction).Some?
    && NextValue(s, e.prediction).value != s.b.value.x
  }

  // ----------------------------------------------------------------- messages

  function NumberOf(b: Option<Ballot>): nat {
    if b.Some? then b.value.n else 0
  }

  function ValueOf(b: Option<Ballot>): SlotValue {
    if b.Some? then b.value.x else ""
  }

  /** The message that advertises this state. */
  function Advertise(s: State, slot: nat): Message
    requires s.b.Some?
  {
    match s.phase
    case Prepare =>
      PrepareMessage(slot, s.b.value.n, s.b.value.x, NumberOf(s.p), ValueOf(s.p),
                     NumberOf(s.pPrime), ValueOf(s.pPrime), s.cn, s.hn, s.d)
    case Confirm =>
      ConfirmMessage(slot, s.b.value.x, NumberOf(s.p), s.cn, s.hn, s.d)
    case Externalize =>
      ExternalizeMessage(slot, s.b.value.x, s.cn, s.hn, s.d)
  }
}
