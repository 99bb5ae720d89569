/** Which ballots a node re-examines when a message arrives, and the loop that
    does so until nothing blocks the current ballot. */
module Investigation {
  import opened Quorum
  import opened Ranges
  import opened BallotMessages
  import opened Balloting

  // ------------------------------------------------------ the range to examine

  /** `r` is the least range covering what each message says about `x`. */
  ghost predicate Spans(m: map<Node, Message>, x: SlotValue, r: Range) {
    && r.Valid()
    && (forall k :: k in m ==> Covers(r, RelevantRange(m[k], x)))
    && (!r.Null() ==> exists k :: k in m && !RelevantRange(m[k], x).Null() && RelevantRange(m[k], x).min == r.min)
    && (!r.Null() ==> exists k :: k in m && !RelevantRange(m[k], x).Null() && RelevantRange(m[k], x).max == r.max)
  }

  lemma SpanIsUnique(m: map<Node, Message>, x: SlotValue, r1: Range, r2: Range)
    requires Spans(m, x, r1) && Spans(m, x, r2)
    ensures r1 == r2
  {
  }

  lemma SpanGrows(m: map<Node, Message>, x: SlotValue, r: Range, k: Node, msg: Message)
    requires k !in m && Spans(m, x, r)
    ensures Spans(m[k := msg], x, RangeUnion(r, RelevantRange(msg, x)))
  {
    var m', r' := m[k := msg], RangeUnion(r, RelevantRange(msg, x));
    forall j | j in m'
      ensures Covers(r', RelevantRange(m'[j], x))
    {
      assert j != k ==> Covers(r, RelevantRange(m[j], x));
    }
    assert m'[k] == msg;
    if !r.Null() {
      var i :| i in m && !RelevantRange(m[i], x).Null() && RelevantRange(m[i], x).min == r.min;
      var j :| j in m && !RelevantRange(m[j], x).Null() && RelevantRange(m[j], x).max == r.max;
      assert m'[i] == m[i] && m'[j] == m[j];
    }
  }

  /** The range of ballots of value `x` that some peer talks about. */
  ghost function Span(m: map<Node, Message>, x: SlotValue): (r: Range)
    ensures Spans(m, x, r)
  {
    if m == map[] then NullRange
    else
      var k :| k in m;
      SpanGrows(m - {k}, x, Span(m - {k}, x), k, m[k]);
      assert (m - {k})[k := m[k]] == m;
      RangeUnion(Span(m - {k}, x), RelevantRange(m[k], x))
  }

  // ------------------------------------------------- the actionable numbers

  /** The peers that talk about ballot number `n` or higher. */
  function TalkingAbout(m: map<Node, Message>, n: nat): set<Node> {
    set k | k in m && MaxN(m[k]) >= n
  }

  ghost predicate Actionable(d: QuorumSlice, m: map<Node, Message>, n: nat) {
    Blocks(d, TalkingAbout(m, n))
  }

  /** `n` is the largest actionable number, or 0 when there is none. */
  ghost predicate IsMaxActionable(d: QuorumSlice, m: map<Node, Message>, n: nat) {
    && (n > 0 ==> Actionable(d, m, n))
    && (forall k :: k > n ==> !Actionable(d, m, k))
  }

  lemma MaxActionableIsUnique(d: QuorumSlice, m: map<Node, Message>, n1: nat, n2: nat)
    requires IsMaxActionable(d, m, n1) && IsMaxActionable(d, m, n2)
    ensures n1 == n2
  {
  }

  ghost function MaxActionable(d: QuorumSlice, m: map<Node, Message>): (n: nat)
    ensures IsMaxActionable(d, m, n)
  {
    var bound := HighestMaxN(m);
    NobodyIsNotActionable(d, m, bound);
    MaxActionableUpTo(d, m, bound)
  }

  lemma NobodyIsNotActionable(d: QuorumSlice, m: map<Node, Message>, bound: nat)
    requires forall k :: k in m ==> MaxN(m[k]) <= bound
    ensures forall k :: k > bound ==> !Actionable(d, m, k)
  {
    forall k | k > bound
      ensures !Actionable(d, m, k)
    {
      assert TalkingAbout(m, k) == {};
      NobodyHits(d.members);
    }
  }

  ghost function HighestMaxN(m: map<Node, Message>): (n: nat)
    ensures forall k :: k in m ==> MaxN(m[k]) <= n
  {
    if m == map[] then 0
    else
      var k :| k in m;
      var rest := HighestMaxN(m - {k});
      assert forall j :: j in m && j != k ==> m[j] == (m - {k})[j];
      if MaxN(m[k]) > rest then MaxN(m[k]) else rest
  }

  ghost function MaxActionableUpTo(d: QuorumSlice, m: map<Node, Message>, bound: nat): (n: nat)
    requires forall k :: k > bound ==> !Actionable(d, m, k)
    ensures IsMaxActionable(d, m, n)
  {
    if bound == 0 || Actionable(d, m, bound) then bound else MaxActionableUpTo(d, m, bound - 1)
  }

  predicate IsTop(numbers: set<nat>, n: nat) {
    n in numbers && forall k :: k in numbers ==> k <= n
  }

  lemma {:induction false} HasTop(numbers: set<nat>)
    requires numbers != {}
    ensures exists n :: IsTop(numbers, n)
  {
    var n :| n in numbers;
    var rest := numbers - {n};
    assert forall k :: k in numbers ==> k == n || k in rest;
    if rest == {} {
      assert IsTop(numbers, n);
    } else {
      HasTop(rest);
      var top :| IsTop(rest, top);
      assert IsTop(numbers, if top > n then top else n);
    }
  }

  /** Once a set of peers does not block us, no number talked about only by some of
      them is actionable. */
  lemma FewerPeersAreNotActionable(d: QuorumSlice, m: map<Node, Message>, nodes: set<Node>, n: nat)
    requires !Blocks(d, nodes) && forall k :: k in m && MaxN(m[k]) > n ==> k in nodes
    ensures forall k :: k > n ==> !Actionable(d, m, k)
  {
    forall k | k > n
      ensures !Actionable(d, m, k)
    {
      assert TalkingAbout(m, k) <= nodes;
      HitsMonotone(d.members, TalkingAbout(m, k), nodes);
    }
  }

  /** Peers that do not block us cannot stretch the range we examine: it stays within
      what somebody else talks about. */
  lemma MinorityCannotStretchRange(d: QuorumSlice, m: map<Node, Message>, minority: set<Node>)
    requires !Blocks(d, minority)
    ensures MaxActionable(d, m) == 0 || exists k :: k in m && k !in minority && MaxN(m[k]) >= MaxActionable(d, m)
  {
    var n := MaxActionable(d, m);
    if n > 0 && forall k :: k in m && MaxN(m[k]) >= n ==> k in minority {
      assert TalkingAbout(m, n) <= minority;
      HitsMonotone(d.members, TalkingAbout(m, n), minority);
    }
  }

  // ------------------------------------------------------------ investigating

  ghost function InvestigateBallot(s: State, n: nat, x: SlotValue): State {
    if n < 1 then s
    else
      var s1 := MaybeAcceptAsPrepared(s, n, x);
      var s2 := MaybeConfirmAsPrepared(s1, n, x);
      var s3 := MaybeAcceptAsCommitted(s2, n, x);
      MaybeConfirmAsCommitted(s3, n, x)
  }

  ghost function InvestigateBallots(s: State, lo: nat, hi: nat, x: SlotValue): State
    decreases hi + 1 - lo
  {
    if lo > hi then s else InvestigateBallots(InvestigateBallot(s, lo, x), lo + 1, hi, x)
  }

  function Min(a: nat, b: nat): nat {
    if a < b then a else b
  }

  ghost function InvestigateValue(s: State, x: SlotValue): State {
    var r := Span(s.m, x);
    var hi := Min(r.max, MaxActionable(s.d, s.m));
    var s' := InvestigateBallots(s, r.min, hi, x);
    var next := if r.min <= hi then hi + 1 else r.min;
    if s'.b.Some? && next <= s'.b.value.n then InvestigateBallot(s', s'.b.value.n, x) else s'
  }

  ghost function InvestigateValues(s: State, values: seq<SlotValue>, done: set<SlotValue>): State
    decreases |values|
  {
    if values == [] then s
    else if values[0] in done then InvestigateValues(s, values[1..], done)
    else InvestigateValues(InvestigateValue(s, values[0]), values[1..], done + {values[0]})
  }

  /** The values a message speaks about, in the order they are investigated. */
  function Topics(message: Message): seq<SlotValue> {
    match message
    case PrepareMessage(_, _, bx, _, px, _, ppx, _, _, _) => [bx, px, ppx]
    case ConfirmMessage(_, x, _, _, _, _) => [x]
    case ExternalizeMessage(_, x, _, _, _) => [x]
  }

  ghost function Round(s: State, message: Message): State {
    InvestigateValues(s, Topics(message), {})
  }

  datatype Outcome = Outcome(s: State, settled: bool)

  /** At most `fuel` rounds of investigating and moving past a blocked ballot. */
  ghost function Settle(s: State, message: Message, prediction: Option<SlotValue>, fuel: nat): Outcome
    decreases fuel
  {
    if fuel == 0 then Outcome(s, false)
    else
      var s' := Round(s, message);
      if !WillBump(s', prediction) then Outcome(s', true)
      else Settle(GoToNextBallot(s', prediction), message, prediction, fuel - 1)
  }

  predicate IsOld(s: State, from: Node, message: Message) {
    from in s.m && Compare(s.m[from], message) >= 0
  }

  ghost function Handle(s: State, from: Node, message: Message, prediction: Option<SlotValue>, fuel: nat): Outcome {
    if IsOld(s, from, message) then Outcome(CountStale(s, from, prediction), true)
    else Settle(Store(s, from, message), message, prediction, fuel)
  }

  // ------------------------------------------------- handling is made of events

  /** The state after a list of events. */
  ghost function Play(s: State, events: seq<Event>): State
    decreases |events|
  {
    if events == [] then s else Play(Step(s, events[0]), events[1..])
  }

  ghost predicate AllSensible(us: Node, events: seq<Event>) {
    forall i :: 0 <= i < |events| ==> Sensible(us, events[i])
  }

  /** Only the first event may receive a message. */
  ghost predicate Silent(events: seq<Event>) {
    forall i :: 0 <= i < |events| ==> !events[i].Receive?
  }

  lemma {:induction false} PlayConcat(s: State, a: seq<Event>, b: seq<Event>)
    ensures Play(s, a + b) == Play(Play(s, a), b)
    decreases |a|
  {
    hide Step;
    if a == [] {
      assert a + b == b;
    } else {
      PlayConcat(Step(s, a[0]), a[1..], b);
      assert (a + b)[1..] == a[1..] + b;
    }
  }

  lemma PlayCons(s: State, e: Event, rest: seq<Event>)
    ensures Play(s, [e] + rest) == Play(Step(s, e), rest)
  {
    assert ([e] + rest)[1..] == rest;
  }

  /** No event makes the node try its next ballot. */
  ghost predicate Calm(events: seq<Event>) {
    forall i :: 0 <= i < |events| ==> !events[i].NextBallot? && !events[i].Repeat?
  }

  /** `events` is a run from `s` to `s'` without messages. */
  ghost predicate Leads(s: State, events: seq<Event>, s': State, us: Node) {
    Play(s, events) == s' && AllSensible(us, events) && Silent(events)
  }

  lemma LeadsFurther(s: State, a: seq<Event>, s': State, b: seq<Event>, s'': State, us: Node)
    requires Leads(s, a, s', us) && Leads(s', b, s'', us)
    ensures Leads(s, a + b, s'', us)
    ensures Calm(a) && Calm(b) ==> Calm(a + b)
  {
    PlayConcat(s, a, b);
  }

  lemma LeadsByOne(s: State, e: Event, us: Node)
    requires Sensible(us, e) && !e.Receive?
    ensures Leads(s, [e], Step(s, e), us)
  {
    PlayCons(s, e, []);
    assert [e] + [] == [e];
  }

  lemma InvestigateBallotIsPlay(s: State, n: nat, x: SlotValue, us: Node) returns (events: seq<Event>)
    ensures Leads(s, events, InvestigateBallot(s, n, x), us) && Calm(events)
  {
    events := [];
    if n >= 1 {
      var s1 := Step(s, TryAcceptPrepared(n, x));
      var s2 := Step(s1, TryConfirmPrepared(n, x));
      var s3 := Step(s2, TryAcceptCommitted(n, x));
      LeadsByOne(s, TryAcceptPrepared(n, x), us);
      LeadsByOne(s1, TryConfirmPrepared(n, x), us);
      LeadsByOne(s2, TryAcceptCommitted(n, x), us);
      LeadsByOne(s3, TryConfirmCommitted(n, x), us);
      events := [TryAcceptPrepared(n, x)];
      LeadsFurther(s, events, s1, [TryConfirmPrepared(n, x)], s2, us);
      events := events + [TryConfirmPrepared(n, x)];
      LeadsFurther(s, events, s2, [TryAcceptCommitted(n, x)], s3, us);
      events := events + [TryAcceptCommitted(n, x)];
      LeadsFurther(s, events, s3, [TryConfirmCommitted(n, x)], Step(s3, TryConfirmCommitted(n, x)), us);
      events := events + [TryConfirmCommitted(n, x)];
    }
  }

  lemma {:induction false} InvestigateBallotsIsPlay(s: State, lo: nat, hi: nat, x: SlotValue, us: Node)
    returns (events: seq<Event>)
    ensures Leads(s, events, InvestigateBallots(s, lo, hi, x), us) && Calm(events)
    decreases hi + 1 - lo
  {
    hide InvestigateBallot;
    events := [];
    if lo <= hi {
      var s' := InvestigateBallot(s, lo, x);
      var first := InvestigateBallotIsPlay(s, lo, x, us);
      var rest := InvestigateBallotsIsPlay(s', lo + 1, hi, x, us);
      LeadsFurther(s, first, s', rest, InvestigateBallots(s, lo, hi, x), us);
      events := first + rest;
    }
  }

  lemma InvestigateValueIsPlay(s: State, x: SlotValue, us: Node) returns (events: seq<Event>)
    ensures Leads(s, events, InvestigateValue(s, x), us) && Calm(events)
  {
    hide InvestigateBallot, InvestigateBallots;
    var r := Span(s.m, x);
    var hi := Min(r.max, MaxActionable(s.d, s.m));
    events := InvestigateBallotsIsPlay(s, r.min, hi, x, us);
    var s' := InvestigateBallots(s, r.min, hi, x);
    if InvestigateValue(s, x) != s' {
      var rest := InvestigateBallotIsPlay(s', s'.b.value.n, x, us);
      LeadsFurther(s, events, s', rest, InvestigateValue(s, x), us);
      events := events + rest;
    }
  }

  lemma {:induction false} InvestigateValuesIsPlay(s: State, values: seq<SlotValue>, done: set<SlotValue>, us: Node)
    returns (events: seq<Event>)
    ensures Leads(s, events, InvestigateValues(s, values, done), us) && Calm(events)
    decreases |values|
  {
    hide InvestigateValue;
    events := [];
    if values != [] {
      if values[0] in done {
        events := InvestigateValuesIsPlay(s, values[1..], done, us);
      } else {
        var s' := InvestigateValue(s, values[0]);
        var first := InvestigateValueIsPlay(s, values[0], us);
        var rest := InvestigateValuesIsPlay(s', values[1..], done + {values[0]}, us);
        LeadsFurther(s, first, s', rest, InvestigateValues(s, values, done), us);
        events := first + rest;
      }
    }
  }

  lemma {:induction false} SettleIsPlay(s: State, message: Message, prediction: Option<SlotValue>, fuel: nat, us: Node)
    returns (events: seq<Event>)
    ensures Leads(s, events, Settle(s, message, prediction, fuel).s, us)
    ensures fuel == 1 && Settle(s, message, prediction, fuel).settled ==> Calm(events)
    decreases fuel
  {
    hide InvestigateValues, GoToNextBallot;
    events := [];
    if fuel > 0 {
      var s' := Round(s, message);
      events := InvestigateValuesIsPlay(s, Topics(message), {}, us);
      if WillBump(s', prediction) {
        var s'' := GoToNextBallot(s', prediction);
        LeadsByOne(s', NextBallot(prediction), us);
        LeadsFurther(s, events, s', [NextBallot(prediction)], s'', us);
        events := events + [NextBallot(prediction)];
        var rest := SettleIsPlay(s'', message, prediction, fuel - 1, us);
        LeadsFurther(s, events, s'', rest, Settle(s, message, prediction, fuel).s, us);
        events := events + rest;
      }
    }
  }

  /** Handling a message is a run of single events. It receives just that message,
      and only at its start. */
  lemma HandleIsPlay(s: State, from: Node, message: Message, prediction: Option<SlotValue>, fuel: nat)
    returns (events: seq<Event>)
    requires from != s.us
    ensures Play(s, events) == Handle(s, from, message, prediction, fuel).s
    ensures AllSensible(s.us, events) && |events| >= 1 && Silent(events[1..])
    ensures events[0] == if IsOld(s, from, message) then Repeat(from, prediction) else Receive(from, message)
    ensures !IsOld(s, from, message) && fuel == 1 && Handle(s, from, message, prediction, fuel).settled ==> Calm(events)
  {
    hide Settle, CountStale;
    if IsOld(s, from, message) {
      events := [Repeat(from, prediction)];
      LeadsByOne(s, Repeat(from, prediction), s.us);
    } else {
      var received := Receive(from, message);
      var rest := SettleIsPlay(Store(s, from, message), message, prediction, fuel, s.us);
      events := [received] + rest;
      assert events[1..] == rest;
      PlayCons(s, received, rest);
    }
  }
}
