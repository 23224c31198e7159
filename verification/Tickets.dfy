// The ticket protocol that lets many consumers dequeue from one producer, one atomic access per step, under
// sequential consistency and with unbounded indices.
module Tickets {

  /** Where a consumer stands in dequeue. */
  datatype Pc =
    | Idle
    | LoadCommit(tail: int)                  // tail loaded
    | LoadCount(tail: int, over: int)        // overcommit loaded
    | Draw(over: int)                        // looks non-empty: take a ticket
    | Check(over: int, ticket: int)          // load the tail again and compare
    | Passed(ticket: int)                    // advance the head
    | Failed(ticket: int)                    // advance the overcommit
    | Has(index: int)                        // the index this consumer may read

  /** Auxiliary: what became of a ticket. No step depends on it. */
  datatype Fate = Open | Pass | Fail

  /** `fates` and `given` are auxiliary: the fate of every ticket drawn, and the indices handed out, in order. */
  datatype State = State(tail: int, head: int, count: int, over: int, pcs: map<nat, Pc>, fates: seq<Fate>, given: seq<int>)

  datatype Step = Enqueue | Consume(t: nat)

  function Move(s: State, step: Step): State
    requires step.Consume? ==> step.t in s.pcs
    requires step.Consume? && (s.pcs[step.t].Check?) ==> 0 <= s.pcs[step.t].ticket < |s.fates|
  {
    if step.Enqueue? then s.(tail := s.tail + 1)
    else
      var t := step.t;
      match s.pcs[t]
      case Idle => s.(pcs := s.pcs[t := LoadCommit(s.tail)])
      case LoadCommit(tail) => s.(pcs := s.pcs[t := LoadCount(tail, s.over)])
      case LoadCount(tail, over) => s.(pcs := s.pcs[t := if s.count - over < tail then Draw(over) else Idle])
      case Draw(over) =>
        s.(count := s.count + 1, fates := s.fates + [Open], pcs := s.pcs[t := Check(over, s.count)])
      case Check(over, ticket) =>
        if ticket - over < s.tail
        then s.(fates := s.fates[ticket := Pass], pcs := s.pcs[t := Passed(ticket)])
        else s.(fates := s.fates[ticket := Fail], pcs := s.pcs[t := Failed(ticket)])
      case Passed(_) => s.(head := s.head + 1, given := s.given + [s.head], pcs := s.pcs[t := Has(s.head)])
      case Failed(_) => s.(over := s.over + 1, pcs := s.pcs[t := Idle])
      case Has(_) => s.(pcs := s.pcs[t := Idle])
  }

  // ----- counting tickets -----

  function Count(fates: seq<Fate>, f: Fate): (r: nat)
    ensures r <= |fates|
  {
    if fates == [] then 0
    else Count(fates[..|fates|-1], f) + if fates[|fates|-1] == f then 1 else 0
  }

  /** Deciding one open ticket moves one unit from open to its fate, in every prefix that contains it. */
  lemma {:induction false} CountDecided(fates: seq<Fate>, i: nat, g: Fate, f: Fate)
    requires i < |fates|
    ensures Count(fates[i := g], f)
         == Count(fates, f) - (if fates[i] == f then 1 else 0) + (if g == f then 1 else 0)
  {
    var n := |fates| - 1;
    if i < n {
      CountDecided(fates[..n], i, g, f);
      assert fates[i := g][..n] == fates[..n][i := g];
    } else {
      assert fates[i := g][..n] == fates[..n];
    }
  }

  lemma {:induction false} CountAll(fates: seq<Fate>)
    ensures Count(fates, Open) + Count(fates, Pass) + Count(fates, Fail) == |fates|
  {
    if fates != [] { CountAll(fates[..|fates|-1]); }
  }

  // ----- the invariant -----

  /** The consumer holds a ticket of this fate and has not acted on it yet. */
  ghost predicate Carries(pc: Pc, f: Fate) {
    match f
    case Open => pc.Check?
    case Pass => pc.Passed?
    case Fail => pc.Failed?
  }

  ghost function InFlight(s: State, f: Fate): set<nat> {
    set t | t in s.pcs && Carries(s.pcs[t], f)
  }

  /** What the consumers that acted on their tickets of this fate made of them. */
  ghost function Settled(s: State, f: Fate): int {
    match f
    case Open => 0
    case Pass => s.head
    case Fail => s.over
  }

  ghost predicate Balanced(s: State, f: Fate) {
    Count(s.fates, f) == Settled(s, f) + |InFlight(s, f)|
  }

  /** No ticket below a passed one that failed is missing from the overcommit its holder subtracted. */
  ghost predicate PassOk(s: State, k: int)
    requires 0 <= k < |s.fates|
  {
    s.fates[k] == Pass ==> k - Count(s.fates[..k], Fail) < s.tail
  }

  ghost predicate PcOk(s: State, t: nat)
    requires t in s.pcs
  {
    match s.pcs[t]
    case LoadCount(_, over) => 0 <= over <= Count(s.fates, Fail)
    case Draw(over) => 0 <= over <= Count(s.fates, Fail)
    case Check(over, k) => 0 <= k < |s.fates| && s.fates[k] == Open && 0 <= over <= Count(s.fates[..k], Fail)
    case Has(i) => 0 <= i < s.head
    case _ => true
  }

  ghost predicate TicketsDiffer(s: State) {
    forall t, u | t in s.pcs && u in s.pcs && s.pcs[t].Check? && s.pcs[u].Check? && t != u ::
      s.pcs[t].ticket != s.pcs[u].ticket
  }

  ghost predicate IndicesDiffer(s: State) {
    forall t, u | t in s.pcs && u in s.pcs && s.pcs[t].Has? && s.pcs[u].Has? && t != u ::
      s.pcs[t].index != s.pcs[u].index
  }

  ghost predicate Inv(s: State) {
    && s.count == |s.fates| && 0 <= s.over && 0 <= s.head
    && Balanced(s, Open) && Balanced(s, Pass) && Balanced(s, Fail)
    && (forall k {:trigger PassOk(s, k)} | 0 <= k < |s.fates| :: PassOk(s, k))
    && (forall t {:trigger PcOk(s, t)} | t in s.pcs :: PcOk(s, t))
    && TicketsDiffer(s) && IndicesDiffer(s)
    && |s.given| == s.head && (forall i | 0 <= i < |s.given| :: s.given[i] == i)
  }

  // ----- the heart of the argument -----

  /**
   * The passed tickets never outnumber the enqueued elements: take the last one that passed. Everything that
   * failed below it was accounted for in its check, so the passes up to it number at most the tail it saw.
   */
  lemma PassesBounded(s: State)
    requires forall k {:trigger PassOk(s, k)} | 0 <= k < |s.fates| :: PassOk(s, k)
    requires 0 <= s.tail
    ensures Count(s.fates, Pass) <= s.tail
  {
    PassesBelow(s, |s.fates|);
    assert s.fates[..|s.fates|] == s.fates;
  }

  lemma {:induction false} PassesBelow(s: State, n: nat)
    requires n <= |s.fates| && 0 <= s.tail
    requires forall k {:trigger PassOk(s, k)} | 0 <= k < |s.fates| :: PassOk(s, k)
    ensures Count(s.fates[..n], Pass) <= s.tail
  {
    if n == 0 {
    } else {
      var k := n - 1;
      assert s.fates[..n][..k] == s.fates[..k];
      if s.fates[k] == Pass {
        assert PassOk(s, k);
        CountAll(s.fates[..k]);
      } else {
        PassesBelow(s, k);
      }
    }
  }

  // ----- every step keeps the invariant -----

  lemma InFlightAfter(s: State, s': State, t: nat, f: Fate)
    requires t in s.pcs && t in s'.pcs && s'.pcs == s.pcs[t := s'.pcs[t]]
    ensures |InFlight(s', f)| == |InFlight(s, f)| - (if Carries(s.pcs[t], f) then 1 else 0)
                                                  + (if Carries(s'.pcs[t], f) then 1 else 0)
  {
    var before, after := InFlight(s, f), InFlight(s', f);
    assert t in before <==> Carries(s.pcs[t], f);
    if Carries(s'.pcs[t], f) {
      assert after == before + {t};
    } else {
      assert after == before - {t};
    }
  }

  /** A step that leaves the tickets alone. */
  lemma PlainKeeps(s: State, t: nat)
    requires Inv(s) && 0 <= s.tail && t in s.pcs && !s.pcs[t].Draw? && !s.pcs[t].Check?
    ensures Inv(Move(s, Consume(t)))
  {
    var s' := Move(s, Consume(t));
    assert PcOk(s, t) && s.over <= Count(s.fates, Fail);
    BalancePlain(s, t, Open);
    BalancePlain(s, t, Pass);
    BalancePlain(s, t, Fail);
    PlainOthers(s, s', t);
    PlainIndices(s, t);
  }

  lemma BalancePlain(s: State, t: nat, f: Fate)
    requires Balanced(s, f) && t in s.pcs && !s.pcs[t].Draw? && !s.pcs[t].Check?
    ensures Balanced(Move(s, Consume(t)), f)
  {
    InFlightAfter(s, Move(s, Consume(t)), t, f);
  }

  lemma PlainIndices(s: State, t: nat)
    requires Inv(s) && t in s.pcs && !s.pcs[t].Draw? && !s.pcs[t].Check?
    ensures IndicesDiffer(Move(s, Consume(t)))
  {
    forall u | u in s.pcs && s.pcs[u].Has? ensures s.pcs[u].index < s.head {
      assert PcOk(s, u);
    }
  }

  lemma PlainOthers(s: State, s': State, t: nat)
    requires Inv(s) && t in s.pcs && t in s'.pcs && s'.pcs == s.pcs[t := s'.pcs[t]]
    requires s'.fates == s.fates && s'.tail >= s.tail && s'.head >= s.head
    requires PcOk(s', t) && (s.pcs[t].Check? || !s'.pcs[t].Check?)
    ensures forall k | 0 <= k < |s'.fates| :: PassOk(s', k)
    ensures forall u | u in s'.pcs :: PcOk(s', u)
  {
    forall k | 0 <= k < |s'.fates| ensures PassOk(s', k) {
      assert PassOk(s, k);
    }
    forall u | u in s'.pcs ensures PcOk(s', u) {
      assert PcOk(s, u);
    }
  }

  lemma BalanceDrawn(s: State, t: nat, f: Fate)
    requires Balanced(s, f) && t in s.pcs && s.pcs[t].Draw?
    ensures Balanced(Move(s, Consume(t)), f)
  {
    var s' := Move(s, Consume(t));
    assert s'.fates[..|s.fates|] == s.fates;
    InFlightAfter(s, s', t, f);
  }

  lemma DrawKeeps(s: State, t: nat)
    requires Inv(s) && 0 <= s.tail && t in s.pcs && s.pcs[t].Draw?
    ensures Inv(Move(s, Consume(t)))
  {
    var s' := Move(s, Consume(t));
    assert s'.fates[..|s.fates|] == s.fates;
    BalanceDrawn(s, t, Open);
    BalanceDrawn(s, t, Pass);
    BalanceDrawn(s, t, Fail);
    forall u | u in s.pcs && s.pcs[u].Check? ensures s.pcs[u].ticket != |s.fates| {
      assert PcOk(s, u);
    }
    forall k | 0 <= k < |s'.fates| ensures PassOk(s', k) {
      if k < |s.fates| {
        assert PassOk(s, k) && s'.fates[..k] == s.fates[..k];
      }
    }
    forall u | u in s'.pcs ensures PcOk(s', u) {
      assert PcOk(s, u);
      if u != t && s.pcs[u].Check? {
        assert s'.fates[..s.pcs[u].ticket] == s.fates[..s.pcs[u].ticket];
      }
    }
  }

  /** Failures in a prefix are never lost when a ticket is decided. */
  lemma FailuresKept(fates: seq<Fate>, i: nat, g: Fate, k: nat)
    requires i < |fates| && fates[i] == Open && k <= |fates|
    ensures Count(fates[..k], Fail) <= Count(fates[i := g][..k], Fail)
  {
    if i < k {
      CountDecided(fates[..k], i, g, Fail);
      assert fates[i := g][..k] == fates[..k][i := g];
    } else {
      assert fates[i := g][..k] == fates[..k];
    }
  }

  lemma DecidePasses(s: State, s': State, i: nat, k: nat)
    requires i < |s.fates| && s.fates[i] == Open && k < |s.fates| && PassOk(s, k) && s'.tail == s.tail
    requires |s'.fates| == |s.fates| && s'.fates == s.fates[i := s'.fates[i]]
    requires s'.fates[i] == Pass ==> i - Count(s.fates[..i], Fail) < s.tail
    ensures PassOk(s', k)
  {
    FailuresKept(s.fates, i, s'.fates[i], k);
  }

  lemma BalanceDecided(s: State, s': State, t: nat, f: Fate)
    requires Balanced(s, f) && t in s.pcs && s.pcs[t].Check? && 0 <= s.pcs[t].ticket < |s.fates|
    requires s.fates[s.pcs[t].ticket] == Open && s' == Move(s, Consume(t))
    ensures Balanced(s', f)
  {
    InFlightAfter(s, s', t, f);
    CountDecided(s.fates, s.pcs[t].ticket, s'.fates[s.pcs[t].ticket], f);
  }

  lemma DecideThreads(s: State, s': State, t: nat, u: nat)
    requires Inv(s) && t in s.pcs && s.pcs[t].Check? && PcOk(s, t) && s' == Move(s, Consume(t)) && u in s.pcs
    ensures PcOk(s', u)
  {
    assert PcOk(s, u);
    var i := s.pcs[t].ticket;
    var g := s'.fates[i];
    FailuresKept(s.fates, i, g, |s.fates|);
    assert s.fates[..|s.fates|] == s.fates && s'.fates[..|s.fates|] == s'.fates;
    if u != t && s.pcs[u].Check? {
      FailuresKept(s.fates, i, g, s.pcs[u].ticket);
    }
  }

  lemma CheckKeeps(s: State, t: nat)
    requires Inv(s) && 0 <= s.tail && t in s.pcs && s.pcs[t].Check?
    ensures PcOk(s, t) && Inv(Move(s, Consume(t)))
  {
    assert PcOk(s, t);
    var s', i := Move(s, Consume(t)), s.pcs[t].ticket;
    BalanceDecided(s, s', t, Open);
    BalanceDecided(s, s', t, Pass);
    BalanceDecided(s, s', t, Fail);
    forall k | 0 <= k < |s'.fates| ensures PassOk(s', k) {
      assert PassOk(s, k);
      DecidePasses(s, s', i, k);
    }
    forall u | u in s'.pcs ensures PcOk(s', u) {
      DecideThreads(s, s', t, u);
    }
  }

  lemma EnqueueKeeps(s: State)
    requires Inv(s) && 0 <= s.tail
    ensures Inv(Move(s, Enqueue))
  {
    var s' := Move(s, Enqueue);
    forall f | Balanced(s, f) ensures Balanced(s', f) {
      assert InFlight(s', f) == InFlight(s, f);
    }
    forall k | 0 <= k < |s'.fates| ensures PassOk(s', k) {
      assert PassOk(s, k);
    }
    forall u | u in s'.pcs ensures PcOk(s', u) {
      assert PcOk(s, u);
    }
  }

  // ----- whole runs -----

  ghost predicate Init(s: State) {
    s.tail == s.head == s.count == s.over == 0 && s.fates == [] && s.given == [] && forall t | t in s.pcs :: s.pcs[t].Idle?
  }

  /** `s'` follows `s`. Where a step is not defined, anything may follow; that this never happens is proved. */
  ghost predicate Next(s: State, step: Step, s': State) {
    && (step.Consume? ==> step.t in s.pcs)
    && ((step.Consume? && s.pcs[step.t].Check? ==> 0 <= s.pcs[step.t].ticket < |s.fates|) ==> s' == Move(s, step))
  }

  ghost predicate IsRun(run: seq<State>, steps: seq<Step>) {
    run != [] && |steps| == |run| - 1 && Init(run[0]) && forall i | 0 <= i < |steps| :: Next(run[i], steps[i], run[i+1])
  }

  /** Every step of every consumer and of the producer is defined and keeps the invariant. */
  lemma StepKeeps(s: State, step: Step)
    requires Inv(s) && 0 <= s.tail && (step.Consume? ==> step.t in s.pcs)
    ensures step.Consume? && s.pcs[step.t].Check? ==> 0 <= s.pcs[step.t].ticket < |s.fates|
    ensures Inv(Move(s, step)) && s.tail <= Move(s, step).tail
  {
    match step
    case Enqueue => EnqueueKeeps(s);
    case Consume(t) =>
      if s.pcs[t].Draw? {
        DrawKeeps(s, t);
      } else if s.pcs[t].Check? {
        CheckKeeps(s, t);
      } else {
        PlainKeeps(s, t);
      }
  }

  lemma {:induction false} RunInv(run: seq<State>, steps: seq<Step>, i: nat)
    requires IsRun(run, steps) && i < |run|
    ensures Inv(run[i]) && 0 <= run[i].tail
  {
    if i == 0 {
      InitInv(run[0]);
    } else {
      RunInv(run, steps, i - 1);
      assert Next(run[i-1], steps[i-1], run[i]);
      StepKeeps(run[i-1], steps[i-1]);
    }
  }

  lemma InitInv(s: State)
    requires Init(s)
    ensures Inv(s)
  {
    assert InFlight(s, Open) == {} && InFlight(s, Pass) == {} && InFlight(s, Fail) == {};
  }

  /** A consumer that passed the check finds an element enqueued and not drawn yet. */
  lemma PassedIsBehind(s: State, t: nat)
    requires Inv(s) && 0 <= s.tail && t in s.pcs && s.pcs[t].Passed?
    ensures s.head < s.tail
  {
    PassesBounded(s);
    assert t in InFlight(s, Pass);
  }

  /**
   * In every state of every run, the consumers that passed the check, whether or not they advanced the head
   * yet, do not outnumber the enqueued elements; so the head never passes the tail.
   */
  lemma HeadNeverPassesTail(run: seq<State>, steps: seq<Step>, i: nat)
    requires IsRun(run, steps) && i < |run|
    ensures run[i].head + |InFlight(run[i], Pass)| <= run[i].tail
  {
    RunInv(run, steps, i);
    PassesBounded(run[i]);
  }

  /** A consumer about to advance the head gets an index that is enqueued already. */
  lemma PassedGetsElement(run: seq<State>, steps: seq<Step>, i: nat, t: nat)
    requires IsRun(run, steps) && i < |run| && t in run[i].pcs && run[i].pcs[t].Passed?
    ensures Move(run[i], Consume(t)).pcs[t] == Has(run[i].head) && run[i].head < run[i].tail
  {
    RunInv(run, steps, i);
    PassedIsBehind(run[i], t);
  }

  /** Indices are handed out once each, in order, without gaps; no two consumers have the same one. */
  lemma EachIndexOnce(run: seq<State>, steps: seq<Step>, i: nat)
    requires IsRun(run, steps) && i < |run|
    ensures |run[i].given| == run[i].head && forall k | 0 <= k < |run[i].given| :: run[i].given[k] == k
    ensures forall t, u | t in run[i].pcs && u in run[i].pcs && run[i].pcs[t].Has? && run[i].pcs[u].Has? && t != u ::
              run[i].pcs[t].index != run[i].pcs[u].index
  {
    RunInv(run, steps, i);
  }

  /** The counters differ from the head by the dequeues in flight; with none in flight they give it exactly. */
  lemma CountersAgree(run: seq<State>, steps: seq<Step>, i: nat)
    requires IsRun(run, steps) && i < |run|
    ensures var s := run[i]; s.count - s.over == s.head + |InFlight(s, Open)| + |InFlight(s, Pass)| + |InFlight(s, Fail)|
    ensures (forall t | t in run[i].pcs :: !run[i].pcs[t].Check? && !run[i].pcs[t].Passed? && !run[i].pcs[t].Failed?)
            ==> run[i].count - run[i].over == run[i].head
  {
    var s := run[i];
    RunInv(run, steps, i);
    CountAll(s.fates);
    if forall t | t in s.pcs :: !s.pcs[t].Check? && !s.pcs[t].Passed? && !s.pcs[t].Failed? {
      assert InFlight(s, Open) == {} && InFlight(s, Pass) == {} && InFlight(s, Fail) == {};
    }
  }

  /** What the source's comment says it cannot assert: the overcommit a consumer read is at most its ticket. */
  lemma OvercommitBelowTicket(run: seq<State>, steps: seq<Step>, i: nat, t: nat)
    requires IsRun(run, steps) && i < |run| && t in run[i].pcs && run[i].pcs[t].Check?
    ensures 0 <= run[i].pcs[t].over <= run[i].pcs[t].ticket < run[i].count
  {
    RunInv(run, steps, i);
    assert PcOk(run[i], t);
  }

  /** With no element enqueued beyond the head and no dequeue in flight, a dequeue finds the queue empty. */
  lemma EmptyIsSeen(run: seq<State>, steps: seq<Step>, i: nat, t: nat)
    requires IsRun(run, steps) && i < |run| && t in run[i].pcs && run[i].pcs[t].Idle?
    requires forall u | u in run[i].pcs :: run[i].pcs[u].Idle? || run[i].pcs[u].Has?
    ensures var s1 := Move(run[i], Consume(t));
            var s2 := Move(s1, Consume(t));
            Move(s2, Consume(t)).pcs[t].Draw? <==> run[i].head < run[i].tail
  {
    CountersAgree(run, steps, i);
  }
}
