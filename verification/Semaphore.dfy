// The blocking queue: its lightweight semaphore, one atomic access per step, wrapped around the inner queue.
module Semaphore {

  /** What tryWaitMany does when it got nothing: return, or go on to block. */
  datatype After = Return | Block(timed: bool)

  /** Where a thread stands. `max` is how many permits it still wants, `got` how many it already has. */
  datatype Pc =
    | Out(result: nat)
    | Announce(n: nat)                                     // enqueued n elements, not signalled yet
    | Post(left: nat)                                      // signal: kernel posts still to make
    | Try(max: nat, got: nat, after: After)                // tryWaitMany: load the count
    | TrySwap(seen: int, max: nat, got: nat, after: After)  // compare and swap it
    | Spin(left: nat, max: nat, timed: bool)               // the spinning loop, then fetch_sub
    | SpinSwap(seen: int, left: nat, max: nat, timed: bool)
    | Sleep(max: nat, timed: bool)                         // in the kernel
    | Late(max: nat)                                       // timed out: load the count
    | LateTake(max: nat)                                   // the count says a release is due: try the kernel
    | LateBack(seen: int, max: nat)                         // give the place in the line back
    | Take(left: nat, result: nat)                         // holds permits: take elements from the inner queue

  /** Auxiliary: what the thread's current or last call asked for, and whether it may come back with nothing. */
  datatype Ask = Ask(max: nat, must: bool)

  /**
   * `count` is m_count, `kernel` the kernel semaphore's value, `stored` the number of elements in the inner
   * queue. `permits`, `acquired` and `asks` are auxiliary: all permits ever given, all permits ever acquired.
   */
  datatype State = State(count: int, kernel: nat, stored: int, pcs: seq<Pc>, permits: int, acquired: int, asks: seq<Ask>)

  datatype Call = Enqueue(n: nat) | TryDequeue(max: nat) | WaitDequeue(max: nat, timed: bool)

  /** A thread's move; `call` is what an idle thread starts, `lucky` a weak swap or a kernel wait that succeeds. */
  datatype Step = Step(t: nat, call: Call, lucky: bool)

  function Min(a: int, b: int): int { if a < b then a else b }

  /** The call is over with `got` permits: take as many elements. */
  function Acquired(got: nat): Pc {
    if got == 0 then Out(0) else Take(got, got)
  }

  /** One permit is there; waitMany greedily tries for more. */
  function First(max: nat): Pc {
    if max > 1 then Try(max - 1, 1, Return) else Acquired(1)
  }

  function Tried(max: nat, got: nat, after: After): Pc {
    if got == 0 && after.Block? && max > 0 then Spin(10000, max, after.timed) else Acquired(got)
  }

  /** How many permits a swap of the count takes: all of them, but no more than `max`. */
  function Grab(seen: int, max: nat): nat {
    if seen > max then max else if seen > 0 then seen else 0
  }

  /** A sleeper moves only when the kernel lets it or, if timed, when its time is up. */
  ghost predicate Enabled(s: State, step: Step) {
    && step.t < |s.pcs| && |s.asks| == |s.pcs|
    && (s.pcs[step.t].Sleep? ==> if step.lucky then s.kernel > 0 else s.pcs[step.t].timed)
  }

  function Move(s: State, step: Step): State
    requires Enabled(s, step)
  {
    var t := step.t;
    match s.pcs[t]
    case Out(_) =>
      (match step.call
       case Enqueue(n) => s.(stored := s.stored + n, pcs := s.pcs[t := Announce(n)])
       case TryDequeue(max) => s.(pcs := s.pcs[t := Try(max, 0, Return)], asks := s.asks[t := Ask(max, false)])
       case WaitDequeue(max, timed) =>
         s.(pcs := s.pcs[t := Try(max, 0, Block(timed))], asks := s.asks[t := Ask(max, !timed)]))
    case Announce(n) =>
      var release := Min(-s.count, n);
      s.(count := s.count + n, permits := s.permits + n, pcs := s.pcs[t := if release > 0 then Post(release) else Out(0)])
    case Post(left) =>
      s.(kernel := s.kernel + 1, pcs := s.pcs[t := if left > 1 then Post(left - 1) else Out(0)])
    case Try(max, got, after) =>
      s.(pcs := s.pcs[t := if s.count > 0 then TrySwap(s.count, max, got, after) else Tried(max, got, after)])
    case TrySwap(seen, max, got, after) =>
      if s.count == seen && step.lucky then
        var n := Grab(seen, max);
        s.(count := seen - n, acquired := s.acquired + n, pcs := s.pcs[t := Tried(max, got + n, after)])
      else s.(pcs := s.pcs[t := if s.count > 0 then TrySwap(s.count, max, got, after) else Tried(max, got, after)])
    case Spin(left, max, timed) =>
      if left > 0 then
        s.(pcs := s.pcs[t := if s.count > 0 then SpinSwap(s.count, left - 1, max, timed) else Spin(left - 1, max, timed)])
      else if s.count > 0 then
        s.(count := s.count - 1, acquired := s.acquired + 1, pcs := s.pcs[t := First(max)])
      else s.(count := s.count - 1, pcs := s.pcs[t := Sleep(max, timed)])
    case SpinSwap(seen, left, max, timed) =>
      if s.count == seen then
        var n := Grab(seen, max);
        s.(count := seen - n, acquired := s.acquired + n, pcs := s.pcs[t := Acquired(n)])
      else s.(pcs := s.pcs[t := Spin(left, max, timed)])
    case Sleep(max, _) =>
      if step.lucky then Woken(s, t, max) else s.(pcs := s.pcs[t := Late(max)])
    case Late(max) => s.(pcs := s.pcs[t := if s.count >= 0 then LateTake(max) else LateBack(s.count, max)])
    case LateTake(max) => if s.kernel > 0 then Woken(s, t, max) else s.(pcs := s.pcs[t := Late(max)])
    case LateBack(seen, max) =>
      if s.count == seen then s.(count := s.count + 1, pcs := s.pcs[t := Out(0)]) else s.(pcs := s.pcs[t := Late(max)])
    case Take(left, result) =>
      if s.stored > 0 then
        s.(stored := s.stored - 1, pcs := s.pcs[t := if left > 1 then Take(left - 1, result) else Out(result)])
      else s
  }

  function Woken(s: State, t: nat, max: nat): State
    requires t < |s.pcs| && s.kernel > 0
  {
    s.(kernel := s.kernel - 1, acquired := s.acquired + 1, pcs := s.pcs[t := First(max)])
  }

  // ----- sums over the threads -----

  datatype Kind = Waiting | Posting | Announcing | Holding

  /** Waiters count one each; the others by what they still owe or hold. */
  function Of(pc: Pc, k: Kind): nat {
    match k
    case Waiting => if pc.Sleep? || pc.Late? || pc.LateTake? || pc.LateBack? then 1 else 0
    case Posting => if pc.Post? then pc.left else 0
    case Announcing => if pc.Announce? then pc.n else 0
    case Holding => if pc.Take? then pc.left else if pc.Try? || pc.TrySwap? then pc.got else 0
  }

  function Sum(pcs: seq<Pc>, k: Kind): (r: nat)
    ensures forall t {:trigger Of(pcs[t], k)} | 0 <= t < |pcs| :: Of(pcs[t], k) <= r
  {
    if pcs == [] then 0
    else
      assert pcs == pcs[..|pcs|-1] + [pcs[|pcs|-1]];
      Sum(pcs[..|pcs|-1], k) + Of(pcs[|pcs|-1], k)
  }

  lemma {:induction false} SumUpdate(pcs: seq<Pc>, t: nat, pc: Pc, k: Kind)
    requires t < |pcs|
    ensures Sum(pcs[t := pc], k) == Sum(pcs, k) - Of(pcs[t], k) + Of(pc, k)
  {
    var n := |pcs| - 1;
    if t < n {
      SumUpdate(pcs[..n], t, pc, k);
      assert pcs[t := pc][..n] == pcs[..n][t := pc];
    } else {
      assert pcs[t := pc][..n] == pcs[..n];
    }
  }

  // ----- the invariant -----

  /** The values a thread works with make sense, and it will come back with what its call promised. */
  ghost predicate PcOk(pc: Pc, ask: Ask) {
    match pc
    case Out(_) => true
    case Announce(_) => true
    case Post(left) => left > 0
    case Try(max, got, after) =>
      0 <= max && got + max == ask.max && (after.Return? && ask.must ==> got > 0)
      && (after.Block? ==> got == 0 && (ask.must ==> !after.timed))
    case TrySwap(seen, max, got, after) =>
      seen > 0 && 0 <= max && got + max == ask.max && (after.Return? && ask.must ==> got > 0)
      && (after.Block? ==> got == 0 && (ask.must ==> !after.timed))
    case Spin(_, max, timed) => 0 < max == ask.max && (ask.must ==> !timed)
    case SpinSwap(seen, _, max, timed) => seen > 0 && 0 < max == ask.max && (ask.must ==> !timed)
    case Sleep(max, timed) => 0 < max == ask.max && (ask.must ==> !timed)
    case Late(max) => 0 < max == ask.max && !ask.must
    case LateTake(max) => 0 < max == ask.max && !ask.must
    case LateBack(seen, max) => seen < 0 && 0 < max == ask.max && !ask.must
    case Take(left, result) => 0 < left <= result <= ask.max
  }

  /** Kernel count and posts on their way match the waiters, less those no permit was given for yet. */
  ghost predicate KernelOk(s: State) {
    s.kernel + Sum(s.pcs, Posting) == Sum(s.pcs, Waiting) + Min(s.count, 0)
  }

  /** Permits are conserved. */
  ghost predicate PermitsOk(s: State) {
    s.permits == s.acquired + s.count + Sum(s.pcs, Waiting)
  }

  /** The inner queue has an element for every permit not acquired, not announced yet, or held. */
  ghost predicate StoredOk(s: State) {
    s.stored == s.permits - s.acquired + Sum(s.pcs, Announcing) + Sum(s.pcs, Holding)
  }

  ghost predicate Inv(s: State) {
    && |s.asks| == |s.pcs| && KernelOk(s) && PermitsOk(s) && StoredOk(s)
    && forall t {:trigger PcOk(s.pcs[t], s.asks[t])} | 0 <= t < |s.pcs| :: PcOk(s.pcs[t], s.asks[t])
  }

  /** Only thread `t` moves, and its own change of the sums pays for the change of the counters. */
  lemma Balanced(s: State, s': State, t: nat)
    requires Inv(s) && t < |s.pcs| == |s'.pcs| && s'.pcs == s.pcs[t := s'.pcs[t]]
    requires |s'.asks| == |s.asks| && s'.asks == s.asks[t := s'.asks[t]] && PcOk(s'.pcs[t], s'.asks[t])
    requires s'.kernel - s.kernel + Of(s'.pcs[t], Posting) - Of(s.pcs[t], Posting)
          == Of(s'.pcs[t], Waiting) - Of(s.pcs[t], Waiting) + Min(s'.count, 0) - Min(s.count, 0)
    requires s'.permits - s.permits
          == s'.acquired - s.acquired + s'.count - s.count + Of(s'.pcs[t], Waiting) - Of(s.pcs[t], Waiting)
    requires s'.stored - s.stored == (s'.permits - s.permits) - (s'.acquired - s.acquired)
               + Of(s'.pcs[t], Announcing) - Of(s.pcs[t], Announcing) + Of(s'.pcs[t], Holding) - Of(s.pcs[t], Holding)
    ensures Inv(s')
  {
    SumUpdate(s.pcs, t, s'.pcs[t], Waiting);
    SumUpdate(s.pcs, t, s'.pcs[t], Posting);
    SumUpdate(s.pcs, t, s'.pcs[t], Announcing);
    SumUpdate(s.pcs, t, s'.pcs[t], Holding);
    forall u | 0 <= u < |s'.pcs| ensures PcOk(s'.pcs[u], s'.asks[u]) {
      assert PcOk(s.pcs[u], s.asks[u]);
    }
  }

  lemma SignalKeeps(s: State, step: Step)
    requires Inv(s) && Enabled(s, step) && (s.pcs[step.t].Out? || s.pcs[step.t].Announce? || s.pcs[step.t].Post?)
    ensures Inv(Move(s, step))
  {
    assert PcOk(s.pcs[step.t], s.asks[step.t]);
    Balanced(s, Move(s, step), step.t);
  }

  lemma TryKeeps(s: State, step: Step)
    requires Inv(s) && Enabled(s, step) && (s.pcs[step.t].Try? || s.pcs[step.t].TrySwap?)
    ensures Inv(Move(s, step))
  {
    assert PcOk(s.pcs[step.t], s.asks[step.t]);
    Balanced(s, Move(s, step), step.t);
  }

  lemma SpinKeeps(s: State, step: Step)
    requires Inv(s) && Enabled(s, step) && (s.pcs[step.t].Spin? || s.pcs[step.t].SpinSwap?)
    ensures Inv(Move(s, step))
  {
    assert PcOk(s.pcs[step.t], s.asks[step.t]);
    Balanced(s, Move(s, step), step.t);
  }

  lemma SleepKeeps(s: State, step: Step)
    requires Inv(s) && Enabled(s, step) && (s.pcs[step.t].Sleep? || s.pcs[step.t].Late? || s.pcs[step.t].LateTake? || s.pcs[step.t].LateBack?)
    ensures Inv(Move(s, step))
  {
    assert PcOk(s.pcs[step.t], s.asks[step.t]);
    Balanced(s, Move(s, step), step.t);
  }

  lemma TakeKeeps(s: State, step: Step)
    requires Inv(s) && Enabled(s, step) && (s.pcs[step.t].Take?)
    ensures Inv(Move(s, step))
  {
    assert PcOk(s.pcs[step.t], s.asks[step.t]);
    ElementIsThere(s, step.t);
    Balanced(s, Move(s, step), step.t);
  }

  /** Every step of every thread keeps the invariant. */
  lemma StepKeeps(s: State, step: Step)
    requires Inv(s) && Enabled(s, step)
    ensures Inv(Move(s, step))
  {
    match s.pcs[step.t]
    case Try(_, _, _) => TryKeeps(s, step);
    case TrySwap(_, _, _, _) => TryKeeps(s, step);
    case Spin(_, _, _) => SpinKeeps(s, step);
    case SpinSwap(_, _, _, _) => SpinKeeps(s, step);
    case Take(_, _) => TakeKeeps(s, step);
    case Out(_) => SignalKeeps(s, step);
    case Announce(_) => SignalKeeps(s, step);
    case Post(_) => SignalKeeps(s, step);
    case _ => SleepKeeps(s, step);
  }

  /** Permits acquired never exceed permits given. */
  lemma AcquiredWithinPermits(s: State)
    requires Inv(s)
    ensures s.acquired <= s.permits
    ensures s.permits - s.acquired == (if s.count > 0 then s.count else 0) + s.kernel + Sum(s.pcs, Posting)
  {
  }

  /** A thread that holds a permit finds an element: its retry loop never meets an empty queue. */
  lemma ElementIsThere(s: State, t: nat)
    requires Inv(s) && t < |s.pcs| && s.pcs[t].Take?
    ensures s.stored >= s.pcs[t].left > 0
  {
    AcquiredWithinPermits(s);
    assert PcOk(s.pcs[t], s.asks[t]);
    assert Of(s.pcs[t], Holding) <= Sum(s.pcs, Holding);
  }

  // ----- whole runs -----

  ghost predicate Init(s: State) {
    && 0 <= s.count == s.permits == s.stored && s.kernel == 0 && s.acquired == 0 && |s.asks| == |s.pcs|
    && forall t | 0 <= t < |s.pcs| :: s.pcs[t].Out?
  }

  ghost predicate IsRun(run: seq<State>, steps: seq<Step>) {
    && run != [] && |steps| == |run| - 1 && Init(run[0])
    && forall i | 0 <= i < |steps| :: Enabled(run[i], steps[i]) && run[i+1] == Move(run[i], steps[i])
  }

  lemma {:induction false} SumOut(pcs: seq<Pc>, k: Kind)
    requires forall t | 0 <= t < |pcs| :: pcs[t].Out?
    ensures Sum(pcs, k) == 0
  {
    if pcs != [] { SumOut(pcs[..|pcs|-1], k); }
  }

  lemma {:induction false} RunInv(run: seq<State>, steps: seq<Step>, n: nat)
    requires IsRun(run, steps) && n < |run|
    ensures Inv(run[n])
  {
    if n == 0 {
      SumOut(run[0].pcs, Waiting);
      SumOut(run[0].pcs, Posting);
      SumOut(run[0].pcs, Announcing);
      SumOut(run[0].pcs, Holding);
    } else {
      RunInv(run, steps, n - 1);
      StepKeeps(run[n-1], steps[n-1]);
    }
  }

  /**
   * In every state of every run: kernel count plus pending releases equal the waiters plus min(count, 0), and
   * permits acquired never exceed permits given.
   */
  lemma Conserved(run: seq<State>, steps: seq<Step>, n: nat)
    requires IsRun(run, steps) && n < |run|
    ensures run[n].kernel + Sum(run[n].pcs, Posting) == Sum(run[n].pcs, Waiting) + Min(run[n].count, 0)
    ensures run[n].acquired <= run[n].permits
  {
    RunInv(run, steps, n);
    AcquiredWithinPermits(run[n]);
  }

  /**
   * No lost wake-up: a sleeper that the kernel holds back while no release is on its way waits because fewer
   * permits were given than asked for, the count being below zero.
   */
  lemma NoLostWakeup(run: seq<State>, steps: seq<Step>, n: nat, t: nat)
    requires IsRun(run, steps) && n < |run| && t < |run[n].pcs| && run[n].pcs[t].Sleep?
    ensures run[n].count >= 0 ==> run[n].kernel + Sum(run[n].pcs, Posting) == Sum(run[n].pcs, Waiting) >= 1
    ensures run[n].kernel == 0 && Sum(run[n].pcs, Posting) == 0 ==>
              run[n].count < 0 && run[n].acquired == run[n].permits
  {
    RunInv(run, steps, n);
    assert Of(run[n].pcs[t], Waiting) <= Sum(run[n].pcs, Waiting);
  }

  /** A thread that timed out leaves with nothing only while more threads wait than releases are due. */
  lemma TimeoutLeavesNoPermit(run: seq<State>, steps: seq<Step>, n: nat, t: nat)
    requires IsRun(run, steps) && n < |steps| && steps[n].t == t && t < |run[n].pcs|
    requires run[n].pcs[t].LateBack? && run[n+1].pcs[t].Out?
    ensures run[n].kernel + Sum(run[n].pcs, Posting) < Sum(run[n].pcs, Waiting)
    ensures run[n+1].kernel + Sum(run[n+1].pcs, Posting) <= Sum(run[n+1].pcs, Waiting)
  {
    RunInv(run, steps, n);
    RunInv(run, steps, n + 1);
    assert run[n+1] == Move(run[n], steps[n]);
    assert PcOk(run[n].pcs[t], run[n].asks[t]);
  }

  /** A dequeue brings at most what it asked for; an untimed blocking one for at least one brings at least one. */
  lemma ResultInRange(run: seq<State>, steps: seq<Step>, n: nat, t: nat)
    requires IsRun(run, steps) && n < |steps| && steps[n].t == t && t < |run[n].pcs|
    requires run[n+1].pcs[t].Out?
    requires !run[n].pcs[t].Out? && !run[n].pcs[t].Announce? && !run[n].pcs[t].Post?
    ensures 0 <= run[n+1].pcs[t].result <= run[n].asks[t].max
    ensures run[n].asks[t].must && run[n].asks[t].max > 0 ==> run[n+1].pcs[t].result >= 1
  {
    RunInv(run, steps, n);
    assert run[n+1] == Move(run[n], steps[n]);
    assert PcOk(run[n].pcs[t], run[n].asks[t]);
  }

  /** With no call in progress the count is exactly the number of elements in the queue. */
  lemma QuietCountIsSize(run: seq<State>, steps: seq<Step>, n: nat)
    requires IsRun(run, steps) && n < |run| && forall t | 0 <= t < |run[n].pcs| :: run[n].pcs[t].Out?
    ensures run[n].count == run[n].stored >= 0 && run[n].kernel == 0
  {
    RunInv(run, steps, n);
    SumOut(run[n].pcs, Waiting);
    SumOut(run[n].pcs, Posting);
    SumOut(run[n].pcs, Announcing);
    SumOut(run[n].pcs, Holding);
  }

  /** A permit holder finds an element in every state of every run. */
  lemma HolderFindsElement(run: seq<State>, steps: seq<Step>, n: nat, t: nat)
    requires IsRun(run, steps) && n < |run| && t < |run[n].pcs| && run[n].pcs[t].Take?
    ensures run[n].stored >= run[n].pcs[t].left > 0
  {
    RunInv(run, steps, n);
    ElementIsThere(run[n], t);
  }
}
