// Dequeue as it is written: the ticket protocol decides whether a consumer draws an index at all, and the block
// ring gives it the element. The head and the tail are the same counters in both.
module Dequeue {
  import T = Tickets
  import B = BlockRing

  datatype State = State(tickets: T.State, ring: B.State)

  datatype Step = Produce(c: B.Choice) | Consume(t: nat)

  /** Nothing but the allocator and the block source restricts a step; no consumer looks at head and tail together. */
  ghost predicate Enabled(s: State, step: Step) {
    match step
    case Produce(c) => B.Enabled(s.ring, B.Produce(c))
    case Consume(t) => t in s.tickets.pcs
  }

  /** The consumer is in the part of dequeue that deals with the ring: it advances the head, or has an index. */
  predicate InRing(pc: T.Pc) {
    pc.Passed? || pc.Has?
  }

  ghost predicate Safe(s: State, step: Step) {
    match step
    case Produce(c) => B.Safe(s.ring, B.Produce(c))
    case Consume(t) =>
      && t in s.tickets.pcs
      && (s.tickets.pcs[t].Check? ==> 0 <= s.tickets.pcs[t].ticket < |s.tickets.fates|)
      && (InRing(s.tickets.pcs[t]) ==> B.Safe(s.ring, B.Consume(t)))
  }

  /** Advancing the head is one access in both; so is publishing the tail. A dequeue ends with its flag set. */
  ghost function Move(s: State, step: Step): State
    requires Safe(s, step)
  {
    match step
    case Produce(c) =>
      State(if s.ring.producer.Store? then T.Move(s.tickets, T.Enqueue) else s.tickets, B.Move(s.ring, B.Produce(c)))
    case Consume(t) =>
      if !InRing(s.tickets.pcs[t]) then s.(tickets := T.Move(s.tickets, T.Consume(t)))
      else State(if s.tickets.pcs[t].Passed? || s.ring.consumers[t].Read? then T.Move(s.tickets, T.Consume(t)) else s.tickets,
                 B.Move(s.ring, B.Consume(t)))
  }

  /** Consumer `t` is as far in both. */
  ghost predicate Agree(pc: T.Pc, c: B.Consumer) {
    (pc.Has? <==> !c.Out?) && (pc.Has? ==> pc.index == c.i)
  }

  ghost predicate Coupled(s: State) {
    && s.tickets.tail == s.ring.tail && s.tickets.head == s.ring.head
    && s.tickets.pcs.Keys == s.ring.consumers.Keys
    && forall t | t in s.tickets.pcs :: Agree(s.tickets.pcs[t], s.ring.consumers[t])
  }

  ghost predicate Inv(s: State) {
    T.Inv(s.tickets) && B.Inv(s.ring) && Coupled(s)
  }

  /** What the ring is asked to do by a step, if anything. */
  ghost predicate AsksRing(s: State, step: Step)
    requires Enabled(s, step)
  {
    step.Consume? ==> InRing(s.tickets.pcs[step.t])
  }

  function RingStep(step: Step): B.Step {
    match step
    case Produce(c) => B.Produce(c)
    case Consume(t) => B.Consume(t)
  }

  /** The guard under which the ring hands out an index holds whenever dequeue asks for one, though nobody tests it. */
  lemma DrawIsGuarded(s: State, step: Step)
    requires Inv(s) && Enabled(s, step) && AsksRing(s, step)
    ensures B.Enabled(s.ring, RingStep(step))
  {
    if step.Consume? {
      assert Agree(s.tickets.pcs[step.t], s.ring.consumers[step.t]);
      if s.tickets.pcs[step.t].Passed? {
        T.PassedIsBehind(s.tickets, step.t);
      }
    }
  }

  lemma TailMoves(r: B.State, c: B.Choice)
    requires B.Safe(r, B.Produce(c))
    ensures B.Move(r, B.Produce(c)).tail == r.tail + if r.producer.Store? then 1 else 0
  {
    match r.producer
    case Scan(_, _) =>
    case Grow(_) =>
    case Take(_) =>
    case _ =>
  }

  lemma ConsumersStay(r: B.State, c: B.Choice)
    requires B.Safe(r, B.Produce(c))
    ensures B.Move(r, B.Produce(c)).head == r.head && B.Move(r, B.Produce(c)).consumers == r.consumers
  {
    match r.producer
    case Scan(_, _) =>
    case Grow(_) =>
    case Take(_) =>
    case _ =>
  }

  lemma CountersMove(r: B.State, t: nat)
    requires B.Safe(r, B.Consume(t))
    ensures B.Move(r, B.Consume(t)).tail == r.tail
    ensures B.Move(r, B.Consume(t)).head == r.head + if r.consumers[t].Out? then 1 else 0
  {
    match r.consumers[t]
    case Out =>
    case Drawn(_) =>
    case Read(_, _, _) =>
    case _ =>
  }

  lemma ConsumerMoves(r: B.State, t: nat)
    requires B.Safe(r, B.Consume(t))
    ensures var r', c := B.Move(r, B.Consume(t)), r.consumers[t];
            && t in r'.consumers && r'.consumers == r.consumers[t := r'.consumers[t]]
            && if c.Out? then r'.consumers[t] == B.Drawn(r.head)
               else if c.Read? then r'.consumers[t].Out? else !r'.consumers[t].Out? && r'.consumers[t].i == c.i
  {
    match r.consumers[t]
    case Out =>
    case Drawn(_) =>
    case Read(_, _, _) =>
    case _ =>
  }

  lemma ProduceKeeps(s: State, c: B.Choice)
    requires Inv(s) && Enabled(s, Produce(c))
    ensures Safe(s, Produce(c)) && Inv(Move(s, Produce(c)))
  {
    B.StepKeeps(s.ring, B.Produce(c));
    TailMoves(s.ring, c);
    ConsumersStay(s.ring, c);
    T.StepKeeps(s.tickets, T.Enqueue);
  }

  /** Outside the ring only the tickets change. */
  lemma TicketCoupled(s: State, t: nat)
    requires Coupled(s) && Safe(s, Consume(t)) && !InRing(s.tickets.pcs[t])
    ensures Coupled(Move(s, Consume(t)))
  {
    assert Agree(s.tickets.pcs[t], s.ring.consumers[t]);
    var s' := Move(s, Consume(t));
    forall u | u in s'.tickets.pcs ensures Agree(s'.tickets.pcs[u], s'.ring.consumers[u]) {
      assert u != t ==> Agree(s.tickets.pcs[u], s.ring.consumers[u]);
    }
  }

  lemma TicketKeeps(s: State, t: nat)
    requires Inv(s) && Enabled(s, Consume(t)) && !InRing(s.tickets.pcs[t])
    ensures Safe(s, Consume(t)) && Inv(Move(s, Consume(t)))
  {
    T.StepKeeps(s.tickets, T.Consume(t));
    TicketCoupled(s, t);
  }

  /** In the ring both machines stay in step: drawing, walking through the index, and leaving with the element. */
  lemma StaysCoupled(s: State, t: nat)
    requires Coupled(s) && Safe(s, Consume(t)) && InRing(s.tickets.pcs[t])
    ensures Coupled(Move(s, Consume(t)))
  {
    CountersMove(s.ring, t);
    ConsumerMoves(s.ring, t);
    assert Agree(s.tickets.pcs[t], s.ring.consumers[t]);
    var s' := Move(s, Consume(t));
    forall u | u in s'.tickets.pcs ensures Agree(s'.tickets.pcs[u], s'.ring.consumers[u]) {
      assert u != t ==> Agree(s.tickets.pcs[u], s.ring.consumers[u]);
    }
  }

  lemma RingKeeps(s: State, t: nat)
    requires Inv(s) && Enabled(s, Consume(t)) && InRing(s.tickets.pcs[t])
    ensures Safe(s, Consume(t)) && Inv(Move(s, Consume(t)))
  {
    DrawIsGuarded(s, Consume(t));
    B.StepKeeps(s.ring, B.Consume(t));
    T.StepKeeps(s.tickets, T.Consume(t));
    StaysCoupled(s, t);
  }

  /** Every step of dequeue and enqueue is defined, and keeps both machines in step. */
  lemma StepKeeps(s: State, step: Step)
    requires Inv(s) && Enabled(s, step)
    ensures Safe(s, step) && Inv(Move(s, step))
  {
    match step
    case Produce(c) => ProduceKeeps(s, c);
    case Consume(t) =>
      if InRing(s.tickets.pcs[t]) {
        RingKeeps(s, t);
      } else {
        TicketKeeps(s, t);
      }
  }

  // ----- whole runs -----

  ghost predicate Init(s: State) {
    T.Init(s.tickets) && B.Init(s.ring) && s.tickets.pcs.Keys == s.ring.consumers.Keys
  }

  /** `s'` follows `s`. Where a step would read what is not there, anything may follow. */
  ghost predicate Next(s: State, step: Step, s': State) {
    Enabled(s, step) && (Safe(s, step) ==> s' == Move(s, step))
  }

  ghost predicate IsRun(run: seq<State>, steps: seq<Step>) {
    run != [] && |steps| == |run| - 1 && Init(run[0]) && forall i | 0 <= i < |steps| :: Next(run[i], steps[i], run[i+1])
  }

  lemma {:induction false} RunInv(run: seq<State>, steps: seq<Step>, n: nat)
    requires IsRun(run, steps) && n < |run|
    ensures Inv(run[n])
  {
    if n == 0 {
      T.InitInv(run[0].tickets);
      B.InitInv(run[0].ring);
    } else {
      RunInv(run, steps, n - 1);
      assert Next(run[n-1], steps[n-1], run[n]);
      StepKeeps(run[n-1], steps[n-1]);
    }
  }

  /**
   * First in, first out, for dequeue as written, in every interleaving: each step adds the element being enqueued
   * at the back, or takes the front, which there is, or leaves the queue as it is.
   */
  lemma FirstInFirstOut(run: seq<State>, steps: seq<Step>, n: nat)
    requires IsRun(run, steps) && n < |steps|
    ensures var s, s' := run[n], run[n+1];
            && s.ring.head <= |s.ring.log| && s'.ring.head <= |s'.ring.log|
            && var before, after := B.Contents(s.ring), B.Contents(s'.ring);
            if steps[n].Produce? && s.ring.producer.Store? then after == before + [s.ring.producer.v]
            else if steps[n].Consume? && s.tickets.pcs[steps[n].t].Passed? then before != [] && after == before[1..]
            else after == before
  {
    RunInv(run, steps, n);
    assert Next(run[n], steps[n], run[n+1]);
    var s, step := run[n], steps[n];
    StepKeeps(s, step);
    if AsksRing(s, step) {
      DrawIsGuarded(s, step);
      B.RefinesQueue(s.ring, RingStep(step));
      if step.Consume? {
        assert Agree(s.tickets.pcs[step.t], s.ring.consumers[step.t]);
      }
    } else {
      B.HeadWithinLog(s.ring);
    }
  }

  /** The k-th dequeue that passed its check gives the k-th element enqueued, or its consumer is about to read it. */
  lemma KthDequeue(run: seq<State>, steps: seq<Step>, n: nat, k: nat)
    requires IsRun(run, steps) && n < |run| && k < run[n].tickets.head
    ensures k < |run[n].ring.log|
    ensures k in run[n].ring.taken ==> run[n].ring.taken[k] == run[n].ring.log[k]
    ensures k !in run[n].ring.taken ==> exists t | t in run[n].tickets.pcs :: run[n].tickets.pcs[t] == T.Has(k)
  {
    RunInv(run, steps, n);
    var s := run[n];
    B.KthIsKept(s.ring, k);
    if k !in s.ring.taken {
      var t :| t in s.ring.consumers && !s.ring.consumers[t].Out? && s.ring.consumers[t].i == k;
      assert Agree(s.tickets.pcs[t], s.ring.consumers[t]);
    }
  }
}
