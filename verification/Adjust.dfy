// adjustResNode and adjustSatNode: shrinking batches when a neighbour slows a node down.
module Adjust {
  import opened Cluster
  import opened Performance
  import opened Rounding

  /** A source function returns EXIT_SUCCESS or EXIT_FAILURE, or stops the process at a failed assert. */
  datatype Status = Ok | Fail | Abort

  // ----- one round-robin turn of a node -----

  /** Latency of the first `k` of a turn: a batch of each task, one after the other. */
  function TurnUpTo(cfg: Config, d: Device, p: int, rivals: seq<Rival>, tasks: seq<Placement>, k: nat): real
    requires k <= |tasks|
  {
    if k == 0 then 0.0
    else TurnUpTo(cfg, d, p, rivals, tasks, k - 1) + Latency(cfg, d, tasks[k - 1].id, tasks[k - 1].batch, p, rivals)
  }

  /** Latency of one turn. */
  function Turn(cfg: Config, d: Device, p: int, rivals: seq<Rival>, tasks: seq<Placement>): real {
    TurnUpTo(cfg, d, p, rivals, tasks, |tasks|)
  }

  lemma {:induction false} TurnNotNegative(cfg: Config, d: Device, p: int, rivals: seq<Rival>, tasks: seq<Placement>, k: nat)
    requires cfg.Valid() && k <= |tasks| && forall i | 0 <= i < |tasks| :: 1 <= tasks[i].batch
    ensures 0.0 <= TurnUpTo(cfg, d, p, rivals, tasks, k)
  {
    if k != 0 {
      LatencyPositive(cfg, d, tasks[k - 1].id, tasks[k - 1].batch, p, rivals);
      TurnNotNegative(cfg, d, p, rivals, tasks, k - 1);
    }
  }

  function TurnOn(cfg: Config, n: Node, s: SimState): real
    reads n, s, s.NodesAt(n.id)
  {
    Turn(cfg, n.kind, n.size, Rivals(cfg, n, s), n.tasks)
  }

  method SumLatencies(cfg: Config, d: Device, p: int, rivals: seq<Rival>, tasks: seq<Placement>) returns (sum: real)
    ensures sum == Turn(cfg, d, p, rivals, tasks)
  {
    sum := 0.0;
    for i := 0 to |tasks|
      invariant sum == TurnUpTo(cfg, d, p, rivals, tasks, i)
    {
      sum := sum + Latency(cfg, d, tasks[i].id, tasks[i].batch, p, rivals);
    }
  }

  /** A turn of `sum` every `duty` answers every task within `slack` times its SLO. */
  predicate InTime(tasks: seq<Placement>, sum: real, duty: real, slack: real) {
    forall i | 0 <= i < |tasks| :: sum + duty <= tasks[i].slo as real * slack
  }

  /** The same placements with other batches and throughputs. */
  ghost predicate SameDemand(a: seq<Placement>, b: seq<Placement>) {
    |a| == |b| && forall i | 0 <= i < |a| :: a[i].(batch := b[i].batch, throughput := b[i].throughput) == b[i]
  }

  /** Replacing batches by smaller ones shortens a turn when latency grows with the batch. */
  lemma {:induction false} SmallerTurnUpTo(cfg: Config, d: Device, p: int, rivals: seq<Rival>, small: seq<Placement>,
                                           big: seq<Placement>, i: int, k: nat)
    requires MonotoneInBatch(cfg) && SameDemand(big, small)
    requires forall j | 0 <= j < |big| :: 1 <= small[j].batch <= big[j].batch
    requires 0 <= i < |big| && k <= |big|
    ensures TurnUpTo(cfg, d, p, rivals, small, k)
         <= TurnUpTo(cfg, d, p, rivals, big, k) +
              if i < k then Latency(cfg, d, big[i].id, small[i].batch, p, rivals) - Latency(cfg, d, big[i].id, big[i].batch, p, rivals)
              else 0.0
  {
    if k != 0 {
      var j := k - 1;
      assert big[j].id == small[j].id;
      assert Latency(cfg, d, big[j].id, small[j].batch, p, rivals) <= Latency(cfg, d, big[j].id, big[j].batch, p, rivals);
      SmallerTurnUpTo(cfg, d, p, rivals, small, big, i, j);
    }
  }

  lemma SmallerTurn(cfg: Config, d: Device, p: int, rivals: seq<Rival>, small: seq<Placement>, big: seq<Placement>, i: int)
    requires MonotoneInBatch(cfg) && SameDemand(big, small)
    requires forall j | 0 <= j < |big| :: 1 <= small[j].batch <= big[j].batch
    requires 0 <= i < |big|
    ensures Turn(cfg, d, p, rivals, small)
         <= Turn(cfg, d, p, rivals, big)
            - Latency(cfg, d, big[i].id, big[i].batch, p, rivals) + Latency(cfg, d, big[i].id, small[i].batch, p, rivals)
  {
    SmallerTurnUpTo(cfg, d, p, rivals, small, big, i, |big|);
  }

  // ----- cutting a batch -----

  /** Duty cycle after shrinking a batch of `from` one by one down to `to`. */
  function ShrunkDuty(duty: real, from: int, to: int): real
    requires 1 <= to <= from
    decreases from - to
  {
    if to == from then duty else ShrunkDuty(duty, from, to + 1) * (to as real / from as real)
  }

  lemma ShrunkDutyBounds(duty: real, from: int, to: int)
    requires 1 <= to <= from && 0.0 < duty
    ensures 0.0 < ShrunkDuty(duty, from, to) <= duty
    decreases from - to
  {
    if to != from {
      ShrunkDutyBounds(duty, from, to + 1);
      var d, q := ShrunkDuty(duty, from, to + 1), to as real / from as real;
      assert q * from as real == to as real;
      assert 0.0 < q <= 1.0;
      assert 0.0 < d * q && 0.0 <= d * (1.0 - q);
      assert d * q == d - d * (1.0 - q);
    }
  }

  /** Task `i`, cut to batch `b`, answers within its SLO while the others run as in `tasks`. */
  predicate Fits(cfg: Config, d: Device, p: int, rivals: seq<Rival>, tasks: seq<Placement>, duty: real, i: int, b: int)
    requires 0 <= i < |tasks| && 1 <= b <= tasks[i].batch
  {
    Turn(cfg, d, p, rivals, tasks) - Latency(cfg, d, tasks[i].id, tasks[i].batch, p, rivals)
    + Latency(cfg, d, tasks[i].id, b, p, rivals) + ShrunkDuty(duty, tasks[i].batch, b) <= tasks[i].slo as real
  }

  /** The inner loop of adjustResNode: the largest batch that fits, or 0. */
  method ShrinkBatch(cfg: Config, d: Device, p: int, rivals: seq<Rival>, tasks: seq<Placement>, i: int, before: real, sum: real)
    returns (b: int, duty: real)
    requires 0 <= i < |tasks| && 1 <= tasks[i].batch && sum == Turn(cfg, d, p, rivals, tasks)
    ensures 0 <= b <= tasks[i].batch
    ensures forall c | b < c <= tasks[i].batch :: !Fits(cfg, d, p, rivals, tasks, before, i, c)
    ensures b != 0 ==> Fits(cfg, d, p, rivals, tasks, before, i, b) && duty == ShrunkDuty(before, tasks[i].batch, b)
  {
    var from := tasks[i].batch;
    b, duty := from, before;
    var latency := Latency(cfg, d, tasks[i].id, b, p, rivals);
    var others := sum - latency;
    while (tasks[i].slo as real) < others + latency + duty
      invariant 1 <= b <= from
      invariant latency == Latency(cfg, d, tasks[i].id, b, p, rivals) && duty == ShrunkDuty(before, from, b)
      invariant forall c | b < c <= from :: !Fits(cfg, d, p, rivals, tasks, before, i, c)
      decreases b
    {
      LateIsUnfit(cfg, d, p, rivals, tasks, before, i, b);
      b := b - 1;
      if b == 0 { return; }
      latency := Latency(cfg, d, tasks[i].id, b, p, rivals);
      duty := ShrinkOnce(duty, before, from, b);
    }
    LateIsUnfit(cfg, d, p, rivals, tasks, before, i, b);
  }

  method ShrinkOnce(duty: real, ghost before: real, from: int, to: int) returns (shrunk: real)
    requires 1 <= to < from && duty == ShrunkDuty(before, from, to + 1)
    ensures shrunk == ShrunkDuty(before, from, to)
  {
    shrunk := duty * (to as real / from as real);
  }

  lemma LateIsUnfit(cfg: Config, d: Device, p: int, rivals: seq<Rival>, tasks: seq<Placement>, duty: real, i: int, b: int)
    requires 0 <= i < |tasks| && 1 <= b <= tasks[i].batch
    ensures Fits(cfg, d, p, rivals, tasks, duty, i, b) <==>
              Turn(cfg, d, p, rivals, tasks) - Latency(cfg, d, tasks[i].id, tasks[i].batch, p, rivals)
              + Latency(cfg, d, tasks[i].id, b, p, rivals) + ShrunkDuty(duty, tasks[i].batch, b) <= tasks[i].slo as real
  {
  }

  /** Each batch is cut to the largest that fits beside the other tasks as they were. */
  ghost predicate CutTo(cfg: Config, d: Device, p: int, rivals: seq<Rival>, tasks: seq<Placement>, duty: real, news: seq<int>)
    requires |news| <= |tasks|
  {
    forall i | 0 <= i < |news| ::
      && 1 <= news[i] <= tasks[i].batch
      && Fits(cfg, d, p, rivals, tasks, duty, i, news[i])
      && (forall b | news[i] < b <= tasks[i].batch :: !Fits(cfg, d, p, rivals, tasks, duty, i, b))
  }

  /** `duty` is the smallest of the shrunk duty cycles. */
  ghost predicate LeastDuty(tasks: seq<Placement>, news: seq<int>, before: real, duty: real)
    requires |news| <= |tasks| && forall i | 0 <= i < |news| :: 1 <= news[i] <= tasks[i].batch
  {
    && (forall i | 0 <= i < |news| :: duty <= ShrunkDuty(before, tasks[i].batch, news[i]))
    && (news != [] ==> exists i | 0 <= i < |news| :: duty == ShrunkDuty(before, tasks[i].batch, news[i]))
  }

  lemma LeastOneMore(tasks: seq<Placement>, news: seq<int>, before: real, duty: real, b: int)
    requires |news| < |tasks| && (forall i | 0 <= i < |news| :: 1 <= news[i] <= tasks[i].batch)
    requires 1 <= b <= tasks[|news|].batch && LeastDuty(tasks, news, before, duty)
    ensures var shrunk := ShrunkDuty(before, tasks[|news|].batch, b);
            LeastDuty(tasks, news + [b], before, if news == [] || shrunk < duty then shrunk else duty)
  {
    var more := news + [b];
    assert more[|news|] == b;
    if news != [] {
      var i :| 0 <= i < |news| && duty == ShrunkDuty(before, tasks[i].batch, news[i]);
      assert more[i] == news[i];
    }
  }

  /** First loop of adjustResNode: choose the batches, or find a task no batch of which fits. */
  method PlanCut(cfg: Config, d: Device, p: int, rivals: seq<Rival>, tasks: seq<Placement>, before: real, sum: real)
    returns (ok: bool, news: seq<int>, duty: real)
    requires 0.0 < before && (forall i | 0 <= i < |tasks| :: 1 <= tasks[i].batch)
    requires sum == Turn(cfg, d, p, rivals, tasks)
    ensures |news| <= |tasks| && 0.0 < duty <= before
    ensures CutTo(cfg, d, p, rivals, tasks, before, news)
    ensures LeastDuty(tasks, news, before, duty)
    ensures ok <==> |news| == |tasks|
    ensures !ok ==> Hopeless(cfg, d, p, rivals, tasks, before, |news|)
  {
    news, duty := [], before;
    for i := 0 to |tasks|
      invariant |news| == i && 0.0 < duty <= before
      invariant CutTo(cfg, d, p, rivals, tasks, before, news)
      invariant LeastDuty(tasks, news, before, duty)
    {
      var b, shrunk := ShrinkBatch(cfg, d, p, rivals, tasks, i, before, sum);
      if b == 0 { return false, news, duty; }
      ShrunkDutyBounds(before, tasks[i].batch, b);
      LeastOneMore(tasks, news, before, duty, b);
      duty := if i == 0 || shrunk < duty then shrunk else duty;
      news := news + [b];
    }
    ok := true;
  }

  /** Throughput of one batch per duty cycle. */
  function Rate(batch: int, duty: real): (r: real)
    requires 0.0 < duty
    ensures 0 < batch ==> 0.0 < r
  {
    1000.0 * batch as real / duty
  }

  function Recut(tasks: seq<Placement>, news: seq<int>, duty: real): (r: seq<Placement>)
    requires |tasks| == |news| && 0.0 < duty
    ensures SameDemand(tasks, r)
    ensures forall i | 0 <= i < |r| :: r[i].batch == news[i] && r[i].throughput == Rate(news[i], duty)
  {
    seq(|tasks|, i requires 0 <= i < |tasks| => tasks[i].(batch := news[i], throughput := Rate(news[i], duty)))
  }

  function NewBatches(tasks: seq<Placement>): (bs: seq<int>)
    ensures |bs| == |tasks| && forall i | 0 <= i < |bs| :: bs[i] == tasks[i].batch
  {
    seq(|tasks|, i requires 0 <= i < |tasks| => tasks[i].batch)
  }

  /**
   * What cutting makes of a node: its batches are the largest that fit, its duty cycle the smallest
   * they allow, and throughputs and occupancy follow from them.
   */
  ghost predicate IsCut(cfg: Config, d: Device, p: int, rivals: seq<Rival>, was: seq<Placement>, before: real,
                        tasks: seq<Placement>, duty: real, occupancy: real)
  {
    && SameDemand(was, tasks) && 0.0 < duty
    && CutTo(cfg, d, p, rivals, was, before, NewBatches(tasks))
    && LeastDuty(was, NewBatches(tasks), before, duty)
    && (forall i | 0 <= i < |tasks| :: tasks[i].throughput == Rate(tasks[i].batch, duty))
    && occupancy == Turn(cfg, d, p, rivals, tasks) / duty
  }

  /** All the cut tasks meet their SLOs together, although each was cut against the old others. */
  lemma CutMeetsAll(cfg: Config, d: Device, p: int, rivals: seq<Rival>, was: seq<Placement>, before: real,
                    tasks: seq<Placement>, duty: real, occupancy: real)
    requires MonotoneInBatch(cfg) && IsCut(cfg, d, p, rivals, was, before, tasks, duty, occupancy)
    ensures InTime(tasks, Turn(cfg, d, p, rivals, tasks), duty, 1.0)
  {
    forall i | 0 <= i < |tasks|
      ensures Turn(cfg, d, p, rivals, tasks) + duty <= tasks[i].slo as real
    {
      assert NewBatches(tasks)[i] == tasks[i].batch;
      assert Fits(cfg, d, p, rivals, was, before, i, tasks[i].batch);
      assert forall k | 0 <= k < |was| :: NewBatches(tasks)[k] == tasks[k].batch;
      SmallerTurn(cfg, d, p, rivals, tasks, was, i);
    }
  }

  /** Task `i` answers late whatever its batch. */
  ghost predicate Hopeless(cfg: Config, d: Device, p: int, rivals: seq<Rival>, tasks: seq<Placement>, duty: real, i: int)
    requires 0 <= i < |tasks|
  {
    forall b | 1 <= b <= tasks[i].batch :: !Fits(cfg, d, p, rivals, tasks, duty, i, b)
  }

  ghost predicate NoCut(cfg: Config, d: Device, p: int, rivals: seq<Rival>, tasks: seq<Placement>, duty: real) {
    exists i | 0 <= i < |tasks| :: Hopeless(cfg, d, p, rivals, tasks, duty, i)
  }

  /**
   * adjustResNode on values: nothing changes when the turn is in time within 5%, nor when a task cannot be
   * brought in time; otherwise every batch is cut.
   */
  ghost predicate ResAdjusted(cfg: Config, d: Device, p: int, rivals: seq<Rival>,
                              was: seq<Placement>, before: real, occupied: real, ok: bool,
                              tasks: seq<Placement>, duty: real, occupancy: real)
  {
    if InTime(was, Turn(cfg, d, p, rivals, was), before, 1.05) then
      ok && tasks == was && duty == before && occupancy == occupied
    else if ok then
      IsCut(cfg, d, p, rivals, was, before, tasks, duty, occupancy)
    else
      tasks == was && duty == before && occupancy == occupied && NoCut(cfg, d, p, rivals, was, before)
  }

  method AdjustRes(cfg: Config, d: Device, p: int, rivals: seq<Rival>, was: seq<Placement>, before: real, occupied: real)
    returns (ok: bool, tasks: seq<Placement>, duty: real, occupancy: real)
    requires Serves(was, before)
    ensures ResAdjusted(cfg, d, p, rivals, was, before, occupied, ok, tasks, duty, occupancy)
  {
    ok, tasks, duty, occupancy := true, was, before, occupied;
    var sum := SumLatencies(cfg, d, p, rivals, was);
    if InTime(was, sum, before, 1.05) { return; }
    var news, least;
    ok, news, least := PlanCut(cfg, d, p, rivals, was, before, sum);
    if ok {
      tasks, duty := Recut(was, news, least), least;
      sum := SumLatencies(cfg, d, p, rivals, tasks);
      occupancy := sum / duty;
      assert NewBatches(tasks) == news;
    }
  }

  lemma AdjustedInTime(cfg: Config, d: Device, p: int, rivals: seq<Rival>,
                       was: seq<Placement>, before: real, occupied: real, ok: bool,
                       tasks: seq<Placement>, duty: real, occupancy: real)
    requires cfg.Valid() && Serves(was, before)
    requires ResAdjusted(cfg, d, p, rivals, was, before, occupied, ok, tasks, duty, occupancy)
    ensures Serves(tasks, duty)
    ensures MonotoneInBatch(cfg) && ok ==> InTime(tasks, Turn(cfg, d, p, rivals, tasks), duty, 1.05)
  {
    if ok && !InTime(was, Turn(cfg, d, p, rivals, was), before, 1.05) {
      assert NewBatches(tasks) == NewBatches(tasks);
      forall i | 0 <= i < |tasks| ensures 1 <= tasks[i].batch {
        assert NewBatches(tasks)[i] == tasks[i].batch;
      }
      TurnNotNegative(cfg, d, p, rivals, tasks, |tasks|);
      if MonotoneInBatch(cfg) {
        CutMeetsAll(cfg, d, p, rivals, was, before, tasks, duty, occupancy);
      }
    }
  }

  /** Writing a node's own fields leaves its rivals as they were. */
  method WriteNode(cfg: Config, n: Node, s: SimState, tasks: seq<Placement>, duty: real, occupancy: real)
    modifies n`tasks, n`duty, n`occupancy
    ensures n.tasks == tasks && n.duty == duty && n.occupancy == occupancy
    ensures Rivals(cfg, n, s) == old(Rivals(cfg, n, s))
  {
    n.tasks, n.duty, n.occupancy := tasks, duty, occupancy;
    RivalsKept(old(Views(s.NodesAt(n.id))), Views(s.NodesAt(n.id)), old(ViewOf(n)), ViewOf(n));
  }

  method AdjustResNode(cfg: Config, n: Node, s: SimState) returns (ok: bool)
    requires cfg.Valid() && n.Valid()
    modifies n`tasks, n`duty, n`occupancy
    ensures n.Valid() && Rivals(cfg, n, s) == old(Rivals(cfg, n, s))
    ensures ResAdjusted(cfg, n.kind, n.size, Rivals(cfg, n, s), old(n.tasks), old(n.duty), old(n.occupancy), ok,
                        n.tasks, n.duty, n.occupancy)
    ensures ok && MonotoneInBatch(cfg) ==> InTime(n.tasks, TurnOn(cfg, n, s), n.duty, 1.05)
  {
    var d, p, rivals, was, before, occupied := n.kind, n.size, Rivals(cfg, n, s), n.tasks, n.duty, n.occupancy;
    var tasks, duty, occupancy;
    ok, tasks, duty, occupancy := AdjustRes(cfg, d, p, rivals, was, before, occupied);
    WriteNode(cfg, n, s, tasks, duty, occupancy);
    AdjustedInTime(cfg, d, p, rivals, was, before, occupied, ok, tasks, duty, occupancy);
  }

  // ----- saturated nodes -----

  /** A saturating batch must run twice within the SLO. */
  predicate RunsTwice(cfg: Config, d: Device, p: int, rivals: seq<Rival>, t: Placement, b: int) {
    2.0 * Latency(cfg, d, t.id, b, p, rivals) <= t.slo as real
  }

  /** The lost throughput, rounded down, is what other nodes have to take over. */
  function Charge(was: real, now: real): int {
    if 0 < Trunc(was - now) then Trunc(was - now) else 0
  }

  /** adjustSatNode on values; a batch that only just fits keeps the node's old duty cycle. */
  ghost predicate SatAdjusted(cfg: Config, d: Device, p: int, rivals: seq<Rival>, was: Placement, before: real, ok: bool,
                              t: Placement, duty: real, charge: int)
  {
    var latency := Latency(cfg, d, was.id, t.batch, p, rivals);
    if ok then
      && 1 <= t.batch <= was.batch && t == was.(batch := t.batch, throughput := t.throughput)
      && RunsTwice(cfg, d, p, rivals, was, t.batch)
      && (forall b | t.batch < b <= was.batch :: !RunsTwice(cfg, d, p, rivals, was, b))
      && duty == (if t.batch == was.batch then before else latency)
      && 0.0 < duty && 0.0 < latency
      && t.throughput == Rate(t.batch, if 2.0 * latency < was.slo as real && t.batch == was.batch then latency else duty)
      && charge == Charge(was.throughput, t.throughput)
    else
      && t == was && duty == before && charge == 0
      && forall b | 1 <= b <= was.batch :: !RunsTwice(cfg, d, p, rivals, was, b)
  }

  method AdjustSat(cfg: Config, d: Device, p: int, rivals: seq<Rival>, was: Placement, before: real)
    returns (ok: bool, t: Placement, duty: real, charge: int)
    requires cfg.Valid() && Sound(was) && 0.0 < before
    ensures SatAdjusted(cfg, d, p, rivals, was, before, ok, t, duty, charge)
  {
    t, duty, charge := was, before, 0;
    var latency := Latency(cfg, d, was.id, was.batch, p, rivals);
    LatencyPositive(cfg, d, was.id, was.batch, p, rivals);
    if 2.0 * latency < was.slo as real {
      t := was.(throughput := Rate(was.batch, latency));
      charge := Charge(was.throughput, t.throughput);
      return true, t, duty, charge;
    }
    var b := was.batch;
    while (was.slo as real) < 2.0 * latency
      invariant 1 <= b <= was.batch
      invariant latency == Latency(cfg, d, was.id, b, p, rivals) && 0.0 < latency
      invariant duty == if b == was.batch then before else latency
      invariant forall c | b < c <= was.batch :: !RunsTwice(cfg, d, p, rivals, was, c)
      decreases b
    {
      assert !RunsTwice(cfg, d, p, rivals, was, b);
      b := b - 1;
      if b == 0 { return false, was, before, 0; }
      latency := Latency(cfg, d, was.id, b, p, rivals);
      LatencyPositive(cfg, d, was.id, b, p, rivals);
      duty := latency;
    }
    t := was.(batch := b, throughput := Rate(b, duty));
    charge := Charge(was.throughput, t.throughput);
    ok := true;
  }

  /** The charge covers the lost throughput up to less than one request per second, and never exceeds it. */
  lemma ChargeCoversLoss(was: real, now: real)
    ensures was - now < (Charge(was, now) + 1) as real
    ensures 0 < Charge(was, now) ==> Charge(was, now) as real <= was - now
  {
  }

  /** A source assert stops the process unless the node is saturated by exactly one task. */
  predicate Saturated(n: Node)
    reads n
  {
    |n.tasks| == 1 && 1.0 <= n.occupancy
  }

  /** adjustSatNode; the caller adds `charge` to the additional rate of the task it names. */
  method AdjustSatNode(cfg: Config, n: Node, s: SimState) returns (st: Status, charge: int)
    requires cfg.Valid() && n.Valid()
    modifies n`tasks, n`duty, n`occupancy
    ensures n.Valid() && Rivals(cfg, n, s) == old(Rivals(cfg, n, s)) && n.occupancy == old(n.occupancy)
    ensures st == Abort <==> !old(Saturated(n))
    ensures st == Abort ==> n.tasks == old(n.tasks) && n.duty == old(n.duty) && charge == 0
    ensures st != Abort ==>
              && |old(n.tasks)| == 1 && |n.tasks| == 1
              && SatAdjusted(cfg, n.kind, n.size, Rivals(cfg, n, s), old(n.tasks[0]), old(n.duty), st == Ok,
                             n.tasks[0], n.duty, charge)
  {
    st, charge := Abort, 0;
    if Saturated(n) {
      var ok, t, duty;
      ok, t, duty, charge := AdjustSat(cfg, n.kind, n.size, Rivals(cfg, n, s), n.tasks[0], n.duty);
      WriteNode(cfg, n, s, [t], duty, n.occupancy);
      st := if ok then Ok else Fail;
    }
  }
}
