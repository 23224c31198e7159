// Second pass of the scheduler: use the empty nodes, cutting whole GPUs on demand (readjust, checkNeedtoRevert).
module Readjusting {
  import opened Cluster
  import opened Performance
  import opened Rounding
  import opened BatchSearch
  import opened Adjust
  import opened Estimation
  import opened Allocation
  import opened Accounts
  import opened Fitting

  // ----- checkNeedtoRevert -----

  /** What a neighbour must still meet next to the new node; which bound depends on how full it was. */
  ghost predicate Bounded(cfg: Config, s: SimState, m: Node, saturated: bool)
    reads m, s, s.NodesAt(m.id)
  {
    if saturated
    then |m.tasks| == 1 && 2.0 * LatencyOn(cfg, m, m.tasks[0].id, m.tasks[0].batch, s) <= m.tasks[0].slo as real
    else InTime(m.tasks, TurnOn(cfg, m, s), m.duty, 1.05)
  }

  /**
   * Adjust the neighbour `m` of a new placement; `revert` when it cannot be kept in time. What a saturated
   * neighbour loses by being kept is charged, but to its own entry, where nothing reads it.
   */
  method AdjustNeighbour(cfg: Config, s: SimState, m: Node) returns (st: Status, revert: bool, charge: int)
    requires cfg.Valid() && s.Valid() && s.Has(m)
    modifies m`tasks, m`duty, m`occupancy
    ensures s.Valid() && SameDemand(old(m.tasks), m.tasks)
    ensures st == Ok || st == Abort
    ensures st == Abort <==> 1.0 <= old(m.occupancy) && |old(m.tasks)| != 1
    ensures st == Ok && 1.0 <= old(m.occupancy) ==>
              && |old(m.tasks)| == 1 && |m.tasks| == 1
              && SatAdjusted(cfg, m.kind, m.size, Rivals(cfg, m, s), old(m.tasks[0]), old(m.duty), !revert,
                             m.tasks[0], m.duty, charge)
    ensures old(m.occupancy) < 1.0 ==> charge == 0
    ensures st == Ok && !revert && MonotoneInBatch(cfg) ==> Bounded(cfg, s, m, 1.0 <= old(m.occupancy))
  {
    charge := 0;
    if 1.0 <= m.occupancy {
      st, charge := AdjustSatIn(cfg, s, m);
      revert := st == Fail;
      if st == Fail { st := Ok; }
    } else {
      var ok := AdjustResIn(cfg, s, m);
      st, revert := Ok, !ok;
    }
  }

  /** The largest batch, up to its own, that a placement can run twice in time. */
  ghost predicate LargestTwice(cfg: Config, d: Device, p: int, rivals: seq<Rival>, t: Placement, b: int) {
    && 1 <= b <= t.batch && RunsTwice(cfg, d, p, rivals, t, b)
    && forall c | b < c <= t.batch :: !RunsTwice(cfg, d, p, rivals, t, c)
  }

  /**
   * A saturated neighbour that is kept loses no throughput exactly if the largest batch that runs twice in
   * time gives as much, at the latency it now has; a batch that only just fits keeps the old duty cycle.
   */
  lemma {:induction false} NothingLost(cfg: Config, d: Device, p: int, rivals: seq<Rival>, was: Placement, before: real,
                                       t: Placement, duty: real, charge: int, b: int)
    requires SatAdjusted(cfg, d, p, rivals, was, before, true, t, duty, charge) && LargestTwice(cfg, d, p, rivals, was, b)
    ensures var latency := Latency(cfg, d, was.id, b, p, rivals);
            var turn := if b == was.batch && 2.0 * latency == was.slo as real then before else latency;
            t.throughput >= was.throughput <==> was.throughput * turn <= 1000.0 * b as real
  {
    assert RunsTwice(cfg, d, p, rivals, was, b) && RunsTwice(cfg, d, p, rivals, was, t.batch);
    assert t.batch == b;
    var latency := Latency(cfg, d, was.id, b, p, rivals);
    var turn := if b == was.batch && 2.0 * latency == was.slo as real then before else latency;
    assert t.throughput == Rate(b, turn);
    AtLeast(1000.0 * b as real, turn, was.throughput);
  }

  lemma AtLeast(a: real, b: real, c: real)
    requires 0.0 < b
    ensures a / b >= c <==> c * b <= a
  {
    var q := a / b;
    assert q * b == a;
    assert (q - c) * b == a - c * b;
    if q >= c {
      assert 0.0 <= (q - c) * b;
    } else {
      assert (c - q) * b > 0.0;
    }
  }

  /** A configuration in which a neighbour makes everything twice as slow. */
  function Crowded(): (cfg: Config)
    ensures cfg.Valid()
  {
    Config((d, m, b, p) => 10.0, (m, b) => 0.0, (d, m, b, p, r) => 2.0, 1.0, true, true, 2, [HALF], [("gpu", 1)])
  }

  /**
   * There a model with an SLO of 100 milliseconds fills a part with the largest batch the search gives and serves 3100
   * requests per second. Beside a newcomer it is kept, well in time, and serves 1550.
   */
  lemma NeighbourLosesHalf(rival: Rival)
    ensures var was := Placement(1, 3100, 100, 31, 3100.0);
            && Feasible(Crowded(), "gpu", HALF, [], 1, 100, 31, 3100, false)
            && AloneAt(Crowded(), [], true, "gpu", HALF, [], was, 10.0, 1.0)
            && SatAdjusted(Crowded(), "gpu", HALF, [rival], was, 10.0, true, was.(throughput := 1550.0), 10.0, 1550)
  {
    var was := Placement(1, 3100, 100, 31, 3100.0);
    assert SlowdownUpTo(Crowded(), "gpu", 1, 31, HALF, [rival], 0) == 1.0;
    assert Latency(Crowded(), "gpu", 1, 31, HALF, []) == 10.0 && Latency(Crowded(), "gpu", 1, 31, HALF, [rival]) == 20.0;
    assert Rate(31, 10.0) == 3100.0 && Rate(31, 20.0) == 1550.0;
    assert Answer(Crowded(), "gpu", HALF, [], 1, 100, 3100, false, 31);
    assert Alone(Crowded(), [], "gpu", HALF, HALF, [], was, 10.0, 1.0, 31, 3100);
  }

  /**
   * checkNeedtoRevert for the node `n` just filled. With interference on, a placement that is kept leaves
   * the neighbour of `n` within its bound under the new interference.
   */
  method CheckNeedToRevert(cfg: Config, s: SimState, n: Node) returns (st: Status, revert: bool)
    requires cfg.Valid() && s.Valid() && s.Has(n)
    modifies s.nodes`tasks, s.nodes`duty, s.nodes`occupancy
    ensures s.Valid() && unchanged(n)
    ensures forall m | m in s.nodes :: SameDemand(old(m.tasks), m.tasks)
    ensures !cfg.useInterference ==> forall m | m in s.nodes :: unchanged(m)
    ensures st == Ok || st == Abort
    ensures st == Abort ==> cfg.useInterference
    ensures st == Ok && !revert && cfg.useInterference && MonotoneInBatch(cfg) ==>
              forall m | m in s.NodesAt(n.id) && m != n :: Bounded(cfg, s, m, 1.0 <= old(m.occupancy))
  {
    st, revert := Ok, *;  // the network bandwidth check
    if !cfg.useInterference { return; }
    HasMeans(s, n);
    var nodes := s.gpus[n.id].nodes;
    ghost var other: Node? := null;  // the neighbour, once it is adjusted
    for k := 0 to |nodes|
      invariant s.Valid() && unchanged(n) && st == Ok && s.NodesAt(n.id) == nodes
      invariant forall m | m in s.nodes :: SameDemand(old(m.tasks), m.tasks)
      invariant forall i | 0 <= i < k :: nodes[i] == n || nodes[i] == other
      invariant other == null ==> forall m | m in s.nodes :: unchanged(m)
      invariant other != null ==> other in nodes[..k] && other != n
      invariant other != null && !revert && MonotoneInBatch(cfg) ==> Bounded(cfg, s, other, 1.0 <= old(other.occupancy))
    {
      var m := nodes[k];
      SameMeansEqual(s, m, n);
      if IsSame(m, n) { continue; }
      assert other == null;
      other := m;
      var saturated, late := 1.0 <= m.occupancy, false;
      var charge;
      st, late, charge := AdjustNeighbour(cfg, s, m);
      if st != Ok { return; }
      if late {
        revert := true;
        if saturated { return; }
      }
    }
  }

  /** revertNode: the node is empty again. */
  method RevertNode(s: SimState, n: Node)
    requires s.Valid() && s.Has(n)
    modifies n`tasks, n`duty, n`occupancy
    ensures s.Valid() && n.tasks == []
    ensures forall model :: Supply(s, model) == old(Supply(s, model)) - old(Throughput(n.tasks, model))
  {
    Fill(s, n, [], 0.0, 0.0);
  }

  // ----- readjust -----

  /** Nodes of `s` with nothing to serve. */
  ghost predicate Free(s: SimState, given: set<Node>)
    reads s, given
  {
    forall n | n in given :: s.Has(n) && n.tasks == []
  }

  /** What has joined the worklist is new. */
  twostate predicate OnlyNew(given: set<Node>, new given': set<Node>) {
    forall n {:trigger n in given'} | n in given' && n !in given :: fresh(n)
  }

  /** `whole` are the nodes among `given` that are whole GPUs. */
  ghost predicate IsWhole(given: set<Node>, whole: set<Node>)
    reads given
  {
    forall n | n in given :: n.size == FULL <==> n in whole
  }

  /** The size and batch of the first gpu-let estimated for the rate; the source asserts that there is one. */
  method FirstWish(cfg: Config, table: seq<SatEntry>, kind: Device, m: int, slo: int, rate: int)
    returns (st: Status, size: int, batch: int)
    requires cfg.Valid() && TableOk(cfg, m, table) && TRP_SLACK < rate
    ensures st == Ok || st == Abort
    ensures st == Ok ==> 1 <= size <= FULL && Estimated(cfg, table, kind, size, m, slo, batch)
  {
    var wishes;
    ghost var residue;
    st, wishes, residue := EstimateTrp(cfg, table, kind, m, slo, rate, 0);
    if st == Ok {
      assert wishes[0] in wishes;
      size, batch := wishes[0].size, wishes[0].task.batch;
    } else {
      size, batch := 0, 0;
    }
  }

  /** The batch is one to fill the part with, or there is none yet. */
  ghost predicate Estimated(cfg: Config, table: seq<SatEntry>, d: Device, p: int, m: int, slo: int, batch: int) {
    batch == 0
    || (&& Usable(table, d, p, slo, batch, Latency(cfg, d, m, batch, p, []))
        && exists rate :: 1 <= rate && Sought(cfg, table, d, p, [], m, slo, rate, batch))
  }

  /**
   * A whole GPU is first cut to the size of the first estimated gpu-let. `batch` is the estimated one, for that
   * size, or 0 when nothing was estimated.
   */
  method SizeToCut(cfg: Config, table: seq<SatEntry>, task: Task, n: Node, repartition: bool)
    returns (st: Status, cut: bool, size: int, batch: int)
    requires cfg.Valid() && TableOk(cfg, task.id, table) && TRP_SLACK < task.requestRate
    ensures st == Ok || st == Abort
    ensures cut ==> n.size == FULL && 1 <= size < FULL
    ensures st == Ok ==> Estimated(cfg, table, n.kind, if cut then size else n.size, task.id, task.slo, batch)
  {
    st, cut, size, batch := Ok, false, n.size, 0;
    if n.size == FULL && cfg.usePart && repartition {
      st, size, batch := FirstWish(cfg, table, n.kind, task.id, task.slo, task.requestRate);
      cut := st == Ok && size < FULL;
    }
  }

  /** Cut the whole GPU of `n`; it is whole no longer, and the other part joins the nodes to use. */
  method CutInTwo(s: SimState, given: set<Node>, n: Node, size: int, ghost whole: set<Node>)
    returns (given': set<Node>, ghost m: Node)
    requires IsWhole(given, whole) && s.Valid() && Free(s, given) && n in given && n.size == FULL && 1 <= size < FULL
    modifies s`gpus, s`nodes, n`size
    ensures s.Valid() && Grown(s) && Gained(s, 0, 0.0)
    ensures fresh(m) && given' == given + {m} && s.nodes == old(s.nodes) + {m} && Free(s, given')
    ensures n.size == size && m.size == FULL - size && s.NodesAt(n.id) == [n, m]
    ensures n in whole && IsWhole(given', whole - {n})
  {
    var part := Split(s, n, size);
    m, given' := part, given + {part};
    forall x | x in given' ensures s.Has(x) && x.tasks == [] {
      if x != m && x != n {
        assert old(s.Has(x)) && x.id != n.id ==> s.NodesAt(x.id) == old(s.NodesAt(x.id));
        assert old(s.NodesAt(n.id)) == [n];
      }
    }
  }

  /** Cut `n` if it is to be cut. */
  method CutIf(s: SimState, given: set<Node>, n: Node, cut: bool, size: int, ghost whole: set<Node>) returns (given': set<Node>)
    requires s.Valid() && Free(s, given) && n in given && IsWhole(given, whole)
    requires cut ==> n.size == FULL && 1 <= size < FULL
    modifies s`gpus, s`nodes, n`size
    ensures s.Valid() && Grown(s) && Gained(s, 0, 0.0)
    ensures Free(s, given') && given <= given' && OnlyNew(given, given')
    ensures forall m | m in s.nodes && m !in old(s.nodes) :: m in given'
    ensures IsWhole(given' - {n}, whole - {n})
    ensures n.size == (if cut then size else old(n.size)) && n.kind == old(n.kind)
    ensures given' != given ==> n in whole
  {
    given' := given;
    if cut {
      ghost var m;
      given', m := CutInTwo(s, given, n, size, whole);
    }
  }

  lemma ShareOfRate(i: int, batch: int, duty: real)
    requires 1 <= i <= batch && 0.0 < duty
    ensures i as real / batch as real * Rate(batch, duty) == Rate(i, duty)
  {
    var share, b, rate := i as real / batch as real, batch as real, Rate(batch, duty);
    assert share * b == i as real && rate * duty == 1000.0 * b;
    var left, right := share * rate, Rate(i, duty);
    assert left * duty == share * (rate * duty) == 1000.0 * (share * b);
    assert right * duty == 1000.0 * i as real;
    CancelFactor(left, right, duty);
  }

  /** The network bandwidth check may scale a placement down, or refuse it. */
  method TrimToBandwidth(t: Placement) returns (ok: bool, t': Placement)
    requires Sound(t)
    ensures ok ==> Sound(t') && t' == t.(batch := t'.batch, throughput := t'.throughput)
    ensures ok ==> t'.batch <= t.batch && t'.throughput == t'.batch as real / t.batch as real * t.throughput
    ensures ok ==> forall duty | 0.0 < duty && t.throughput == Rate(t.batch, duty) :: t'.throughput == Rate(t'.batch, duty)
  {
    var i: int := *;
    if !(1 <= i <= t.batch) { return false, t; }
    var share := i as real / t.batch as real;
    PositiveQuotient(i as real, t.batch as real);
    assert 0.0 < share * t.throughput;
    forall duty | 0.0 < duty && t.throughput == Rate(t.batch, duty) ensures share * t.throughput == Rate(i, duty) {
      ShareOfRate(i, t.batch, duty);
    }
    return true, t.(batch := i, throughput := share * t.throughput);
  }

  /** Place `t` on the free node `n` unless memory is short or a neighbour would be late. */
  method TryPlace(cfg: Config, s: SimState, n: Node, t: Placement, duty: real, occupancy: real)
    returns (st: Status, kept: bool)
    requires cfg.Valid() && s.Valid() && s.Has(n) && n.tasks == [] && Sound(t) && 0.0 < duty
    modifies s.nodes`tasks, s.nodes`duty, s.nodes`occupancy
    ensures s.Valid()
    ensures st == Ok || st == Abort
    ensures st == Abort ==> cfg.useInterference && !kept
    ensures if kept then n.tasks == [t] && n.duty == duty && n.occupancy == occupancy else st == Ok ==> n.tasks == []
    ensures forall m | m in s.nodes && m != n :: SameDemand(old(m.tasks), m.tasks)
    ensures !cfg.useInterference ==> forall m | m in s.nodes && m != n :: unchanged(m)
    ensures !cfg.useInterference ==> Gained(s, t.id, if kept then t.throughput else 0.0)
    ensures kept && cfg.useInterference && MonotoneInBatch(cfg) ==>
              forall m | m in s.NodesAt(n.id) && m != n :: Bounded(cfg, s, m, 1.0 <= old(m.occupancy))
  {
    var fits: bool := *;  // the memory check
    if !fits { return Ok, false; }
    HasMeans(s, n);
    FillEmpty(s, n, t, duty, occupancy);
    forall model ensures Throughput([t], model) == Gain(t, model) { ThroughputOfOne(t, model); }
    var revert;
    st, revert := CheckNeedToRevert(cfg, s, n);
    kept := st == Ok && !revert;
    if st == Ok && revert {
      RevertNode(s, n);
    }
  }

  /** A placement of `task` now is all that `n` serves, and the rate dropped by it, rounded down. */
  twostate predicate Served(cfg: Config, table: seq<SatEntry>, task: Task, n: Node)
    reads task, n
  {
    && old(n.tasks) == [] && |n.tasks| == 1 && n.tasks[0].id == task.id
    && n.tasks[0].throughput > (old(task.requestRate) - task.requestRate - 1) as real
    && (!cfg.useInterference ==> AloneOn(cfg, table, true, n, task.id, task.slo))
  }

  /** What placing on `n` has done: `n` serves the task now, or is as empty as it was; nothing else is gained. */
  twostate predicate Used(cfg: Config, table: seq<SatEntry>, s: SimState, task: Task, n: Node, st: Status, kept: bool)
    reads task, n, s, s.nodes
  {
    && (if kept then st == Ok && Served(cfg, table, task, n) else old(task.requestRate) <= task.requestRate)
    && (!kept && st != Abort ==> n.tasks == [])
    && (forall m | m in old(s.nodes) && m in s.nodes && m != n :: SameDemand(old(m.tasks), m.tasks))
    && (!cfg.useInterference ==> st != Abort && forall m | m in old(s.nodes) && m in s.nodes && m != n :: unchanged(m))
  }

  /** What to fill the free node `n` with; `proceed` when the rest of the rate does not fill it. */
  method PlanSaturated(cfg: Config, ghost table: seq<SatEntry>, s: SimState, task: Task, n: Node, estimated: int)
    returns (st: Status, proceed: bool, t: Placement, latency: real)
    requires cfg.Valid() && 1 <= task.requestRate && Estimated(cfg, table, n.kind, n.size, task.id, task.slo, estimated)
    ensures st == Ok || st == Fail
    ensures proceed ==> st == Ok
    ensures st == Ok && !proceed ==> Sound(t) && t.id == task.id && t.slo == task.slo && 0.0 < latency
    ensures st == Ok && !proceed && (estimated == 0 || !cfg.useInterference) ==>
              AloneAt(cfg, table, true, n.kind, n.size, Rivals(cfg, n, s), t, latency, 1.0)
  {
    proceed := false;
    var batch := estimated;
    if batch == 0 {
      var rate;
      batch, rate := GetMaxBatch(cfg, n.kind, n.size, Rivals(cfg, n, s), task.id, task.slo, task.requestRate, false);
      if batch == 0 { batch := 1; }
      assert Sought(cfg, table, n.kind, n.size, Rivals(cfg, n, s), task.id, task.slo, task.requestRate, batch);
    }
    latency := LatencyOn(cfg, n, task.id, batch, s);
    LatencyPositive(cfg, n.kind, task.id, batch, n.size, Rivals(cfg, n, s));
    var throughput := Rate(batch, latency);
    t := Placement(task.id, task.requestRate, task.slo, batch, throughput);
    if task.requestRate as real < throughput { return Ok, true, t, latency; }
    var ok;
    ok, t := TrimToBandwidth(t);
    st := if ok then Ok else Fail;
    if ok && (estimated == 0 || !cfg.useInterference) {
      ghost var rate :| 1 <= rate && Sought(cfg, table, n.kind, n.size, Rivals(cfg, n, s), task.id, task.slo, rate, batch);
      assert Alone(cfg, table, n.kind, n.size, n.size, Rivals(cfg, n, s), t, latency, 1.0, batch, rate);
    }
  }

  /** What to give the free node `n` of the rest of the rate, raised when not even a batch of one fills in time. */
  method PlanResidue(cfg: Config, ghost table: seq<SatEntry>, s: SimState, task: Task, n: Node)
    returns (st: Status, rate: int, t: Placement, duty: real, occupancy: real, ghost batch: int)
    requires cfg.Valid() && 1 <= task.requestRate
    ensures st == Ok || st == Fail
    ensures task.requestRate <= rate
    ensures st == Ok ==>
              && Answer(cfg, n.kind, n.size, Rivals(cfg, n, s), task.id, task.slo, rate, true, batch)
              && t.batch <= batch && duty == batch as real * 1000.0 / rate as real
              && 0.0 < LatencyOn(cfg, n, task.id, t.batch, s)
              && (occupancy <= 1.0 <==> rate as real <= Rate(batch, LatencyOn(cfg, n, task.id, t.batch, s)))
    ensures st == Ok ==> Sound(t) && t.id == task.id && t.slo == task.slo && 0.0 < duty
    ensures st == Ok ==> AloneAt(cfg, table, true, n.kind, n.size, Rivals(cfg, n, s), t, duty, occupancy)
  {
    var found;
    found, rate := GetMaxBatch(cfg, n.kind, n.size, Rivals(cfg, n, s), task.id, task.slo, task.requestRate, true);
    t, duty, occupancy, batch := Placement(task.id, rate, task.slo, found, 0.0), 0.0, 0.0, found;
    if found == 0 { return Fail, rate, t, duty, occupancy, batch; }
    RateOfDuty(found, rate);
    duty := found as real * 1000.0 / rate as real;
    var ok;
    ok, t := TrimToBandwidth(t.(throughput := Rate(found, duty)));
    if !ok { return Fail, rate, t, duty, occupancy, batch; }
    occupancy := LatencyOn(cfg, n, task.id, t.batch, s) / duty;
    TimelyAlone(cfg, table, n.kind, n.size, Rivals(cfg, n, s), t, duty, occupancy, found, rate);
    AtMostFull(cfg, n.kind, n.size, Rivals(cfg, n, s), task.id, task.slo, rate, found, t.batch);
    return Ok, rate, t, duty, occupancy, batch;
  }

  /**
   * A residue for which the search answers `b` at `rate`, of which `k` are served, keeps its part busy no more than all
   * the time exactly if the rate is no more than batches of `b` run back to back serve, each in the time one of `k`
   * takes. With latency growing in the batch it is enough to compare before anything is trimmed.
   */
  lemma AtMostFull(cfg: Config, d: Device, p: int, rivals: seq<Rival>, m: int, slo: int, rate: int, b: int, k: int)
    requires cfg.Valid() && 1 <= rate && Answer(cfg, d, p, rivals, m, slo, rate, true, b) && 1 <= k <= b
    ensures var latency, duty := Latency(cfg, d, m, k, p, rivals), b as real * 1000.0 / rate as real;
            0.0 < latency && 0.0 < duty && (latency / duty <= 1.0 <==> rate as real <= Rate(b, latency))
    ensures var whole := Latency(cfg, d, m, b, p, rivals);
            && 0.0 < whole
            && (MonotoneInBatch(cfg) && rate as real <= Rate(b, whole) ==> rate as real <= Rate(b, Latency(cfg, d, m, k, p, rivals)))
  {
    LatencyPositive(cfg, d, m, k, p, rivals);
    LatencyPositive(cfg, d, m, b, p, rivals);
    RateOfDuty(b, rate);
    SlowerThanDuty(Latency(cfg, d, m, k, p, rivals), b as real * 1000.0 / rate as real, b);
    if MonotoneInBatch(cfg) {
      FasterServesMore(b, Latency(cfg, d, m, k, p, rivals), Latency(cfg, d, m, b, p, rivals));
    }
  }

  lemma FasterServesMore(b: int, fast: real, slow: real)
    requires 1 <= b && 0.0 < fast <= slow
    ensures Rate(b, slow) <= Rate(b, fast)
  {
    var x := Rate(b, slow);
    assert x * slow == 1000.0 * b as real;
    assert 0.0 <= x * (slow - fast);
    AtLeast(1000.0 * b as real, fast, x);
  }

  /** Seen from the placement: it fills its part, or serves no more than such batches, one after the other, would. */
  lemma AtMostBusy(cfg: Config, table: seq<SatEntry>, d: Device, p: int, rivals: seq<Rival>, t: Placement, duty: real, occupancy: real)
    requires cfg.Valid() && AloneAt(cfg, table, true, d, p, rivals, t, duty, occupancy)
    ensures var latency := Latency(cfg, d, t.id, t.batch, p, rivals);
            0.0 < latency && (occupancy <= 1.0 <==> occupancy == 1.0 || t.throughput <= Rate(t.batch, latency))
  {
    LatencyPositive(cfg, d, t.id, t.batch, p, rivals);
    var latency := Latency(cfg, d, t.id, t.batch, p, rivals);
    if occupancy != 1.0 {
      SlowerThanDuty(latency, duty, t.batch);
    }
  }

  lemma SlowerThanDuty(latency: real, duty: real, b: int)
    requires 0.0 < latency && 0.0 < duty && 1 <= b
    ensures latency / duty <= 1.0 <==> Rate(b, duty) <= Rate(b, latency)
  {
    var x, q := Rate(b, duty), latency / duty;
    assert q * duty == latency && x * duty == 1000.0 * b as real;
    AtLeast(1000.0 * b as real, latency, x);
    assert x * (duty - latency) == 1000.0 * b as real - x * latency;
    if latency <= duty {
      QuotientAtMost(latency, duty, 1.0);
      assert 0.0 <= x * (duty - latency);
    } else {
      assert 0.0 < x * (latency - duty);
      AtLeast(latency, duty, 1.0);
      ProductAtMostOne(q, duty);
    }
  }

  lemma ProductAtMostOne(q: real, duty: real)
    requires 0.0 < duty && duty < q * duty
    ensures 1.0 < q
  {
    assert 0.0 < (q - 1.0) * duty;
    PositiveFactor(q - 1.0, duty);
  }

  /** A configuration in which a batch takes 10 milliseconds and a tenth for each request. */
  function Tight(): (cfg: Config)
    ensures cfg.Valid()
  {
    Config((d, m, b, p) => if b < 0 then 10.0 else 10.0 + b as real / 10.0, (m, b) => 0.0, (d, m, b, p, r) => 1.0, 1.0, false, true, 2,
           [HALF], [("gpu", 1)])
  }

  /**
   * There a model with an SLO of 26 milliseconds and 2300 requests per second is less than what fills a part, 30 each 13
   * milliseconds. The residue search gives it batches of 29, which come in faster than they are served.
   */
  lemma ResidueOvercommits()
    ensures var t, duty := Placement(1, 2300, 26, 29, 2300.0), 29000.0 / 2300.0;
            && Feasible(Tight(), "gpu", HALF, [], 1, 26, 29, 2300, true) && !Feasible(Tight(), "gpu", HALF, [], 1, 26, 30, 2300, true)
            && Feasible(Tight(), "gpu", HALF, [], 1, 26, 30, 2300, false) && 2300.0 < Rate(30, Latency(Tight(), "gpu", 1, 30, HALF, []))
            && AloneAt(Tight(), [], true, "gpu", HALF, [], t, duty, 12.9 / duty) && 1.0 < 12.9 / duty
  {
    var t, duty := Placement(1, 2300, 26, 29, 2300.0), 29000.0 / 2300.0;
    assert Latency(Tight(), "gpu", 1, 29, HALF, []) == 12.9 && Latency(Tight(), "gpu", 1, 30, HALF, []) == 13.0;
    assert Answer(Tight(), "gpu", HALF, [], 1, 26, 2300, true, 29);
    assert Alone(Tight(), [], "gpu", HALF, HALF, [], t, duty, 12.9 / duty, 29, 2300);
  }

  /** What to use the free node `n` for, to the full or for the rest of the rate; `rate` is the rate, raised if need be. */
  method PlanUse(cfg: Config, ghost table: seq<SatEntry>, s: SimState, task: Task, n: Node, estimated: int, residue: bool)
    returns (st: Status, proceed: bool, rate: int, t: Placement, duty: real, occupancy: real)
    requires cfg.Valid() && s.Valid() && 1 <= task.requestRate
    requires Estimated(cfg, table, n.kind, n.size, task.id, task.slo, estimated)
    ensures s.Valid() && Gained(s, task.id, 0.0)
    ensures st == Ok || st == Fail
    ensures task.requestRate <= rate && (proceed ==> st == Ok && !residue)
    ensures st == Ok && !proceed ==> Sound(t) && t.id == task.id && t.slo == task.slo && 0.0 < duty
    ensures st == Ok && !proceed && (residue || estimated == 0 || !cfg.useInterference) ==>
              AloneAt(cfg, table, true, n.kind, n.size, Rivals(cfg, n, s), t, duty, occupancy)
  {
    if residue {
      proceed := false;
      ghost var batch;
      st, rate, t, duty, occupancy, batch := PlanResidue(cfg, table, s, task, n);
    } else {
      rate, occupancy := task.requestRate, 1.0;
      st, proceed, t, duty := PlanSaturated(cfg, table, s, task, n, estimated);
    }
  }

  /** TryPlace; for a residue the duty cycle and the occupancy are written first. */
  method PlaceOnFree(cfg: Config, s: SimState, n: Node, residue: bool, t: Placement, duty: real, occupancy: real)
    returns (st: Status, kept: bool)
    requires cfg.Valid() && s.Valid() && s.Has(n) && n.tasks == [] && Sound(t) && 0.0 < duty
    modifies s.nodes`tasks, s.nodes`duty, s.nodes`occupancy
    ensures s.Valid()
    ensures st == Ok || st == Abort
    ensures st == Abort ==> cfg.useInterference && !kept
    ensures if kept then n.tasks == [t] && n.duty == duty && n.occupancy == occupancy else st == Ok ==> n.tasks == []
    ensures forall m | m in s.nodes && m != n :: SameDemand(old(m.tasks), m.tasks)
    ensures !cfg.useInterference ==> forall m | m in s.nodes && m != n :: unchanged(m)
    ensures !cfg.useInterference ==> Gained(s, t.id, if kept then t.throughput else 0.0)
  {
    HasMeans(s, n);
    if residue { Fill(s, n, [], duty, occupancy); }
    st, kept := TryPlace(cfg, s, n, t, duty, occupancy);
  }

  /** The rate left once `throughput` is taken off it; a residue may serve more than the rate. */
  function RateLeft(residue: bool, rate: int, throughput: real): (r: int)
    ensures 0.0 <= throughput ==> throughput > (rate - r - 1) as real
  {
    if residue && rate as real < throughput then 0 else Trunc(rate as real - throughput)
  }

  /** Either use of the free node `n`. */
  method UseNode(cfg: Config, ghost table: seq<SatEntry>, s: SimState, task: Task, n: Node, estimated: int, residue: bool)
    returns (st: Status, proceed: bool, kept: bool)
    requires cfg.Valid() && s.Valid() && s.Has(n) && n in s.nodes && n.tasks == [] && 1 <= task.requestRate
    requires Estimated(cfg, table, n.kind, n.size, task.id, task.slo, estimated)
    modifies s.nodes`tasks, s.nodes`duty, s.nodes`occupancy, task`requestRate
    ensures s.Valid() && Used(cfg, table, s, task, n, st, kept)
    ensures !cfg.useInterference ==> Gained(s, task.id, if kept && |n.tasks| == 1 then n.tasks[0].throughput else 0.0)
    ensures proceed ==> !residue && !kept
  {
    var rate, t, duty, occupancy;
    st, proceed, rate, t, duty, occupancy := PlanUse(cfg, table, s, task, n, estimated, residue);
    if st == Ok && !proceed {
      st, kept := PlaceOnFree(cfg, s, n, residue, t, duty, occupancy);
    } else {
      kept := false;
      assert Gained(s, task.id, 0.0);
    }
    SetRate(s, task, if kept then RateLeft(residue, rate, t.throughput) else rate);
  }

  /** Using one node of the worklist leaves the others free. */
  method UseFree(cfg: Config, ghost table: seq<SatEntry>, s: SimState, task: Task, n: Node, estimated: int, residue: bool,
                 ghost given: set<Node>, ghost whole: set<Node>)
    returns (st: Status, proceed: bool, kept: Node?)
    requires cfg.Valid() && s.Valid() && Free(s, given) && n in given && 1 <= task.requestRate
    requires Estimated(cfg, table, n.kind, n.size, task.id, task.slo, estimated)
    requires IsWhole(given - {n}, whole)
    modifies s.nodes`tasks, s.nodes`duty, s.nodes`occupancy, task`requestRate
    ensures s.Valid() && IsWhole(given - {n}, whole)
    ensures st == Ok ==> Free(s, if proceed then given else given - {n})
    ensures st != Abort ==> forall m | m in given && m != kept :: m.tasks == []
    ensures proceed ==> !residue && kept == null
    ensures if kept != null then kept == n && n in s.nodes && Served(cfg, table, task, n) else old(task.requestRate) <= task.requestRate
    ensures forall m | m in s.nodes && m != n :: SameDemand(old(m.tasks), m.tasks)
    ensures !cfg.useInterference ==> st != Abort && forall m | m in s.nodes && m != n :: unchanged(m)
    ensures !cfg.useInterference ==> Gained(s, task.id, if kept != null then kept.tasks[0].throughput else 0.0)
  {
    HasMeans(s, n);
    var filled;
    forall m | m in given ensures m in s.nodes { HasMeans(s, m); }
    st, proceed, filled := UseNode(cfg, table, s, task, n, estimated, residue);
    kept := if filled then n else null;
  }

  /** Nodes other than those in `given` keep what they serve; without interference nothing about them changes. */
  twostate predicate Framed(cfg: Config, s: SimState, given: set<Node>)
    reads s, s.nodes
  {
    forall m | m in old(s.nodes) && m in s.nodes && m !in given ::
      SameDemand(old(m.tasks), m.tasks) && (!cfg.useInterference ==> unchanged(m))
  }

  /** Of the nodes in `given` and of those that joined the cluster, only those in `placed` serve anything. */
  twostate predicate RestEmpty(s: SimState, given: set<Node>, new placed: seq<Node>)
    reads s, s.nodes
  {
    forall m | m in s.nodes && (m in given || m !in old(s.nodes)) && m !in placed :: m.tasks == []
  }

  /** Of these nodes, none but `kept` serves anything. */
  twostate predicate EmptyBut(s: SimState, given: set<Node>, new kept: Node?)
    reads s, s.nodes
  {
    forall m | m in s.nodes && (m in given || m !in old(s.nodes)) && m != kept :: m.tasks == []
  }

  /** Body of both loops of readjust: cut and use one node of the worklist. */
  method UseOne(cfg: Config, table: seq<SatEntry>, s: SimState, task: Task, given: set<Node>, repartition: bool,
                residue: bool, ghost whole: set<Node>)
    returns (st: Status, proceed: bool, given': set<Node>, kept: Node?, ghost whole': set<Node>)
    requires cfg.Valid() && s.Valid() && TableOk(cfg, task.id, table)
    requires Free(s, given) && given != {} && IsWhole(given, whole) && TRP_SLACK < task.requestRate
    modifies s`gpus, s`nodes, s.nodes, task`requestRate
    ensures s.Valid() && Grown(s) && Framed(cfg, s, given)
    ensures st == Ok ==> Free(s, given') && OnlyNew(given, given')
    ensures st == Ok && !proceed ==> IsWhole(given', whole') && (whole' < whole || (whole' == whole && given' < given))
    ensures if kept != null then kept in given && kept in s.nodes && Served(cfg, table, task, kept)
            else old(task.requestRate) <= task.requestRate
    ensures st != Abort || !cfg.useInterference ==> EmptyBut(s, given, kept)
    ensures !cfg.useInterference ==> Gained(s, task.id, if kept != null then kept.tasks[0].throughput else 0.0)
    ensures proceed ==> !residue && kept == null
  {
    var n :| n in given;  // the device type wished for decides which
    kept, proceed, given', whole' := null, false, given, whole - {n};
    var cut, size, batch;
    st, cut, size, batch := SizeToCut(cfg, table, task, n, repartition);
    assert Gained(s, task.id, 0.0);
    if st == Ok {
      st, proceed, given', kept := CutAndUse(cfg, table, s, task, given, n, cut, size, batch, residue, whole);
    }
  }

  /** Cut `n` if it is to be cut, and use it. */
  method CutAndUse(cfg: Config, ghost table: seq<SatEntry>, s: SimState, task: Task, given: set<Node>, n: Node, cut: bool,
                   size: int, batch: int, residue: bool, ghost whole: set<Node>)
    returns (st: Status, proceed: bool, given': set<Node>, kept: Node?)
    requires cfg.Valid() && s.Valid() && Free(s, given) && n in given && IsWhole(given, whole)
    requires 1 <= task.requestRate && (cut ==> n.size == FULL && 1 <= size < FULL)
    requires Estimated(cfg, table, n.kind, if cut then size else n.size, task.id, task.slo, batch)
    modifies s`gpus, s`nodes, s.nodes, task`requestRate
    ensures s.Valid() && Grown(s) && Framed(cfg, s, given)
    ensures st == Ok ==> Free(s, given') && OnlyNew(given, given')
    ensures st == Ok && !proceed ==>
              IsWhole(given', whole - {n}) && (whole - {n} < whole || (whole - {n} == whole && given' < given))
    ensures if kept != null then kept in given && kept in s.nodes && Served(cfg, table, task, kept)
            else old(task.requestRate) <= task.requestRate
    ensures st != Abort || !cfg.useInterference ==> EmptyBut(s, given, kept)
    ensures !cfg.useInterference ==> Gained(s, task.id, if kept != null then kept.tasks[0].throughput else 0.0)
    ensures proceed ==> !residue && kept == null
  {
    HasMeans(s, n);
    given' := CutIf(s, given, n, cut, size, whole);
    st, proceed, kept := UseFree(cfg, table, s, task, n, batch, residue, given', whole - {n});
    OneLess(given, given', whole, n);
    if !proceed { given' := given' - {n}; }
  }

  /** The worklist may grow only when a whole GPU leaves it. */
  lemma OneLess(given: set<Node>, given': set<Node>, whole: set<Node>, n: Node)
    requires n in given && given <= given' && (given' != given ==> n in whole)
    ensures whole - {n} < whole || (whole - {n} == whole && given' - {n} < given)
  {
    if n in whole {
      assert n !in whole - {n};
    } else {
      assert n !in given - {n} && whole - {n} == whole;
    }
  }

  /** UseOne with the account carried along. */
  method UseAndAccount(cfg: Config, table: seq<SatEntry>, s: SimState, task: Task, given: set<Node>, repartition: bool,
                       residue: bool, ghost whole: set<Node>,
                       ghost entry: int, ghost placed: seq<Node>, ghost amounts: seq<real>)
    returns (st: Status, proceed: bool, given': set<Node>, ghost whole': set<Node>,
             ghost placed': seq<Node>, ghost amounts': seq<real>)
    requires cfg.Valid() && s.Valid() && TableOk(cfg, task.id, table)
    requires Free(s, given) && given != {} && IsWhole(given, whole) && TRP_SLACK < task.requestRate
    requires PlacedOn(s, task.id, placed)
    requires !cfg.useInterference ==>
               && Accounted(s, task.id, entry, task.requestRate, placed, amounts)
               && AllAlone(cfg, table, true, placed, task.id, task.slo)
    modifies s`gpus, s`nodes, s.nodes, task`requestRate
    ensures s.Valid() && Grown(s) && Framed(cfg, s, given)
    ensures st == Ok ==> Free(s, given') && OnlyNew(given, given')
    ensures st == Ok && !proceed ==> IsWhole(given', whole') && (whole' < whole || (whole' == whole && given' < given))
    ensures proceed ==> !residue
    ensures PlacedOn(s, task.id, placed') && (forall n | n in placed :: n in placed')
    ensures forall n | n in placed' && n !in placed :: n in given
    ensures st != Abort || !cfg.useInterference ==> RestEmpty(s, given, placed')
    ensures !cfg.useInterference ==>
              && Accounted(s, task.id, entry, task.requestRate, placed', amounts')
              && Gained(s, task.id, SumOf(amounts') - SumOf(amounts)) && AllAlone(cfg, table, true, placed', task.id, task.slo)
  {
    var kept;
    placed', amounts' := placed, amounts;
    st, proceed, given', kept, whole' := UseOne(cfg, table, s, task, given, repartition, residue, whole);
    forall n | n in placed
      ensures n !in given && n in s.nodes && |n.tasks| == 1 && n.tasks[0].id == task.id
      ensures !cfg.useInterference ==> n.tasks == old(n.tasks)
    {
      assert old(|n.tasks|) == 1 && SameDemand(old(n.tasks), n.tasks);
    }
    if kept != null {
      if cfg.useInterference {
        placed' := placed + [kept];
      } else {
        placed', amounts' := OneMorePlaced(s, task.id, placed, amounts, kept);
      }
    }
  }

  /** Either loop of readjust over the worklist; `residue` tells which. */
  method UseNodes(cfg: Config, table: seq<SatEntry>, s: SimState, task: Task, given: set<Node>, repartition: bool,
                  residue: bool, ghost entry: int, ghost placed: seq<Node>, ghost amounts: seq<real>)
    returns (st: Status, proceed: bool, left: set<Node>, ghost placed': seq<Node>, ghost amounts': seq<real>)
    requires cfg.Valid() && s.Valid() && TableOk(cfg, task.id, table) && Free(s, given) && task.additionalRate == 0
    requires PlacedOn(s, task.id, placed)
    requires !cfg.useInterference ==>
               && Accounted(s, task.id, entry, task.requestRate, placed, amounts)
               && AllAlone(cfg, table, true, placed, task.id, task.slo)
    modifies s`gpus, s`nodes, s.nodes, task`requestRate
    ensures s.Valid() && Grown(s) && Framed(cfg, s, given)
    ensures st == Ok ==> Free(s, left) && OnlyNew(given, left)
    ensures st == Ok && !proceed ==> task.requestRate <= TRP_SLACK || left == {}
    ensures proceed ==> !residue
    ensures PlacedOn(s, task.id, placed') && (forall n | n in placed :: n in placed')
    ensures forall n | n in placed' && n !in placed :: n in given || fresh(n)
    ensures st != Abort || !cfg.useInterference ==> RestEmpty(s, given, placed')
    ensures !cfg.useInterference ==>
              && Accounted(s, task.id, entry, task.requestRate, placed', amounts')
              && Gained(s, task.id, SumOf(amounts') - SumOf(amounts)) && AllAlone(cfg, table, true, placed', task.id, task.slo)
  {
    st, proceed, left, placed', amounts' := Ok, false, given, placed, amounts;
    ghost var whole := set n | n in given && n.size == FULL;
    while st == Ok && !proceed && TRP_SLACK < task.requestRate + task.additionalRate && left != {}
      invariant s.Valid() && Grown(s) && Framed(cfg, s, given)
      invariant st == Ok ==> Free(s, left) && OnlyNew(given, left)
      invariant st == Ok && !proceed ==> IsWhole(left, whole)
      invariant proceed ==> !residue
      invariant PlacedOn(s, task.id, placed') && (forall n | n in placed :: n in placed')
      invariant forall n | n in placed' && n !in placed :: n in given || fresh(n)
      invariant st != Abort || !cfg.useInterference ==> RestEmpty(s, given, placed')
      invariant !cfg.useInterference ==>
                  && Accounted(s, task.id, entry, task.requestRate, placed', amounts')
                  && Gained(s, task.id, SumOf(amounts') - SumOf(amounts)) && AllAlone(cfg, table, true, placed', task.id, task.slo)
      decreases st == Ok && !proceed, whole, left
    {
      st, proceed, left, whole, placed', amounts' :=
        UseAndAccount(cfg, table, s, task, left, repartition, residue, whole, entry, placed', amounts');
    }
  }

  /** First nodes filled to the brim, then residue nodes. */
  method UseBothWays(cfg: Config, table: seq<SatEntry>, s: SimState, task: Task, given: set<Node>, repartition: bool,
                     ghost entry: int)
    returns (st: Status, ghost placed: seq<Node>, ghost amounts: seq<real>)
    requires cfg.Valid() && s.Valid() && TableOk(cfg, task.id, table) && Free(s, given) && task.additionalRate == 0
    requires !cfg.useInterference ==> entry == task.requestRate
    modifies s`gpus, s`nodes, s.nodes, task`requestRate
    ensures s.Valid() && Grown(s) && Framed(cfg, s, given)
    ensures PlacedOn(s, task.id, placed) && forall n | n in placed :: n in given || fresh(n)
    ensures st != Abort || !cfg.useInterference ==> RestEmpty(s, given, placed)
    ensures !cfg.useInterference ==>
              && Accounted(s, task.id, entry, task.requestRate, placed, amounts) && Gained(s, task.id, SumOf(amounts))
              && AllAlone(cfg, table, true, placed, task.id, task.slo)
  {
    placed, amounts := [], [];
    var proceed, left;
    st, proceed, left, placed, amounts := UseNodes(cfg, table, s, task, given, repartition, false, entry, placed, amounts);
    if st == Ok && proceed {
      st, proceed, left, placed, amounts := UseNodes(cfg, table, s, task, left, repartition, true, entry, placed, amounts);
    }
  }

  /**
   * readjust: fill free nodes while the rate fills them, then give the rest to residue nodes. Only the nodes
   * given, and parts cut off them, are used. Without interference the throughput newly placed on them makes up
   * for the drop of the rate, less one request per second for each node, so success means all but the slack of
   * the rate at entry; and no other node is touched.
   */
  method Readjust(cfg: Config, table: seq<SatEntry>, s: SimState, task: Task, given: set<Node>, repartition: bool)
    returns (st: Status, ghost placed: seq<Node>, ghost amounts: seq<real>)
    requires cfg.Valid() && s.Valid() && TableOk(cfg, task.id, table) && Free(s, given)
    requires !cfg.useInterference ==> task.additionalRate == 0
    modifies s`gpus, s`nodes, s.nodes, task`requestRate, task`additionalRate
    ensures s.Valid() && Grown(s) && Framed(cfg, s, given)
    ensures task.additionalRate == 0
    ensures st == Ok ==> task.requestRate <= TRP_SLACK
    ensures PlacedOn(s, task.id, placed) && forall n | n in placed :: n in given || fresh(n)
    ensures st != Abort || !cfg.useInterference ==> RestEmpty(s, given, placed)
    ensures !cfg.useInterference ==>
              && Accounted(s, task.id, old(task.requestRate), task.requestRate, placed, amounts)
              && Gained(s, task.id, SumOf(amounts)) && AllAlone(cfg, table, true, placed, task.id, task.slo)
    ensures !cfg.useInterference && st == Ok ==>
              SumOf(amounts) >= (old(task.requestRate) - TRP_SLACK - |placed|) as real
  {
    if cfg.useInterference {
      task.requestRate := task.requestRate + task.additionalRate;
      task.additionalRate := 0;
    }
    ghost var entry := task.requestRate;
    st, placed, amounts := UseBothWays(cfg, table, s, task, given, repartition, entry);
    if st == Ok && TRP_SLACK < task.requestRate { st := Fail; }
  }
}
