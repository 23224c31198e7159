// Placing wished gpu-lets on nodes, cutting whole GPUs in two on the way (allocateFit).
module Fitting {
  import opened Cluster
  import opened Performance
  import opened Rounding
  import opened BatchSearch
  import opened Adjust
  import opened Estimation
  import opened Allocation
  import opened Accounts

  // ----- changes of the graph that keep the cluster valid -----

  /** The cluster keeps its GPUs and the nodes on them; the nodes that join it are new. */
  twostate predicate Grown(s: SimState)
    reads s, s.nodes
  {
    && |s.gpus| == |old(s.gpus)| && old(s.nodes) <= s.nodes
    && (forall n {:trigger n in s.nodes} | n in s.nodes && n !in old(s.nodes) :: fresh(n))
    && forall n | n in old(s.nodes) :: s.Has(n) <==> old(s.Has(n))
  }

  /** The cluster keeps its GPUs; the nodes that join it are new, and none that has left them comes back. */
  twostate predicate Reshaped(s: SimState)
    reads s, s.nodes
  {
    && |s.gpus| == |old(s.gpus)| && old(s.nodes) <= s.nodes
    && (forall n {:trigger n in s.nodes} | n in s.nodes && n !in old(s.nodes) :: fresh(n))
    && forall n | n in old(s.nodes) && s.Has(n) :: old(s.Has(n))
  }

  /** Cut the whole GPU of `n` into `size` percent for `n` and the rest for a new empty node. */
  method Split(s: SimState, n: Node, size: int) returns (m: Node)
    requires s.Valid() && s.Has(n) && n.size == FULL && 1 <= size < FULL
    modifies s`gpus, s`nodes, n`size
    ensures s.Valid() && fresh(m) && s.nodes == old(s.nodes) + {m}
    ensures old(s.NodesAt(n.id)) == [n] && n.size == size && m.size == FULL - size && m.tasks == [] && m.id == n.id && m.kind == n.kind
    ensures Grown(s) && s.NodesAt(n.id) == [n, m]
    ensures forall i | 0 <= i < |s.gpus| && i != n.id :: s.gpus[i] == old(s.gpus[i])
    ensures forall model :: Supply(s, model) == old(Supply(s, model))
  {
    HasMeans(s, n);
    assert s.gpus[n.id].nodes == [n];
    m := CutOff(s, n, size);
    forall i | 0 <= i < |s.gpus| && i != n.id ensures GpuOk(s.gpus[i]) && n !in s.gpus[i].nodes {
      assert old(GpuOk(s.gpus[i]));
    }
    Attach(s, n, m);
  }

  /** Put the other part of the GPU beside `n`; the other GPUs are legal as they are. */
  method Attach(s: SimState, n: Node, m: Node)
    requires Closed(s) && 0 <= n.id < |s.gpus| && s.gpus[n.id].nodes == [n] && m.tasks == [] && n.Valid()
    requires n.id == m.id == s.gpus[n.id].id && n.kind == m.kind == s.gpus[n.id].kind
    requires 1 <= n.size < FULL && m.size == FULL - n.size && n.dedup == 0 && m.dedup == if n.size == HALF then 1 else 0
    requires forall i | 0 <= i < |s.gpus| && i != n.id :: s.gpus[i].id == i && GpuOk(s.gpus[i])
    modifies s`gpus, s`nodes
    ensures s.Valid() && s.gpus == old(s.gpus)[n.id := old(s.gpus[n.id]).(nodes := [n, m])] && s.nodes == old(s.nodes) + {m}
    ensures forall model :: Supply(s, model) == old(Supply(s, model))
  {
    Add(s, n, m);
    assert GpuOk(s.gpus[n.id]);
  }

  /** The part cut off `n` as a node of its own, not yet in the cluster. */
  method CutOff(s: SimState, n: Node, size: int) returns (m: Node)
    requires s.Valid() && 1 <= size < FULL
    modifies n`size
    ensures fresh(m) && m.tasks == [] && m.id == n.id && m.kind == n.kind && m.size == FULL - size && n.size == size
    ensures m.dedup == if size == HALF then 1 else 0
    ensures forall model :: Supply(s, model) == old(Supply(s, model))
  {
    m := new Node.Empty(n.id, FULL - size, n.kind);
    if size == HALF { m.dedup := 1; }
    n.size := size;
  }

  /** Put `m` beside `n`; with nothing on it, it adds nothing to what any model is served. */
  method Add(s: SimState, n: Node, m: Node)
    requires Closed(s) && 0 <= n.id < |s.gpus| && s.gpus[n.id].nodes == [n] && m.tasks == []
    ensures Closed(s)
    modifies s`gpus, s`nodes
    ensures s.gpus == old(s.gpus)[n.id := old(s.gpus[n.id]).(nodes := [n, m])] && s.nodes == old(s.nodes) + {m}
    ensures forall model :: Supply(s, model) == old(Supply(s, model))
  {
    ghost var was := LoadsOf(s);
    SupplyAsSeen(s, was);
    assert was[n.id] == [n.tasks] by {
      assert was[n.id][0] == s.gpus[n.id].nodes[0].tasks;
    }
    s.gpus := s.gpus[n.id := s.gpus[n.id].(nodes := [n, m])];
    s.nodes := s.nodes + {m};
    ghost var now := was[n.id := [n.tasks, []]];
    assert Seen(s, now);
    SupplyAsSeen(s, now);
    EmptyMoved(was, now, n.id);
  }

  /** What runs on a node may change as long as it serves each model once. */
  method Fill(s: SimState, n: Node, tasks: seq<Placement>, duty: real, occupancy: real)
    requires s.Valid() && s.Has(n) && Serves(tasks, duty)
    modifies n`tasks, n`duty, n`occupancy
    ensures s.Valid()
    ensures n.tasks == tasks && n.duty == duty && n.occupancy == occupancy
    ensures forall model ::
              Supply(s, model) == old(Supply(s, model)) - old(Throughput(n.tasks, model)) + Throughput(tasks, model)
  {
    Write(s, n, tasks, duty, occupancy);
    forall i | 0 <= i < |s.gpus| ensures GpuOk(s.gpus[i]) && forall m | m in s.gpus[i].nodes :: m in s.nodes {
      assert old(GpuOk(s.gpus[i]));
    }
  }

  /** The totals follow what is written on a node. */
  method Write(s: SimState, n: Node, tasks: seq<Placement>, duty: real, occupancy: real)
    requires s.Valid() && s.Has(n)
    modifies n`tasks, n`duty, n`occupancy
    ensures n.tasks == tasks && n.duty == duty && n.occupancy == occupancy
    ensures forall model ::
              Supply(s, model) == old(Supply(s, model)) - old(Throughput(n.tasks, model)) + Throughput(tasks, model)
  {
    ghost var was := LoadsOf(s);
    SupplyAsSeen(s, was);
    ghost var now := Foreseen(s, was, n, tasks);
    WriteAs(s, n, tasks, duty, occupancy, now);
    SupplyAsSeen(s, now);
  }

  /** What is written on a node is seen there. */
  method WriteAs(s: SimState, n: Node, tasks: seq<Placement>, duty: real, occupancy: real, ghost now: Loads)
    requires Closed(s) && ForeseenAs(s, now, n, tasks)
    modifies n`tasks, n`duty, n`occupancy
    ensures n.tasks == tasks && n.duty == duty && n.occupancy == occupancy && Seen(s, now)
  {
    n.tasks, n.duty, n.occupancy := tasks, duty, occupancy;
  }

  /** The loads as they are, but with `tasks` on `n`. */
  ghost predicate ForeseenAs(s: SimState, now: Loads, n: Node, tasks: seq<Placement>)
    reads s, s.nodes
  {
    && |now| == |s.gpus| && (forall i | 0 <= i < |s.gpus| :: |now[i]| == |s.gpus[i].nodes|)
    && forall i, j | 0 <= i < |s.gpus| && 0 <= j < |s.gpus[i].nodes| ::
         s.gpus[i].nodes[j] in s.nodes && now[i][j] == if s.gpus[i].nodes[j] == n then tasks else s.gpus[i].nodes[j].tasks
  }

  /** A node has one place in the cluster. */
  lemma Place(s: SimState, n: Node) returns (k: nat)
    requires s.Valid() && s.Has(n)
    ensures 0 <= n.id < |s.gpus| && k < |s.gpus[n.id].nodes| && s.gpus[n.id].nodes[k] == n
    ensures forall i, j | 0 <= i < |s.gpus| && 0 <= j < |s.gpus[i].nodes| :: s.gpus[i].nodes[j] == n <==> i == n.id && j == k
  {
    HasMeans(s, n);
    var nodes := s.gpus[n.id].nodes;
    k :| 0 <= k < |nodes| && nodes[k] == n;
    forall i, j | 0 <= i < |s.gpus| && 0 <= j < |s.gpus[i].nodes| && s.gpus[i].nodes[j] == n
      ensures i == n.id && j == k
    {
      assert GpuOk(s.gpus[i]) && n in s.gpus[i].nodes;
    }
  }

  /** The loads with `tasks` on `n`. */
  lemma Foreseen(s: SimState, was: Loads, n: Node, tasks: seq<Placement>) returns (now: Loads)
    requires s.Valid() && s.Has(n) && Seen(s, was)
    ensures ForeseenAs(s, now, n, tasks)
    ensures forall model ::
              LoadsUpTo(now, model, |now|) == LoadsUpTo(was, model, |was|) - Throughput(n.tasks, model) + Throughput(tasks, model)
  {
    var k := Place(s, n);
    now := was[n.id := was[n.id][k := tasks]];
    OneMoved(was, now, n.id, k);
  }

  /** Put one placement on an empty node. */
  method FillEmpty(s: SimState, n: Node, t: Placement, duty: real, occupancy: real)
    requires s.Valid() && s.Has(n) && n.tasks == [] && Sound(t) && 0.0 < duty
    modifies n`tasks, n`duty, n`occupancy
    ensures s.Valid()
    ensures n.tasks == [t] && n.duty == duty && n.occupancy == occupancy
    ensures forall model :: Supply(s, model) == old(Supply(s, model)) + Gain(t, model)
  {
    forall model ensures Throughput([t], model) == Gain(t, model) { ThroughputOfOne(t, model); }
    Fill(s, n, [t], duty, occupancy);
  }

  // ----- allocateFit -----

  /** On a part larger than wished, batch, duty cycle and occupancy are computed anew for that part. */
  method Refit(cfg: Config, ghost table: seq<SatEntry>, s: SimState, w: Wish, size: int) returns (ok: bool, w': Wish)
    requires cfg.Valid() && Sound(w.task) && 1 <= w.task.requestRate
    ensures ok ==>
              && w'.kind == w.kind && w'.size == size && w'.task.id == w.task.id && w'.task.slo == w.task.slo && Sound(w'.task)
              && Alone(cfg, table, w.kind, size, size, RivalsOf(cfg, View(w.id, size, 0, [w.task]), s), w'.task, w'.duty, w'.occupancy,
                       w'.task.batch, w'.task.requestRate)
              && w.task.requestRate <= w'.task.requestRate
  {
    ok, w' := Replan(cfg, table, w, size, RivalsOf(cfg, View(w.id, size, 0, [w.task]), s));
  }

  method Replan(cfg: Config, ghost table: seq<SatEntry>, w: Wish, size: int, rivals: seq<Rival>) returns (ok: bool, w': Wish)
    requires cfg.Valid() && Sound(w.task) && 1 <= w.task.requestRate
    ensures ok ==>
              && w'.kind == w.kind && w'.size == size && w'.task.id == w.task.id && w'.task.slo == w.task.slo && Sound(w'.task)
              && Alone(cfg, table, w.kind, size, size, rivals, w'.task, w'.duty, w'.occupancy, w'.task.batch, w'.task.requestRate)
              && w.task.requestRate <= w'.task.requestRate
  {
    var residue := w.occupancy != 1.0;
    var batch, rate := GetMaxBatch(cfg, w.kind, size, rivals, w.task.id, w.task.slo, w.task.requestRate, residue);
    if batch == 0 { return false, w; }
    var latency := Latency(cfg, w.kind, w.task.id, batch, size, rivals);
    LatencyPositive(cfg, w.kind, w.task.id, batch, size, rivals);
    RateOfDuty(batch, rate);
    var duty := if residue then Max(batch as real * 1000.0 / rate as real, latency) else latency;
    var t := w.task.(batch := batch, requestRate := rate, throughput := Rate(batch, duty));
    var occupancy := latency / duty;
    SelfQuotient(latency);
    assert occupancy == 1.0 || duty == batch as real * 1000.0 / rate as real;
    if residue {
      TimelyAlone(cfg, table, w.kind, size, rivals, t, duty, occupancy, batch, rate);
    } else {
      assert Feasible(cfg, w.kind, size, rivals, w.task.id, w.task.slo, batch, rate, false);
    }
    return true, Wish(w.id, w.kind, size, t, duty, occupancy);
  }

  // ----- adjusting the GPU of a new placement -----

  /** adjustSatNode on a node of the cluster. */
  method AdjustSatIn(cfg: Config, s: SimState, n: Node) returns (st: Status, charge: int)
    requires cfg.Valid() && s.Valid() && s.Has(n)
    modifies n`tasks, n`duty, n`occupancy
    ensures s.Valid() && SameDemand(old(n.tasks), n.tasks) && n.occupancy == old(n.occupancy)
    ensures Rivals(cfg, n, s) == old(Rivals(cfg, n, s))
    ensures st == Abort <==> !old(Saturated(n))
    ensures st != Abort ==>
              && |old(n.tasks)| == 1 && |n.tasks| == 1
              && SatAdjusted(cfg, n.kind, n.size, Rivals(cfg, n, s), old(n.tasks[0]), old(n.duty), st == Ok,
                             n.tasks[0], n.duty, charge)
  {
    HasMeans(s, n);
    st, charge := AdjustSatNode(cfg, n, s);
    forall i | 0 <= i < |s.gpus| ensures GpuOk(s.gpus[i]) && forall m | m in s.gpus[i].nodes :: m in s.nodes {
      assert old(GpuOk(s.gpus[i]));
    }
  }

  /** adjustResNode on a node of the cluster. */
  method AdjustResIn(cfg: Config, s: SimState, n: Node) returns (ok: bool)
    requires cfg.Valid() && s.Valid() && s.Has(n)
    modifies n`tasks, n`duty, n`occupancy
    ensures s.Valid() && SameDemand(old(n.tasks), n.tasks) && Rivals(cfg, n, s) == old(Rivals(cfg, n, s))
    ensures ResAdjusted(cfg, n.kind, n.size, Rivals(cfg, n, s), old(n.tasks), old(n.duty), old(n.occupancy), ok,
                        n.tasks, n.duty, n.occupancy)
    ensures ok && MonotoneInBatch(cfg) ==> InTime(n.tasks, TurnOn(cfg, n, s), n.duty, 1.05)
  {
    HasMeans(s, n);
    ok := AdjustResNode(cfg, n, s);
    forall i | 0 <= i < |s.gpus| ensures GpuOk(s.gpus[i]) && forall m | m in s.gpus[i].nodes :: m in s.nodes {
      assert old(GpuOk(s.gpus[i]));
    }
  }

  /** What runs on a node, how often, and how full it is. */
  datatype Run = Run(tasks: seq<Placement>, duty: real, occupancy: real)

  function RunOf(n: Node): Run
    reads n`tasks, n`duty, n`occupancy
  {
    Run(n.tasks, n.duty, n.occupancy)
  }

  /** A full node must run its batch twice in time; of any other, batches are cut if that helps. */
  ghost predicate Adjusted(cfg: Config, d: Device, p: int, rivals: seq<Rival>, was: Run, now: Run) {
    if was.occupancy == 1.0 then
      && |was.tasks| == 1 && |now.tasks| == 1 && now.occupancy == 1.0
      && SatAdjusted(cfg, d, p, rivals, was.tasks[0], was.duty, true, now.tasks[0], now.duty, Lost(was, now))
    else
      || ResAdjusted(cfg, d, p, rivals, was.tasks, was.duty, was.occupancy, true, now.tasks, now.duty, now.occupancy)
      || ResAdjusted(cfg, d, p, rivals, was.tasks, was.duty, was.occupancy, false, now.tasks, now.duty, now.occupancy)
  }

  /** What is charged to the task being placed: the throughput a full node lost, rounded down. */
  function Lost(was: Run, now: Run): int {
    if was.occupancy == 1.0 && |was.tasks| == 1 && |now.tasks| == 1
    then Charge(was.tasks[0].throughput, now.tasks[0].throughput) else 0
  }

  method AdjustFitted(cfg: Config, s: SimState, n: Node) returns (st: Status, charge: int)
    requires cfg.Valid() && s.Valid() && s.Has(n)
    modifies n`tasks, n`duty, n`occupancy
    ensures s.Valid() && SameDemand(old(n.tasks), n.tasks) && Rivals(cfg, n, s) == old(Rivals(cfg, n, s))
    ensures st == Ok ==>
              && Adjusted(cfg, n.kind, n.size, Rivals(cfg, n, s), old(RunOf(n)), RunOf(n))
              && charge == Lost(old(RunOf(n)), RunOf(n))
  {
    charge := 0;
    if n.occupancy == 1.0 {
      st, charge := AdjustSatIn(cfg, s, n);
    } else {
      var _ := AdjustResIn(cfg, s, n);
      st := Ok;
    }
  }

  function Runs(nodes: seq<Node>): (r: seq<Run>)
    reads nodes`tasks, nodes`duty, nodes`occupancy
    ensures |r| == |nodes| && forall i | 0 <= i < |nodes| :: r[i] == RunOf(nodes[i])
  {
    if nodes == [] then [] else [RunOf(nodes[0])] + Runs(nodes[1..])
  }

  /** The rivals of the `k`th node at its turn: those before it are adjusted already, those behind it are not. */
  ghost function RivalsAt(cfg: Config, was: seq<View>, now: seq<View>, k: nat): seq<Rival>
    requires |was| == |now| && k < |now|
  {
    if cfg.useInterference then RivalsIn(now[..k] + was[k..], now[k]) else []
  }

  /** What the first `k` nodes have lost. */
  ghost function LostBy(was: seq<Run>, now: seq<Run>, k: nat): int
    requires k <= |was| == |now|
  {
    if k == 0 then 0 else LostBy(was, now, k - 1) + Lost(was[k - 1], now[k - 1])
  }

  lemma {:induction false} LostSame(was: seq<Run>, now: seq<Run>, next: seq<Run>, k: nat)
    requires k <= |was| == |now| == |next| && forall i | 0 <= i < k :: now[i] == next[i]
    ensures LostBy(was, now, k) == LostBy(was, next, k)
  {
    if k != 0 {
      LostSame(was, now, next, k - 1);
    }
  }

  /** The `i`th node of a GPU of type `d` is adjusted: it looked like `views[i]` and ran `runs[i]` before. */
  ghost predicate AdjustedAt(cfg: Config, d: Device, views: seq<View>, runs: seq<Run>, now: seq<View>, ran: seq<Run>, i: nat)
    requires |views| == |runs| == |now| == |ran| && i < |ran|
  {
    Adjusted(cfg, d, now[i].size, RivalsAt(cfg, views, now, i), runs[i], ran[i])
  }

  /** The first `k` nodes of a GPU are adjusted, one after the other. */
  ghost predicate AdjustedTo(cfg: Config, d: Device, k: nat, views: seq<View>, runs: seq<Run>, now: seq<View>, ran: seq<Run>)
    requires k <= |views| == |runs| == |now| == |ran|
  {
    forall i | 0 <= i < k :: AdjustedAt(cfg, d, views, runs, now, ran, i)
  }

  /** One more node is adjusted, against its rivals of the moment; the others stay as they are. */
  lemma {:induction false} OneMoreAdjusted(cfg: Config, d: Device, k: nat, views: seq<View>, runs: seq<Run>,
                                           now: seq<View>, ran: seq<Run>, v: View, r: Run)
    requires k < |views| == |runs| == |now| == |ran| && AdjustedTo(cfg, d, k, views, runs, now, ran)
    requires (forall i | k <= i < |now| :: now[i] == views[i]) && v.Same(now[k])
    requires Adjusted(cfg, d, v.size, if cfg.useInterference then RivalsIn(now, now[k]) else [], runs[k], r)
    ensures AdjustedTo(cfg, d, k + 1, views, runs, now[k := v], ran[k := r])
  {
    var next, ran' := now[k := v], ran[k := r];
    assert now == now[..k] + views[k..];
    assert next[..k] == now[..k];
    RivalsKept(now, now, now[k], v);
    forall i | 0 <= i < k + 1 ensures AdjustedAt(cfg, d, views, runs, next, ran', i) {
      if i < k {
        assert next[..i] == now[..i];
        assert AdjustedAt(cfg, d, views, runs, now, ran, i);
      }
    }
  }

  /** How far the adjustment of a GPU has come, and what it has charged. */
  ghost predicate Progress(cfg: Config, d: Device, k: nat, views: seq<View>, runs: seq<Run>, now: seq<View>, ran: seq<Run>,
                           charge: int)
  {
    && k <= |views| == |runs| == |now| == |ran|
    && AdjustedTo(cfg, d, k, views, runs, now, ran) && charge == LostBy(runs, ran, k)
    && (forall i | k <= i < |now| :: now[i] == views[i] && ran[i] == runs[i])
    && (forall i | 0 <= i < |ran| :: SameDemand(runs[i].tasks, ran[i].tasks))
  }

  lemma {:induction false} OneStepMore(cfg: Config, d: Device, k: nat, views: seq<View>, runs: seq<Run>,
                                       now: seq<View>, ran: seq<Run>, charge: int, v: View, r: Run)
    requires Progress(cfg, d, k, views, runs, now, ran, charge) && k < |now| && v.Same(now[k])
    requires Adjusted(cfg, d, v.size, if cfg.useInterference then RivalsIn(now, now[k]) else [], ran[k], r)
    requires SameDemand(ran[k].tasks, r.tasks)
    ensures Progress(cfg, d, k + 1, views, runs, now[k := v], ran[k := r], charge + Lost(ran[k], r))
  {
    OneMoreAdjusted(cfg, d, k, views, runs, now, ran, v, r);
    LostSame(runs, ran, ran[k := r], k);
  }

  /**
   * After a placement on GPU `gpu` its nodes are adjusted in turn, each to what its neighbours have become so
   * far. The charge is what the full ones lose by it, each loss rounded down.
   */
  method AdjustGpu(cfg: Config, s: SimState, gpu: int) returns (st: Status, charge: int)
    requires cfg.Valid() && s.Valid() && 0 <= gpu < |s.gpus|
    modifies s.nodes`tasks, s.nodes`duty, s.nodes`occupancy
    ensures s.Valid()
    ensures forall n | n in s.nodes :: SameDemand(old(n.tasks), n.tasks)
    ensures forall n | n in s.nodes && n !in s.gpus[gpu].nodes :: unchanged(n)
    ensures st == Ok ==>
              var nodes := s.gpus[gpu].nodes;
              Progress(cfg, s.gpus[gpu].kind, |nodes|, old(Views(nodes)), old(Runs(nodes)), Views(nodes), Runs(nodes), charge)
  {
    var g := s.gpus[gpu];
    assert forall n | n in g.nodes :: n in s.nodes;
    ghost var views, runs := Views(g.nodes), Runs(g.nodes);
    ghost var now, ran;
    st, charge, now, ran := AdjustNodes(cfg, s, g, views, runs);
    assert now == Views(g.nodes) && ran == Runs(g.nodes);
    forall n | n in s.nodes ensures SameDemand(old(n.tasks), n.tasks) {
      if n in g.nodes {
        var i :| 0 <= i < |g.nodes| && g.nodes[i] == n;
        assert SameDemand(runs[i].tasks, ran[i].tasks);
      }
    }
  }

  /** The nodes look like `now` and run `ran`. */
  ghost predicate Show(nodes: seq<Node>, now: seq<View>, ran: seq<Run>)
    reads nodes
  {
    |now| == |ran| == |nodes| && forall i {:trigger nodes[i]} | 0 <= i < |nodes| :: now[i] == ViewOf(nodes[i]) && ran[i] == RunOf(nodes[i])
  }

  lemma {:induction false} RivalsShown(cfg: Config, s: SimState, g: Gpu, k: nat, now: seq<View>, ran: seq<Run>)
    requires s.Valid() && g in s.gpus && k < |g.nodes| && Show(g.nodes, now, ran)
    ensures s.Has(g.nodes[k]) && g.nodes[k].kind == g.kind
    ensures Rivals(cfg, g.nodes[k], s) == if cfg.useInterference then RivalsIn(now, now[k]) else []
    ensures forall i | 0 <= i < |g.nodes| && i != k :: g.nodes[i] != g.nodes[k]
  {
    assert GpuOk(g) && g.nodes[k] in g.nodes;
    assert Views(g.nodes) == now;
  }

  method AdjustNodes(cfg: Config, s: SimState, g: Gpu, ghost views: seq<View>, ghost runs: seq<Run>)
    returns (st: Status, charge: int, ghost now: seq<View>, ghost ran: seq<Run>)
    requires cfg.Valid() && s.Valid() && g in s.gpus && Show(g.nodes, views, runs)
    modifies g.nodes`tasks, g.nodes`duty, g.nodes`occupancy
    ensures s.Valid() && Show(g.nodes, now, ran)
    ensures SameLoads(runs, ran)
    ensures st == Ok ==> Progress(cfg, g.kind, |g.nodes|, views, runs, now, ran, charge)
  {
    st, charge, now, ran := Ok, 0, views, runs;
    var k := 0;
    while k < |g.nodes| && st == Ok
      invariant s.Valid() && k <= |g.nodes| && Show(g.nodes, now, ran) && SameLoads(runs, ran)
      invariant st == Ok ==> Progress(cfg, g.kind, k, views, runs, now, ran, charge)
    {
      var c;
      ghost var v, r;
      st, c, v, r := AdjustTurn(cfg, s, g, k, g.nodes[k], now, ran);
      if st == Ok { OneStepMore(cfg, g.kind, k, views, runs, now, ran, charge, v, r); }
      charge, now, ran := charge + c, now[k := v], ran[k := r];
      k := k + 1;
    }
  }

  /** Run by run, the same models in the same order. */
  ghost predicate SameLoads(runs: seq<Run>, ran: seq<Run>) {
    |ran| == |runs| && forall i | 0 <= i < |runs| :: SameDemand(runs[i].tasks, ran[i].tasks)
  }

  /** The turn of the `k`th node of the GPU, whose nodes look like `now` and run `ran` before. */
  method AdjustTurn(cfg: Config, s: SimState, g: Gpu, ghost k: nat, n: Node, ghost now: seq<View>, ghost ran: seq<Run>)
    returns (st: Status, charge: int, ghost v: View, ghost r: Run)
    requires cfg.Valid() && s.Valid() && g in s.gpus && k < |g.nodes| && n == g.nodes[k] && Show(g.nodes, now, ran)
    modifies n`tasks, n`duty, n`occupancy
    ensures s.Valid() && SameDemand(ran[k].tasks, r.tasks)
    ensures Show(g.nodes, now[k := v], ran[k := r]) && v.Same(now[k])
    ensures st == Ok ==>
              && Adjusted(cfg, g.kind, v.size, if cfg.useInterference then RivalsIn(now, now[k]) else [], ran[k], r)
              && charge == Lost(ran[k], r)
  {
    RivalsShown(cfg, s, g, k, now, ran);
    st, charge := AdjustFitted(cfg, s, n);
    v, r := ViewOf(n), RunOf(n);
  }

  /** The loads, as the task lists of the nodes. */
  ghost predicate Listed(gpus: seq<Gpu>, was: Loads, lists: map<Node, seq<Placement>>) {
    && |was| == |gpus| && (forall i | 0 <= i < |gpus| :: |was[i]| == |gpus[i].nodes|)
    && forall i, j | 0 <= i < |gpus| && 0 <= j < |gpus[i].nodes| ::
         gpus[i].nodes[j] in lists && was[i][j] == lists[gpus[i].nodes[j]]
  }

  /** The nodes but `n` serve what they served. */
  ghost predicate Unmoved(lists: map<Node, seq<Placement>>, n: Node)
    reads set m | m in lists
  {
    forall m | m in lists && m != n :: m.tasks == lists[m]
  }

  /** Only `n` has changed since the loads `was` were seen. */
  lemma OnlyNodeMoved(s: SimState, was: Loads, lists: map<Node, seq<Placement>>, n: Node)
    requires s.Valid() && s.Has(n) && n in lists && Listed(s.gpus, was, lists)
    requires Unmoved(lists, n)
    ensures forall model ::
              Supply(s, model) == LoadsUpTo(was, model, |was|) - Throughput(lists[n], model) + Throughput(n.tasks, model)
  {
    var k := Place(s, n);
    var now := was[n.id := was[n.id][k := n.tasks]];
    assert Seen(s, now);
    SupplyAsSeen(s, now);
    OneMoved(was, now, n.id, k);
  }

  // ----- placing -----

  /** The nodes that joined the cluster are empty, but for those in `placed`. */
  twostate predicate NewOnesEmpty(s: SimState, new placed: seq<Node>)
    reads s, s.nodes
  {
    forall n | n in s.nodes && n !in old(s.nodes) && n !in placed :: n.tasks == []
  }

  /** No other node than those in `placed` has changed. */
  twostate predicate OnlyChanged(s: SimState, new placed: seq<Node>)
    reads s, s.nodes
  {
    forall n | n in old(s.nodes) && n in s.nodes && n !in placed :: unchanged(n)
  }

  /** No node loses a placement; only empty nodes take one in, of `model`. */
  twostate predicate Undisturbed(s: SimState, model: int)
    reads s, s.nodes
  {
    forall n | n in old(s.nodes) && n in s.nodes ::
      if old(n.tasks) == [] then n.tasks == [] || (|n.tasks| == 1 && n.tasks[0].id == model)
      else SameDemand(old(n.tasks), n.tasks)
  }

  /** `model` is served `amount` more than before, the others are served as before. */
  twostate predicate Gained(s: SimState, model: int, amount: real)
    reads s, s.nodes
  {
    forall m :: Supply(s, m) == old(Supply(s, m)) + if m == model then amount else 0.0
  }

  /** Put `t` on the empty node `n`, after cutting it to `size`. */
  method PlaceOn(s: SimState, n: Node, size: int, t: Placement, duty: real, occupancy: real)
    requires s.Valid() && s.Has(n) && n.tasks == [] && Sound(t) && 0.0 < duty
    requires size == n.size || (1 <= size < n.size == FULL)
    modifies s`gpus, s`nodes, n
    ensures s.Valid() && Grown(s) && NewOnesEmpty(s, []) && s.Has(n) && n in s.nodes
    ensures n.id == old(n.id) && n.kind == old(n.kind) && n.size == size
    ensures n.tasks == [t] && n.duty == duty && n.occupancy == occupancy
    ensures Gained(s, t.id, t.throughput)
  {
    HasMeans(s, n);
    if size != n.size {
      var _ := Split(s, n, size);
    }
    FillEmpty(s, n, t, duty, occupancy);
  }

  /** The wish as it is placed on a part of `size` percent: a whole GPU can be cut, another part is taken as it is. */
  method FitTo(cfg: Config, ghost table: seq<SatEntry>, s: SimState, w: Wish, size: int) returns (ok: bool, w': Wish)
    requires cfg.Valid() && Sound(w.task) && 1 <= w.task.requestRate && 0.0 < w.duty
    ensures ok ==> w'.task.id == w.task.id && w'.task.slo == w.task.slo && Sound(w'.task) && 0.0 < w'.duty
    ensures size == FULL || size <= w.size ==> ok && w' == w
    ensures ok && size != FULL && w.size < size && !cfg.useInterference ==>
              Alone(cfg, table, w.kind, size, size, [], w'.task, w'.duty, w'.occupancy, w'.task.batch, w'.task.requestRate)
  {
    if size == FULL || size <= w.size { return true, w; }
    ok, w' := Refit(cfg, table, s, w, size);
  }

  /** `placed` are distinct nodes on the GPUs of `s` that each serve one placement, of `model`. */
  ghost predicate PlacedOn(s: SimState, model: int, placed: seq<Node>)
    reads s, s.nodes
  {
    && (forall i, j | 0 <= i < j < |placed| :: placed[i] != placed[j])
    && (forall n | n in placed :: n in s.nodes && s.Has(n) && |n.tasks| == 1 && n.tasks[0].id == model)
  }

  /** And these are their throughputs. */
  ghost predicate Placed(s: SimState, model: int, placed: seq<Node>, amounts: seq<real>)
    reads s, s.nodes
  {
    && PlacedOn(s, model, placed) && |placed| == |amounts|
    && forall i | 0 <= i < |placed| :: placed[i].tasks[0].throughput == amounts[i]
  }

  /** `n` serves nothing but `model`, as it was planned for a part of its own. */
  ghost predicate AloneOn(cfg: Config, table: seq<SatEntry>, cutting: bool, n: Node, model: int, slo: int)
    reads n
  {
    && |n.tasks| == 1 && n.tasks[0].id == model && n.tasks[0].slo == slo
    && AloneAt(cfg, table, cutting, n.kind, n.size, [], n.tasks[0], n.duty, n.occupancy)
  }

  /** So does each of the nodes `placed`. */
  ghost predicate AllAlone(cfg: Config, table: seq<SatEntry>, cutting: bool, placed: seq<Node>, model: int, slo: int)
    reads placed
  {
    forall n | n in placed :: AloneOn(cfg, table, cutting, n, model, slo)
  }

  /** The size a node of `size` percent gets that takes a wish of `wish` percent. */
  function SizeTaken(size: int, wish: int, repartition: bool): int {
    if size == FULL && wish < FULL && repartition then wish else size
  }

  /** Whichever way it is placed, cut to size, planned anew, or on a whole GPU that may not be cut. */
  lemma TakenAlone(cfg: Config, table: seq<SatEntry>, repartition: bool, size: int, slo: int, w: Wish, w': Wish)
    requires WishOk(cfg, table, w.task.id, slo, w) && w.size <= size <= FULL
    requires Latency(cfg, w.kind, w.task.id, w.task.batch, size, []) + w.duty <= slo as real
    requires if size == FULL || size <= w.size then w' == w
             else Alone(cfg, table, w.kind, size, size, [], w'.task, w'.duty, w'.occupancy, w'.task.batch, w'.task.requestRate)
    ensures AloneAt(cfg, table, repartition, w.kind, SizeTaken(size, w.size, repartition), [], w'.task, w'.duty, w'.occupancy)
  {
    var p, q := SizeTaken(size, w.size, repartition), if size == FULL then w.size else size;
    assert Alone(cfg, table, w.kind, p, q, [], w'.task, w'.duty, w'.occupancy, w'.task.batch, w'.task.requestRate);
  }

  /** The best fit of `w`, and what to place there. */
  method FindRoom(cfg: Config, ghost table: seq<SatEntry>, s: SimState, w: Wish, slo: int, ghost repartition: bool)
    returns (n: Node?, w': Wish)
    requires cfg.Valid() && s.Valid() && WishOk(cfg, table, w.task.id, slo, w)
    ensures n != null ==>
              && s.Has(n) && n.tasks == [] && w.size <= n.size
              && w'.task.id == w.task.id && w'.task.slo == slo && Sound(w'.task) && 0.0 < w'.duty
    ensures n != null && !cfg.useInterference ==>
              AloneAt(cfg, table, repartition, n.kind, SizeTaken(n.size, w.size, repartition), [], w'.task, w'.duty, w'.occupancy)
  {
    var fits: Node -> bool := *;  // the memory check
    w' := w;
    n := FindBestFit(cfg, s, w, {}, fits);
    if n != null {
      var ok;
      ok, w' := FitTo(cfg, table, s, w, n.size);
      if !ok {
        n := null;
      } else if !cfg.useInterference {
        HasMeans(s, n);
        TakenAlone(cfg, table, repartition, n.size, slo, w, w');
      }
    }
  }

  /** Find the best fit of `w` and place it there, cutting a whole GPU when the wish is smaller and cutting is allowed. */
  method FindAndPlace(cfg: Config, ghost table: seq<SatEntry>, s: SimState, w: Wish, slo: int, repartition: bool) returns (n: Node?)
    requires cfg.Valid() && s.Valid() && WishOk(cfg, table, w.task.id, slo, w)
    modifies s`gpus, s`nodes, s.nodes
    ensures s.Valid() && Grown(s) && NewOnesEmpty(s, [])
    ensures n != null ==>
              && n in old(s.nodes) && old(n.tasks) == [] && s.Has(n)
              && |n.tasks| == 1 && n.tasks[0].id == w.task.id && 0.0 < n.tasks[0].throughput
              && n.size == SizeTaken(old(n.size), w.size, repartition)
    ensures n != null && !cfg.useInterference ==> AloneOn(cfg, table, repartition, n, w.task.id, slo)
    ensures forall m | m in old(s.nodes) && m != n :: unchanged(m)
    ensures Gained(s, w.task.id, if n == null then 0.0 else n.tasks[0].throughput)
  {
    var w';
    n, w' := FindRoom(cfg, table, s, w, slo, repartition);
    if n != null {
      HasMeans(s, n);
      PlaceOn(s, n, SizeTaken(n.size, w.size, repartition), w'.task, w'.duty, w'.occupancy);
    }
  }

  /** What a round of allocateFit leaves: `n`, if it found one, was empty and serves the task, and the rate follows. */
  twostate predicate Fitted(s: SimState, task: Task, st: Status, new n: Node?)
    reads task, if n == null then {} else {n}
  {
    && (n != null ==> n in old(s.nodes) && old(n.tasks) == [] && |n.tasks| == 1 && n.tasks[0].id == task.id)
    && (st == Ok ==>
          && n != null && 0.0 < n.tasks[0].throughput
          && task.requestRate == Trunc(old(task.requestRate) as real - n.tasks[0].throughput))
    && (st != Ok ==> task.requestRate == old(task.requestRate))
  }

  /** One round of allocateFit. */
  method FitOne(cfg: Config, ghost table: seq<SatEntry>, s: SimState, task: Task, w: Wish, repartition: bool) returns (st: Status, n: Node?)
    requires cfg.Valid() && s.Valid() && WishOk(cfg, table, task.id, task.slo, w)
    modifies s`gpus, s`nodes, s.nodes, task`requestRate, task`additionalRate
    ensures s.Valid() && Grown(s) && Fitted(s, task, st, n) && (n != null ==> s.Has(n))
    ensures forall m | m in old(s.nodes) && m != n :: SameDemand(old(m.tasks), m.tasks)
    ensures !cfg.useInterference ==>
              && task.additionalRate == old(task.additionalRate) && st == (if n == null then Fail else Ok)
              && OnlyChanged(s, if n == null then [] else [n]) && NewOnesEmpty(s, [])
              && (n != null ==> AloneOn(cfg, table, repartition, n, task.id, task.slo))
              && Gained(s, task.id, if n == null then 0.0 else n.tasks[0].throughput)
  {
    if cfg.useInterference {
      st, n := FitBeside(cfg, table, s, task, w, repartition);
    } else {
      n := FindAndPlace(cfg, table, s, w, task.slo, repartition);
      st := if n == null then Fail else Ok;
      task.requestRate := if n == null then task.requestRate else Trunc(task.requestRate as real - n.tasks[0].throughput);
    }
  }

  /** The same with the neighbours of the new placement adjusted to it. */
  method FitBeside(cfg: Config, ghost table: seq<SatEntry>, s: SimState, task: Task, w: Wish, repartition: bool)
    returns (st: Status, n: Node?)
    requires cfg.Valid() && s.Valid() && WishOk(cfg, table, task.id, task.slo, w)
    modifies s`gpus, s`nodes, s.nodes, task`requestRate, task`additionalRate
    ensures s.Valid() && Grown(s) && Fitted(s, task, st, n) && (n != null ==> s.Has(n))
    ensures forall m | m in old(s.nodes) && m != n :: SameDemand(old(m.tasks), m.tasks)
  {
    n := FindAndPlace(cfg, table, s, w, task.slo, repartition);
    st := Fail;
    if n != null {
      st := AdjustAfter(cfg, s, task, n);
    }
    task.requestRate := if st == Ok then Trunc(task.requestRate as real - n.tasks[0].throughput) else task.requestRate;
  }

  /** The adjustment of the GPU of the node just filled, charged to the task. */
  method AdjustAfter(cfg: Config, s: SimState, task: Task, n: Node) returns (st: Status)
    requires cfg.Valid() && s.Valid() && s.Has(n) && |n.tasks| == 1
    modifies s.nodes`tasks, s.nodes`duty, s.nodes`occupancy, task`additionalRate
    ensures s.Valid() && |n.tasks| == 1 && n.tasks[0].id == old(n.tasks[0].id) && 0.0 < n.tasks[0].throughput
    ensures forall m | m in s.nodes :: SameDemand(old(m.tasks), m.tasks)
  {
    HasMeans(s, n);
    var charge;
    st, charge := AdjustGpu(cfg, s, n.id);
    task.additionalRate := task.additionalRate + charge;
    HasMeans(s, n);
  }

  /** What has been placed, against the rate there was at `entry`. */
  ghost predicate Accounted(s: SimState, model: int, entry: int, rate: int, placed: seq<Node>, amounts: seq<real>)
    reads s, s.nodes
  {
    Placed(s, model, placed, amounts) && SumOf(amounts) + rate as real >= (entry - |placed|) as real
  }

  lemma OneMorePlaced(s: SimState, model: int, placed: seq<Node>, amounts: seq<real>, kept: Node)
    returns (placed': seq<Node>, amounts': seq<real>)
    requires Placed(s, model, placed, amounts) && kept !in placed && kept in s.nodes
    requires s.Has(kept) && |kept.tasks| == 1 && kept.tasks[0].id == model
    ensures Placed(s, model, placed', amounts') && placed' == placed + [kept]
    ensures SumOf(amounts') == SumOf(amounts) + kept.tasks[0].throughput
  {
    placed', amounts' := placed + [kept], amounts + [kept.tasks[0].throughput];
    SumOfMore(amounts, kept.tasks[0].throughput);
  }

  /** FitOne beside what is placed already. */
  method FitFurther(cfg: Config, ghost table: seq<SatEntry>, s: SimState, task: Task, w: Wish, repartition: bool,
                    ghost placed: seq<Node>, ghost amounts: seq<real>) returns (st: Status, n: Node?)
    requires cfg.Valid() && s.Valid() && WishOk(cfg, table, task.id, task.slo, w) && PlacedOn(s, task.id, placed)
    requires !cfg.useInterference ==>
               Placed(s, task.id, placed, amounts) && AllAlone(cfg, table, repartition, placed, task.id, task.slo)
    modifies s`gpus, s`nodes, s.nodes, task`requestRate, task`additionalRate
    ensures s.Valid() && Grown(s) && Fitted(s, task, st, n) && (n != null ==> s.Has(n) && n !in placed)
    ensures PlacedOn(s, task.id, placed) && Undisturbed(s, task.id)
    ensures !cfg.useInterference ==>
              && task.additionalRate == old(task.additionalRate) && st == (if n == null then Fail else Ok)
              && Placed(s, task.id, placed, amounts) && AllAlone(cfg, table, repartition, placed, task.id, task.slo)
              && OnlyChanged(s, if n == null then [] else [n]) && NewOnesEmpty(s, [])
              && (n != null ==> AloneOn(cfg, table, repartition, n, task.id, task.slo))
              && Gained(s, task.id, if n == null then 0.0 else n.tasks[0].throughput)
  {
    st, n := FitOne(cfg, table, s, task, w, repartition);
    forall x | x in placed ensures |x.tasks| == 1 && x.tasks[0].id == task.id && x != n {
      assert SameDemand(old(x.tasks), x.tasks) && old(x.tasks[0].id) == task.id;
    }
  }

  /** FitOne with the account carried along. */
  method FitAndAccount(cfg: Config, ghost table: seq<SatEntry>, s: SimState, task: Task, w: Wish, repartition: bool,
                       ghost entry: int, ghost placed: seq<Node>, ghost amounts: seq<real>)
    returns (st: Status, ghost placed': seq<Node>, ghost amounts': seq<real>)
    requires cfg.Valid() && s.Valid() && WishOk(cfg, table, task.id, task.slo, w) && PlacedOn(s, task.id, placed)
    requires !cfg.useInterference ==>
               && Accounted(s, task.id, entry, task.requestRate, placed, amounts)
               && AllAlone(cfg, table, repartition, placed, task.id, task.slo)
    modifies s`gpus, s`nodes, s.nodes, task`requestRate, task`additionalRate
    ensures s.Valid() && Grown(s) && PlacedOn(s, task.id, placed')
    ensures |placed'| == |placed| + if st == Ok then 1 else 0
    ensures forall n | n in placed' && n !in placed :: n in old(s.nodes) && old(n.tasks) == []
    ensures forall n | n in placed :: n in placed'
    ensures st != Ok ==> task.requestRate == old(task.requestRate)
    ensures Undisturbed(s, task.id)
    ensures !cfg.useInterference ==>
              && task.additionalRate == old(task.additionalRate)
              && Accounted(s, task.id, entry, task.requestRate, placed', amounts')
              && AllAlone(cfg, table, repartition, placed', task.id, task.slo)
              && OnlyChanged(s, placed') && NewOnesEmpty(s, [])
              && Gained(s, task.id, SumOf(amounts') - SumOf(amounts))
  {
    var n;
    placed', amounts' := placed, amounts;
    st, n := FitFurther(cfg, table, s, task, w, repartition, placed, amounts);
    if st == Ok {
      placed' := placed + [n];
      if !cfg.useInterference {
        placed', amounts' := OneMorePlaced(s, task.id, placed, amounts, n);
      }
    }
  }

  /** The loop of allocateFit. */
  method FitAll(cfg: Config, ghost table: seq<SatEntry>, s: SimState, task: Task, wishes: seq<Wish>, repartition: bool)
    returns (st: Status, ghost placed: seq<Node>, ghost amounts: seq<real>)
    requires cfg.Valid() && s.Valid()
    requires forall w | w in wishes :: WishOk(cfg, table, task.id, task.slo, w)
    modifies s`gpus, s`nodes, s.nodes, task`requestRate, task`additionalRate
    ensures s.Valid() && Grown(s) && (st == Ok ==> |placed| == |wishes|)
    ensures PlacedOn(s, task.id, placed) && forall n | n in placed && n in old(s.nodes) :: old(n.tasks) == []
    ensures Undisturbed(s, task.id)
    ensures !cfg.useInterference ==>
              && task.additionalRate == old(task.additionalRate)
              && Accounted(s, task.id, old(task.requestRate), task.requestRate, placed, amounts)
              && OnlyChanged(s, placed) && NewOnesEmpty(s, placed) && Gained(s, task.id, SumOf(amounts))
              && AllAlone(cfg, table, repartition, placed, task.id, task.slo)
  {
    st, placed, amounts := Ok, [], [];
    for k := 0 to |wishes|
      invariant s.Valid() && Grown(s) && |placed| == k && st == Ok
      invariant PlacedOn(s, task.id, placed) && forall n | n in placed && n in old(s.nodes) :: old(n.tasks) == []
      invariant Undisturbed(s, task.id)
      invariant !cfg.useInterference ==>
                  && task.additionalRate == old(task.additionalRate)
                  && Accounted(s, task.id, old(task.requestRate), task.requestRate, placed, amounts)
                  && OnlyChanged(s, placed) && NewOnesEmpty(s, placed) && Gained(s, task.id, SumOf(amounts))
                  && AllAlone(cfg, table, repartition, placed, task.id, task.slo)
    {
      st, placed, amounts := FitAndAccount(cfg, table, s, task, wishes[k], repartition, old(task.requestRate), placed, amounts);
      if st != Ok { break; }
    }
  }

  /** Write the rate left; the cluster is left alone. */
  method SetRate(s: SimState, task: Task, rate: int)
    requires s.Valid()
    modifies task`requestRate
    ensures task.requestRate == rate && s.Valid() && Gained(s, task.id, 0.0)
  {
    task.requestRate := rate;
  }

  /**
   * allocateFit: every wish on its best fit. Without interference, success leaves the model with at least
   * its rate less the slack and less one request per second for each placement, on nodes that were empty, and
   * no other node is touched. With it, other nodes may serve smaller batches.
   */
  method AllocateFit(cfg: Config, ghost table: seq<SatEntry>, s: SimState, task: Task, wishes: seq<Wish>, repartition: bool)
    returns (st: Status, ghost placed: seq<Node>, ghost amounts: seq<real>)
    requires cfg.Valid() && s.Valid()
    requires forall w | w in wishes :: WishOk(cfg, table, task.id, task.slo, w)
    modifies s`gpus, s`nodes, s.nodes, task`requestRate, task`additionalRate
    ensures s.Valid() && Grown(s)
    ensures PlacedOn(s, task.id, placed) && forall n | n in placed && n in old(s.nodes) :: old(n.tasks) == []
    ensures st == Ok ==> task.requestRate == 0 && |placed| == |wishes|
    ensures Undisturbed(s, task.id)
    ensures !cfg.useInterference ==>
              && task.additionalRate == old(task.additionalRate) && Placed(s, task.id, placed, amounts)
              && OnlyChanged(s, placed) && NewOnesEmpty(s, placed) && Gained(s, task.id, SumOf(amounts))
              && AllAlone(cfg, table, repartition, placed, task.id, task.slo)
    ensures !cfg.useInterference && st == Ok ==>
              SumOf(amounts) >= (old(task.requestRate + task.additionalRate) - TRP_SLACK - |placed|) as real
    ensures !cfg.useInterference && st != Ok ==>
              SumOf(amounts) + task.requestRate as real >= (old(task.requestRate) - |placed|) as real
  {
    st, placed, amounts := FitAll(cfg, table, s, task, wishes, repartition);
    if st != Ok { return; }
    if TRP_SLACK < task.requestRate + task.additionalRate { return Fail, placed, amounts; }
    SetRate(s, task, 0);
  }
}
