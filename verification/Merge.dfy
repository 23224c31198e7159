// Third pass of the scheduler: merge the residue gpu-lets of a model into one (mergeResidue).
module Merging {
  import opened Cluster
  import opened Performance
  import opened Rounding
  import opened BatchSearch
  import opened Adjust
  import opened Estimation
  import opened Allocation
  import opened Accounts
  import opened Fitting

  /** A node not filled up that serves `model` alone. */
  predicate IsResidue(n: Node, model: int)
    reads n`occupancy, n`tasks
  {
    n.occupancy < 1.0 && |n.tasks| == 1 && n.tasks[0].id == model
  }

  // ----- the residue nodes -----

  /** A residue node with its type and size, and what it serves its model with. */
  datatype Residue = Residue(node: Node, kind: Device, size: int, amount: real)

  /** The residue nodes of `model` among the first `k`, in order. */
  function ResiduesUpTo(nodes: seq<Node>, model: int, k: nat): seq<Residue>
    requires k <= |nodes|
    reads nodes
  {
    if k == 0 then []
    else
      var n := nodes[k - 1];
      if IsResidue(n, model) then ResiduesUpTo(nodes, model, k - 1) + [Residue(n, n.kind, n.size, n.tasks[0].throughput)]
      else ResiduesUpTo(nodes, model, k - 1)
  }

  /** All residue nodes of `model`. */
  function ResiduesOf(s: SimState, model: int): seq<Residue>
    reads s, (set n | n in Flat(s.gpus))
  {
    ResiduesUpTo(Flat(s.gpus), model, |Flat(s.gpus)|)
  }

  ghost predicate Distinct(residues: seq<Residue>) {
    forall i, j | 0 <= i < j < |residues| :: residues[i].node != residues[j].node
  }

  /** `r` tells the truth about its node, which is a residue node of `model` in the cluster. */
  ghost predicate Stands(s: SimState, model: int, r: Residue)
    reads s, s.nodes
  {
    && r.node in s.nodes && s.Has(r.node) && IsResidue(r.node, model)
    && r.kind == r.node.kind && r.size == r.node.size && r.amount == r.node.tasks[0].throughput
  }

  /** Each residue node of the cluster is among them once, and nothing else. */
  ghost predicate Complete(s: SimState, model: int, residues: seq<Residue>)
    reads s, s.nodes
  {
    && Distinct(residues) && (forall r | r in residues :: Stands(s, model, r))
    && forall n | n in s.nodes && s.Has(n) && IsResidue(n, model) :: exists r | r in residues :: r.node == n
  }

  lemma ResiduesMean(s: SimState, model: int)
    requires s.Valid()
    ensures Complete(s, model, ResiduesOf(s, model))
  {
    AllInCluster(s);
    FlatDistinct(s);
    ResiduesOnce(s, model, |Flat(s.gpus)|);
  }

  function NodesOf(residues: seq<Residue>): set<Node> {
    set r | r in residues :: r.node
  }

  lemma ResidueNodes(s: SimState, model: int)
    requires s.Valid()
    ensures Distinct(ResiduesOf(s, model)) && forall r | r in ResiduesOf(s, model) :: Stands(s, model, r)
    ensures forall n | n in s.nodes :: n in NodesOf(ResiduesOf(s, model)) <==> s.Has(n) && IsResidue(n, model)
  {
    ResiduesMean(s, model);
    var residues := ResiduesOf(s, model);
    forall n | n in s.nodes ensures n in NodesOf(residues) <==> s.Has(n) && IsResidue(n, model) {
      if s.Has(n) && IsResidue(n, model) {
        var r :| r in residues && r.node == n;
      }
    }
  }

  lemma {:induction false} ResiduesOnce(s: SimState, model: int, k: nat)
    requires k <= |Flat(s.gpus)| && forall i, j | 0 <= i < j < |Flat(s.gpus)| :: Flat(s.gpus)[i] != Flat(s.gpus)[j]
    requires forall n | n in Flat(s.gpus) :: s.Has(n) && n in s.nodes
    ensures var nodes := Flat(s.gpus); var residues := ResiduesUpTo(nodes, model, k);
            && Distinct(residues) && (forall r | r in residues :: Stands(s, model, r) && r.node in nodes[..k])
            && forall i | 0 <= i < k && IsResidue(nodes[i], model) :: exists r | r in residues :: r.node == nodes[i]
  {
    if k != 0 {
      ResiduesOnce(s, model, k - 1);
      var nodes := Flat(s.gpus);
      var before, residues, n := ResiduesUpTo(nodes, model, k - 1), ResiduesUpTo(nodes, model, k), nodes[k - 1];
      if IsResidue(n, model) {
        assert residues[|before|].node == n;
      }
      forall i | 0 <= i < k && IsResidue(nodes[i], model) ensures exists r | r in residues :: r.node == nodes[i] {
        if i < k - 1 {
          var r :| r in before && r.node == nodes[i];
          assert r in residues;
        }
      }
    }
  }

  /** Adding what the first `k` serve to an int rate one by one, truncating each time. */
  function GatheredUpTo(rate: int, residues: seq<Residue>, k: nat): int
    requires k <= |residues|
  {
    if k == 0 then rate else Trunc(GatheredUpTo(rate, residues, k - 1) as real + residues[k - 1].amount)
  }

  function Gathered(rate: int, residues: seq<Residue>): int {
    GatheredUpTo(rate, residues, |residues|)
  }

  /** What the first `k` serve together. */
  function ServedUpTo(residues: seq<Residue>, k: nat): real
    requires k <= |residues|
  {
    if k == 0 then 0.0 else ServedUpTo(residues, k - 1) + residues[k - 1].amount
  }

  function ServedBy(residues: seq<Residue>): real {
    ServedUpTo(residues, |residues|)
  }

  lemma {:induction false} LosesLittleUpTo(rate: int, residues: seq<Residue>, k: nat)
    requires k <= |residues|
    ensures GatheredUpTo(rate, residues, k) as real >= rate as real + ServedUpTo(residues, k) - k as real
  {
    if k != 0 {
      LosesLittleUpTo(rate, residues, k - 1);
    }
  }

  lemma GatheredLosesLittle(rate: int, residues: seq<Residue>)
    ensures Gathered(rate, residues) as real >= rate as real + ServedBy(residues) - |residues| as real
  {
    LosesLittleUpTo(rate, residues, |residues|);
  }

  lemma {:induction false} GatheredKept(rate: int, residues: seq<Residue>, r: Residue, k: nat)
    requires k <= |residues|
    ensures GatheredUpTo(rate, residues + [r], k) == GatheredUpTo(rate, residues, k)
  {
    if k != 0 {
      GatheredKept(rate, residues, r, k - 1);
    }
  }

  /** `kind` and `size` are those of one of the residues, and no residue's like fills earlier. */
  ghost predicate Earliest(table: seq<SatEntry>, residues: seq<Residue>, kind: Device, size: int) {
    && (exists r | r in residues :: r.kind == kind && r.size == size)
    && forall r | r in residues :: Saturation(table, kind, size) <= Saturation(table, r.kind, r.size)
  }

  /** What the first loop knows after some residues. */
  ghost predicate Gathering(table: seq<SatEntry>, rate: int, residues: seq<Residue>, merged: int, kind: Device, size: int, limit: real) {
    && merged == Gathered(rate, residues)
    && (residues != [] ==> Earliest(table, residues, kind, size) && limit == Saturation(table, kind, size))
  }

  lemma OneMoreResidue(table: seq<SatEntry>, rate: int, residues: seq<Residue>, merged: int, kind: Device, size: int, limit: real,
                       r: Residue)
    requires Gathering(table, rate, residues, merged, kind, size, limit)
    ensures var sat := Saturation(table, r.kind, r.size);
            var sooner := residues == [] || sat < limit;
            Gathering(table, rate, residues + [r], Trunc(merged as real + r.amount),
                      if sooner then r.kind else kind, if sooner then r.size else size, if sooner then sat else limit)
  {
    GatheredKept(rate, residues, r, |residues|);
    var more := residues + [r];
    assert more[|residues|] == r;
    if residues != [] {
      var m :| m in residues && m.kind == kind && m.size == size;
      assert m in more;
    }
  }

  /** First loop: the residue nodes of the model, what they serve, and the part that saturates earliest. */
  method GatherResidues(table: seq<SatEntry>, s: SimState, model: int, rate: int)
    returns (st: Status, residues: seq<Residue>, merged: int, kind: Device, size: int, limit: real)
    requires s.Valid()
    ensures st == Ok || st == Abort
    ensures st == Ok ==> residues == old(ResiduesOf(s, model)) && Complete(s, model, residues)
    ensures Gathering(table, rate, residues, merged, kind, size, limit)
  {
    ResiduesMean(s, model);
    assert Complete(s, model, old(ResiduesOf(s, model)));
    var nodes := Flat(s.gpus);
    st, residues, merged, kind, size, limit := Ok, [], rate, "", 0, 0.0;
    for k := 0 to |nodes|
      invariant st == Ok && residues == old(ResiduesUpTo(Flat(s.gpus), model, k))
      invariant Gathering(table, rate, residues, merged, kind, size, limit)
    {
      var n := nodes[k];
      if IsResidue(n, model) {
        var (found, e) := LastEntry(table, n.size, n.kind);
        if !found { st := Abort; break; }
        var r := Residue(n, n.kind, n.size, n.tasks[0].throughput);
        OneMoreResidue(table, rate, residues, merged, kind, size, limit, r);
        merged := Trunc(merged as real + r.amount);
        if residues == [] || e.throughput < limit { limit, kind, size := e.throughput, n.kind, n.size; }
        residues := residues + [r];
      }
    }
  }

  // ----- emptying them -----

  /** Second loop: the gathered nodes are emptied, and what they served is taken off the supply. */
  method ClearAll(s: SimState, residues: seq<Residue>, ghost model: int, ghost which: set<Node>)
    requires s.Valid() && Distinct(residues) && forall r | r in residues :: Stands(s, model, r) && r.node in which
    modifies which`tasks, which`duty, which`occupancy
    ensures s.Valid() && (forall r | r in residues :: r.node.tasks == []) && Gained(s, model, -ServedBy(residues))
  {
    for k := 0 to |residues|
      invariant s.Valid() && Gained(s, model, -ServedUpTo(residues, k)) && ClearedTo(s, model, residues, k)
    {
      ClearNext(s, residues, k, model);
    }
  }

  /** The first `k` are empty, the others as they were. */
  ghost predicate ClearedTo(s: SimState, model: int, residues: seq<Residue>, k: nat)
    requires k <= |residues|
    reads s, s.nodes, set r | r in residues :: r.node
  {
    && (forall i | 0 <= i < k :: residues[i].node.tasks == [])
    && (forall i | k <= i < |residues| :: Stands(s, model, residues[i]))
  }

  method ClearNext(s: SimState, residues: seq<Residue>, k: nat, ghost model: int)
    requires s.Valid() && Distinct(residues) && k < |residues| && ClearedTo(s, model, residues, k)
    modifies residues[k].node`tasks, residues[k].node`duty, residues[k].node`occupancy
    ensures s.Valid() && ClearedTo(s, model, residues, k + 1) && Gained(s, model, -residues[k].amount)
  {
    assert forall i | 0 <= i < |residues| && i != k :: residues[i].node != residues[k].node;
    ClearOne(s, residues[k], model);
  }

  method ClearOne(s: SimState, r: Residue, ghost model: int)
    requires s.Valid() && Stands(s, model, r)
    modifies r.node`tasks, r.node`duty, r.node`occupancy
    ensures s.Valid() && r.node.tasks == [] && Gained(s, model, -r.amount)
  {
    assert r.node.tasks == [r.node.tasks[0]];
    forall m ensures Throughput(r.node.tasks, m) == if m == model then r.amount else 0.0 {
      ThroughputOfOne(r.node.tasks[0], m);
    }
    Fill(s, r.node, [], 0.0, 0.0);
  }

  // ----- a home for the merged rate -----

  /** The node is free for the merged rate; `fits` answers for the memory check. */
  predicate IsFree(n: Node, kind: Device, size: int, fits: Node -> bool)
    reads n`tasks, n`kind, n`size
  {
    fits(n) && n.tasks == [] && n.kind == kind && n.size == size
  }

  /** The node can take the merged rate. */
  predicate Takes(cfg: Config, s: SimState, n: Node, kind: Device, size: int, model: int, slo: int, rate: int, fits: Node -> bool)
    reads n, s, s.NodesAt(n.id)
  {
    IsFree(n, kind, size, fits) && !Unservable(cfg, kind, size, Rivals(cfg, n, s), model, slo, rate, true)
  }

  /** A placement to make, with its duty cycle. */
  datatype Plan = Plan(t: Placement, duty: real, latency: real)

  /** The plan serves the model the merged rate, and as a residue search would have it. */
  ghost predicate PlansHome(cfg: Config, table: seq<SatEntry>, d: Device, p: int, rivals: seq<Rival>,
                            model: int, slo: int, rate: int, plan: Plan)
  {
    && Sound(plan.t) && plan.t.id == model && plan.t.slo == slo && rate as real <= plan.t.throughput && 0.0 < plan.duty
    && AloneAt(cfg, table, true, d, p, rivals, plan.t, plan.duty, plan.latency / plan.duty)
  }

  /** What a free node of type `d` and size `p` would take of the merged rate, raised if need be; `ok` if it can. */
  method PlanMerged(cfg: Config, ghost table: seq<SatEntry>, d: Device, p: int, rivals: seq<Rival>, model: int, slo: int, rate: int)
    returns (ok: bool, plan: Plan)
    requires cfg.Valid() && 1 <= rate
    ensures ok <==> !Unservable(cfg, d, p, rivals, model, slo, rate, true)
    ensures ok ==> PlansHome(cfg, table, d, p, rivals, model, slo, rate, plan)
  {
    var batch, merged := GetMaxBatch(cfg, d, p, rivals, model, slo, rate, true);
    ok, plan := batch != 0, Plan(Placement(model, rate, slo, batch, 0.0), 0.0, 0.0);
    if ok {
      RateOfDuty(batch, merged);
      var duty := batch as real * 1000.0 / merged as real;
      plan := Plan(Placement(model, Trunc(Rate(batch, duty)), slo, batch, Rate(batch, duty)), duty,
                   Latency(cfg, d, model, batch, p, rivals));
      TimelyAlone(cfg, table, d, p, rivals, plan.t, duty, plan.latency / duty, batch, merged);
    }
  }

  /** A node with these rivals would take the merged rate, if it is free. */
  predicate WouldTake(cfg: Config, d: Device, p: int, free: bool, rivals: seq<Rival>, model: int, slo: int, rate: int) {
    free && !Unservable(cfg, d, p, rivals, model, slo, rate, true)
  }

  /** Third loop, over what it looks at: the first free node that can take the merged rate. */
  method FirstHome(cfg: Config, ghost table: seq<SatEntry>, d: Device, p: int, free: seq<bool>, rivals: seq<seq<Rival>>,
                   model: int, slo: int, rate: int)
    returns (home: int, plan: Plan)
    requires cfg.Valid() && |free| == |rivals| && 1 <= rate
    ensures 0 <= home <= |free|
    ensures forall i | 0 <= i < home :: !WouldTake(cfg, d, p, free[i], rivals[i], model, slo, rate)
    ensures home < |free| ==>
              && WouldTake(cfg, d, p, free[home], rivals[home], model, slo, rate)
              && PlansHome(cfg, table, d, p, rivals[home], model, slo, rate, plan)
  {
    home, plan := 0, Plan(Placement(model, rate, slo, 0, 0.0), 0.0, 0.0);
    while home < |free|
      invariant 0 <= home <= |free|
      invariant forall i | 0 <= i < home :: !WouldTake(cfg, d, p, free[i], rivals[i], model, slo, rate)
    {
      if free[home] {
        var ok;
        ok, plan := PlanMerged(cfg, table, d, p, rivals[home], model, slo, rate);
        if ok { break; }
      }
      home := home + 1;
    }
  }

  function FreeOnes(nodes: seq<Node>, kind: Device, size: int, fits: Node -> bool): (r: seq<bool>)
    reads nodes`tasks, nodes`kind, nodes`size
    ensures |r| == |nodes| && forall i | 0 <= i < |nodes| :: r[i] == IsFree(nodes[i], kind, size, fits)
  {
    if nodes == [] then [] else [IsFree(nodes[0], kind, size, fits)] + FreeOnes(nodes[1..], kind, size, fits)
  }

  function RivalLists(cfg: Config, s: SimState, nodes: seq<Node>): (r: seq<seq<Rival>>)
    reads *
    ensures |r| == |nodes| && forall i | 0 <= i < |nodes| :: r[i] == Rivals(cfg, nodes[i], s)
  {
    seq(|nodes|, i requires 0 <= i < |nodes| reads * => Rivals(cfg, nodes[i], s))
  }

  lemma TakesMeans(cfg: Config, s: SimState, nodes: seq<Node>, kind: Device, size: int, model: int, slo: int, rate: int, fits: Node -> bool)
    ensures forall i | 0 <= i < |nodes| ::
              Takes(cfg, s, nodes[i], kind, size, model, slo, rate, fits)
              == WouldTake(cfg, kind, size, FreeOnes(nodes, kind, size, fits)[i], RivalLists(cfg, s, nodes)[i], model, slo, rate)
  {
  }

  /** The first node of the cluster that can take the merged rate, and what to place there. */
  method FindHome(cfg: Config, ghost table: seq<SatEntry>, s: SimState, model: int, slo: int, rate: int, kind: Device, size: int,
                  fits: Node -> bool)
    returns (home: Node?, plan: Plan)
    requires cfg.Valid() && s.Valid() && 1 <= rate
    ensures home == null <==> forall n | n in s.nodes && old(s.Has(n)) :: !old(Takes(cfg, s, n, kind, size, model, slo, rate, fits))
    ensures home != null ==>
              && home in s.nodes && s.Has(home) && home.tasks == [] && old(Takes(cfg, s, home, kind, size, model, slo, rate, fits))
              && Sound(plan.t) && plan.t.id == model && rate as real <= plan.t.throughput && 0.0 < plan.duty
    ensures !cfg.useInterference ==>
              && (home != null <==>
                  !Unservable(cfg, kind, size, [], model, slo, rate, true)
                  && exists n | n in s.nodes && old(s.Has(n)) :: old(IsFree(n, kind, size, fits)))
              && (home != null ==> PlansHome(cfg, table, kind, size, [], model, slo, rate, plan))
  {
    var nodes := Flat(s.gpus);
    AllInCluster(s);
    TakesMeans(cfg, s, nodes, kind, size, model, slo, rate, fits);
    var k;
    k, plan := FirstHome(cfg, table, kind, size, FreeOnes(nodes, kind, size, fits), RivalLists(cfg, s, nodes), model, slo, rate);
    home := if k < |nodes| then nodes[k] else null;
    if home == null {
      forall n | n in s.nodes && s.Has(n) ensures !old(Takes(cfg, s, n, kind, size, model, slo, rate, fits)) {
        var i :| 0 <= i < |nodes| && nodes[i] == n;
      }
    }
  }

  /**
   * Third loop: the first free node of the wanted type and size that can take the merged rate gets it. The
   * rate may be raised, as in every residue search.
   */
  method PlaceMerged(cfg: Config, ghost table: seq<SatEntry>, s: SimState, model: int, slo: int, rate: int, kind: Device, size: int,
                     fits: Node -> bool)
    returns (home: Node?)
    requires cfg.Valid() && s.Valid() && 1 <= rate
    modifies s.nodes`tasks, s.nodes`duty, s.nodes`occupancy
    ensures s.Valid()
    ensures home == null <==> forall n | n in s.nodes && old(s.Has(n)) :: !old(Takes(cfg, s, n, kind, size, model, slo, rate, fits))
    ensures !cfg.useInterference ==>
              (home != null <==>
               !Unservable(cfg, kind, size, [], model, slo, rate, true)
               && exists n | n in s.nodes && old(s.Has(n)) :: old(IsFree(n, kind, size, fits)))
    ensures forall n | n in s.nodes && n != home :: unchanged(n)
    ensures home != null ==>
              && home in s.nodes && s.Has(home) && old(Takes(cfg, s, home, kind, size, model, slo, rate, fits))
              && |home.tasks| == 1 && home.tasks[0].id == model && home.tasks[0].throughput >= rate as real
              && (!cfg.useInterference ==> AloneOn(cfg, table, true, home, model, slo))
    ensures Gained(s, model, if home == null then 0.0 else home.tasks[0].throughput)
  {
    var plan;
    home, plan := FindHome(cfg, table, s, model, slo, rate, kind, size, fits);
    assert Gained(s, model, 0.0);
    if home != null {
      FillHome(s, home, plan);
      assert Gained(s, model, plan.t.throughput);
    }
  }

  method FillHome(s: SimState, home: Node, plan: Plan)
    requires s.Valid() && s.Has(home) && home.tasks == [] && Sound(plan.t) && 0.0 < plan.duty
    modifies home`tasks, home`duty, home`occupancy
    ensures s.Valid() && home.tasks == [plan.t] && home.duty == plan.duty && home.occupancy == plan.latency / plan.duty
    ensures Gained(s, plan.t.id, plan.t.throughput)
  {
    FillEmpty(s, home, plan.t, plan.duty, plan.latency / plan.duty);
  }

  // ----- the whole pass -----

  /** A node the merged rate may go to: one that is empty, or a residue that is cleared. */
  predicate Candidate(n: Node, model: int, kind: Device, size: int, fits: Node -> bool)
    reads n`tasks, n`kind, n`size, n`occupancy
  {
    fits(n) && (n.tasks == [] || IsResidue(n, model)) && n.kind == kind && n.size == size
  }

  /** When a merged rate finds a home, without interference: a node takes it and the batch search does not reject it. */
  ghost predicate FindsHome(cfg: Config, s: SimState, model: int, slo: int, merged: int, kind: Device, size: int,
                            fits: Node -> bool)
    reads s, s.nodes
  {
    && !Unservable(cfg, kind, size, [], model, slo, merged, true)
    && exists n | n in s.nodes && s.Has(n) :: Candidate(n, model, kind, size, fits)
  }

  /** Every residue node is empty but `home`, and every other node is as it was. */
  twostate predicate Cleared(s: SimState, model: int, new home: Node?)
    reads s`nodes, s.nodes`tasks, s.nodes`duty, s.nodes`occupancy
  {
    && s.nodes == old(s.nodes)
    && (forall n | n in s.nodes && n != home ::
          if old(s.Has(n)) && old(IsResidue(n, model)) then n.tasks == []
          else n.tasks == old(n.tasks) && n.duty == old(n.duty) && n.occupancy == old(n.occupancy))
    && (home != null ==> home in s.nodes && old(s.Has(home)) && |home.tasks| == 1 && home.tasks[0].id == model)
  }

  /** Second loop, seen from the nodes. */
  method ClearResidues(s: SimState, residues: seq<Residue>, ghost model: int)
    requires s.Valid() && Complete(s, model, residues)
    modifies s.nodes`tasks, s.nodes`duty, s.nodes`occupancy
    ensures s.Valid() && Cleared(s, model, null) && Gained(s, model, -ServedBy(residues))
  {
    ClearAll(s, residues, model, set r | r in residues :: r.node);
  }

  /** Second and third loop: clear the residue nodes, then look for a home for what they served. */
  method ClearAndPlace(cfg: Config, ghost table: seq<SatEntry>, s: SimState, residues: seq<Residue>, model: int, slo: int,
                       rate: int, kind: Device, size: int, fits: Node -> bool) returns (home: Node?)
    requires cfg.Valid() && s.Valid() && 1 <= rate && Complete(s, model, residues)
    modifies s.nodes`tasks, s.nodes`duty, s.nodes`occupancy
    ensures s.Valid()
    ensures Cleared(s, model, home)
    ensures !cfg.useInterference ==> (home != null <==> old(FindsHome(cfg, s, model, slo, rate, kind, size, fits)))
    ensures home != null ==>
              && old(Candidate(home, model, kind, size, fits)) && home.tasks[0].throughput >= rate as real
              && (!cfg.useInterference ==> AloneOn(cfg, table, true, home, model, slo))
    ensures Gained(s, model, (if home == null then 0.0 else home.tasks[0].throughput) - ServedBy(residues))
  {
    ClearResidues(s, residues, model);
    assert forall n | n in s.nodes && s.Has(n) :: IsFree(n, kind, size, fits) == old(Candidate(n, model, kind, size, fits));
    home := PlaceMerged(cfg, table, s, model, slo, rate, kind, size, fits);
  }

  /** Nodes that serve something keep their place and their size. */
  twostate predicate Settled(s: SimState)
    reads s, s.nodes
  {
    && s.nodes == old(s.nodes)
    && forall n | n in s.nodes && n.tasks != [] ::
         n.id == old(n.id) && n.kind == old(n.kind) && n.size == old(n.size) && (s.Has(n) <==> old(s.Has(n)))
  }

  /** A GPU cut in two with nothing on it. */
  predicate EmptyPair(g: Gpu)
    reads g.nodes`tasks
  {
    1 < |g.nodes| && forall n | n in g.nodes :: n.tasks == []
  }

  /** Nodes that serve something are as they were, and where they were. */
  twostate predicate BusyKept(s: SimState)
    reads s, s.nodes
  {
    && s.nodes == old(s.nodes)
    && forall n | n in s.nodes && n.tasks != [] :: unchanged(n) && (s.Has(n) <==> old(s.Has(n)))
  }

  /** Last loop: a GPU cut in two with nothing on it becomes whole again. */
  method MergeEmptyGpus(s: SimState, repartition: bool)
    requires s.Valid()
    modifies s`gpus, s.nodes`size, s.nodes`dedup
    ensures s.Valid() && Reshaped(s) && Gained(s, 0, 0.0) && BusyKept(s)
    ensures !repartition ==> s.gpus == old(s.gpus) && forall n | n in s.nodes :: unchanged(n)
    ensures repartition ==> forall i | 0 <= i < |s.gpus| :: !EmptyPair(s.gpus[i])
  {
    if repartition {
      ghost var gpus, pairs := s.gpus, EmptyPairs(s);
      for i := 0 to |s.gpus|
        invariant s.Valid() && Reshaped(s) && Gained(s, 0, 0.0) && BusyKept(s)
        invariant TidiedTo(gpus, s.gpus, pairs, i)
      {
        ghost var now := s.gpus;
        if EmptyPair(s.gpus[i]) {
          MakeWhole(s, i);
        }
        OneMoreTidied(gpus, now, s.gpus, pairs, i);
      }
      forall i | 0 <= i < |s.gpus| ensures !EmptyPair(s.gpus[i]) {
        assert !pairs[i] ==> s.gpus[i] == gpus[i];
      }
    }
  }

  ghost function EmptyPairs(s: SimState): (r: seq<bool>)
    requires s.Valid()
    reads s, s.nodes
    ensures |r| == |s.gpus| && forall i | 0 <= i < |r| :: r[i] == EmptyPair(s.gpus[i])
  {
    seq(|s.gpus|, i requires 0 <= i < |s.gpus| && s.Valid() reads s, s.nodes => EmptyPair(s.gpus[i]))
  }

  /** The first `k` GPUs are whole if they were cut in two with nothing on them, and else as they were. */
  ghost predicate TidiedTo(was: seq<Gpu>, now: seq<Gpu>, pairs: seq<bool>, k: nat) {
    && |was| == |now| == |pairs|
    && forall i | 0 <= i < |now| :: if i < k && pairs[i] then |now[i].nodes| == 1 else now[i] == was[i]
  }

  lemma OneMoreTidied(was: seq<Gpu>, now: seq<Gpu>, next: seq<Gpu>, pairs: seq<bool>, k: nat)
    requires TidiedTo(was, now, pairs, k) && k < |now| == |next| && next == now[k := next[k]]
    requires if pairs[k] then |next[k].nodes| == 1 else next[k] == now[k]
    ensures TidiedTo(was, next, pairs, k + 1)
  {
  }

  method MakeWhole(s: SimState, i: nat)
    requires s.Valid() && i < |s.gpus| && EmptyPair(s.gpus[i])
    modifies s`gpus, s.nodes`size, s.nodes`dedup
    ensures s.Valid() && Reshaped(s) && Gained(s, 0, 0.0) && BusyKept(s)
    ensures s.gpus == old(s.gpus)[i := s.gpus[i]] && |s.gpus[i].nodes| == 1
  {
    assert GpuOk(s.gpus[i]);
    var first := s.gpus[i].nodes[0];
    first.dedup, first.size := 0, FULL;
    DropSecond(s, i, first);
    forall j | 0 <= j < |s.gpus| && j != i ensures GpuOk(s.gpus[j]) && first !in s.gpus[j].nodes {
      assert old(GpuOk(s.gpus[j]));
    }
  }

  method DropSecond(s: SimState, i: nat, first: Node)
    requires Closed(s) && i < |s.gpus| && |s.gpus[i].nodes| == 2 && first == s.gpus[i].nodes[0]
    requires forall n | n in s.gpus[i].nodes :: n.tasks == []
    modifies s`gpus
    ensures s.gpus == old(s.gpus)[i := old(s.gpus[i]).(nodes := [first])] && Closed(s) && Gained(s, 0, 0.0)
    ensures forall n | n in s.nodes :: (s.Has(n) ==> old(s.Has(n))) && (n.tasks != [] ==> (s.Has(n) <==> old(s.Has(n))))
  {
    ghost var was := LoadsOf(s);
    SupplyAsSeen(s, was);
    assert was[i] == [[], []] by {
      assert was[i][0] == s.gpus[i].nodes[0].tasks && was[i][1] == s.gpus[i].nodes[1].tasks;
    }
    s.gpus := s.gpus[i := s.gpus[i].(nodes := [first])];
    assert forall n | n in s.nodes && n.id != i :: s.NodesAt(n.id) == old(s.NodesAt(n.id));
    ghost var now := was[i := [[]]];
    assert Seen(s, now);
    SupplyAsSeen(s, now);
    EmptyMoved(was, now, i);
  }

  /**
   * There are residue nodes worth merging: `merged` is what they serve and the open rate, and `kind` and `size`
   * are those of the one whose like fills earliest, at no less than `merged`.
   */
  ghost predicate Mergeable(table: seq<SatEntry>, rate: int, residues: seq<Residue>, merged: int, kind: Device, size: int) {
    && residues != [] && merged == Gathered(rate, residues) && 1 <= merged
    && Earliest(table, residues, kind, size) && merged as real <= Saturation(table, kind, size)
  }

  /** First loop and the guards behind it: is there anything to merge? */
  method PlanMerge(table: seq<SatEntry>, s: SimState, task: Task)
    returns (st: Status, residues: seq<Residue>, merged: int, kind: Device, size: int)
    requires s.Valid()
    ensures st == Ok || st == Abort
    ensures st == Abort ==> residues == []
    ensures residues != [] ==> Complete(s, task.id, residues)
    ensures residues != [] ==>
              residues == old(ResiduesOf(s, task.id)) && Mergeable(table, old(task.requestRate), residues, merged, kind, size)
  {
    var limit;
    st, residues, merged, kind, size, limit := GatherResidues(table, s, task.id, task.requestRate);
    if st == Abort || residues == [] || (|residues| == 1 && merged < TRP_SLACK) || limit < merged as real {
      residues := [];
    } else if merged < 1 {
      st, residues := Abort, [];  // the source would divide by it
    }
  }

  /**
   * What merging has done. Either there was nothing to merge, and nothing has changed; or the residue nodes
   * are empty, and `home`, if there is one, serves their model. No other node is touched, and the rate is 0
   * with a home and as it was without one.
   */
  twostate predicate Merged(s: SimState, task: Task, new home: Node?, new residues: seq<Residue>)
    reads s`nodes, s.nodes`tasks, s.nodes`duty, s.nodes`occupancy, task
  {
    && task.requestRate == (if home == null then old(task.requestRate) else 0)
    && (residues == [] ==> home == null && Untouched(s))
    && (residues != [] ==> Cleared(s, task.id, home))
  }

  twostate predicate Untouched(s: SimState)
    reads s`nodes, s.nodes`tasks, s.nodes`duty, s.nodes`occupancy
  {
    && s.nodes == old(s.nodes)
    && forall n | n in s.nodes :: n.tasks == old(n.tasks) && n.duty == old(n.duty) && n.occupancy == old(n.occupancy)
  }

  /** Clear the residue nodes found and give their load a home. */
  method MergeFound(cfg: Config, ghost table: seq<SatEntry>, s: SimState, task: Task, residues: seq<Residue>, merged: int,
                    kind: Device, size: int, fits: Node -> bool) returns (home: Node?)
    requires cfg.Valid() && s.Valid() && residues != [] && Complete(s, task.id, residues)
    requires 1 <= merged == Gathered(task.requestRate, residues)
    modifies s.nodes`tasks, s.nodes`duty, s.nodes`occupancy, task`requestRate
    ensures s.Valid() && Merged(s, task, home, residues)
    ensures !cfg.useInterference ==> (home != null <==> old(FindsHome(cfg, s, task.id, task.slo, merged, kind, size, fits)))
    ensures home != null ==>
              && old(Candidate(home, task.id, kind, size, fits))
              && home.tasks[0].throughput >= merged as real
              && (!cfg.useInterference ==> AloneOn(cfg, table, true, home, task.id, task.slo))
    ensures Gained(s, task.id, (if home == null then 0.0 else home.tasks[0].throughput) - ServedBy(residues))
  {
    home := ClearAndPlace(cfg, table, s, residues, task.id, task.slo, merged, kind, size, fits);
    task.requestRate := if home == null then task.requestRate else 0;
  }

  /** The pass once there is something to merge. */
  method MergeAndTidy(cfg: Config, ghost table: seq<SatEntry>, s: SimState, task: Task, residues: seq<Residue>, merged: int,
                      kind: Device, size: int, repartition: bool, fits: Node -> bool) returns (home: Node?)
    requires cfg.Valid() && s.Valid() && residues != [] && Complete(s, task.id, residues)
    requires 1 <= merged == Gathered(task.requestRate, residues)
    modifies s`gpus, s.nodes, task`requestRate
    ensures s.Valid() && Reshaped(s) && Merged(s, task, home, residues) && Settled(s)
    ensures !cfg.useInterference ==> (home != null <==> old(FindsHome(cfg, s, task.id, task.slo, merged, kind, size, fits)))
    ensures home != null ==>
              && old(Candidate(home, task.id, kind, size, fits))
              && home.tasks[0].throughput >= merged as real
              && (!cfg.useInterference ==> AloneOn(cfg, table, true, home, task.id, task.slo))
    ensures Gained(s, task.id, (if home == null then 0.0 else home.tasks[0].throughput) - ServedBy(residues))
  {
    home := MergeFound(cfg, table, s, task, residues, merged, kind, size, fits);
    assert Reshaped(s) && Settled(s);
    MergeEmptyGpus(s, repartition && task.requestRate <= TRP_SLACK);
  }

  /**
   * mergeResidue. When the residue nodes are merged, the new placement serves all they served and the open
   * rate, less one request per second for each of them. When no node takes the merged load, they are empty all
   * the same, what they served is gone while the rate stays as it was, and the pass may still report success.
   * Without interference it is taken exactly if the batch search does not reject it on a part of the type and
   * size sought, and the memory check lets it onto one.
   */
  method MergeResidue(cfg: Config, table: seq<SatEntry>, s: SimState, task: Task, repartition: bool, fits: Node -> bool)
    returns (st: Status, home: Node?, residues: seq<Residue>, merged: int, kind: Device, size: int)
    requires cfg.Valid() && s.Valid()
    modifies s`gpus, s.nodes, task`requestRate
    ensures s.Valid() && Reshaped(s) && Merged(s, task, home, residues) && Settled(s)
    ensures st == Ok ==> task.requestRate <= TRP_SLACK
    ensures st == Fail ==> TRP_SLACK < task.requestRate
    ensures residues != [] ==>
              residues == old(ResiduesOf(s, task.id)) && Mergeable(table, old(task.requestRate), residues, merged, kind, size)
    ensures residues != [] && !cfg.useInterference ==>
              (home != null <==> old(FindsHome(cfg, s, task.id, task.slo, merged, kind, size, fits)))
    ensures home != null ==>
              && old(Candidate(home, task.id, kind, size, fits))
              && home.tasks[0].throughput >= old(task.requestRate) as real + ServedBy(residues) - |residues| as real
              && (!cfg.useInterference ==> AloneOn(cfg, table, true, home, task.id, task.slo))
    ensures Gained(s, task.id, (if home == null then 0.0 else home.tasks[0].throughput) - ServedBy(residues))
  {
    st, residues, merged, kind, size := PlanMerge(table, s, task);
    assert Reshaped(s) && Settled(s) && Untouched(s) && Gained(s, task.id, 0.0);
    home := null;
    if residues != [] {
      GatheredLosesLittle(task.requestRate, residues);
      home := MergeAndTidy(cfg, table, s, task, residues, merged, kind, size, repartition, fits);
    }
    st := if st == Ok && TRP_SLACK < task.requestRate then Fail else st;
  }

  // ----- when the merged load is lost -----

  /** Memory granted, it depends on the batch search alone. */
  lemma GrantedFindsHome(cfg: Config, table: seq<SatEntry>, s: SimState, task: Task, merged: int, kind: Device, size: int,
                         fits: Node -> bool)
    requires s.Valid() && Mergeable(table, task.requestRate, ResiduesOf(s, task.id), merged, kind, size)
    requires forall r | r in ResiduesOf(s, task.id) :: fits(r.node)
    ensures FindsHome(cfg, s, task.id, task.slo, merged, kind, size, fits) <==>
              !Unservable(cfg, kind, size, [], task.id, task.slo, merged, true)
  {
    ResiduesMean(s, task.id);
    var r :| r in ResiduesOf(s, task.id) && r.kind == kind && r.size == size;
    assert Stands(s, task.id, r) && Candidate(r.node, task.id, kind, size, fits);
  }

  /** A model whose batch of one runs twice within its SLO is never rejected. */
  lemma TwiceInTimeIsServed(cfg: Config, d: Device, p: int, rivals: seq<Rival>, m: int, slo: int, rate: int)
    requires cfg.Valid() && 1 <= rate && 2.0 * Latency(cfg, d, m, 1, p, rivals) <= slo as real
    ensures !Unservable(cfg, d, p, rivals, m, slo, rate, true)
  {
    LatencyPositive(cfg, d, m, 1, p, rivals);
    var latency, fill := Latency(cfg, d, m, 1, p, rivals), 1000.0 / rate as real;
    assert 1000.0 * 1 as real / rate as real == fill;
    assert fill <= slo as real - latency || latency < fill;
  }

  /**
   * So, with latency growing in the batch and a table made for the model's SLO, the load of a merge without
   * interference is lost exactly if its batch of one does not run twice in time and either misses the SLO
   * outright or is saturated by the merged rate to the point.
   */
  lemma LostExactlyWhen(cfg: Config, table: seq<SatEntry>, residues: seq<Residue>, m: int, slo: int, rate: int,
                        merged: int, kind: Device, size: int)
    requires cfg.Valid() && MonotoneInBatch(cfg) && TableFor(cfg, m, slo, table) && Covered(table, kind, size)
    requires Mergeable(table, rate, residues, merged, kind, size)
    ensures var latency := Latency(cfg, kind, m, 1, size, []);
            Unservable(cfg, kind, size, [], m, slo, merged, true) <==>
              2.0 * latency > slo as real && (latency >= slo as real || merged as real * latency == 1000.0)
  {
    var latency := Latency(cfg, kind, m, 1, size, []);
    LatencyPositive(cfg, kind, m, 1, size, []);
    if slo as real < 2.0 * latency {
      SaturatedByOne(cfg, table, m, slo, kind, size);
    }
    RefusedOnPart(cfg, kind, size, m, slo, merged, latency);
  }

  lemma RefusedOnPart(cfg: Config, kind: Device, size: int, m: int, slo: int, rate: int, latency: real)
    requires cfg.Valid() && MonotoneInBatch(cfg) && 1 <= rate && 0.0 < latency == Latency(cfg, kind, m, 1, size, [])
    requires slo as real < 2.0 * latency ==> rate as real <= 1000.0 / latency
    ensures Unservable(cfg, kind, size, [], m, slo, rate, true) <==>
              2.0 * latency > slo as real && (latency >= slo as real || rate as real * latency == 1000.0)
  {
    if 2.0 * latency <= slo as real {
      TwiceInTimeIsServed(cfg, kind, size, [], m, slo, rate);
    } else {
      RefusedMeans(cfg, kind, size, m, slo, rate);
      RefusedExactlyWhen(latency, rate as real, slo as real);
    }
  }

  /** Refused, in terms of the latency of a batch of one and of the time it takes a request to arrive. */
  predicate Refused(latency: real, fill: real, slo: real) {
    !(fill <= slo - latency) && !(latency < fill && latency < slo)
  }

  lemma RefusedMeans(cfg: Config, kind: Device, size: int, m: int, slo: int, rate: int)
    requires MonotoneInBatch(cfg) && 1 <= rate
    ensures Unservable(cfg, kind, size, [], m, slo, rate, true) <==>
              Refused(Latency(cfg, kind, m, 1, size, []), 1000.0 / rate as real, slo as real)
  {
    NoneFoundMeans(cfg, kind, size, [], m, slo, rate, true);
    assert 1000.0 * 1 as real / rate as real == 1000.0 / rate as real;
  }

  /** At a rate no higher than what saturates the part. */
  lemma RefusedExactlyWhen(latency: real, r: real, slo: real)
    requires 0.0 < latency && 1.0 <= r <= 1000.0 / latency && slo < 2.0 * latency
    ensures Refused(latency, 1000.0 / r, slo) <==> latency >= slo || r * latency == 1000.0
  {
    var fill := 1000.0 / r;
    ProductAtLeast(1000.0, latency, r);
    assert fill * r == 1000.0;
    assert (fill - latency) * r == 1000.0 - r * latency;
    NonNegativeFactor(fill - latency, r);
    if latency < fill {
      assert (fill - latency) * r > 0.0;
    }
  }

  lemma ProductAtLeast(a: real, b: real, c: real)
    requires 0.0 < b && c <= a / b
    ensures c * b <= a
  {
    var q := a / b;
    assert q * b == a;
    assert (q - c) * b >= 0.0;
  }

  /** A part on which a batch of one does not run twice in time is tabled with that batch. */
  lemma SaturatedByOne(cfg: Config, table: seq<SatEntry>, m: int, slo: int, kind: Device, size: int)
    requires cfg.Valid() && MonotoneInBatch(cfg) && TableFor(cfg, m, slo, table) && Covered(table, kind, size)
    requires 2.0 * Latency(cfg, kind, m, 1, size, []) > slo as real
    ensures Saturation(table, kind, size) == 1000.0 / Latency(cfg, kind, m, 1, size, [])
  {
    var e := LastEntry(table, size, kind).1;
    assert EntryOk(cfg, m, slo, e);
    assert Latency(cfg, kind, m, 1, size, []) <= Latency(cfg, kind, m, e.batch, size, []);
    assert e.batch == 1;
  }

  // ----- it never is -----

  /** Latency grows with the batch, and with a smaller part too unless each model has a part of the size planned for it. */
  ghost predicate Orderly(cfg: Config, cutting: bool) {
    MonotoneInBatch(cfg) && (cutting || AntitoneInPart(cfg))
  }

  /** What runs in less time than its duty cycle on a part of its own is refused there at no rate. */
  lemma NeverRefused(cfg: Config, table: seq<SatEntry>, cutting: bool, d: Device, p: int, t: Placement, duty: real, occupancy: real,
                     rate: int)
    requires cfg.Valid() && Orderly(cfg, cutting) && 1 <= rate && occupancy < 1.0
    requires AloneAt(cfg, table, cutting, d, p, [], t, duty, occupancy)
    ensures !Unservable(cfg, d, p, [], t.id, t.slo, rate, true)
  {
    var b, q, r :| q <= p && (cutting ==> q == p) && Alone(cfg, table, d, p, q, [], t, duty, occupancy, b, r);
    var latency := Latency(cfg, d, t.id, 1, p, []);
    FasterThanDuty(cfg, cutting, d, p, q, t, duty, occupancy);
    if Latency(cfg, d, t.id, b, p, []) + duty <= t.slo as real {
      assert latency <= Latency(cfg, d, t.id, b, p, []);
      TwiceInTimeIsServed(cfg, d, p, [], t.id, t.slo, rate);
    } else if Unservable(cfg, d, p, [], t.id, t.slo, rate, true) {
      RaisedIsEnough(latency, t.slo, cfg.ratio, rate, duty);
      assert false;
    }
  }

  lemma FasterThanDuty(cfg: Config, cutting: bool, d: Device, p: int, q: int, t: Placement, duty: real, occupancy: real)
    requires cfg.Valid() && Orderly(cfg, cutting) && q <= p && (cutting ==> q == p) && 1 <= t.batch && 0.0 < duty
    requires occupancy == Latency(cfg, d, t.id, t.batch, q, []) / duty < 1.0
    ensures Latency(cfg, d, t.id, 1, p, []) < duty
  {
    var latency := Latency(cfg, d, t.id, t.batch, q, []);
    assert latency / duty * duty == latency;
    assert (1.0 - latency / duty) * duty > 0.0;
    assert Latency(cfg, d, t.id, 1, q, []) <= latency;
    assert Latency(cfg, d, t.id, 1, p, []) <= Latency(cfg, d, t.id, 1, q, []);
  }

  /** A batch of one that at the raised rate is done before the next is due is neither late nor swamped at another. */
  lemma RaisedIsEnough(latency: real, slo: int, ratio: real, rate: int, duty: real)
    requires 0.0 < latency < duty && latency < slo as real && 1.0 <= ratio && 1 <= rate
    requires Rate(1, duty) == RaisedRate(latency, slo, ratio) as real
    ensures 1000.0 / rate as real <= slo as real - latency || latency < 1000.0 / rate as real
  {
    var room, fill, raised := slo as real - latency, 1000.0 / rate as real, RaisedRate(latency, slo, ratio);
    assert raised as real * duty == 1000.0;
    if room < fill {
      RaisedAtLeast(latency, slo, ratio, rate);
      SoonerThan(latency, duty, rate as real, raised as real);
    }
  }

  /** What is done before the next of `raised` is due is done before the next of fewer. */
  lemma SoonerThan(latency: real, duty: real, rate: real, raised: real)
    requires 0.0 < latency < duty && 0.0 < rate <= raised && raised * duty == 1000.0
    ensures latency < 1000.0 / rate
  {
    var fill := 1000.0 / rate;
    assert fill * rate == 1000.0;
    assert 0.0 <= (raised - rate) * latency && 0.0 < raised * (duty - latency);
    assert (raised - rate) * latency + raised * (duty - latency) == 1000.0 - rate * latency;
    assert (fill - latency) * rate == 1000.0 - rate * latency;
    PositiveFactor(fill - latency, rate);
  }

  /** Every node that serves `model`, but for `shared`, runs what was planned for a part of its own. */
  ghost predicate OnlyAlone(cfg: Config, table: seq<SatEntry>, cutting: bool, s: SimState, model: int, slo: int, shared: seq<Node>)
    reads s, s.nodes
  {
    forall n {:trigger AloneOn(cfg, table, cutting, n, model, slo)} | n in s.nodes && s.Has(n) && Contains(n.tasks, model) && n !in shared ::
      AloneOn(cfg, table, cutting, n, model, slo)
  }

  /** What `r` serves is a placement on a part of its own that does not fill it. */
  ghost predicate Earned(cfg: Config, table: seq<SatEntry>, cutting: bool, r: Residue, model: int, slo: int) {
    exists t, duty, occupancy ::
      && AloneAt(cfg, table, cutting, r.kind, r.size, [], t, duty, occupancy)
      && occupancy < 1.0 && t.id == model && t.slo == slo && t.throughput == r.amount
  }

  /** So a merge of residues that were placed for this SLO finds a home for their load as soon as memory lets it. */
  lemma MergeNeverLoses(cfg: Config, table: seq<SatEntry>, s: SimState, task: Task, cutting: bool, merged: int,
                        kind: Device, size: int, fits: Node -> bool)
    requires cfg.Valid() && s.Valid() && Orderly(cfg, cutting) && OnlyAlone(cfg, table, cutting, s, task.id, task.slo, [])
    requires Mergeable(table, task.requestRate, ResiduesOf(s, task.id), merged, kind, size)
    requires forall r | r in ResiduesOf(s, task.id) && r.kind == kind && r.size == size :: fits(r.node)
    ensures FindsHome(cfg, s, task.id, task.slo, merged, kind, size, fits)
  {
    ResiduesMean(s, task.id);
    var r :| r in ResiduesOf(s, task.id) && r.kind == kind && r.size == size;
    var n := r.node;
    assert Stands(s, task.id, r) && n.tasks[0].id == task.id;
    assert AloneOn(cfg, table, cutting, n, task.id, task.slo);
    NeverRefused(cfg, table, cutting, kind, size, n.tasks[0], n.duty, n.occupancy, merged);
    assert Candidate(n, task.id, kind, size, fits);
  }
}
