// What a cluster serves each model: the throughput of its placements, added up GPU by GPU.
module Accounts {
  import opened Cluster
  import opened Adjust
  import opened Allocation

  function SumUpTo(xs: seq<real>, k: nat): real
    requires k <= |xs|
  {
    if k == 0 then 0.0 else SumUpTo(xs, k - 1) + xs[k - 1]
  }

  function SumOf(xs: seq<real>): real {
    SumUpTo(xs, |xs|)
  }

  lemma {:induction false} SumKept(xs: seq<real>, x: real, k: nat)
    requires k <= |xs|
    ensures SumUpTo(xs + [x], k) == SumUpTo(xs, k)
  {
    if k != 0 {
      SumKept(xs, x, k - 1);
    }
  }

  lemma SumOfMore(xs: seq<real>, x: real)
    ensures SumOf(xs + [x]) == SumOf(xs) + x
  {
    SumKept(xs, x, |xs|);
  }

  /** What a placement adds to the throughput of `model`. */
  function Gain(t: Placement, model: int): real {
    if t.id == model then t.throughput else 0.0
  }

  /** Summed throughput of the placements of `model` among the first `k`. */
  function UpTo(tasks: seq<Placement>, model: int, k: nat): real
    requires k <= |tasks|
  {
    if k == 0 then 0.0 else UpTo(tasks, model, k - 1) + Gain(tasks[k - 1], model)
  }

  function Throughput(tasks: seq<Placement>, model: int): real {
    UpTo(tasks, model, |tasks|)
  }

  lemma {:induction false} UpToSame(a: seq<Placement>, b: seq<Placement>, model: int, k: nat)
    requires k <= |a| && k <= |b| && a[..k] == b[..k]
    ensures UpTo(a, model, k) == UpTo(b, model, k)
  {
    if k != 0 {
      assert a[k - 1] == a[..k][k - 1] == b[..k][k - 1] == b[k - 1];
      assert a[..k - 1] == a[..k][..k - 1] == b[..k][..k - 1] == b[..k - 1];
      UpToSame(a, b, model, k - 1);
    }
  }

  lemma {:induction false} UpToBoth(a: seq<Placement>, b: seq<Placement>, model: int, k: nat)
    requires k <= |b|
    ensures UpTo(a + b, model, |a| + k) == Throughput(a, model) + UpTo(b, model, k)
  {
    if k == 0 {
      assert (a + b)[..|a|] == a[..|a|];
      UpToSame(a + b, a, model, |a|);
    } else {
      UpToBoth(a, b, model, k - 1);
      assert (a + b)[|a| + k - 1] == b[k - 1];
    }
  }

  lemma ThroughputOfBoth(a: seq<Placement>, b: seq<Placement>, model: int)
    ensures Throughput(a + b, model) == Throughput(a, model) + Throughput(b, model)
  {
    UpToBoth(a, b, model, |b|);
  }

  lemma ThroughputOfOne(t: Placement, model: int)
    ensures Throughput([t], model) == Gain(t, model)
  {
    assert UpTo([t], model, 0) == 0.0;
  }

  lemma {:induction false} UpToNone(tasks: seq<Placement>, model: int, k: nat)
    requires !Contains(tasks, model) && k <= |tasks|
    ensures UpTo(tasks, model, k) == 0.0
  {
    if k != 0 {
      UpToNone(tasks, model, k - 1);
    }
  }

  lemma NotServed(tasks: seq<Placement>, model: int)
    requires !Contains(tasks, model)
    ensures Throughput(tasks, model) == 0.0
  {
    UpToNone(tasks, model, |tasks|);
  }

  // ----- the cluster -----

  /** The nodes on the GPUs are among those the cluster has used. */
  ghost predicate Closed(s: SimState)
    reads s`gpus, s`nodes
  {
    forall i, n | 0 <= i < |s.gpus| && n in s.gpus[i].nodes :: n in s.nodes
  }

  /** What the first `k` of `nodes` serve `model` with. */
  function NodesUpTo(nodes: seq<Node>, model: int, k: nat): real
    requires k <= |nodes|
    reads nodes`tasks
  {
    if k == 0 then 0.0 else NodesUpTo(nodes, model, k - 1) + Throughput(nodes[k - 1].tasks, model)
  }

  /** What the first `k` GPUs serve `model` with. */
  ghost function GpusUpTo(s: SimState, model: int, k: nat): real
    requires Closed(s) && k <= |s.gpus|
    reads s`gpus, s`nodes, s.nodes`tasks
  {
    if k == 0 then 0.0
    else
      var nodes := s.gpus[k - 1].nodes;
      assert forall i | 0 <= i < |nodes| :: nodes[i] in s.nodes;
      GpusUpTo(s, model, k - 1) + NodesUpTo(nodes, model, |nodes|)
  }

  /** The throughput a cluster serves `model` with. */
  ghost function Supply(s: SimState, model: int): real
    reads s`gpus, s`nodes, s.nodes`tasks
  {
    if Closed(s) then GpusUpTo(s, model, |s.gpus|) else 0.0
  }

  // ----- snapshots: the task lists of all nodes, GPU by GPU -----

  type Loads = seq<seq<seq<Placement>>>

  function ListsUpTo(lists: seq<seq<Placement>>, model: int, k: nat): real
    requires k <= |lists|
  {
    if k == 0 then 0.0 else ListsUpTo(lists, model, k - 1) + Throughput(lists[k - 1], model)
  }

  function LoadsUpTo(loads: Loads, model: int, k: nat): real
    requires k <= |loads|
  {
    if k == 0 then 0.0 else LoadsUpTo(loads, model, k - 1) + ListsUpTo(loads[k - 1], model, |loads[k - 1]|)
  }

  /** `loads` is what the nodes of the cluster serve. */
  ghost predicate Seen(s: SimState, loads: Loads)
    requires Closed(s)
    reads s`gpus, s`nodes, s.nodes`tasks
  {
    && |loads| == |s.gpus|
    && (forall i {:trigger loads[i]} | 0 <= i < |loads| :: |loads[i]| == |s.gpus[i].nodes|)
    && (forall i, j {:trigger loads[i][j]} | 0 <= i < |loads| && 0 <= j < |s.gpus[i].nodes| ::
          s.gpus[i].nodes[j] in s.nodes && loads[i][j] == s.gpus[i].nodes[j].tasks)
  }

  function ListsOf(nodes: seq<Node>): (r: seq<seq<Placement>>)
    reads nodes`tasks
    ensures |r| == |nodes| && forall j | 0 <= j < |nodes| :: r[j] == nodes[j].tasks
  {
    if nodes == [] then [] else [nodes[0].tasks] + ListsOf(nodes[1..])
  }

  ghost function LoadsFrom(s: SimState, k: nat): (r: Loads)
    requires Closed(s) && k <= |s.gpus|
    reads s`gpus, s`nodes, s.nodes`tasks
    ensures |r| == |s.gpus| - k && forall i | 0 <= i < |r| :: r[i] == ListsOf(s.gpus[k + i].nodes)
    decreases |s.gpus| - k
  {
    if k == |s.gpus| then []
    else
      var nodes := s.gpus[k].nodes;
      assert forall i | 0 <= i < |nodes| :: nodes[i] in s.nodes;
      [ListsOf(nodes)] + LoadsFrom(s, k + 1)
  }

  ghost function LoadsOf(s: SimState): (r: Loads)
    requires Closed(s)
    reads s`gpus, s`nodes, s.nodes`tasks
    ensures Seen(s, r)
  {
    assert forall i, j | 0 <= i < |s.gpus| && 0 <= j < |s.gpus[i].nodes| :: s.gpus[i].nodes[j] in s.nodes;
    LoadsFrom(s, 0)
  }

  lemma {:induction false} NodesAsSeen(nodes: seq<Node>, lists: seq<seq<Placement>>, model: int, k: nat)
    requires k <= |nodes| == |lists| && forall j | 0 <= j < |nodes| :: lists[j] == nodes[j].tasks
    ensures NodesUpTo(nodes, model, k) == ListsUpTo(lists, model, k)
  {
    if k != 0 {
      NodesAsSeen(nodes, lists, model, k - 1);
    }
  }

  lemma {:induction false} GpusAsSeen(s: SimState, loads: Loads, model: int, k: nat)
    requires Closed(s) && Seen(s, loads) && k <= |s.gpus|
    ensures GpusUpTo(s, model, k) == LoadsUpTo(loads, model, k)
  {
    if k != 0 {
      GpusAsSeen(s, loads, model, k - 1);
      var nodes, lists := s.gpus[k - 1].nodes, loads[k - 1];
      forall j | 0 <= j < |nodes| ensures lists[j] == nodes[j].tasks {
        assert loads[k - 1][j] == nodes[j].tasks;
      }
      NodesAsSeen(nodes, lists, model, |nodes|);
    }
  }

  lemma SupplyAsSeen(s: SimState, loads: Loads)
    requires Closed(s) && Seen(s, loads)
    ensures forall model :: Supply(s, model) == LoadsUpTo(loads, model, |loads|)
  {
    forall model ensures Supply(s, model) == LoadsUpTo(loads, model, |loads|) {
      GpusAsSeen(s, loads, model, |s.gpus|);
    }
  }

  // ----- one GPU changes -----

  lemma {:induction false} ListsMoved(was: seq<seq<Placement>>, now: seq<seq<Placement>>, i: nat, model: int, k: nat)
    requires k <= |was| == |now| && i < |was| && forall j | 0 <= j < |was| && j != i :: now[j] == was[j]
    ensures ListsUpTo(now, model, k) == ListsUpTo(was, model, k) +
              if i < k then Throughput(now[i], model) - Throughput(was[i], model) else 0.0
  {
    if k != 0 {
      ListsMoved(was, now, i, model, k - 1);
    }
  }

  lemma {:induction false} LoadsMoved(was: Loads, now: Loads, i: nat, model: int, k: nat)
    requires k <= |was| == |now| && i < |was| && forall j | 0 <= j < |was| && j != i :: now[j] == was[j]
    ensures LoadsUpTo(now, model, k) == LoadsUpTo(was, model, k) +
              if i < k then ListsUpTo(now[i], model, |now[i]|) - ListsUpTo(was[i], model, |was[i]|) else 0.0
  {
    if k != 0 {
      LoadsMoved(was, now, i, model, k - 1);
    }
  }

  /** The `k`th node of GPU `i` is all that has changed. */
  lemma OneMoved(was: Loads, now: Loads, i: nat, k: nat)
    requires |was| == |now| && i < |was| && k < |was[i]| == |now[i]|
    requires forall j | 0 <= j < |was| && j != i :: now[j] == was[j]
    requires forall j | 0 <= j < |was[i]| && j != k :: now[i][j] == was[i][j]
    ensures forall model ::
              LoadsUpTo(now, model, |now|) ==
              LoadsUpTo(was, model, |was|) - Throughput(was[i][k], model) + Throughput(now[i][k], model)
  {
    forall model
      ensures LoadsUpTo(now, model, |now|) ==
              LoadsUpTo(was, model, |was|) - Throughput(was[i][k], model) + Throughput(now[i][k], model)
    {
      ListsMoved(was[i], now[i], k, model, |was[i]|);
      LoadsMoved(was, now, i, model, |was|);
    }
  }

  /** An empty node more, or one less, on GPU `i` is all that has changed. */
  lemma EmptyMoved(was: Loads, now: Loads, i: nat)
    requires |was| == |now| && i < |was| && forall j | 0 <= j < |was| && j != i :: now[j] == was[j]
    requires was[i] == now[i] + [[]] || now[i] == was[i] + [[]]
    ensures forall model :: LoadsUpTo(now, model, |now|) == LoadsUpTo(was, model, |was|)
  {
    forall model ensures LoadsUpTo(now, model, |now|) == LoadsUpTo(was, model, |was|) {
      LoadsMoved(was, now, i, model, |was|);
      if now[i] == was[i] + [[]] {
        EmptyAdded(was[i], model, |was[i]|);
      } else {
        EmptyAdded(now[i], model, |now[i]|);
      }
    }
  }

  lemma {:induction false} EmptyAdded(lists: seq<seq<Placement>>, model: int, k: nat)
    requires k <= |lists|
    ensures ListsUpTo(lists + [[]], model, k) == ListsUpTo(lists, model, k)
    ensures ListsUpTo(lists + [[]], model, |lists| + 1) == ListsUpTo(lists + [[]], model, |lists|)
  {
    assert (lists + [[]])[|lists|] == [];
    if k != 0 {
      assert (lists + [[]])[k - 1] == lists[k - 1];
      EmptyAdded(lists, model, k - 1);
    }
  }

  // ----- the source's own way to add up -----

  function AllTasks(nodes: seq<Node>): seq<Placement>
    reads nodes`tasks
  {
    if nodes == [] then [] else AllTasks(nodes[..|nodes| - 1]) + nodes[|nodes| - 1].tasks
  }

  lemma {:induction false} AllTasksOfBoth(a: seq<Node>, b: seq<Node>)
    ensures AllTasks(a + b) == AllTasks(a) + AllTasks(b)
  {
    if b == [] {
      assert a + b == a;
    } else {
      var k := |b| - 1;
      assert (a + b)[..|a| + k] == a + b[..k];
      AllTasksOfBoth(a, b[..k]);
    }
  }

  lemma {:induction false} NodesAsListed(nodes: seq<Node>, model: int, k: nat)
    requires k <= |nodes|
    ensures NodesUpTo(nodes, model, k) == Throughput(AllTasks(nodes[..k]), model)
  {
    if k != 0 {
      NodesAsListed(nodes, model, k - 1);
      assert nodes[..k][..k - 1] == nodes[..k - 1];
      ThroughputOfBoth(AllTasks(nodes[..k - 1]), nodes[k - 1].tasks, model);
    }
  }

  lemma {:induction false} GpusAsListed(s: SimState, model: int, k: nat)
    requires Closed(s) && k <= |s.gpus|
    ensures GpusUpTo(s, model, k) == Throughput(AllTasks(Flat(s.gpus[..k])), model)
  {
    if k != 0 {
      var g := s.gpus[k - 1];
      GpusAsListed(s, model, k - 1);
      NodesAsListed(g.nodes, model, |g.nodes|);
      assert g.nodes[..|g.nodes|] == g.nodes;
      assert s.gpus[..k][..k - 1] == s.gpus[..k - 1];
      AllTasksOfBoth(Flat(s.gpus[..k - 1]), g.nodes);
      ThroughputOfBoth(AllTasks(Flat(s.gpus[..k - 1])), AllTasks(g.nodes), model);
    }
  }

  /** The supply is what the check after a round adds up over the nodes of the cluster. */
  lemma SupplyIsThroughput(s: SimState, model: int)
    requires Closed(s)
    ensures Supply(s, model) == Throughput(AllTasks(Flat(s.gpus)), model)
  {
    GpusAsListed(s, model, |s.gpus|);
    assert s.gpus[..|s.gpus|] == s.gpus;
  }

  lemma {:induction false} NobodyServes(nodes: seq<Node>, model: int)
    requires forall n | n in nodes :: !Contains(n.tasks, model)
    ensures Throughput(AllTasks(nodes), model) == 0.0
  {
    if nodes != [] {
      var k := |nodes| - 1;
      NobodyServes(nodes[..k], model);
      assert nodes[k] in nodes;
      NotServed(nodes[k].tasks, model);
      ThroughputOfBoth(AllTasks(nodes[..k]), nodes[k].tasks, model);
    }
  }

  /** A model on no node is served nothing. */
  lemma UnplacedSupply(s: SimState, model: int)
    requires Closed(s) && forall n | n in Flat(s.gpus) :: !Contains(n.tasks, model)
    ensures Supply(s, model) == 0.0
  {
    SupplyIsThroughput(s, model);
    NobodyServes(Flat(s.gpus), model);
  }

  // ----- the other models of a node -----

  /** The placements of other models than `model`. */
  function Others(tasks: seq<Placement>, model: int): seq<Placement> {
    if tasks == [] then []
    else
      var k := |tasks| - 1;
      Others(tasks[..k], model) + if tasks[k].id == model then [] else [tasks[k]]
  }

  lemma {:induction false} OthersOfBoth(a: seq<Placement>, b: seq<Placement>, model: int)
    ensures Others(a + b, model) == Others(a, model) + Others(b, model)
  {
    if b == [] {
      assert a + b == a;
    } else {
      var k := |b| - 1;
      assert (a + b)[..|a| + k] == a + b[..k];
      OthersOfBoth(a, b[..k], model);
    }
  }

  lemma {:induction false} OthersAreOf(tasks: seq<Placement>, model: int)
    ensures forall t :: t in Others(tasks, model) <==> t in tasks && t.id != model
  {
    if tasks != [] {
      var k := |tasks| - 1;
      OthersAreOf(tasks[..k], model);
      assert tasks == tasks[..k] + [tasks[k]];
    }
  }

  lemma {:induction false} OthersAlike(was: seq<Placement>, now: seq<Placement>, model: int)
    requires SameDemand(was, now)
    ensures SameDemand(Others(was, model), Others(now, model))
  {
    if was != [] {
      var k := |was| - 1;
      OthersAlike(was[..k], now[..k], model);
      assert was[k].id == now[k].id;
    }
  }

  lemma {:induction false} OthersHold(tasks: seq<Placement>, model: int, m: int)
    ensures Contains(Others(tasks, model), m) <==> m != model && Contains(tasks, m)
  {
    if tasks != [] {
      var k := |tasks| - 1;
      var rest := Others(tasks[..k], model);
      OthersHold(tasks[..k], model, m);
      if Contains(tasks[..k], m) {
        var i :| 0 <= i < k && tasks[..k][i].id == m;
        assert tasks[i].id == m;
      }
      if Contains(rest, m) {
        var i :| 0 <= i < |rest| && rest[i].id == m;
        assert Others(tasks, model)[i].id == m;
      }
      if tasks[k].id != model {
        assert Others(tasks, model)[|rest|] == tasks[k];
      }
    }
  }

  /** As long as the other models of a node keep their demands, none of them is gone from it. */
  lemma StillHeld(was: seq<Placement>, now: seq<Placement>, model: int, m: int)
    requires SameDemand(Others(was, model), Others(now, model)) && m != model
    ensures Contains(was, m) <==> Contains(now, m)
  {
    OthersHold(was, model, m);
    OthersHold(now, model, m);
    var a, b := Others(was, model), Others(now, model);
    assert forall i | 0 <= i < |a| :: a[i].id == b[i].id;
  }

  lemma SameAgain(a: seq<Placement>, b: seq<Placement>, c: seq<Placement>)
    requires SameDemand(a, b) && SameDemand(b, c)
    ensures SameDemand(a, c)
  {
    forall i | 0 <= i < |a| ensures a[i].(batch := c[i].batch, throughput := c[i].throughput) == c[i] {
      assert a[i].(batch := b[i].batch, throughput := b[i].throughput) == b[i];
      assert b[i].(batch := c[i].batch, throughput := c[i].throughput) == c[i];
    }
  }
}
