// The scheduler's data (scheduler_base.h): placements on nodes (gpu-lets), nodes on GPUs.
module Cluster {

  type Device = string

  const FULL: int := 100
  const HALF: int := 50

  /** One model placed on a node: an entry of the node's task list. */
  datatype Placement = Placement(id: int, requestRate: int, slo: int, batch: int, throughput: real)

  predicate Sound(t: Placement) {
    1 <= t.batch && 0 <= t.requestRate && 0.0 < t.throughput
  }

  /** The demand of the model being scheduled; the passes lower its rate as they place it. */
  class Task {
    const id: int
    const slo: int
    var requestRate: int
    var additionalRate: int

    constructor (id: int, slo: int, requestRate: int)
      ensures this.id == id && this.slo == slo && this.requestRate == requestRate && additionalRate == 0
    {
      this.id, this.slo, this.requestRate, this.additionalRate := id, slo, requestRate, 0;
    }
  }

  /** A gpu-let: a share of one GPU with the placements it serves in turn. */
  class Node {
    var id: int
    var kind: Device
    var size: int
    var dedup: int
    var tasks: seq<Placement>
    var duty: real
    var occupancy: real
    var reserved: bool

    /** makeEmptyNode; the source leaves the duty cycle uninitialised. */
    constructor Empty(gpu: int, size: int, kind: Device)
      ensures tasks == [] && id == gpu && this.size == size && this.kind == kind
      ensures dedup == 0 && occupancy == 0.0 && !reserved
    {
      this.tasks, this.id, this.size, this.kind := [], gpu, size, kind;
      this.dedup, this.occupancy, this.reserved := 0, 0.0, false;
      this.duty := *;
    }

    ghost predicate Valid()
      reads this
    {
      Serves(tasks, duty)
    }
  }

  /** A task list no model is in twice, with a duty cycle as soon as there is something to serve. */
  ghost predicate Serves(tasks: seq<Placement>, duty: real) {
    && (forall i | 0 <= i < |tasks| :: Sound(tasks[i]))
    && (forall i, j | 0 <= i < j < |tasks| :: tasks[i].id != tasks[j].id)
    && (tasks != [] ==> 0.0 < duty)
  }

  predicate Contains(tasks: seq<Placement>, model: int) {
    exists i | 0 <= i < |tasks| :: tasks[i].id == model
  }

  datatype Gpu = Gpu(id: int, kind: Device, nodes: seq<Node>)

  /** The two legal layouts of a GPU: whole, or cut in two parts that (size, dedup) tells apart. */
  ghost predicate Layout(nodes: seq<Node>)
    reads nodes
  {
    || (|nodes| == 1 && nodes[0].size == FULL && nodes[0].dedup == 0)
    || (&& |nodes| == 2
        && 1 <= nodes[0].size < FULL
        && nodes[1].size == FULL - nodes[0].size
        && nodes[0].dedup == 0
        && nodes[1].dedup == if nodes[0].size == HALF then 1 else 0)
  }

  ghost predicate GpuOk(g: Gpu)
    reads g.nodes
  {
    Layout(g.nodes) && forall n | n in g.nodes :: n.id == g.id && n.kind == g.kind && n.Valid()
  }

  class SimState {
    var gpus: seq<Gpu>
    var parts: seq<int>
    ghost var nodes: set<Node>  // every node the cluster has used

    constructor ()
      ensures gpus == [] && parts == [] && nodes == {} && Valid()
    {
      gpus, parts, nodes := [], [], {};
    }

    /** Every GPU sits at its own id, is legally cut, and its nodes serve each model once. */
    ghost predicate Valid()
      reads this, nodes
    {
      forall i | 0 <= i < |gpus| ::
        && (forall n | n in gpus[i].nodes :: n in nodes)
        && gpus[i].id == i
        && GpuOk(gpus[i])
    }

    /** The nodes of GPU `i`, none when there is no such GPU. */
    function NodesAt(i: int): seq<Node>
      reads this`gpus
    {
      if 0 <= i < |gpus| then gpus[i].nodes else []
    }

    /** `node` is one of this cluster's nodes. */
    ghost predicate Has(node: Node)
      reads this`gpus, node`id
    {
      node in NodesAt(node.id)
    }
  }

  /** isSameNode: nodes are compared by GPU, size and dedup number. */
  predicate IsSame(a: Node, b: Node)
    reads a`id, a`size, a`dedup, b`id, b`size, b`dedup
  {
    a.id == b.id && a.size == b.size && a.dedup == b.dedup
  }

  /** On a legally cut GPU the (size, dedup) pair names exactly one node. */
  lemma SameMeansEqual(s: SimState, a: Node, b: Node)
    requires s.Valid() && s.Has(a) && s.Has(b)
    ensures IsSame(a, b) <==> a == b
  {
    assert GpuOk(s.gpus[a.id]);
  }
}
