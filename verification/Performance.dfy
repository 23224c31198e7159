// Latency of a batch on a gpu-let, alone and next to the other gpu-let of its GPU.
module Performance {
  import opened Cluster

  const MAX_BATCH: int := 32
  const TRP_SLACK: int := 15

  /** A placement seen from another node: what the interference model is asked about. */
  datatype Rival = Rival(model: int, batch: int, size: int)

  /** Fixed settings and measured performance of one scheduler. */
  datatype Config = Config(
    pure: (Device, int, int, int) -> real,            // device, model, batch, partition
    batching: (int, int) -> real,                     // model, batch
    slowdown: (Device, int, int, int, Rival) -> real, // device, model, batch, partition, rival
    ratio: real,
    useInterference: bool,
    usePart: bool,
    maxModel: int,
    parts: seq<int>,
    types: seq<(Device, int)>)
  {
    ghost predicate Valid() {
      && 1.0 <= ratio
      && (forall d, m, b, p | 1 <= b :: 0.0 < pure(d, m, b, p))
      && (forall m, b | 1 <= b :: 0.0 <= batching(m, b))
      && parts != []
      && (forall p | p in parts :: 1 <= p <= FULL)
      && (forall i, j | 0 <= i < j < |parts| :: parts[i] >= parts[j])
      && types != []
    }
  }

  /** Worst slowdown over the first `k` rivals, never below 1. */
  function SlowdownUpTo(cfg: Config, d: Device, m: int, b: int, p: int, rivals: seq<Rival>, k: nat): (r: real)
    requires k <= |rivals|
    ensures 1.0 <= r
  {
    if k == 0 then 1.0 else Max(SlowdownUpTo(cfg, d, m, b, p, rivals, k - 1), cfg.slowdown(d, m, b, p, rivals[k - 1]))
  }

  function Slowdown(cfg: Config, d: Device, m: int, b: int, p: int, rivals: seq<Rival>): (r: real)
    ensures 1.0 <= r
  {
    SlowdownUpTo(cfg, d, m, b, p, rivals, |rivals|)
  }

  function Max(a: real, b: real): real {
    if a < b then b else a
  }

  function Latency(cfg: Config, d: Device, m: int, b: int, p: int, rivals: seq<Rival>): real {
    Scaled(cfg.pure(d, m, b, p), cfg.batching(m, b), Slowdown(cfg, d, m, b, p, rivals), cfg.ratio)
  }

  /** Batching overhead is added, a slowdown of 1 adds nothing, and the whole is scaled. */
  function Scaled(pure: real, over: real, slowdown: real, ratio: real): real {
    (pure + over + pure * (slowdown - 1.0)) * ratio
  }

  lemma LatencyPositive(cfg: Config, d: Device, m: int, b: int, p: int, rivals: seq<Rival>)
    requires cfg.Valid() && 1 <= b
    ensures 0.0 < Latency(cfg, d, m, b, p, rivals)
  {
    Positive(cfg.pure(d, m, b, p), cfg.batching(m, b), Slowdown(cfg, d, m, b, p, rivals), cfg.ratio);
  }

  lemma Positive(pure: real, over: real, slowdown: real, ratio: real)
    requires 0.0 < pure && 0.0 <= over && 1.0 <= slowdown && 1.0 <= ratio
    ensures 0.0 < Scaled(pure, over, slowdown, ratio)
  {
    assert 0.0 <= pure * (slowdown - 1.0);
    var x := pure + over + pure * (slowdown - 1.0);
    assert 0.0 <= x * (ratio - 1.0);
    assert x * ratio == x * (ratio - 1.0) + x;
  }

  /** A bigger batch never runs faster; assumed only where a property says so. */
  ghost predicate MonotoneInBatch(cfg: Config) {
    forall d, m, b, b', p, rivals | 1 <= b <= b' ::
      Latency(cfg, d, m, b, p, rivals) <= Latency(cfg, d, m, b', p, rivals)
  }

  /** A smaller partition never runs faster. */
  ghost predicate AntitoneInPart(cfg: Config) {
    forall d, m, b, p, p' | 1 <= b && p <= p' ::
      Latency(cfg, d, m, b, p', []) <= Latency(cfg, d, m, b, p, [])
  }

  // ----- what a node suffers from -----

  /** What of a node can slow its neighbours down, and what tells it apart from them. */
  datatype View = View(id: int, size: int, dedup: int, tasks: seq<Placement>) {
    predicate Same(other: View) {
      id == other.id && size == other.size && dedup == other.dedup
    }
  }

  function ViewOf(n: Node): View
    reads n`id, n`size, n`dedup, n`tasks
  {
    View(n.id, n.size, n.dedup, n.tasks)
  }

  function Views(nodes: seq<Node>): (vs: seq<View>)
    reads nodes
    ensures |vs| == |nodes| && forall i | 0 <= i < |nodes| :: vs[i] == ViewOf(nodes[i])
  {
    seq(|nodes|, i requires 0 <= i < |nodes| reads nodes => ViewOf(nodes[i]))
  }

  function Load(v: View): seq<Rival> {
    seq(|v.tasks|, i requires 0 <= i < |v.tasks| => Rival(v.tasks[i].id, v.tasks[i].batch, v.size))
  }

  /** The rivals `self` has among the first `k` nodes of its GPU. */
  function RivalsUpTo(vs: seq<View>, self: View, k: nat): seq<Rival>
    requires k <= |vs|
  {
    if k == 0 then []
    else if vs[k - 1].Same(self) then RivalsUpTo(vs, self, k - 1)
    else RivalsUpTo(vs, self, k - 1) + Load(vs[k - 1])
  }

  function RivalsIn(vs: seq<View>, self: View): seq<Rival> {
    RivalsUpTo(vs, self, |vs|)
  }

  lemma {:induction false} RivalsKeptUpTo(vs: seq<View>, ws: seq<View>, v: View, w: View, k: nat)
    requires k <= |vs| == |ws| && v.Same(w)
    requires forall i | 0 <= i < |vs| :: vs[i].Same(ws[i]) && (vs[i] == ws[i] || vs[i].Same(v))
    ensures RivalsUpTo(vs, v, k) == RivalsUpTo(ws, w, k)
  {
    if k != 0 {
      RivalsKeptUpTo(vs, ws, v, w, k - 1);
    }
  }

  /** The rivals of a node are what the other nodes of its GPU run, whatever happens on the node itself. */
  lemma RivalsKept(vs: seq<View>, ws: seq<View>, v: View, w: View)
    requires |vs| == |ws| && v.Same(w)
    requires forall i | 0 <= i < |vs| :: vs[i].Same(ws[i]) && (vs[i] == ws[i] || vs[i].Same(v))
    ensures RivalsIn(vs, v) == RivalsIn(ws, w)
  {
    RivalsKeptUpTo(vs, ws, v, w, |vs|);
  }

  /** The rivals of a node seen as `v` in `s`; an id beyond the GPU list has none. */
  function RivalsOf(cfg: Config, v: View, s: SimState): seq<Rival>
    reads s, s.NodesAt(v.id)
  {
    if cfg.useInterference then RivalsIn(Views(s.NodesAt(v.id)), v) else []
  }

  function Rivals(cfg: Config, n: Node, s: SimState): seq<Rival>
    reads n, s, s.NodesAt(n.id)
  {
    RivalsOf(cfg, ViewOf(n), s)
  }

  function LatencyOn(cfg: Config, n: Node, m: int, b: int, s: SimState): real
    reads n, s, s.NodesAt(n.id)
  {
    Latency(cfg, n.kind, m, b, n.size, Rivals(cfg, n, s))
  }

  /** getInterference over a GPU: the worst slowdown any task of another node causes. */
  method GetInterference(cfg: Config, m: int, b: int, self: Node, nodes: seq<Node>) returns (worst: real)
    ensures worst == Slowdown(cfg, self.kind, m, b, self.size, RivalsIn(Views(nodes), ViewOf(self)))
  {
    worst := 1.0;
    var rivals := RivalsIn(Views(nodes), ViewOf(self));
    for k := 0 to |rivals|
      invariant worst == SlowdownUpTo(cfg, self.kind, m, b, self.size, rivals, k)
    {
      worst := Max(worst, cfg.slowdown(self.kind, m, b, self.size, rivals[k]));
    }
  }

  /** getLatency on a node of a cluster. */
  method GetLatency(cfg: Config, n: Node, m: int, b: int, s: SimState) returns (latency: real)
    requires cfg.Valid() && 1 <= b
    ensures latency == LatencyOn(cfg, n, m, b, s) && 0.0 < latency
  {
    var worst := 1.0;
    if cfg.useInterference {
      worst := GetInterference(cfg, m, b, n, s.NodesAt(n.id));
    }
    LatencyPositive(cfg, n.kind, m, b, n.size, Rivals(cfg, n, s));
    return Scaled(cfg.pure(n.kind, m, b, n.size), cfg.batching(m, b), worst, cfg.ratio);
  }
}
