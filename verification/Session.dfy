// Around a scheduling run: the GPUs and part sizes it starts from, and the copy of its result.
module Session {
  import opened Cluster
  import opened Performance
  import opened Allocation

  // ----- initiateDevs and copyToOutput -----

  function DevsIn(types: seq<(Device, int)>): nat {
    if types == [] then 0
    else DevsIn(types[..|types| - 1]) + if 0 < types[|types| - 1].1 then types[|types| - 1].1 else 0
  }

  lemma {:induction false} DevsInPrefix(types: seq<(Device, int)>, k: nat)
    requires k <= |types|
    ensures DevsIn(types[..k]) <= DevsIn(types)
    decreases |types|
  {
    if k < |types| {
      assert types[..|types| - 1][..k] == types[..k];
      DevsInPrefix(types[..|types| - 1], k);
    } else {
      assert types[..k] == types;
    }
  }

  /** A cluster as initiateDevs leaves it: whole GPUs with nothing on them. */
  ghost predicate Unused(s: SimState)
    reads s, s.nodes
  {
    && s.Valid() && (forall i | 0 <= i < |s.gpus| :: |s.gpus[i].nodes| == 1 && s.gpus[i].nodes[0].tasks == [])
    && forall n | n in s.nodes :: n.tasks == []
  }

  method AddGpu(s: SimState, kind: Device)
    requires Unused(s)
    modifies s
    ensures Unused(s) && |s.gpus| == |old(s.gpus)| + 1 && fresh(s.nodes - old(s.nodes))
  {
    var n := new Node.Empty(|s.gpus|, FULL, kind);
    s.nodes := s.nodes + {n};
    s.gpus := s.gpus + [Gpu(|s.gpus|, kind, [n])];
  }

  /** initiateDevs: type by type, until there are `nDevs` GPUs or no more; one is made before the first check. */
  method InitiateDevs(cfg: Config, s: SimState, nDevs: int)
    modifies s
    ensures Unused(s) && fresh(s.nodes)
    ensures var wanted := if 1 <= nDevs then nDevs else 1;
            |s.gpus| == if DevsIn(cfg.types) <= wanted then DevsIn(cfg.types) else wanted
  {
    var types := cfg.types;
    s.gpus, s.nodes := [], {};
    for t := 0 to |types|
      invariant Unused(s) && fresh(s.nodes)
      invariant |s.gpus| == DevsIn(types[..t]) && (|s.gpus| < nDevs || s.gpus == [])
    {
      assert types[..t + 1][..t] == types[..t];
      DevsInPrefix(types, t + 1);
      var i := 0;
      while i < types[t].1
        invariant Unused(s) && fresh(s.nodes)
        invariant |s.gpus| == DevsIn(types[..t]) + i && (|s.gpus| < nDevs || s.gpus == [])
        invariant 0 <= i && (0 < types[t].1 ==> i <= types[t].1) && (types[t].1 <= 0 ==> i == 0)
      {
        AddGpu(s, types[t].0);
        if nDevs <= |s.gpus| { return; }
        i := i + 1;
      }
    }
    assert types[..|types|] == types;
  }

  /**
   * setupAvailParts: whatever sizes of 0 to 100 are asked for, the sizes on offer are what the passes rely on:
   * some, each within a GPU, in descending order, and with every size the one that is left of a GPU cut to it.
   */
  method SetupAvailParts(input: seq<int>) returns (parts: seq<int>)
    requires input != [] && forall p | p in input :: 0 <= p <= FULL
    ensures parts != [] && (forall p | p in parts :: 1 <= p <= FULL)
    ensures forall i, j | 0 <= i < j < |parts| :: parts[i] >= parts[j]
    ensures forall p | p in parts && p != FULL :: FULL - p in parts
    ensures forall p | p in input && p != 0 :: p in parts
    ensures forall p | p in parts :: p in input || FULL - p in input
  {
    var found: seq<int> := [];
    for i := 0 to |input|
      invariant found != [] || i == 0
      invariant forall p | p in found :: 1 <= p <= FULL && (p in input || FULL - p in input)
      invariant forall p | p in found && p != FULL :: FULL - p in found
      invariant forall k | 0 <= k < i && input[k] != 0 :: input[k] in found
    {
      var part := input[i];
      assert part in input;
      if part != 0 { found := found + [part]; }
      if FULL - part != 0 && FULL - part !in found { found := found + [FULL - part]; }
    }
    parts := SortDescending(found, map p | p in found :: p as real);
    forall p | p in found || p in parts ensures p in found && p in parts {
      assert p in multiset(found) <==> p in multiset(parts);
    }
    assert found[0] in found;
  }

  /** Everything a node holds. */
  datatype Image = Image(id: int, kind: Device, size: int, dedup: int, tasks: seq<Placement>, duty: real, occupancy: real, reserved: bool)

  function ImageOf(n: Node): Image
    reads n
  {
    Image(n.id, n.kind, n.size, n.dedup, n.tasks, n.duty, n.occupancy, n.reserved)
  }

  /** Node by node, `a` holds what `b` holds. */
  ghost predicate SameImages(a: seq<Node>, b: seq<Node>)
    reads a, b
  {
    |a| == |b| && forall k | 0 <= k < |a| :: ImageOf(a[k]) == ImageOf(b[k])
  }

  method CopyNode(n: Node) returns (c: Node)
    ensures fresh(c) && ImageOf(c) == ImageOf(n)
  {
    c := new Node.Empty(n.id, n.size, n.kind);
    c.dedup, c.duty, c.reserved, c.occupancy := n.dedup, n.duty, n.reserved, n.occupancy;
    c.tasks := n.tasks;
  }

  /** New nodes with the values of `nodes`. */
  method CopyNodes(nodes: seq<Node>) returns (copies: seq<Node>)
    ensures SameImages(copies, nodes) && fresh(copies)
  {
    copies := [];
    ghost var images := seq(|nodes|, i requires 0 <= i < |nodes| reads nodes => ImageOf(nodes[i]));
    for k := 0 to |nodes|
      invariant |copies| == k && fresh(copies)
      invariant forall j | 0 <= j < k :: ImageOf(copies[j]) == images[j]
      invariant forall j | 0 <= j < |nodes| :: ImageOf(nodes[j]) == images[j]
    {
      var c := CopyNode(nodes[k]);
      copies := copies + [c];
    }
  }

  /** The GPUs of `gpus` with the nodes of `flat` in place of their own, in order. */
  function Regroup(gpus: seq<Gpu>, flat: seq<Node>): (r: seq<Gpu>)
    requires |flat| == |Flat(gpus)|
    ensures |r| == |gpus|
  {
    if gpus == [] then []
    else
      var k := |gpus| - 1;
      var cut := |flat| - |gpus[k].nodes|;
      Regroup(gpus[..k], flat[..cut]) + [gpus[k].(nodes := flat[cut..])]
  }

  lemma SameSlice<T>(a: seq<T>, b: seq<T>, at: nat, n: nat)
    requires at + n <= |a|
    ensures (a + b)[at..at + n] == a[at..at + n]
  {
  }

  /** Every GPU gets the nodes in the places of its own. */
  lemma {:induction false} RegroupPlaces(gpus: seq<Gpu>, flat: seq<Node>, i: nat) returns (at: nat)
    requires |flat| == |Flat(gpus)| && i < |gpus|
    ensures var r := Regroup(gpus, flat);
            && at + |gpus[i].nodes| <= |flat| && r[i].id == gpus[i].id && r[i].kind == gpus[i].kind
            && r[i].nodes == flat[at..at + |gpus[i].nodes|] && gpus[i].nodes == Flat(gpus)[at..at + |gpus[i].nodes|]
  {
    var k := |gpus| - 1;
    var cut := |flat| - |gpus[k].nodes|;
    if i == k {
      at := cut;
    } else {
      at := RegroupPlaces(gpus[..k], flat[..cut], i);
      assert gpus[..k][i] == gpus[i] && Flat(gpus) == Flat(gpus[..k]) + gpus[k].nodes;
      SameSlice(Flat(gpus[..k]), gpus[k].nodes, at, |gpus[i].nodes|);
      assert flat == flat[..cut] + flat[cut..];
      SameSlice(flat[..cut], flat[cut..], at, |gpus[i].nodes|);
    }
  }

  /** `c` is a GPU whose nodes hold what those of `g` hold. */
  ghost predicate GpuCopied(g: Gpu, c: Gpu)
    reads g.nodes, c.nodes
  {
    c.id == g.id && c.kind == g.kind && SameImages(c.nodes, g.nodes)
  }

  /** A copied GPU is as legal as the original. */
  lemma CopyOk(g: Gpu, c: Gpu)
    requires GpuOk(g) && GpuCopied(g, c)
    ensures GpuOk(c)
  {
    assert ImageOf(c.nodes[0]) == ImageOf(g.nodes[0]);
    if |c.nodes| == 2 { assert ImageOf(c.nodes[1]) == ImageOf(g.nodes[1]); }
    forall n | n in c.nodes ensures n.id == c.id && n.kind == c.kind && n.Valid() {
      var k :| 0 <= k < |c.nodes| && c.nodes[k] == n;
      assert ImageOf(n) == ImageOf(g.nodes[k]) && g.nodes[k] in g.nodes;
    }
  }

  lemma RegroupCopies(gpus: seq<Gpu>, flat: seq<Node>, i: nat)
    requires SameImages(flat, Flat(gpus)) && i < |gpus|
    ensures GpuCopied(gpus[i], Regroup(gpus, flat)[i])
    ensures forall n | n in Regroup(gpus, flat)[i].nodes :: n in flat
  {
    var at := RegroupPlaces(gpus, flat, i);
    SlicesSame(flat, Flat(gpus), at, |gpus[i].nodes|);
  }

  lemma SlicesSame(a: seq<Node>, b: seq<Node>, at: nat, n: nat)
    requires SameImages(a, b) && at + n <= |a|
    ensures SameImages(a[at..at + n], b[at..at + n])
  {
    var x, y := a[at..at + n], b[at..at + n];
    forall k | 0 <= k < n ensures ImageOf(x[k]) == ImageOf(y[k]) {
      assert ImageOf(a[at + k]) == ImageOf(b[at + k]);
    }
  }

  /** copyToOutput: a deep copy, whose nodes are new objects with the values of the input. */
  method CopyToOutput(input: SimState, output: SimState)
    requires input.Valid() && input != output
    modifies output
    ensures output.Valid() && fresh(output.nodes)
    ensures output.parts == input.parts && |output.gpus| == |input.gpus|
    ensures forall i | 0 <= i < |input.gpus| :: GpuCopied(input.gpus[i], output.gpus[i])
  {
    var copies := CopyNodes(Flat(input.gpus));
    CopiesLegal(input, copies);
    Install(output, input.gpus, input.parts, copies);
  }

  /** The copies become the output's nodes, regrouped as the originals were. */
  method Install(output: SimState, gpus: seq<Gpu>, parts: seq<int>, copies: seq<Node>)
    requires |copies| == |Flat(gpus)| && forall i | 0 <= i < |gpus| :: RegroupOk(gpus, copies, i)
    modifies output
    ensures output.Valid() && output.parts == parts && output.nodes == set n | n in copies
    ensures |output.gpus| == |gpus| && forall i | 0 <= i < |gpus| :: GpuCopied(gpus[i], output.gpus[i])
  {
    output.gpus, output.parts := Regroup(gpus, copies), parts;
    output.nodes := set n | n in copies;
    forall i | 0 <= i < |gpus|
      ensures GpuOk(output.gpus[i]) && output.gpus[i].id == i && GpuCopied(gpus[i], output.gpus[i])
      ensures forall n | n in output.gpus[i].nodes :: n in output.nodes
    {
      assert old(RegroupOk(gpus, copies, i));
    }
  }

  lemma CopiesLegal(input: SimState, copies: seq<Node>)
    requires input.Valid() && SameImages(copies, Flat(input.gpus))
    ensures forall i | 0 <= i < |input.gpus| :: RegroupOk(input.gpus, copies, i)
  {
    forall i | 0 <= i < |input.gpus| ensures RegroupOk(input.gpus, copies, i) {
      assert GpuOk(input.gpus[i]);
      RegroupCopies(input.gpus, copies, i);
      CopyOk(input.gpus[i], Regroup(input.gpus, copies)[i]);
    }
  }

  /** GPU i of the copy is legal, and its nodes are new ones that hold what the original's hold. */
  ghost predicate RegroupOk(gpus: seq<Gpu>, flat: seq<Node>, i: nat)
    requires |flat| == |Flat(gpus)| && i < |gpus|
    reads gpus[i].nodes, Regroup(gpus, flat)[i].nodes
  {
    var c := Regroup(gpus, flat)[i];
    c.id == i && GpuCopied(gpus[i], c) && GpuOk(c) && forall n | n in c.nodes :: n in flat
  }
}
