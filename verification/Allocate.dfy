// First pass of the scheduler: greedy best fit of the wished gpu-lets (findBestFit, checkFit).
module Allocation {
  import opened Cluster
  import opened Performance
  import opened Estimation

  // ----- std::sort: any descending arrangement -----

  method SortDescending<T>(xs: seq<T>, key: map<T, real>) returns (ys: seq<T>)
    requires forall x | x in xs :: x in key
    ensures multiset(ys) == multiset(xs)
    ensures forall i, j | 0 <= i < j < |ys| :: ys[i] in key && ys[j] in key && key[ys[j]] <= key[ys[i]]
  {
    var rest := xs;
    ys := [];
    while rest != []
      invariant multiset(ys) + multiset(rest) == multiset(xs)
      invariant forall x | x in ys || x in rest :: x in key
      invariant forall i, j | 0 <= i < j < |ys| :: key[ys[j]] <= key[ys[i]]
      invariant forall i, x | 0 <= i < |ys| && x in rest :: key[x] <= key[ys[i]]
      decreases |rest|
    {
      var x, others := TakeLargest(rest, key);
      ys, rest := ys + [x], others;
    }
  }

  /** Any of the largest goes next. */
  method TakeLargest<T>(xs: seq<T>, key: map<T, real>) returns (x: T, others: seq<T>)
    requires xs != [] && forall y | y in xs :: y in key
    ensures x in xs && |others| == |xs| - 1 && multiset(xs) == multiset(others) + multiset{x}
    ensures forall y | y in others :: y in xs && key[y] <= key[x]
  {
    ghost var largest := HasLargest(xs, key);
    var k :| 0 <= k < |xs| && forall y | y in xs :: key[y] <= key[xs[k]];
    x, others := xs[k], xs[..k] + xs[k + 1..];
    assert xs == xs[..k] + [x] + xs[k + 1..];
  }

  lemma {:induction false} HasLargest<T>(xs: seq<T>, key: map<T, real>) returns (k: nat)
    requires xs != [] && forall x | x in xs :: x in key
    ensures k < |xs| && forall x | x in xs :: key[x] <= key[xs[k]]
  {
    if |xs| == 1 {
      k := 0;
    } else {
      k := HasLargest(xs[1..], key);
      assert forall x | x in xs :: x == xs[0] || x in xs[1..];
      k := if key[xs[0]] <= key[xs[k + 1]] then k + 1 else 0;
    }
  }

  // ----- the nodes of a cluster, GPU by GPU -----

  function Flat(gpus: seq<Gpu>): seq<Node> {
    if gpus == [] then [] else Flat(gpus[..|gpus| - 1]) + gpus[|gpus| - 1].nodes
  }

  lemma {:induction false} FlatHas(gpus: seq<Gpu>, n: Node)
    ensures n in Flat(gpus) <==> exists i | 0 <= i < |gpus| :: n in gpus[i].nodes
  {
    if gpus != [] {
      var k := |gpus| - 1;
      FlatHas(gpus[..k], n);
      if n in Flat(gpus[..k]) {
        var i :| 0 <= i < k && n in gpus[..k][i].nodes;
        assert n in gpus[i].nodes;
      } else {
        forall i | 0 <= i < k ensures n !in gpus[i].nodes {
          assert gpus[..k][i] == gpus[i];
        }
      }
    }
  }

  /** Membership by GPU id and membership in the list are the same thing in a valid cluster. */
  lemma FlatIsHas(s: SimState, n: Node)
    requires s.Valid()
    ensures n in Flat(s.gpus) <==> s.Has(n)
    ensures s.Has(n) ==> n in s.nodes && 1 <= n.size <= FULL && n.Valid()
  {
    FlatHas(s.gpus, n);
    if s.Has(n) { HasMeans(s, n); }
  }

  /** Every node that is on a GPU is in the list. */
  lemma AllInCluster(s: SimState)
    requires s.Valid()
    ensures forall n | n in Flat(s.gpus) :: s.Has(n) && n in s.nodes
    ensures forall n | s.Has(n) :: n in Flat(s.gpus)
  {
    forall n | n in Flat(s.gpus) ensures s.Has(n) && n in s.nodes { FlatIsHas(s, n); }
    forall n | s.Has(n) ensures n in Flat(s.gpus) { FlatIsHas(s, n); }
  }

  /** No node of a legal cluster is listed twice. */
  lemma FlatDistinct(s: SimState)
    requires s.Valid()
    ensures forall i, j | 0 <= i < j < |Flat(s.gpus)| :: Flat(s.gpus)[i] != Flat(s.gpus)[j]
  {
    FlatOnce(s, |s.gpus|);
    assert s.gpus[..|s.gpus|] == s.gpus;
  }

  lemma {:induction false} FlatOnce(s: SimState, k: nat)
    requires s.Valid() && k <= |s.gpus|
    ensures forall n | n in Flat(s.gpus[..k]) :: 0 <= n.id < k
    ensures forall i, j | 0 <= i < j < |Flat(s.gpus[..k])| :: Flat(s.gpus[..k])[i] != Flat(s.gpus[..k])[j]
  {
    if k != 0 {
      FlatOnce(s, k - 1);
      assert s.gpus[..k][..k - 1] == s.gpus[..k - 1] && GpuOk(s.gpus[k - 1]);
      var rest, nodes := Flat(s.gpus[..k - 1]), s.gpus[k - 1].nodes;
      assert Flat(s.gpus[..k]) == rest + nodes;
      assert forall n | n in nodes :: n.id == k - 1;
      assert forall i | 0 <= i < |rest| :: rest[i].id < k - 1;
    }
  }

  lemma HasMeans(s: SimState, n: Node)
    requires s.Valid() && s.Has(n)
    ensures 0 <= n.id < |s.gpus| && n in s.gpus[n.id].nodes && GpuOk(s.gpus[n.id])
    ensures n in s.nodes && 1 <= n.size <= FULL && n.Valid() && n.kind == s.gpus[n.id].kind
  {
  }

  // ----- findBestFit -----

  /**
   * checkForInterference for a node of less than a GPU: would its neighbour answer late? The source asks for
   * the neighbour's slowdown on a GPU that holds the neighbour alone, so the newcomer plays no part.
   */
  predicate Disturbs(cfg: Config, d: Device, n: Node, s: SimState)
    reads n, s, s.NodesAt(n.id)
  {
    n.size != FULL && NeighbourLate(cfg, d, Views(s.NodesAt(n.id)), Duties(s.NodesAt(n.id)), ViewOf(n))
  }

  function Duties(nodes: seq<Node>): (r: seq<real>)
    reads nodes
    ensures |r| == |nodes| && forall i | 0 <= i < |nodes| :: r[i] == nodes[i].duty
  {
    seq(|nodes|, i requires 0 <= i < |nodes| reads nodes => nodes[i].duty)
  }

  /** getOtherNode picks the first node that is not the same; none means nobody is late. */
  predicate NeighbourLate(cfg: Config, d: Device, vs: seq<View>, duties: seq<real>, self: View)
    requires |vs| == |duties|
  {
    if vs == [] then false
    else if vs[0].Same(self) then NeighbourLate(cfg, d, vs[1..], duties[1..], self)
    else exists i | 0 <= i < |vs[0].tasks| ::
      var t := vs[0].tasks[i];
      var slowdown := Slowdown(cfg, d, t.id, t.batch, vs[0].size, RivalsIn([vs[0]], vs[0]));
      cfg.pure(d, t.id, t.batch, vs[0].size) * (slowdown - 1.0) + cfg.batching(t.id, t.batch) + duties[0] + duties[0]
        > t.slo as real
  }

  /** The check ignores interference: the neighbour alone on its GPU has no rival. */
  lemma NeighbourAloneNotSlowed(cfg: Config, d: Device, v: View, t: Placement)
    ensures Slowdown(cfg, d, t.id, t.batch, v.size, RivalsIn([v], v)) == 1.0
  {
    assert RivalsUpTo([v], v, 0) == [];
  }

  /** What findBestFit asks of a node; `fits` answers for the memory check. */
  predicate Eligible(cfg: Config, s: SimState, w: Wish, exclude: set<Node>, fits: Node -> bool, n: Node)
    reads n, s, s.NodesAt(n.id)
  {
    && n.kind == w.kind && w.size <= n.size && n.tasks == [] && n !in exclude && fits(n)
    && LatencyOn(cfg, n, w.task.id, w.task.batch, s) + w.duty <= w.task.slo as real
    && !Disturbs(cfg, w.kind, n, s)
  }

  /** Whole GPUs come first when they may be cut, then the tightest fit. */
  function Misfit(usePart: bool, wish: int, size: int): int {
    if size == FULL && usePart then 0 else size - wish
  }

  /** The last of the eligible sizes with the least misfit. */
  ghost predicate Best(usePart: bool, wish: int, sizes: seq<int>, eligible: seq<bool>, best: int)
    requires |sizes| == |eligible|
  {
    && 0 <= best < |sizes| && eligible[best]
    && (forall i | 0 <= i < |sizes| && eligible[i] :: Misfit(usePart, wish, sizes[best]) <= Misfit(usePart, wish, sizes[i]))
    && (forall i | best < i < |sizes| && eligible[i] :: Misfit(usePart, wish, sizes[best]) < Misfit(usePart, wish, sizes[i]))
  }

  /** The loop of findBestFit over the nodes of the cluster; -1 when nothing is eligible. */
  method LeastMisfit(usePart: bool, wish: int, sizes: seq<int>, eligible: seq<bool>) returns (best: int)
    requires |sizes| == |eligible| && 1 <= wish
    requires forall i | 0 <= i < |sizes| && eligible[i] :: wish <= sizes[i] <= FULL
    ensures best == -1 ==> forall i | 0 <= i < |sizes| :: !eligible[i]
    ensures best != -1 ==> Best(usePart, wish, sizes, eligible, best)
  {
    var minDiff := 200;
    best := -1;
    for k := 0 to |sizes|
      invariant minDiff == 200 ==> best == -1 && forall i | 0 <= i < k :: !eligible[i]
      invariant minDiff != 200 ==> 0 <= best < k && eligible[best] && 0 <= minDiff == Misfit(usePart, wish, sizes[best]) < 200
      invariant minDiff != 200 ==> forall i | 0 <= i < k && eligible[i] :: minDiff <= Misfit(usePart, wish, sizes[i])
      invariant minDiff != 200 ==> forall i | best < i < k && eligible[i] :: minDiff < Misfit(usePart, wish, sizes[i])
    {
      if eligible[k] {
        if sizes[k] == FULL && usePart {
          minDiff, best := 0, k;
        }
        if sizes[k] - wish <= minDiff {
          minDiff, best := sizes[k] - wish, k;
        }
      }
    }
  }

  function Sizes(nodes: seq<Node>): (r: seq<int>)
    reads nodes
    ensures |r| == |nodes| && forall i | 0 <= i < |nodes| :: r[i] == nodes[i].size
  {
    seq(|nodes|, i requires 0 <= i < |nodes| reads nodes => nodes[i].size)
  }

  /** Which of `nodes` findBestFit may choose. */
  function Choices(cfg: Config, s: SimState, w: Wish, exclude: set<Node>, fits: Node -> bool, nodes: seq<Node>): (r: seq<bool>)
    reads *
    ensures |r| == |nodes| && forall i | 0 <= i < |nodes| :: r[i] == Eligible(cfg, s, w, exclude, fits, nodes[i])
  {
    seq(|nodes|, i requires 0 <= i < |nodes| reads * => Eligible(cfg, s, w, exclude, fits, nodes[i]))
  }

  /** findBestFit over the nodes of the cluster, GPU by GPU. */
  method FindBestFit(cfg: Config, s: SimState, w: Wish, exclude: set<Node>, fits: Node -> bool) returns (best: Node?)
    requires s.Valid() && 1 <= w.size
    ensures best == null ==> forall i | 0 <= i < |Flat(s.gpus)| :: !Choices(cfg, s, w, exclude, fits, Flat(s.gpus))[i]
    ensures best != null ==>
              exists k :: Best(cfg.usePart, w.size, Sizes(Flat(s.gpus)), Choices(cfg, s, w, exclude, fits, Flat(s.gpus)), k)
                          && best == Flat(s.gpus)[k]
    ensures best != null ==> s.Has(best) && Eligible(cfg, s, w, exclude, fits, best)
  {
    var nodes := Flat(s.gpus);
    var sizes, eligible := Sizes(nodes), Choices(cfg, s, w, exclude, fits, nodes);
    forall i | 0 <= i < |nodes| ensures nodes[i].size <= FULL && s.Has(nodes[i]) {
      FlatIsHas(s, nodes[i]);
    }
    var k := LeastMisfit(cfg.usePart, w.size, sizes, eligible);
    best := if k != -1 then nodes[k] else null;
  }

  // ----- checkFit -----

  /** Size promised on node `n` by the first `k` wishes. */
  ghost function PromisedUpTo(wishes: seq<Wish>, chosen: seq<Node>, n: Node, k: nat): int
    requires k <= |chosen| <= |wishes|
  {
    if k == 0 then 0 else PromisedUpTo(wishes, chosen, n, k - 1) + if chosen[k - 1] == n then wishes[k - 1].size else 0
  }

  ghost function Promised(wishes: seq<Wish>, chosen: seq<Node>, n: Node): int
    requires |chosen| <= |wishes|
  {
    PromisedUpTo(wishes, chosen, n, |chosen|)
  }

  lemma {:induction false} PromisedBefore(wishes: seq<Wish>, chosen: seq<Node>, best: Node, n: Node, k: nat)
    requires k <= |chosen| < |wishes|
    ensures PromisedUpTo(wishes, chosen + [best], n, k) == PromisedUpTo(wishes, chosen, n, k)
  {
    if k != 0 {
      PromisedBefore(wishes, chosen, best, n, k - 1);
    }
  }

  /** Promises and what remains of a node add up to no more than its size. */
  ghost predicate Within(wishes: seq<Wish>, chosen: seq<Node>, remain: map<Node, int>, sizes: map<Node, int>)
    requires |chosen| <= |wishes|
  {
    && (forall k | 0 <= k < |chosen| :: chosen[k] in remain)
    && (forall n | n in remain :: n in sizes && 0 <= remain[n] && Promised(wishes, chosen, n) + remain[n] <= sizes[n])
  }

  lemma PromiseOneMore(wishes: seq<Wish>, chosen: seq<Node>, remain: map<Node, int>, sizes: map<Node, int>, best: Node, left: int)
    requires |chosen| < |wishes| && Within(wishes, chosen, remain, sizes) && best in remain
    requires 0 <= left <= remain[best] - wishes[|chosen|].size
    ensures Within(wishes, chosen + [best], remain[best := left], sizes)
  {
    var more := chosen + [best];
    forall n | n in remain
      ensures Promised(wishes, more, n) == Promised(wishes, chosen, n) + if n == best then wishes[|chosen|].size else 0
    {
      PromisedBefore(wishes, chosen, best, n, |chosen|);
    }
  }

  lemma {:induction false} NotPromisedUpTo(wishes: seq<Wish>, chosen: seq<Node>, n: Node, k: nat)
    requires k <= |chosen| <= |wishes| && n !in chosen
    ensures PromisedUpTo(wishes, chosen, n, k) == 0
  {
    if k != 0 {
      NotPromisedUpTo(wishes, chosen, n, k - 1);
    }
  }

  lemma NotPromised(wishes: seq<Wish>, chosen: seq<Node>, n: Node)
    requires |chosen| <= |wishes| && n !in chosen
    ensures Promised(wishes, chosen, n) == 0
  {
    NotPromisedUpTo(wishes, chosen, n, |chosen|);
  }

  /** The node is free, of the type wished for, large enough, and passes the memory check. */
  ghost predicate Meets(s: SimState, w: Wish, fits: Node -> bool, n: Node)
    reads s`gpus, n
  {
    s.Has(n) && n.tasks == [] && n.kind == w.kind && w.size <= n.size && fits(n)
  }

  /** Each of the chosen nodes meets its wish. */
  ghost predicate AllMeet(s: SimState, wishes: seq<Wish>, fits: Node -> bool, chosen: seq<Node>)
    requires |chosen| <= |wishes|
    reads s, s.nodes
  {
    forall k | 0 <= k < |chosen| :: chosen[k] in s.nodes && Meets(s, wishes[k], fits, chosen[k])
  }

  lemma OneMoreMeets(s: SimState, wishes: seq<Wish>, fits: Node -> bool, chosen: seq<Node>, best: Node)
    requires |chosen| < |wishes| && AllMeet(s, wishes, fits, chosen)
    requires best in s.nodes && Meets(s, wishes[|chosen|], fits, best)
    ensures AllMeet(s, wishes, fits, chosen + [best])
  {
  }

  /** What checkFit needs to know of a best fit. */
  method SeekBest(cfg: Config, s: SimState, w: Wish, flagged: set<Node>, fits: Node -> bool) returns (best: Node?)
    requires s.Valid() && 1 <= w.size
    ensures best != null ==> Meets(s, w, fits, best) && best !in flagged && best in Flat(s.gpus)
  {
    best := FindBestFit(cfg, s, w, flagged, fits);
    if best != null { FlatIsHas(s, best); }
  }

  /** The inner loop of checkFit: the next node with enough left for `w`; nodes with too little are set aside. */
  method SeekNode(cfg: Config, s: SimState, w: Wish, flagged: set<Node>, remain: map<Node, int>, fits: Node -> bool)
    returns (best: Node?, flagged': set<Node>, remain': map<Node, int>)
    requires s.Valid() && 1 <= w.size
    ensures best != null ==> Meets(s, w, fits, best) && best in remain' && w.size <= remain'[best]
    ensures remain.Keys <= remain'.Keys && forall n | n in remain :: remain'[n] == remain[n]
    ensures forall n | n in remain' && n !in remain :: s.Has(n) && remain'[n] == n.size
  {
    flagged', remain', best := flagged, remain, null;
    ghost var all := set n | n in Flat(s.gpus);
    while true
      invariant remain.Keys <= remain'.Keys && forall n | n in remain :: remain'[n] == remain[n]
      invariant forall n | n in remain' && n !in remain :: s.Has(n) && remain'[n] == n.size
      decreases all - flagged'
    {
      best := SeekBest(cfg, s, w, flagged', fits);
      if best == null { break; }
      if best !in remain' { remain' := remain'[best := best.size]; }
      if w.size <= remain'[best] { break; }
      flagged' := flagged' + {best};
    }
  }

  lemma PromisesKept(wishes: seq<Wish>, chosen: seq<Node>, remain: map<Node, int>, sizes: map<Node, int>)
    requires |chosen| <= |wishes| && Within(wishes, chosen, remain, sizes)
    ensures forall n | n in chosen :: n in sizes && Promised(wishes, chosen, n) <= sizes[n]
  {
    forall n | n in chosen ensures n in sizes && Promised(wishes, chosen, n) <= sizes[n] {
      var k :| 0 <= k < |chosen| && chosen[k] == n;
    }
  }

  lemma StillWithin(s: SimState, wishes: seq<Wish>, chosen: seq<Node>, remain: map<Node, int>, remain': map<Node, int>,
                    sizes: map<Node, int>)
    requires s.Valid() && |chosen| <= |wishes| && Within(wishes, chosen, remain, sizes)
    requires sizes.Keys == (set n | n in Flat(s.gpus)) && forall n | n in sizes :: sizes[n] == n.size
    requires remain.Keys <= remain'.Keys && forall n | n in remain :: remain'[n] == remain[n]
    requires forall n | n in remain' && n !in remain :: s.Has(n) && remain'[n] == n.size
    ensures Within(wishes, chosen, remain', sizes)
  {
    forall n | n in remain' ensures n in sizes && 0 <= remain'[n] && Promised(wishes, chosen, n) + remain'[n] <= sizes[n] {
      if n !in remain {
        NotPromised(wishes, chosen, n);
        FlatIsHas(s, n);
      }
    }
  }

  /**
   * Would every wish find a node? Each chosen node meets its wish as it stands, and none is promised beyond its
   * size, however many wishes were promised a part of it.
   */
  method CheckFit(cfg: Config, s: SimState, wishes: seq<Wish>, repartition: bool, fits: Node -> bool)
    returns (ok: bool, chosen: seq<Node>)
    requires s.Valid() && forall w | w in wishes :: 1 <= w.size
    ensures |chosen| <= |wishes| && (ok <==> |chosen| == |wishes|)
    ensures AllMeet(s, wishes, fits, chosen)
    ensures forall n | n in chosen :: Promised(wishes, chosen, n) <= n.size
  {
    var flagged: set<Node> := {};
    var remain: map<Node, int> := map[];
    ghost var sizes := map n | n in Flat(s.gpus) :: n.size;
    ok, chosen := true, [];
    AllInCluster(s);
    for i := 0 to |wishes|
      invariant ok && |chosen| == i && Within(wishes, chosen, remain, sizes)
      invariant forall n | n in sizes :: n in s.nodes && sizes[n] == n.size
      invariant AllMeet(s, wishes, fits, chosen)
    {
      var best;
      best, flagged, remain := Promise(cfg, s, wishes, i, repartition, fits, flagged, remain, chosen, sizes);
      if best == null { ok := false; break; }
      OneMoreMeets(s, wishes, fits, chosen, best);
      chosen := chosen + [best];
    }
    PromisesKept(wishes, chosen, remain, sizes);
  }

  /** One round of checkFit: promise the `i`th wish a part of a node. */
  method Promise(cfg: Config, s: SimState, wishes: seq<Wish>, i: nat, repartition: bool, fits: Node -> bool,
                 flagged: set<Node>, remain: map<Node, int>, ghost chosen: seq<Node>, ghost sizes: map<Node, int>)
    returns (best: Node?, flagged': set<Node>, remain': map<Node, int>)
    requires s.Valid() && i == |chosen| < |wishes| && 1 <= wishes[i].size && Within(wishes, chosen, remain, sizes)
    requires sizes.Keys == (set n | n in Flat(s.gpus)) && forall n | n in sizes :: sizes[n] == n.size
    ensures best == null ==> Within(wishes, chosen, remain', sizes)
    ensures best != null ==> Within(wishes, chosen + [best], remain', sizes)
    ensures best != null ==> best in s.nodes && Meets(s, wishes[i], fits, best)
  {
    best, flagged', remain' := SeekNode(cfg, s, wishes[i], flagged, remain, fits);
    StillWithin(s, wishes, chosen, remain, remain', sizes);
    if best != null {
      FlatIsHas(s, best);
      var left := if repartition && remain'[best] == FULL then remain'[best] - wishes[i].size else 0;
      PromiseOneMore(wishes, chosen, remain', sizes, best, left);
      remain' := remain'[best := left];
      if left == 0 { flagged' := flagged' + {best}; }
    }
  }
}
