// The service's load balancer: its credit tables, filled from a scheduling result and polled by the proxies.
module Balancing {
  import opened Cluster
  import opened Fairness
  import opened Allocation

  // ----- keys -----

  /** Which share of which GPU serves a model, and how fast. */
  datatype Share = Share(model: int, gpu: int, part: int, dedup: int, throughput: real)

  /** getKey */
  function Key(model: int, gpu: int, part: int, dedup: int): int {
    10000000 * model + 1000 * part + 10 * gpu + dedup
  }

  function KeyOf(s: Share): int {
    Key(s.model, s.gpu, s.part, s.dedup)
  }

  /** The ranges the packing is good for; the documented ones (GPU 0..20, dedup 0..5) are within. */
  predicate InRange(gpu: int, part: int, dedup: int) {
    0 <= gpu < 100 && 0 <= part <= 100 && 0 <= dedup < 10
  }

  /** Within the ranges a key tells model, GPU, part and dedup number apart. */
  lemma KeyInjective(a: Share, b: Share)
    requires InRange(a.gpu, a.part, a.dedup) && InRange(b.gpu, b.part, b.dedup)
    ensures KeyOf(a) == KeyOf(b) <==> a.(throughput := 0.0) == b.(throughput := 0.0)
  {
    if KeyOf(a) == KeyOf(b) {
      ModelOfKey(a.model, a.gpu, a.part, a.dedup);
      ModelOfKey(b.model, b.gpu, b.part, b.dedup);
      assert 1000 * (a.part - b.part) + 10 * (a.gpu - b.gpu) + (a.dedup - b.dedup) == 0;
      assert a.part == b.part;
      assert a.gpu == b.gpu;
    }
  }

  /** containModelID recovers the model from the key. */
  lemma ModelOfKey(model: int, gpu: int, part: int, dedup: int)
    requires InRange(gpu, part, dedup)
    ensures Key(model, gpu, part, dedup) / 10000000 == model
  {
  }

  /** In a 32-bit int the packing overflows from model 215 on, and never before. */
  lemma KeyFitsInt(model: int, gpu: int, part: int, dedup: int)
    requires InRange(gpu, part, dedup) && 0 <= model
    ensures Key(model, gpu, part, dedup) <= 0x7fff_ffff <==> model <= 214
  {
  }

  // ----- the tables -----

  /** _TaskIDtoKeysMapping, _keyToCreditMapping, _keyToCurrCreditMapping and _TaskIDToMinCreditMapping. */
  datatype Tables = Tables(keys: map<int, seq<int>>, credit: map<int, real>, current: map<int, real>, least: map<int, real>)

  /** What one grant costs. No placement has throughput 0, for which the source would get infinity. */
  function Cost(throughput: real): real {
    if throughput == 0.0 then 0.0 else 1.0 / throughput
  }

  /** renewTable */
  function Renew(t: Tables, model: int, key: int, throughput: real): Tables {
    Tables(t.keys[model := (if model in t.keys then t.keys[model] else []) + [key]],
           t.credit[key := Cost(throughput)], t.current[key := 0.0], t.least[model := 10.0])
  }

  ghost predicate Fast(shares: seq<Share>) {
    forall i | 0 <= i < |shares| :: 0.0 < shares[i].throughput
  }

  /** The tables after renewing for the first `k` shares. */
  function RenewUpTo(shares: seq<Share>, k: nat): Tables
    requires k <= |shares|
  {
    if k == 0 then Tables(map[], map[], map[], map[])
    else Renew(RenewUpTo(shares, k - 1), shares[k - 1].model, KeyOf(shares[k - 1]), shares[k - 1].throughput)
  }

  function RenewAll(shares: seq<Share>): Tables {
    RenewUpTo(shares, |shares|)
  }

  ghost predicate KeysDiffer(shares: seq<Share>) {
    forall i, j | 0 <= i < j < |shares| :: KeyOf(shares[i]) != KeyOf(shares[j])
  }

  ghost predicate AllInRange(shares: seq<Share>) {
    forall i | 0 <= i < |shares| :: InRange(shares[i].gpu, shares[i].part, shares[i].dedup)
  }

  ghost predicate Listed(t: Tables, model: int, key: int) {
    model in t.keys && key in t.keys[model]
  }

  /**
   * Each share has its own key, with a credit of 1 / throughput of which nothing is used; and there is no
   * other key.
   */
  ghost predicate Holds(t: Tables, s: Share)
    requires 0.0 < s.throughput
  {
    var k := KeyOf(s);
    && k in t.credit && t.credit[k] == 1.0 / s.throughput && k in t.current && t.current[k] == 0.0
    && s.model in t.least && t.least[s.model] == 10.0 && Listed(t, s.model, k)
  }

  lemma {:induction false} EachShareKept(shares: seq<Share>, i: nat, k: nat)
    requires Fast(shares) && KeysDiffer(shares) && i < k <= |shares|
    ensures 0.0 < shares[i].throughput && Holds(RenewUpTo(shares, k), shares[i])
  {
    if i < k - 1 {
      EachShareKept(shares, i, k - 1);
    }
  }

  lemma EachShareItsKey(shares: seq<Share>, i: nat)
    requires Fast(shares) && KeysDiffer(shares) && i < |shares|
    ensures 0.0 < shares[i].throughput && Holds(RenewAll(shares), shares[i])
  {
    EachShareKept(shares, i, |shares|);
  }

  /** The tables are consistent: lists without repetition, every key listed under the model it encodes. */
  ghost predicate Consistent(t: Tables) {
    && t.keys.Keys == t.least.Keys && t.credit.Keys == t.current.Keys
    && (forall m | m in t.keys :: t.keys[m] != [])
    && (forall m, i {:trigger t.keys[m][i]} | m in t.keys && 0 <= i < |t.keys[m]| ::
          t.keys[m][i] in t.credit && t.keys[m][i] / 10000000 == m)
    && (forall m, i, j {:trigger t.keys[m][i], t.keys[m][j]} | m in t.keys && 0 <= i < j < |t.keys[m]| ::
          t.keys[m][i] != t.keys[m][j])
    && (forall k {:trigger KeyOk(t, k)} | k in t.credit :: KeyOk(t, k))
  }

  ghost predicate KeyOk(t: Tables, key: int)
    requires key in t.credit
  {
    0.0 < t.credit[key] && Listed(t, key / 10000000, key)
  }

  function CreditAt(t: Tables, model: int, i: nat): real
    requires Consistent(t) && model in t.keys && i < |t.keys[model]|
  {
    t.current[t.keys[model][i]]
  }

  function WeightAt(t: Tables, model: int, i: nat): (w: real)
    requires Consistent(t) && model in t.keys && i < |t.keys[model]|
    ensures 0.0 < w
  {
    assert KeyOk(t, t.keys[model][i]);
    t.credit[t.keys[model][i]]
  }

  /** The weighted round robin of one model, as it stands. */
  function CreditsOf(t: Tables, model: int): (c: Credits)
    requires Consistent(t) && model in t.keys
    ensures |c.current| == |t.keys[model]|
  {
    Credits(seq(|t.keys[model]|, i requires 0 <= i < |t.keys[model]| => CreditAt(t, model, i)), t.least[model])
  }

  function WeightsOf(t: Tables, model: int): (w: seq<real>)
    requires Consistent(t) && model in t.keys
    ensures Weights(w) && |w| == |t.keys[model]|
  {
    seq(|t.keys[model]|, i requires 0 <= i < |t.keys[model]| => WeightAt(t, model, i))
  }

  lemma {:induction false} ConsistentUpTo(shares: seq<Share>, k: nat)
    requires Fast(shares) && KeysDiffer(shares) && AllInRange(shares) && k <= |shares|
    ensures Consistent(RenewUpTo(shares, k))
    ensures forall key | key in RenewUpTo(shares, k).credit :: exists i | 0 <= i < k :: KeyOf(shares[i]) == key
  {
    if k != 0 {
      var s, before := shares[k - 1], RenewUpTo(shares, k - 1);
      ConsistentUpTo(shares, k - 1);
      ModelOfKey(s.model, s.gpu, s.part, s.dedup);
      assert KeyOf(shares[k - 1]) == KeyOf(s);
      OneMoreKey(before, s);
    }
  }

  lemma RenewedConsistent(shares: seq<Share>)
    requires Fast(shares) && KeysDiffer(shares) && AllInRange(shares)
    ensures Consistent(RenewAll(shares))
    ensures forall k | k in RenewAll(shares).credit :: exists i | 0 <= i < |shares| :: KeyOf(shares[i]) == k
  {
    ConsistentUpTo(shares, |shares|);
  }

  lemma OneMoreKey(t: Tables, s: Share)
    requires Consistent(t) && KeyOf(s) !in t.credit && 0.0 < s.throughput && KeyOf(s) / 10000000 == s.model
    ensures Consistent(Renew(t, s.model, KeyOf(s), s.throughput))
  {
    var k, t' := KeyOf(s), Renew(t, s.model, KeyOf(s), s.throughput);
    assert 0.0 < 1.0 / s.throughput;
    forall x | x in t'.credit ensures KeyOk(t', x) {
      if x == k {
        assert t'.keys[s.model][|t'.keys[s.model]|-1] == k;
      } else {
        assert KeyOk(t, x);
        var i :| 0 <= i < |t.keys[x / 10000000]| && t.keys[x / 10000000][i] == x;
        assert t'.keys[x / 10000000][i] == x;
      }
    }
  }

  // ----- the shares of a cluster -----

  function SharesOn(gpu: int, size: int, dedup: int, tasks: seq<Placement>): (r: seq<Share>)
    ensures |r| == |tasks|
    ensures forall i | 0 <= i < |r| :: r[i] == Share(tasks[i].id, gpu, size, dedup, tasks[i].throughput)
  {
    seq(|tasks|, i requires 0 <= i < |tasks| => Share(tasks[i].id, gpu, size, dedup, tasks[i].throughput))
  }

  function NodeShares(n: Node): (r: seq<Share>)
    reads n
    ensures |r| == |n.tasks|
  {
    SharesOn(n.id, n.size, n.dedup, n.tasks)
  }

  /** The first `k` lists, one behind the other. */
  function ConcatUpTo(lists: seq<seq<Share>>, k: nat): seq<Share>
    requires k <= |lists|
  {
    if k == 0 then [] else ConcatUpTo(lists, k - 1) + lists[k - 1]
  }

  function Concat(lists: seq<seq<Share>>): seq<Share> {
    ConcatUpTo(lists, |lists|)
  }

  function Offset(lists: seq<seq<Share>>, k: nat): nat
    requires k <= |lists|
  {
    if k == 0 then 0 else Offset(lists, k - 1) + |lists[k - 1]|
  }

  /** Where list `q` is in the concatenation. */
  lemma {:induction false} ConcatAt(lists: seq<seq<Share>>, q: nat, k: nat)
    requires q < k <= |lists|
    ensures |ConcatUpTo(lists, k)| == Offset(lists, k) >= Offset(lists, q) + |lists[q]|
    ensures forall i | 0 <= i < |lists[q]| :: ConcatUpTo(lists, k)[Offset(lists, q) + i] == lists[q][i]
  {
    if q < k - 1 {
      ConcatAt(lists, q, k - 1);
    } else {
      ConcatLength(lists, q);
    }
  }

  lemma {:induction false} ConcatLength(lists: seq<seq<Share>>, k: nat)
    requires k <= |lists|
    ensures |ConcatUpTo(lists, k)| == Offset(lists, k)
  {
    if k != 0 {
      ConcatLength(lists, k - 1);
    }
  }

  /** `all` are the lists, one behind the other. */
  ghost predicate Laid(all: seq<Share>, lists: seq<seq<Share>>) {
    && |all| == Offset(lists, |lists|)
    && forall q | 0 <= q < |lists| :: LaidAt(all, lists, q)
  }

  ghost predicate LaidAt(all: seq<Share>, lists: seq<seq<Share>>, q: nat)
    requires q < |lists|
  {
    && Offset(lists, q) + |lists[q]| <= |all|
    && forall i | 0 <= i < |lists[q]| :: all[Offset(lists, q) + i] == lists[q][i]
  }

  lemma ConcatLaid(lists: seq<seq<Share>>)
    ensures Laid(Concat(lists), lists)
  {
    ConcatLength(lists, |lists|);
    forall q | 0 <= q < |lists| ensures LaidAt(Concat(lists), lists, q) {
      ConcatAt(lists, q, |lists|);
    }
  }

  function PerNode(nodes: seq<Node>): (r: seq<seq<Share>>)
    reads nodes
    ensures |r| == |nodes|
  {
    seq(|nodes|, i requires 0 <= i < |nodes| reads nodes => NodeShares(nodes[i]))
  }

  function Shares(nodes: seq<Node>): seq<Share>
    reads nodes
  {
    Concat(PerNode(nodes))
  }

  lemma {:induction false} FlatPrefix(gpus: seq<Gpu>, i: nat)
    requires i < |gpus|
    ensures Flat(gpus[..i]) + gpus[i].nodes <= Flat(gpus)
    ensures Flat(gpus[..i+1]) == Flat(gpus[..i]) + gpus[i].nodes
  {
    var k := |gpus| - 1;
    assert gpus[..i+1][..i] == gpus[..i];
    if i < k {
      FlatPrefix(gpus[..k], i);
      assert gpus[..k][..i] == gpus[..i];
    } else {
      assert gpus[..k+1] == gpus;
    }
  }

  ghost predicate Good(shares: seq<Share>) {
    Fast(shares) && AllInRange(shares) && KeysDiffer(shares)
  }

  lemma Joined(a: seq<Share>, b: seq<Share>)
    requires Good(a) && Good(b)
    requires forall i, j | 0 <= i < |a| && 0 <= j < |b| :: KeyOf(a[i]) != KeyOf(b[j])
    ensures Good(a + b)
  {
    var c := a + b;
    forall i, j | 0 <= i < j < |c| ensures KeyOf(c[i]) != KeyOf(c[j]) {
      if i < |a| <= j { assert c[j] == b[j - |a|]; }
    }
  }

  ghost predicate NodeFits(n: Node)
    reads n
  {
    n.Valid() && InRange(n.id, n.size, n.dedup)
  }

  lemma NodeGood(n: Node)
    requires NodeFits(n)
    ensures Good(NodeShares(n))
    ensures forall x | x in NodeShares(n) :: OnNode(x, n)
  {
    var r := NodeShares(n);
    forall i, j | 0 <= i < j < |r| ensures KeyOf(r[i]) != KeyOf(r[j]) {
      KeyInjective(r[i], r[j]);
    }
  }

  ghost predicate OnNode(x: Share, n: Node)
    reads n`id, n`size, n`dedup
  {
    x.gpu == n.id && x.part == n.size && x.dedup == n.dedup
  }

  /** A share comes from one of the first `k` nodes. */
  ghost predicate From(x: Share, nodes: seq<Node>, k: nat)
    requires k <= |nodes|
    reads nodes`id, nodes`size, nodes`dedup
  {
    exists i | 0 <= i < k :: OnNode(x, nodes[i])
  }

  ghost predicate AllDiffer(nodes: seq<Node>)
    reads nodes
  {
    forall i, j | 0 <= i < j < |nodes| :: !IsSame(nodes[i], nodes[j])
  }

  /** Nodes that differ in GPU, size or dedup number give shares that differ in their keys. */
  lemma {:induction false} NodesGoodUpTo(nodes: seq<Node>, k: nat)
    requires k <= |nodes| && (forall n | n in nodes :: NodeFits(n)) && AllDiffer(nodes)
    ensures Good(ConcatUpTo(PerNode(nodes), k))
    ensures forall x | x in ConcatUpTo(PerNode(nodes), k) :: From(x, nodes, k)
  {
    if k != 0 {
      var n := nodes[k - 1];
      NodesGoodUpTo(nodes, k - 1);
      NodeGood(n);
      var a, b := ConcatUpTo(PerNode(nodes), k - 1), NodeShares(n);
      forall i, j | 0 <= i < |a| && 0 <= j < |b| ensures KeyOf(a[i]) != KeyOf(b[j]) {
        assert From(a[i], nodes, k - 1);
        KeyInjective(a[i], b[j]);
      }
      Joined(a, b);
      forall x | x in a + b ensures From(x, nodes, k) {
        if x in a { assert From(x, nodes, k - 1); } else { assert OnNode(x, nodes[k - 1]); }
      }
    }
  }

  lemma NodesGood(nodes: seq<Node>)
    requires (forall n | n in nodes :: NodeFits(n)) && AllDiffer(nodes)
    ensures Good(Shares(nodes))
  {
    NodesGoodUpTo(nodes, |nodes|);
  }

  /** In a legal cluster (GPU, size, dedup number) tells all nodes apart. */
  lemma {:induction false} NodesDiffer(s: SimState, k: nat)
    requires s.Valid() && k <= |s.gpus| <= 100
    ensures forall n | n in Flat(s.gpus[..k]) :: NodeFits(n) && n.id < k
    ensures AllDiffer(Flat(s.gpus[..k]))
  {
    if k > 0 {
      NodesDiffer(s, k - 1);
      assert s.gpus[..k][..k-1] == s.gpus[..k-1] && s.gpus[..k][k-1] == s.gpus[k-1];
      assert GpuOk(s.gpus[k-1]);
      var f, g := Flat(s.gpus[..k-1]), s.gpus[k-1].nodes;
      forall i, j | 0 <= i < j < |f + g| ensures !IsSame((f + g)[i], (f + g)[j]) {
        if j < |f| {
          assert !IsSame(f[i], f[j]);
        } else if i < |f| {
          assert f[i] in f && g[j - |f|] in g;
        } else {
          assert !IsSame(g[i - |f|], g[j - |f|]);
        }
      }
    }
  }

  /** In a legal cluster no two placements share a key. */
  lemma ClusterGood(s: SimState)
    requires s.Valid() && |s.gpus| <= 100
    ensures Good(Shares(Flat(s.gpus)))
  {
    assert s.gpus[..|s.gpus|] == s.gpus;
    NodesDiffer(s, |s.gpus|);
    NodesGood(Flat(s.gpus));
  }

  /** From `at` on, the lists are the shares of the nodes of `g`. */
  ghost predicate Matches(g: Gpu, at: nat, lists: seq<seq<Share>>)
    reads g.nodes
  {
    && at + |g.nodes| <= |lists|
    && forall j | 0 <= j < |g.nodes| :: lists[at + j] == SharesOn(g.id, g.nodes[j].size, g.nodes[j].dedup, g.nodes[j].tasks)
  }

  lemma ClusterMatches(s: SimState, x: nat)
    requires s.Valid() && x < |s.gpus|
    ensures Matches(s.gpus[x], |Flat(s.gpus[..x])|, PerNode(Flat(s.gpus)))
  {
    FlatPrefix(s.gpus, x);
    var n, g := |Flat(s.gpus[..x])|, s.gpus[x];
    forall j | 0 <= j < |g.nodes| ensures Flat(s.gpus)[n + j] == g.nodes[j] && g.nodes[j].id == g.id {
      assert Flat(s.gpus)[n + j] == (Flat(s.gpus[..x]) + g.nodes)[n + j];
      assert GpuOk(g) && g.nodes[j] in g.nodes;
    }
  }

  /** A key in the tables is in its model's list. */
  lemma FindKey(t: Tables, model: int, gpu: int, part: int, dedup: int) returns (i: nat)
    requires Consistent(t) && InRange(gpu, part, dedup) && Key(model, gpu, part, dedup) in t.current
    ensures model in t.keys && i < |t.keys[model]| && t.keys[model][i] == Key(model, gpu, part, dedup)
    ensures Key(model, gpu, part, dedup) in t.credit && model in t.least
    ensures CreditsOf(t, model).current[i] == t.current[Key(model, gpu, part, dedup)]
  {
    var key := Key(model, gpu, part, dedup);
    ModelOfKey(model, gpu, part, dedup);
    assert key in t.credit && KeyOk(t, key);
    i :| 0 <= i < |t.keys[model]| && t.keys[model][i] == key;
  }

  /** The tables after key number i of the model was admitted. */
  function Admit(t: Tables, model: int, i: nat): Tables
    requires Consistent(t) && model in t.keys && i < |t.keys[model]|
  {
    var key := t.keys[model][i];
    t.(current := t.current[key := t.current[key] + t.credit[key]], least := t.least[model := t.current[key] + t.credit[key]])
  }

  /** One admission is one poll of that model, and no other model notices. */
  lemma Polled(t: Tables, model: int, i: nat)
    requires Consistent(t) && model in t.keys && i < |t.keys[model]| && Admits(CreditsOf(t, model), i)
    ensures Consistent(Admit(t, model, i))
    ensures CreditsOf(Admit(t, model, i), model) == Poll(WeightsOf(t, model), CreditsOf(t, model), i)
    ensures WeightsOf(Admit(t, model, i), model) == WeightsOf(t, model)
    ensures forall m | m in t.keys && m != model :: CreditsOf(Admit(t, model, i), m) == CreditsOf(t, m)
  {
    var t' := Admit(t, model, i);
    var key := t.keys[model][i];
    forall k | k in t'.credit ensures KeyOk(t', k) {
      assert KeyOk(t, k);
    }
    forall m, j | m in t.keys && 0 <= j < |t.keys[m]| && (m != model || j != i) ensures t.keys[m][j] != key {
      assert t.keys[m][j] / 10000000 == m;
    }
  }

  /** checkWRR for key number i of the model. */
  function PollTable(t: Tables, model: int, i: nat): Tables
    requires Consistent(t) && model in t.keys && i < |t.keys[model]|
  {
    if Admits(CreditsOf(t, model), i) then Admit(t, model, i) else t
  }

  lemma PollTableKeeps(t: Tables, model: int, i: nat)
    requires Consistent(t) && model in t.keys && i < |t.keys[model]|
    ensures Consistent(PollTable(t, model, i)) && PollTable(t, model, i).keys == t.keys
    ensures PollTable(t, model, i).credit == t.credit
    ensures forall m | m in t.keys ::
              CreditsOf(PollTable(t, model, i), m)
              == if m == model then Poll(WeightsOf(t, m), CreditsOf(t, m), i) else CreditsOf(t, m)
  {
    if Admits(CreditsOf(t, model), i) {
      Polled(t, model, i);
    }
  }

  /** Polls of any models' keys, each given by its model and its number in the model's list. */
  ghost predicate PollsOf(t: Tables, polls: seq<(int, nat)>) {
    forall k | 0 <= k < |polls| :: polls[k].0 in t.keys && polls[k].1 < |t.keys[polls[k].0]|
  }

  ghost function RunTable(t: Tables, polls: seq<(int, nat)>): (r: Tables)
    requires Consistent(t) && PollsOf(t, polls)
    ensures Consistent(r) && r.keys == t.keys && r.credit == t.credit
    decreases |polls|
  {
    if polls == [] then t
    else
      var k := |polls| - 1;
      var before := RunTable(t, polls[..k]);
      PollTableKeeps(before, polls[k].0, polls[k].1);
      PollTable(before, polls[k].0, polls[k].1)
  }

  /** The polls of one model among those of all. */
  function OfModel(polls: seq<(int, nat)>, model: int): seq<nat> {
    if polls == [] then []
    else
      var k := |polls| - 1;
      OfModel(polls[..k], model) + if polls[k].0 == model then [polls[k].1] else []
  }

  /** However the models' polls interleave, each model goes through its own weighted round robin. */
  lemma {:induction false} ModelsAreIndependent(t: Tables, polls: seq<(int, nat)>, model: int)
    requires Consistent(t) && PollsOf(t, polls) && model in t.keys
    requires CreditsOf(t, model) == Start(WeightsOf(t, model))
    ensures Polls(WeightsOf(t, model), OfModel(polls, model))
    ensures CreditsOf(RunTable(t, polls), model) == Run(WeightsOf(t, model), OfModel(polls, model))
  {
    if polls != [] {
      var k := |polls| - 1;
      ModelsAreIndependent(t, polls[..k], model);
      ModelStep(t, RunTable(t, polls[..k]), polls[k].0, polls[k].1, model, OfModel(polls[..k], model));
    }
  }

  lemma ModelStep(t: Tables, r: Tables, m: int, i: nat, model: int, mine: seq<nat>)
    requires Consistent(t) && Consistent(r) && t.keys == r.keys && t.credit == r.credit
    requires m in t.keys && i < |t.keys[m]| && model in t.keys
    requires Polls(WeightsOf(t, model), mine) && CreditsOf(r, model) == Run(WeightsOf(t, model), mine)
    ensures Consistent(PollTable(r, m, i)) && PollTable(r, m, i).keys == t.keys
    ensures var mine' := mine + if m == model then [i] else [];
            Polls(WeightsOf(t, model), mine') && CreditsOf(PollTable(r, m, i), model) == Run(WeightsOf(t, model), mine')
  {
    PollOne(r, t, m, i, model);
    if m == model {
      RunAppend(WeightsOf(t, model), mine, i);
    } else {
      assert mine + [] == mine;
    }
  }

  lemma PollOne(before: Tables, t: Tables, m: int, i: nat, model: int)
    requires Consistent(before) && m in before.keys && i < |before.keys[m]| && model in before.keys
    requires Consistent(t) && t.keys == before.keys && t.credit == before.credit
    ensures Consistent(PollTable(before, m, i)) && PollTable(before, m, i).keys == t.keys
    ensures CreditsOf(PollTable(before, m, i), model)
         == if model == m then Poll(WeightsOf(t, model), CreditsOf(before, model), i) else CreditsOf(before, model)
  {
    PollTableKeeps(before, m, i);
    assert WeightsOf(before, model) == WeightsOf(t, model);
  }

  lemma RunAppend(w: seq<real>, a: seq<nat>, x: nat)
    requires Polls(w, a)
    ensures x < |w| ==> Polls(w, a + [x]) && Run(w, a + [x]) == Poll(w, Run(w, a), x)
  {
    assert (a + [x])[..|a|] == a;
  }

  /** After a renewal every model starts with nothing used. */
  lemma RenewalStarts(shares: seq<Share>, model: int)
    requires Good(shares) && model in RenewAll(shares).keys
    ensures Consistent(RenewAll(shares))
    ensures CreditsOf(RenewAll(shares), model) == Start(WeightsOf(RenewAll(shares), model))
  {
    RenewedConsistent(shares);
    NothingUsed(shares, |shares|);
    var t := RenewAll(shares);
    assert forall i | 0 <= i < |t.keys[model]| :: CreditAt(t, model, i) == 0.0;
  }

  lemma {:induction false} NothingUsed(shares: seq<Share>, k: nat)
    requires k <= |shares|
    ensures forall key | key in RenewUpTo(shares, k).current :: RenewUpTo(shares, k).current[key] == 0.0
    ensures forall m | m in RenewUpTo(shares, k).least :: RenewUpTo(shares, k).least[m] == 10.0
  {
    if k != 0 { NothingUsed(shares, k - 1); }
  }

  /**
   * Fairness over whole runs: after a table renewal, as long as the keys of a model are polled in turn,
   * whatever happens to other models in between, no two of them drift apart by more than the costs of one
   * grant of each.
   */
  lemma BalancedFairly(shares: seq<Share>, polls: seq<(int, nat)>, model: int, i: nat, j: nat)
    requires Good(shares) && model in RenewAll(shares).keys
    requires Consistent(RenewAll(shares)) && PollsOf(RenewAll(shares), polls)
    requires Cyclic(WeightsOf(RenewAll(shares), model), OfModel(polls, model))
    requires i < |RenewAll(shares).keys[model]| && j < |RenewAll(shares).keys[model]|
    ensures var w, used := WeightsOf(RenewAll(shares), model), CreditsOf(RunTable(RenewAll(shares), polls), model).current;
            used[i] - used[j] <= Sum(w) - w[j]
  {
    RenewalStarts(shares, model);
    ModelsAreIndependent(RenewAll(shares), polls, model);
    CyclicPollingIsFair(WeightsOf(RenewAll(shares), model), OfModel(polls, model), i, j);
  }

  /**
   * And in terms of what was placed: the placements of a model, so polled, are granted requests in proportion to
   * their throughputs, up to the costs of one grant of each.
   */
  lemma SharesFairly(shares: seq<Share>, polls: seq<(int, nat)>, model: int, x: nat, y: nat) returns (i: nat, j: nat)
    requires Good(shares) && x < |shares| && y < |shares| && shares[x].model == shares[y].model == model
    requires model in RenewAll(shares).keys && Consistent(RenewAll(shares)) && PollsOf(RenewAll(shares), polls)
    requires Cyclic(WeightsOf(RenewAll(shares), model), OfModel(polls, model))
    ensures i < |RenewAll(shares).keys[model]| && RenewAll(shares).keys[model][i] == KeyOf(shares[x])
    ensures j < |RenewAll(shares).keys[model]| && RenewAll(shares).keys[model][j] == KeyOf(shares[y])
    ensures 0.0 < shares[x].throughput && 0.0 < shares[y].throughput
    ensures var w, granted := WeightsOf(RenewAll(shares), model), OfModel(polls, model);
            && w[j] == 1.0 / shares[y].throughput && Polls(w, granted)
            && Per(Grants(w, granted, i), shares[x].throughput) - Per(Grants(w, granted, j), shares[y].throughput) <= Sum(w) - w[j]
  {
    i := PlaceOfKey(shares, x);
    j := PlaceOfKey(shares, y);
    RenewalStarts(shares, model);
    ModelsAreIndependent(RenewAll(shares), polls, model);
    var w, granted := WeightsOf(RenewAll(shares), model), OfModel(polls, model);
    CyclicPollingIsFair(w, granted, i, j);
    CreditIsPer(w, granted, i, shares[x].throughput);
    CreditIsPer(w, granted, j, shares[y].throughput);
    CreditAddsUp(w, granted, i);
    CreditAddsUp(w, granted, j);
  }

  /** Where the key of a placement stands among those of its model, and what it weighs. */
  lemma PlaceOfKey(shares: seq<Share>, x: nat) returns (i: nat)
    requires Good(shares) && x < |shares| && Consistent(RenewAll(shares)) && shares[x].model in RenewAll(shares).keys
    ensures i < |RenewAll(shares).keys[shares[x].model]| && RenewAll(shares).keys[shares[x].model][i] == KeyOf(shares[x])
    ensures 0.0 < shares[x].throughput && WeightAt(RenewAll(shares), shares[x].model, i) == 1.0 / shares[x].throughput
  {
    EachShareItsKey(shares, x);
    i :| 0 <= i < |RenewAll(shares).keys[shares[x].model]| && RenewAll(shares).keys[shares[x].model][i] == KeyOf(shares[x]);
  }

  // ----- the balancer -----

  datatype BalancerType = NoBalancing | WRR

  class LoadBalancer {
    var kind: BalancerType
    var keys: map<int, seq<int>>
    var credit: map<int, real>
    var current: map<int, real>
    var least: map<int, real>

    /** Load balancing is off by default. */
    constructor ()
      ensures kind == NoBalancing && View() == RenewAll([])
    {
      kind, keys, credit, current, least := NoBalancing, map[], map[], map[], map[];
    }

    function View(): Tables
      reads this
    {
      Tables(keys, credit, current, least)
    }

    method RenewTable(model: int, key: int, throughput: real)
      modifies this`keys, this`credit, this`current, this`least
      ensures View() == Renew(old(View()), model, key, throughput)
    {
      credit := credit[key := Cost(throughput)];
      current := current[key := 0.0];
      least := least[model := 10.0];
      keys := keys[model := (if model in keys then keys[model] else []) + [key]];
    }

    /** The placements of one node, which are the shares from `at` on. */
    method RenewNode(gpu: int, size: int, dedup: int, tasks: seq<Placement>, ghost all: seq<Share>, ghost at: nat)
      requires at + |tasks| <= |all| && View() == RenewUpTo(all, at)
      requires forall i | 0 <= i < |tasks| :: all[at + i] == Share(tasks[i].id, gpu, size, dedup, tasks[i].throughput)
      modifies this`keys, this`credit, this`current, this`least
      ensures View() == RenewUpTo(all, at + |tasks|)
    {
      for i := 0 to |tasks|
        invariant View() == RenewUpTo(all, at + i)
      {
        var t := tasks[i];
        assert all[at + i] == Share(t.id, gpu, size, dedup, t.throughput);
        RenewTable(t.id, Key(t.id, gpu, size, dedup), t.throughput);
      }
    }

    /** The tables are those of the first `k` lists. */
    ghost predicate UpTo(all: seq<Share>, lists: seq<seq<Share>>, k: nat)
      reads this
    {
      k <= |lists| && Offset(lists, k) <= |all| && View() == RenewUpTo(all, Offset(lists, k))
    }

    /** The nodes of one GPU, whose shares are the lists from `at` on. */
    method RenewGpu(g: Gpu, ghost all: seq<Share>, ghost lists: seq<seq<Share>>, ghost at: nat)
      requires Matches(g, at, lists) && Laid(all, lists) && UpTo(all, lists, at)
      modifies this`keys, this`credit, this`current, this`least
      ensures UpTo(all, lists, at + |g.nodes|)
    {
      for j := 0 to |g.nodes|
        invariant Matches(g, at, lists) && UpTo(all, lists, at + j)
      {
        var node := g.nodes[j];
        assert LaidAt(all, lists, at + j) && lists[at + j] == SharesOn(g.id, node.size, node.dedup, node.tasks);
        RenewNode(g.id, node.size, node.dedup, node.tasks, all, Offset(lists, at + j));
      }
    }

    method RenewCluster(gpus: seq<Gpu>, ghost all: seq<Share>, ghost lists: seq<seq<Share>>)
      requires |lists| == |Flat(gpus)| && Laid(all, lists) && View() == RenewAll([])
      requires forall x | 0 <= x < |gpus| :: Matches(gpus[x], |Flat(gpus[..x])|, lists)
      modifies this`keys, this`credit, this`current, this`least
      ensures View() == RenewAll(all)
    {
      ghost var at := 0;
      for i := 0 to |gpus|
        invariant at == |Flat(gpus[..i])| && UpTo(all, lists, at)
        invariant forall x | 0 <= x < |gpus| :: Matches(gpus[x], |Flat(gpus[..x])|, lists)
      {
        FlatPrefix(gpus, i);
        RenewGpu(gpus[i], all, lists, at);
        at := at + |gpus[i].nodes|;
      }
      assert gpus[..|gpus|] == gpus;
    }

    /**
     * updateWRR: the tables hold one key for every placement of the cluster, with a credit of 1 / throughput
     * and nothing used, and no other key.
     */
    method UpdateWRR(s: SimState)
      requires s.Valid() && |s.gpus| <= 100
      modifies this`keys, this`credit, this`current, this`least
      ensures Good(old(Shares(Flat(s.gpus)))) && View() == RenewAll(old(Shares(Flat(s.gpus))))
      ensures Consistent(View())
    {
      ClusterGood(s);
      ghost var lists := PerNode(Flat(s.gpus));
      RenewedConsistent(Concat(lists));
      forall x | 0 <= x < |s.gpus| ensures Matches(s.gpus[x], |Flat(s.gpus[..x])|, lists) {
        ClusterMatches(s, x);
      }
      keys, credit, current, least := map[], map[], map[], map[];
      ConcatLaid(lists);
      RenewCluster(s.gpus, Concat(lists), lists);
    }

    /** checkMinCredit */
    predicate MinCredit(model: int, key: int)
      reads this
      requires key in current && model in least
    {
      current[key] <= least[model]
    }

    /**
     * checkWRR for the proxy of a share. A key that is not in the tables is let through: the source returns
     * EXIT_FAILURE, which is true, from a function that answers whether to go on. Otherwise the answer and the
     * new tables are those of the weighted round robin of the model.
     */
    method CheckWRR(model: int, gpu: int, part: int, dedup: int) returns (admitted: bool, ghost i: nat)
      requires Consistent(View()) && InRange(gpu, part, dedup)
      modifies this`current, this`least
      ensures Consistent(View())
      ensures Key(model, gpu, part, dedup) !in old(current) ==> admitted && View() == old(View())
      ensures Key(model, gpu, part, dedup) in old(current) ==>
                && model in old(keys) && i < |old(keys[model])| && old(keys[model])[i] == Key(model, gpu, part, dedup)
                && admitted == Admits(CreditsOf(old(View()), model), i)
                && View() == PollTable(old(View()), model, i)
    {
      var key := Key(model, gpu, part, dedup);
      i := 0;
      if key !in current { return true, i; }
      ghost var before := View();
      i := FindKey(before, model, gpu, part, dedup);
      admitted := MinCredit(model, key);
      if admitted {
        Polled(before, model, i);
        current := current[key := current[key] + credit[key]];
        least := least[model := current[key]];
        assert View() == PollTable(before, model, i);
      }
    }

    /** updateTable: with balancing off nothing is built. */
    method UpdateTable(s: SimState)
      requires s.Valid() && |s.gpus| <= 100
      modifies this`keys, this`credit, this`current, this`least
      ensures View() == if kind == NoBalancing then old(View()) else RenewAll(old(Shares(Flat(s.gpus))))
      ensures kind == WRR ==> Consistent(View())
    {
      if kind == WRR { UpdateWRR(s); }
    }

    /** checkLoad: with balancing off every task is let through. */
    method CheckLoad(model: int, gpu: int, part: int, dedup: int) returns (admitted: bool, ghost i: nat)
      requires kind == WRR ==> Consistent(View()) && InRange(gpu, part, dedup)
      modifies this`current, this`least
      ensures kind == NoBalancing || Key(model, gpu, part, dedup) !in old(current) ==> admitted && View() == old(View())
      ensures kind == WRR && Key(model, gpu, part, dedup) in old(current) ==>
                && model in old(keys) && i < |old(keys[model])| && old(keys[model])[i] == Key(model, gpu, part, dedup)
                && admitted == Admits(CreditsOf(old(View()), model), i)
                && View() == PollTable(old(View()), model, i)
    {
      if kind == NoBalancing { return true, 0; }
      admitted, i := CheckWRR(model, gpu, part, dedup);
    }
  }
}
