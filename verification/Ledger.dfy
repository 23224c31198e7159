// What adding a model does to a cluster as a whole: who is served what before and after, step by step.
module Ledger {
  import opened Cluster
  import opened Adjust
  import opened Allocation
  import opened Estimation
  import opened Accounts
  import opened Merging
  import opened TimeSharing

  // ----- the books of a cluster -----

  /** What every node runs, and which nodes are on which GPU. */
  datatype Books = Books(tasks: map<Node, seq<Placement>>, layout: seq<seq<Node>>)

  ghost function BooksOf(s: SimState): Books
    reads s`gpus, s`nodes, s.nodes`tasks
  {
    Books(map n | n in s.nodes :: n.tasks, LayoutOf(s.gpus))
  }

  function LayoutOf(gpus: seq<Gpu>): (r: seq<seq<Node>>)
    ensures |r| == |gpus| && forall i | 0 <= i < |r| :: r[i] == gpus[i].nodes
  {
    seq(|gpus|, i requires 0 <= i < |gpus| => gpus[i].nodes)
  }

  function TasksIn(b: Books, n: Node): seq<Placement> {
    if n in b.tasks then b.tasks[n] else []
  }

  /** What the first `k` of `nodes` serve `model` with. */
  function GivenUpTo(b: Books, model: int, nodes: seq<Node>, k: nat): real
    requires k <= |nodes|
  {
    if k == 0 then 0.0 else GivenUpTo(b, model, nodes, k - 1) + Throughput(TasksIn(b, nodes[k - 1]), model)
  }

  function Given(b: Books, model: int, nodes: seq<Node>): real {
    GivenUpTo(b, model, nodes, |nodes|)
  }

  /** What the nodes on the first `k` GPUs serve `model` with. */
  function SupplyUpTo(b: Books, model: int, k: nat): real
    requires k <= |b.layout|
  {
    if k == 0 then 0.0 else SupplyUpTo(b, model, k - 1) + Given(b, model, b.layout[k - 1])
  }

  /** What the cluster serves `model` with. */
  function SupplyIn(b: Books, model: int): real {
    SupplyUpTo(b, model, |b.layout|)
  }

  function Members(nodes: seq<Node>): set<Node> {
    set n | n in nodes
  }

  /** The nodes on the first `k` GPUs. */
  function GridUpTo(layout: seq<seq<Node>>, k: nat): set<Node>
    requires k <= |layout|
  {
    if k == 0 then {} else GridUpTo(layout, k - 1) + Members(layout[k - 1])
  }

  /** `n` is on a GPU. */
  predicate OnGrid(b: Books, n: Node) {
    n in GridUpTo(b.layout, |b.layout|)
  }

  /** Every GPU has one node or two, and every node is in one place at most. */
  ghost predicate Legal(b: Books) {
    && (forall i | 0 <= i < |b.layout| ::
          1 <= |b.layout[i]| <= 2 && (|b.layout[i]| == 2 ==> b.layout[i][0] != b.layout[i][1]) && forall n | n in b.layout[i] :: n in b.tasks)
    && forall i, j | 0 <= i < j < |b.layout| :: forall n | n in b.layout[i] :: n !in b.layout[j]
  }

  lemma {:induction false} GridMeans(layout: seq<seq<Node>>, k: nat, n: Node)
    requires k <= |layout|
    ensures n in GridUpTo(layout, k) <==> exists i | 0 <= i < k :: n in layout[i]
  {
    if k != 0 {
      GridMeans(layout, k - 1, n);
    }
  }

  lemma {:induction false} GridBounded(layout: seq<seq<Node>>, k: nat)
    requires k <= |layout| && forall i | 0 <= i < |layout| :: |layout[i]| <= 2
    ensures |GridUpTo(layout, k)| <= 2 * k
  {
    if k != 0 {
      GridBounded(layout, k - 1);
      MembersBounded(layout[k - 1]);
    }
  }

  lemma {:induction false} MembersBounded(nodes: seq<Node>)
    ensures |Members(nodes)| <= |nodes|
  {
    if nodes != [] {
      var k := |nodes| - 1;
      MembersBounded(nodes[..k]);
      assert Members(nodes) == Members(nodes[..k]) + {nodes[k]};
    }
  }

  lemma {:induction false} MembersOf(nodes: seq<Node>)
    requires AllDistinct(nodes)
    ensures |Members(nodes)| == |nodes|
  {
    if nodes != [] {
      var k := |nodes| - 1;
      MembersOf(nodes[..k]);
      assert nodes[k] !in nodes[..k];
      assert Members(nodes) == Members(nodes[..k]) + {nodes[k]};
    }
  }

  /** Distinct nodes on the GPUs are no more than two for each. */
  lemma FewOnGrid(b: Books, nodes: seq<Node>)
    requires Legal(b) && AllDistinct(nodes) && forall n | n in nodes :: OnGrid(b, n)
    ensures |nodes| <= 2 * |b.layout|
  {
    MembersOf(nodes);
    GridBounded(b.layout, |b.layout|);
    SubsetBounded(Members(nodes), GridUpTo(b.layout, |b.layout|));
  }

  lemma {:induction false} SubsetBounded(a: set<Node>, b: set<Node>)
    requires a <= b
    ensures |a| <= |b|
  {
    if a != {} {
      var n :| n in a;
      SubsetBounded(a - {n}, b - {n});
    }
  }

  lemma {:induction false} NodesInBooks(s: SimState, b: Books, model: int, nodes: seq<Node>, k: nat)
    requires b == BooksOf(s) && k <= |nodes| && forall n | n in nodes :: n in s.nodes
    ensures GivenUpTo(b, model, nodes, k) == NodesUpTo(nodes, model, k)
  {
    if k != 0 {
      NodesInBooks(s, b, model, nodes, k - 1);
    }
  }

  lemma {:induction false} GpusInBooks(s: SimState, b: Books, model: int, k: nat)
    requires Closed(s) && b == BooksOf(s) && k <= |s.gpus|
    ensures SupplyUpTo(b, model, k) == GpusUpTo(s, model, k)
  {
    if k != 0 {
      GpusInBooks(s, b, model, k - 1);
      var nodes := s.gpus[k - 1].nodes;
      assert b.layout[k - 1] == nodes && forall n | n in nodes :: n in s.nodes;
      NodesInBooks(s, b, model, nodes, |nodes|);
    }
  }

  /** The books of a legal cluster are legal, and tell its supply. */
  lemma BooksSeen(s: SimState)
    requires s.Valid()
    ensures Legal(BooksOf(s)) && |BooksOf(s).layout| == |s.gpus|
    ensures forall m: int :: SupplyIn(BooksOf(s), m) == Supply(s, m)
    ensures forall n | n in s.nodes :: OnGrid(BooksOf(s), n) <==> s.Has(n)
  {
    var b := BooksOf(s);
    forall i | 0 <= i < |s.gpus| ensures GpuOk(s.gpus[i]) && forall n | n in s.gpus[i].nodes :: n in s.nodes && n.id == i {
    }
    forall m: int ensures SupplyIn(b, m) == Supply(s, m) { GpusInBooks(s, b, m, |s.gpus|); }
    forall n | n in s.nodes ensures OnGrid(b, n) <==> s.Has(n) {
      GridMeans(b.layout, |b.layout|, n);
    }
  }

  // ----- who serves whom -----

  ghost predicate AllDistinct(nodes: seq<Node>) {
    forall i, j | 0 <= i < j < |nodes| :: nodes[i] != nodes[j]
  }

  ghost predicate Served(b: Books, n: Node, model: int) {
    n in b.tasks && Contains(b.tasks[n], model)
  }

  lemma {:induction false} GivenSame(b: Books, c: Books, model: int, nodes: seq<Node>, more: seq<Node>, k: nat)
    requires k <= |nodes| && forall n | n in nodes :: TasksIn(c, n) == TasksIn(b, n)
    ensures GivenUpTo(c, model, nodes + more, k) == GivenUpTo(b, model, nodes, k)
  {
    if k != 0 {
      GivenSame(b, c, model, nodes, more, k - 1);
    }
  }

  lemma {:induction false} GivenOfBoth(b: Books, model: int, nodes: seq<Node>, more: seq<Node>, k: nat)
    requires k <= |more|
    ensures GivenUpTo(b, model, nodes + more, |nodes| + k) == Given(b, model, nodes) + GivenUpTo(b, model, more, k)
  {
    if k == 0 {
      GivenSame(b, b, model, nodes, more, |nodes|);
    } else {
      GivenOfBoth(b, model, nodes, more, k - 1);
      assert (nodes + more)[|nodes| + k - 1] == more[k - 1];
    }
  }

  lemma {:induction false} GivenIsSum(b: Books, model: int, nodes: seq<Node>, amounts: seq<real>, k: nat)
    requires k <= |nodes| == |amounts| && forall i | 0 <= i < |nodes| :: Throughput(TasksIn(b, nodes[i]), model) == amounts[i]
    ensures GivenUpTo(b, model, nodes, k) == SumUpTo(amounts, k)
  {
    if k != 0 {
      GivenIsSum(b, model, nodes, amounts, k - 1);
    }
  }

  // ----- the steps of adding a model -----

  /** The books keep their GPUs and are legal. */
  ghost predicate SameGpus(b: Books, c: Books) {
    Legal(b) && Legal(c) && |c.layout| == |b.layout| && b.tasks.Keys <= c.tasks.Keys
  }

  /** Withdrawing a model leaves the others alone. */
  ghost predicate Withdrawn(a: Books, b: Books, model: int) {
    && SameGpus(a, b) && b.layout == a.layout && b.tasks.Keys == a.tasks.Keys
    && (forall n | n in a.tasks :: Others(b.tasks[n], model) == Others(a.tasks[n], model))
    && (forall n | n in b.tasks && Served(b, n, model) :: Served(a, n, model))
    && (forall m: int | m != model :: SupplyIn(b, m) == SupplyIn(a, m))
  }

  /** Of the nodes, `more`, distinct ones that were empty or are new, serve `model` alone now; no other has changed. */
  ghost predicate FilledOn(b: Books, c: Books, model: int, more: seq<Node>) {
    && b.tasks.Keys <= c.tasks.Keys && AllDistinct(more)
    && (forall n | n in b.tasks && n !in more :: c.tasks[n] == b.tasks[n])
    && (forall n | n in c.tasks && n !in b.tasks && n !in more :: c.tasks[n] == [])
    && (forall n | n in more ::
          n in c.tasks && |c.tasks[n]| == 1 && c.tasks[n][0].id == model && (n in b.tasks ==> b.tasks[n] == []))
  }

  /** Placing on `more`: they are on the GPUs, none that was has left its GPU, and what they serve is what the model gains. */
  ghost predicate PutOn(b: Books, c: Books, model: int, more: seq<Node>) {
    && SameGpus(b, c) && FilledOn(b, c, model, more)
    && (forall n | n in more :: OnGrid(c, n)) && (forall n | n in b.tasks && OnGrid(b, n) :: OnGrid(c, n))
    && (forall m: int :: SupplyIn(c, m) == SupplyIn(b, m) + if m == model then Given(c, model, more) else 0.0)
  }

  /** The node of `r` serves `model` alone, with the amount `r` says. */
  ghost predicate Held(b: Books, model: int, r: Residue) {
    && r.node in b.tasks && |b.tasks[r.node]| == 1
    && b.tasks[r.node][0].id == model && b.tasks[r.node][0].throughput == r.amount
  }

  /** What the home of a merged load serves the model with. */
  function HomeGives(c: Books, model: int, home: Node?): real {
    if home == null then 0.0 else Throughput(TasksIn(c, home), model)
  }

  /**
   * The residues, distinct nodes that served `model`, are empty, and `home`, one of them or a node that was, serves it.
   * No other node has changed.
   */
  ghost predicate Rehomed(b: Books, c: Books, model: int, residues: seq<Residue>, home: Node?) {
    && c.tasks.Keys == b.tasks.Keys && Distinct(residues) && (forall r | r in residues :: Held(b, model, r))
    && (forall n | n in c.tasks && n != home ::
          if n in NodesOf(residues) then c.tasks[n] == [] else c.tasks[n] == b.tasks[n])
    && (home != null ==>
          && home in c.tasks && residues != [] && |c.tasks[home]| == 1 && c.tasks[home][0].id == model
          && (b.tasks[home] == [] || home in NodesOf(residues)))
  }

  /**
   * Merging: the residues and the home are on the GPUs, and no node that serves something has left its GPU. The model
   * loses what the residues served and gains what its home gives.
   */
  ghost predicate MergedInto(b: Books, c: Books, model: int, residues: seq<Residue>, home: Node?) {
    && SameGpus(b, c) && Rehomed(b, c, model, residues, home)
    && (forall r | r in residues :: OnGrid(b, r.node)) && (home != null ==> OnGrid(c, home))
    && (forall n | n in c.tasks && c.tasks[n] != [] && OnGrid(b, n) :: OnGrid(c, n))
    && (forall m: int ::
          SupplyIn(c, m) == SupplyIn(b, m) + if m == model then HomeGives(c, model, home) - ServedBy(residues) else 0.0)
  }

  /** `n` took `model` in, and whoever was there keeps up with its rate. */
  ghost predicate JoinedAt(b: Books, c: Books, model: int, n: Node) {
    && n in b.tasks && n in c.tasks && !Served(b, n, model) && Served(c, n, model)
    && SameDemand(Others(b.tasks[n], model), Others(c.tasks[n], model)) && AllKeepUp(Others(c.tasks[n], model))
  }

  /**
   * Sharing: the distinct nodes `shared` on the GPUs took the model in, and whoever was there keeps up with its rate. No
   * other node has changed; the model gains what it is served on them.
   */
  ghost predicate SharedInto(b: Books, c: Books, model: int, shared: seq<Node>) {
    && SameGpus(b, c) && c.layout == b.layout && c.tasks.Keys == b.tasks.Keys && AllDistinct(shared)
    && (forall n | n in b.tasks && n !in shared :: c.tasks[n] == b.tasks[n])
    && (forall n | n in shared ::
          OnGrid(c, n) && JoinedAt(b, c, model, n))
    && SupplyIn(c, model) == SupplyIn(b, model) + Given(c, model, shared) && 0.0 <= Given(c, model, shared)
    && (forall m: int | m != model && (forall n | n in shared :: !Served(b, n, m)) :: SupplyIn(c, m) == SupplyIn(b, m))
  }

  /**
   * How a model came to be placed, step by step: the books once it was withdrawn, the nodes it was put on and the books
   * then, the rate then still open; the residues merged, the new home of their load (none if it was lost) and the books
   * after that; and the nodes it shares with others.
   */
  datatype Account = Account(start: Books, placed: seq<Node>, before: Books, open: int,
                             residues: seq<Residue>, home: Node?, after: Books, shared: seq<Node>)

  /** Adding `model` has turned `a` into `b`, as the account says. */
  ghost predicate Added(a: Books, b: Books, model: int, acc: Account) {
    && Withdrawn(a, acc.start, model) && SupplyIn(acc.start, model) == 0.0
    && PutOn(acc.start, acc.before, model, acc.placed)
    && MergedInto(acc.before, acc.after, model, acc.residues, acc.home)
    && SharedInto(acc.after, b, model, acc.shared)
  }

  /** Nothing but placing has happened. */
  function JustPlaced(start: Books, placed: seq<Node>, b: Books, open: int): Account {
    Account(start, placed, b, open, [], null, b, [])
  }

  /** The load of the residues found no home. */
  ghost predicate Homeless(acc: Account) {
    acc.residues != [] && acc.home == null
  }

  /** How often a throughput was added to or taken off an int rate: each time less than one request is lost. */
  function Roundings(acc: Account): nat {
    |acc.placed| + |acc.residues| + |acc.shared|
  }

  ghost function Gone(acc: Account): real {
    if Homeless(acc) then ServedBy(acc.residues) else 0.0
  }

  /**
   * Each step pays for what it takes off the rate, but for its roundings: what is placed for all but what is open then, a
   * home for what is open and what the residues served, and sharing for all but `rest` of what merging has left.
   */
  ghost predicate Paid(b: Books, model: int, acc: Account, rate: int, rest: int) {
    && SupplyIn(acc.before, model) + acc.open as real >= (rate - |acc.placed|) as real
    && (acc.home != null ==>
          HomeGives(acc.after, model, acc.home) >= acc.open as real + ServedBy(acc.residues) - |acc.residues| as real)
    && SupplyIn(b, model) + rest as real
         >= SupplyIn(acc.after, model) + (if acc.home == null then acc.open else 0) as real - |acc.shared| as real
  }

  /** All in all, the model is served its rate but for the roundings, what is gone, and what is left open. */
  lemma PaidMeans(a: Books, b: Books, model: int, acc: Account, rate: int, rest: int)
    requires Added(a, b, model, acc) && Paid(b, model, acc, rate, rest)
    ensures SupplyIn(b, model) + rest as real >= (rate - Roundings(acc)) as real - Gone(acc)
  {
    if acc.residues == [] {
      assert ServedBy(acc.residues) == 0.0;
    }
  }

  /**
   * The account tells the truth: `placed` are distinct nodes that had no other model and serve this one, unless they were
   * merged; neither had the residues; `shared` are distinct nodes that serve it. No other node has come to serve it than
   * these and the home of what was merged.
   */
  ghost predicate Truthful(a: Books, b: Books, model: int, acc: Account) {
    && AllDistinct(acc.placed) && Distinct(acc.residues) && AllDistinct(acc.shared)
    && (forall n | n in acc.placed ::
          && n in b.tasks && (n in a.tasks ==> Others(a.tasks[n], model) == [])
          && (Served(b, n, model) || n in NodesOf(acc.residues)))
    && (forall r | r in acc.residues :: r.node in b.tasks && (r.node in a.tasks ==> Others(a.tasks[r.node], model) == []))
    && (forall n | n in acc.shared :: Served(b, n, model))
    && (forall n | n in b.tasks && Served(b, n, model) :: n in acc.placed || n == acc.home || n in acc.shared || Served(a, n, model))
  }

  lemma AddedTruly(a: Books, b: Books, model: int, acc: Account)
    requires Added(a, b, model, acc)
    ensures Truthful(a, b, model, acc)
  {
    var before, after := acc.before, acc.after;
    PutFreely(a, acc.start, before, model, acc.placed);
    RehomedFreely(a, acc.start, before, after, model, acc.placed, acc.residues, acc.home);
    RehomedServes(before, after, model, acc.residues, acc.home);
    SharedServes(after, b, model, acc.shared);
    TrueSoFar(a, before, after, b, model, acc);
  }

  /** What is placed had no other model, and nobody else has come to serve this one. */
  lemma PutFreely(a: Books, start: Books, before: Books, model: int, placed: seq<Node>)
    requires Withdrawn(a, start, model) && FilledOn(start, before, model, placed)
    ensures forall n | n in placed :: Served(before, n, model) && (n in a.tasks ==> Others(a.tasks[n], model) == [])
    ensures forall n | n in before.tasks && Served(before, n, model) :: n in placed || Served(a, n, model)
  {
  }

  /** Neither had the residues. */
  lemma {:induction false} RehomedFreely(a: Books, start: Books, before: Books, after: Books, model: int, placed: seq<Node>,
                                         residues: seq<Residue>, home: Node?)
    requires Withdrawn(a, start, model) && PutOn(start, before, model, placed) && Rehomed(before, after, model, residues, home)
    ensures forall r | r in residues && r.node in a.tasks :: Others(a.tasks[r.node], model) == []
  {
    WithdrawnSame(a, start, model);
    PutSame(start, before, model, placed);
    forall r | r in residues && r.node in a.tasks ensures Others(a.tasks[r.node], model) == [] {
      OthersOfOne(before.tasks[r.node], model);
    }
  }

  lemma {:induction false} RehomedServes(b: Books, c: Books, model: int, residues: seq<Residue>, home: Node?)
    requires Rehomed(b, c, model, residues, home)
    ensures Distinct(residues) && c.tasks.Keys == b.tasks.Keys && forall r | r in residues :: r.node in b.tasks
    ensures forall n | n in b.tasks && Served(b, n, model) :: Served(c, n, model) || n in NodesOf(residues)
    ensures forall n | n in c.tasks && Served(c, n, model) :: n == home || Served(b, n, model)
  {
    if home != null {
      OthersOfOne(c.tasks[home], model);
    }
  }

  lemma SharedServes(b: Books, c: Books, model: int, shared: seq<Node>)
    requires SharedInto(b, c, model, shared)
    ensures c.tasks.Keys == b.tasks.Keys && AllDistinct(shared) && forall n | n in shared :: Served(c, n, model)
    ensures forall n | n in b.tasks && Served(b, n, model) :: Served(c, n, model)
    ensures forall n | n in c.tasks && Served(c, n, model) :: n in shared || Served(b, n, model)
  {
  }

  lemma TrueSoFar(a: Books, before: Books, after: Books, b: Books, model: int, acc: Account)
    requires AllDistinct(acc.placed) && Distinct(acc.residues) && AllDistinct(acc.shared)
    requires after.tasks.Keys == before.tasks.Keys && b.tasks.Keys == after.tasks.Keys
    requires forall n | n in acc.placed :: Served(before, n, model) && (n in a.tasks ==> Others(a.tasks[n], model) == [])
    requires forall n | n in before.tasks && Served(before, n, model) :: n in acc.placed || Served(a, n, model)
    requires forall r | r in acc.residues :: r.node in before.tasks && (r.node in a.tasks ==> Others(a.tasks[r.node], model) == [])
    requires forall n | n in before.tasks && Served(before, n, model) :: Served(after, n, model) || n in NodesOf(acc.residues)
    requires forall n | n in after.tasks && Served(after, n, model) :: n == acc.home || Served(before, n, model)
    requires forall n | n in after.tasks && Served(after, n, model) :: Served(b, n, model)
    requires forall n | n in b.tasks && Served(b, n, model) :: n in acc.shared || Served(after, n, model)
    requires forall n | n in acc.shared :: Served(b, n, model)
    ensures Truthful(a, b, model, acc)
  {
  }

  lemma FewPlaced(b: Books, c: Books, model: int, more: seq<Node>)
    requires PutOn(b, c, model, more)
    ensures |c.layout| == |b.layout| && |more| <= 2 * |c.layout|
  {
    FewOnGrid(c, more);
  }

  lemma FewMerged(b: Books, c: Books, model: int, residues: seq<Residue>, home: Node?)
    requires MergedInto(b, c, model, residues, home)
    ensures |c.layout| == |b.layout| && |residues| <= 2 * |c.layout|
  {
    var nodes := seq(|residues|, i requires 0 <= i < |residues| => residues[i].node);
    assert forall i | 0 <= i < |nodes| :: residues[i] in residues && nodes[i] == residues[i].node;
    FewOnGrid(b, nodes);
  }

  lemma FewShared(b: Books, c: Books, model: int, shared: seq<Node>)
    requires SharedInto(b, c, model, shared)
    ensures |c.layout| == |b.layout| && |shared| <= 2 * |c.layout|
  {
    FewOnGrid(c, shared);
  }

  /** However it was placed, there are at most six roundings for each GPU. */
  lemma FewRoundings(a: Books, b: Books, model: int, acc: Account)
    requires Added(a, b, model, acc)
    ensures |b.layout| == |a.layout| && Roundings(acc) <= 6 * |b.layout|
  {
    FewPlaced(acc.start, acc.before, model, acc.placed);
    FewMerged(acc.before, acc.after, model, acc.residues, acc.home);
    FewShared(acc.after, b, model, acc.shared);
  }

  // ----- one step more -----

  lemma NothingWithdrawn(a: Books, model: int)
    requires Legal(a)
    ensures Withdrawn(a, a, model)
  {
  }

  lemma NothingPlaced(a: Books, b: Books, model: int, open: int)
    requires Withdrawn(a, b, model) && SupplyIn(b, model) == 0.0
    ensures Added(a, b, model, JustPlaced(b, [], b, open))
  {
    NothingShared(b, model);
  }

  lemma NothingShared(b: Books, model: int)
    requires Legal(b)
    ensures SharedInto(b, b, model, []) && MergedInto(b, b, model, [], null) && PutOn(b, b, model, [])
  {
    NothingMerged(b, model, []);
  }

  lemma NothingMerged(b: Books, model: int, residues: seq<Residue>)
    requires Legal(b) && residues == []
    ensures MergedInto(b, b, model, residues, null)
  {
    assert ServedBy(residues) == 0.0 && HomeGives(b, model, null) == 0.0;
  }

  lemma OthersOfOne(tasks: seq<Placement>, model: int)
    requires |tasks| == 1 && tasks[0].id == model
    ensures Others(tasks, model) == [] && Contains(tasks, model)
  {
    assert Others(tasks[..0], model) == [];
  }

  lemma DistinctMore(xs: seq<Node>, ys: seq<Node>)
    requires AllDistinct(xs) && AllDistinct(ys) && forall x | x in xs :: x !in ys
    ensures AllDistinct(xs + ys)
  {
    var all, k := xs + ys, |xs|;
    forall i, j | 0 <= i < j < |all| ensures all[i] != all[j] {
      if i < k <= j { assert xs[i] in xs && ys[j - k] in ys; }
    }
  }

  /** Placing once and placing again is placing on all of them. */
  lemma {:induction false} PutTwice(a: Books, b: Books, c: Books, model: int, placed: seq<Node>, more: seq<Node>)
    requires PutOn(a, b, model, placed) && PutOn(b, c, model, more)
    ensures PutOn(a, c, model, placed + more)
  {
    assert forall n | n in placed :: n !in more;
    DistinctMore(placed, more);
    PutGiven(b, c, model, placed, more);
    assert forall n | n in placed + more :: n in placed || n in more;
  }

  lemma {:induction false} PutGiven(b: Books, c: Books, model: int, placed: seq<Node>, more: seq<Node>)
    requires forall n | n in placed :: n in b.tasks && n in c.tasks && c.tasks[n] == b.tasks[n]
    ensures Given(c, model, placed + more) == Given(b, model, placed) + Given(c, model, more)
  {
    GivenSame(b, c, model, placed, [], |placed|);
    assert placed + [] == placed;
    GivenOfBoth(c, model, placed, more, |more|);
  }

  lemma PlacedFirst(a: Books, b: Books, model: int, placed: seq<Node>, open: int)
    requires SupplyIn(a, model) == 0.0 && PutOn(a, b, model, placed)
    ensures Added(a, b, model, JustPlaced(a, placed, b, open))
  {
    NothingWithdrawn(a, model);
    NothingShared(b, model);
  }

  lemma {:induction false} PlacedMore(a: Books, b: Books, c: Books, model: int, start: Books, placed: seq<Node>, open: int,
                                      more: seq<Node>, rest: int)
    requires Added(a, b, model, JustPlaced(start, placed, b, open)) && PutOn(b, c, model, more)
    ensures Added(a, c, model, JustPlaced(start, placed + more, c, rest))
  {
    PutTwice(start, b, c, model, placed, more);
    NothingShared(c, model);
  }

  lemma {:induction false} MergedMore(a: Books, b: Books, c: Books, model: int, start: Books, placed: seq<Node>, open: int,
                                      residues: seq<Residue>, home: Node?)
    requires Added(a, b, model, JustPlaced(start, placed, b, open)) && MergedInto(b, c, model, residues, home)
    ensures Added(a, c, model, Account(start, placed, b, open, residues, home, c, []))
  {
    NothingShared(c, model);
  }

  lemma {:induction false} SharedMore(a: Books, b: Books, c: Books, model: int, acc: Account, shared: seq<Node>)
    requires Added(a, b, model, acc) && acc.after == b && acc.shared == [] && SharedInto(b, c, model, shared)
    ensures Added(a, c, model, acc.(shared := shared))
  {
  }

  /** The books show what the log does. */
  ghost predicate Shows(b: Books, c: Books, log: Log) {
    && b.tasks.Keys == log.was.Keys && c.tasks.Keys == log.now.Keys
    && (forall n | n in log.was :: b.tasks[n] == log.was[n].tasks) && (forall n | n in log.now :: c.tasks[n] == log.now[n].tasks)
  }

  lemma {:induction false} LogShares(b: Books, c: Books, model: int, log: Log)
    requires log.Ok(model) && SameGpus(b, c) && c.layout == b.layout && Shows(b, c, log)
    requires forall m: int :: SupplyIn(b, m) == log.before[m] && SupplyIn(c, m) == log.after[m]
    requires forall n | n in log.shared :: OnGrid(c, n)
    ensures SharedInto(b, c, model, log.shared)
  {
    LogJoins(b, c, model, log);
    LogGrants(b, c, model, log);
    LogSpares(b, model, log, c);
    LogKeeps(b, c, model, log);
  }

  lemma {:induction false} LogJoins(b: Books, c: Books, model: int, log: Log)
    requires log.Ok(model) && Shows(b, c, log)
    ensures forall n | n in log.shared :: JoinedAt(b, c, model, n)
  {
    forall n | n in log.shared ensures JoinedAt(b, c, model, n) {
      var i :| 0 <= i < |log.shared| && log.shared[i] == n;
      LogShare(b, c, model, log, i);
    }
  }

  lemma {:induction false} LogGrants(b: Books, c: Books, model: int, log: Log)
    requires log.Ok(model) && Shows(b, c, log)
    ensures Given(c, model, log.shared) == SumOf(log.granted) && 0.0 <= SumOf(log.granted)
  {
    forall i | 0 <= i < |log.shared| ensures Throughput(TasksIn(c, log.shared[i]), model) == log.granted[i] {
      LogShare(b, c, model, log, i);
    }
    GivenIsSum(c, model, log.shared, log.granted, |log.shared|);
    GrantedAtLeastNothing(log, model);
  }

  lemma {:induction false} LogKeeps(b: Books, c: Books, model: int, log: Log)
    requires log.Ok(model) && Shows(b, c, log)
    ensures AllDistinct(log.shared) && c.tasks.Keys == b.tasks.Keys
    ensures forall n | n in b.tasks && n !in log.shared :: c.tasks[n] == b.tasks[n]
  {
  }

  lemma LogShare(b: Books, c: Books, model: int, log: Log, i: nat)
    requires log.Ok(model) && i < |log.shared| && Shows(b, c, log)
    ensures JoinedAt(b, c, model, log.shared[i]) && Throughput(TasksIn(c, log.shared[i]), model) == log.granted[i]
  {
    var n := log.shared[i];
    assert Took(log.was[n], log.now[n], model, log.granted[i]);
    JoinedServes(log.was[n].tasks, model, log.now[n].tasks, log.now[n].duty);
    JoinedKeepUp(log.was[n].tasks, model, log.now[n].tasks, log.now[n].duty);
    NotServed(log.was[n].tasks, model);
  }

  lemma LogSpares(b: Books, model: int, log: Log, c: Books)
    requires log.Ok(model) && Shows(b, c, log)
    requires forall m: int :: SupplyIn(b, m) == log.before[m] && SupplyIn(c, m) == log.after[m]
    ensures forall m: int | m != model && (forall n | n in log.shared :: !Served(b, n, m)) :: SupplyIn(c, m) == SupplyIn(b, m)
  {
    forall m: int | m != model && forall n | n in log.shared :: !Served(b, n, m) ensures SupplyIn(c, m) == SupplyIn(b, m) {
      forall n | n in log.shared && n in log.was ensures !Contains(log.was[n].tasks, m) {
        assert !Served(b, n, m);
      }
      assert OffAll(log.was, log.shared, m);
    }
  }

  // ----- what adding a model does to the others -----

  /** No placement of another model is lost or moved; its batch and throughput may change. */
  ghost predicate OthersLive(a: Books, b: Books, model: int) {
    && a.tasks.Keys <= b.tasks.Keys
    && forall n | n in a.tasks :: SameDemand(Others(a.tasks[n], model), Others(b.tasks[n], model))
  }

  lemma OthersLiveOn(a: Books, b: Books, c: Books, model: int)
    requires OthersLive(a, b, model) && OthersLive(b, c, model)
    ensures OthersLive(a, c, model)
  {
    forall n | n in a.tasks ensures SameDemand(Others(a.tasks[n], model), Others(c.tasks[n], model)) {
      SameAgain(Others(a.tasks[n], model), Others(b.tasks[n], model), Others(c.tasks[n], model));
    }
  }

  /**
   * Every node runs what it ran of other models, with other batches only where it is shared now; there they keep up
   * with their rates. A node that runs any of them is still on its GPU.
   */
  ghost predicate OthersStand(a: Books, b: Books, model: int, shared: seq<Node>) {
    && OthersLive(a, b, model)
    && (forall n | n in a.tasks && n !in shared :: Others(b.tasks[n], model) == Others(a.tasks[n], model))
    && (forall n | n in b.tasks && n in shared :: AllKeepUp(Others(b.tasks[n], model)))
    && (forall n | n in a.tasks && Others(a.tasks[n], model) != [] && OnGrid(a, n) :: OnGrid(b, n))
  }

  /** The other models are served what they were, but for those that are on the nodes shared. */
  ghost predicate OthersSupplied(a: Books, b: Books, model: int, shared: seq<Node>) {
    forall m: int | m != model && (forall n | n in shared :: !Served(b, n, m)) :: SupplyIn(b, m) == SupplyIn(a, m)
  }

  /** Nothing has changed for the others yet. */
  ghost predicate OthersSame(a: Books, b: Books, model: int) {
    && a.tasks.Keys <= b.tasks.Keys && (forall n | n in a.tasks :: Others(b.tasks[n], model) == Others(a.tasks[n], model))
    && (forall n | n in a.tasks && Others(a.tasks[n], model) != [] && OnGrid(a, n) :: OnGrid(b, n))
    && (forall m: int | m != model :: SupplyIn(b, m) == SupplyIn(a, m))
  }

  lemma PutSame(b: Books, c: Books, model: int, more: seq<Node>)
    requires PutOn(b, c, model, more)
    ensures OthersSame(b, c, model)
  {
    forall n | n in b.tasks ensures Others(c.tasks[n], model) == Others(b.tasks[n], model) {
      if n in more { OthersOfOne(c.tasks[n], model); }
    }
  }

  lemma {:induction false} MergedSame(b: Books, c: Books, model: int, residues: seq<Residue>, home: Node?)
    requires MergedInto(b, c, model, residues, home)
    ensures OthersSame(b, c, model)
  {
    forall n | n in b.tasks ensures Others(c.tasks[n], model) == Others(b.tasks[n], model) {
      if n in NodesOf(residues) {
        var r :| r in residues && r.node == n;
        OthersOfOne(b.tasks[n], model);
      }
      if n == home { OthersOfOne(c.tasks[n], model); }
    }
    forall n | n in b.tasks && Others(b.tasks[n], model) != [] && OnGrid(b, n) ensures OnGrid(c, n) {
      assert Others(c.tasks[n], model) != [];
    }
  }

  lemma SharedStand(b: Books, c: Books, model: int, shared: seq<Node>)
    requires SharedInto(b, c, model, shared)
    ensures OthersStand(b, c, model, shared) && OthersSupplied(b, c, model, shared)
  {
    forall m: int | m != model && forall n | n in shared :: !Served(c, n, m) ensures SupplyIn(c, m) == SupplyIn(b, m) {
      forall n | n in shared ensures !Served(b, n, m) {
        StillHeld(b.tasks[n], c.tasks[n], model, m);
        assert !Served(c, n, m);
      }
    }
  }

  lemma SameOn(a: Books, b: Books, c: Books, model: int)
    requires OthersSame(a, b, model) && OthersSame(b, c, model)
    ensures OthersSame(a, c, model)
  {
  }

  lemma StandAfterSame(a: Books, b: Books, c: Books, model: int, shared: seq<Node>)
    requires OthersSame(a, b, model) && OthersStand(b, c, model, shared) && OthersSupplied(b, c, model, shared)
    ensures OthersStand(a, c, model, shared) && OthersSupplied(a, c, model, shared)
  {
  }

  lemma WithdrawnSame(a: Books, b: Books, model: int)
    requires Withdrawn(a, b, model)
    ensures OthersSame(a, b, model)
  {
  }

  /** So whoever else there is stands but where nodes are shared, and keeps up there. */
  lemma OthersAfter(a: Books, b: Books, model: int, acc: Account)
    requires Added(a, b, model, acc)
    ensures OthersStand(a, b, model, acc.shared) && OthersSupplied(a, b, model, acc.shared)
  {
    SameUpToMerge(a, acc.start, acc.before, acc.after, model, acc.placed, acc.residues, acc.home);
    SharedStand(acc.after, b, model, acc.shared);
    StandAfterSame(a, acc.after, b, model, acc.shared);
  }

  lemma SameUpToMerge(a: Books, start: Books, before: Books, after: Books, model: int, placed: seq<Node>,
                      residues: seq<Residue>, home: Node?)
    requires Withdrawn(a, start, model) && PutOn(start, before, model, placed) && MergedInto(before, after, model, residues, home)
    ensures OthersSame(a, after, model)
  {
    WithdrawnSame(a, start, model);
    PutSame(start, before, model, placed);
    MergedSame(before, after, model, residues, home);
    SameOn(a, start, before, model);
    SameOn(a, before, after, model);
  }
}
