// Sessions and runs of the incremental scheduler (elasticPartitioning, incrementalScehduling, runScheduling).
module Runs {
  import opened Cluster
  import opened Performance
  import opened Adjust
  import opened Estimation
  import opened Allocation
  import opened Accounts
  import opened Fitting
  import opened Merging
  import opened TimeSharing
  import opened Session
  import opened Ledger
  import opened Scheduling

  /** One entry of a session: a model and the rate it must be served at. */
  datatype Demand = Demand(id: int, rate: int, slo: int)

  // ----- throughput placed for each model -----

  function Get(totals: map<int, real>, model: int): real {
    if model in totals then totals[model] else 0.0
  }

  /** The map the source adds the throughputs up in; a missing model counts 0. */
  method AddUp(tasks: seq<Placement>) returns (totals: map<int, real>)
    ensures forall m :: Get(totals, m) == Throughput(tasks, m)
  {
    totals := map[];
    for k := 0 to |tasks|
      invariant forall m :: Get(totals, m) == UpTo(tasks, m, k)
    {
      var t := tasks[k];
      totals := totals[t.id := Get(totals, t.id) + t.throughput];
    }
  }

  /** The rate a session asks for a model: that of its last entry. */
  function AskedRate(session: seq<Demand>, id: int): int
    requires exists d | d in session :: d.id == id
  {
    var k := |session| - 1;
    if session[k].id == id then session[k].rate
    else
      assert forall d | d in session && d.id == id :: d in session[..k] by {
        assert session == session[..k] + [session[k]];
      }
      AskedRate(session[..k], id)
  }

  /** At least 85% of the rate asked for is placed. */
  ghost predicate Sustained(session: seq<Demand>, tasks: seq<Placement>, d: Demand)
    requires d in session
  {
    Throughput(tasks, d.id) >= AskedRate(session, d.id) as real * 0.85
  }

  /** The demand that is tried again for `d`. */
  function Again(session: seq<Demand>, d: Demand): Demand
    requires d in session
  {
    Demand(d.id, AskedRate(session, d.id), d.slo)
  }

  /** All of `demands` are demands of the session, at the rates it asks for. */
  ghost predicate FromSession(session: seq<Demand>, demands: seq<Demand>) {
    forall d | d in demands :: exists e | e in session :: d == Again(session, e)
  }

  /** So a second round is measured by the rates of the first. */
  lemma {:induction false} SameRate(session: seq<Demand>, demands: seq<Demand>, d: Demand)
    requires FromSession(session, demands) && d in demands
    ensures (exists e | e in session :: e.id == d.id) && AskedRate(demands, d.id) == AskedRate(session, d.id)
  {
    var k := |demands| - 1;
    var e :| e in session && d == Again(session, e);
    assert demands[k] in demands;
    if demands[k].id == d.id {
      var f :| f in session && demands[k] == Again(session, f);
    } else {
      assert demands == demands[..k] + [demands[k]];
      assert forall x | x in demands[..k] :: x in demands;
      SameRate(session, demands[..k], d);
    }
  }

  /** `again` is what is tried again of `demands`: those short of their rate, each model once. */
  ghost predicate TriedAgain(session: seq<Demand>, tasks: seq<Placement>, demands: seq<Demand>, again: seq<Demand>)
    requires forall d | d in demands :: d in session
  {
    && (forall d | d in demands :: Again(session, d) in again <==> !Sustained(session, tasks, d))
    && (forall a | a in again :: exists d | d in demands :: a == Again(session, d))
    && (forall i, j | 0 <= i < j < |again| :: again[i].id != again[j].id)
  }

  /** One demand more is looked at. */
  lemma OneMoreTried(session: seq<Demand>, tasks: seq<Placement>, demands: seq<Demand>, again: seq<Demand>, d: Demand)
    requires (forall e | e in demands :: e in session) && d in session && TriedAgain(session, tasks, demands, again)
    requires Sustained(session, tasks, d) || forall a | a in again :: a.id != d.id
    ensures TriedAgain(session, tasks, demands + [d], if Sustained(session, tasks, d) then again else again + [Again(session, d)])
  {
    var more, next := demands + [d], if Sustained(session, tasks, d) then again else again + [Again(session, d)];
    assert more[|demands|] == d;
    forall a | a in next ensures exists e | e in more :: a == Again(session, e) {
      if a in again {
        var e :| e in demands && a == Again(session, e);
        assert e in more;
      }
    }
    forall e | e in more ensures Again(session, e) in next <==> !Sustained(session, tasks, e) {
      if e.id == d.id {
        assert Sustained(session, tasks, e) == Sustained(session, tasks, d);
      }
      if Again(session, e) in again {
        var f :| f in demands && Again(session, e) == Again(session, f);
        assert f.id == e.id && !Sustained(session, tasks, f);
      }
    }
  }

  /**
   * The check after a session placed with interference: `sorted` are the demands of `session`. A model short
   * of its rate is tried again once, at the rate asked for; `flagged` are those that had their second try
   * already.
   */
  method Review(session: seq<Demand>, sorted: seq<Demand>, tasks: seq<Placement>, flagged: set<int>)
    returns (st: Status, again: seq<Demand>, flagged': set<int>)
    requires multiset(sorted) == multiset(session)
    ensures st == Ok || st == Fail
    ensures st == Ok ==> TriedAgain(session, tasks, session, again)
    ensures st == Ok && again == [] ==> forall d | d in session :: Sustained(session, tasks, d)
    ensures st == Ok ==> forall d | d in again :: d.id in flagged' && d.id !in flagged
    ensures (forall d | d in session :: d.id in flagged) ==> st == Fail || again == []
    ensures st == Fail ==> exists d | d in session :: !Sustained(session, tasks, d) && d.id in flagged'
  {
    var totals := AddUp(tasks);
    again, flagged', st := [], flagged, Ok;
    forall d | d in sorted ensures d in session {
      assert d in multiset(sorted);
    }
    for k := 0 to |sorted|
      invariant st == Ok && TriedAgain(session, tasks, sorted[..k], again)
      invariant forall m :: m in flagged' <==> m in flagged || exists a | a in again :: a.id == m
      invariant forall d | d in again :: d.id !in flagged
    {
      var d := sorted[k];
      assert sorted[..k + 1] == sorted[..k] + [d];
      var asked := AskedRate(session, d.id);
      if Get(totals, d.id) < asked as real * 0.85 {
        if d.id in flagged' { st := Fail; break; }
        OneMoreTried(session, tasks, sorted[..k], again, d);
        ghost var before := again;
        flagged' := flagged' + {d.id};
        again := again + [Demand(d.id, asked, d.slo)];
        assert again[|before|].id == d.id;
      } else {
        OneMoreTried(session, tasks, sorted[..k], again, d);
      }
    }
    if st == Ok {
      assert sorted[..|sorted|] == sorted;
      TriedAll(session, sorted, tasks, again);
    }
  }

  /** It does not matter in which order the demands were looked at. */
  lemma TriedAll(session: seq<Demand>, sorted: seq<Demand>, tasks: seq<Placement>, again: seq<Demand>)
    requires multiset(sorted) == multiset(session) && forall d | d in sorted :: d in session
    requires TriedAgain(session, tasks, sorted, again)
    ensures TriedAgain(session, tasks, session, again)
    ensures again == [] ==> forall d | d in session :: Sustained(session, tasks, d)
    ensures again != [] ==> exists d | d in session :: d.id == again[0].id
  {
    SameMembers(sorted, session);
    if again != [] {
      assert again[0] in again;
    }
  }

  lemma SameMembers(a: seq<Demand>, b: seq<Demand>)
    requires multiset(a) == multiset(b)
    ensures forall d :: d in a <==> d in b
  {
    forall d ensures d in a <==> d in b {
      assert d in a <==> d in multiset(a);
    }
  }

  // ----- a session, one model after the other -----

  /** In ascending order of rate times SLO; the source breaks ties by model. */
  method ByWeight(session: seq<Demand>) returns (sorted: seq<Demand>)
    ensures multiset(sorted) == multiset(session)
    ensures forall i, j | 0 <= i < j < |sorted| :: sorted[i].rate * sorted[i].slo <= sorted[j].rate * sorted[j].slo
  {
    var key := map d | d in session :: -((d.rate * d.slo) as real);
    sorted := SortDescending(session, key);
    SameMembers(sorted, session);
    forall i, j | 0 <= i < j < |sorted| ensures sorted[i].rate * sorted[i].slo <= sorted[j].rate * sorted[j].slo {
      assert key[sorted[j]] <= key[sorted[i]];
    }
  }

  /** The tables of saturating throughputs, by model. */
  type Tables = map<int, seq<SatEntry>>

  /** How a session is placed; `memory(k)` answers for the memory check when the residues of entry `k` are merged. */
  datatype Terms = Terms(cfg: Config, cutting: bool, memory: nat -> Node -> bool)

  /** Tables are kept once they are made. */
  ghost predicate Kept(tables: Tables, tables': Tables) {
    forall m | m in tables :: m in tables' && tables'[m] == tables[m]
  }

  /** The books show `d` served its rate, but for the slack, the roundings and what a merge may have lost. */
  ghost predicate ServedWell(terms: Terms, tables: Tables, b: Books, d: Demand, fits: Node -> bool) {
    d.id in tables && WellServed(terms.cfg, tables[d.id], terms.cutting, b, d.id, d.rate, fits)
  }

  /** Placing `d` has turned the books `a` into `b`, step by step as the account says, and served it well. */
  ghost predicate Linked(terms: Terms, tables: Tables, a: Books, b: Books, d: Demand, acc: Account, fits: Node -> bool) {
    && d.id in tables
    && Entered(terms.cfg, tables[d.id], terms.cutting, a, b, d.id, d.slo, acc, d.rate, TRP_SLACK, fits)
    && ServedWell(terms, tables, b, d, fits)
  }

  /** Entry by entry the session has turned the books `books[0]` into `books[n]`. */
  ghost predicate Chain(terms: Terms, tables: Tables, sorted: seq<Demand>, accounts: seq<Account>, books: seq<Books>, n: nat) {
    && n <= |sorted| && n <= |accounts| && n < |books|
    && forall k {:trigger accounts[k]} | 0 <= k < n :: Linked(terms, tables, books[k], books[k + 1], sorted[k], accounts[k], terms.memory(k))
  }

  lemma ChainMore(terms: Terms, tables: Tables, tables': Tables, sorted: seq<Demand>, accounts: seq<Account>, books: seq<Books>,
                  n: nat, acc: Account, b: Books)
    requires |accounts| == n && |books| == n + 1 && n < |sorted| && Chain(terms, tables, sorted, accounts, books, n)
    requires Kept(tables, tables') && Linked(terms, tables', books[n], b, sorted[n], acc, terms.memory(n))
    ensures Chain(terms, tables', sorted, accounts + [acc], books + [b], n + 1)
  {
    var more, later := accounts + [acc], books + [b];
    forall k | 0 <= k < n + 1 ensures Linked(terms, tables', later[k], later[k + 1], sorted[k], more[k], terms.memory(k)) {
      if k < n {
        assert Linked(terms, tables, books[k], books[k + 1], sorted[k], accounts[k], terms.memory(k));
      }
    }
  }

  /** The entries up to `n` lead from the books `a` to the books `b`. */
  ghost predicate ChainTo(terms: Terms, tables: Tables, sorted: seq<Demand>, accounts: seq<Account>, books: seq<Books>, n: nat,
                          a: Books, b: Books)
  {
    |accounts| == n && |books| == n + 1 && Chain(terms, tables, sorted, accounts, books, n) && books[0] == a && books[n] == b
  }

  // ----- what a session provides, from first to last -----

  /** None of the entries up to `n` after the `k`th is for its model or shares one of its nodes. */
  ghost predicate LeftAlone(b: Books, sorted: seq<Demand>, accounts: seq<Account>, k: nat, n: nat)
    requires k < n <= |sorted| && n <= |accounts|
  {
    forall j | k < j < n ::
      sorted[j].id != sorted[k].id && forall x | x in accounts[j].shared :: !Served(b, x, sorted[k].id)
  }

  /** Whoever is left alone is served exactly what it was when it was placed, so it is well served still. */
  ghost predicate Provided(terms: Terms, tables: Tables, sorted: seq<Demand>, accounts: seq<Account>, books: seq<Books>, n: nat)
    requires n <= |sorted| && n <= |accounts| && n < |books|
  {
    forall k | 0 <= k < n && LeftAlone(books[n], sorted, accounts, k, n) ::
      && SupplyIn(books[n], sorted[k].id) == SupplyIn(books[k + 1], sorted[k].id)
      && ServedWell(terms, tables, books[n], sorted[k], terms.memory(k))
  }

  /** A step that serves `d` well and leaves the others alone provides for all. */
  lemma {:induction false} ProvidedMore(terms: Terms, tables: Tables, sorted: seq<Demand>, accounts: seq<Account>, books: seq<Books>, n: nat)
    requires n < |sorted| && n < |accounts| && n + 1 < |books| && Provided(terms, tables, sorted, accounts, books, n)
    requires Spares(books[n], books[n + 1], sorted[n].id, accounts[n].shared)
    requires ServedWell(terms, tables, books[n + 1], sorted[n], terms.memory(n))
    ensures Provided(terms, tables, sorted, accounts, books, n + 1)
  {
    var b, c := books[n], books[n + 1];
    forall k | 0 <= k < n + 1 && LeftAlone(c, sorted, accounts, k, n + 1)
      ensures SupplyIn(c, sorted[k].id) == SupplyIn(books[k + 1], sorted[k].id)
      ensures ServedWell(terms, tables, c, sorted[k], terms.memory(k))
    {
      if k < n {
        AloneBefore(b, c, sorted, accounts, k, n);
        ServedWellStill(terms, tables, b, c, sorted[k], terms.memory(k));
      }
    }
  }

  /** The other models stand and are served what they were, but for those on the nodes `shared`. */
  ghost predicate Spares(b: Books, c: Books, model: int, shared: seq<Node>) {
    OthersStand(b, c, model, shared) && OthersSupplied(b, c, model, shared) && |c.layout| == |b.layout|
  }

  lemma {:induction false} AloneBefore(b: Books, c: Books, sorted: seq<Demand>, accounts: seq<Account>, k: nat, n: nat)
    requires k < n < |sorted| && n < |accounts| && LeftAlone(c, sorted, accounts, k, n + 1)
    requires Spares(b, c, sorted[n].id, accounts[n].shared)
    ensures LeftAlone(b, sorted, accounts, k, n) && SupplyIn(c, sorted[k].id) == SupplyIn(b, sorted[k].id)
  {
    var m := sorted[k].id;
    assert sorted[n].id != m && forall x | x in accounts[n].shared :: !Served(c, x, m);
    forall j, x | k < j < n && x in accounts[j].shared ensures !Served(b, x, m) {
      assert !Served(c, x, m);
      if x in b.tasks { StillHeld(b.tasks[x], c.tasks[x], sorted[n].id, m); }
    }
    forall x | x in accounts[n].shared ensures !Served(b, x, m) {
      assert !Served(c, x, m);
      if x in b.tasks { StillHeld(b.tasks[x], c.tasks[x], sorted[n].id, m); }
    }
  }

  lemma ServedWellStill(terms: Terms, tables: Tables, b: Books, c: Books, d: Demand, fits: Node -> bool)
    requires SupplyIn(c, d.id) == SupplyIn(b, d.id) && |c.layout| == |b.layout| && b.tasks.Keys <= c.tasks.Keys
    requires ServedWell(terms, tables, b, d, fits)
    ensures ServedWell(terms, tables, c, d, fits)
  {
  }

  // ----- what becomes of a model when others share its nodes -----

  /** The placement `t` is still there as `u`: as it was, or keeping up with its rate beside those that joined it. */
  ghost predicate Endures(t: Placement, u: Placement) {
    u == t.(batch := u.batch, throughput := u.throughput) && (u == t || KeepsUp(u))
  }

  /** So are all placements of `model`, and their nodes are on their GPUs still. */
  ghost predicate AllEndure(a: Books, b: Books, model: int) {
    forall n, t | n in a.tasks && t in a.tasks[n] && t.id == model ::
      n in b.tasks && (OnGrid(a, n) ==> OnGrid(b, n)) && exists u | u in b.tasks[n] :: Endures(t, u)
  }

  lemma EndureOn(a: Books, b: Books, c: Books, model: int)
    requires AllEndure(a, b, model) && AllEndure(b, c, model)
    ensures AllEndure(a, c, model)
  {
    forall n, t | n in a.tasks && t in a.tasks[n] && t.id == model
      ensures n in c.tasks && (OnGrid(a, n) ==> OnGrid(c, n)) && exists u | u in c.tasks[n] :: Endures(t, u)
    {
      var u :| u in b.tasks[n] && Endures(t, u);
      var v :| v in c.tasks[n] && Endures(u, v);
      assert Endures(t, v);
    }
  }

  /** Whoever adds a model, the others endure. */
  lemma OthersEndure(a: Books, b: Books, model: int, shared: seq<Node>, m: int)
    requires OthersStand(a, b, model, shared) && m != model
    ensures AllEndure(a, b, m)
  {
    forall n, t | n in a.tasks && t in a.tasks[n] && t.id == m
      ensures (OnGrid(a, n) ==> OnGrid(b, n)) && exists u | u in b.tasks[n] :: Endures(t, u)
    {
      var was, now := Others(a.tasks[n], model), Others(b.tasks[n], model);
      OthersAreOf(a.tasks[n], model);
      OthersAreOf(b.tasks[n], model);
      var i :| 0 <= i < |was| && was[i] == t;
      assert now[i] in b.tasks[n] && was[i].(batch := now[i].batch, throughput := now[i].throughput) == now[i];
      assert Endures(t, now[i]);
    }
  }

  lemma SameEndures(a: Books, model: int)
    ensures AllEndure(a, a, model)
  {
    forall n, t | n in a.tasks && t in a.tasks[n] ensures exists u | u in a.tasks[n] :: Endures(t, u) {
      assert Endures(t, t);
    }
  }

  /** Unless a later entry is for its model, each placement an entry got endures. */
  ghost predicate Lasting(sorted: seq<Demand>, books: seq<Books>, n: nat)
    requires n <= |sorted| && n < |books|
  {
    forall k | 0 <= k < n && LastFor(sorted, k, n) :: AllEndure(books[k + 1], books[n], sorted[k].id)
  }

  /** Entry `k` is the last among the first `n` for its model. */
  ghost predicate LastFor(sorted: seq<Demand>, k: nat, n: nat)
    requires k < n <= |sorted|
  {
    forall j | k < j < n :: sorted[j].id != sorted[k].id
  }

  lemma {:induction false} LastingMore(sorted: seq<Demand>, books: seq<Books>, n: nat, shared: seq<Node>)
    requires n < |sorted| && n + 1 < |books| && Lasting(sorted, books, n) && OthersStand(books[n], books[n + 1], sorted[n].id, shared)
    ensures Lasting(sorted, books, n + 1)
  {
    forall k | 0 <= k < n + 1 && LastFor(sorted, k, n + 1) ensures AllEndure(books[k + 1], books[n + 1], sorted[k].id) {
      if k == n {
        SameEndures(books[n + 1], sorted[n].id);
      } else {
        assert sorted[n].id != sorted[k].id && LastFor(sorted, k, n);
        OthersEndure(books[n], books[n + 1], sorted[n].id, shared, sorted[k].id);
        EndureOn(books[k + 1], books[n], books[n + 1], sorted[k].id);
      }
    }
  }

  /** Every entry up to `n` was served well when it was placed, and the others were spared. */
  ghost predicate AllSpare(terms: Terms, tables: Tables, sorted: seq<Demand>, accounts: seq<Account>, books: seq<Books>, n: nat)
    requires n <= |sorted| && n <= |accounts| && n < |books|
  {
    forall k {:trigger accounts[k]} | 0 <= k < n ::
      && Spares(books[k], books[k + 1], sorted[k].id, accounts[k].shared)
      && ServedWell(terms, tables, books[k + 1], sorted[k], terms.memory(k))
  }

  lemma ChainSpares(terms: Terms, tables: Tables, sorted: seq<Demand>, accounts: seq<Account>, books: seq<Books>, n: nat)
    requires Chain(terms, tables, sorted, accounts, books, n)
    ensures AllSpare(terms, tables, sorted, accounts, books, n)
  {
    forall k | 0 <= k < n
      ensures Spares(books[k], books[k + 1], sorted[k].id, accounts[k].shared)
      ensures ServedWell(terms, tables, books[k + 1], sorted[k], terms.memory(k))
    {
      LinkSpares(terms, tables, books[k], books[k + 1], sorted[k], accounts[k], terms.memory(k));
    }
  }

  lemma LinkSpares(terms: Terms, tables: Tables, a: Books, b: Books, d: Demand, acc: Account, fits: Node -> bool)
    requires Linked(terms, tables, a, b, d, acc, fits)
    ensures Spares(a, b, d.id, acc.shared) && ServedWell(terms, tables, b, d, fits)
  {
    OthersAfter(a, b, d.id, acc);
    FewRoundings(a, b, d.id, acc);
  }

  /** So the chain of books carries it all from the first entry to the last. */
  lemma ChainProvides(terms: Terms, tables: Tables, sorted: seq<Demand>, accounts: seq<Account>, books: seq<Books>, n: nat)
    requires Chain(terms, tables, sorted, accounts, books, n)
    ensures Provided(terms, tables, sorted, accounts, books, n) && Lasting(sorted, books, n)
  {
    ChainSpares(terms, tables, sorted, accounts, books, n);
    SparingProvides(terms, tables, sorted, accounts, books, n);
    SparingLasts(terms, tables, sorted, accounts, books, n);
  }

  lemma {:induction false} SparingProvides(terms: Terms, tables: Tables, sorted: seq<Demand>, accounts: seq<Account>, books: seq<Books>,
                                           n: nat)
    requires n <= |sorted| && n <= |accounts| && n < |books| && AllSpare(terms, tables, sorted, accounts, books, n)
    ensures Provided(terms, tables, sorted, accounts, books, n)
  {
    if n != 0 {
      SparingProvides(terms, tables, sorted, accounts, books, n - 1);
      ProvidedMore(terms, tables, sorted, accounts, books, n - 1);
    }
  }

  lemma {:induction false} SparingLasts(terms: Terms, tables: Tables, sorted: seq<Demand>, accounts: seq<Account>, books: seq<Books>,
                                        n: nat)
    requires n <= |sorted| && n <= |accounts| && n < |books| && AllSpare(terms, tables, sorted, accounts, books, n)
    ensures Lasting(sorted, books, n)
  {
    if n != 0 {
      SparingLasts(terms, tables, sorted, accounts, books, n - 1);
      LastingMore(sorted, books, n - 1, accounts[n - 1].shared);
    }
  }

  /** A model that is served something is on some node of a GPU. */
  lemma {:induction false} GivenBySome(b: Books, model: int, nodes: seq<Node>, k: nat)
    requires k <= |nodes| && GivenUpTo(b, model, nodes, k) != 0.0
    ensures exists n | n in nodes :: Served(b, n, model)
  {
    if !Served(b, nodes[k - 1], model) {
      NotServed(TasksIn(b, nodes[k - 1]), model);
      GivenBySome(b, model, nodes, k - 1);
    }
  }

  lemma {:induction false} SuppliedBySome(b: Books, model: int, k: nat)
    requires k <= |b.layout| && SupplyUpTo(b, model, k) != 0.0
    ensures exists n | n in GridUpTo(b.layout, k) :: Served(b, n, model)
  {
    if Given(b, model, b.layout[k - 1]) != 0.0 {
      GivenBySome(b, model, b.layout[k - 1], |b.layout[k - 1]|);
      var n :| n in b.layout[k - 1] && Served(b, n, model);
      assert n in GridUpTo(b.layout, k);
    } else {
      SuppliedBySome(b, model, k - 1);
    }
  }

  /** And it stays on one to the end. */
  lemma {:induction false} PlacedStill(sorted: seq<Demand>, books: seq<Books>, k: nat, n: nat)
    requires k < n <= |sorted| && n < |books| && Lasting(sorted, books, n) && LastFor(sorted, k, n)
    requires SupplyIn(books[k + 1], sorted[k].id) != 0.0
    ensures exists x | x in books[n].tasks && OnGrid(books[n], x) :: Served(books[n], x, sorted[k].id)
  {
    var b, m := books[k + 1], sorted[k].id;
    SuppliedBySome(b, m, |b.layout|);
    var x :| x in GridUpTo(b.layout, |b.layout|) && Served(b, x, m);
    assert Served(b, x, m) && OnGrid(b, x);
    var i :| 0 <= i < |b.tasks[x]| && b.tasks[x][i].id == m;
    assert b.tasks[x][i] in b.tasks[x];
    var u :| u in books[n].tasks[x] && Endures(b.tasks[x][i], u);
    assert Served(books[n], x, m);
  }

  /** A session is placed: entry by entry, with all that provides. */
  ghost predicate Fulfilled(terms: Terms, tables: Tables, sorted: seq<Demand>, accounts: seq<Account>, books: seq<Books>) {
    var n := |sorted|;
    && |accounts| == n && |books| == n + 1 && Chain(terms, tables, sorted, accounts, books, n)
    && Provided(terms, tables, sorted, accounts, books, n) && Lasting(sorted, books, n)
  }

  /** No node and no GPU is lost on the way. */
  lemma {:induction false} NothingLost(terms: Terms, tables: Tables, sorted: seq<Demand>, accounts: seq<Account>, books: seq<Books>,
                                       k: nat, n: nat)
    requires k <= n <= |sorted| && n <= |accounts| && n < |books| && AllSpare(terms, tables, sorted, accounts, books, n)
    ensures books[k].tasks.Keys <= books[n].tasks.Keys && |books[n].layout| == |books[k].layout|
  {
    if k < n {
      NothingLost(terms, tables, sorted, accounts, books, k, n - 1);
      assert Spares(books[n - 1], books[n], sorted[n - 1].id, accounts[n - 1].shared);
    }
  }

  /**
   * Whatever the accounts say: every model of a session is on some node, unless the slack and the roundings can make up
   * for its rate, and that of the last entry is served its rate but for them.
   */
  ghost predicate EachPlaced(sorted: seq<Demand>, s: SimState)
    reads s, s.nodes
  {
    var missing := TRP_SLACK + 6 * |s.gpus|;
    && (forall k | 0 <= k < |sorted| && LastFor(sorted, k, |sorted|) && missing < sorted[k].rate ::
          exists n | n in s.nodes && s.Has(n) :: Contains(n.tasks, sorted[k].id))
    && (sorted != [] ==>
          var d := sorted[|sorted| - 1];
          Supply(s, d.id) >= (d.rate - missing) as real)
  }

  /** The memory check grants everything. */
  ghost predicate MemoryGranted(memory: nat -> Node -> bool, nodes: set<Node>) {
    forall k: nat, n | n in nodes :: memory(k)(n)
  }

  /** Just after entry `k` its model is served its rate, but for `missing`. */
  ghost predicate EntryInFull(sorted: seq<Demand>, books: seq<Books>, k: nat, missing: int)
    requires k < |sorted| && k + 1 < |books|
  {
    SupplyIn(books[k + 1], sorted[k].id) >= (sorted[k].rate - missing) as real
  }

  /** That is so where latency behaves and memory is granted: the slack and the roundings are all that is missing. */
  lemma {:induction false} EntriesInFull(terms: Terms, tables: Tables, sorted: seq<Demand>, accounts: seq<Account>, books: seq<Books>,
                                         nodes: set<Node>, missing: int)
    requires |accounts| == |sorted| && |books| == |sorted| + 1 && AllSpare(terms, tables, sorted, accounts, books, |sorted|)
    requires nodes == books[|sorted|].tasks.Keys && missing == TRP_SLACK + 6 * |books[|sorted|].layout|
    requires Orderly(terms.cfg, terms.cutting) && MemoryGranted(terms.memory, nodes)
    ensures forall k | 0 <= k < |sorted| :: EntryInFull(sorted, books, k, missing)
  {
    var n := |sorted|;
    forall k | 0 <= k < n ensures EntryInFull(sorted, books, k, missing) {
      NothingLost(terms, tables, sorted, accounts, books, k + 1, n);
      assert ServedWell(terms, tables, books[k + 1], sorted[k], terms.memory(k)) by { assert accounts[k] == accounts[k]; }
      assert forall x | x in books[k + 1].tasks :: terms.memory(k)(x);
    }
  }

  lemma {:induction false} AllPlaced(sorted: seq<Demand>, books: seq<Books>, s: SimState, missing: int)
    requires s.Valid() && |books| == |sorted| + 1 && Lasting(sorted, books, |sorted|) && books[|sorted|] == BooksOf(s)
    requires missing == TRP_SLACK + 6 * |s.gpus| && forall k | 0 <= k < |sorted| :: EntryInFull(sorted, books, k, missing)
    ensures EachPlaced(sorted, s)
  {
    var n := |sorted|;
    BooksSeen(s);
    forall k | 0 <= k < n && LastFor(sorted, k, n) && missing < sorted[k].rate
      ensures exists x | x in s.nodes && s.Has(x) :: Contains(x.tasks, sorted[k].id)
    {
      assert EntryInFull(sorted, books, k, missing);
      PlacedStill(sorted, books, k, n);
      var x :| x in books[n].tasks && OnGrid(books[n], x) && Served(books[n], x, sorted[k].id);
      assert x in s.nodes && s.Has(x);
    }
    if n != 0 {
      assert EntryInFull(sorted, books, n - 1, missing);
    }
  }

  /** What it means that the entries of a session lead to the books of a cluster. */
  lemma SessionPlaced(terms: Terms, tables: Tables, sorted: seq<Demand>, accounts: seq<Account>, books: seq<Books>, a: Books, s: SimState)
    requires s.Valid() && ChainTo(terms, tables, sorted, accounts, books, |sorted|, a, BooksOf(s))
    ensures Fulfilled(terms, tables, sorted, accounts, books)
    ensures Orderly(terms.cfg, terms.cutting) && MemoryGranted(terms.memory, s.nodes) ==> EachPlaced(sorted, s)
  {
    ChainProvides(terms, tables, sorted, accounts, books, |sorted|);
    if Orderly(terms.cfg, terms.cutting) && MemoryGranted(terms.memory, s.nodes) {
      SessionInFull(terms, tables, sorted, accounts, books, s);
    }
  }

  lemma SessionInFull(terms: Terms, tables: Tables, sorted: seq<Demand>, accounts: seq<Account>, books: seq<Books>, s: SimState)
    requires s.Valid() && |accounts| == |sorted| && |books| == |sorted| + 1 && books[|sorted|] == BooksOf(s)
    requires Chain(terms, tables, sorted, accounts, books, |sorted|) && Lasting(sorted, books, |sorted|)
    requires Orderly(terms.cfg, terms.cutting) && MemoryGranted(terms.memory, s.nodes)
    ensures EachPlaced(sorted, s)
  {
    BooksSeen(s);
    ChainSpares(terms, tables, sorted, accounts, books, |sorted|);
    EntriesInFull(terms, tables, sorted, accounts, books, s.nodes, TRP_SLACK + 6 * |s.gpus|);
    AllPlaced(sorted, books, s, TRP_SLACK + 6 * |s.gpus|);
  }

  /** Models that are not among the first `n` keep their places: every node holds those it held. */
  ghost predicate OutsidersKept(a: Books, b: Books, sorted: seq<Demand>, n: nat)
    requires n <= |sorted|
  {
    && a.tasks.Keys <= b.tasks.Keys
    && forall x, m | x in a.tasks && (forall k | 0 <= k < n :: sorted[k].id != m) :: Served(a, x, m) <==> Served(b, x, m)
  }

  lemma OutsidersKeptOn(a: Books, b: Books, c: Books, sorted: seq<Demand>, n: nat)
    requires n < |sorted| && OutsidersKept(a, b, sorted, n) && OthersLive(b, c, sorted[n].id)
    ensures OutsidersKept(a, c, sorted, n + 1)
  {
    forall x, m | x in a.tasks && forall k | 0 <= k < n + 1 :: sorted[k].id != m
      ensures Served(a, x, m) <==> Served(c, x, m)
    {
      assert forall k | 0 <= k < n :: sorted[k].id != m;
      assert sorted[n].id != m;
      StillHeld(b.tasks[x], c.tasks[x], sorted[n].id, m);
    }
  }

  /** A cluster with nothing on it yet. */
  ghost predicate NothingRuns(b: Books) {
    forall n | n in b.tasks :: b.tasks[n] == []
  }

  class IncrementalScheduler {
    const cfg: Config
    const maxGpu: int
    var repartition: bool
    var tables: Tables  // saturating throughputs, kept from run to run

    ghost predicate Valid()
      reads this
    {
      cfg.Valid() && forall m | m in tables :: TableOk(cfg, m, tables[m])
    }

    constructor (cfg: Config, maxGpu: int)
      requires cfg.Valid()
      ensures Valid() && this.cfg == cfg && this.maxGpu == maxGpu
    {
      this.cfg, this.maxGpu, this.repartition, this.tables := cfg, maxGpu, true, map[];
    }

    /** Make the table of a model that has none. */
    method EnsureTable(d: Demand)
      requires Valid()
      modifies this`tables
      ensures Valid() && d.id in tables && Kept(old(tables), tables)
    {
      if d.id !in tables {
        var table := InitSaturateTrp(cfg, d.id, d.slo, d.rate);
        assert TableFor(cfg, d.id, d.slo, table);
        tables := tables[d.id := table];
      }
    }

    /**
     * elasticPartitioning: the models one by one, by rate times SLO; the first failure ends the session. Without
     * interference, success means that the entries have turned the books there were into those there are, each placed
     * step by step as its account says. So each model is served its rate, unless a later entry of the session is for
     * it or shares one of its nodes. In the latter case its placements endure: they keep up with their rates.
     */
    method ElasticPartitioning(session: seq<Demand>, s: SimState, memory: nat -> Node -> bool)
      returns (st: Status, sorted: seq<Demand>, ghost accounts: seq<Account>, ghost books: seq<Books>)
      requires Valid() && s.Valid()
      modifies this`tables, s`gpus, s`nodes, s.nodes
      ensures Valid() && s.Valid() && Reshaped(s)
      ensures multiset(sorted) == multiset(session)
      ensures forall i, j | 0 <= i < j < |sorted| :: sorted[i].rate * sorted[i].slo <= sorted[j].rate * sorted[j].slo
      ensures st == Ok ==> OutsidersKept(old(BooksOf(s)), BooksOf(s), sorted, |sorted|)
      ensures !cfg.useInterference && st == Ok ==>
                && Fulfilled(Terms(cfg, repartition, memory), tables, sorted, accounts, books)
                && books[0] == old(BooksOf(s)) && books[|sorted|] == BooksOf(s)
      ensures !cfg.useInterference && st == Ok && Orderly(cfg, repartition) && MemoryGranted(memory, s.nodes) ==> EachPlaced(sorted, s)
    {
      sorted := ByWeight(session);
      ghost var terms, a := Terms(cfg, repartition, memory), BooksOf(s);
      st, accounts, books := Ok, [], [a];
      for k := 0 to |sorted|
        invariant Valid() && s.Valid() && Reshaped(s) && st == Ok && OutsidersKept(a, BooksOf(s), sorted, k)
        invariant !cfg.useInterference ==> ChainTo(terms, tables, sorted, accounts, books, k, a, BooksOf(s))
      {
        st, accounts, books := AddNext(sorted, k, s, memory(k), terms, a, accounts, books);
        if st != Ok { break; }
      }
      if !cfg.useInterference && st == Ok {
        SessionPlaced(terms, tables, sorted, accounts, books, a, s);
      }
    }

    /** Entry `k` of a session, with its account and the books after it added to those before. */
    method AddNext(sorted: seq<Demand>, k: nat, s: SimState, fits: Node -> bool, ghost terms: Terms, ghost a: Books,
                   ghost accounts: seq<Account>, ghost books: seq<Books>)
      returns (st: Status, ghost accounts': seq<Account>, ghost books': seq<Books>)
      requires Valid() && s.Valid() && k < |sorted| && terms == Terms(cfg, repartition, terms.memory) && fits == terms.memory(k)
      requires OutsidersKept(a, BooksOf(s), sorted, k)
      requires !cfg.useInterference ==> ChainTo(terms, tables, sorted, accounts, books, k, a, BooksOf(s))
      modifies this`tables, s`gpus, s`nodes, s.nodes
      ensures Valid() && s.Valid() && Reshaped(s)
      ensures st == Ok ==>
                && OutsidersKept(a, BooksOf(s), sorted, k + 1)
                && (!cfg.useInterference ==> ChainTo(terms, tables, sorted, accounts', books', k + 1, a, BooksOf(s)))
    {
      ghost var b, made := BooksOf(s), tables;
      ghost var acc;
      st, acc := AddDemand(sorted[k], s, fits, terms);
      ghost var c := BooksOf(s);
      accounts', books' := accounts + [acc], books + [c];
      if st == Ok {
        OutsidersKeptOn(a, b, c, sorted, k);
        if !cfg.useInterference {
          ChainMore(terms, made, tables, sorted, accounts, books, k, acc, c);
        }
      }
    }

    /** The task of a demand, with the table of its model made; the cluster is left alone. */
    method TaskFor(d: Demand, s: SimState) returns (task: Task)
      requires Valid() && s.Valid()
      modifies this`tables
      ensures Valid() && d.id in tables && Kept(old(tables), tables)
      ensures fresh(task) && task.id == d.id && task.slo == d.slo && task.requestRate == d.rate
      ensures s.Valid() && Reshaped(s) && BooksOf(s) == old(BooksOf(s))
    {
      EnsureTable(d);
      task := new Task(d.id, d.slo, d.rate);
    }

    /** One demand of a session. */
    method AddDemand(d: Demand, s: SimState, fits: Node -> bool, ghost terms: Terms) returns (st: Status, ghost acc: Account)
      requires Valid() && s.Valid() && terms == Terms(cfg, repartition, terms.memory)
      modifies this`tables, s`gpus, s`nodes, s.nodes
      ensures Valid() && s.Valid() && Reshaped(s) && (st != Abort ==> OthersLive(old(BooksOf(s)), BooksOf(s), d.id))
      ensures Kept(old(tables), tables)
      ensures !cfg.useInterference && st == Ok ==> Linked(terms, tables, old(BooksOf(s)), BooksOf(s), d, acc, fits)
    {
      var task := TaskFor(d, s);
      st, acc := AddModel(cfg, tables[d.id], s, task, repartition, fits);
    }

    /** One round: place the session, then, with interference, see who is short. */
    method Round(session: seq<Demand>, s: SimState, flagged: set<int>, memory: nat -> Node -> bool)
      returns (st: Status, again: seq<Demand>, flagged': set<int>, ghost sorted: seq<Demand>, ghost accounts: seq<Account>,
               ghost books: seq<Books>)
      requires Valid() && s.Valid()
      modifies this`tables, s`gpus, s`nodes, s.nodes
      ensures Valid() && s.Valid() && Reshaped(s)
      ensures st == Ok && cfg.useInterference ==>
                && TriedAgain(session, AllTasks(Flat(s.gpus)), session, again)
                && (forall d | d in again :: d.id in flagged') && ((forall d | d in session :: d.id in flagged) ==> again == [])
      ensures st == Ok && !cfg.useInterference ==>
                && again == [] && multiset(sorted) == multiset(session)
                && Fulfilled(Terms(cfg, repartition, memory), tables, sorted, accounts, books)
                && books[0] == old(BooksOf(s)) && books[|sorted|] == BooksOf(s)
      ensures st == Ok && !cfg.useInterference && Orderly(cfg, repartition) && MemoryGranted(memory, s.nodes) ==> EachPlaced(sorted, s)
    {
      again, flagged' := [], flagged;
      var order;
      st, order, accounts, books := ElasticPartitioning(session, s, memory);
      sorted := order;
      if st == Ok && cfg.useInterference {
        st, again, flagged' := Review(session, order, AllTasks(Flat(s.gpus)), flagged);
      }
    }

    /**
     * incrementalScehduling. With interference on, models short of their rate get a second round, so there are
     * at most two; on success every model of the last round has at least 85% of the rate it entered it with. A
     * second round is for the models of the session that were short in what the first had placed, at the rates asked
     * for. Without interference the books lead from those of the cluster there was, or of a new and empty one, to those
     * there are. `memory` answers for the memory check of the merging passes, round by round and entry by entry.
     */
    method IncrementalScheduling(session: seq<Demand>, s: SimState, memory: nat -> nat -> Node -> bool)
      returns (st: Status, rounds: nat, ghost seen: seq<Placement>, ghost last: seq<Demand>, ghost sorted: seq<Demand>,
               ghost accounts: seq<Account>, ghost books: seq<Books>)
      requires Valid() && s.Valid()
      modifies this`tables, s, s.nodes
      ensures Valid() && s.Valid() && fresh(s.nodes - old(s.nodes))
      ensures rounds <= if cfg.useInterference then 2 else 1
      ensures st == Ok && cfg.useInterference ==>
                forall d | d in last :: Sustained(last, AllTasks(Flat(s.gpus)), d)
      ensures st == Ok && cfg.useInterference ==> forall d | d in last ::
                && (exists e | e in session :: e.id == d.id)
                && Throughput(AllTasks(Flat(s.gpus)), d.id) >= AskedRate(session, d.id) as real * 0.85
      ensures rounds <= 1 ==> last == session
      ensures rounds == 2 ==> last != [] && FromSession(session, last) && TriedAgain(session, seen, session, last)
      ensures st == Ok && !cfg.useInterference ==>
                && multiset(sorted) == multiset(session)
                && Fulfilled(Terms(cfg, repartition, memory(0)), tables, sorted, accounts, books)
                && (if old(s.gpus) != [] then books[0] == old(BooksOf(s)) else NothingRuns(books[0]))
                && books[|sorted|] == BooksOf(s)
                && (Orderly(cfg, repartition) && MemoryGranted(memory(0), s.nodes) ==> EachPlaced(sorted, s))
    {
      if s.gpus == [] { InitiateDevs(cfg, s, maxGpu); }
      ghost var a := BooksOf(s);
      assert old(s.gpus) == [] ==> NothingRuns(a);
      var current := session;
      var flagged: set<int> := {};
      var good := false;
      rounds, st, seen, last, sorted, accounts, books := 0, Ok, [], session, [], [], [];
      while !good
        invariant Valid() && s.Valid() && st == Ok && fresh(s.nodes - old(s.nodes))
        invariant rounds <= (if cfg.useInterference then 2 else 1) && (rounds <= 1 ==> last == session)
        invariant rounds == 0 ==> !good && current == session && BooksOf(s) == a
        invariant rounds == 1 && !good ==>
                    && cfg.useInterference && current != [] && TriedAgain(session, seen, session, current)
                    && forall d | d in current :: d.id in flagged
        invariant rounds == 2 ==> good && last != [] && TriedAgain(session, seen, session, last)
        invariant good && cfg.useInterference ==> forall d | d in last :: Sustained(last, AllTasks(Flat(s.gpus)), d)
        invariant good && !cfg.useInterference ==>
                    && multiset(sorted) == multiset(session)
                    && Fulfilled(Terms(cfg, repartition, memory(0)), tables, sorted, accounts, books)
                    && books[0] == a && books[|sorted|] == BooksOf(s)
                    && (Orderly(cfg, repartition) && MemoryGranted(memory(0), s.nodes) ==> EachPlaced(sorted, s))
        decreases !good, 2 - rounds
      {
        last := current;
        st, current, flagged, sorted, accounts, books := Round(current, s, flagged, memory(rounds));
        rounds := rounds + 1;
        if rounds == 1 { seen := AllTasks(Flat(s.gpus)); }
        if st != Ok { break; }
        good := current == [];
      }
      if rounds == 2 {
        assert FromSession(session, last);
        forall d | d in last ensures (exists e | e in session :: e.id == d.id) && AskedRate(last, d.id) == AskedRate(session, d.id) {
          SameRate(session, last, d);
        }
      }
    }

    /**
     * runScheduling: whatever comes of the run, `previous` stays a legal cluster; on success `output` is a
     * deep copy of it.
     */
    method RunScheduling(session: seq<Demand>, previous: SimState, output: SimState, allowRepartition: bool)
      returns (st: Status)
      requires Valid() && previous.Valid() && previous != output
      modifies this, previous, previous.nodes, output
      ensures Valid() && previous.Valid()
      ensures st == Ok ==>
                && output.Valid() && fresh(output.nodes) && |output.gpus| == |previous.gpus|
                && forall i | 0 <= i < |previous.gpus| ::
                     GpuCopied(previous.gpus[i], output.gpus[i])
    {
      repartition := allowRepartition;
      var memory: nat -> nat -> Node -> bool := *;
      var rounds;
      ghost var seen, last, sorted, accounts, books;
      st, rounds, seen, last, sorted, accounts, books := IncrementalScheduling(session, previous, memory);
      if st == Ok {
        CopyToOutput(previous, output);
      }
    }
  }
}
