// The incremental scheduler's work for one model: greedy fit, readjustment, merging, time sharing (addModeltoSchedule).
module Scheduling {
  import opened Cluster
  import opened Performance
  import opened Adjust
  import opened Estimation
  import opened Allocation
  import opened Accounts
  import opened Fitting
  import opened Readjusting
  import opened Merging
  import opened TimeSharing
  import opened Ledger

  /** The nodes with nothing on them. */
  method FreeNodes(s: SimState) returns (free: set<Node>)
    requires s.Valid()
    ensures s.Valid() && Reshaped(s) && BooksOf(s) == old(BooksOf(s))
    ensures Free(s, free)
    ensures forall n | s.Has(n) && n.tasks == [] :: n in free
  {
    AllInCluster(s);
    free := set n | n in Flat(s.gpus) && n.tasks == [];
  }

  // ----- the passes, entered in the books -----

  /** `acc` is the account of adding `model` with `rate` to place; it pays for all but `rest`. */
  ghost predicate Booked(a: Books, b: Books, model: int, acc: Account, rate: int, rest: int) {
    Added(a, b, model, acc) && Paid(b, model, acc, rate, rest)
  }

  /** So far the task has been placed on parts of its own, and nothing else has happened. */
  ghost predicate OnlyPlaced(cfg: Config, table: seq<SatEntry>, cutting: bool, a: Books, s: SimState, task: Task,
                             acc: Account, rate: int, rest: int)
    reads s, s.nodes
  {
    && acc == JustPlaced(acc.start, acc.placed, BooksOf(s), rest) && Booked(a, BooksOf(s), task.id, acc, rate, rest)
    && OnlyAlone(cfg, table, cutting, s, task.id, task.slo, [])
  }

  /** One part of the table at least can serve this much. */
  ghost predicate FitsAPart(table: seq<SatEntry>, throughput: real) {
    exists e | e in table :: throughput <= e.throughput
  }

  /**
   * What is said of the residues is true of placements on parts of their own, not full ones. With `open` more they are
   * no more than a part of the table serves, and only the memory check keeps them from a new home.
   */
  ghost predicate MergeExplained(cfg: Config, table: seq<SatEntry>, cutting: bool, model: int, slo: int, open: int,
                                 residues: seq<Residue>, home: Node?, fits: Node -> bool)
  {
    && (forall r {:trigger Earned(cfg, table, cutting, r, model, slo)} | r in residues :: Earned(cfg, table, cutting, r, model, slo))
    && (residues != [] ==> FitsAPart(table, open as real + ServedBy(residues) - |residues| as real))
    && (Orderly(cfg, cutting) && residues != [] && home == null ==> exists r | r in residues :: !fits(r.node))
  }

  ghost predicate Explained(cfg: Config, table: seq<SatEntry>, cutting: bool, model: int, slo: int, acc: Account, fits: Node -> bool) {
    MergeExplained(cfg, table, cutting, model, slo, acc.open, acc.residues, acc.home, fits)
  }

  /** The account of adding `model` is complete, pays for what was taken off the rate, and explains what was merged. */
  ghost predicate Entered(cfg: Config, table: seq<SatEntry>, cutting: bool, a: Books, b: Books, model: int, slo: int, acc: Account,
                          rate: int, rest: int, fits: Node -> bool)
  {
    Booked(a, b, model, acc, rate, rest) && Explained(cfg, table, cutting, model, slo, acc, fits)
  }

  /** The account of a task that may have been merged and may share nodes. */
  ghost predicate Justified(cfg: Config, table: seq<SatEntry>, cutting: bool, a: Books, s: SimState, task: Task,
                            acc: Account, rate: int, rest: int, fits: Node -> bool)
    reads s, s.nodes
  {
    && Entered(cfg, table, cutting, a, BooksOf(s), task.id, task.slo, acc, rate, rest, fits)
    && OnlyAlone(cfg, table, cutting, s, task.id, task.slo, acc.shared)
  }

  lemma UndisturbedLives(a: Books, b: Books, model: int)
    requires a.tasks.Keys <= b.tasks.Keys
    requires forall n | n in a.tasks ::
               if a.tasks[n] == [] then b.tasks[n] == [] || (|b.tasks[n]| == 1 && b.tasks[n][0].id == model)
               else SameDemand(a.tasks[n], b.tasks[n])
    ensures OthersLive(a, b, model)
  {
    forall n | n in a.tasks ensures SameDemand(Others(a.tasks[n], model), Others(b.tasks[n], model)) {
      if a.tasks[n] != [] {
        OthersAlike(a.tasks[n], b.tasks[n], model);
      } else if b.tasks[n] != [] {
        OthersOfOne(b.tasks[n], model);
      }
    }
  }

  lemma PlacedGives(s: SimState, model: int, placed: seq<Node>, amounts: seq<real>)
    requires Placed(s, model, placed, amounts)
    ensures Given(BooksOf(s), model, placed) == SumOf(amounts)
  {
    var b := BooksOf(s);
    forall i | 0 <= i < |placed| ensures Throughput(TasksIn(b, placed[i]), model) == amounts[i] {
      assert placed[i] in placed && placed[i].tasks == [placed[i].tasks[0]];
      ThroughputOfOne(placed[i].tasks[0], model);
    }
    GivenIsSum(b, model, placed, amounts, |placed|);
  }

  /** allocateFit among placements on parts of their own. */
  method FitAlone(cfg: Config, ghost table: seq<SatEntry>, s: SimState, task: Task, wishes: seq<Wish>, repartition: bool)
    returns (st: Status, ghost placed: seq<Node>, ghost amounts: seq<real>)
    requires cfg.Valid() && s.Valid() && task.additionalRate == 0
    requires forall w | w in wishes :: WishOk(cfg, table, task.id, task.slo, w)
    requires OnlyAlone(cfg, table, repartition, s, task.id, task.slo, [])
    modifies s`gpus, s`nodes, s.nodes, task`requestRate, task`additionalRate
    ensures s.Valid() && Grown(s) && OthersLive(old(BooksOf(s)), BooksOf(s), task.id)
    ensures st == Ok ==> task.requestRate == 0
    ensures !cfg.useInterference ==>
              && task.additionalRate == 0 && Placed(s, task.id, placed, amounts) && Gained(s, task.id, SumOf(amounts))
              && SumOf(amounts) + (if st == Ok then TRP_SLACK else task.requestRate) as real >= (old(task.requestRate) - |placed|) as real
              && FilledOn(old(BooksOf(s)), BooksOf(s), task.id, placed) && OnlyAlone(cfg, table, repartition, s, task.id, task.slo, [])
  {
    ghost var b := BooksOf(s);
    st, placed, amounts := AllocateFit(cfg, table, s, task, wishes, repartition);
    UndisturbedLives(b, BooksOf(s), task.id);
    if !cfg.useInterference {
      forall n | n in s.nodes && s.Has(n) && Contains(n.tasks, task.id) ensures AloneOn(cfg, table, repartition, n, task.id, task.slo) {
        if n !in placed {
          assert old(s.Has(n)) && old(AloneOn(cfg, table, repartition, n, task.id, task.slo));
        }
      }
    }
  }

  /** allocateFit, seen from the books. */
  method FitBooked(cfg: Config, ghost table: seq<SatEntry>, s: SimState, task: Task, wishes: seq<Wish>, repartition: bool)
    returns (st: Status, ghost placed: seq<Node>)
    requires cfg.Valid() && s.Valid() && task.additionalRate == 0
    requires forall w | w in wishes :: WishOk(cfg, table, task.id, task.slo, w)
    requires OnlyAlone(cfg, table, repartition, s, task.id, task.slo, [])
    modifies s`gpus, s`nodes, s.nodes, task`requestRate, task`additionalRate
    ensures s.Valid() && Reshaped(s) && OthersLive(old(BooksOf(s)), BooksOf(s), task.id)
    ensures st == Ok ==> task.requestRate == 0
    ensures !cfg.useInterference ==>
              && task.additionalRate == 0 && PutOn(old(BooksOf(s)), BooksOf(s), task.id, placed)
              && Given(BooksOf(s), task.id, placed) + (if st == Ok then TRP_SLACK else task.requestRate) as real
                   >= (old(task.requestRate) - |placed|) as real
              && OnlyAlone(cfg, table, repartition, s, task.id, task.slo, [])
  {
    ghost var amounts := [];
    BooksSeen(s);
    st, placed, amounts := FitAlone(cfg, table, s, task, wishes, repartition);
    BooksSeen(s);
    if !cfg.useInterference {
      PlacedGives(s, task.id, placed, amounts);
    }
  }

  /** allocateFit, entered in the books. */
  method FitAndBook(cfg: Config, ghost table: seq<SatEntry>, s: SimState, task: Task, wishes: seq<Wish>, repartition: bool,
                    ghost a: Books, ghost rate: int) returns (st: Status, ghost acc: Account)
    requires cfg.Valid() && s.Valid() && task.additionalRate == 0 && SupplyIn(a, task.id) == 0.0
    requires a == BooksOf(s) && rate == task.requestRate
    requires forall w | w in wishes :: WishOk(cfg, table, task.id, task.slo, w)
    requires OnlyAlone(cfg, table, repartition, s, task.id, task.slo, [])
    modifies s`gpus, s`nodes, s.nodes, task`requestRate, task`additionalRate
    ensures s.Valid() && Reshaped(s) && OthersLive(a, BooksOf(s), task.id)
    ensures st == Ok ==> task.requestRate == 0
    ensures !cfg.useInterference ==>
              && task.additionalRate == 0
              && OnlyPlaced(cfg, table, repartition, a, s, task, acc, rate, if st == Ok then TRP_SLACK else task.requestRate)
  {
    ghost var placed := [];
    st, placed := FitBooked(cfg, table, s, task, wishes, repartition);
    ghost var rest := if st == Ok then TRP_SLACK else task.requestRate;
    acc := JustPlaced(a, placed, BooksOf(s), rest);
    if !cfg.useInterference {
      FirstBooked(a, BooksOf(s), task.id, placed, rate, rest);
    }
  }

  lemma FirstBooked(a: Books, b: Books, model: int, placed: seq<Node>, rate: int, rest: int)
    requires SupplyIn(a, model) == 0.0 && PutOn(a, b, model, placed)
    requires Given(b, model, placed) + rest as real >= (rate - |placed|) as real
    ensures Booked(a, b, model, JustPlaced(a, placed, b, rest), rate, rest)
  {
    PlacedFirst(a, b, model, placed, rest);
  }

  lemma NothingBooked(a: Books, b: Books, model: int, rate: int)
    requires Withdrawn(a, b, model) && SupplyIn(b, model) == 0.0
    ensures Booked(a, b, model, JustPlaced(b, [], b, rate), rate, rate) && OthersLive(a, b, model)
  {
    NothingPlaced(a, b, model, rate);
    WithdrawnSame(a, b, model);
  }

  lemma AloneAnyway(cfg: Config, table: seq<SatEntry>, cutting: bool, placed: seq<Node>, model: int, slo: int)
    requires AllAlone(cfg, table, true, placed, model, slo)
    ensures AllAlone(cfg, table, cutting, placed, model, slo)
  {
  }

  /** readjust among placements on parts of their own. */
  method ReadjustAlone(cfg: Config, table: seq<SatEntry>, s: SimState, task: Task, free: set<Node>, repartition: bool)
    returns (st: Status, ghost placed: seq<Node>, ghost amounts: seq<real>)
    requires cfg.Valid() && s.Valid() && TableOk(cfg, task.id, table) && Free(s, free)
    requires !cfg.useInterference ==>
               task.additionalRate == 0 && OnlyAlone(cfg, table, repartition, s, task.id, task.slo, [])
    modifies s`gpus, s`nodes, s.nodes, task`requestRate, task`additionalRate
    ensures s.Valid() && Grown(s) && (st != Abort ==> OthersLive(old(BooksOf(s)), BooksOf(s), task.id))
    ensures task.additionalRate == 0 && (st == Ok ==> task.requestRate <= TRP_SLACK)
    ensures !cfg.useInterference ==> FilledOn(old(BooksOf(s)), BooksOf(s), task.id, placed)
    ensures !cfg.useInterference ==>
              && Accounted(s, task.id, old(task.requestRate), task.requestRate, placed, amounts)
              && Gained(s, task.id, SumOf(amounts)) && OnlyAlone(cfg, table, repartition, s, task.id, task.slo, [])
  {
    ghost var b := BooksOf(s);
    st, placed, amounts := Readjust(cfg, table, s, task, free, repartition);
    forall n | n in free ensures n in b.tasks && b.tasks[n] == [] {
      assert old(s.Has(n));
    }
    if st != Abort {
      UndisturbedLives(b, BooksOf(s), task.id);
    }
    if !cfg.useInterference {
      AloneAnyway(cfg, table, repartition, placed, task.id, task.slo);
      forall n | n in s.nodes && s.Has(n) && Contains(n.tasks, task.id) ensures AloneOn(cfg, table, repartition, n, task.id, task.slo) {
        if n !in placed {
          assert old(s.Has(n)) && old(AloneOn(cfg, table, repartition, n, task.id, task.slo));
        }
      }
    }
  }

  /** readjust, seen from the books. */
  method ReadjustBooked(cfg: Config, table: seq<SatEntry>, s: SimState, task: Task, free: set<Node>, repartition: bool)
    returns (st: Status, ghost placed: seq<Node>)
    requires cfg.Valid() && s.Valid() && TableOk(cfg, task.id, table) && Free(s, free)
    requires !cfg.useInterference ==>
               task.additionalRate == 0 && OnlyAlone(cfg, table, repartition, s, task.id, task.slo, [])
    modifies s`gpus, s`nodes, s.nodes, task`requestRate, task`additionalRate
    ensures s.Valid() && Reshaped(s) && (st != Abort ==> OthersLive(old(BooksOf(s)), BooksOf(s), task.id))
    ensures task.additionalRate == 0 && (st == Ok ==> task.requestRate <= TRP_SLACK)
    ensures !cfg.useInterference ==>
              && PutOn(old(BooksOf(s)), BooksOf(s), task.id, placed)
              && Given(BooksOf(s), task.id, placed) + task.requestRate as real >= (old(task.requestRate) - |placed|) as real
              && OnlyAlone(cfg, table, repartition, s, task.id, task.slo, [])
  {
    ghost var b, amounts := BooksOf(s), [];
    BooksSeen(s);
    st, placed, amounts := ReadjustAlone(cfg, table, s, task, free, repartition);
    BooksSeen(s);
    if !cfg.useInterference {
      PlacedGives(s, task.id, placed, amounts);
    }
  }

  /** readjust, entered in the books. */
  method ReadjustAndBook(cfg: Config, table: seq<SatEntry>, s: SimState, task: Task, free: set<Node>, repartition: bool,
                         ghost a: Books, ghost acc: Account, ghost rate: int) returns (st: Status, ghost acc': Account)
    requires cfg.Valid() && s.Valid() && TableOk(cfg, task.id, table) && Free(s, free)
    requires !cfg.useInterference ==>
               task.additionalRate == 0 && OnlyPlaced(cfg, table, repartition, a, s, task, acc, rate, task.requestRate)
    modifies s`gpus, s`nodes, s.nodes, task`requestRate, task`additionalRate
    ensures s.Valid() && Reshaped(s) && (st != Abort ==> OthersLive(old(BooksOf(s)), BooksOf(s), task.id))
    ensures task.additionalRate == 0 && (st == Ok ==> task.requestRate <= TRP_SLACK)
    ensures !cfg.useInterference ==> OnlyPlaced(cfg, table, repartition, a, s, task, acc', rate, task.requestRate)
  {
    ghost var b, placed := BooksOf(s), [];
    st, placed := ReadjustBooked(cfg, table, s, task, free, repartition);
    acc' := JustPlaced(acc.start, acc.placed + placed, BooksOf(s), task.requestRate);
    if !cfg.useInterference {
      PlacedBooked(a, b, BooksOf(s), task.id, acc.start, acc.placed, old(task.requestRate), rate, placed, task.requestRate);
    }
  }

  lemma PlacedBooked(a: Books, b: Books, c: Books, model: int, start: Books, placed: seq<Node>, open: int, rate: int,
                     more: seq<Node>, rest: int)
    requires Booked(a, b, model, JustPlaced(start, placed, b, open), rate, open) && PutOn(b, c, model, more)
    requires Given(c, model, more) + rest as real >= (open - |more|) as real
    ensures Booked(a, c, model, JustPlaced(start, placed + more, c, rest), rate, rest)
  {
    PlacedMore(a, b, c, model, start, placed, open, more, rest);
  }

  /** Before merging: the residues are what they should be, and with memory granted their load is safe. */
  lemma BeforeMerge(cfg: Config, table: seq<SatEntry>, s: SimState, task: Task, cutting: bool, fits: Node -> bool)
    requires cfg.Valid() && s.Valid() && OnlyAlone(cfg, table, cutting, s, task.id, task.slo, [])
    ensures forall r | r in ResiduesOf(s, task.id) :: Earned(cfg, table, cutting, r, task.id, task.slo)
    ensures Orderly(cfg, cutting) && (forall r | r in ResiduesOf(s, task.id) :: fits(r.node)) ==>
              forall merged, kind, size | Mergeable(table, task.requestRate, ResiduesOf(s, task.id), merged, kind, size) ::
                FindsHome(cfg, s, task.id, task.slo, merged, kind, size, fits)
  {
    ResiduesMean(s, task.id);
    forall r | r in ResiduesOf(s, task.id) ensures Earned(cfg, table, cutting, r, task.id, task.slo) {
      var n := r.node;
      assert Stands(s, task.id, r) && n.tasks[0].id == task.id;
      assert AloneOn(cfg, table, cutting, n, task.id, task.slo);
    }
    if Orderly(cfg, cutting) && forall r | r in ResiduesOf(s, task.id) :: fits(r.node) {
      forall merged, kind, size | Mergeable(table, task.requestRate, ResiduesOf(s, task.id), merged, kind, size)
        ensures FindsHome(cfg, s, task.id, task.slo, merged, kind, size, fits)
      {
        MergeNeverLoses(cfg, table, s, task, cutting, merged, kind, size, fits);
      }
    }
  }

  /** mergeResidue among placements on parts of their own: there they stay, and memory alone can be short. */
  method MergeAlone(cfg: Config, table: seq<SatEntry>, s: SimState, task: Task, repartition: bool, fits: Node -> bool)
    returns (st: Status, home: Node?, residues: seq<Residue>)
    requires cfg.Valid() && s.Valid()
    requires !cfg.useInterference ==> OnlyAlone(cfg, table, repartition, s, task.id, task.slo, [])
    modifies s`gpus, s.nodes, task`requestRate
    ensures s.Valid() && Reshaped(s) && Settled(s) && Merged(s, task, home, residues)
    ensures st == Ok ==> task.requestRate <= TRP_SLACK
    ensures residues != [] ==> residues == old(ResiduesOf(s, task.id))
    ensures home != null ==>
              && (old(home.tasks) == [] || old(IsResidue(home, task.id)))
              && home.tasks[0].throughput >= old(task.requestRate) as real + ServedBy(residues) - |residues| as real
    ensures Gained(s, task.id, (if home == null then 0.0 else home.tasks[0].throughput) - ServedBy(residues))
    ensures !cfg.useInterference ==>
              && OnlyAlone(cfg, table, repartition, s, task.id, task.slo, [])
              && MergeExplained(cfg, table, repartition, task.id, task.slo, old(task.requestRate), residues, home, fits)
  {
    ghost var open := task.requestRate;
    if !cfg.useInterference { BeforeMerge(cfg, table, s, task, repartition, fits); }
    var merged, kind, size;
    st, home, residues, merged, kind, size := MergeResidue(cfg, table, s, task, repartition, fits);
    if residues != [] { MergedFits(table, open, residues, merged, kind, size); }
    if !cfg.useInterference {
      forall n | n in s.nodes && s.Has(n) && Contains(n.tasks, task.id)
        ensures AloneOn(cfg, table, repartition, n, task.id, task.slo)
      {
        assert old(s.Has(n)) && n.kind == old(n.kind) && n.size == old(n.size);
        if n != home {
          assert n.tasks == old(n.tasks) && n.duty == old(n.duty) && n.occupancy == old(n.occupancy);
          assert old(AloneOn(cfg, table, repartition, n, task.id, task.slo));
        }
      }
    }
  }

  /** mergeResidue, seen from the nodes. */
  method MergeRehomes(cfg: Config, table: seq<SatEntry>, s: SimState, task: Task, repartition: bool, fits: Node -> bool)
    returns (st: Status, home: Node?, residues: seq<Residue>)
    requires cfg.Valid() && s.Valid()
    requires !cfg.useInterference ==> OnlyAlone(cfg, table, repartition, s, task.id, task.slo, [])
    modifies s`gpus, s.nodes, task`requestRate
    ensures s.Valid() && Reshaped(s) && Settled(s) && Rehomed(old(BooksOf(s)), BooksOf(s), task.id, residues, home)
    ensures forall r | r in residues :: r.node in old(s.nodes) && old(s.Has(r.node))
    ensures home != null ==> home in s.nodes && s.Has(home) && home.tasks != []
    ensures st == Ok ==> task.requestRate <= TRP_SLACK
    ensures task.requestRate == if home == null then old(task.requestRate) else 0
    ensures home != null ==>
              HomeGives(BooksOf(s), task.id, home) >= old(task.requestRate) as real + ServedBy(residues) - |residues| as real
    ensures Gained(s, task.id, HomeGives(BooksOf(s), task.id, home) - ServedBy(residues))
    ensures !cfg.useInterference ==>
              && OnlyAlone(cfg, table, repartition, s, task.id, task.slo, [])
              && MergeExplained(cfg, table, repartition, task.id, task.slo, old(task.requestRate), residues, home, fits)
  {
    ResidueNodes(s, task.id);
    ghost var b, all := BooksOf(s), ResiduesOf(s, task.id);
    assert forall n | n in b.tasks :: n in NodesOf(all) <==> s.Has(n) && IsResidue(n, task.id);
    assert forall r | r in all :: Held(b, task.id, r) && r.node in s.nodes && s.Has(r.node) by {
      assert forall r | r in all :: Stands(s, task.id, r);
    }
    st, home, residues := MergeAlone(cfg, table, s, task, repartition, fits);
    assert residues == [] || residues == all;
    HomeServes(s, task.id, home);
  }

  /** mergeResidue, seen from the books. */
  method MergeBooked(cfg: Config, table: seq<SatEntry>, s: SimState, task: Task, repartition: bool, fits: Node -> bool)
    returns (st: Status, ghost residues: seq<Residue>, ghost home: Node?)
    requires cfg.Valid() && s.Valid()
    requires !cfg.useInterference ==> OnlyAlone(cfg, table, repartition, s, task.id, task.slo, [])
    modifies s`gpus, s.nodes, task`requestRate
    ensures s.Valid() && Reshaped(s) && MergedInto(old(BooksOf(s)), BooksOf(s), task.id, residues, home)
    ensures st == Ok ==> task.requestRate <= TRP_SLACK
    ensures task.requestRate == if home == null then old(task.requestRate) else 0
    ensures home != null ==>
              HomeGives(BooksOf(s), task.id, home) >= old(task.requestRate) as real + ServedBy(residues) - |residues| as real
    ensures !cfg.useInterference ==>
              && OnlyAlone(cfg, table, repartition, s, task.id, task.slo, [])
              && MergeExplained(cfg, table, repartition, task.id, task.slo, old(task.requestRate), residues, home, fits)
  {
    BooksSeen(s);
    var to, found;
    st, to, found := MergeRehomes(cfg, table, s, task, repartition, fits);
    BooksSeen(s);
    residues, home := found, to;
  }

  lemma HomeServes(s: SimState, model: int, home: Node?)
    requires home != null ==> home in s.nodes && |home.tasks| == 1 && home.tasks[0].id == model
    ensures HomeGives(BooksOf(s), model, home) == if home == null then 0.0 else home.tasks[0].throughput
  {
    if home != null {
      assert home.tasks == [home.tasks[0]];
      ThroughputOfOne(home.tasks[0], model);
    }
  }

  /** The merged rate is no more than a part of the table serves. */
  lemma MergedFits(table: seq<SatEntry>, rate: int, residues: seq<Residue>, merged: int, kind: Device, size: int)
    requires Mergeable(table, rate, residues, merged, kind, size)
    ensures FitsAPart(table, rate as real + ServedBy(residues) - |residues| as real)
  {
    GatheredLosesLittle(rate, residues);
    assert 1.0 <= Saturation(table, kind, size);
    var (found, e) := LastEntry(table, size, kind);
    assert found && merged as real <= e.throughput;
  }

  /** mergeResidue, entered in the books. */
  method MergeAndBook(cfg: Config, table: seq<SatEntry>, s: SimState, task: Task, repartition: bool, fits: Node -> bool,
                      ghost a: Books, ghost acc: Account, ghost rate: int) returns (st: Status, ghost acc': Account)
    requires cfg.Valid() && s.Valid()
    requires !cfg.useInterference ==> OnlyPlaced(cfg, table, repartition, a, s, task, acc, rate, task.requestRate)
    modifies s`gpus, s.nodes, task`requestRate
    ensures s.Valid() && Reshaped(s) && OthersLive(old(BooksOf(s)), BooksOf(s), task.id)
    ensures st == Ok ==> task.requestRate <= TRP_SLACK
    ensures !cfg.useInterference ==>
              acc'.after == BooksOf(s) && acc'.shared == [] && Justified(cfg, table, repartition, a, s, task, acc', rate, task.requestRate, fits)
  {
    ghost var b, residues, home := BooksOf(s), [], null;
    st, residues, home := MergeBooked(cfg, table, s, task, repartition, fits);
    ghost var c := BooksOf(s);
    acc' := Account(acc.start, acc.placed, b, acc.open, residues, home, c, []);
    MergedSame(b, c, task.id, residues, home);
    if !cfg.useInterference {
      MergeEntered(cfg, table, repartition, a, b, c, task.id, task.slo, acc, acc', rate, task.requestRate, fits);
    }
  }

  lemma MergeEntered(cfg: Config, table: seq<SatEntry>, cutting: bool, a: Books, b: Books, c: Books, model: int, slo: int, acc: Account,
                     acc': Account, rate: int, rest: int, fits: Node -> bool)
    requires acc == JustPlaced(acc.start, acc.placed, b, acc.open) && Booked(a, b, model, acc, rate, acc.open)
    requires acc' == Account(acc.start, acc.placed, b, acc.open, acc'.residues, acc'.home, c, [])
    requires MergedInto(b, c, model, acc'.residues, acc'.home) && rest == (if acc'.home == null then acc.open else 0)
    requires acc'.home != null ==>
               HomeGives(c, model, acc'.home) >= acc.open as real + ServedBy(acc'.residues) - |acc'.residues| as real
    requires MergeExplained(cfg, table, cutting, model, slo, acc.open, acc'.residues, acc'.home, fits)
    ensures Entered(cfg, table, cutting, a, c, model, slo, acc', rate, rest, fits)
  {
    MergedMore(a, b, c, model, acc.start, acc.placed, acc.open, acc'.residues, acc'.home);
    MergePays(b, c, model, acc, acc', rate, rest);
  }

  lemma MergePays(b: Books, c: Books, model: int, acc: Account, acc': Account, rate: int, rest: int)
    requires acc == JustPlaced(acc.start, acc.placed, b, acc.open) && Paid(b, model, acc, rate, acc.open)
    requires acc' == Account(acc.start, acc.placed, b, acc.open, acc'.residues, acc'.home, c, [])
    requires rest == (if acc'.home == null then acc.open else 0)
    requires acc'.home != null ==>
               HomeGives(c, model, acc'.home) >= acc.open as real + ServedBy(acc'.residues) - |acc'.residues| as real
    ensures Paid(c, model, acc', rate, rest)
  {
  }

  /** A load that was lost leaves the model short by no more than one part of the table serves. */
  lemma LossOfMerge(a: Books, b: Books, model: int, acc: Account, rate: int, rest: int, table: seq<SatEntry>)
    requires Added(a, b, model, acc) && Paid(b, model, acc, rate, rest) && Homeless(acc)
    requires FitsAPart(table, acc.open as real + ServedBy(acc.residues) - |acc.residues| as real)
    ensures FitsAPart(table, (rate - Roundings(acc)) as real - SupplyIn(b, model))
  {
    var e :| e in table && acc.open as real + ServedBy(acc.residues) - |acc.residues| as real <= e.throughput;
    assert (rate - Roundings(acc)) as real - SupplyIn(b, model) <= e.throughput;
  }

  /** allocateTimeShare among placements on parts of their own: it keeps a log, and those it spares stay alone. */
  method ShareAlone(cfg: Config, ghost table: seq<SatEntry>, s: SimState, task: Task, ghost cutting: bool, given: seq<View>)
    returns (st: Status, ghost log: Log)
    requires cfg.Valid() && s.Valid() && task.additionalRate == 0
    modifies s.nodes`tasks, s.nodes`duty, s.nodes`occupancy, task`requestRate
    ensures s.Valid() && log.Ok(task.id) && Shows(old(BooksOf(s)), BooksOf(s), log)
    ensures log.before == old(Supplies(s)) && log.after == Supplies(s) && forall n | n in log.shared :: n in s.nodes && s.Has(n)
    ensures SumOf(log.granted) + task.requestRate as real >= (old(task.requestRate) - |log.shared|) as real
    ensures st != Abort && (st == Ok ==> task.requestRate <= TRP_SLACK)
    ensures old(OnlyAlone(cfg, table, cutting, s, task.id, task.slo, [])) ==>
              OnlyAlone(cfg, table, cutting, s, task.id, task.slo, log.shared)
  {
    st, log := AllocateTimeShare(cfg, s, task, given);
  }

  /** allocateTimeShare, seen from the books. */
  method ShareBooked(cfg: Config, ghost table: seq<SatEntry>, s: SimState, task: Task, ghost cutting: bool, given: seq<View>)
    returns (st: Status, ghost shared: seq<Node>)
    requires cfg.Valid() && s.Valid() && task.additionalRate == 0
    modifies s.nodes`tasks, s.nodes`duty, s.nodes`occupancy, task`requestRate
    ensures s.Valid() && SharedInto(old(BooksOf(s)), BooksOf(s), task.id, shared)
    ensures SupplyIn(BooksOf(s), task.id) + task.requestRate as real
         >= SupplyIn(old(BooksOf(s)), task.id) + (old(task.requestRate) - |shared|) as real
    ensures st != Abort && (st == Ok ==> task.requestRate <= TRP_SLACK)
    ensures old(OnlyAlone(cfg, table, cutting, s, task.id, task.slo, [])) ==>
              OnlyAlone(cfg, table, cutting, s, task.id, task.slo, shared)
  {
    ghost var b := BooksOf(s);
    BooksSeen(s);
    ghost var log;
    st, log := ShareAlone(cfg, table, s, task, cutting, given);
    BooksSeen(s);
    shared := log.shared;
    LogShares(b, BooksOf(s), task.id, log);
    LogGrants(b, BooksOf(s), task.id, log);
  }

  /** allocateTimeShare, entered in the books. */
  method ShareAndBook(cfg: Config, table: seq<SatEntry>, s: SimState, task: Task, repartition: bool, given: seq<View>,
                      ghost fits: Node -> bool, ghost a: Books, ghost acc: Account, ghost rate: int)
    returns (st: Status, ghost acc': Account)
    requires cfg.Valid() && s.Valid() && task.additionalRate == 0
    requires !cfg.useInterference ==>
               && acc.after == BooksOf(s) && acc.shared == []
               && Justified(cfg, table, repartition, a, s, task, acc, rate, task.requestRate, fits)
    modifies s.nodes`tasks, s.nodes`duty, s.nodes`occupancy, task`requestRate
    ensures s.Valid() && OthersLive(old(BooksOf(s)), BooksOf(s), task.id)
    ensures st != Abort && (st == Ok ==> task.requestRate <= TRP_SLACK)
    ensures !cfg.useInterference ==> Justified(cfg, table, repartition, a, s, task, acc', rate, task.requestRate, fits)
  {
    ghost var b, shared := BooksOf(s), [];
    st, shared := ShareBooked(cfg, table, s, task, repartition, given);
    acc' := acc.(shared := shared);
    SharedLives(b, BooksOf(s), task.id, shared);
    if !cfg.useInterference {
      ShareEntered(cfg, table, repartition, a, b, BooksOf(s), task.id, task.slo, acc, rate, old(task.requestRate), task.requestRate, shared, fits);
    }
  }

  lemma ShareEntered(cfg: Config, table: seq<SatEntry>, cutting: bool, a: Books, b: Books, c: Books, model: int, slo: int, acc: Account,
                     rate: int, open: int, rest: int, shared: seq<Node>, fits: Node -> bool)
    requires Entered(cfg, table, cutting, a, b, model, slo, acc, rate, open, fits) && acc.after == b && acc.shared == []
    requires SharedInto(b, c, model, shared)
    requires SupplyIn(c, model) + rest as real >= SupplyIn(b, model) + (open - |shared|) as real
    ensures Entered(cfg, table, cutting, a, c, model, slo, acc.(shared := shared), rate, rest, fits)
  {
    SharedMore(a, b, c, model, acc, shared);
    SharePays(b, c, model, acc, rate, open, rest, shared);
    ExplainedStill(cfg, table, cutting, model, slo, acc, acc.(shared := shared), fits);
  }

  lemma SharePays(b: Books, c: Books, model: int, acc: Account, rate: int, open: int, rest: int, shared: seq<Node>)
    requires Paid(b, model, acc, rate, open) && acc.after == b && acc.shared == []
    requires SupplyIn(c, model) + rest as real >= SupplyIn(b, model) + (open - |shared|) as real
    ensures Paid(c, model, acc.(shared := shared), rate, rest)
  {
  }

  lemma ExplainedStill(cfg: Config, table: seq<SatEntry>, cutting: bool, model: int, slo: int, acc: Account, acc': Account,
                       fits: Node -> bool)
    requires Explained(cfg, table, cutting, model, slo, acc, fits)
    requires acc'.residues == acc.residues && acc'.home == acc.home && acc'.open == acc.open
    ensures Explained(cfg, table, cutting, model, slo, acc', fits)
  {
  }

  lemma SharedLives(b: Books, c: Books, model: int, shared: seq<Node>)
    requires SharedInto(b, c, model, shared)
    ensures OthersLive(b, c, model)
  {
  }

  // ----- addModeltoSchedule -----

  /** The passes that follow the greedy one: readjust, merge residues, share time. */
  method FallBack(cfg: Config, table: seq<SatEntry>, s: SimState, task: Task, free: set<Node>, repartition: bool,
                  share: seq<Node>, fits: Node -> bool, ghost a: Books, ghost acc: Account, ghost rate: int)
    returns (st: Status, ghost acc': Account)
    requires cfg.Valid() && s.Valid() && TableOk(cfg, task.id, table) && Free(s, free)
    requires !cfg.useInterference ==>
               task.additionalRate == 0 && OnlyPlaced(cfg, table, repartition, a, s, task, acc, rate, task.requestRate)
    modifies s`gpus, s`nodes, s.nodes, task`requestRate, task`additionalRate
    ensures s.Valid() && Reshaped(s) && (st != Abort ==> OthersLive(old(BooksOf(s)), BooksOf(s), task.id))
    ensures st == Ok ==> task.requestRate <= TRP_SLACK
    ensures !cfg.useInterference && st == Ok ==>
              Justified(cfg, table, repartition, a, s, task, acc', rate, task.requestRate, fits)
  {
    ghost var b := BooksOf(s);
    st, acc' := ReadjustAndBook(cfg, table, s, task, free, repartition, a, acc, rate);
    if st == Abort { return; }
    ghost var c := BooksOf(s);
    st, acc' := MergeAndShare(cfg, table, s, task, repartition, share, fits, a, acc', rate);
    OthersLiveOn(b, c, BooksOf(s), task.id);
  }

  method MergeAndShare(cfg: Config, table: seq<SatEntry>, s: SimState, task: Task, repartition: bool, share: seq<Node>,
                       fits: Node -> bool, ghost a: Books, ghost acc: Account, ghost rate: int)
    returns (st: Status, ghost acc': Account)
    requires cfg.Valid() && s.Valid() && task.additionalRate == 0
    requires !cfg.useInterference ==> OnlyPlaced(cfg, table, repartition, a, s, task, acc, rate, task.requestRate)
    modifies s`gpus, s.nodes, task`requestRate
    ensures s.Valid() && Reshaped(s) && OthersLive(old(BooksOf(s)), BooksOf(s), task.id)
    ensures st == Ok ==> task.requestRate <= TRP_SLACK
    ensures !cfg.useInterference ==> Justified(cfg, table, repartition, a, s, task, acc', rate, task.requestRate, fits)
  {
    ghost var b := BooksOf(s);
    st, acc' := MergeAndBook(cfg, table, s, task, repartition, fits, a, acc, rate);
    if st == Fail {
      ghost var c := BooksOf(s);
      st, acc' := ShareAndBook(cfg, table, s, task, repartition, Views(share), fits, a, acc', rate);
      OthersLiveOn(b, c, BooksOf(s), task.id);
    }
  }

  /** The account of a task that is withdrawn and not placed yet. */
  lemma NothingYet(cfg: Config, table: seq<SatEntry>, cutting: bool, a: Books, s: SimState, task: Task) returns (acc: Account)
    requires s.Valid() && Withdrawn(a, BooksOf(s), task.id) && SupplyIn(BooksOf(s), task.id) == 0.0
    requires OnlyAlone(cfg, table, cutting, s, task.id, task.slo, [])
    ensures OnlyPlaced(cfg, table, cutting, a, s, task, acc, task.requestRate, task.requestRate)
    ensures OthersLive(a, BooksOf(s), task.id)
  {
    NothingBooked(a, BooksOf(s), task.id, task.requestRate);
    acc := JustPlaced(BooksOf(s), [], BooksOf(s), task.requestRate);
  }

  /** The account of a task that was not scheduled and is not yet. */
  lemma NothingAtAll(cfg: Config, table: seq<SatEntry>, cutting: bool, s: SimState, task: Task) returns (acc: Account)
    requires s.Valid() && OnlyAlone(cfg, table, cutting, s, task.id, task.slo, []) && SupplyIn(BooksOf(s), task.id) == 0.0
    ensures OnlyPlaced(cfg, table, cutting, BooksOf(s), s, task, acc, task.requestRate, task.requestRate)
    ensures OthersLive(BooksOf(s), BooksOf(s), task.id)
  {
    BooksSeen(s);
    NothingWithdrawn(BooksOf(s), task.id);
    acc := NothingYet(cfg, table, cutting, BooksOf(s), s, task);
  }

  /** getEstimate, checkFit and allocateFit; the device type with the least partitions is left open. */
  method Greedy(cfg: Config, table: seq<SatEntry>, s: SimState, task: Task, repartition: bool, ghost a: Books, ghost rate: int)
    returns (st: Status, ghost acc: Account)
    requires cfg.Valid() && s.Valid() && TableOk(cfg, task.id, table) && task.additionalRate == 0 && a == BooksOf(s) && rate == task.requestRate
    requires OnlyAlone(cfg, table, repartition, s, task.id, task.slo, []) && SupplyIn(a, task.id) == 0.0
    modifies s`gpus, s`nodes, s.nodes, task`requestRate, task`additionalRate
    ensures s.Valid() && Reshaped(s) && OthersLive(a, BooksOf(s), task.id)
    ensures st == Ok ==> task.requestRate == 0
    ensures !cfg.useInterference && st != Abort ==>
              && task.additionalRate == 0
              && OnlyPlaced(cfg, table, repartition, a, s, task, acc, rate, if st == Ok then TRP_SLACK else task.requestRate)
  {
    acc := NothingAtAll(cfg, table, repartition, s, task);
    var wishes;
    st, wishes := EstimateAndCheck(cfg, table, s, task, repartition);
    if st == Ok {
      st, acc := FitAndBook(cfg, table, s, task, wishes, repartition, a, rate);
    }
  }

  /** The wishes for the task's rate, largest first; `Fail` if they do not fit. */
  method EstimateAndCheck(cfg: Config, table: seq<SatEntry>, s: SimState, task: Task, repartition: bool)
    returns (st: Status, wishes: seq<Wish>)
    requires cfg.Valid() && s.Valid() && TableOk(cfg, task.id, table)
    ensures s.Valid() && Reshaped(s) && BooksOf(s) == old(BooksOf(s))
    ensures old(OnlyAlone(cfg, table, repartition, s, task.id, task.slo, [])) ==>
              OnlyAlone(cfg, table, repartition, s, task.id, task.slo, [])
    ensures forall w | w in wishes :: WishOk(cfg, table, task.id, task.slo, w)
  {
    st, wishes := WishesFor(cfg, table, task.id, task.slo, task.requestRate);
    if st == Ok {
      var fits: Node -> bool := *;
      var ok, _ := CheckFit(cfg, s, wishes, repartition, fits);
      st := if ok then Ok else Fail;
    }
  }

  method WishesFor(cfg: Config, table: seq<SatEntry>, model: int, slo: int, rate: int) returns (st: Status, wishes: seq<Wish>)
    requires cfg.Valid() && TableOk(cfg, model, table)
    ensures forall w | w in wishes :: WishOk(cfg, table, model, slo, w)
  {
    var k :| 0 <= k < |cfg.types|;
    var estimate;
    ghost var residue;
    st, estimate, residue := EstimateTrp(cfg, table, cfg.types[k].0, model, slo, rate, 0);
    wishes := SortDescending(estimate, map w | w in estimate :: w.size as real);
    forall w | w in wishes ensures WishOk(cfg, table, model, slo, w) {
      assert w in multiset(wishes);
      assert w in estimate;
    }
  }

  /** The node does not serve the model. */
  predicate Without(n: Node, model: int)
    reads n
  {
    !Contains(n.tasks, model)
  }

  /** Taking one placement of `model` out leaves the others as they were. */
  lemma TakenOut(tasks: seq<Placement>, i: nat, model: int)
    requires i < |tasks| && tasks[i].id == model
    ensures Others(tasks[..i] + tasks[i + 1..], model) == Others(tasks, model)
    ensures forall m | m != model :: Throughput(tasks[..i] + tasks[i + 1..], m) == Throughput(tasks, m)
  {
    var before, it, after := tasks[..i], [tasks[i]], tasks[i + 1..];
    assert tasks == before + (it + after);
    OthersOfBoth(before, it + after, model);
    OthersOfBoth(it, after, model);
    OthersOfBoth(before, after, model);
    OthersOfOne(it, model);
    forall m | m != model ensures Throughput(before + after, m) == Throughput(tasks, m) {
      ThroughputOfBoth(before, it + after, m);
      ThroughputOfBoth(it, after, m);
      ThroughputOfBoth(before, after, m);
      ThroughputOfOne(tasks[i], m);
    }
  }

  /** A task list without `model`. */
  method Drop(tasks: seq<Placement>, ghost duty: real, model: int) returns (held: bool, rest: seq<Placement>)
    requires Serves(tasks, duty)
    ensures held == Contains(tasks, model) && Serves(rest, duty) && !Contains(rest, model)
    ensures Others(rest, model) == Others(tasks, model) && (tasks == [] ==> rest == [])
    ensures forall m | m != model :: Throughput(rest, m) == Throughput(tasks, m)
  {
    held, rest := Contains(tasks, model), tasks;
    if held {
      var i :| 0 <= i < |tasks| && tasks[i].id == model;
      TakenOut(tasks, i, model);
      rest := tasks[..i] + tasks[i + 1..];
    }
  }

  /** `n` runs `tasks` now, and that is all that has changed. */
  ghost predicate Rewritten(a: Books, b: Books, n: Node, tasks: seq<Placement>) {
    && SameGpus(a, b) && b.layout == a.layout && n in a.tasks && b.tasks.Keys == a.tasks.Keys && b.tasks[n] == tasks
    && (forall x | x in a.tasks && x != n :: b.tasks[x] == a.tasks[x])
    && (forall m: int :: SupplyIn(b, m) == SupplyIn(a, m) - Throughput(a.tasks[n], m) + Throughput(tasks, m))
  }

  lemma OneTakenOff(a: Books, b: Books, model: int, n: Node, rest: seq<Placement>)
    requires Rewritten(a, b, n, rest) && !Contains(rest, model) && Others(rest, model) == Others(a.tasks[n], model)
    requires forall m | m != model :: Throughput(rest, m) == Throughput(a.tasks[n], m)
    ensures Withdrawn(a, b, model)
  {
  }

  /** Leave `rest` on the node, its tasks without `model`. */
  method Strip(s: SimState, n: Node, ghost model: int, rest: seq<Placement>, duty: real, occupancy: real)
    requires s.Valid() && s.Has(n) && Serves(rest, duty) && !Contains(rest, model) && Others(rest, model) == Others(n.tasks, model)
    requires forall m | m != model :: Throughput(rest, m) == Throughput(n.tasks, m)
    modifies n`tasks, n`duty, n`occupancy
    ensures s.Valid() && n.tasks == rest && n.duty == duty && n.occupancy == occupancy
    ensures Withdrawn(old(BooksOf(s)), BooksOf(s), model)
  {
    HasMeans(s, n);
    ghost var a := BooksOf(s);
    BooksSeen(s);
    Fill(s, n, rest, duty, occupancy);
    BooksSeen(s);
    OneTakenOff(a, BooksOf(s), model, n, rest);
  }

  /** Take the model off a node; the occupancy of a node with tasks is computed anew. */
  method TakeOff(cfg: Config, s: SimState, n: Node, model: int) returns (held: bool)
    requires cfg.Valid() && s.Valid() && s.Has(n)
    modifies n`tasks, n`duty, n`occupancy
    ensures s.Valid() && Without(n, model) && held == !old(Without(n, model))
    ensures old(n.tasks) == [] ==> unchanged(n)
    ensures Withdrawn(old(BooksOf(s)), BooksOf(s), model)
  {
    HasMeans(s, n);
    var rest;
    held, rest := Drop(n.tasks, n.duty, model);
    assert BooksOf(s) == old(BooksOf(s));
    Strip(s, n, model, rest, n.duty, if n.tasks == [] then n.occupancy else Turn(cfg, n.kind, n.size, Rivals(cfg, n, s), rest) / n.duty);
  }

  /**
   * Every node gives the model up. The nodes left with nothing, all of them, can be used anew; those that held
   * the model may share again. The other models are left alone.
   */
  method Withdraw(cfg: Config, s: SimState, model: int) returns (free: set<Node>, share: seq<Node>)
    requires cfg.Valid() && s.Valid()
    modifies s.nodes`tasks, s.nodes`duty, s.nodes`occupancy
    ensures s.Valid() && forall n | s.Has(n) :: Without(n, model)
    ensures Free(s, free) && forall n | s.Has(n) && n.tasks == [] :: n in free
    ensures forall n | n in s.nodes :: n in share <==> s.Has(n) && old(!Without(n, model))
    ensures Reshaped(s) && Withdrawn(old(BooksOf(s)), BooksOf(s), model) && SupplyIn(BooksOf(s), model) == 0.0
  {
    share := TakeOffAll(cfg, s, model);
    NoSupply(s, model);
    BooksSeen(s);
    free := FreeNodes(s);
  }

  lemma NoSupply(s: SimState, model: int)
    requires s.Valid() && forall n | s.Has(n) :: Without(n, model)
    ensures Supply(s, model) == 0.0
  {
    AllInCluster(s);
    UnplacedSupply(s, model);
  }

  method TakeOffAll(cfg: Config, s: SimState, model: int) returns (share: seq<Node>)
    requires cfg.Valid() && s.Valid()
    modifies s.nodes`tasks, s.nodes`duty, s.nodes`occupancy
    ensures s.Valid() && forall n | s.Has(n) :: Without(n, model)
    ensures forall n | n in s.nodes :: n in share <==> s.Has(n) && old(!Without(n, model))
    ensures Withdrawn(old(BooksOf(s)), BooksOf(s), model)
  {
    share := [];
    var nodes := Flat(s.gpus);
    ghost var a, b := BooksOf(s), BooksOf(s);
    NoneWithdrawn(s, a, model);
    for k := 0 to |nodes|
      invariant s.Valid() && nodes == Flat(s.gpus)
      invariant b == BooksOf(s) && WithdrawnUpTo(a, b, model, nodes, k, share)
    {
      FlatIsHas(s, nodes[k]);
      var held := TakeOff(cfg, s, nodes[k], model);
      OneMoreWithdrawn(a, b, BooksOf(s), model, nodes, k, share);
      b := BooksOf(s);
      if held { share := share + [nodes[k]]; }
    }
    NoneHolds(s, a, b, model, share);
  }

  lemma NoneWithdrawn(s: SimState, a: Books, model: int)
    requires s.Valid() && a == BooksOf(s)
    ensures WithdrawnUpTo(a, a, model, Flat(s.gpus), 0, [])
  {
    BooksSeen(s);
    AllInCluster(s);
    FlatDistinct(s);
  }

  lemma NoneHolds(s: SimState, a: Books, b: Books, model: int, share: seq<Node>)
    requires s.Valid() && b == BooksOf(s) && WithdrawnUpTo(a, b, model, Flat(s.gpus), |Flat(s.gpus)|, share)
    ensures forall n | s.Has(n) :: Without(n, model)
    ensures forall n | n in s.nodes && n in a.tasks :: n in share <==> s.Has(n) && Contains(a.tasks[n], model)
  {
    AllInCluster(s);
    var nodes := Flat(s.gpus);
    forall n | s.Has(n) ensures Without(n, model) {
      var i :| 0 <= i < |nodes| && nodes[i] == n;
      assert !Contains(b.tasks[nodes[i]], model);
    }
  }

  /** The first `k` nodes have given the model up, and those of them that held it are the ones to share. */
  ghost predicate WithdrawnUpTo(a: Books, b: Books, model: int, nodes: seq<Node>, k: nat, share: seq<Node>)
    requires k <= |nodes|
  {
    && Withdrawn(a, b, model) && AllDistinct(nodes)
    && (forall i {:trigger nodes[i]} | 0 <= i < |nodes| ::
          && nodes[i] in a.tasks
          && (if i < k then !Contains(b.tasks[nodes[i]], model) else b.tasks[nodes[i]] == a.tasks[nodes[i]])
          && (nodes[i] in share <==> i < k && Contains(a.tasks[nodes[i]], model)))
    && (forall n | n in share :: n in nodes)
  }

  lemma {:induction false} OneMoreWithdrawn(a: Books, b: Books, c: Books, model: int, nodes: seq<Node>, k: nat, share: seq<Node>)
    requires k < |nodes| && WithdrawnUpTo(a, b, model, nodes, k, share) && Withdrawn(b, c, model)
    requires !Contains(c.tasks[nodes[k]], model) && forall n | n in b.tasks && n != nodes[k] :: c.tasks[n] == b.tasks[n]
    ensures var held := Contains(b.tasks[nodes[k]], model);
            WithdrawnUpTo(a, c, model, nodes, k + 1, if held then share + [nodes[k]] else share)
  {
    assert forall i | 0 <= i < |nodes| && i != k :: nodes[i] != nodes[k];
  }

  /**
   * The model is served `rate` in the books but for the slack and six requests per second for each GPU, the most that
   * rounding can cost. It may be short by what one part of its table serves if latency misbehaves or memory is short.
   */
  ghost predicate WellServed(cfg: Config, table: seq<SatEntry>, cutting: bool, b: Books, model: int, rate: int, fits: Node -> bool) {
    var short := (rate - 6 * |b.layout|) as real - SupplyIn(b, model);
    short <= TRP_SLACK as real || (FitsAPart(table, short) && !(Orderly(cfg, cutting) && forall n | n in b.tasks :: fits(n)))
  }

  /** However a model was placed, its account and what it pays for show that it is well served. */
  lemma AddedServesWell(cfg: Config, table: seq<SatEntry>, cutting: bool, a: Books, b: Books, model: int, slo: int, acc: Account,
                        rate: int, fits: Node -> bool)
    requires Added(a, b, model, acc) && Paid(b, model, acc, rate, TRP_SLACK)
    requires Explained(cfg, table, cutting, model, slo, acc, fits)
    ensures WellServed(cfg, table, cutting, b, model, rate, fits)
  {
    FewRoundings(a, b, model, acc);
    PaidMeans(a, b, model, acc, rate, TRP_SLACK);
    ResiduesKnown(a, b, model, acc);
    if Homeless(acc) {
      LossOfMerge(a, b, model, acc, rate, TRP_SLACK, table);
    }
    ShortByLoss(cfg, table, cutting, b, model, acc, rate, fits);
  }

  lemma ResiduesKnown(a: Books, b: Books, model: int, acc: Account)
    requires Added(a, b, model, acc)
    ensures forall r | r in acc.residues :: r.node in b.tasks
  {
    forall r | r in acc.residues ensures r.node in b.tasks {
      assert Held(acc.before, model, r);
    }
  }

  lemma ShortByLoss(cfg: Config, table: seq<SatEntry>, cutting: bool, b: Books, model: int, acc: Account, rate: int, fits: Node -> bool)
    requires Roundings(acc) <= 6 * |b.layout| && forall r | r in acc.residues :: r.node in b.tasks
    requires SupplyIn(b, model) + TRP_SLACK as real >= (rate - Roundings(acc)) as real - Gone(acc)
    requires Homeless(acc) ==> FitsAPart(table, (rate - Roundings(acc)) as real - SupplyIn(b, model))
    requires Orderly(cfg, cutting) && Homeless(acc) ==> exists r | r in acc.residues :: !fits(r.node)
    ensures WellServed(cfg, table, cutting, b, model, rate, fits)
  {
    var supply := SupplyIn(b, model);
    if Homeless(acc) {
      var e :| e in table && (rate - Roundings(acc)) as real - supply <= e.throughput;
      assert (rate - 6 * |b.layout|) as real - supply <= e.throughput;
    }
  }

  /**
   * What success means without interference: the books show a task added step by step as this account says, each step
   * paying for what it took off the rate, so that the task is well served. On every node it does not share the model
   * runs what was planned for a part of its own. The other models stand, but for those on the nodes shared now.
   */
  ghost predicate Success(cfg: Config, table: seq<SatEntry>, cutting: bool, a: Books, s: SimState, task: Task,
                          acc: Account, rate: int, fits: Node -> bool)
    reads s, s.nodes
  {
    var b := BooksOf(s);
    && Justified(cfg, table, cutting, a, s, task, acc, rate, TRP_SLACK, fits)
    && WellServed(cfg, table, cutting, b, task.id, rate, fits)
    && OthersStand(a, b, task.id, acc.shared) && OthersSupplied(a, b, task.id, acc.shared)
  }

  lemma Succeeds(cfg: Config, table: seq<SatEntry>, cutting: bool, a: Books, s: SimState, task: Task, acc: Account, rate: int,
                 fits: Node -> bool)
    requires Justified(cfg, table, cutting, a, s, task, acc, rate, TRP_SLACK, fits)
    ensures Success(cfg, table, cutting, a, s, task, acc, rate, fits)
  {
    AddedServesWell(cfg, table, cutting, a, BooksOf(s), task.id, task.slo, acc, rate, fits);
    OthersAfter(a, BooksOf(s), task.id, acc);
  }

  /** With memory granted on all nodes, a model that is well served is served in full, but for the slack and the roundings. */
  lemma ServedInFull(cfg: Config, table: seq<SatEntry>, cutting: bool, s: SimState, model: int, rate: int, fits: Node -> bool)
    requires s.Valid() && WellServed(cfg, table, cutting, BooksOf(s), model, rate, fits)
    ensures Orderly(cfg, cutting) && (forall n | n in s.nodes :: fits(n)) ==>
              Supply(s, model) >= (rate - TRP_SLACK - 6 * |s.gpus|) as real
  {
    BooksSeen(s);
  }

  /** With memory granted where there were residues, only the slack and the roundings are missing, six for each GPU at most. */
  lemma NothingGone(cfg: Config, table: seq<SatEntry>, cutting: bool, a: Books, s: SimState, task: Task, acc: Account, rate: int,
                    fits: Node -> bool)
    requires s.Valid() && Success(cfg, table, cutting, a, s, task, acc, rate, fits) && Orderly(cfg, cutting)
    requires forall r | r in acc.residues :: fits(r.node)
    ensures Supply(s, task.id) >= (rate - TRP_SLACK - Roundings(acc)) as real && Roundings(acc) <= 6 * |s.gpus|
  {
    BooksSeen(s);
    PaidMeans(a, BooksOf(s), task.id, acc, rate, TRP_SLACK);
    FewRoundings(a, BooksOf(s), task.id, acc);
  }

  lemma NowhereYet(cfg: Config, table: seq<SatEntry>, cutting: bool, s: SimState, task: Task)
    requires s.Valid() && forall n | n in Flat(s.gpus) :: !Contains(n.tasks, task.id)
    ensures SupplyIn(BooksOf(s), task.id) == 0.0 && OnlyAlone(cfg, table, cutting, s, task.id, task.slo, [])
  {
    AllInCluster(s);
    BooksSeen(s);
    UnplacedSupply(s, task.id);
  }

  /** Nothing was merged, so there is nothing to explain. */
  lemma PlacedJustified(cfg: Config, table: seq<SatEntry>, cutting: bool, a: Books, s: SimState, task: Task, acc: Account,
                        rate: int, rest: int, fits: Node -> bool)
    requires OnlyPlaced(cfg, table, cutting, a, s, task, acc, rate, rest)
    ensures Justified(cfg, table, cutting, a, s, task, acc, rate, rest, fits)
  {
  }

  /** A model that is not scheduled yet: greedy best fit first, then the other passes. */
  method AddFresh(cfg: Config, table: seq<SatEntry>, s: SimState, task: Task, repartition: bool, fits: Node -> bool,
                  ghost a: Books, ghost rate: int) returns (st: Status, ghost acc: Account)
    requires cfg.Valid() && s.Valid() && TableOk(cfg, task.id, table) && task.additionalRate == 0 && a == BooksOf(s) && rate == task.requestRate
    requires forall n | n in Flat(s.gpus) :: !Contains(n.tasks, task.id)
    modifies s`gpus, s`nodes, s.nodes, task`requestRate, task`additionalRate
    ensures s.Valid() && Reshaped(s) && (st != Abort ==> OthersLive(a, BooksOf(s), task.id))
    ensures st == Ok ==> task.requestRate <= TRP_SLACK
    ensures !cfg.useInterference && st == Ok ==> Justified(cfg, table, repartition, a, s, task, acc, rate, TRP_SLACK, fits)
  {
    NowhereYet(cfg, table, repartition, s, task);
    st, acc := Greedy(cfg, table, s, task, repartition, a, rate);
    if st == Ok && !cfg.useInterference {
      PlacedJustified(cfg, table, repartition, a, s, task, acc, rate, TRP_SLACK, fits);
    }
    ghost var mid := s.nodes;
    if st == Fail {
      st, acc := AfterGreedy(cfg, table, s, task, repartition, fits, a, acc, rate);
    }
    assert forall n | n in s.nodes && n !in mid :: fresh(n);
  }

  method AfterGreedy(cfg: Config, table: seq<SatEntry>, s: SimState, task: Task, repartition: bool, fits: Node -> bool,
                     ghost a: Books, ghost acc: Account, ghost rate: int) returns (st: Status, ghost acc': Account)
    requires cfg.Valid() && s.Valid() && TableOk(cfg, task.id, table) && OthersLive(a, BooksOf(s), task.id)
    requires !cfg.useInterference ==>
               task.additionalRate == 0 && OnlyPlaced(cfg, table, repartition, a, s, task, acc, rate, task.requestRate)
    modifies s`gpus, s`nodes, s.nodes, task`requestRate, task`additionalRate
    ensures s.Valid() && Reshaped(s) && (st != Abort ==> OthersLive(a, BooksOf(s), task.id))
    ensures st == Ok ==> task.requestRate <= TRP_SLACK
    ensures !cfg.useInterference && st == Ok ==> Justified(cfg, table, repartition, a, s, task, acc', rate, TRP_SLACK, fits)
  {
    ghost var b := BooksOf(s);
    var free := FreeNodes(s);
    st, acc' := FallBack(cfg, table, s, task, free, repartition, [], fits, a, acc, rate);
    if st != Abort { OthersLiveOn(a, b, BooksOf(s), task.id); }
  }

  /** A task that has been withdrawn since the books stood at `a` is placed anew. */
  method PlaceAgain(cfg: Config, table: seq<SatEntry>, s: SimState, task: Task, free: set<Node>, repartition: bool,
                    share: seq<Node>, fits: Node -> bool, ghost a: Books, ghost rate: int) returns (st: Status, ghost acc: Account)
    requires cfg.Valid() && s.Valid() && TableOk(cfg, task.id, table) && Free(s, free)
    requires task.additionalRate == 0 && task.requestRate == rate && forall n | s.Has(n) :: Without(n, task.id)
    requires Withdrawn(a, BooksOf(s), task.id) && SupplyIn(BooksOf(s), task.id) == 0.0
    modifies s`gpus, s`nodes, s.nodes, task`requestRate, task`additionalRate
    ensures s.Valid() && Reshaped(s) && (st != Abort ==> OthersLive(a, BooksOf(s), task.id))
    ensures st == Ok ==> task.requestRate <= TRP_SLACK
    ensures !cfg.useInterference && st == Ok ==> Justified(cfg, table, repartition, a, s, task, acc, rate, TRP_SLACK, fits)
  {
    ghost var b := BooksOf(s);
    acc := NothingYet(cfg, table, repartition, a, s, task);
    st, acc := FallBack(cfg, table, s, task, free, repartition, share, fits, a, acc, rate);
    if st != Abort {
      OthersLiveOn(a, b, BooksOf(s), task.id);
    }
  }

  /** A model that is scheduled already is withdrawn and placed anew. */
  method AddAgain(cfg: Config, table: seq<SatEntry>, s: SimState, task: Task, repartition: bool, fits: Node -> bool,
                  ghost a: Books, ghost rate: int) returns (st: Status, ghost acc: Account)
    requires cfg.Valid() && s.Valid() && TableOk(cfg, task.id, table) && task.additionalRate == 0 && a == BooksOf(s) && rate == task.requestRate
    modifies s`gpus, s`nodes, s.nodes, task`requestRate, task`additionalRate
    ensures s.Valid() && Reshaped(s) && (st != Abort ==> OthersLive(a, BooksOf(s), task.id))
    ensures st == Ok ==> task.requestRate <= TRP_SLACK
    ensures !cfg.useInterference && st == Ok ==> Justified(cfg, table, repartition, a, s, task, acc, rate, TRP_SLACK, fits)
  {
    var free, share := Withdraw(cfg, s, task.id);
    st, acc := PlaceAgain(cfg, table, s, task, free, repartition, share, fits, a, rate);
  }

  /** Withdraw the task if it is scheduled already, and place it. */
  method AddEither(cfg: Config, table: seq<SatEntry>, s: SimState, task: Task, repartition: bool, fits: Node -> bool,
                   ghost a: Books, ghost rate: int) returns (st: Status, ghost acc: Account)
    requires cfg.Valid() && s.Valid() && TableOk(cfg, task.id, table) && task.additionalRate == 0 && a == BooksOf(s) && rate == task.requestRate
    modifies s`gpus, s`nodes, s.nodes, task`requestRate, task`additionalRate
    ensures s.Valid() && Reshaped(s) && (st != Abort ==> OthersLive(a, BooksOf(s), task.id))
    ensures st == Ok ==> task.requestRate <= TRP_SLACK
    ensures !cfg.useInterference && st == Ok ==>
              Success(cfg, table, repartition, a, s, task, acc, rate, fits)
    ensures !cfg.useInterference && st == Ok && Orderly(cfg, repartition) && (forall n | n in s.nodes :: fits(n)) ==>
              Supply(s, task.id) >= (rate - TRP_SLACK - 6 * |s.gpus|) as real
  {
    if exists n | n in Flat(s.gpus) :: Contains(n.tasks, task.id) {
      st, acc := AddAgain(cfg, table, s, task, repartition, fits, a, rate);
    } else {
      st, acc := AddFresh(cfg, table, s, task, repartition, fits, a, rate);
    }
    if !cfg.useInterference && st == Ok {
      Succeeds(cfg, table, repartition, a, s, task, acc, rate, fits);
      ServedInFull(cfg, table, repartition, s, task.id, rate, fits);
    }
  }

  method NothingExtra(s: SimState, task: Task)
    requires s.Valid()
    modifies task`additionalRate
    ensures task.additionalRate == 0 && s.Valid() && Reshaped(s) && BooksOf(s) == old(BooksOf(s))
  {
    ghost var a := BooksOf(s);
    task.additionalRate := 0;
    assert BooksOf(s) == a;
  }

  /**
   * addModeltoSchedule; `fits` answers for the memory check of the merging pass. Success means without interference
   * that the model is served its rate, but for the slack, the roundings, and what a merge has lost: nothing if latency
   * behaves and memory is granted. Other models keep all their placements, untouched but on the nodes that are shared
   * now. With interference they keep them too, with other batches.
   */
  method AddModel(cfg: Config, table: seq<SatEntry>, s: SimState, task: Task, repartition: bool, fits: Node -> bool)
    returns (st: Status, ghost acc: Account)
    requires cfg.Valid() && s.Valid() && TableOk(cfg, task.id, table)
    modifies s`gpus, s`nodes, s.nodes, task`requestRate, task`additionalRate
    ensures s.Valid() && Reshaped(s) && (st != Abort ==> OthersLive(old(BooksOf(s)), BooksOf(s), task.id))
    ensures st == Ok ==> task.requestRate <= TRP_SLACK
    ensures !cfg.useInterference && st == Ok ==>
              Success(cfg, table, repartition, old(BooksOf(s)), s, task, acc, old(task.requestRate), fits)
    ensures !cfg.useInterference && st == Ok && Orderly(cfg, repartition) && (forall n | n in s.nodes :: fits(n)) ==>
              Supply(s, task.id) >= (old(task.requestRate) - TRP_SLACK - 6 * |s.gpus|) as real
  {
    ghost var a, rate := BooksOf(s), task.requestRate;
    NothingExtra(s, task);
    st, acc := AddEither(cfg, table, s, task, repartition, fits, a, rate);
  }
}
