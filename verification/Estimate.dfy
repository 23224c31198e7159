// Estimation: which gpu-lets would serve a rate (initSaturateTrp, getMinPart, estimateTrp).
module Estimation {
  import opened Cluster
  import opened Performance
  import opened Rounding
  import opened BatchSearch
  import opened Adjust

  /** Throughput of a model that fills a partition on its own. */
  datatype SatEntry = SatEntry(part: int, kind: Device, batch: int, throughput: real)

  /** A gpu-let wished for: size, device type, and the placement it would run. */
  datatype Wish = Wish(id: int, kind: Device, size: int, task: Placement, duty: real, occupancy: real)

  ghost predicate EntryOk(cfg: Config, m: int, slo: int, e: SatEntry) {
    var latency := Latency(cfg, e.kind, m, e.batch, e.part, []);
    && 1 <= e.batch < MAX_BATCH && 0.0 < latency && e.throughput == Rate(e.batch, latency)
    && (e.batch < MAX_BATCH - 1 ==> !Feasible(cfg, e.kind, e.part, [], m, slo, e.batch + 1, 1, false) || e.batch == 1)
    && (Feasible(cfg, e.kind, e.part, [], m, slo, e.batch, 1, false)
        || (e.batch == 1 && !Feasible(cfg, e.kind, e.part, [], m, slo, 1, 1, false)))
  }

  /** A table of the model, made for the SLO it had when the scheduler first met it. */
  ghost predicate TableOk(cfg: Config, m: int, table: seq<SatEntry>) {
    exists slo :: TableFor(cfg, m, slo, table)
  }

  ghost predicate TableFor(cfg: Config, m: int, slo: int, table: seq<SatEntry>) {
    forall e {:trigger EntryOk(cfg, m, slo, e)} | e in table :: EntryOk(cfg, m, slo, e)
  }

  predicate Covered(table: seq<SatEntry>, kind: Device, part: int) {
    exists k | 0 <= k < |table| :: table[k].kind == kind && table[k].part == part
  }

  /** initSaturateTrp: one entry per device type and available partition. */
  method InitSaturateTrp(cfg: Config, m: int, slo: int, rate: int) returns (table: seq<SatEntry>)
    requires cfg.Valid()
    ensures TableFor(cfg, m, slo, table)
    ensures forall i, j | 0 <= i < |cfg.types| && 0 <= j < |cfg.parts| :: Covered(table, cfg.types[i].0, cfg.parts[j])
  {
    table := [];
    for i := 0 to |cfg.types|
      invariant TableFor(cfg, m, slo, table)
      invariant forall k, j | 0 <= k < i && 0 <= j < |cfg.parts| :: Covered(table, cfg.types[k].0, cfg.parts[j])
    {
      for j := 0 to |cfg.parts|
        invariant TableFor(cfg, m, slo, table)
        invariant forall k, l | 0 <= k < i && 0 <= l < |cfg.parts| :: Covered(table, cfg.types[k].0, cfg.parts[l])
        invariant forall l | 0 <= l < j :: Covered(table, cfg.types[i].0, cfg.parts[l])
      {
        var e := SaturateEntry(cfg, cfg.types[i].0, cfg.parts[j], m, slo, rate);
        ghost var was := table;
        table := table + [e];
        assert table[|was|] == e;
        assert forall kind, part | Covered(was, kind, part) :: Covered(table, kind, part) by {
          assert forall k | 0 <= k < |was| :: table[k] == was[k];
        }
      }
    }
  }

  method SaturateEntry(cfg: Config, d: Device, p: int, m: int, slo: int, rate: int) returns (e: SatEntry)
    requires cfg.Valid()
    ensures EntryOk(cfg, m, slo, e) && e.kind == d && e.part == p
  {
    var batch, _ := GetMaxBatch(cfg, d, p, [], m, slo, rate, false);
    if batch == 0 {
      // Only because twice the latency of batch 1 exceeds the SLO: the batch is then fixed to 1.
      assert 2.0 * Latency(cfg, d, m, 1, p, []) > slo as real;
      batch := 1;
    }
    LatencyPositive(cfg, d, m, batch, p, []);
    e := SatEntry(p, d, batch, Rate(batch, Latency(cfg, d, m, batch, p, [])));
  }

  /** The last entry for the partition, if there is one. */
  function LastEntry(table: seq<SatEntry>, part: int, kind: Device): (r: (bool, SatEntry))
    ensures r.0 <==> Covered(table, kind, part)
    ensures if r.0 then r.1 in table && r.1.part == part && r.1.kind == kind else r.1.throughput == 0.0
  {
    if table == [] then (false, SatEntry(part, kind, 0, 0.0))
    else
      var k := |table| - 1;
      if table[k].part == part && table[k].kind == kind then (true, table[k])
      else
        var r := LastEntry(table[..k], part, kind);
        assert forall i | 0 <= i < k :: table[..k][i] == table[i];
        r
  }

  /** getMaxSaturateTrp; a source assert stops the process when nothing is found. */
  method GetMaxSaturateTrp(table: seq<SatEntry>, part: int, kind: Device) returns (found: bool, e: SatEntry)
    ensures (found, e) == LastEntry(table, part, kind)
  {
    found, e := false, SatEntry(part, kind, 0, 0.0);
    for k := 0 to |table|
      invariant (found, e) == LastEntry(table[..k], part, kind)
    {
      assert table[..k + 1][..k] == table[..k] && table[..k + 1][k] == table[k];
      if table[k].part == part && table[k].kind == kind {
        found, e := true, table[k];
      }
    }
    assert table[..|table|] == table;
  }

  /** The throughput that fills a part of the given type and size. */
  function Saturation(table: seq<SatEntry>, kind: Device, size: int): real {
    LastEntry(table, size, kind).1.throughput
  }

  /** The step from `parts[i]` to the next larger part raises the throughput by 5% at least. */
  predicate WorthIt(table: seq<SatEntry>, kind: Device, parts: seq<int>, i: int)
    requires 1 <= i < |parts|
  {
    parts[i] != parts[i - 1] && Saturation(table, kind, parts[i]) * 1.05 <= Saturation(table, kind, parts[i - 1])
  }

  function PerPercent(low: int, high: int, lowTrp: real, highTrp: real): real
    requires low != high
  {
    (highTrp - lowTrp) / (high - low) as real
  }

  /** What that step gains for every percent of the GPU. */
  function Return(table: seq<SatEntry>, kind: Device, parts: seq<int>, i: int): real
    requires 1 <= i < |parts| && parts[i] != parts[i - 1]
  {
    PerPercent(parts[i], parts[i - 1], Saturation(table, kind, parts[i]), Saturation(table, kind, parts[i - 1]))
  }

  /**
   * From step `first` on, `part` is the upper end of one of best return, `best`; or, when no step that is worth
   * it gains anything, the smallest part.
   */
  ghost predicate BestReturn(table: seq<SatEntry>, kind: Device, parts: seq<int>, first: int, part: int, best: real)
    requires 1 <= first && parts != []
  {
    && (forall i | first <= i < |parts| && WorthIt(table, kind, parts, i) :: Return(table, kind, parts, i) <= best)
    && if best == 0.0 then part == parts[|parts| - 1]
       else exists i | first <= i < |parts| ::
              WorthIt(table, kind, parts, i) && part == parts[i - 1] && best == Return(table, kind, parts, i)
  }

  lemma OneStepUp(table: seq<SatEntry>, kind: Device, parts: seq<int>, i: int, part: int, best: real)
    requires 1 <= i < |parts| && 0.0 <= best && BestReturn(table, kind, parts, i + 1, part, best)
    ensures if WorthIt(table, kind, parts, i) && best < Return(table, kind, parts, i)
            then BestReturn(table, kind, parts, i, parts[i - 1], Return(table, kind, parts, i))
            else BestReturn(table, kind, parts, i, part, best)
  {
  }

  /**
   * getMaxReturnPart: the partition with the best throughput gained per percent over the next smaller one. The
   * step up to the largest part is not looked at.
   */
  method GetMaxReturnPart(cfg: Config, table: seq<SatEntry>, kind: Device) returns (found: bool, part: int)
    requires cfg.Valid()
    ensures found ==> part in cfg.parts
    ensures |cfg.parts| == 1 || (forall p | p in cfg.parts :: Covered(table, kind, p)) ==> found
    ensures found && |cfg.parts| != 1 ==> exists best :: 0.0 <= best && BestReturn(table, kind, cfg.parts, 2, part, best)
  {
    if |cfg.parts| == 1 { return true, cfg.parts[0]; }
    var trp: map<int, real> := map[];
    for i := 0 to |cfg.parts|
      invariant forall k | 0 <= k < i :: cfg.parts[k] in trp && trp[cfg.parts[k]] == Saturation(table, kind, cfg.parts[k])
    {
      var ok, e := GetMaxSaturateTrp(table, cfg.parts[i], kind);
      if !ok { return false, 0; }
      trp := trp[cfg.parts[i] := e.throughput];
    }
    found, part := true, cfg.parts[|cfg.parts| - 1];
    var best := 0.0;
    var i := |cfg.parts| - 1;
    while 1 < i
      invariant part in cfg.parts && 1 <= i < |cfg.parts|
      invariant 0.0 <= best && BestReturn(table, kind, cfg.parts, i + 1, part, best)
    {
      var low, high := cfg.parts[i], cfg.parts[i-1];
      OneStepUp(table, kind, cfg.parts, i, part, best);
      if trp[low] * 1.05 <= trp[high] && low != high {
        var gain := PerPercent(low, high, trp[low], trp[high]);
        if best < gain { best, part := gain, high; }
      }
      i := i - 1;
    }
  }

  // ----- what is planned for a part of its own -----

  /** The table has this batch for such a part. */
  ghost predicate Tabled(table: seq<SatEntry>, d: Device, p: int, b: int) {
    exists e | e in table :: e.kind == d && e.part == p && e.batch == b
  }

  /** A batch to fill a part with: the table's, or one that is done before the SLO is over, or else one request. */
  ghost predicate Usable(table: seq<SatEntry>, d: Device, p: int, slo: int, b: int, latency: real) {
    1 <= b && (b == 1 || latency < slo as real || Tabled(table, d, p, b))
  }

  /** The batch fills the part by itself: one starts as soon as the last has ended. */
  ghost predicate FullTurn(table: seq<SatEntry>, d: Device, p: int, slo: int, duty: real, occupancy: real, b: int, latency: real) {
    occupancy == 1.0 && duty == latency && Usable(table, d, p, slo, b, latency)
  }

  /** A batch of one that gets the raised rate of getMaxBatch. */
  predicate RaisedOne(slo: int, ratio: real, throughput: real, b: int, latency: real) {
    b == 1 && latency < slo as real && throughput == RaisedRate(latency, slo, ratio) as real
  }

  /**
   * Where the batch for a part comes from: the table, the search on a part at least as large, or it is the one request
   * given to a part on which the search for a full one finds nothing.
   */
  ghost predicate Sought(cfg: Config, table: seq<SatEntry>, d: Device, p: int, rivals: seq<Rival>, m: int, slo: int, rate: int, b: int) {
    || Tabled(table, d, p, b)
    || (exists g, residue :: p <= g && Answer(cfg, d, g, rivals, m, slo, rate, residue, b))
    || (b == 1 && NoneFound(cfg, d, p, rivals, m, slo, rate, false))
  }

  /** A batch of `b` starts as soon as it has filled at the placement's rate, or else as soon as the last has ended. */
  predicate Paced(b: int, rate: int, t: Placement, duty: real, latency: real) {
    1 <= rate && (duty == latency || (rate == t.requestRate && duty == b as real * 1000.0 / rate as real))
  }

  /**
   * `t` was planned for a part of `q` percent of its own, for which the search gave the batch `b`, and is on one of
   * `p` percent. It serves its batch, which the bandwidth check may have lowered, once per duty cycle: the time the
   * batch fills in at `rate`, or its latency. The occupancy is the share of the duty cycle it runs, or 1 if the batch
   * takes all of it. It answers in time, or fills the part, or is a batch of one at a raised rate.
   */
  ghost predicate Alone(cfg: Config, table: seq<SatEntry>, d: Device, p: int, q: int, rivals: seq<Rival>,
                        t: Placement, duty: real, occupancy: real, b: int, rate: int)
  {
    var latency, planned := Latency(cfg, d, t.id, b, p, rivals), Latency(cfg, d, t.id, b, q, rivals);
    && 0.0 < duty && 1 <= t.batch <= b && t.throughput == Rate(t.batch, duty)
    && Sought(cfg, table, d, q, rivals, t.id, t.slo, rate, b) && Paced(b, rate, t, duty, planned)
    && (occupancy == Latency(cfg, d, t.id, t.batch, q, rivals) / duty || (occupancy == 1.0 && duty == planned))
    && (|| latency + duty <= t.slo as real
        || (q == p && FullTurn(table, d, p, t.slo, duty, occupancy, b, latency))
        || (q == p && RaisedOne(t.slo, cfg.ratio, t.throughput, b, latency)))
  }

  /** Planned for a part of its own, and on one at least as large; on exactly such a part if cutting GPUs is on. */
  ghost predicate AloneAt(cfg: Config, table: seq<SatEntry>, cutting: bool, d: Device, p: int, rivals: seq<Rival>,
                          t: Placement, duty: real, occupancy: real)
  {
    exists b, q, rate :: q <= p && (cutting ==> q == p) && Alone(cfg, table, d, p, q, rivals, t, duty, occupancy, b, rate)
  }

  /** A timely batch, run as fast as it fills or else as it can. */
  lemma TimelyAlone(cfg: Config, table: seq<SatEntry>, d: Device, p: int, rivals: seq<Rival>,
                    t: Placement, duty: real, occupancy: real, b: int, rate: int)
    requires cfg.Valid() && 1 <= t.batch <= b && 1 <= rate == t.requestRate && Timely(cfg, d, p, rivals, t.id, t.slo, b, rate)
    requires Sought(cfg, table, d, p, rivals, t.id, t.slo, rate, b)
    requires 0.0 < duty && t.throughput == Rate(t.batch, duty)
    requires var fill, latency := b as real * 1000.0 / rate as real, Latency(cfg, d, t.id, b, p, rivals);
             if duty == fill then occupancy == Latency(cfg, d, t.id, t.batch, p, rivals) / duty
             else occupancy == 1.0 && fill <= duty == latency
    ensures Alone(cfg, table, d, p, p, rivals, t, duty, occupancy, b, rate)
  {
    var fill := b as real * 1000.0 / rate as real;
    RateOfDuty(b, rate);
    assert 1000.0 * b as real == b as real * 1000.0;
    if duty == fill && b == 1 {
      assert t.throughput == Rate(1, fill) == rate as real;
    }
  }

  // ----- residue -----

  /** At `rate`, batches of `b` are served before the next one is due, and within the SLO. */
  predicate Holds(cfg: Config, d: Device, m: int, slo: int, b: int, rate: int, part: int)
    requires 1 <= rate
  {
    var latency, duty := Latency(cfg, d, m, b, part, []), b as real * 1000.0 / rate as real;
    latency <= duty && latency + duty <= slo as real
  }

  /**
   * getMinPart: the smallest available partition up to `given` that holds the rate.
   * It answers 0 and leaves the batch unset when no batch of the model fits the partition it starts from.
   */
  method GetMinPart(cfg: Config, d: Device, m: int, slo: int, given: int, rate: int)
    returns (part: int, batch: int, newRate: int)
    requires cfg.Valid() && 1 <= given && 1 <= rate
    ensures rate <= newRate && 0 <= batch < MAX_BATCH
    ensures batch == 0 <==> part == 0
    ensures batch == 0 ==>
              var start := if cfg.parts[0] <= given then cfg.parts[0] else given;
              && !Feasible(cfg, d, start, [], m, slo, 1, rate, true)
              && !SmallRate(Latency(cfg, d, m, 1, start, []), rate, slo)
    ensures batch != 0 ==> Timely(cfg, d, part, [], m, slo, batch, newRate)
    ensures batch != 0 ==> exists g :: part <= g && Answer(cfg, d, g, [], m, slo, newRate, true, batch)
    ensures part == 0 || part == given || part in cfg.parts
    ensures given in cfg.parts && part != 0 ==> part in cfg.parts
    ensures AntitoneInPart(cfg) && batch != 0 ==>
              forall q | q in cfg.parts && q <= given && Holds(cfg, d, m, slo, batch, newRate, q) ::
                part <= q && Holds(cfg, d, m, slo, batch, newRate, part)
  {
    var start := if cfg.parts[0] <= given then cfg.parts[0] else given;
    batch, newRate := GetMaxBatch(cfg, d, start, [], m, slo, rate, true);
    if batch == 0 { return 0, 0, newRate; }
    part := start;
    assert cfg.parts[0] in cfg.parts;
    for i := 0 to |cfg.parts|
      invariant part == start || part in cfg.parts
      invariant 1 <= part <= start && Timely(cfg, d, part, [], m, slo, batch, newRate)
      invariant forall k | 0 <= k < i && cfg.parts[k] <= start ::
                  part <= cfg.parts[k] && Holds(cfg, d, m, slo, batch, newRate, part)
    {
      if start < cfg.parts[i] { continue; }
      if !Holds(cfg, d, m, slo, batch, newRate, cfg.parts[i]) {
        if AntitoneInPart(cfg) {
          forall q | q in cfg.parts && q <= given && Holds(cfg, d, m, slo, batch, newRate, q)
            ensures part <= q && Holds(cfg, d, m, slo, batch, newRate, part)
          {
            if q <= cfg.parts[i] {
              HoldsUpward(cfg, d, m, slo, batch, newRate, q, cfg.parts[i]);
            }
          }
        }
        return;
      }
      part := cfg.parts[i];
    }
  }

  lemma HoldsUpward(cfg: Config, d: Device, m: int, slo: int, b: int, rate: int, p: int, p': int)
    requires AntitoneInPart(cfg) && 1 <= b && 1 <= rate && p <= p'
    requires Holds(cfg, d, m, slo, b, rate, p)
    ensures Holds(cfg, d, m, slo, b, rate, p')
  {
    assert Latency(cfg, d, m, b, p', []) <= Latency(cfg, d, m, b, p, []);
  }

  // ----- estimateTrp -----

  ghost predicate WishOk(cfg: Config, table: seq<SatEntry>, m: int, slo: int, w: Wish) {
    && w.size in cfg.parts && w.task.id == m && w.task.slo == slo && Sound(w.task) && 1 <= w.task.requestRate
    && Alone(cfg, table, w.kind, w.size, w.size, [], w.task, w.duty, w.occupancy, w.task.batch, w.task.requestRate)
  }

  function Total(wishes: seq<Wish>): real {
    if wishes == [] then 0.0 else wishes[0].task.throughput + Total(wishes[1..])
  }

  /** The residue gpu-let gets its batches as fast as it can serve them. */
  ghost predicate RateBound(w: Wish) {
    1 <= w.task.requestRate && w.duty == w.task.batch as real * 1000.0 / w.task.requestRate as real
  }

  /**
   * estimateTrp: saturated gpu-lets until the rest fits one, then a residue gpu-let.
   * `residue` says that the last wish is a residue one.
   */
  method EstimateTrp(cfg: Config, table: seq<SatEntry>, d: Device, m: int, slo: int, rate: int, first: int)
    returns (st: Status, wishes: seq<Wish>, ghost residue: bool)
    requires cfg.Valid() && TableOk(cfg, m, table)
    ensures st == Ok || st == Abort
    ensures forall w | w in wishes :: WishOk(cfg, table, m, slo, w) && w.kind == d
    ensures st == Ok ==> (wishes == [] <==> rate <= TRP_SLACK)
    ensures residue ==> wishes != []
    ensures st == Ok && (residue ==> RateBound(wishes[|wishes| - 1])) ==>
              Total(wishes) >= (rate - TRP_SLACK - |wishes| + (if residue then 1 else 0)) as real
    decreases if rate < 0 then 0 else rate
  {
    residue := false;
    if rate <= TRP_SLACK { return Ok, [], false; }
    var found, part := GetMaxReturnPart(cfg, table, d);
    if !found { return Abort, [], false; }
    var e;
    found, e := GetMaxSaturateTrp(table, part, d);
    if !found { return Abort, [], false; }
    ghost var tableSlo :| TableFor(cfg, m, tableSlo, table);
    assert EntryOk(cfg, m, tableSlo, e);
    var latency := Latency(cfg, d, m, e.batch, part, []);
    if e.throughput < rate as real {
      var t := Placement(m, rate, slo, e.batch, e.throughput);
      var rest;
      st, rest, residue := EstimateTrp(cfg, table, d, m, slo, Trunc(rate as real - e.throughput), first + 1);
      wishes := [Wish(first, d, part, t, latency, 1.0)] + rest;
      TruncSubtract(rate, e.throughput);
      assert wishes[1..] == rest;
    } else {
      st, wishes := ResidueWish(cfg, table, d, m, slo, part, rate, first);
      residue := st == Ok;
    }
  }

  method ResidueWish(cfg: Config, ghost table: seq<SatEntry>, d: Device, m: int, slo: int, given: int, rate: int, first: int)
    returns (st: Status, wishes: seq<Wish>)
    requires cfg.Valid() && given in cfg.parts && 1 <= rate
    ensures st == Ok || st == Abort
    ensures st == Ok ==>
              && |wishes| == 1 && WishOk(cfg, table, m, slo, wishes[0]) && wishes[0].kind == d
              && (RateBound(wishes[0]) ==> Total(wishes) >= rate as real)
    ensures st == Abort ==> wishes == []
  {
    var part, batch, newRate := GetMinPart(cfg, d, m, slo, given, rate);
    if batch == 0 { return Abort, []; }
    var latency := Latency(cfg, d, m, batch, part, []);
    LatencyPositive(cfg, d, m, batch, part, []);
    var fill := batch as real * 1000.0 / newRate as real;
    RateOfDuty(batch, newRate);
    var duty := Max(fill, latency);
    var w := Wish(first, d, part, Placement(m, newRate, slo, batch, Rate(batch, duty)), duty, latency / duty);
    SelfQuotient(latency);
    assert Sought(cfg, table, d, part, [], m, slo, newRate, batch);
    TimelyAlone(cfg, table, d, part, [], w.task, duty, w.occupancy, batch, newRate);
    assert Total([w][1..]) == 0.0;
    if RateBound(w) {
      assert Rate(batch, duty) == batch as real * 1000.0 / fill;
    }
    return Ok, [w];
  }
}
