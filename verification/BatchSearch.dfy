// getMaxBatch: the largest batch of a model that a node can serve in time.
module BatchSearch {
  import opened Cluster
  import opened Performance
  import opened Rounding

  /** Time to fill a batch at `rate` requests per second; a zero rate never fills one. */
  predicate FillsIn(b: int, rate: int, budget: real) {
    rate != 0 && 1000.0 * b as real / rate as real <= budget
  }

  /** A residue batch must be filled and run within the SLO, a saturating one run twice within it. */
  predicate Meets(latency: real, b: int, rate: int, slo: int, residue: bool) {
    if residue then FillsIn(b, rate, slo as real - latency) else 2.0 * latency <= slo as real
  }

  predicate Feasible(cfg: Config, d: Device, p: int, rivals: seq<Rival>, m: int, slo: int, b: int, rate: int,
                     residue: bool)
  {
    Meets(Latency(cfg, d, m, b, p, rivals), b, rate, slo, residue)
  }

  /** A low rate that cannot fill even a batch of one in time, on a node fast enough for single requests. */
  predicate SmallRate(latency1: real, rate: int, slo: int) {
    (rate == 0 || latency1 < 1000.0 / rate as real) && latency1 < slo as real
  }

  function RaisedRate(latency1: real, slo: int, ratio: real): int
    requires latency1 < slo as real
  {
    Trunc(1000.0 / (slo as real - latency1) * ratio)
  }

  /** A rate at which a request arrives too late to be answered in time is not above the raised rate. */
  lemma RaisedAtLeast(latency: real, slo: int, ratio: real, rate: int)
    requires latency < slo as real && 1.0 <= ratio && 1 <= rate && slo as real - latency < 1000.0 / rate as real
    ensures rate <= RaisedRate(latency, slo, ratio)
  {
    var room, fill := slo as real - latency, 1000.0 / rate as real;
    var x := 1000.0 / room;
    assert x * room == 1000.0 && fill * rate as real == 1000.0;
    PositiveQuotient(1000.0, room);
    ScaledUp(x, ratio);
    LessByCross(rate as real, fill, x, room);
  }

  lemma RaisedRateNotLower(latency1: real, rate: int, slo: int, ratio: real)
    requires 0.0 < latency1 && 1.0 <= ratio
    requires SmallRate(latency1, rate, slo) && !FillsIn(1, rate, slo as real - latency1)
    ensures rate <= RaisedRate(latency1, slo, ratio)
  {
    if rate == 0 {
      PositiveQuotient(1000.0, slo as real - latency1);
      ScaledUp(1000.0 / (slo as real - latency1), ratio);
    } else {
      assert 1000.0 * 1 as real / rate as real == 1000.0 / rate as real;
      RaisedAtLeast(latency1, slo, ratio, rate);
    }
  }

  lemma ScaledUp(x: real, ratio: real)
    requires 0.0 < x && 1.0 <= ratio
    ensures x <= x * ratio
  {
    assert 0.0 <= x * (ratio - 1.0);
  }

  lemma LessByCross(r: real, y: real, x: real, room: real)
    requires 0.0 < r && 0.0 < room < y && y * r == x * room
    ensures r < x
  {
    assert 0.0 < (y - room) * r;
    assert (x - r) * room == (y - room) * r;
  }

  /** The batches probed as long as none is feasible are not. */
  predicate NoneFound(cfg: Config, d: Device, p: int, rivals: seq<Rival>, m: int, slo: int, rate: int, residue: bool) {
    && !Feasible(cfg, d, p, rivals, m, slo, 1, rate, residue) && !Feasible(cfg, d, p, rivals, m, slo, 2, rate, residue)
    && !Feasible(cfg, d, p, rivals, m, slo, 4, rate, residue) && !Feasible(cfg, d, p, rivals, m, slo, 8, rate, residue)
    && !Feasible(cfg, d, p, rivals, m, slo, 16, rate, residue)
  }

  /** The bisection. Batch 32 is never probed, so 31 is the largest answer. */
  method SearchBatch(cfg: Config, d: Device, p: int, rivals: seq<Rival>, m: int, slo: int, rate: int, residue: bool)
    returns (batch: int)
    ensures 0 <= batch < MAX_BATCH
    ensures batch == 0 <==> NoneFound(cfg, d, p, rivals, m, slo, rate, residue)
    ensures batch != 0 ==> Feasible(cfg, d, p, rivals, m, slo, batch, rate, residue)
    ensures 0 < batch < MAX_BATCH - 1 ==> !Feasible(cfg, d, p, rivals, m, slo, batch + 1, rate, residue)
  {
    var low, high := 1, MAX_BATCH;
    while true
      invariant 1 <= low <= high <= MAX_BATCH && low < MAX_BATCH
      invariant low != 1 ==> low < high && Feasible(cfg, d, p, rivals, m, slo, low, rate, residue)
      invariant low < high < MAX_BATCH ==> !Feasible(cfg, d, p, rivals, m, slo, high, rate, residue)
      invariant low < high ==> high - low >= 2
      invariant low == high ==> !Feasible(cfg, d, p, rivals, m, slo, 2, rate, residue)
      invariant low == 1 ==> high in {32, 16, 8, 4, 1}
      invariant low == 1 && high <= 16 ==> !Feasible(cfg, d, p, rivals, m, slo, 16, rate, residue)
      invariant low == 1 && high <= 8 ==> !Feasible(cfg, d, p, rivals, m, slo, 8, rate, residue)
      invariant low == 1 && high <= 4 ==> !Feasible(cfg, d, p, rivals, m, slo, 4, rate, residue)
      invariant low != 1 ==> !NoneFound(cfg, d, p, rivals, m, slo, rate, residue)
      decreases high - low
    {
      var checkLast := low == 1 && high == 1;
      var mid := (high + low) / 2;
      if Meets(Latency(cfg, d, m, mid, p, rivals), mid, rate, slo, residue) {
        low := mid;
      } else if checkLast {
        return 0;
      } else {
        high := mid;
      }
      if high - low <= 1 { high := low; }
      if high == low && (low != 1 || checkLast) {
        return low;
      }
    }
  }

  /** With latencies growing in the batch, feasibility is inherited by every smaller batch. */
  lemma FeasibleDownward(cfg: Config, d: Device, p: int, rivals: seq<Rival>, m: int, slo: int, rate: int,
                         residue: bool, b: int, b': int)
    requires MonotoneInBatch(cfg) && 1 <= b <= b' && (residue ==> 0 < rate)
    requires Feasible(cfg, d, p, rivals, m, slo, b', rate, residue)
    ensures Feasible(cfg, d, p, rivals, m, slo, b, rate, residue)
  {
    assert Latency(cfg, d, m, b, p, rivals) <= Latency(cfg, d, m, b', p, rivals);
    if residue {
      var r := rate as real;
      var x, y := 1000.0 * b as real / r, 1000.0 * b' as real / r;
      assert x * r == 1000.0 * b as real && y * r == 1000.0 * b' as real;
      assert (y - x) * r >= 0.0;
      NonNegativeFactor(y - x, r);
    }
  }

  lemma NonNegativeFactor(a: real, b: real)
    requires 0.0 < b && 0.0 <= a * b
    ensures 0.0 <= a
  {
  }

  /** With latencies growing in the batch, the search finds none exactly if a batch of one is infeasible. */
  lemma NoneFoundMeans(cfg: Config, d: Device, p: int, rivals: seq<Rival>, m: int, slo: int, rate: int, residue: bool)
    requires MonotoneInBatch(cfg) && (residue ==> 0 < rate)
    ensures NoneFound(cfg, d, p, rivals, m, slo, rate, residue) <==> !Feasible(cfg, d, p, rivals, m, slo, 1, rate, residue)
  {
    if !NoneFound(cfg, d, p, rivals, m, slo, rate, residue) {
      var b :| b in {1, 2, 4, 8, 16} && Feasible(cfg, d, p, rivals, m, slo, b, rate, residue);
      FeasibleDownward(cfg, d, p, rivals, m, slo, rate, residue, 1, b);
    }
  }

  /**
   * So the answer of the search (0 only if batch 1 is infeasible, 31 or infeasible just above it)
   * is the largest feasible batch in 1..31.
   */
  lemma LargestFeasible(cfg: Config, d: Device, p: int, rivals: seq<Rival>, m: int, slo: int, rate: int,
                        residue: bool, batch: int)
    requires MonotoneInBatch(cfg) && (residue ==> 0 < rate)
    requires 0 <= batch < MAX_BATCH
    requires batch < MAX_BATCH - 1 ==> !Feasible(cfg, d, p, rivals, m, slo, batch + 1, rate, residue)
    ensures forall other | batch < other < MAX_BATCH :: !Feasible(cfg, d, p, rivals, m, slo, other, rate, residue)
  {
    forall other | batch < other < MAX_BATCH
      ensures !Feasible(cfg, d, p, rivals, m, slo, other, rate, residue)
    {
      if Feasible(cfg, d, p, rivals, m, slo, other, rate, residue) {
        FeasibleDownward(cfg, d, p, rivals, m, slo, rate, residue, batch + 1, other);
      }
    }
  }

  /** No batch is found, and the rate is not one that a raised rate would serve. */
  predicate Unservable(cfg: Config, d: Device, p: int, rivals: seq<Rival>, m: int, slo: int, rate: int, residue: bool) {
    && NoneFound(cfg, d, p, rivals, m, slo, rate, residue)
    && !(residue && SmallRate(Latency(cfg, d, m, 1, p, rivals), rate, slo))
  }

  /** A residue batch that answers in time at its rate, or a batch of one at the raised rate. */
  predicate Timely(cfg: Config, d: Device, p: int, rivals: seq<Rival>, m: int, slo: int, b: int, rate: int) {
    var latency := Latency(cfg, d, m, 1, p, rivals);
    || Feasible(cfg, d, p, rivals, m, slo, b, rate, true)
    || (b == 1 && latency < slo as real && rate == RaisedRate(latency, slo, cfg.ratio))
  }

  /**
   * What the search may answer at a rate, which is the raised one if it has raised it: a feasible batch that is 31 or
   * followed by an infeasible one, or a batch of one at the raised rate.
   */
  predicate Answer(cfg: Config, d: Device, p: int, rivals: seq<Rival>, m: int, slo: int, rate: int, residue: bool, b: int) {
    var latency := Latency(cfg, d, m, 1, p, rivals);
    || (&& 1 <= b < MAX_BATCH && Feasible(cfg, d, p, rivals, m, slo, b, rate, residue)
        && (b < MAX_BATCH - 1 ==> !Feasible(cfg, d, p, rivals, m, slo, b + 1, rate, residue)))
    || (b == 1 && residue && latency < slo as real && rate == RaisedRate(latency, slo, cfg.ratio))
  }

  /**
   * getMaxBatch. `rivals` are those of the node in its cluster; a caller that searches without interference
   * passes an empty cluster, hence none. A residue batch of one may be forced by raising the rate.
   */
  method GetMaxBatch(cfg: Config, d: Device, p: int, rivals: seq<Rival>, m: int, slo: int, rate: int, residue: bool)
    returns (batch: int, newRate: int)
    requires cfg.Valid()
    ensures 0 <= batch < MAX_BATCH && rate <= newRate
    ensures batch == 0 <==> Unservable(cfg, d, p, rivals, m, slo, rate, residue)
    ensures batch != 0 ==> Answer(cfg, d, p, rivals, m, slo, newRate, residue, batch)
    ensures !residue ==> newRate == rate
    ensures residue && batch != 0 ==> Timely(cfg, d, p, rivals, m, slo, batch, newRate)
    ensures 2 <= batch || Feasible(cfg, d, p, rivals, m, slo, 1, rate, residue) ==>
              && newRate == rate && 1 <= batch && Feasible(cfg, d, p, rivals, m, slo, batch, rate, residue)
              && (batch < MAX_BATCH - 1 ==> !Feasible(cfg, d, p, rivals, m, slo, batch + 1, rate, residue))
    ensures batch <= 1 && !Feasible(cfg, d, p, rivals, m, slo, 1, rate, residue) ==>
              var latency1 := Latency(cfg, d, m, 1, p, rivals);
              && (batch == 1 <==> residue && SmallRate(latency1, rate, slo))
              && newRate == if batch == 1 then RaisedRate(latency1, slo, cfg.ratio) else rate
  {
    newRate := rate;
    batch := SearchBatch(cfg, d, p, rivals, m, slo, rate, residue);
    if batch == 0 && residue {
      var latency1 := Latency(cfg, d, m, 1, p, rivals);
      if SmallRate(latency1, rate, slo) {
        LatencyPositive(cfg, d, m, 1, p, rivals);
        RaisedRateNotLower(latency1, rate, slo, cfg.ratio);
        newRate, batch := RaisedRate(latency1, slo, cfg.ratio), 1;
      }
    }
  }
}
