// Last pass of the scheduler: let a model share nodes that are not full (allocateTimeShare).
module TimeSharing {
  import opened Cluster
  import opened Performance
  import opened Rounding
  import opened Adjust
  import opened Allocation
  import opened Accounts
  import opened Fitting

  /** Batch of a task that must keep up `rate` with a batch every `duty` milliseconds; at least one request. */
  function ShareBatch(duty: int, rate: int): (b: int)
    requires 1 <= duty && 0 <= rate
    ensures 1 <= b && rate as real * duty as real < 1000.0 * (b + 1) as real
  {
    ShareOfDuty(duty, rate);
    var b := if rate == 0 then 0 else Trunc(duty as real / (1000.0 / rate as real));
    if rate != 0 then
      PositiveQuotient(1000.0, rate as real);
      PositiveQuotient(duty as real, 1000.0 / rate as real);
      if b == 0 then 1 else b
    else 1
  }

  lemma ShareOfDuty(duty: int, rate: int)
    requires 1 <= duty && 0 <= rate
    ensures rate != 0 ==> duty as real / (1000.0 / rate as real) * 1000.0 == rate as real * duty as real
  {
    if rate != 0 {
      var fill := 1000.0 / rate as real;
      var share := duty as real / fill;
      assert fill * rate as real == 1000.0 && share * fill == duty as real;
      assert share * 1000.0 == share * (fill * rate as real) == share * fill * rate as real;
    }
  }

  /** It has the largest batch, or one request more in each batch would exceed its rate. */
  predicate KeepsUp(t: Placement) {
    1 <= t.batch && (t.batch == MAX_BATCH || t.requestRate as real < t.throughput + t.throughput / t.batch as real)
  }

  /** Which means one request more per duty cycle. */
  lemma OneMoreRequest(t: Placement, duty: int)
    requires 1 <= duty && 1 <= t.batch && t.throughput == Rate(t.batch, duty as real)
    requires t.requestRate as real * duty as real < 1000.0 * (t.batch + 1) as real
    ensures KeepsUp(t)
  {
    var x, b, d := t.throughput, t.batch as real, duty as real;
    var one := x / b;
    assert x * d == 1000.0 * b && one * b == x;
    assert one * d * b == one * b * d;
    CancelFactor(one * d, 1000.0, b);
    assert (x + one - t.requestRate as real) * d == 1000.0 * (b + 1.0) - t.requestRate as real * d;
    PositiveFactor(x + one - t.requestRate as real, d);
  }

  /** At one batch per duty cycle that is one request per duty cycle. */
  lemma KeepsUpMeans(t: Placement, duty: real)
    requires 0.0 < duty && 1 <= t.batch && t.throughput == Rate(t.batch, duty)
    ensures KeepsUp(t) <==> t.batch == MAX_BATCH || t.requestRate as real - 1000.0 / duty < t.throughput
  {
    var one, each, b := t.throughput / t.batch as real, 1000.0 / duty, t.batch as real;
    assert one * b == t.throughput && each * duty == 1000.0 && t.throughput * duty == 1000.0 * b;
    assert each * b * duty == each * duty * b;
    CancelFactor(each * b, t.throughput, duty);
    CancelFactor(one, each, b);
  }

  function Capped(b: int): int {
    if MAX_BATCH < b then MAX_BATCH else b
  }

  /** The tasks with the batches a duty cycle gives them, limited to the largest batch when `cap`. */
  function Reshared(tasks: seq<Placement>, duty: int, cap: bool): (r: seq<Placement>)
    requires 1 <= duty && forall i | 0 <= i < |tasks| :: 0 <= tasks[i].requestRate
    ensures SameDemand(tasks, r)
    ensures forall i | 0 <= i < |r| ::
              var b := ShareBatch(duty, tasks[i].requestRate);
              r[i].batch == (if cap then Capped(b) else b) && r[i].throughput == Rate(r[i].batch, duty as real)
  {
    seq(|tasks|, i requires 0 <= i < |tasks| =>
      var b := ShareBatch(duty, tasks[i].requestRate);
      var c := if cap then Capped(b) else b;
      tasks[i].(batch := c, throughput := Rate(c, duty as real)))
  }

  lemma TurnGrows(cfg: Config, d: Device, p: int, rivals: seq<Rival>, small: seq<Placement>, big: seq<Placement>)
    requires MonotoneInBatch(cfg) && SameDemand(big, small)
    requires forall i | 0 <= i < |big| :: 1 <= small[i].batch <= big[i].batch
    ensures Turn(cfg, d, p, rivals, small) <= Turn(cfg, d, p, rivals, big)
  {
    if big != [] {
      SmallerTurn(cfg, d, p, rivals, small, big, 0);
      assert Latency(cfg, d, big[0].id, small[0].batch, p, rivals) <= Latency(cfg, d, big[0].id, big[0].batch, p, rivals);
    }
  }

  /** The new task alone: its batch fills and runs within the SLO and within what the node leaves free. */
  predicate SharesWell(latency: real, duty: int, slo: int, occupancy: real) {
    duty != 0 && duty as real + latency < slo as real && latency / duty as real < 1.0 - occupancy
  }

  /** The batch loop: from the largest batch down to one that shares well, or 0; `duty` is the last one tried. */
  method ShareSearch(cfg: Config, d: Device, p: int, rivals: seq<Rival>, m: int, slo: int, rate: int,
                     largest: int, occupancy: real) returns (batch: int, duty: int)
    requires 1 <= largest && 1 <= rate
    ensures 0 <= batch <= largest
    ensures duty == Trunc((if batch == 0 then 1 else batch) as real * 1000.0 / rate as real)
    ensures batch != 0 ==> SharesWell(Latency(cfg, d, m, batch, p, rivals), duty, slo, occupancy)
    ensures forall b | batch < b <= largest ::
              !SharesWell(Latency(cfg, d, m, b, p, rivals), Trunc(b as real * 1000.0 / rate as real), slo, occupancy)
  {
    batch, duty := largest, 0;
    while 0 < batch
      invariant 0 <= batch <= largest
      invariant batch == 0 ==> duty == Trunc(1 as real * 1000.0 / rate as real)
      invariant forall b | batch < b <= largest ::
                  !SharesWell(Latency(cfg, d, m, b, p, rivals), Trunc(b as real * 1000.0 / rate as real), slo, occupancy)
    {
      duty := Trunc(batch as real * 1000.0 / rate as real);
      if SharesWell(Latency(cfg, d, m, batch, p, rivals), duty, slo, occupancy) { return; }
      batch := batch - 1;
    }
  }

  /** A round of `sum` milliseconds every `duty` leaves room and answers all of `tasks` in time. */
  predicate RoomFor(tasks: seq<Placement>, sum: real, duty: int)
    requires 1 <= duty
  {
    sum / duty as real <= 1.0 && InTime(tasks, sum, duty as real, 1.0)
  }

  /** What a node must be left like after sharing. */
  ghost predicate Shared(cfg: Config, d: Device, p: int, rivals: seq<Rival>,
                         tasks: seq<Placement>, duty: real, occupancy: real)
  {
    occupancy <= 1.0 && InTime(tasks, Turn(cfg, d, p, rivals, tasks), duty, 1.0)
  }

  /** The node's task list with the new model at its end, for a duty cycle. */
  function Granted(was: seq<Placement>, m: int, slo: int, rate: int, batch: int, cycle: int, cap: bool): seq<Placement>
    requires 1 <= cycle && forall i | 0 <= i < |was| :: 0 <= was[i].requestRate
  {
    Reshared(was, cycle, cap) + [Placement(m, rate, slo, batch, Rate(batch, cycle as real))]
  }

  /**
   * `tasks` are `was`, with other batches, and a new placement of `m`, each at one batch per duty cycle. Those of
   * `was` keep up with their rates.
   */
  ghost predicate Joined(was: seq<Placement>, m: int, tasks: seq<Placement>, duty: real) {
    && Serves(tasks, duty) && |tasks| == |was| + 1 && tasks[|was|].id == m && 0.0 < duty
    && (forall i | 0 <= i < |was| :: was[i].(batch := tasks[i].batch, throughput := tasks[i].throughput) == tasks[i])
    && (forall i | 0 <= i < |tasks| :: tasks[i].throughput == Rate(tasks[i].batch, duty))
    && (forall i | 0 <= i < |was| :: KeepsUp(tasks[i]))
  }

  lemma GrantedJoins(was: seq<Placement>, before: real, m: int, slo: int, rate: int, batch: int, cycle: int)
    requires Serves(was, before) && !Contains(was, m) && 1 <= rate && 1 <= batch && 1 <= cycle
    ensures Joined(was, m, Granted(was, m, slo, rate, batch, cycle, true), cycle as real)
    ensures SameDemand(Granted(was, m, slo, rate, batch, cycle, false), Granted(was, m, slo, rate, batch, cycle, true))
    ensures forall i | 0 <= i <= |was| ::
              1 <= Granted(was, m, slo, rate, batch, cycle, true)[i].batch <= Granted(was, m, slo, rate, batch, cycle, false)[i].batch
  {
    var given, asked := Reshared(was, cycle, true), Reshared(was, cycle, false);
    forall i | 0 <= i < |was|
      ensures given[i].id == was[i].id && given[i].requestRate == was[i].requestRate
      ensures asked[i].(batch := given[i].batch, throughput := given[i].throughput) == given[i]
      ensures 1 <= given[i].batch <= asked[i].batch
    {
      assert was[i].(batch := given[i].batch, throughput := given[i].throughput) == given[i];
      assert was[i].(batch := asked[i].batch, throughput := asked[i].throughput) == asked[i];
    }
    forall i | 0 <= i < |was| ensures Sound(given[i]) && KeepsUp(given[i]) {
      assert Sound(was[i]);
      if given[i].batch != MAX_BATCH { OneMoreRequest(given[i], cycle); }
    }
  }

  /** One candidate of allocateTimeShare, on values. */
  method TryShare(cfg: Config, d: Device, p: int, rivals: seq<Rival>, was: seq<Placement>, before: real, occupied: real,
                  m: int, slo: int, rate: int)
    returns (ok: bool, tasks: seq<Placement>, duty: real, occupancy: real)
    requires cfg.Valid() && Serves(was, before) && !Contains(was, m) && 1 <= rate
    ensures ok ==> Joined(was, m, tasks, duty) && duty <= before && occupancy == Turn(cfg, d, p, rivals, tasks) / duty
    ensures ok && MonotoneInBatch(cfg) ==> Shared(cfg, d, p, rivals, tasks, duty, occupancy)
  {
    ok, tasks, duty, occupancy := false, was, before, occupied;
    var largest := Capped(Trunc(before * (rate as real / 1000.0)));
    if largest <= 0 { return; }
    var batch, cycle := ShareSearch(cfg, d, p, rivals, m, slo, rate, largest, occupied);
    if before < cycle as real || batch == 0 { return; }
    PositiveQuotient(batch as real * 1000.0, rate as real);
    GrantedJoins(was, before, m, slo, rate, batch, cycle);
    var asked, given := Granted(was, m, slo, rate, batch, cycle, false), Granted(was, m, slo, rate, batch, cycle, true);
    var sum := SumLatencies(cfg, d, p, rivals, asked);
    if RoomFor(asked, sum, cycle) {
      ok, tasks, duty := true, given, cycle as real;
      occupancy := Turn(cfg, d, p, rivals, given) / cycle as real;
      if MonotoneInBatch(cfg) {
        SharedByLess(cfg, d, p, rivals, given, asked, cycle);
      }
    }
  }

  lemma SharedByLess(cfg: Config, d: Device, p: int, rivals: seq<Rival>, small: seq<Placement>, big: seq<Placement>, duty: int)
    requires MonotoneInBatch(cfg) && 1 <= duty && SameDemand(big, small)
    requires forall i | 0 <= i < |big| :: 1 <= small[i].batch <= big[i].batch
    requires RoomFor(big, Turn(cfg, d, p, rivals, big), duty)
    ensures Shared(cfg, d, p, rivals, small, duty as real, Turn(cfg, d, p, rivals, small) / duty as real)
  {
    TurnGrows(cfg, d, p, rivals, small, big);
    ProductAtMost(Turn(cfg, d, p, rivals, big), duty as real, 1.0);
    QuotientAtMost(Turn(cfg, d, p, rivals, small), duty as real, 1.0);
    forall i | 0 <= i < |small|
      ensures Turn(cfg, d, p, rivals, small) + duty as real <= small[i].slo as real * 1.0
    {
      assert big[i].slo == small[i].slo;
    }
  }

  /** On a node like `n` this is within what sharing must leave. */
  ghost predicate Within(cfg: Config, n: Node, r: Run)
    reads n`kind, n`size
  {
    Shared(cfg, n.kind, n.size, [], r.tasks, r.duty, r.occupancy)
  }

  /** What time sharing has left of the node `n`: untouched, or within its bounds. */
  twostate predicate WithinBounds(cfg: Config, n: Node)
    reads n
  {
    (n.tasks == old(n.tasks) && n.duty == old(n.duty) && n.occupancy == old(n.occupancy)) || Within(cfg, n, RunOf(n))
  }

  ghost predicate AllKeepUp(tasks: seq<Placement>) {
    forall i | 0 <= i < |tasks| :: KeepsUp(tasks[i])
  }

  /** The models that were there keep up with their rates. */
  lemma {:induction false} JoinedKeepUp(was: seq<Placement>, m: int, tasks: seq<Placement>, duty: real)
    requires Joined(was, m, tasks, duty)
    ensures AllKeepUp(Others(tasks, m))
  {
    OthersAreOf(tasks, m);
    forall i | 0 <= i < |Others(tasks, m)| ensures KeepsUp(Others(tasks, m)[i]) {
      assert Others(tasks, m)[i] in tasks;
    }
  }

  /** What a model that joins is served; the models that were there keep their demands, and no other is touched. */
  lemma JoinedServes(was: seq<Placement>, m: int, tasks: seq<Placement>, duty: real)
    requires Joined(was, m, tasks, duty) && !Contains(was, m)
    ensures Contains(tasks, m) && SameDemand(Others(was, m), Others(tasks, m))
    ensures forall x | x == m || !Contains(was, x) ::
              Throughput(tasks, x) - Throughput(was, x) == if x == m then tasks[|was|].throughput else 0.0
  {
    var rest, t := tasks[..|was|], tasks[|was|];
    assert tasks == rest + [t];
    assert forall i | 0 <= i < |was| :: was[i].id == rest[i].id;
    OthersOfBoth(rest, [t], m);
    OthersAlike(was, rest, m);
    assert Others([t], m) == [];
    forall x | x == m || !Contains(was, x)
      ensures Throughput(tasks, x) - Throughput(was, x) == if x == m then t.throughput else 0.0
    {
      NotServed(was, x);
      NotServed(rest, x);
      ThroughputOfBoth(rest, [t], x);
      ThroughputOfOne(t, x);
    }
  }

  /** `model` is served `amount` more than before; so are, as before, those that were not on `n`. */
  twostate predicate GainedOn(s: SimState, model: int, amount: real, n: Node)
    reads s, s.nodes
  {
    forall m | m == model || !Contains(old(n.tasks), m) ::
      Supply(s, m) == old(Supply(s, m)) + if m == model then amount else 0.0
  }

  /** Let the task join `n`, which then runs `tasks`. */
  method Join(s: SimState, task: Task, n: Node, tasks: seq<Placement>, duty: real, occupancy: real)
    requires s.Valid() && s.Has(n) && n in s.nodes && Joined(n.tasks, task.id, tasks, duty) && !Contains(n.tasks, task.id)
    modifies n`tasks, n`duty, n`occupancy, task`requestRate
    ensures s.Valid() && RunOf(n) == Run(tasks, duty, occupancy)
    ensures tasks[|tasks| - 1].throughput > (old(task.requestRate) - task.requestRate - 1) as real
    ensures GainedOn(s, task.id, tasks[|tasks| - 1].throughput, n)
  {
    var throughput := tasks[|tasks| - 1].throughput;
    TruncSubtract(task.requestRate, throughput);
    task.requestRate := if throughput < task.requestRate as real then Trunc(task.requestRate as real - throughput) else 0;
    JoinedServes(n.tasks, task.id, tasks, duty);
    Fill(s, n, tasks, duty, occupancy);
  }

  /** Whether `task` can share the candidate `n`, and what `n` would run. */
  method PlanShare(cfg: Config, s: SimState, task: Task, n: Node)
    returns (ok: bool, tasks: seq<Placement>, duty: real, occupancy: real)
    requires cfg.Valid() && s.Valid() && s.Has(n) && 1 <= task.requestRate
    ensures ok ==> !Contains(n.tasks, task.id) && Joined(n.tasks, task.id, tasks, duty)
    ensures ok && MonotoneInBatch(cfg) && !cfg.useInterference ==> Shared(cfg, n.kind, n.size, [], tasks, duty, occupancy)
  {
    HasMeans(s, n);
    ok, tasks, duty, occupancy := false, n.tasks, n.duty, n.occupancy;
    if !Contains(n.tasks, task.id) && n.occupancy < 1.0 {
      ok, tasks, duty, occupancy :=
        TryShare(cfg, n.kind, n.size, Rivals(cfg, n, s), n.tasks, n.duty, n.occupancy, task.id, task.slo, task.requestRate);
    }
  }

  /** Let `task` share the candidate `n`. */
  method ShareNode(cfg: Config, s: SimState, task: Task, n: Node) returns (ok: bool)
    requires cfg.Valid() && s.Valid() && s.Has(n) && n in s.nodes && 1 <= task.requestRate
    modifies n`tasks, n`duty, n`occupancy, task`requestRate
    ensures s.Valid()
    ensures !ok ==> unchanged(n) && task.requestRate == old(task.requestRate) && Gained(s, 0, 0.0)
    ensures ok ==> n.tasks != [] && Took(old(RunOf(n)), RunOf(n), task.id, n.tasks[|n.tasks| - 1].throughput)
    ensures ok ==> n.tasks[|n.tasks| - 1].throughput > (old(task.requestRate) - task.requestRate - 1) as real
    ensures ok ==> GainedOn(s, task.id, n.tasks[|n.tasks| - 1].throughput, n)
    ensures ok && MonotoneInBatch(cfg) && !cfg.useInterference ==> Within(cfg, n, RunOf(n))
  {
    var tasks, duty, occupancy;
    ok, tasks, duty, occupancy := PlanShare(cfg, s, task, n);
    if ok {
      Join(s, task, n, tasks, duty, occupancy);
    }
  }

  /** The candidates: the nodes given, or, when none are, those neither full nor serving too many models. */
  predicate Candidate(cfg: Config, given: seq<View>, n: Node)
    reads n
  {
    if given == [] then n.occupancy < 1.0 && |n.tasks| < cfg.maxModel
    else exists i | 0 <= i < |given| :: given[i].Same(ViewOf(n))
  }

  /** The candidates that pass the memory check, the fullest first. */
  method Candidates(cfg: Config, s: SimState, given: seq<View>) returns (candidates: seq<Node>)
    requires s.Valid()
    ensures forall n | n in candidates :: s.Has(n) && n in s.nodes && Candidate(cfg, given, n)
    ensures forall i, j | 0 <= i < j < |candidates| :: candidates[j].occupancy <= candidates[i].occupancy
  {
    var nodes := Flat(s.gpus);
    AllInCluster(s);
    var found: seq<Node> := [];
    for k := 0 to |nodes|
      invariant forall n | n in found :: n in nodes && Candidate(cfg, given, n)
    {
      var fits: bool := *;  // the memory check
      if fits && Candidate(cfg, given, nodes[k]) { found := found + [nodes[k]]; }
    }
    var key := map n | n in found :: n.occupancy;
    candidates := SortDescending(found, key);
    forall n | n in candidates ensures n in found {
      assert n in multiset(candidates);
    }
  }

  /** The inner loop: the first candidate that can be shared. */
  method ShareFirst(cfg: Config, s: SimState, task: Task, candidates: seq<Node>) returns (shared: Node?)
    requires cfg.Valid() && s.Valid() && 1 <= task.requestRate
    requires forall n | n in candidates :: s.Has(n) && n in s.nodes
    modifies s.nodes`tasks, s.nodes`duty, s.nodes`occupancy, task`requestRate
    ensures s.Valid()
    ensures forall n | n in s.nodes && n != shared :: unchanged(n)
    ensures shared == null ==> task.requestRate == old(task.requestRate) && Gained(s, 0, 0.0)
    ensures shared != null ==>
              && shared in candidates && shared.tasks != [] && Took(old(RunOf(shared)), RunOf(shared), task.id, shared.tasks[|shared.tasks| - 1].throughput)
              && shared.tasks[|shared.tasks| - 1].throughput > (old(task.requestRate) - task.requestRate - 1) as real
              && GainedOn(s, task.id, shared.tasks[|shared.tasks| - 1].throughput, shared)
    ensures shared != null && MonotoneInBatch(cfg) && !cfg.useInterference ==> Within(cfg, shared, RunOf(shared))
  {
    shared := null;
    for k := 0 to |candidates|
      invariant s.Valid() && task.requestRate == old(task.requestRate) && Gained(s, 0, 0.0) && shared == null
      invariant forall n | n in s.nodes :: unchanged(n)
    {
      var ok := ShareNode(cfg, s, task, candidates[k]);
      if ok { shared := candidates[k]; break; }
    }
  }

  ghost function RunsOf(s: SimState): map<Node, Run>
    reads s`nodes, s.nodes
  {
    map n | n in s.nodes :: RunOf(n)
  }

  ghost function Supplies(s: SimState): imap<int, real>
    reads s`gpus, s`nodes, s.nodes`tasks
  {
    imap m: int :: Supply(s, m)
  }

  /** `model` was on none of the nodes `held`. */
  ghost predicate OffAll(was: map<Node, Run>, held: seq<Node>, model: int) {
    forall n | n in held && n in was :: !Contains(was[n].tasks, model)
  }

  /** The model, which `was` did not hold, has joined it and is served `amount` there. */
  ghost predicate Took(was: Run, now: Run, model: int, amount: real) {
    && !Contains(was.tasks, model) && Joined(was.tasks, model, now.tasks, now.duty)
    && amount == now.tasks[|was.tasks|].throughput
  }

  /**
   * What time sharing has made of the nodes and the supply: `granted` is what `model` is served on the distinct
   * nodes `shared`, none of which held it before. The other nodes run what they ran, and models that were on
   * none of the shared ones are served what they were.
   */
  ghost predicate Sharing(was: map<Node, Run>, now: map<Node, Run>, before: imap<int, real>, after: imap<int, real>,
                          model: int, shared: seq<Node>, granted: seq<real>)
  {
    && was.Keys == now.Keys && |shared| == |granted| && (forall i, j | 0 <= i < j < |shared| :: shared[i] != shared[j])
    && (forall i | 0 <= i < |shared| :: shared[i] in was && Took(was[shared[i]], now[shared[i]], model, granted[i]))
    && (forall n | n in was && n !in shared :: now[n] == was[n])
    && (forall m: int :: m in before && m in after)
    && after[model] == before[model] + SumOf(granted)
    && (forall m | m != model && OffAll(was, shared, m) :: after[m] == before[m])
  }

  lemma {:induction false} OneMoreShared(was: map<Node, Run>, now: map<Node, Run>, next: map<Node, Run>,
                                         before: imap<int, real>, after: imap<int, real>, later: imap<int, real>,
                                         model: int, shared: seq<Node>, granted: seq<real>, n: Node, amount: real)
    requires Sharing(was, now, before, after, model, shared, granted)
    requires n in now && next.Keys == now.Keys && (forall x | x in now && x != n :: next[x] == now[x])
    requires Took(now[n], next[n], model, amount) && (forall m: int :: m in later)
    requires later[model] == after[model] + amount
    requires forall m | m != model && !Contains(now[n].tasks, m) :: later[m] == after[m]
    ensures n !in shared && Sharing(was, next, before, later, model, shared + [n], granted + [amount])
  {
    SumOfMore(granted, amount);
    var more, amounts := shared + [n], granted + [amount];
    forall i | 0 <= i < |shared| ensures shared[i] != n {
      assert now[shared[i]].tasks[|was[shared[i]].tasks|].id == model;
    }
    assert now[n] == was[n];
    forall i | 0 <= i < |more| ensures more[i] in was && Took(was[more[i]], next[more[i]], model, amounts[i]) {
      if i < |shared| { assert Took(was[shared[i]], now[shared[i]], model, granted[i]); }
    }
    forall m | m != model && OffAll(was, more, m) ensures later[m] == before[m] {
      assert n in more && OffAll(was, shared, m);
    }
  }

  /** The candidates that have not taken the model in. */
  ghost function Open(candidates: seq<Node>, shared: seq<Node>): set<Node> {
    set n | n in candidates && n !in shared
  }

  lemma OpenShrinks(candidates: seq<Node>, shared: seq<Node>, n: Node)
    requires n in candidates && n !in shared
    ensures Open(candidates, shared + [n]) < Open(candidates, shared)
  {
    assert n in Open(candidates, shared) && n !in Open(candidates, shared + [n]);
  }

  /** What has happened between two states of time sharing. */
  datatype Log = Log(was: map<Node, Run>, now: map<Node, Run>, before: imap<int, real>, after: imap<int, real>,
                     shared: seq<Node>, granted: seq<real>)
  {
    ghost predicate Ok(model: int) {
      Sharing(was, now, before, after, model, shared, granted)
    }
  }

  /** One node more has taken the model in. */
  lemma Logged(log: Log, next: map<Node, Run>, later: imap<int, real>, model: int, n: Node, amount: real) returns (log': Log)
    requires log.Ok(model) && n in log.now && next.Keys == log.now.Keys
    requires (forall x | x in log.now && x != n :: next[x] == log.now[x]) && Took(log.now[n], next[n], model, amount)
    requires (forall m: int :: m in later) && later[model] == log.after[model] + amount
    requires forall m | m != model && !Contains(log.now[n].tasks, m) :: later[m] == log.after[m]
    ensures n !in log.shared && log'.Ok(model) && SumOf(log'.granted) == SumOf(log.granted) + amount
    ensures log' == Log(log.was, next, log.before, later, log.shared + [n], log.granted + [amount])
  {
    OneMoreShared(log.was, log.now, next, log.before, log.after, later, model, log.shared, log.granted, n, amount);
    SumOfMore(log.granted, amount);
    log' := Log(log.was, next, log.before, later, log.shared + [n], log.granted + [amount]);
  }

  lemma GrantedAtLeastNothing(log: Log, model: int)
    requires log.Ok(model)
    ensures 0.0 <= SumOf(log.granted)
  {
    forall i | 0 <= i < |log.granted| ensures 0.0 <= log.granted[i] {
      assert Took(log.was[log.shared[i]], log.now[log.shared[i]], model, log.granted[i]);
      assert Sound(log.now[log.shared[i]].tasks[|log.was[log.shared[i]].tasks|]);
    }
    NothingNegative(log.granted, |log.granted|);
  }

  lemma {:induction false} NothingNegative(xs: seq<real>, k: nat)
    requires k <= |xs| && forall i | 0 <= i < |xs| :: 0.0 <= xs[i]
    ensures 0.0 <= SumUpTo(xs, k)
  {
    if k != 0 {
      NothingNegative(xs, k - 1);
    }
  }

  /** The log is up to date. */
  ghost predicate Current(s: SimState, log: Log)
    reads s`gpus, s`nodes, s.nodes
  {
    log.now == RunsOf(s) && log.after == Supplies(s)
  }

  /** The shared nodes are left as sharing must leave them. */
  ghost predicate AllWithin(cfg: Config, log: Log)
    reads log.shared`kind, log.shared`size
  {
    forall n | n in log.shared :: n in log.now && Within(cfg, n, log.now[n])
  }

  /** One round of the outer loop. */
  method ShareMore(cfg: Config, s: SimState, task: Task, candidates: seq<Node>, ghost log: Log) returns (n: Node?, ghost log': Log)
    requires cfg.Valid() && s.Valid() && 1 <= task.requestRate && forall n | n in candidates :: s.Has(n) && n in s.nodes
    requires log.Ok(task.id) && Current(s, log)
    requires MonotoneInBatch(cfg) && !cfg.useInterference ==> AllWithin(cfg, log)
    modifies s.nodes`tasks, s.nodes`duty, s.nodes`occupancy, task`requestRate
    ensures s.Valid() && log'.Ok(task.id) && Current(s, log') && log'.was == log.was && log'.before == log.before
    ensures if n == null then log'.shared == log.shared else n in candidates && n !in log.shared && log'.shared == log.shared + [n]
    ensures SumOf(log'.granted) + task.requestRate as real
         >= SumOf(log.granted) + (old(task.requestRate) - |log'.granted| + |log.granted|) as real
    ensures MonotoneInBatch(cfg) && !cfg.useInterference ==> AllWithin(cfg, log')
  {
    n := ShareFirst(cfg, s, task, candidates);
    if n == null {
      log' := log;
      assert RunsOf(s) == log.now && Supplies(s) == log.after;
    } else {
      log' := Logged(log, RunsOf(s), Supplies(s), task.id, n, n.tasks[|n.tasks| - 1].throughput);
    }
  }

  /** The outer loop: one candidate more takes the model in, until the rate is served or none does. */
  method ShareOut(cfg: Config, s: SimState, task: Task, candidates: seq<Node>) returns (ghost log: Log)
    requires cfg.Valid() && s.Valid() && task.additionalRate == 0 && forall n | n in candidates :: s.Has(n) && n in s.nodes
    modifies s.nodes`tasks, s.nodes`duty, s.nodes`occupancy, task`requestRate
    ensures s.Valid() && forall n | n in log.shared :: n in candidates
    ensures log.Ok(task.id) && Current(s, log) && log.was == old(RunsOf(s)) && log.before == old(Supplies(s))
    ensures SumOf(log.granted) + task.requestRate as real >= (old(task.requestRate) - |log.granted|) as real
    ensures MonotoneInBatch(cfg) && !cfg.useInterference ==> AllWithin(cfg, log)
  {
    log := Log(RunsOf(s), RunsOf(s), Supplies(s), Supplies(s), [], []);
    while TRP_SLACK < task.requestRate + task.additionalRate
      invariant s.Valid() && forall n | n in log.shared :: n in candidates
      invariant log.Ok(task.id) && Current(s, log) && log.was == old(RunsOf(s)) && log.before == old(Supplies(s))
      invariant SumOf(log.granted) + task.requestRate as real >= (old(task.requestRate) - |log.granted|) as real
      invariant MonotoneInBatch(cfg) && !cfg.useInterference ==> AllWithin(cfg, log)
      decreases Open(candidates, log.shared)
    {
      var n;
      ghost var held := log.shared;
      n, log := ShareMore(cfg, s, task, candidates, log);
      if n == null { break; }
      OpenShrinks(candidates, held, n);
    }
  }

  /** The outer loop, seen from the nodes. */
  method ShareAmong(cfg: Config, s: SimState, task: Task, candidates: seq<Node>) returns (ghost log: Log)
    requires cfg.Valid() && s.Valid() && task.additionalRate == 0 && forall n | n in candidates :: s.Has(n) && n in s.nodes
    modifies s.nodes`tasks, s.nodes`duty, s.nodes`occupancy, task`requestRate
    ensures s.Valid() && forall n | n in log.shared :: n in candidates
    ensures log.Ok(task.id) && Current(s, log) && log.was == old(RunsOf(s)) && log.before == old(Supplies(s))
    ensures forall n | n in s.nodes && n !in log.shared :: unchanged(n)
    ensures SumOf(log.granted) + task.requestRate as real >= (old(task.requestRate) - |log.granted|) as real
    ensures MonotoneInBatch(cfg) && !cfg.useInterference ==> forall n | n in s.nodes :: WithinBounds(cfg, n)
  {
    log := ShareOut(cfg, s, task, candidates);
    forall n | n in s.nodes && n !in log.shared ensures unchanged(n) {
      assert log.now[n] == log.was[n];
    }
  }

  /**
   * allocateTimeShare. It terminates because each success uses up a candidate that did not hold the model.
   * What is granted on the nodes shared makes up for the drop of the rate, less one request per second for each
   * node, and no other node is touched. Without interference, and with latency growing in the batch, every node
   * ends as it was or with occupancy at most 1 and a round that answers all its models within their SLOs.
   */
  method AllocateTimeShare(cfg: Config, s: SimState, task: Task, given: seq<View>) returns (st: Status, ghost log: Log)
    requires cfg.Valid() && s.Valid() && task.additionalRate == 0
    modifies s.nodes`tasks, s.nodes`duty, s.nodes`occupancy, task`requestRate
    ensures s.Valid() && st != Abort
    ensures st == Ok <==> task.requestRate <= TRP_SLACK
    ensures log.Ok(task.id) && Current(s, log) && log.was == old(RunsOf(s)) && log.before == old(Supplies(s))
    ensures forall n | n in log.shared :: n in s.nodes && s.Has(n) && old(Candidate(cfg, given, n))
    ensures forall n | n in s.nodes && n !in log.shared :: unchanged(n)
    ensures SumOf(log.granted) + task.requestRate as real >= (old(task.requestRate) - |log.granted|) as real
    ensures MonotoneInBatch(cfg) && !cfg.useInterference ==> forall n | n in s.nodes :: WithinBounds(cfg, n)
  {
    var candidates := Candidates(cfg, s, given);
    assert RunsOf(s) == old(RunsOf(s)) && Supplies(s) == old(Supplies(s));
    log := ShareAmong(cfg, s, task, candidates);
    st := if task.requestRate <= TRP_SLACK then Ok else Fail;
  }
}
