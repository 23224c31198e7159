// The queue's lock-free free list, one atomic access per step, under sequential consistency.
module FreeList {

  datatype Ptr = Null | At(n: nat)

  /** freeListRefs: the reference count and the should-be-on-free-list bit. */
  datatype Refs = Refs(count: int, should: bool)

  /** What a thread does after it put a node on the list: it is done, or it looks for a node from `head`. */
  datatype Resume = Done | Look(head: Ptr)

  /** Where a thread stands. The K states are those of add_knowing_refcount_is_zero, the G states of try_get. */
  datatype Pc =
    | Idle
    | K0(n: nat, resume: Resume)               // load the head
    | K1(n: nat, expected: Ptr, resume: Resume) // store the next pointer
    | K2(n: nat, expected: Ptr, resume: Resume) // store a reference count of 1
    | K3(n: nat, expected: Ptr, resume: Resume) // compare and swap the head
    | K4(n: nat, expected: Ptr, resume: Resume) // it failed: give the reference back
    | G0                                       // load the head
    | G1(h: nat)                               // load the reference count
    | G2(h: nat, seen: Refs)                   // compare and swap it up
    | G3(h: nat)                               // load the next pointer
    | G4(h: nat, next: Ptr)                    // compare and swap the head
    | G5(h: nat)                               // it succeeded: drop both references
    | G6(h: nat, head: Ptr)                    // it failed: drop the own reference

  datatype Call = TryGet | Add(n: nat)

  /** Auxiliary: what has become of a block. No step depends on it. */
  datatype Status = OnList | Taken(t: nat) | Owned(t: nat) | Pending | Adding(t: nat)

  /** `list` and `status` are auxiliary; `mine` are the blocks a thread got and has not given back. */
  datatype State = State(head: Ptr, refs: map<nat, Refs>, next: map<nat, Ptr>, pcs: map<nat, Pc>,
                         mine: map<nat, set<nat>>, list: seq<nat>, status: map<nat, Status>)

  function Looking(head: Ptr): Pc {
    if head == Null then Idle else G1(head.n)
  }

  function Resumed(resume: Resume): Pc {
    if resume.Done? then Idle else Looking(resume.head)
  }

  /** A thread may move if it exists; an idle one may only give back a block of its own. */
  ghost predicate Enabled(s: State, t: nat, call: Call) {
    t in s.pcs && t in s.mine && (s.pcs[t].Idle? && call.Add? ==> call.n in s.mine[t] && call.n in s.refs)
  }

  function Rest(list: seq<nat>): seq<nat> {
    if list == [] then [] else list[1..]
  }

  /** One atomic step of thread `t`; `call` tells what an idle thread starts. */
  ghost function Step(s: State, t: nat, call: Call): State
    requires Domains(s) && Enabled(s, t, call) && PcOk(s, t)
  {
    match s.pcs[t]
    case Idle =>
      if call.TryGet? then s.(pcs := s.pcs[t := G0])
      else
        // fetch_add(SHOULD_BE_ON_FREELIST)
        var n := call.n;
        var s1 := s.(refs := s.refs[n := Refs(s.refs[n].count, true)], mine := s.mine[t := s.mine[t] - {n}]);
        if s.refs[n] == Refs(0, false)
        then s1.(pcs := s.pcs[t := K0(n, Done)], status := s.status[n := Adding(t)])
        else s1.(status := s.status[n := Pending])
    case K0(n, resume) => s.(pcs := s.pcs[t := K1(n, s.head, resume)])
    case K1(n, expected, resume) =>
      s.(next := s.next[n := expected], pcs := s.pcs[t := K2(n, expected, resume)])
    case K2(n, expected, resume) =>
      s.(refs := s.refs[n := Refs(1, false)], pcs := s.pcs[t := K3(n, expected, resume)])
    case K3(n, expected, resume) =>
      if s.head == expected
      then s.(head := At(n), list := [n] + s.list, status := s.status[n := OnList], pcs := s.pcs[t := Resumed(resume)])
      else s.(pcs := s.pcs[t := K4(n, s.head, resume)])
    case K4(n, expected, resume) =>
      // fetch_add(SHOULD_BE_ON_FREELIST - 1)
      var s1 := s.(refs := s.refs[n := Refs(s.refs[n].count - 1, true)]);
      if s.refs[n] == Refs(1, false)
      then s1.(pcs := s.pcs[t := K1(n, expected, resume)])
      else s1.(pcs := s.pcs[t := Resumed(resume)], status := s.status[n := Pending])
    case G0 => s.(pcs := s.pcs[t := Looking(s.head)])
    case G1(h) =>
      s.(pcs := s.pcs[t := if s.refs[h].count == 0 then G0 else G2(h, s.refs[h])])
    case G2(h, seen) =>
      if s.refs[h] == seen
      then s.(refs := s.refs[h := Refs(seen.count + 1, seen.should)], pcs := s.pcs[t := G3(h)])
      else s.(pcs := s.pcs[t := G0])
    case G3(h) => s.(pcs := s.pcs[t := G4(h, s.next[h])])
    case G4(h, next) =>
      if s.head == At(h)
      then s.(head := next, list := Rest(s.list), status := s.status[h := Taken(t)], pcs := s.pcs[t := G5(h)])
      else s.(pcs := s.pcs[t := G6(h, s.head)])
    case G5(h) =>
      s.(refs := s.refs[h := Refs(s.refs[h].count - 2, s.refs[h].should)], pcs := s.pcs[t := Idle],
         status := s.status[h := Owned(t)], mine := s.mine[t := s.mine[t] + {h}])
    case G6(h, head) =>
      var s1 := s.(refs := s.refs[h := Refs(s.refs[h].count - 1, s.refs[h].should)]);
      if s.refs[h] == Refs(1, true)
      then s1.(pcs := s.pcs[t := K0(h, Look(head))], status := s.status[h := Adding(t)])
      else s1.(pcs := s.pcs[t := Looking(head)])
  }

  // ----- the invariant -----

  /** The thread counts as one reference of `n`. */
  ghost predicate Holds(pc: Pc, n: nat) {
    (pc.G3? || pc.G4? || pc.G5? || pc.G6?) && pc.h == n
  }

  ghost function Holders(s: State, n: nat): set<nat> {
    set t | t in s.pcs && Holds(s.pcs[t], n)
  }

  /** The thread is putting `n` on the list; before K3 it has taken no reference for the list yet. */
  ghost predicate Puts(pc: Pc, n: nat) {
    (pc.K0? || pc.K1? || pc.K2? || pc.K3? || pc.K4?) && pc.n == n
  }

  ghost predicate Early(pc: Pc) {
    pc.K0? || pc.K1? || pc.K2?
  }

  ghost predicate Known(s: State, p: Ptr) {
    p.At? ==> p.n in s.refs
  }

  ghost predicate PcOk(s: State, t: nat)
    requires t in s.pcs
  {
    match s.pcs[t]
    case Idle => true
    case K0(n, r) => n in s.refs && (r.Look? ==> Known(s, r.head))
    case K1(n, e, r) => n in s.refs && Known(s, e) && (r.Look? ==> Known(s, r.head))
    case K2(n, e, r) => n in s.next && n in s.refs && s.next[n] == e && Known(s, e) && (r.Look? ==> Known(s, r.head))
    case K3(n, e, r) => n in s.next && n in s.refs && s.next[n] == e && Known(s, e) && (r.Look? ==> Known(s, r.head))
    case K4(n, e, r) => n in s.refs && Known(s, e) && (r.Look? ==> Known(s, r.head))
    case G0 => true
    case G1(h) => h in s.refs
    case G2(h, seen) => h in s.refs && 1 <= seen.count
    case G3(h) => h in s.refs
    case G4(h, next) => h in s.refs && h in s.next && next == s.next[h]
    case G5(h) => h in s.refs
    case G6(h, head) => h in s.refs && Known(s, head)
  }

  /** The reference count of `n`: its holders, and one for the list while it is on it or on its way. */
  ghost predicate CountOk(s: State, n: nat)
    requires n in s.refs && n in s.status
  {
    match s.status[n]
    case OnList => s.refs[n] == Refs(|Holders(s, n)| + 1, false)
    case Taken(t) => s.refs[n] == Refs(|Holders(s, n)| + 1, false) && t in s.pcs && s.pcs[t] == G5(n)
    case Owned(t) => s.refs[n] == Refs(|Holders(s, n)|, false)
    case Pending => s.refs[n] == Refs(|Holders(s, n)|, true) && 1 <= |Holders(s, n)|
    case Adding(t) =>
      && t in s.pcs && Puts(s.pcs[t], n)
      && if Early(s.pcs[t]) then s.refs[n] == Refs(0, true) && Holders(s, n) == {}
         else s.refs[n] == Refs(|Holders(s, n)| + 1, false)
  }

  /** The i-th block of the list points to the next one. */
  ghost predicate LinkOk(next: map<nat, Ptr>, list: seq<nat>, i: nat)
    requires i < |list|
  {
    list[i] in next && next[list[i]] == if i + 1 < |list| then At(list[i+1]) else Null
  }

  ghost predicate ChainOk(head: Ptr, next: map<nat, Ptr>, list: seq<nat>) {
    && head == (if list == [] then Null else At(list[0]))
    && (forall i {:trigger LinkOk(next, list, i)} | 0 <= i < |list| :: LinkOk(next, list, i))
    && (forall i, j | 0 <= i < j < |list| :: list[i] != list[j])
  }

  ghost predicate Domains(s: State) {
    s.refs.Keys == s.next.Keys == s.status.Keys && s.pcs.Keys == s.mine.Keys
  }

  /** The chain from the head is the auxiliary list, and exactly its blocks are on the list. */
  ghost predicate ListOk(s: State) {
    && ChainOk(s.head, s.next, s.list)
    && (forall n | n in s.status :: n in s.list <==> s.status[n].OnList?)
    && (forall n | n in s.list :: n in s.status)
    && (forall n {:trigger s.next[n]} | n in s.next :: Known(s, s.next[n]))
  }

  /** What a thread does with a block it has for itself agrees with the block's status. */
  ghost predicate RoleOk(s: State, t: nat)
    requires t in s.pcs
  {
    var pc := s.pcs[t];
    && (pc.K0? || pc.K1? || pc.K2? || pc.K3? || pc.K4? ==> pc.n in s.status && s.status[pc.n] == Adding(t))
    && (pc.G5? ==> pc.h in s.status && s.status[pc.h] == Taken(t))
  }

  /** A block is in the hands of the thread its status names, and of no other. */
  ghost predicate MineOk(s: State) {
    && (forall t, n | t in s.mine && n in s.mine[t] :: n in s.status && s.status[n] == Owned(t))
    && (forall n | n in s.status && s.status[n].Owned? :: s.status[n].t in s.mine && n in s.mine[s.status[n].t])
  }

  ghost predicate Inv(s: State) {
    && Domains(s)
    && ListOk(s)
    && (forall t {:trigger PcOk(s, t)} {:trigger RoleOk(s, t)} | t in s.pcs :: PcOk(s, t) && RoleOk(s, t))
    && (forall n {:trigger CountOk(s, n)} | n in s.status :: CountOk(s, n))
    && MineOk(s)
  }

  // ----- every step keeps the invariant -----

  /** Only the moving thread changes who holds what. */
  lemma HoldersAfter(s: State, s': State, t: nat, n: nat)
    requires t in s.pcs && t in s'.pcs && s'.pcs == s.pcs[t := s'.pcs[t]]
    ensures Holders(s', n) == (Holders(s, n) - {t}) + if Holds(s'.pcs[t], n) then {t} else {}
    ensures t in Holders(s, n) <==> Holds(s.pcs[t], n)
    ensures |Holders(s', n)| == |Holders(s, n)| - (if Holds(s.pcs[t], n) then 1 else 0)
                                               + (if Holds(s'.pcs[t], n) then 1 else 0)
  {
  }

  ghost predicate About(pc: Pc, n: nat) {
    && (pc.G3? || pc.G4? || pc.G5? || pc.G6? ==> pc.h == n)
    && (pc.K0? || pc.K1? || pc.K2? || pc.K3? || pc.K4? ==> pc.n == n)
  }

  /** `s'` is `s` after a step of `t` that concerns only block `n`. */
  ghost predicate Local(s: State, s': State, t: nat, n: nat) {
    && t in s.pcs && n in s.status && n in s.refs && n in s.next
    && t in s'.pcs && s'.pcs == s.pcs[t := s'.pcs[t]] && About(s.pcs[t], n) && About(s'.pcs[t], n)
    && n in s'.refs && s'.refs == s.refs[n := s'.refs[n]]
    && n in s'.status && s'.status == s.status[n := s'.status[n]]
    && n in s'.next && s'.next == s.next[n := s'.next[n]]
    && (s.status[n].Adding? || s.status[n].Taken? ==> s.status[n].t == t || s'.status[n] == s.status[n])
    && (s'.next != s.next ==> s.status[n] == Adding(t) && Holders(s, n) == {})
    && s'.mine.Keys == s.mine.Keys && Known(s, s'.next[n])
  }

  lemma OthersKept(s: State, s': State, t: nat, n: nat, m: nat)
    requires Inv(s) && Local(s, s', t, n) && m in s.status && m != n
    ensures CountOk(s', m)
  {
    HoldersAfter(s, s', t, m);
    assert CountOk(s, m);
  }

  lemma ThreadsKept(s: State, s': State, t: nat, n: nat, u: nat)
    requires Inv(s) && Local(s, s', t, n) && u in s.pcs && u != t
    ensures PcOk(s', u) && RoleOk(s', u)
  {
    assert PcOk(s, u) && RoleOk(s, u);
    if s'.next != s.next {
      assert u !in Holders(s, n);
    }
  }

  /** What remains to be shown of a local step. */
  lemma LocalStep(s: State, s': State, t: nat, n: nat)
    requires Inv(s) && Local(s, s', t, n)
    requires PcOk(s', t) && RoleOk(s', t) && CountOk(s', n) && ListOk(s') && MineOk(s')
    ensures Inv(s')
  {
    forall m | m in s'.status ensures CountOk(s', m) {
      if m != n { OthersKept(s, s', t, n, m); }
    }
    forall u | u in s'.pcs ensures PcOk(s', u) && RoleOk(s', u) {
      if u != t { ThreadsKept(s, s', t, n, u); }
    }
  }

  /** The thread holds nothing and puts nothing. */
  ghost predicate Loose(pc: Pc) {
    pc.Idle? || pc.G0? || pc.G1? || pc.G2?
  }

  /** The count of the block a step is about, from the number of its holders before. */
  lemma CountAt(s: State, s': State, t: nat, n: nat)
    requires Inv(s) && t in s.pcs && t in s'.pcs && s'.pcs == s.pcs[t := s'.pcs[t]] && n in s.status
    ensures CountOk(s, n)
    ensures |Holders(s', n)| == |Holders(s, n)| - (if Holds(s.pcs[t], n) then 1 else 0)
                                               + (if Holds(s'.pcs[t], n) then 1 else 0)
    ensures Holders(s, n) == {} && !Holds(s'.pcs[t], n) ==> Holders(s', n) == {}
    ensures Holds(s.pcs[t], n) ==> 1 <= |Holders(s, n)|
  {
    HoldersAfter(s, s', t, n);
    assert CountOk(s, n);
  }

  lemma LooseCount(s: State, t: nat, pc: Pc, n: nat)
    requires Inv(s) && t in s.pcs && Loose(s.pcs[t]) && Loose(pc) && n in s.status
    ensures CountOk(s.(pcs := s.pcs[t := pc]), n)
  {
    var s' := s.(pcs := s.pcs[t := pc]);
    CountAt(s, s', t, n);
  }

  /** A step that only moves a loose thread on. */
  lemma PcOnly(s: State, t: nat, pc: Pc)
    requires Inv(s) && t in s.pcs && Loose(s.pcs[t]) && Loose(pc)
    requires PcOk(s.(pcs := s.pcs[t := pc]), t)
    ensures Inv(s.(pcs := s.pcs[t := pc]))
  {
    var s' := s.(pcs := s.pcs[t := pc]);
    forall n | n in s'.status ensures CountOk(s', n) {
      LooseCount(s, t, pc, n);
    }
    forall u | u in s'.pcs ensures PcOk(s', u) && RoleOk(s', u) {
      assert PcOk(s, u) && RoleOk(s, u);
    }
  }

  /** The list does not depend on anything but head, next pointers, and which blocks are on it. */
  lemma ListSame(s: State, s': State, n: nat)
    requires ListOk(s) && n in s.status && n in s'.status && n in s.next && n in s'.next && Domains(s) && Domains(s')
    requires s'.head == s.head && s'.list == s.list && s'.refs.Keys == s.refs.Keys
    requires s'.status == s.status[n := s'.status[n]] && s'.next == s.next[n := s'.next[n]]
    requires s'.status[n].OnList? == s.status[n].OnList?
    requires s'.next == s.next || (Known(s, s'.next[n]) && !s.status[n].OnList?)
    ensures ListOk(s')
  {
    forall i | 0 <= i < |s'.list| ensures LinkOk(s'.next, s'.list, i) {
      assert LinkOk(s.next, s.list, i) && s.list[i] in s.list;
    }
  }

  /** Who owns a block does not change with a block nobody owns before or after. */
  lemma MineSame(s: State, s': State, n: nat)
    requires MineOk(s) && n in s.status && n in s'.status && s'.mine == s.mine
    requires s'.status == s.status[n := s'.status[n]]
    requires s'.status[n] == s.status[n] || (!s.status[n].Owned? && !s'.status[n].Owned?)
    ensures MineOk(s')
  {
  }

  /** A local step that leaves the list and the owners alone. */
  lemma QuietStep(s: State, s': State, t: nat, n: nat)
    requires Inv(s) && Local(s, s', t, n) && Domains(s')
    requires s'.head == s.head && s'.list == s.list && s'.mine == s.mine
    requires s'.status[n].OnList? == s.status[n].OnList?
    requires s'.status[n] == s.status[n] || (!s.status[n].Owned? && !s'.status[n].Owned?)
    requires PcOk(s', t) && RoleOk(s', t) && CountOk(s', n)
    ensures Inv(s')
  {
    ListSame(s, s', n);
    MineSame(s, s', n);
    LocalStep(s, s', t, n);
  }

  lemma LookKeeps(s: State, t: nat, call: Call)
    requires Inv(s) && Enabled(s, t, call) && (s.pcs[t].G0? || s.pcs[t].G1?)
    ensures PcOk(s, t) && Inv(Step(s, t, call))
  {
    assert PcOk(s, t);
    var s' := Step(s, t, call);
    if s.pcs[t].G1? {
      assert CountOk(s, s.pcs[t].h);
    }
    PcOnly(s, t, s'.pcs[t]);
  }

  lemma GrabCount(s: State, t: nat, call: Call)
    requires Inv(s) && Enabled(s, t, call) && PcOk(s, t) && s.pcs[t].G2? && s.refs[s.pcs[t].h] == s.pcs[t].seen
    ensures s.pcs[t].h in s.status && CountOk(Step(s, t, call), s.pcs[t].h)
  {
    CountAt(s, Step(s, t, call), t, s.pcs[t].h);
  }

  lemma GrabKeeps(s: State, t: nat, call: Call)
    requires Inv(s) && Enabled(s, t, call) && s.pcs[t].G2?
    ensures PcOk(s, t) && Inv(Step(s, t, call))
  {
    assert PcOk(s, t);
    if s.refs[s.pcs[t].h] == s.pcs[t].seen {
      GrabCount(s, t, call);
      QuietStep(s, Step(s, t, call), t, s.pcs[t].h);
    } else {
      PcOnly(s, t, G0);
    }
  }

  lemma ReadCount(s: State, t: nat, call: Call)
    requires Inv(s) && Enabled(s, t, call) && PcOk(s, t) && s.pcs[t].G3?
    ensures s.pcs[t].h in s.status && CountOk(Step(s, t, call), s.pcs[t].h)
  {
    CountAt(s, Step(s, t, call), t, s.pcs[t].h);
  }

  lemma ReadKeeps(s: State, t: nat, call: Call)
    requires Inv(s) && Enabled(s, t, call) && s.pcs[t].G3?
    ensures PcOk(s, t) && Inv(Step(s, t, call))
  {
    assert PcOk(s, t);
    ReadCount(s, t, call);
    QuietStep(s, Step(s, t, call), t, s.pcs[t].h);
  }

  lemma PutKeeps(s: State, t: nat, call: Call)
    requires Inv(s) && Enabled(s, t, call) && Early(s.pcs[t])
    ensures PcOk(s, t) && Inv(Step(s, t, call))
  {
    assert PcOk(s, t) && RoleOk(s, t);
    var s', n := Step(s, t, call), s.pcs[t].n;
    CountAt(s, s', t, n);
    assert CountOk(s', n);
    QuietStep(s, s', t, n);
  }

  lemma PutBackCount(s: State, t: nat, call: Call)
    requires Inv(s) && Enabled(s, t, call) && PcOk(s, t) && RoleOk(s, t) && s.pcs[t].K4?
    ensures CountOk(Step(s, t, call), s.pcs[t].n)
  {
    CountAt(s, Step(s, t, call), t, s.pcs[t].n);
  }

  lemma PutBackKeeps(s: State, t: nat, call: Call)
    requires Inv(s) && Enabled(s, t, call) && s.pcs[t].K4?
    ensures PcOk(s, t) && Inv(Step(s, t, call))
  {
    assert PcOk(s, t) && RoleOk(s, t);
    PutBackCount(s, t, call);
    QuietStep(s, Step(s, t, call), t, s.pcs[t].n);
  }

  lemma PutHeadCount(s: State, t: nat, call: Call)
    requires Inv(s) && Enabled(s, t, call) && PcOk(s, t) && RoleOk(s, t) && s.pcs[t].K3?
    ensures CountOk(Step(s, t, call), s.pcs[t].n)
  {
    CountAt(s, Step(s, t, call), t, s.pcs[t].n);
  }

  lemma PutHeadKeeps(s: State, t: nat, call: Call)
    requires Inv(s) && Enabled(s, t, call) && s.pcs[t].K3?
    ensures PcOk(s, t) && Inv(Step(s, t, call))
  {
    assert PcOk(s, t) && RoleOk(s, t);
    PutHeadCount(s, t, call);
    if s.head == s.pcs[t].expected {
      PushedKeeps(s, t, call);
    } else {
      QuietStep(s, Step(s, t, call), t, s.pcs[t].n);
    }
  }

  lemma PushedKeeps(s: State, t: nat, call: Call)
    requires Inv(s) && Enabled(s, t, call) && s.pcs[t].K3? && PcOk(s, t) && RoleOk(s, t) && s.head == s.pcs[t].expected
    requires CountOk(Step(s, t, call), s.pcs[t].n)
    ensures Inv(Step(s, t, call))
  {
    var s', n := Step(s, t, call), s.pcs[t].n;
    Pushed(s, s', n);
    MineSame(s, s', n);
    LocalStep(s, s', t, n);
  }

  /** A block whose next pointer is the head goes to the front of the list. */
  lemma Pushed(s: State, s': State, n: nat)
    requires ListOk(s) && Domains(s) && n in s.status && n in s.next && !s.status[n].OnList? && s.next[n] == s.head
    requires s'.list == [n] + s.list && s'.head == At(n) && s'.next == s.next && s'.refs == s.refs
    requires s'.status == s.status[n := OnList]
    ensures ListOk(s')
  {
    assert forall m :: m in s'.list <==> m == n || m in s.list;
    forall i | 0 <= i < |s'.list| ensures LinkOk(s'.next, s'.list, i) {
      assert i > 0 ==> LinkOk(s.next, s.list, i - 1);
      assert i + 1 < |s'.list| ==> s'.list[i+1] == s.list[i];
      assert i > 0 ==> s'.list[i] == s.list[i-1];
    }
    forall m | m in s'.next ensures Known(s', s'.next[m]) {
      assert Known(s, s.next[m]);
    }
  }

  /** The front of the list goes; its next pointer becomes the head. */
  lemma Popped(s: State, s': State, n: nat, t: nat)
    requires ListOk(s) && Domains(s) && n in s.status && n in s.next && s.head == At(n)
    requires s'.list == Rest(s.list) && s'.head == s.next[n] && s'.next == s.next && s'.refs == s.refs
    requires s'.status == s.status[n := Taken(t)]
    ensures ListOk(s') && s.list != [] && s.list[0] == n && s.status[n].OnList?
  {
    assert s.list[0] == n && s'.list == s.list[1..];
    ChainPopped(s.head, s.next, s.list);
    assert forall m :: m in s.list <==> m == n || m in s'.list;
    forall m | m in s'.next ensures Known(s', s'.next[m]) {
      assert Known(s, s.next[m]);
    }
  }

  lemma ChainPopped(head: Ptr, next: map<nat, Ptr>, list: seq<nat>)
    requires ChainOk(head, next, list) && list != []
    ensures list[0] in next && ChainOk(next[list[0]], next, list[1..])
  {
    var rest := list[1..];
    assert LinkOk(next, list, 0);
    forall i | 0 <= i < |rest| ensures LinkOk(next, rest, i) {
      assert LinkOk(next, list, i + 1);
    }
    forall i, j | 0 <= i < j < |rest| ensures rest[i] != rest[j] {
      assert list[i+1] != list[j+1];
    }
  }

  lemma TakeCount(s: State, t: nat, call: Call)
    requires Inv(s) && Enabled(s, t, call) && PcOk(s, t) && s.pcs[t].G4? && s.head != At(s.pcs[t].h)
    ensures s.pcs[t].h in s.status && CountOk(Step(s, t, call), s.pcs[t].h)
  {
    CountAt(s, Step(s, t, call), t, s.pcs[t].h);
  }

  lemma TakeKeeps(s: State, t: nat, call: Call)
    requires Inv(s) && Enabled(s, t, call) && s.pcs[t].G4?
    ensures PcOk(s, t) && Inv(Step(s, t, call))
  {
    assert PcOk(s, t) && RoleOk(s, t);
    if s.head == At(s.pcs[t].h) {
      TakenKeeps(s, t, call);
    } else {
      TakeCount(s, t, call);
      QuietStep(s, Step(s, t, call), t, s.pcs[t].h);
    }
  }

  lemma TakenKeeps(s: State, t: nat, call: Call)
    requires Inv(s) && Enabled(s, t, call) && s.pcs[t].G4? && PcOk(s, t) && s.head == At(s.pcs[t].h)
    ensures Inv(Step(s, t, call))
  {
    var s', n := Step(s, t, call), s.pcs[t].h;
    CountAt(s, s', t, n);
    Popped(s, s', n, t);
    assert CountOk(s', n);
    MineSame(s, s', n);
    LocalStep(s, s', t, n);
  }

  /** Ownership moves with the block a thread returns or gives back. */
  lemma MineMoves(s: State, s': State, t: nat, n: nat)
    requires MineOk(s) && n in s.status && n in s'.status && t in s.mine
    requires s'.status == s.status[n := s'.status[n]]
    requires (s.status[n] == Owned(t) && !s'.status[n].Owned? && s'.mine == s.mine[t := s.mine[t] - {n}])
          || (!s.status[n].Owned? && s'.status[n] == Owned(t) && s'.mine == s.mine[t := s.mine[t] + {n}])
    ensures MineOk(s')
  {
  }

  lemma ReturnKeeps(s: State, t: nat, call: Call)
    requires Inv(s) && Enabled(s, t, call) && s.pcs[t].G5?
    ensures PcOk(s, t) && Inv(Step(s, t, call))
  {
    assert PcOk(s, t) && RoleOk(s, t);
    var s', n := Step(s, t, call), s.pcs[t].h;
    CountAt(s, s', t, n);
    assert CountOk(s', n);
    ListSame(s, s', n);
    MineMoves(s, s', t, n);
    LocalStep(s, s', t, n);
  }

  lemma DropCount(s: State, t: nat, call: Call)
    requires Inv(s) && Enabled(s, t, call) && PcOk(s, t) && s.pcs[t].G6?
    ensures s.pcs[t].h in s.status && CountOk(Step(s, t, call), s.pcs[t].h)
  {
    CountAt(s, Step(s, t, call), t, s.pcs[t].h);
  }

  lemma DropLocal(s: State, t: nat, call: Call)
    requires Inv(s) && Enabled(s, t, call) && PcOk(s, t) && s.pcs[t].G6?
    ensures Local(s, Step(s, t, call), t, s.pcs[t].h)
  {
    assert CountOk(s, s.pcs[t].h);
    assert t in Holders(s, s.pcs[t].h);
  }

  lemma DropRole(s: State, t: nat, call: Call)
    requires Inv(s) && Enabled(s, t, call) && PcOk(s, t) && s.pcs[t].G6?
    ensures var s' := Step(s, t, call); t in s'.pcs && PcOk(s', t) && RoleOk(s', t) && Domains(s')
  {
  }

  lemma DropStays(s: State, t: nat, call: Call)
    requires Inv(s) && Enabled(s, t, call) && PcOk(s, t) && s.pcs[t].G6?
    ensures var s', n := Step(s, t, call), s.pcs[t].h;
            && s'.head == s.head && s'.list == s.list && s'.mine == s.mine
            && n in s.status && n in s'.status && s'.status[n].OnList? == s.status[n].OnList?
            && (s'.status[n] == s.status[n] || (!s.status[n].Owned? && !s'.status[n].Owned?))
  {
    assert CountOk(s, s.pcs[t].h);
  }

  lemma DropKeeps(s: State, t: nat, call: Call)
    requires Inv(s) && Enabled(s, t, call) && s.pcs[t].G6?
    ensures PcOk(s, t) && Inv(Step(s, t, call))
  {
    assert PcOk(s, t) && CountOk(s, s.pcs[t].h);
    DropCount(s, t, call);
    DropLocal(s, t, call);
    DropRole(s, t, call);
    DropStays(s, t, call);
    var s', n := Step(s, t, call), s.pcs[t].h;
    QuietStep(s, s', t, n);
  }

  lemma AddCount(s: State, t: nat, call: Call)
    requires Inv(s) && Enabled(s, t, call) && PcOk(s, t) && s.pcs[t].Idle? && call.Add?
    ensures call.n in s.status && s.status[call.n] == Owned(t) && CountOk(Step(s, t, call), call.n)
  {
    CountAt(s, Step(s, t, call), t, call.n);
  }

  lemma AddLocal(s: State, t: nat, call: Call)
    requires Inv(s) && Enabled(s, t, call) && PcOk(s, t) && s.pcs[t].Idle? && call.Add?
    ensures call.n in s.status && s.status[call.n] == Owned(t) && Local(s, Step(s, t, call), t, call.n)
  {
  }

  lemma IdleKeeps(s: State, t: nat, call: Call)
    requires Inv(s) && Enabled(s, t, call) && s.pcs[t].Idle?
    ensures PcOk(s, t) && Inv(Step(s, t, call))
  {
    assert PcOk(s, t);
    if call.TryGet? {
      PcOnly(s, t, G0);
    } else {
      var s', n := Step(s, t, call), call.n;
      AddCount(s, t, call);
      AddLocal(s, t, call);
      ListSame(s, s', n);
      MineMoves(s, s', t, n);
      LocalStep(s, s', t, n);
    }
  }

  /** Every step of every thread keeps the invariant. */
  lemma StepKeepsInv(s: State, t: nat, call: Call)
    requires Inv(s) && Enabled(s, t, call)
    ensures PcOk(s, t) && Inv(Step(s, t, call))
  {
    match s.pcs[t]
    case Idle => IdleKeeps(s, t, call);
    case K0(_, _) => PutKeeps(s, t, call);
    case K1(_, _, _) => PutKeeps(s, t, call);
    case K2(_, _, _) => PutKeeps(s, t, call);
    case K3(_, _, _) => PutHeadKeeps(s, t, call);
    case K4(_, _, _) => PutBackKeeps(s, t, call);
    case G0 => LookKeeps(s, t, call);
    case G1(_) => LookKeeps(s, t, call);
    case G2(_, _) => GrabKeeps(s, t, call);
    case G3(_) => ReadKeeps(s, t, call);
    case G4(_, _) => TakeKeeps(s, t, call);
    case G5(_) => ReturnKeeps(s, t, call);
    case G6(_, _) => DropKeeps(s, t, call);
  }

  // ----- whole runs -----

  /** A free list with nothing on it; the threads own the blocks. */
  ghost predicate Init(s: State) {
    && Domains(s) && MineOk(s) && s.head == Null && s.list == []
    && (forall n | n in s.status :: s.status[n].Owned? && s.refs[n] == Refs(0, false) && s.next[n] == Null)
    && (forall t | t in s.pcs :: s.pcs[t].Idle?)
  }

  /** `s'` follows `s`. Where a step is not defined, anything may follow; that this never happens is proved. */
  ghost predicate Next(s: State, t: nat, call: Call, s': State) {
    Enabled(s, t, call) && (Domains(s) && PcOk(s, t) ==> s' == Step(s, t, call))
  }

  /** A run: the states it goes through, each a step of some thread after the one before. */
  ghost predicate IsRun(run: seq<State>, threads: seq<nat>, calls: seq<Call>) {
    && run != [] && |threads| == |calls| == |run| - 1 && Init(run[0])
    && forall i | 0 <= i < |threads| :: Next(run[i], threads[i], calls[i], run[i+1])
  }

  lemma InitInv(s: State)
    requires Init(s)
    ensures Inv(s)
  {
    forall n | n in s.status ensures CountOk(s, n) {
      assert Holders(s, n) == {};
    }
  }

  /** Whatever the interleaving, every state of a run satisfies the invariant. */
  lemma {:induction false} RunInv(run: seq<State>, threads: seq<nat>, calls: seq<Call>, i: nat)
    requires IsRun(run, threads, calls) && i < |run|
    ensures Inv(run[i])
  {
    if i == 0 {
      InitInv(run[0]);
    } else {
      RunInv(run, threads, calls, i - 1);
      assert Next(run[i-1], threads[i-1], calls[i-1], run[i]);
      StepKeepsInv(run[i-1], threads[i-1], calls[i-1]);
    }
  }

  /**
   * In any state of any run: no block is on the list twice, none is both on the list and owned, and none is
   * owned by two threads.
   */
  lemma NoBlockTwice(run: seq<State>, threads: seq<nat>, calls: seq<Call>, i: nat)
    requires IsRun(run, threads, calls) && i < |run|
    ensures var s := run[i];
            && ChainOk(s.head, s.next, s.list)
            && (forall t, n | t in s.mine && n in s.mine[t] :: n !in s.list)
            && (forall t, u, n | t in s.mine && u in s.mine && n in s.mine[t] && n in s.mine[u] :: t == u)
  {
    RunInv(run, threads, calls, i);
    OneOwner(run[i]);
  }

  lemma OneOwner(s: State)
    requires MineOk(s)
    ensures forall t, u, n | t in s.mine && u in s.mine && n in s.mine[t] && n in s.mine[u] :: t == u
  {
    forall t, u, n | t in s.mine && u in s.mine && n in s.mine[t] && n in s.mine[u]
      ensures t == u
    {
      assert s.status[n] == Owned(t) && s.status[n] == Owned(u);
    }
  }

  /** While any thread holds a reference of a block, no step changes the block's next pointer. */
  lemma NextIsStable(s: State, t: nat, call: Call, u: nat, n: nat)
    requires Inv(s) && Enabled(s, t, call) && PcOk(s, t) && u in s.pcs && Holds(s.pcs[u], n) && n in s.next
    ensures n in Step(s, t, call).next && Step(s, t, call).next[n] == s.next[n]
  {
    assert u in Holders(s, n) && RoleOk(s, t) && CountOk(s, n);
  }

  /**
   * A compare-and-swap of the head that finds its block there installs that block's true successor: the
   * block is the front of the list, and the value read earlier is what follows it now. The source's assert
   * holds too: the block is not waiting to be put on the list.
   */
  lemma SwapInstallsSuccessor(s: State, t: nat, call: Call)
    requires Inv(s) && Enabled(s, t, call) && PcOk(s, t) && s.pcs[t].G4? && s.head == At(s.pcs[t].h)
    ensures s.list != [] && s.list[0] == s.pcs[t].h
    ensures Step(s, t, call).list == s.list[1..] && ChainOk(Step(s, t, call).head, s.next, s.list[1..])
    ensures s.pcs[t].next == if |s.list| == 1 then Null else At(s.list[1])
    ensures !s.refs[s.pcs[t].h].should
  {
    TakeKeeps(s, t, call);
    var n := s.pcs[t].h;
    assert s.list[0] == n;
    assert s.status[n].OnList?;
    assert CountOk(s, n);
  }

  /** A block that try_get is about to return belongs to nobody else and is off the list. */
  lemma ReturnedBlockIsFree(s: State, t: nat, call: Call)
    requires Inv(s) && Enabled(s, t, call) && PcOk(s, t) && s.pcs[t].G5?
    ensures s.pcs[t].h !in s.list && !s.refs[s.pcs[t].h].should && 2 <= s.refs[s.pcs[t].h].count
    ensures forall u | u in s.mine :: s.pcs[t].h !in s.mine[u]
    ensures s.pcs[t].h in Step(s, t, call).mine[t]
  {
    var n := s.pcs[t].h;
    assert RoleOk(s, t) && CountOk(s, n);
    HoldersAfter(s, s, t, n);
  }

  /** Nothing is lost: a block is on the list, owned, or some thread will put it there or hand it out. */
  lemma EveryBlockHasAKeeper(s: State, n: nat)
    requires Inv(s) && n in s.status
    ensures || n in s.list
            || (exists t | t in s.mine :: n in s.mine[t])
            || (exists t | t in s.pcs :: Puts(s.pcs[t], n) || Holds(s.pcs[t], n))
  {
    assert CountOk(s, n);
    if s.status[n].Pending? {
      var t :| t in Holders(s, n);
      assert t in s.pcs && Holds(s.pcs[t], n);
    } else if s.status[n].Taken? {
      assert Holds(s.pcs[s.status[n].t], n);
    }
  }
}
