// The queue's element storage: one producer, any number of consumers, a ring of blocks and a circular block
// index that is looked up while the producer changes it. One memory access per step where another thread
// could tell the difference. Blocks hold 32 elements (32_SIZE); index_t and size_t have 64 bits.
module BlockRing {
  import opened Pow2

  /** Arithmetic on index_t and size_t. */
  function Wrap(x: int): (r: nat)
    ensures 0 <= x < 0x1_0000_0000_0000_0000 ==> r == x
  {
    x % 0x1_0000_0000_0000_0000
  }

  datatype Link = NoBlock | To(block: nat)

  datatype Entry = Entry(base: nat, block: nat)

  /**
   * A block index. `origin`, `filled` and `shown` are auxiliary: block number e of the producer's life goes to
   * slot (e - origin) % size, the numbers below `filled` have been written, and `front` names number `shown`.
   */
  datatype Header = Header(size: nat, front: nat, entries: map<nat, Entry>, origin: nat, filled: nat, shown: int)

  /** Where the producer stands in enqueue of `v`. */
  datatype Producer =
    | Ready
    | Scan(v: int, k: nat)   // is the next block of the ring empty? look at flag k
    | Grow(v: int)           // make room in the block index
    | Take(v: int)           // get a block and link it in
    | Index(v: int)          // write its index entry
    | Front(v: int)          // publish the entry
    | Write(v: int)          // construct the element
    | Store(v: int)          // publish the new tail

  /** Where a consumer stands with the index it drew; `g` is auxiliary. */
  datatype Consumer =
    | Out
    | Drawn(i: nat)
    | AtHeader(i: nat, h: nat)
    | AtFront(i: nat, h: nat, front: nat, g: int)
    | AtBase(i: nat, h: nat, front: nat, base: nat, g: int)
    | AtBlock(i: nat, block: nat)
    | Read(i: nat, block: nat, value: int)

  /**
   * `born`, `log`, `taken` and `who` are auxiliary: the block of every block number, every element enqueued,
   * what each index was dequeued as, and which consumer drew it.
   */
  datatype State = State(
    tail: nat, head: nat, tailBlock: Link, next: map<nat, nat>, flags: map<nat, seq<bool>>, cells: map<(nat, nat), int>,
    headers: seq<Header>, used: nat, size: nat, slot: nat, producer: Producer, consumers: map<nat, Consumer>,
    born: seq<nat>, log: seq<int>, taken: map<nat, int>, who: seq<nat>)

  /** What the environment decides: the element to enqueue, whether an allocation succeeds, and what it gives. */
  datatype Choice = Choice(v: int, memory: bool, block: nat)

  datatype Step = Produce(c: Choice) | Consume(t: nat)

  function Full(): (r: seq<bool>)
    ensures |r| == 32 && forall k | 0 <= k < 32 :: !r[k]
  {
    seq(32, _ => false)
  }

  /** Where the j-th used entry sits, counted from the oldest. */
  function CopySlot(slot: nat, used: nat, size: nat, j: nat): nat
    requires 0 < size
  {
    (slot - used + j) % size
  }

  /** The doubled index: the used entries of the old one, oldest first. */
  function NewHeader(s: State): Header
    requires NewHeaderSafe(s)
  {
    Header(2 * s.size, if s.used == 0 then 0x1_0000_0000_0000_0000 - 1 else s.used - 1,
           map j: nat | j < s.used :: s.headers[|s.headers|-1].entries[CopySlot(s.slot, s.used, s.size, j)],
           |s.born| - s.used, |s.born|, |s.born| - 1)
  }

  ghost predicate NewHeaderSafe(s: State) {
    && s.used <= |s.born| && 0 < s.size && (s.used > 0 ==> s.headers != [])
    && forall j: nat | j < s.used :: CopySlot(s.slot, s.used, s.size, j) in s.headers[|s.headers|-1].entries
  }

  /** Blocks come from the free list or from the allocator, never one that is in use. */
  ghost predicate Enabled(s: State, step: Step) {
    match step
    case Produce(c) =>
      && (s.producer.Take? && c.memory ==> c.block !in s.next)
      && (s.producer.Grow? && c.memory ==> 2 * s.size <= 0x800_0000_0000_0000)
    case Consume(t) => t in s.consumers && (s.consumers[t].Out? ==> s.head < s.tail)
  }

  /** The step reads nothing that is not there. */
  ghost predicate Safe(s: State, step: Step) {
    if step.Consume? then step.t in s.consumers && ConsumerSafe(s, s.consumers[step.t])
    else match s.producer
      case Scan(_, k) =>
        && s.tailBlock.To? && s.tailBlock.block in s.next && s.next[s.tailBlock.block] in s.flags
        && (k < 32 ==> k < |s.flags[s.next[s.tailBlock.block]]|)
      case Grow(_) => NewHeaderSafe(s)
      case Take(_) => s.tailBlock.To? ==> s.tailBlock.block in s.next
      case Index(_) => s.headers != [] && s.tailBlock.To?
      case Front(_) => s.headers != [] && 0 < s.size
      case Write(_) => s.tailBlock.To?
      case _ => true
  }

  ghost predicate ConsumerSafe(s: State, c: Consumer) {
    match c
    case Drawn(_) => s.headers != []
    case AtHeader(_, h) => h < |s.headers|
    case AtFront(_, h, front, _) => h < |s.headers| && front in s.headers[h].entries
    case AtBase(i, h, front, base, _) =>
      h < |s.headers| && 0 < s.headers[h].size && LookupSlot(i, front, base, s.headers[h].size) in s.headers[h].entries
    case AtBlock(i, b) => (b, i % 32) in s.cells
    case Read(i, b, _) => b in s.flags && |s.flags[b]| == 32
    case Out => true
  }

  /**
   * The slot a consumer looks in: `front` plus the distance in blocks from the front entry's base. The
   * division is unsigned, the block size being a size_t, so a negative distance comes out as its value
   * modulo 2^59; the mask makes that right.
   */
  function LookupSlot(i: nat, front: nat, base: nat, size: nat): nat
    requires 0 < size
  {
    var blockBase := i - i % 32;
    var offset := Wrap(blockBase - base) / 32;
    Wrap(front + offset) % size
  }

  ghost function Move(s: State, step: Step): State
    requires Safe(s, step)
  {
    if step.Produce? then ProducerMove(s, step.c) else ConsumerMove(s, step.t)
  }

  ghost function ProducerMove(s: State, c: Choice): State
    requires Safe(s, Produce(c))
  {
    match s.producer
    case Ready =>
      s.(producer := if s.tail % 32 != 0 then Write(c.v) else if s.tailBlock.To? then Scan(c.v, 0) else Grow(c.v))
    case Scan(v, k) =>
      var b := s.next[s.tailBlock.block];
      if k >= 32 then
        s.(tailBlock := To(b), flags := s.flags[b := Full()], born := s.born + [b], producer := Index(v))
      else s.(producer := if s.flags[b][k] then Scan(v, k + 1) else Grow(v))
    case Grow(v) =>
      if s.headers != [] && s.used != s.size then s.(producer := Take(v))
      else if c.memory then
        s.(headers := s.headers + [NewHeader(s)], size := 2 * s.size, slot := s.used, producer := Take(v))
      else s.(producer := Ready)
    case Take(v) =>
      if !c.memory then s.(producer := Ready)
      else
        var b := c.block;
        s.(next := if s.tailBlock.To? then s.next[b := s.next[s.tailBlock.block]][s.tailBlock.block := b] else s.next[b := b],
           flags := s.flags[b := Full()], tailBlock := To(b), used := s.used + 1, born := s.born + [b], producer := Index(v))
    case Index(v) =>
      var h := |s.headers| - 1;
      s.(headers := s.headers[h := s.headers[h].(entries := s.headers[h].entries[s.slot := Entry(s.tail, s.tailBlock.block)],
                                                 filled := s.headers[h].filled + 1)],
         producer := Front(v))
    case Front(v) =>
      var h := |s.headers| - 1;
      s.(headers := s.headers[h := s.headers[h].(front := s.slot, shown := |s.born| - 1)],
         slot := (s.slot + 1) % s.size, producer := Write(v))
    case Write(v) => s.(cells := s.cells[(s.tailBlock.block, s.tail % 32) := v], producer := Store(v))
    case Store(v) => s.(tail := s.tail + 1, log := s.log + [v], producer := Ready)
  }

  ghost function ConsumerMove(s: State, t: nat): State
    requires Safe(s, Consume(t))
  {
    var c := s.consumers[t];
    match c
    case Out => s.(consumers := s.consumers[t := Drawn(s.head)], head := s.head + 1, who := s.who + [t])
    case Drawn(i) => s.(consumers := s.consumers[t := AtHeader(i, |s.headers| - 1)])
    case AtHeader(i, h) => s.(consumers := s.consumers[t := AtFront(i, h, s.headers[h].front, s.headers[h].shown)])
    case AtFront(i, h, front, g) =>
      s.(consumers := s.consumers[t := AtBase(i, h, front, s.headers[h].entries[front].base, g)])
    case AtBase(i, h, front, base, _) =>
      s.(consumers := s.consumers[t := AtBlock(i, s.headers[h].entries[LookupSlot(i, front, base, s.headers[h].size)].block)])
    case AtBlock(i, b) => s.(consumers := s.consumers[t := Read(i, b, s.cells[(b, i % 32)])])
    case Read(i, b, v) =>
      s.(consumers := s.consumers[t := Out], taken := s.taken[i := v],
         flags := s.flags[b := s.flags[b][32 - 1 - i % 32 := true]])
  }

  // ----- the invariant -----

  /** Block number e links to the next one, the newest to the oldest. */
  ghost predicate LinkOk(born: seq<nat>, used: nat, next: map<nat, nat>, e: int)
    requires used <= |born| && |born| - used <= e < |born|
  {
    born[e] in next && next[born[e]] == born[if e + 1 < |born| then e + 1 else |born| - used]
  }

  /** The ring is the last `used` blocks taken into use, in that order, the newest being the tail block. */
  ghost predicate RingOk(born: seq<nat>, used: nat, tailBlock: Link, next: map<nat, nat>) {
    && used <= |born| && (born == [] <==> used == 0)
    && tailBlock == (if born == [] then NoBlock else To(born[|born|-1]))
    && (forall e {:trigger LinkOk(born, used, next, e)} | |born| - used <= e < |born| :: LinkOk(born, used, next, e))
    && (forall e, f | |born| - used <= e < f < |born| :: born[e] != born[f])
    && (forall b | b in next :: b in born[|born| - used..])
  }

  /** How far the tail is into the blocks. */
  ghost predicate TailOk(blocks: nat, tail: nat, p: Producer) {
    match p
    case Ready => tail <= blocks * 32 < tail + 32
    case Scan(_, _) => 0 < blocks && tail == blocks * 32
    case Grow(_) => tail == blocks * 32
    case Take(_) => tail == blocks * 32
    case Index(_) => tail + 32 == blocks * 32
    case Front(_) => tail + 32 == blocks * 32
    case Write(_) => tail < blocks * 32 <= tail + 32
    case Store(_) => tail < blocks * 32 <= tail + 32
  }

  function SlotOf(h: Header, e: int): int
    requires 0 < h.size
  {
    (e - h.origin) % h.size
  }

  function Oldest(h: Header): int {
    if h.origin <= h.filled - h.size then h.filled - h.size else h.origin
  }

  ghost predicate EntryOk(born: seq<nat>, h: Header, e: int)
    requires 0 < h.size && 0 <= e < |born|
  {
    SlotOf(h, e) in h.entries && h.entries[SlotOf(h, e)] == Entry(e * 32, born[e])
  }

  /** An index of 2^59 entries would not fit in the address space. */
  ghost predicate SizeOk(size: nat) {
    0 < size <= 0x800_0000_0000_0000 && IsPow(size)
  }

  /** An index, current or replaced, holds the entries of the last `size` block numbers written to it. */
  ghost predicate HeaderOk(born: seq<nat>, h: Header) {
    && SizeOk(h.size)
    && h.filled <= |born|
    && (forall e {:trigger EntryOk(born, h, e)} | Oldest(h) <= e < h.filled :: EntryOk(born, h, e))
    && h.shown < h.filled && (0 <= h.shown ==> h.origin <= h.shown && h.front == SlotOf(h, h.shown))
  }

  /** The current index has room for the ring, and its next slot is the next block's. */
  ghost predicate CurrentOk(s: State) {
    && IsPow(s.size)
    && (s.headers == [] ==> s.born == [] && !s.producer.Take? && !s.producer.Index? && !s.producer.Front?)
    && (s.headers != [] ==>
          var h := s.headers[|s.headers|-1];
          && s.size == h.size && s.used <= h.size && h.origin <= |s.born| - s.used
          && (s.producer.Take? ==> s.used < h.size) && h.filled == (if s.producer.Index? then |s.born| - 1 else |s.born|)
          && 0 < h.size && s.slot == SlotOf(h, if s.producer.Front? then h.filled - 1 else h.filled)
          && h.shown == if s.producer.Index? || s.producer.Front? then |s.born| - 2 else |s.born| - 1)
  }

  ghost predicate FlagOk(flags: seq<bool>, e: nat, k: nat, taken: map<nat, int>)
    requires |flags| == 32 && k < 32
  {
    flags[32 - 1 - k] <==> e * 32 + k in taken
  }

  /** An empty-flag is set exactly when its index has been dequeued completely. */
  ghost predicate FlagsOk(born: seq<nat>, used: nat, flags: map<nat, seq<bool>>, taken: map<nat, int>) {
    && used <= |born|
    && forall e {:trigger born[e]} | |born| - used <= e < |born| ::
         && born[e] in flags && |flags[born[e]]| == 32
         && forall k | 0 <= k < 32 :: FlagOk(flags[born[e]], e, k, taken)
  }

  /** Index `i` is in the ring, and its cell holds its element. */
  ghost predicate CellOk(born: seq<nat>, used: nat, cells: map<(nat, nat), int>, log: seq<int>, i: nat) {
    && used <= |born| && |born| - used <= i / 32 < |born| && i < |log|
    && (born[i / 32], i % 32) in cells && cells[(born[i / 32], i % 32)] == log[i]
  }

  ghost predicate Scanned(flags: seq<bool>, k: nat) {
    |flags| == 32 && k <= 32 && forall j | 0 <= j < k :: flags[j]
  }

  ghost predicate CellsOk(s: State) {
    && (forall i {:trigger CellOk(s.born, s.used, s.cells, s.log, i)} | 0 <= i < s.tail && i !in s.taken ::
          CellOk(s.born, s.used, s.cells, s.log, i))
    && (s.producer.Store? ==>
          s.tailBlock.To? && (s.tailBlock.block, s.tail % 32) in s.cells
          && s.cells[(s.tailBlock.block, s.tail % 32)] == s.producer.v)
    && (s.producer.Scan? ==>
          && s.producer.k <= 32 && 0 < s.used <= |s.born| && s.born[|s.born| - s.used] in s.flags
          && Scanned(s.flags[s.born[|s.born| - s.used]], s.producer.k))
  }

  /** The consumer that drew index i has it. */
  ghost predicate Held(who: seq<nat>, consumers: map<nat, Consumer>, i: nat)
    requires i < |who|
  {
    who[i] in consumers && !consumers[who[i]].Out? && consumers[who[i]].i == i
  }

  /** The index of consumer t was drawn by it and is not dequeued yet. */
  ghost predicate Holds(who: seq<nat>, taken: map<nat, int>, t: nat, c: Consumer) {
    c.Out? || (c.i < |who| && c.i !in taken && who[c.i] == t)
  }

  /** Every index drawn is either dequeued or in the hands of the consumer that drew it, and of no other. */
  ghost predicate HoldOk(s: State) {
    && |s.who| == s.head <= s.tail == |s.log|
    && (forall i {:trigger s.taken[i]} {:trigger i in s.taken} | i in s.taken :: i < s.head && s.taken[i] == s.log[i])
    && (forall i {:trigger Held(s.who, s.consumers, i)} | 0 <= i < s.head && i !in s.taken :: Held(s.who, s.consumers, i))
    && (forall t {:trigger Holds(s.who, s.taken, t, s.consumers[t])} | t in s.consumers ::
          Holds(s.who, s.taken, t, s.consumers[t]))
  }

  /** The entry of block number e is in the index, and not after the one its front named. */
  ghost predicate Reaches(h: Header, e: int, g: int) {
    Oldest(h) <= e <= g < h.filled
  }

  ghost predicate ConsumerOk(born: seq<nat>, headers: seq<Header>, log: seq<int>, c: Consumer) {
    match c
    case Out => true
    case Drawn(i) => true
    case AtHeader(i, h) => h < |headers| && Reaches(headers[h], i / 32, headers[h].shown)
    case AtFront(i, h, front, g) =>
      h < |headers| && 0 < headers[h].size && Reaches(headers[h], i / 32, g) && front == SlotOf(headers[h], g)
    case AtBase(i, h, front, base, g) =>
      && h < |headers| && 0 < headers[h].size && Reaches(headers[h], i / 32, g) && front == SlotOf(headers[h], g)
      && base == g * 32
    case AtBlock(i, b) => i / 32 < |born| && b == born[i / 32]
    case Read(i, b, v) => i / 32 < |born| && b == born[i / 32] && i < |log| && v == log[i]
  }

  ghost predicate Inv(s: State) {
    && RingOk(s.born, s.used, s.tailBlock, s.next)
    && TailOk(|s.born|, s.tail, s.producer)
    && CurrentOk(s)
    && (forall h {:trigger HeaderOk(s.born, s.headers[h])} | 0 <= h < |s.headers| :: HeaderOk(s.born, s.headers[h]))
    && FlagsOk(s.born, s.used, s.flags, s.taken)
    && CellsOk(s) && HoldOk(s)
    && (forall t {:trigger ConsumerOk(s.born, s.headers, s.log, s.consumers[t])} | t in s.consumers ::
          ConsumerOk(s.born, s.headers, s.log, s.consumers[t]))
  }

  // ----- the lookup -----

  /** The unsigned division turns a distance of -d blocks into 0x800_0000_0000_0000 - d. */
  lemma UnsignedDistance(d: int)
    requires 0 < d <= 0x800_0000_0000_0000
    ensures Wrap(-d * 32) / 32 == 0x800_0000_0000_0000 - d
  {
  }

  /** Index sizes divide 2^59. */
  lemma SizeDivides(size: nat) returns (q: nat)
    requires SizeOk(size)
    ensures 0x800_0000_0000_0000 == q * size
  {
    var k: nat :| size == Pow(k);
    Word();
    Divides(k, 59);
    q := Pow(59 - k);
  }

  /** So the mask takes that multiple away again. */
  lemma MaskedDistance(f: int, d: int, size: nat)
    requires SizeOk(size) && 0 <= f < size && 0 < d < size
    ensures Wrap(f + (0x800_0000_0000_0000 - d)) % size == (f - d) % size
  {
    var q := SizeDivides(size);
    ModAdd(f - d, q, size);
    assert f + (0x800_0000_0000_0000 - d) == f - d + q * size;
  }

  /** Whatever the entries do meanwhile, the slot looked up is the slot of the index's own block number. */
  lemma LookupFinds(h: Header, i: nat, g: int)
    requires SizeOk(h.size) && Reaches(h, i / 32, g)
    ensures 0 <= g && LookupSlot(i, SlotOf(h, g), g * 32, h.size) == SlotOf(h, i / 32)
  {
    var d, f := g - i / 32, SlotOf(h, g);
    assert i - i % 32 - g * 32 == -d * 32;
    if d == 0 {
      ModOf(f, 0, f, h.size);
    } else {
      UnsignedDistance(d);
      MaskedDistance(f, d, h.size);
      SlotBack(h, g, d);
    }
  }

  lemma SlotBack(h: Header, g: int, d: int)
    requires 0 < h.size
    ensures (SlotOf(h, g) - d) % h.size == SlotOf(h, g - d)
  {
    ModSub(g - h.origin, d, h.size);
    assert g - h.origin - d == (g - d) - h.origin;
  }

  // ----- what a step leaves alone -----

  lemma HeaderGrows(born: seq<nat>, b: nat, h: Header)
    requires HeaderOk(born, h)
    ensures HeaderOk(born + [b], h)
  {
    forall e | Oldest(h) <= e < h.filled ensures EntryOk(born + [b], h, e) {
      assert EntryOk(born, h, e);
    }
  }

  /** A consumer's findings stand while blocks, elements and indices are added. */
  lemma ConsumerGrows(born: seq<nat>, born': seq<nat>, headers: seq<Header>, headers': seq<Header>,
                      log: seq<int>, log': seq<int>, c: Consumer)
    requires ConsumerOk(born, headers, log, c) && born <= born' && headers <= headers' && log <= log'
    ensures ConsumerOk(born', headers', log', c)
  {
  }

  lemma CellKept(s: State, born': seq<nat>, used': nat, cells': map<(nat, nat), int>, i: nat)
    requires CellOk(s.born, s.used, s.cells, s.log, i)
    requires s.born <= born' && used' <= |born'| && |born'| - used' <= i / 32
    requires (s.born[i / 32], i % 32) in cells'
    requires cells'[(s.born[i / 32], i % 32)] == s.cells[(s.born[i / 32], i % 32)]
    ensures CellOk(born', used', cells', s.log, i)
  {
  }

  // ----- the producer's steps -----

  /** Only the producer moves on. */
  lemma StandsStill(s: State, p: Producer)
    requires Inv(s)
    requires TailOk(|s.born|, s.tail, p) && CurrentOk(s.(producer := p)) && CellsOk(s.(producer := p))
    ensures Inv(s.(producer := p))
  {
  }

  /** The block ahead of the tail block is the oldest of the ring. */
  lemma Ahead(s: State)
    requires RingOk(s.born, s.used, s.tailBlock, s.next) && s.born != []
    ensures s.tailBlock.To? && s.tailBlock.block in s.next
    ensures s.next[s.tailBlock.block] == s.born[|s.born| - s.used]
  {
    assert LinkOk(s.born, s.used, s.next, |s.born| - 1);
  }

  lemma ReadyKeeps(s: State, c: Choice)
    requires Inv(s) && s.producer.Ready?
    ensures Safe(s, Produce(c)) && Inv(Move(s, Produce(c)))
  {
    var p := Move(s, Produce(c)).producer;
    if p.Scan? {
      assert s.born[|s.born| - s.used] in s.flags;
    }
    StandsStill(s, p);
  }

  /** All flags set: every index of the oldest block has been dequeued completely. */
  lemma OldestIsEmpty(s: State, i: nat)
    requires Inv(s) && s.producer.Scan? && s.producer.k == 32 && i < s.tail && i !in s.taken
    ensures |s.born| - s.used < i / 32
  {
    assert CellOk(s.born, s.used, s.cells, s.log, i);
    var e := |s.born| - s.used;
    assert s.born[e] in s.flags && FlagOk(s.flags[s.born[e]], e, i % 32, s.taken);
  }

  lemma ReuseRing(born: seq<nat>, used: nat, tailBlock: Link, next: map<nat, nat>)
    requires RingOk(born, used, tailBlock, next) && born != []
    ensures RingOk(born + [born[|born| - used]], used, To(born[|born| - used]), next)
  {
    var born', w := born + [born[|born| - used]], |born| - used;
    forall e | |born'| - used <= e < |born'| ensures LinkOk(born', used, next, e) {
      assert LinkOk(born, used, next, if e == |born| then w else e);
    }
    forall b | b in next ensures b in born'[w+1..] {
      var e :| w <= e < |born| && born[e] == b;
      assert born'[if e == w then |born| else e] == b;
    }
  }

  lemma ReuseFlags(born: seq<nat>, used: nat, flags: map<nat, seq<bool>>, taken: map<nat, int>, tail: nat)
    requires FlagsOk(born, used, flags, taken) && 0 < used && (forall i | i in taken :: i < tail) && tail <= |born| * 32
    requires forall e, f | |born| - used <= e < f < |born| :: born[e] != born[f]
    ensures FlagsOk(born + [born[|born| - used]], used, flags[born[|born| - used] := Full()], taken)
  {
    var b := born[|born| - used];
    var born', flags' := born + [b], flags[b := Full()];
    forall e | |born'| - used <= e < |born'|
      ensures born'[e] in flags' && |flags'[born'[e]]| == 32
      ensures forall k | 0 <= k < 32 :: FlagOk(flags'[born'[e]], e, k, taken)
    {
      if e < |born| {
        assert born'[e] == born[e];
        forall k | 0 <= k < 32 ensures FlagOk(flags'[born'[e]], e, k, taken) {
          assert FlagOk(flags[born[e]], e, k, taken);
        }
      }
    }
  }

  /** The headers and the consumers' findings stand when a block is taken into use. */
  lemma BlockAdded(s: State, b: nat)
    requires Inv(s)
    ensures var born' := s.born + [b];
            && (forall h {:trigger HeaderOk(born', s.headers[h])} | 0 <= h < |s.headers| :: HeaderOk(born', s.headers[h]))
            && (forall t {:trigger ConsumerOk(born', s.headers, s.log, s.consumers[t])} | t in s.consumers ::
                  ConsumerOk(born', s.headers, s.log, s.consumers[t]))
  {
    var born' := s.born + [b];
    forall h | 0 <= h < |s.headers| ensures HeaderOk(born', s.headers[h]) {
      HeaderGrows(s.born, b, s.headers[h]);
    }
    forall t | t in s.consumers ensures ConsumerOk(born', s.headers, s.log, s.consumers[t]) {
      ConsumerGrows(s.born, born', s.headers, s.headers, s.log, s.log, s.consumers[t]);
    }
  }

  /** So do the cells, if those of the oldest block are done with when the ring does not get longer. */
  lemma CellsStay(s: State, b: nat, used: nat)
    requires Inv(s) && used <= |s.born| + 1
    requires forall i | 0 <= i < s.tail && i !in s.taken :: |s.born| + 1 - used <= i / 32
    ensures forall i {:trigger CellOk(s.born + [b], used, s.cells, s.log, i)} | 0 <= i < s.tail && i !in s.taken ::
              CellOk(s.born + [b], used, s.cells, s.log, i)
  {
    forall i | 0 <= i < s.tail && i !in s.taken ensures CellOk(s.born + [b], used, s.cells, s.log, i) {
      assert CellOk(s.born, s.used, s.cells, s.log, i);
      CellKept(s, s.born + [b], used, s.cells, i);
    }
  }

  /** What taking a block into use does not touch. */
  ghost predicate Untouched(s: State, s': State) {
    && s'.headers == s.headers && s'.size == s.size && s'.slot == s.slot && s'.log == s.log && s'.consumers == s.consumers
    && s'.cells == s.cells && s'.tail == s.tail && s'.head == s.head && s'.taken == s.taken && s'.who == s.who
  }

  lemma ReuseKeeps(s: State, c: Choice)
    requires Inv(s) && s.producer.Scan? && s.producer.k == 32
    ensures Safe(s, Produce(c)) && Inv(Move(s, Produce(c)))
  {
    Ahead(s);
    Reused(s, Move(s, Produce(c)), s.born[|s.born| - s.used]);
  }

  lemma Reused(s: State, s': State, b: nat)
    requires Inv(s) && s.producer.Scan? && s.producer.k == 32 && b == s.born[|s.born| - s.used]
    requires s'.next == s.next && s'.flags == s.flags[b := Full()] && s'.tailBlock == To(b) && s'.used == s.used && s'.born == s.born + [b]
    requires Untouched(s, s') && s'.producer.Index?
    ensures Inv(s')
  {
    ReuseRing(s.born, s.used, s.tailBlock, s.next);
    ReuseFlags(s.born, s.used, s.flags, s.taken, s.tail);
    BlockAdded(s, b);
    forall i | 0 <= i < s.tail && i !in s.taken ensures |s.born| + 1 - s.used <= i / 32 {
      OldestIsEmpty(s, i);
    }
    CellsStay(s, b, s.used);
  }

  lemma ScanKeeps(s: State, c: Choice)
    requires Inv(s) && s.producer.Scan? && s.producer.k < 32
    ensures Safe(s, Produce(c)) && Inv(Move(s, Produce(c)))
  {
    Ahead(s);
    StandsStill(s, Move(s, Produce(c)).producer);
  }

  /** The copy loop meets the used entries oldest first. */
  lemma CopyMeets(born: seq<nat>, h: Header, used: nat, slot: nat, j: nat)
    requires HeaderOk(born, h) && h.filled == |born| && slot == SlotOf(h, |born|)
    requires j < used <= h.size && used <= |born| && h.origin <= |born| - used
    ensures CopySlot(slot, used, h.size, j) in h.entries
    ensures h.entries[CopySlot(slot, used, h.size, j)] == Entry((|born| - used + j) * 32, born[|born| - used + j])
  {
    SlotBack(h, |born|, used - j);
    assert slot - used + j == slot - (used - j);
    assert EntryOk(born, h, |born| - used + j);
  }

  /** The copy loop itself: it stops after exactly the used entries, having copied them oldest first. */
  method CopyEntries(entries: array<Entry>, front: nat, used: nat, copy: array<Entry>)
    requires entries != copy && 0 < used <= entries.Length && front < entries.Length && used <= copy.Length
    modifies copy
    ensures forall j: nat | j < used :: copy[j] == entries[CopySlot(front, used, entries.Length, j)]
    ensures forall j | used <= j < copy.Length :: copy[j] == old(copy[j])
  {
    var size := entries.Length;
    var i, j := (front - used) % size, 0;
    while true
      invariant 0 <= j < used && i == CopySlot(front, used, size, j)
      invariant forall k: nat | k < j :: copy[k] == entries[CopySlot(front, used, size, k)]
      invariant forall k | used <= k < copy.Length :: copy[k] == old(copy[k])
      decreases used - j
    {
      copy[j] := entries[i];
      j := j + 1;
      ModSub(front - used + j - 1, -1, size);
      i := (i + 1) % size;
      ModOf(front, 0, front, size);
      if j < used {
        ModDiffer(front - used + j, front, size);
      }
      if i == front { break; }
    }
  }

  lemma GrowSafe(s: State)
    requires Inv(s) && s.producer.Grow?
    ensures NewHeaderSafe(s)
  {
    forall j: nat | j < s.used
      ensures CopySlot(s.slot, s.used, s.size, j) in s.headers[|s.headers|-1].entries
    {
      CopyMeets(s.born, s.headers[|s.headers|-1], s.used, s.slot, j);
    }
  }

  /** The doubled index has the entries of the ring at its front. */
  lemma NewEntries(s: State)
    requires Inv(s) && s.producer.Grow? && NewHeaderSafe(s)
    ensures forall j: nat | j < s.used ::
              j in NewHeader(s).entries && NewHeader(s).entries[j] == Entry((|s.born| - s.used + j) * 32, s.born[|s.born| - s.used + j])
  {
    forall j: nat | j < s.used
      ensures NewHeader(s).entries[j] == Entry((|s.born| - s.used + j) * 32, s.born[|s.born| - s.used + j])
    {
      CopyMeets(s.born, s.headers[|s.headers|-1], s.used, s.slot, j);
    }
  }

  lemma NewHeaderOk(s: State)
    requires Inv(s) && s.producer.Grow? && 2 * s.size <= 0x800_0000_0000_0000 && (s.headers == [] || s.used == s.size)
    ensures NewHeaderSafe(s) && HeaderOk(s.born, NewHeader(s))
    ensures SlotOf(NewHeader(s), |s.born|) == s.used
  {
    GrowSafe(s);
    NewEntries(s);
    SizeDoubles(s.size);
    var h := NewHeader(s);
    forall e | Oldest(h) <= e < h.filled ensures EntryOk(s.born, h, e) {
      ModOf(e - h.origin, 0, e - h.origin, h.size);
    }
    ModOf(s.used, 0, s.used, h.size);
    if s.used > 0 {
      ModOf(s.used - 1, 0, s.used - 1, h.size);
    }
  }

  lemma SizeDoubles(size: nat)
    requires IsPow(size) && 2 * size <= 0x800_0000_0000_0000
    ensures SizeOk(2 * size)
  {
    var k: nat :| size == Pow(k);
    assert 2 * size == Pow(k + 1);
  }

  lemma Grown(s: State, c: Choice)
    requires Inv(s) && Enabled(s, Produce(c)) && s.producer.Grow? && c.memory && (s.headers == [] || s.used == s.size)
    ensures Safe(s, Produce(c)) && Inv(Move(s, Produce(c)))
  {
    NewHeaderOk(s);
    var s' := Move(s, Produce(c));
    forall t | t in s'.consumers ensures ConsumerOk(s'.born, s'.headers, s'.log, s'.consumers[t]) {
      ConsumerGrows(s.born, s.born, s.headers, s'.headers, s.log, s.log, s.consumers[t]);
    }
  }

  lemma GrowKeeps(s: State, c: Choice)
    requires Inv(s) && Enabled(s, Produce(c)) && s.producer.Grow?
    ensures Safe(s, Produce(c)) && Inv(Move(s, Produce(c)))
  {
    if c.memory && (s.headers == [] || s.used == s.size) {
      Grown(s, c);
    } else {
      GrowSafe(s);
      StandsStill(s, Move(s, Produce(c)).producer);
    }
  }

  lemma TakeRing(born: seq<nat>, used: nat, tailBlock: Link, next: map<nat, nat>, b: nat, next': map<nat, nat>)
    requires RingOk(born, used, tailBlock, next) && b !in next && (tailBlock.To? ==> tailBlock.block in next)
    requires next' == if tailBlock.To? then next[b := next[tailBlock.block]][tailBlock.block := b] else next[b := b]
    ensures RingOk(born + [b], used + 1, To(b), next')
  {
    var born', n, used' := born + [b], |born|, used + 1;
    forall e | n - used <= e < n ensures born[e] in next && born[e] != b {
      assert LinkOk(born, used, next, e);
    }
    forall e | n - used <= e <= n ensures LinkOk(born', used', next', e) {
      TakeLink(born, used, tailBlock, next, b, next', e);
    }
    forall x | x in next' ensures x in born'[n - used..] {
      TakeMember(born, used, next, b, x);
    }
  }

  lemma TakeLink(born: seq<nat>, used: nat, tailBlock: Link, next: map<nat, nat>, b: nat, next': map<nat, nat>, e: int)
    requires RingOk(born, used, tailBlock, next) && b !in next && |born| - used <= e <= |born|
    requires forall f | |born| - used <= f < |born| :: born[f] in next && born[f] != b
    requires next' == if tailBlock.To? then next[b := next[tailBlock.block]][tailBlock.block := b] else next[b := b]
    ensures LinkOk(born + [b], used + 1, next', e)
  {
    if born != [] {
      assert LinkOk(born, used, next, |born| - 1);
      if e < |born| { assert LinkOk(born, used, next, e); }
    }
  }

  lemma TakeMember(born: seq<nat>, used: nat, next: map<nat, nat>, b: nat, x: nat)
    requires used <= |born| && (forall y | y in next :: y in born[|born| - used..]) && (x in next || x == b)
    ensures x in (born + [b])[|born| - used..]
  {
    assert (born + [b])[|born| - used..] == born[|born| - used..] + [b];
  }

  lemma TakeFlags(born: seq<nat>, used: nat, flags: map<nat, seq<bool>>, taken: map<nat, int>, b: nat, next: map<nat, nat>)
    requires FlagsOk(born, used, flags, taken) && b !in next && (forall i | i in taken :: i < |born| * 32)
    requires forall e {:trigger LinkOk(born, used, next, e)} | |born| - used <= e < |born| :: LinkOk(born, used, next, e)
    ensures FlagsOk(born + [b], used + 1, flags[b := Full()], taken)
  {
    var born', flags' := born + [b], flags[b := Full()];
    forall e | |born'| - (used + 1) <= e < |born'|
      ensures born'[e] in flags' && |flags'[born'[e]]| == 32
      ensures forall k | 0 <= k < 32 :: FlagOk(flags'[born'[e]], e, k, taken)
    {
      if e < |born| {
        assert born'[e] == born[e] && LinkOk(born, used, next, e);
        forall k | 0 <= k < 32 ensures FlagOk(flags'[born'[e]], e, k, taken) {
          assert FlagOk(flags[born[e]], e, k, taken);
        }
      }
    }
  }

  lemma TakeSafe(s: State, c: Choice)
    requires Inv(s) && s.producer.Take?
    ensures Safe(s, Produce(c)) && (s.tailBlock.To? ==> s.tailBlock.block in s.next)
  {
    if s.born != [] { Ahead(s); }
  }

  lemma LinkedFlags(s: State, b: nat)
    requires Inv(s) && s.producer.Take? && b !in s.next
    ensures FlagsOk(s.born + [b], s.used + 1, s.flags[b := Full()], s.taken)
  {
    forall i | i in s.taken ensures i < |s.born| * 32 {
      assert s.taken[i] == s.log[i];
    }
    TakeFlags(s.born, s.used, s.flags, s.taken, b, s.next);
  }

  lemma LinkedCurrent(s: State, s': State)
    requires CurrentOk(s) && s.producer.Take? && s'.producer.Index? && s'.headers == s.headers && s'.size == s.size && s'.slot == s.slot
    requires s'.used == s.used + 1 && |s'.born| == |s.born| + 1
    ensures CurrentOk(s')
  {
  }

  lemma LinkedCells(s: State, s': State, b: nat)
    requires Inv(s) && Untouched(s, s') && s'.used == s.used + 1 && s'.born == s.born + [b] && s'.producer.Index?
    ensures CellsOk(s')
  {
    forall i | 0 <= i < s.tail && i !in s.taken ensures |s.born| - s.used <= i / 32 {
      assert CellOk(s.born, s.used, s.cells, s.log, i);
    }
    CellsStay(s, b, s.used + 1);
  }

  lemma Linked(s: State, s': State, b: nat)
    requires Inv(s) && s.producer.Take? && b !in s.next && (s.tailBlock.To? ==> s.tailBlock.block in s.next)
    requires s'.next == if s.tailBlock.To? then s.next[b := s.next[s.tailBlock.block]][s.tailBlock.block := b] else s.next[b := b]
    requires s'.flags == s.flags[b := Full()] && s'.tailBlock == To(b) && s'.used == s.used + 1 && s'.born == s.born + [b]
    requires Untouched(s, s') && s'.producer.Index?
    ensures Inv(s')
  {
    TakeRing(s.born, s.used, s.tailBlock, s.next, b, s'.next);
    LinkedFlags(s, b);
    BlockAdded(s, b);
    LinkedCurrent(s, s');
    LinkedCells(s, s', b);
  }

  /** The step fieldwise. */
  lemma TakeMoves(s: State, c: Choice)
    requires s.producer.Take? && c.memory && Safe(s, Produce(c))
    ensures var s', b := Move(s, Produce(c)), c.block;
            && s'.next == (if s.tailBlock.To? then s.next[b := s.next[s.tailBlock.block]][s.tailBlock.block := b] else s.next[b := b])
            && s'.flags == s.flags[b := Full()] && s'.tailBlock == To(b) && s'.used == s.used + 1 && s'.born == s.born + [b]
            && Untouched(s, s') && s'.producer.Index?
  {
  }

  lemma Took(s: State, c: Choice)
    requires Inv(s) && Enabled(s, Produce(c)) && s.producer.Take? && c.memory
    ensures Safe(s, Produce(c)) && Inv(Move(s, Produce(c)))
  {
    TakeSafe(s, c);
    TakeMoves(s, c);
    Linked(s, Move(s, Produce(c)), c.block);
  }

  lemma TakeKeeps(s: State, c: Choice)
    requires Inv(s) && Enabled(s, Produce(c)) && s.producer.Take?
    ensures Safe(s, Produce(c)) && Inv(Move(s, Produce(c)))
  {
    if c.memory {
      Took(s, c);
    } else {
      TakeSafe(s, c);
      StandsStill(s, Ready);
    }
  }

  lemma HeaderIndexed(born: seq<nat>, h: Header, h': Header)
    requires HeaderOk(born, h) && h.filled + 1 == |born| && h.origin <= h.filled
    requires h' == h.(entries := h.entries[SlotOf(h, h.filled) := Entry(h.filled * 32, born[h.filled])], filled := h.filled + 1)
    ensures HeaderOk(born, h')
  {
    forall e | Oldest(h') <= e < h'.filled ensures EntryOk(born, h', e) {
      if e < h.filled {
        assert EntryOk(born, h, e);
        ModDiffer(e - h.origin, h.filled - h.origin, h.size);
      }
    }
  }

  /** A consumer's index is undone, so its block is in the ring and its entry is not overwritten. */
  lemma Pinned(s: State, t: nat)
    requires Inv(s) && t in s.consumers && !s.consumers[t].Out?
    ensures CellOk(s.born, s.used, s.cells, s.log, s.consumers[t].i)
    ensures s.consumers[t].i < s.tail && s.consumers[t].i !in s.taken
  {
    assert Holds(s.who, s.taken, t, s.consumers[t]);
    assert CellOk(s.born, s.used, s.cells, s.log, s.consumers[t].i);
  }

  lemma IndexedReach(s: State, s': State, t: nat)
    requires Inv(s) && s.producer.Index? && s.headers != [] && t in s.consumers && |s'.headers| == |s.headers|
    requires var h := |s.headers| - 1;
             && s'.headers == s.headers[h := s'.headers[h]] && s'.headers[h].filled == s.headers[h].filled + 1
             && s'.headers[h].origin == s.headers[h].origin && s'.headers[h].size == s.headers[h].size
             && s'.headers[h].shown == s.headers[h].shown
    ensures ConsumerOk(s.born, s'.headers, s.log, s.consumers[t])
  {
    assert ConsumerOk(s.born, s.headers, s.log, s.consumers[t]);
    if !s.consumers[t].Out? { Pinned(s, t); }
  }

  lemma IndexKeeps(s: State, c: Choice)
    requires Inv(s) && s.producer.Index?
    ensures Safe(s, Produce(c)) && Inv(Move(s, Produce(c)))
  {
    var s', h := Move(s, Produce(c)), |s.headers| - 1;
    HeaderIndexed(s.born, s.headers[h], s'.headers[h]);
    forall t | t in s'.consumers ensures ConsumerOk(s'.born, s'.headers, s'.log, s'.consumers[t]) {
      IndexedReach(s, s', t);
    }
  }

  lemma HeaderShown(born: seq<nat>, h: Header, h': Header)
    requires HeaderOk(born, h) && h.filled == |born| > 0 && h.origin < h.filled
    requires h' == h.(front := SlotOf(h, h.filled - 1), shown := |born| - 1)
    ensures HeaderOk(born, h')
  {
    forall e | Oldest(h') <= e < h'.filled ensures EntryOk(born, h', e) {
      assert EntryOk(born, h, e);
    }
  }

  lemma ShownReach(s: State, headers: seq<Header>, t: nat)
    requires Inv(s) && s.headers != [] && t in s.consumers
    requires var h := |s.headers| - 1;
             |headers| == |s.headers| && headers == s.headers[h := headers[h]]
             && headers[h] == s.headers[h].(front := headers[h].front, shown := headers[h].shown) && s.headers[h].shown <= headers[h].shown
             && headers[h].shown < headers[h].filled
    ensures ConsumerOk(s.born, headers, s.log, s.consumers[t])
  {
    assert ConsumerOk(s.born, s.headers, s.log, s.consumers[t]);
  }

  /** Publishing the entry, fieldwise. */
  ghost predicate FrontStep(s: State, s': State) {
    && s.headers != [] && 0 < s.size && s'.slot == (s.slot + 1) % s.size && s'.producer.Write?
    && (var h := |s.headers| - 1; s'.headers == s.headers[h := s.headers[h].(front := s.slot, shown := |s.born| - 1)])
    && s'.born == s.born && s'.used == s.used && s'.tailBlock == s.tailBlock && s'.next == s.next && s'.flags == s.flags
    && s'.cells == s.cells && s'.tail == s.tail && s'.head == s.head && s'.size == s.size && s'.log == s.log
    && s'.consumers == s.consumers && s'.taken == s.taken && s'.who == s.who
  }

  lemma FrontMoves(s: State, c: Choice)
    requires s.producer.Front? && Safe(s, Produce(c))
    ensures FrontStep(s, Move(s, Produce(c)))
  {
  }

  lemma FrontCurrent(s: State, s': State)
    requires CurrentOk(s) && s.producer.Front? && FrontStep(s, s')
    ensures CurrentOk(s')
  {
    var h, h' := s.headers[|s.headers| - 1], s'.headers[|s.headers| - 1];
    SlotBack(h, h.filled - 1, -1);
    assert SlotOf(h', h'.filled) == SlotOf(h, h.filled) == s'.slot;
  }

  lemma Fronted(s: State, s': State)
    requires Inv(s) && s.producer.Front? && FrontStep(s, s')
    ensures Inv(s')
  {
    var h := |s.headers| - 1;
    FrontCurrent(s, s');
    HeaderShown(s.born, s.headers[h], s'.headers[h]);
    forall t | t in s'.consumers ensures ConsumerOk(s'.born, s'.headers, s'.log, s'.consumers[t]) {
      ShownReach(s, s'.headers, t);
    }
  }

  lemma FrontKeeps(s: State, c: Choice)
    requires Inv(s) && s.producer.Front?
    ensures Safe(s, Produce(c)) && Inv(Move(s, Produce(c)))
  {
    FrontMoves(s, c);
    Fronted(s, Move(s, Produce(c)));
  }

  lemma OtherCell(s: State, i: nat)
    requires Inv(s) && s.producer.Write? && i < s.tail && i !in s.taken
    ensures CellOk(s.born, s.used, s.cells, s.log, i)
    ensures s.tailBlock.To? && (s.born[i / 32], i % 32) != (s.tailBlock.block, s.tail % 32)
  {
    assert CellOk(s.born, s.used, s.cells, s.log, i);
    assert s.tailBlock.block == s.born[|s.born| - 1] && s.tail / 32 == |s.born| - 1;
  }

  lemma WriteCells(s: State, c: Choice)
    requires Inv(s) && s.producer.Write? && Safe(s, Produce(c))
    ensures CellsOk(Move(s, Produce(c)))
  {
    var s' := Move(s, Produce(c));
    forall i | 0 <= i < s'.tail && i !in s'.taken ensures CellOk(s'.born, s'.used, s'.cells, s'.log, i) {
      OtherCell(s, i);
      CellKept(s, s.born, s.used, s'.cells, i);
    }
  }

  lemma WriteKeeps(s: State, c: Choice)
    requires Inv(s) && s.producer.Write?
    ensures Safe(s, Produce(c)) && Inv(Move(s, Produce(c)))
  {
    WriteCells(s, c);
  }

  lemma StoreKeeps(s: State, c: Choice)
    requires Inv(s) && s.producer.Store?
    ensures Safe(s, Produce(c)) && Inv(Move(s, Produce(c)))
  {
    var s' := Move(s, Produce(c));
    forall i | 0 <= i < s'.tail && i !in s'.taken ensures CellOk(s'.born, s'.used, s'.cells, s'.log, i) {
      if i < s.tail {
        assert CellOk(s.born, s.used, s.cells, s.log, i);
      }
    }
    forall t | t in s'.consumers ensures ConsumerOk(s'.born, s'.headers, s'.log, s'.consumers[t]) {
      ConsumerGrows(s.born, s.born, s.headers, s.headers, s.log, s'.log, s.consumers[t]);
    }
  }

  lemma ProducerKeeps(s: State, c: Choice)
    requires Inv(s) && Enabled(s, Produce(c))
    ensures Safe(s, Produce(c)) && Inv(Move(s, Produce(c)))
  {
    match s.producer
    case Ready => ReadyKeeps(s, c);
    case Scan(_, k) => if k < 32 { ScanKeeps(s, c); } else { ReuseKeeps(s, c); }
    case Grow(_) => GrowKeeps(s, c);
    case Take(_) => TakeKeeps(s, c);
    case Index(_) => IndexKeeps(s, c);
    case Front(_) => FrontKeeps(s, c);
    case Write(_) => WriteKeeps(s, c);
    case Store(_) => StoreKeeps(s, c);
  }

  // ----- the consumers' steps -----

  /** Only consumer `t` moves on, with the same index. */
  lemma ConsumerMoves(s: State, t: nat, c: Consumer)
    requires Inv(s) && t in s.consumers && !s.consumers[t].Out? && !c.Out? && c.i == s.consumers[t].i
    requires ConsumerOk(s.born, s.headers, s.log, c)
    ensures Inv(s.(consumers := s.consumers[t := c]))
  {
    var s' := s.(consumers := s.consumers[t := c]);
    forall i | 0 <= i < s.head && i !in s.taken ensures Held(s'.who, s'.consumers, i) {
      assert Held(s.who, s.consumers, i);
    }
    forall u | u in s'.consumers
      ensures Holds(s'.who, s'.taken, u, s'.consumers[u])
      ensures ConsumerOk(s'.born, s'.headers, s'.log, s'.consumers[u])
    {
      assert Holds(s.who, s.taken, u, s.consumers[u]);
      assert u != t ==> ConsumerOk(s.born, s.headers, s.log, s.consumers[u]);
    }
  }

  lemma DrawHold(s: State, t: nat)
    requires Inv(s) && Enabled(s, Consume(t)) && s.consumers[t].Out?
    ensures HoldOk(Move(s, Consume(t)))
  {
    var s' := Move(s, Consume(t));
    forall i | 0 <= i < s'.head && i !in s'.taken ensures Held(s'.who, s'.consumers, i) {
      assert i < s.head ==> Held(s.who, s.consumers, i);
    }
    forall u | u in s'.consumers ensures Holds(s'.who, s'.taken, u, s'.consumers[u]) {
      assert Holds(s.who, s.taken, u, s.consumers[u]);
    }
  }

  lemma DrawKeeps(s: State, t: nat)
    requires Inv(s) && Enabled(s, Consume(t)) && s.consumers[t].Out?
    ensures Inv(Move(s, Consume(t)))
  {
    DrawHold(s, t);
    ConsumersKept(s, Move(s, Consume(t)), t);
  }

  lemma ConsumersKept(s: State, s': State, t: nat)
    requires Inv(s) && t in s.consumers && t in s'.consumers && s'.consumers == s.consumers[t := s'.consumers[t]]
    requires s'.born == s.born && s'.headers == s.headers && s'.log == s.log
    requires ConsumerOk(s'.born, s'.headers, s'.log, s'.consumers[t])
    ensures forall u {:trigger ConsumerOk(s'.born, s'.headers, s'.log, s'.consumers[u])} | u in s'.consumers ::
              ConsumerOk(s'.born, s'.headers, s'.log, s'.consumers[u])
  {
    forall u | u in s'.consumers ensures ConsumerOk(s'.born, s'.headers, s'.log, s'.consumers[u]) {
      assert u != t ==> ConsumerOk(s.born, s.headers, s.log, s.consumers[u]);
    }
  }

  lemma LoadKeeps(s: State, t: nat)
    requires Inv(s) && t in s.consumers && s.consumers[t].Drawn?
    ensures Safe(s, Consume(t)) && Inv(Move(s, Consume(t)))
  {
    Pinned(s, t);
    ConsumerMoves(s, t, AtHeader(s.consumers[t].i, |s.headers| - 1));
  }

  /** The slot of an entry that is still there. */
  lemma SlotThere(s: State, h: nat, e: int)
    requires Inv(s) && h < |s.headers| && Oldest(s.headers[h]) <= e < s.headers[h].filled && 0 <= e
    ensures SizeOk(s.headers[h].size) && s.headers[h].filled <= |s.born| && EntryOk(s.born, s.headers[h], e)
  {
    assert HeaderOk(s.born, s.headers[h]);
  }

  lemma WalkKeeps(s: State, t: nat)
    requires Inv(s) && t in s.consumers && (s.consumers[t].AtHeader? || s.consumers[t].AtFront?)
    ensures Safe(s, Consume(t)) && Inv(Move(s, Consume(t)))
  {
    var c := s.consumers[t];
    assert ConsumerOk(s.born, s.headers, s.log, c);
    if c.AtHeader? {
      assert HeaderOk(s.born, s.headers[c.h]);
    } else {
      SlotThere(s, c.h, c.g);
    }
    ConsumerMoves(s, t, Move(s, Consume(t)).consumers[t]);
  }

  /**
   * A consumer about to look its block up finds the block that holds its index, however much the producer
   * reused, added or reindexed since the consumer loaded the index, its front and the front's base.
   */
  lemma LookupFindsBlock(s: State, t: nat)
    requires Inv(s) && t in s.consumers && s.consumers[t].AtBase?
    ensures Safe(s, Consume(t)) && s.consumers[t].i / 32 < |s.born|
    ensures Move(s, Consume(t)).consumers[t] == AtBlock(s.consumers[t].i, s.born[s.consumers[t].i / 32])
  {
    var c := s.consumers[t];
    assert ConsumerOk(s.born, s.headers, s.log, c);
    SlotThere(s, c.h, c.i / 32);
    LookupFinds(s.headers[c.h], c.i, c.g);
  }

  lemma LookupKeeps(s: State, t: nat)
    requires Inv(s) && t in s.consumers && s.consumers[t].AtBase?
    ensures Safe(s, Consume(t)) && Inv(Move(s, Consume(t)))
  {
    LookupFindsBlock(s, t);
    ConsumerMoves(s, t, Move(s, Consume(t)).consumers[t]);
  }

  lemma FetchKeeps(s: State, t: nat)
    requires Inv(s) && t in s.consumers && s.consumers[t].AtBlock?
    ensures Safe(s, Consume(t)) && Inv(Move(s, Consume(t)))
  {
    Pinned(s, t);
    assert ConsumerOk(s.born, s.headers, s.log, s.consumers[t]);
    ConsumerMoves(s, t, Move(s, Consume(t)).consumers[t]);
  }

  lemma EmptiedFlags(s: State, i: nat, v: int)
    requires Inv(s) && CellOk(s.born, s.used, s.cells, s.log, i)
    ensures var b := s.born[i / 32];
            && b in s.flags && |s.flags[b]| == 32
            && FlagsOk(s.born, s.used, s.flags[b := s.flags[b][31 - i % 32 := true]], s.taken[i := v])
  {
    var n, b := i / 32, s.born[i / 32];
    var flags', taken' := s.flags[b := s.flags[b][31 - i % 32 := true]], s.taken[i := v];
    forall e | |s.born| - s.used <= e < |s.born|
      ensures s.born[e] in flags' && |flags'[s.born[e]]| == 32
      ensures forall k | 0 <= k < 32 :: FlagOk(flags'[s.born[e]], e, k, taken')
    {
      forall k | 0 <= k < 32 ensures FlagOk(flags'[s.born[e]], e, k, taken') {
        assert FlagOk(s.flags[s.born[e]], e, k, s.taken);
        assert s.born[e] == b ==> e == n;
      }
    }
  }

  /** The flag that set_empty sets was not set, as the source asserts. */
  lemma FlagWasClear(s: State, t: nat)
    requires Inv(s) && t in s.consumers && s.consumers[t].Read?
    ensures Safe(s, Consume(t)) && !s.flags[s.consumers[t].block][31 - s.consumers[t].i % 32]
  {
    Pinned(s, t);
    var c := s.consumers[t];
    assert ConsumerOk(s.born, s.headers, s.log, c);
    assert FlagOk(s.flags[s.born[c.i / 32]], c.i / 32, c.i % 32, s.taken);
  }

  lemma DoneFlags(s: State, t: nat)
    requires Inv(s) && t in s.consumers && s.consumers[t].Read? && Safe(s, Consume(t))
    ensures var s' := Move(s, Consume(t)); FlagsOk(s'.born, s'.used, s'.flags, s'.taken)
  {
    Pinned(s, t);
    var c := s.consumers[t];
    assert ConsumerOk(s.born, s.headers, s.log, c);
    EmptiedFlags(s, c.i, c.value);
  }

  lemma DoneCells(s: State, t: nat)
    requires Inv(s) && t in s.consumers && s.consumers[t].Read? && Safe(s, Consume(t))
    ensures CellsOk(Move(s, Consume(t)))
  {
    var s' := Move(s, Consume(t));
    forall i | 0 <= i < s'.tail && i !in s'.taken ensures CellOk(s'.born, s'.used, s'.cells, s'.log, i) {
      assert CellOk(s.born, s.used, s.cells, s.log, i);
    }
  }

  lemma DoneHold(s: State, t: nat)
    requires Inv(s) && t in s.consumers && s.consumers[t].Read? && Safe(s, Consume(t))
    ensures HoldOk(Move(s, Consume(t)))
  {
    var s' := Move(s, Consume(t));
    assert ConsumerOk(s.born, s.headers, s.log, s.consumers[t]);
    assert Holds(s.who, s.taken, t, s.consumers[t]);
    forall i | 0 <= i < s'.head && i !in s'.taken ensures Held(s'.who, s'.consumers, i) {
      assert Held(s.who, s.consumers, i);
    }
    forall u | u in s'.consumers ensures Holds(s'.who, s'.taken, u, s'.consumers[u]) {
      assert Holds(s.who, s.taken, u, s.consumers[u]);
    }
    forall i | i in s'.taken ensures i < s'.head && s'.taken[i] == s'.log[i] {
      assert i in s.taken || i == s.consumers[t].i;
    }
  }

  lemma DoneKeeps(s: State, t: nat)
    requires Inv(s) && t in s.consumers && s.consumers[t].Read?
    ensures Safe(s, Consume(t)) && Inv(Move(s, Consume(t)))
  {
    FlagWasClear(s, t);
    DoneFlags(s, t);
    DoneCells(s, t);
    DoneHold(s, t);
    ConsumersKept(s, Move(s, Consume(t)), t);
  }

  lemma ConsumerKeeps(s: State, t: nat)
    requires Inv(s) && Enabled(s, Consume(t))
    ensures Safe(s, Consume(t)) && Inv(Move(s, Consume(t)))
  {
    match s.consumers[t]
    case Out => DrawKeeps(s, t);
    case Drawn(_) => LoadKeeps(s, t);
    case AtHeader(_, _) => WalkKeeps(s, t);
    case AtFront(_, _, _, _) => WalkKeeps(s, t);
    case AtBase(_, _, _, _, _) => LookupKeeps(s, t);
    case AtBlock(_, _) => FetchKeeps(s, t);
    case Read(_, _, _) => DoneKeeps(s, t);
  }

  // ----- whole runs -----

  /** Nothing enqueued yet; the constructor may or may not have got an index. */
  ghost predicate Init(s: State) {
    && s.tail == s.head == s.used == s.slot == 0 && s.tailBlock == NoBlock && s.next == map[] && s.flags == map[]
    && s.born == [] && s.log == [] && s.taken == map[] && s.who == [] && s.producer == Ready && SizeOk(s.size)
    && (s.headers == [] || s.headers == [Header(s.size, 0xffff_ffff_ffff_ffff, map[], 0, 0, -1)])
    && forall t | t in s.consumers :: s.consumers[t].Out?
  }

  /** `s'` follows `s`. Where a step would read what is not there, anything may follow. */
  ghost predicate Next(s: State, step: Step, s': State) {
    Enabled(s, step) && (Safe(s, step) ==> s' == Move(s, step))
  }

  ghost predicate IsRun(run: seq<State>, steps: seq<Step>) {
    run != [] && |steps| == |run| - 1 && Init(run[0]) && forall i | 0 <= i < |steps| :: Next(run[i], steps[i], run[i+1])
  }

  lemma InitInv(s: State)
    requires Init(s)
    ensures Inv(s)
  {
  }

  /** Whatever the interleaving, no step reads what is not there, and every state satisfies the invariant. */
  lemma {:induction false} RunInv(run: seq<State>, steps: seq<Step>, n: nat)
    requires IsRun(run, steps) && n < |run|
    ensures Inv(run[n]) && (n < |steps| ==> Safe(run[n], steps[n]))
  {
    if n == 0 {
      InitInv(run[0]);
    } else {
      RunInv(run, steps, n - 1);
      assert Next(run[n-1], steps[n-1], run[n]);
      StepKeeps(run[n-1], steps[n-1]);
    }
    if n < |steps| {
      assert Next(run[n], steps[n], run[n+1]);
      StepKeeps(run[n], steps[n]);
    }
  }

  lemma StepKeeps(s: State, step: Step)
    requires Inv(s) && Enabled(s, step)
    ensures Safe(s, step) && Inv(Move(s, step))
  {
    match step
    case Produce(c) => ProducerKeeps(s, c);
    case Consume(t) => ConsumerKeeps(s, t);
  }

  /** The queue seen from outside: the elements published and not drawn, oldest first. */
  ghost function Contents(s: State): seq<int>
    requires s.head <= |s.log|
  {
    s.log[s.head..]
  }

  /**
   * Every step of every thread is a step of a first-in first-out queue: it adds the element being enqueued at
   * the back, or takes the front, or changes nothing.
   */
  lemma RefinesQueue(s: State, step: Step)
    requires Inv(s) && Enabled(s, step)
    ensures Safe(s, step) && s.head <= |s.log| && Move(s, step).head <= |Move(s, step).log|
    ensures var before, after := Contents(s), Contents(Move(s, step));
            if step.Produce? && s.producer.Store? then after == before + [s.producer.v]
            else if step.Consume? && s.consumers[step.t].Out? then
              before != [] && after == before[1..] && Move(s, step).consumers[step.t].i == s.head
            else after == before
  {
    StepKeeps(s, step);
    if step.Produce? {
      ProducerContents(s, step.c);
    } else {
      ConsumerContents(s, step.t);
    }
  }

  lemma ProducerContents(s: State, c: Choice)
    requires Safe(s, Produce(c)) && s.head <= |s.log|
    ensures var s' := Move(s, Produce(c));
            s'.head == s.head && s'.log == if s.producer.Store? then s.log + [s.producer.v] else s.log
  {
    match s.producer
    case Scan(_, _) =>
    case Grow(_) =>
    case Take(_) =>
    case _ =>
  }

  lemma ConsumerContents(s: State, t: nat)
    requires Safe(s, Consume(t))
    ensures var s' := Move(s, Consume(t));
            s'.log == s.log && s'.head == if s.consumers[t].Out? then s.head + 1 else s.head
  {
    match s.consumers[t]
    case Out =>
    case Drawn(_) =>
    case Read(_, _, _) =>
    case _ =>
  }

  /** What a consumer returns is the element that was at the front when it drew its index. */
  lemma ReturnsItsElement(run: seq<State>, steps: seq<Step>, n: nat, t: nat)
    requires IsRun(run, steps) && n < |run| && t in run[n].consumers && run[n].consumers[t].Read?
    ensures run[n].consumers[t].i < |run[n].log| && run[n].consumers[t].value == run[n].log[run[n].consumers[t].i]
  {
    RunInv(run, steps, n);
    assert ConsumerOk(run[n].born, run[n].headers, run[n].log, run[n].consumers[t]);
  }

  /** In every state of every run: the k-th dequeue, if it is over, gave the k-th element enqueued. */
  lemma KthDequeueIsKthEnqueue(run: seq<State>, steps: seq<Step>, n: nat, k: nat)
    requires IsRun(run, steps) && n < |run| && k < run[n].head
    ensures k < |run[n].log|
    ensures k in run[n].taken ==> run[n].taken[k] == run[n].log[k]
    ensures k !in run[n].taken ==>
              exists t | t in run[n].consumers :: !run[n].consumers[t].Out? && run[n].consumers[t].i == k
  {
    RunInv(run, steps, n);
    KthIsKept(run[n], k);
  }

  lemma KthIsKept(s: State, k: nat)
    requires Inv(s) && k < s.head
    ensures k < |s.log| && (k in s.taken ==> s.taken[k] == s.log[k])
    ensures k !in s.taken ==> exists t | t in s.consumers :: !s.consumers[t].Out? && s.consumers[t].i == k
  {
    if k !in s.taken {
      assert Held(s.who, s.consumers, k);
      assert s.who[k] in s.consumers;
    }
  }

  lemma HeadWithinLog(s: State)
    requires Inv(s)
    ensures s.head <= |s.log|
  {
  }
}
