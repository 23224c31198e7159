// Parsing undoes writing.
module JsonRoundTrip {
  import opened Utf8
  import opened JsonStrings
  import opened Json
  import N = JsonNumbers

  /** Keys in strictly increasing order: no key twice. */
  ghost predicate Sorted(members: seq<Member>) {
    forall i, j | 0 <= i < j < |members| :: KeyLess(members[i].key, members[j].key)
  }

  /**
   * The values that survive: UTF-8 strings and keys, keys short enough and in order, integers in the 64-bit
   * ranges and unsigned only where they must be, and finite reals that the stream library reads back from their
   * 17 digits.
   */
  ghost predicate Canonical(v: Value, f: Features) {
    match v
    case Null => true
    case Bool(_) => true
    case Int(n) => N.MIN_INT <= n <= N.MAX_INT
    case UInt(n) => N.MAX_INT < n <= N.MAX_UINT
    case Real(x) => x.Finite? && f.toDouble(N.RealText(x)) == Some(x)
    case Str(s) => IsBytes(s) && WellFormed(s)
    case Arr(items) => forall i | 0 <= i < |items| :: Canonical(items[i], f)
    case Obj(members) => Sorted(members) && forall i | 0 <= i < |members| :: KeyOk(members[i].key) && Canonical(members[i].value, f)
  }

  ghost predicate KeyOk(key: string) {
    IsBytes(key) && WellFormed(key) && |key| < 0x4000_0000
  }

  /** How many values are open at once while it is read. */
  function Depth(v: Value): nat {
    match v
    case Arr(items) => 1 + ItemsDepth(items, 0)
    case Obj(members) => 1 + MembersDepth(members, 0)
    case _ => 1
  }

  function Max(a: nat, b: nat): nat { if a < b then b else a }

  function ItemsDepth(items: seq<Value>, k: nat): nat
    requires k <= |items|
    decreases items, |items| - k
  {
    if k == |items| then 0 else Max(Depth(items[k]), ItemsDepth(items, k + 1))
  }

  function MembersDepth(members: seq<Member>, k: nat): nat
    requires k <= |members|
    decreases members, |members| - k
  {
    if k == |members| then 0 else Max(Depth(members[k].value), MembersDepth(members, k + 1))
  }

  lemma {:induction false} CanonicalPrintable(v: Value, f: Features)
    requires Canonical(v, f)
    ensures Printable(v)
  {
    match v
    case Arr(items) =>
      forall i | 0 <= i < |items| ensures Printable(items[i]) {
        CanonicalPrintable(items[i], f);
      }
    case Obj(members) =>
      forall i | 0 <= i < |members| ensures IsBytes(members[i].key) && Printable(members[i].value) {
        assert KeyOk(members[i].key);
        CanonicalPrintable(members[i].value, f);
      }
    case _ =>
  }

  ghost predicate AllCanonical(items: seq<Value>, f: Features) {
    PrintableItems(items) && forall i | 0 <= i < |items| :: Canonical(items[i], f)
  }

  ghost predicate AllMembers(members: seq<Member>, f: Features) {
    PrintableMembers(members) && forall i | 0 <= i < |members| :: KeyOk(members[i].key) && Canonical(members[i].value, f)
  }

  // ----- tokens -----

  lemma Punctuation(c: char, rest: string)
    requires c == '{' || c == '}' || c == '[' || c == ']' || c == ',' || c == ':'
    ensures ReadToken([c] + rest).rest == rest
    ensures ReadToken([c] + rest).kind == match c
              case '{' => ObjectBegin
              case '}' => ObjectEnd
              case '[' => ArrayBegin
              case ']' => ArrayEnd
              case ',' => Comma
              case _ => Colon
  {
    assert ([c] + rest)[1..] == rest;
  }

  lemma StringBack(s: string, rest: string)
    requires IsBytes(s) && WellFormed(s)
    ensures ReadToken(Quoted(s) + rest) == Token(StringToken, Quoted(s), rest)
    ensures StringValue(Quoted(s)) == Some(s)
  {
    var t := Quoted(s) + rest;
    QuotedRoundTrip(s, rest);
    assert t[..|Quoted(s)|] == Quoted(s) && t[|Quoted(s)|..] == rest;
    assert Quoted(s)[1..|Quoted(s)| - 1] == t[1..][..|Quoted(s)| - 2];
  }

  lemma NumberBack(s: string, rest: string)
    requires N.ScansBack(s, rest)
    ensures ReadToken(s + rest) == Token(NumberToken, s, rest)
  {
    var t := s + rest;
    assert t[0] == s[0] && (|s| > 1 ==> t[1] == s[1]);
    assert t[..|s|] == s && t[|s|..] == rest;
  }

  lemma WordBack(word: string, kind: Kind, rest: string)
    requires (word == "true" && kind == TrueToken) || (word == "false" && kind == FalseToken)
          || (word == "null" && kind == NullToken)
    ensures ReadToken(word + rest) == Token(kind, word, rest)
  {
    var t := word + rest;
    assert t[..|word|] == word && t[|word|..] == rest && t[0] == word[0];
  }

  /** The text of a value starts with neither a space nor a closing bracket. */
  lemma Front(v: Value)
    requires Printable(v)
    ensures Text(v) != "" && !IsSpace(Text(v)[0]) && Text(v)[0] != ']'
  {
    match v
    case Int(n) => N.IntegerScansBack(n, "");
    case UInt(n) => N.IntegerScansBack(n, "");
    case Real(x) => RealFront(x);
    case _ =>
  }

  lemma RealFront(x: N.Float)
    ensures N.RealText(x) != "" && (N.RealText(x)[0] == '-' || N.RealText(x)[0] == 'n' || N.IsDigit(N.RealText(x)[0]))
  {
    if x.Finite? { N.RealScansBack(x, ""); }
  }

  // ----- values -----

  ghost predicate Fits(depth: nat, level: nat, f: Features) {
    level + depth <= f.stackLimit + 1
  }

  /** The written value reads back, with `rest` left over, unless it is nested too deep: then the reader throws. */
  ghost predicate Reads(v: Value, rest: string, level: nat, f: Features)
    requires Printable(v)
  {
    ReadValue(Text(v) + rest, level, f) == if Fits(Depth(v), level, f) then Got(v, rest) else Thrown
  }

  /** `t` reads as the items of an array that ends before `rest`, at most `depth` deep. */
  ghost predicate ItemsReadTo(t: string, first: bool, items: seq<Value>, depth: nat, rest: string, level: nat, f: Features) {
    ReadItems(t, first, level, f) == if Fits(depth, level + 1, f) then Got(items, rest) else Thrown
  }

  /** The written items from number k on do. */
  ghost predicate ItemsRead(items: seq<Value>, k: nat, rest: string, level: nat, f: Features)
    requires AllCanonical(items, f) && k <= |items|
  {
    ItemsReadTo(ItemsFrom(items, k) + "]" + rest, k == 0, items[k..], ItemsDepth(items, k), rest, level, f)
  }

  /** `t` reads as the members that complete `done` to `all`. */
  ghost predicate MembersReadTo(t: string, name: string, done: seq<Member>, all: seq<Member>, depth: nat, rest: string,
                                level: nat, f: Features) {
    ReadMembers(t, name, done, level, f) == if Fits(depth, level + 1, f) then Got(all, rest) else Thrown
  }

  /** The written members from number k on do. */
  ghost predicate MembersRead(all: seq<Member>, k: nat, name: string, rest: string, level: nat, f: Features)
    requires AllMembers(all, f) && k <= |all|
  {
    MembersReadTo(MembersFrom(all, k) + "}" + rest, name, all[..k], all, MembersDepth(all, k), rest, level, f)
  }

  lemma LeafBack(v: Value, rest: string, level: nat, f: Features)
    requires Canonical(v, f) && Printable(v) && N.Stops(rest) && !v.Arr? && !v.Obj? && level <= f.stackLimit
    ensures ReadValue(Text(v) + rest, level, f) == Got(v, rest)
  {
    match v
    case Null => WordBack("null", NullToken, rest);
    case Bool(b) => if b { WordBack("true", TrueToken, rest); } else { WordBack("false", FalseToken, rest); }
    case Int(n) => IntegerBack(v, n, rest, level, f);
    case UInt(n) => IntegerBack(v, n, rest, level, f);
    case Real(x) => RealBack(x, rest, level, f);
    case Str(s) => StringBack(s, rest);
    case _ =>
  }

  lemma NumberRead(s: string, rest: string, level: nat, f: Features)
    requires N.ScansBack(s, rest) && level <= f.stackLimit
    ensures ReadValue(s + rest, level, f) == NumberValue(s, rest, f)
  {
    NumberBack(s, rest);
  }

  lemma IntegerBack(v: Value, n: int, rest: string, level: nat, f: Features)
    requires Canonical(v, f) && Printable(v) && (v == Int(n) || v == UInt(n)) && N.Stops(rest) && level <= f.stackLimit
    ensures Reads(v, rest, level, f)
  {
    N.IntegerScansBack(n, rest);
    NumberRead(N.IntText(n), rest, level, f);
    N.IntegerRoundTrip(n);
  }

  lemma RealBack(x: N.Float, rest: string, level: nat, f: Features)
    requires Canonical(Real(x), f) && N.Stops(rest) && level <= f.stackLimit
    ensures Reads(Real(x), rest, level, f)
  {
    N.RealScansBack(x, rest);
    NumberRead(N.RealText(x), rest, level, f);
  }

  lemma ArrayOpens(items: seq<Value>, rest: string, level: nat, f: Features)
    requires Printable(Arr(items)) && PrintableItems(items) && level <= f.stackLimit
    ensures ReadValue(Text(Arr(items)) + rest, level, f)
         == match ReadItems(ItemsFrom(items, 0) + "]" + rest, true, level, f)
            case Got(read, last) => Got(Arr(read), last)
            case Bad => Bad
            case Thrown => Thrown
  {
    var t := ItemsFrom(items, 0) + "]" + rest;
    assert Text(Arr(items)) + rest == ['['] + t;
    Punctuation('[', t);
  }

  lemma ObjectOpens(members: seq<Member>, rest: string, level: nat, f: Features)
    requires Printable(Obj(members)) && PrintableMembers(members) && level <= f.stackLimit
    ensures ReadValue(Text(Obj(members)) + rest, level, f)
         == match ReadMembers(MembersFrom(members, 0) + "}" + rest, "", [], level, f)
            case Got(read, last) => Got(Obj(read), last)
            case Bad => Bad
            case Thrown => Thrown
  {
    var t := MembersFrom(members, 0) + "}" + rest;
    assert Text(Obj(members)) + rest == ['{'] + t;
    Punctuation('{', t);
  }

  /**
   * A written value reads back as itself, with what follows left over, exactly if it is nested no deeper than
   * the stack limit allows; otherwise the reader throws.
   */
  lemma {:induction false} ValueBack(v: Value, rest: string, level: nat, f: Features)
    requires Canonical(v, f) && Printable(v) && N.Stops(rest)
    ensures Reads(v, rest, level, f)
    decreases v
  {
    if level <= f.stackLimit {
      match v
      case Arr(items) => ArrayBack(items, rest, level, f);
      case Obj(members) => ObjectBack(members, rest, level, f);
      case _ => LeafBack(v, rest, level, f);
    }
  }

  lemma {:induction false} ArrayBack(items: seq<Value>, rest: string, level: nat, f: Features)
    requires Canonical(Arr(items), f) && Printable(Arr(items)) && level <= f.stackLimit
    ensures Reads(Arr(items), rest, level, f)
    decreases items, |items| + 1
  {
    if items == [] {
      EmptyItems(items, rest, level, f);
    } else {
      ItemsBack(items, 0, rest, level, f);
    }
    assert items[0..] == items;
    ArrayOpens(items, rest, level, f);
  }

  lemma {:induction false} ObjectBack(members: seq<Member>, rest: string, level: nat, f: Features)
    requires Canonical(Obj(members), f) && Printable(Obj(members)) && level <= f.stackLimit
    ensures Reads(Obj(members), rest, level, f)
    decreases members, |members| + 1
  {
    if members == [] {
      EmptyMembers(members, rest, level, f);
    } else {
      MembersBack(members, 0, "", rest, level, f);
    }
    assert members[..0] == [];
    ObjectOpens(members, rest, level, f);
  }

  lemma {:induction false} ItemsBack(items: seq<Value>, k: nat, rest: string, level: nat, f: Features)
    requires AllCanonical(items, f) && k < |items|
    ensures ItemsRead(items, k, rest, level, f)
    decreases items, |items| - k, 1
  {
    var t, more, tail := ItemFirst(items, k, rest, level, f);
    OthersBack(items, k + 1, tail, rest, level, f);
    ThisItem(items, k, t, more, tail, rest, level, f);
  }

  lemma {:induction false} OthersBack(items: seq<Value>, k: nat, tail: string, rest: string, level: nat, f: Features)
    requires 0 < k <= |items| && AllCanonical(items, f) && tail == ItemsFrom(items, k) + "]" + rest
    ensures Others(k == |items|, tail, items[k..], ItemsDepth(items, k), rest, level, f)
    decreases items, |items| - k, 2
  {
    if k < |items| {
      ItemsBack(items, k, rest, level, f);
    }
  }

  lemma {:induction false} ItemFirst(items: seq<Value>, k: nat, rest: string, level: nat, f: Features)
    returns (t: string, more: string, tail: string)
    requires k < |items| && AllCanonical(items, f)
    ensures t == ItemsFrom(items, k) + "]" + rest && tail == ItemsFrom(items, k + 1) + "]" + rest
    ensures ItemStep(t, more, items[k], k == 0, level, f) && Closes(more, k + 1 == |items|, ArrayEnd, rest, tail)
    decreases items, |items| - k, 0
  {
    t, more, tail := ItemParts(items, k, rest);
    ValueBack(items[k], more, level + 1, f);
    OneItem(items[k], more, k == 0, level, f);
  }

  /** The text from item number k on: the item, and `more`, which ends the array or goes on with `tail`. */
  lemma ItemParts(items: seq<Value>, k: nat, rest: string) returns (t: string, more: string, tail: string)
    requires k < |items| && PrintableItems(items)
    ensures t == ItemsFrom(items, k) + "]" + rest && tail == ItemsFrom(items, k + 1) + "]" + rest
    ensures t == Text(items[k]) + more && N.Stops(more) && Closes(more, k + 1 == |items|, ArrayEnd, rest, tail)
  {
    t, more, tail := ItemsFrom(items, k) + "]" + rest, MoreItems(items, k + 1) + "]" + rest, ItemsFrom(items, k + 1) + "]" + rest;
    Regroup(Text(items[k]), MoreItems(items, k + 1), "]", rest);
    AfterItem(items, k + 1, rest);
  }

  lemma EmptyItems(items: seq<Value>, rest: string, level: nat, f: Features)
    requires items == [] && level <= f.stackLimit
    ensures ItemsRead(items, 0, rest, level, f)
  {
    assert items[0..] == [];
    NoItem(rest, level, f);
  }

  lemma NoItem(rest: string, level: nat, f: Features)
    requires level <= f.stackLimit
    ensures ItemsReadTo("" + "]" + rest, true, [], 0, rest, level, f)
  {
    var t := "" + "]" + rest;
    assert t == [']'] + rest && t[1..] == rest;
  }

  lemma CommaFirst(a: string, close: string, rest: string)
    ensures ("," + a) + close + rest == [','] + (a + close + rest)
  {
  }

  /** `more` starts with the closing bracket, and `rest` is left, or with a comma, and `tail` is left. */
  ghost predicate Closes(more: string, last: bool, close: Kind, rest: string, tail: string) {
    ReadToken(more).kind == (if last then close else Comma) && ReadToken(more).rest == if last then rest else tail
  }

  /** What follows an item: the end of the array, or a comma and the other items. */
  lemma AfterItem(items: seq<Value>, k: nat, rest: string)
    requires PrintableItems(items) && k <= |items|
    ensures N.Stops(MoreItems(items, k) + "]" + rest)
    ensures Closes(MoreItems(items, k) + "]" + rest, k == |items|, ArrayEnd, rest, ItemsFrom(items, k) + "]" + rest)
  {
    if k == |items| {
      assert MoreItems(items, k) + "]" + rest == [']'] + rest;
      Punctuation(']', rest);
    } else {
      CommaFirst(ItemsFrom(items, k), "]", rest);
      Punctuation(',', ItemsFrom(items, k) + "]" + rest);
    }
  }

  /** One round of the loop of readArray: `t` starts with the text of `v`, and `more` follows it. */
  ghost predicate ItemStep(t: string, more: string, v: Value, first: bool, level: nat, f: Features) {
    ReadItems(t, first, level, f)
    == if !Fits(Depth(v), level + 1, f) then Thrown
       else if ReadToken(more).kind == ArrayEnd then Got([v], ReadToken(more).rest)
       else if ReadToken(more).kind != Comma then Bad
       else match ReadItems(ReadToken(more).rest, false, level, f)
         case Got(items, last) => Got([v] + items, last)
         case Bad => Bad
         case Thrown => Thrown
  }

  lemma OneItem(v: Value, more: string, first: bool, level: nat, f: Features)
    requires Printable(v) && Reads(v, more, level + 1, f)
    ensures ItemStep(Text(v) + more, more, v, first, level, f)
  {
    Front(v);
  }

  /** The others, after an item: none, or `tail` reads as them. */
  ghost predicate Others(last: bool, tail: string, others: seq<Value>, depth: nat, rest: string, level: nat, f: Features) {
    if last then others == [] && depth == 0 else ItemsReadTo(tail, false, others, depth, rest, level, f)
  }

  /** An item and the others make the array. */
  lemma JoinItems(t: string, more: string, v: Value, first: bool, others: seq<Value>, last: bool, depth: nat,
                  tail: string, rest: string, level: nat, f: Features)
    requires ItemStep(t, more, v, first, level, f)
    requires Closes(more, last, ArrayEnd, rest, tail) && Others(last, tail, others, depth, rest, level, f)
    ensures ItemsReadTo(t, first, [v] + others, Max(Depth(v), depth), rest, level, f)
  {
    assert last ==> [v] + others == [v];
  }

  /** Item number k reads back if its value does and the others do. */
  lemma ThisItem(items: seq<Value>, k: nat, t: string, more: string, tail: string, rest: string, level: nat, f: Features)
    requires k < |items| && AllCanonical(items, f) && t == ItemsFrom(items, k) + "]" + rest
    requires ItemStep(t, more, items[k], k == 0, level, f) && Closes(more, k + 1 == |items|, ArrayEnd, rest, tail)
    requires Others(k + 1 == |items|, tail, items[k+1..], ItemsDepth(items, k + 1), rest, level, f)
    ensures ItemsRead(items, k, rest, level, f)
  {
    JoinItems(t, more, items[k], k == 0, items[k+1..], k + 1 == |items|, ItemsDepth(items, k + 1), tail, rest, level, f);
    SplitItems(items, k);
  }

  lemma SplitItems(items: seq<Value>, k: nat)
    requires k < |items|
    ensures items[k..] == [items[k]] + items[k+1..]
  {
  }

  lemma PutAtEnd(done: seq<Member>, m: Member)
    requires done == [] || KeyLess(done[|done|-1].key, m.key)
    ensures Put(done, m.key, m.value) == done + [m]
  {
  }

  /** One round of the loop of readObject: `t` starts with the text of `m`, and `more` follows it. */
  ghost predicate MemberStep(t: string, more: string, m: Member, name: string, done: seq<Member>, level: nat, f: Features) {
    ReadMembers(t, name, done, level, f)
    == if !Fits(Depth(m.value), level + 1, f) then Thrown
       else if ReadToken(more).kind == ObjectEnd then Got(Put(done, m.key, m.value), ReadToken(more).rest)
       else if ReadToken(more).kind != Comma then Bad
       else ReadMembers(ReadToken(more).rest, m.key, Put(done, m.key, m.value), level, f)
  }

  lemma OneMember(m: Member, more: string, name: string, done: seq<Member>, level: nat, f: Features)
    requires KeyOk(m.key) && IsBytes(m.key) && Printable(m.value) && Reads(m.value, more, level + 1, f)
    ensures MemberStep(Pair(m) + more, more, m, name, done, level, f)
  {
    var value := Text(m.value) + more;
    assert Pair(m) + more == Quoted(m.key) + ([':'] + value);
    StringBack(m.key, [':'] + value);
    Punctuation(':', value);
  }

  /** A member and the others make the object. */
  lemma JoinMembers(t: string, more: string, m: Member, name: string, done: seq<Member>, done': seq<Member>, all: seq<Member>,
                    last: bool, depth: nat, tail: string, rest: string, level: nat, f: Features)
    requires MemberStep(t, more, m, name, done, level, f) && Put(done, m.key, m.value) == done'
    requires Closes(more, last, ObjectEnd, rest, tail)
    requires if last then done' == all && depth == 0 else MembersReadTo(tail, m.key, done', all, depth, rest, level, f)
    ensures MembersReadTo(t, name, done, all, Max(Depth(m.value), depth), rest, level, f)
  {
  }

  lemma {:induction false} MembersBack(all: seq<Member>, k: nat, name: string, rest: string, level: nat, f: Features)
    requires AllMembers(all, f) && Sorted(all) && k < |all|
    ensures MembersRead(all, k, name, rest, level, f)
    decreases all, |all| - k, 1
  {
    if k + 1 < |all| {
      MembersBack(all, k + 1, all[k].key, rest, level, f);
    }
    MemberValueBack(all, k, rest, level, f);
    ThisMember(all, k, name, rest, level, f);
  }

  lemma {:induction false} MemberValueBack(all: seq<Member>, k: nat, rest: string, level: nat, f: Features)
    requires AllMembers(all, f) && k < |all|
    ensures Reads(all[k].value, MoreMembers(all, k + 1) + "}" + rest, level + 1, f)
    decreases all, |all| - k, 0
  {
    AfterMember(all, k + 1, rest);
    ValueBack(all[k].value, MoreMembers(all, k + 1) + "}" + rest, level + 1, f);
  }

  lemma EmptyMembers(all: seq<Member>, rest: string, level: nat, f: Features)
    requires all == [] && level <= f.stackLimit
    ensures MembersRead(all, 0, "", rest, level, f)
  {
    assert all[..0] == all;
    NoMember(all, rest, level, f);
  }

  lemma NoMember(all: seq<Member>, rest: string, level: nat, f: Features)
    requires level <= f.stackLimit
    ensures MembersReadTo("" + "}" + rest, "", all, all, 0, rest, level, f)
  {
    assert "" + "}" + rest == ['}'] + rest;
    Punctuation('}', rest);
  }

  /** Member number k reads back if its value does and the others do. */
  lemma ThisMember(all: seq<Member>, k: nat, name: string, rest: string, level: nat, f: Features)
    requires k < |all| && AllMembers(all, f) && Sorted(all)
    requires Reads(all[k].value, MoreMembers(all, k + 1) + "}" + rest, level + 1, f)
    requires k + 1 < |all| ==> MembersRead(all, k + 1, all[k].key, rest, level, f)
    ensures MembersRead(all, k, name, rest, level, f)
  {
    var m, more, tail := all[k], MoreMembers(all, k + 1) + "}" + rest, MembersFrom(all, k + 1) + "}" + rest;
    MemberFirst(all, k, rest, name, level, f);
    AfterMember(all, k + 1, rest);
    PutNext(all, k);
    JoinMembers(MembersFrom(all, k) + "}" + rest, more, m, name, all[..k], all[..k+1], all, k + 1 == |all|, MembersDepth(all, k + 1), tail, rest,
                level, f);
  }

  lemma MemberFirst(all: seq<Member>, k: nat, rest: string, name: string, level: nat, f: Features)
    requires k < |all| && AllMembers(all, f) && Reads(all[k].value, MoreMembers(all, k + 1) + "}" + rest, level + 1, f)
    ensures MemberStep(MembersFrom(all, k) + "}" + rest, MoreMembers(all, k + 1) + "}" + rest, all[k], name, all[..k], level, f)
  {
    MemberText(all, k, rest);
    OneMember(all[k], MoreMembers(all, k + 1) + "}" + rest, name, all[..k], level, f);
  }

  lemma MemberText(all: seq<Member>, k: nat, rest: string)
    requires k < |all| && PrintableMembers(all)
    ensures MembersFrom(all, k) + "}" + rest == Pair(all[k]) + (MoreMembers(all, k + 1) + "}" + rest)
  {
    Regroup(Pair(all[k]), MoreMembers(all, k + 1), "}", rest);
  }

  lemma Regroup(a: string, b: string, close: string, rest: string)
    ensures (a + b) + close + rest == a + (b + close + rest)
  {
  }

  lemma PutNext(all: seq<Member>, k: nat)
    requires k < |all| && Sorted(all)
    ensures Put(all[..k], all[k].key, all[k].value) == all[..k+1]
    ensures k + 1 == |all| ==> all[..k+1] == all
  {
    assert k > 0 ==> all[..k][k-1] == all[k-1];
    assert all[..k] + [all[k]] == all[..k+1];
    PutAtEnd(all[..k], all[k]);
  }

  /** What follows a member: the end of the object, or a comma and the other members. */
  lemma AfterMember(members: seq<Member>, k: nat, rest: string)
    requires PrintableMembers(members) && k <= |members|
    ensures N.Stops(MoreMembers(members, k) + "}" + rest)
    ensures Closes(MoreMembers(members, k) + "}" + rest, k == |members|, ObjectEnd, rest, MembersFrom(members, k) + "}" + rest)
  {
    if k == |members| {
      assert MoreMembers(members, k) + "}" + rest == ['}'] + rest;
      Punctuation('}', rest);
    } else {
      CommaFirst(MembersFrom(members, k), "}", rest);
      Punctuation(',', MembersFrom(members, k) + "}" + rest);
    }
  }

  /**
   * Parsing a written document gives back the value written, for every canonical value nested no deeper than
   * the stack limit; deeper ones make the reader throw.
   */
  lemma DocumentRoundTrip(v: Value, f: Features)
    requires Canonical(v, f) && (f.strictRoot ==> v.Arr? || v.Obj?)
    ensures Printable(v)
    ensures Parse(Document(v), f) == if Depth(v) <= f.stackLimit then Got(v, "") else Thrown
  {
    CanonicalPrintable(v, f);
    ValueBack(v, "\n", 1, f);
    assert SkipSpaces("\n") == "";
  }

  /** A NaN comes back as null. */
  lemma NotANumberIsLost(f: Features)
    requires f.stackLimit > 0 && !f.strictRoot
    ensures Parse(Document(Real(N.NotANumber)), f) == Got(Null, "")
  {
    DocumentRoundTrip(Null, f);
  }

  /** An infinity comes back as what the stream library makes of 1e+9999, and is refused if it makes nothing of it. */
  lemma InfinityBack(x: N.Float, rest: string, level: nat, f: Features)
    requires x.Infinite? && N.Stops(rest) && level <= f.stackLimit
    ensures ReadValue(Text(Real(x)) + rest, level, f) == match f.toDouble(N.RealText(x))
                                                        case None => Bad
                                                        case Some(y) => Got(Real(y), rest)
  {
    N.InfinityScansBack(x, rest);
    NumberRead(N.RealText(x), rest, level, f);
  }
}
