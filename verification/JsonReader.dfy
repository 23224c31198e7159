// OurReader: one cursor over the document, one recursion over its values.
module JsonReader {
  import opened JsonStrings
  import opened Json
  import N = JsonNumbers

  datatype Outcome = Read | Syntax | Exceeded

  /** A number token from position a on, part by part. */
  lemma NumberParts(text: string, a: nat) returns (n: nat, m: nat, e: nat)
    requires a <= |text|
    ensures n == N.Digits(text[a..]) && a + n <= |text| && m == n + N.Fraction(text[a + n..])
    ensures a + m <= |text| && e == N.Exponent(text[a + m..]) && N.NumberEnd(text[a..]) == m + e
  {
    n := N.Digits(text[a..]);
    assert text[a..][n..] == text[a + n..];
    m := n + N.Fraction(text[a + n..]);
    assert text[a..][m..] == text[a + m..];
    e := N.Exponent(text[a + m..]);
  }

  /** What a method did is what the specification says of the text it started on. */
  ghost predicate Agrees<T>(r: Result<T>, o: Outcome, v: T, left: string) {
    match r
    case Got(x, rest) => o == Read && v == x && left == rest
    case Bad => o == Syntax
    case Thrown => o == Exceeded
  }

  ghost function After<T>(items: seq<T>, r: Result<seq<T>>): Result<seq<T>> {
    match r
    case Got(more, rest) => Got(items + more, rest)
    case Bad => Bad
    case Thrown => Thrown
  }

  lemma AfterNothing<T>(r: Result<seq<T>>)
    ensures After([], r) == r
  {
    if r.Got? { assert [] + r.value == r.value; }
  }

  lemma AfterTwice<T>(a: seq<T>, b: seq<T>, r: Result<seq<T>>)
    ensures After(a, After(b, r)) == After(a + b, r)
  {
    if r.Got? { assert a + (b + r.value) == a + b + r.value; }
  }

  /** A failure is the one the specification has. */
  ghost predicate Fails<T>(r: Result<T>, o: Outcome) {
    (o == Syntax && r.Bad?) || (o == Exceeded && r.Thrown?)
  }

  /** The token from `start` to `end`, and what is behind it. */
  lemma TokenAt(text: string, start: nat, end: nat)
    requires start < end <= |text|
    ensures text[start..][..end - start] == text[start..end] && text[start..][end - start..] == text[end..]
  {
  }

  class OurReader {
    const text: string
    const features: Features
    var current: nat

    constructor (text: string, features: Features)
      ensures this.text == text && this.features == features && Valid() && Left() == text
    {
      this.text, this.features, this.current := text, features, 0;
      new;
      assert text[0..] == text;
    }

    ghost predicate Valid()
      reads this
    {
      current <= |text|
    }

    /** What is still to be read. */
    ghost function Left(): string
      reads this
      requires Valid()
    {
      text[current..]
    }

    method GetNextChar() returns (c: char)
      requires Valid()
      modifies this
      ensures Valid()
      ensures old(Left()) == "" ==> c as int == 0 && Left() == ""
      ensures old(Left()) != "" ==> c == old(Left())[0] && Left() == old(Left())[1..]
    {
      if current == |text| { return 0 as char; }
      c := text[current];
      current := current + 1;
    }

    method SkipBlanks()
      requires Valid()
      modifies this
      ensures Valid() && Left() == SkipSpaces(old(Left()))
    {
      while current != |text| && IsSpace(text[current])
        invariant Valid() && SkipSpaces(Left()) == SkipSpaces(old(Left()))
        decreases |text| - current
      {
        assert Left()[1..] == text[current + 1..];
        current := current + 1;
      }
    }

    method Match(pattern: string) returns (ok: bool)
      requires Valid()
      modifies this
      ensures Valid()
      ensures ok == (|pattern| <= |old(Left())| && old(Left())[..|pattern|] == pattern)
      ensures Left() == if ok then old(Left())[|pattern|..] else old(Left())
    {
      if |text| - current < |pattern| { return false; }
      var index := |pattern|;
      while index > 0
        invariant 0 <= index <= |pattern| && current == old(current)
        invariant forall k | index <= k < |pattern| :: text[current + k] == pattern[k]
      {
        index := index - 1;
        if text[current + index] != pattern[index] { return false; }
      }
      current := current + |pattern|;
      return true;
    }

    /** The digits from the cursor on. */
    method SkipDigits()
      requires Valid()
      modifies this
      ensures Valid() && current == old(current) + N.Digits(old(Left()))
    {
      while current != |text| && N.IsDigit(text[current])
        invariant Valid() && old(current) <= current
        invariant current + N.Digits(Left()) == old(current) + N.Digits(old(Left()))
        decreases |text| - current
      {
        assert Left()[1..] == text[current + 1..];
        current := current + 1;
      }
    }

    method SkipFraction()
      requires Valid()
      modifies this
      ensures Valid() && current == old(current) + N.Fraction(old(Left()))
    {
      if current != |text| && text[current] == '.' {
        assert Left()[1..] == text[current + 1..];
        current := current + 1;
        SkipDigits();
      }
    }

    method SkipExponent()
      requires Valid()
      modifies this
      ensures Valid() && current == old(current) + N.Exponent(old(Left()))
    {
      if current != |text| && (text[current] == 'e' || text[current] == 'E') {
        assert Left()[1..] == text[current + 1..];
        current := current + 1;
        if current != |text| && (text[current] == '+' || text[current] == '-') {
          assert old(Left())[2..] == text[current + 1..];
          current := current + 1;
        }
        SkipDigits();
      }
    }

    /** Digits, fraction and exponent. */
    method SkipNumber()
      requires Valid()
      modifies this
      ensures Valid() && current == old(current) + N.NumberEnd(old(Left()))
    {
      ghost var a := current;
      ghost var n, m, e := NumberParts(text, a);
      SkipDigits();
      assert current == a + n && Left() == text[a + n..];
      SkipFraction();
      assert current == a + m && Left() == text[a + m..];
      SkipExponent();
      assert current == a + m + e;
    }

    /** readNumber, after the first character. */
    method ReadNumber(checkInf: bool) returns (ok: bool)
      requires Valid()
      modifies this
      ensures Valid()
      ensures ok == !(checkInf && old(Left()) != "" && old(Left())[0] == 'I')
      ensures current == old(current) + if ok then N.NumberEnd(old(Left())) else 1
    {
      ok := !(checkInf && current != |text| && text[current] == 'I');
      if ok {
        SkipNumber();
      } else {
        current := current + 1;
      }
    }

    /** readString, after the opening quote. */
    method ReadString() returns (ok: bool)
      requires Valid()
      modifies this
      ensures Valid()
      ensures ok == (StringEnd(old(Left())) > 0)
      ensures Left() == if ok then old(Left())[StringEnd(old(Left()))..] else ""
      ensures ok ==> current == old(current) + StringEnd(old(Left()))
    {
      var c := 0 as char;
      while current != |text|
        invariant Valid() && old(current) <= current
        invariant c != '"'
        invariant StringEnd(old(Left())) == if StringEnd(Left()) < 0 then -1 else StringEnd(Left()) + (current - old(current))
        decreases |text| - current
      {
        ghost var left := Left();
        c := text[current];
        current := current + 1;
        assert left[1..] == Left();
        if c == '\\' {
          if current != |text| {
            current := current + 1;
            assert left[2..] == Left();
          }
        } else if c == '"' {
          break;
        }
      }
      ok := c == '"';
    }

    /** A word whose first letter is read already. */
    method ReadWord(ghost t: string, word: string, kind: Kind) returns (k: Kind)
      requires Valid() && |word| > 1 && t != "" && t[0] == word[0] && Left() == t[1..]
      modifies this
      ensures Valid() && k == Matched(t, word, kind).kind && Left() == Matched(t, word, kind).rest
    {
      assert |word| <= |t| ==> t[..|word|] == [t[0]] + t[1..][..|word| - 1];
      assert word == [word[0]] + word[1..];
      var ok := Match(word[1..]);
      k := if ok then kind else ErrorToken;
    }

    method ReadToken() returns (kind: Kind, token: string)
      requires Valid()
      modifies this
      ensures Valid()
      ensures var k := Json.ReadToken(old(Left()));
              && kind == k.kind && Left() == k.rest && (kind == StringToken || kind == NumberToken ==> token == k.text)
    {
      SkipBlanks();
      ghost var t := Left();
      if current == |text| { return EndOfStream, ""; }
      var c := GetNextChar();
      token := [c];
      match c {
        case '{' => kind := ObjectBegin;
        case '}' => kind := ObjectEnd;
        case '[' => kind := ArrayBegin;
        case ']' => kind := ArrayEnd;
        case ',' => kind := Comma;
        case ':' => kind := Colon;
        case 't' => kind := ReadWord(t, "true", TrueToken);
        case 'f' => kind := ReadWord(t, "false", FalseToken);
        case 'n' => kind := ReadWord(t, "null", NullToken);
        case '"' => kind, token := ReadQuoted();
        case _ => kind, token := ReadOther();
      }
    }

    /** A string token whose opening quote is read already. */
    method ReadQuoted() returns (kind: Kind, token: string)
      requires Valid() && 0 < current
      modifies this
      ensures Valid()
      ensures var k := QuotedToken(text[old(current) - 1..]);
              kind == k.kind && Left() == k.rest && (kind == StringToken ==> token == k.text)
    {
      ghost var t := text[current - 1..];
      assert t[1..] == Left();
      var start := current - 1;
      var ok := ReadString();
      return if ok then StringToken else ErrorToken, text[start..current];
    }

    /** A number token whose first character, `c`, is read already. */
    method ReadNumberToken(c: char) returns (kind: Kind, token: string)
      requires Valid() && 0 < current && c == text[current - 1] && c as int != 0 && (N.IsDigit(c) || c == '-' || c == '+')
      modifies this
      ensures Valid()
      ensures var k := OtherToken(text[old(current) - 1..]);
              kind == k.kind && Left() == k.rest && (kind == NumberToken ==> token == k.text)
    {
      var start := current - 1;
      assert text[start..][1..] == Left();
      var ok := ReadNumber(!N.IsDigit(c));
      TokenAt(text, start, current);
      return if ok then NumberToken else ErrorToken, text[start..current];
    }

    /** A token that may be a number, whose first character is read already. */
    method ReadOther() returns (kind: Kind, token: string)
      requires Valid() && 0 < current
      modifies this
      ensures Valid()
      ensures var k := OtherToken(text[old(current) - 1..]);
              kind == k.kind && Left() == k.rest && (kind == NumberToken ==> token == k.text)
    {
      var c := text[current - 1];
      if c as int != 0 && (N.IsDigit(c) || c == '-' || c == '+') {
        kind, token := ReadNumberToken(c);
      } else {
        TokenAt(text, current - 1, current);
        kind, token := if c as int == 0 then EndOfStream else ErrorToken, [c];
      }
    }

    /** decodeNumber, or decodeDouble if it is no integer. */
    method ReadNumberValue(token: string) returns (o: Outcome, v: Value)
      requires token != ""
      ensures forall rest :: Agrees(NumberValue(token, rest, features), o, v, rest)
    {
      var n := N.DecodeNumber(token);
      match n {
        case Int(i) => return Read, Int(i);
        case UInt(i) => return Read, UInt(i);
        case Double =>
          var x := features.toDouble(token);
          if x.None? { return Syntax, Null; }
          return Read, Real(x.value);
      }
    }

    /** readValue */
    method ReadValue(level: nat) returns (o: Outcome, v: Value)
      requires Valid()
      modifies this
      ensures Valid() && old(current) <= current && Agrees(Json.ReadValue(old(Left()), level, features), o, v, Left())
      decreases |text| - current, 1
    {
      v := Null;
      if level > features.stackLimit { return Exceeded, v; }
      ghost var t := Left();
      var kind, token := ReadToken();
      match kind {
        case ObjectBegin =>
          var members;
          o, members := ReadObject(level);
          v := Obj(members);
        case ArrayBegin =>
          var items;
          o, items := ReadArray(level);
          v := Arr(items);
        case NumberToken =>
          o, v := ReadNumberValue(token);
        case StringToken =>
          var s := DecodeString(token[1..|token| - 1]);
          if s.None? { return Syntax, v; }
          return Read, Str(s.value);
        case TrueToken => return Read, Bool(true);
        case FalseToken => return Read, Bool(false);
        case NullToken => return Read, Null;
        case _ => return Syntax, v;
      }
    }

    /** One round of the loop of readArray: at most one item; `last` if the array ends with it. */
    method ReadItem(level: nat, first: bool) returns (o: Outcome, item: seq<Value>, last: bool)
      requires Valid()
      modifies this
      ensures Valid() && old(current) <= current
      ensures var r := ReadItems(old(Left()), first, level, features);
              if o != Read then Fails(r, o)
              else if last then r == Got(item, Left())
              else old(current) < current && item != [] && r == After(item, ReadItems(Left(), false, level, features))
      decreases |text| - current, 2
    {
      item, last := [], true;
      SkipBlanks();
      if current != |text| && text[current] == ']' && (first || features.trailingCommas) {
        var kind, token := ReadToken();
        return Read, item, true;
      }
      var v;
      o, v := ReadValue(level + 1);
      if o != Read { return; }
      item := [v];
      var kind, token := ReadToken();
      if kind == ArrayEnd { return Read, item, true; }
      if kind != Comma { return Syntax, item, true; }
      last := false;
    }

    /** readArray, after the bracket. */
    method ReadArray(level: nat) returns (o: Outcome, items: seq<Value>)
      requires Valid()
      modifies this
      ensures Valid() && old(current) <= current && Agrees(ReadItems(old(Left()), true, level, features), o, items, Left())
      decreases |text| - current, 3
    {
      items := [];
      ghost var goal := ReadItems(Left(), true, level, features);
      AfterNothing(goal);
      while true
        invariant Valid() && old(current) <= current
        invariant goal == After(items, ReadItems(Left(), items == [], level, features))
        decreases |text| - current
      {
        ghost var left := Left();
        var item, last;
        o, item, last := ReadItem(level, items == []);
        if o != Read { return; }
        AfterTwice(items, item, ReadItems(Left(), false, level, features));
        items := items + item;
        if last { return; }
      }
    }

    /** One round of the loop of readObject; `last` if the object ends with it. */
    method ReadMember(level: nat, name: string, members: seq<Member>)
      returns (o: Outcome, name': string, members': seq<Member>, last: bool)
      requires Valid()
      modifies this
      ensures Valid() && old(current) <= current
      ensures var r := ReadMembers(old(Left()), name, members, level, features);
              if o != Read then Fails(r, o)
              else if last then r == Got(members', Left())
              else old(current) < current && r == ReadMembers(Left(), name', members', level, features)
      decreases |text| - current, 2
    {
      name', members', last := name, members, true;
      var kind, token := ReadToken();
      if kind == ObjectEnd && (name == "" || features.trailingCommas) { return Read, name, members, true; }
      if kind != StringToken { return Syntax, name, members, true; }
      var key := DecodeString(token[1..|token| - 1]);
      if key.None? { return Syntax, name, members, true; }
      name' := key.value;
      if |name'| >= 0x4000_0000 { o := Exceeded; return; }
      var colon, _ := ReadToken();
      if colon != Colon { o := Syntax; return; }
      var v;
      o, v := ReadValue(level + 1);
      if o != Read { return; }
      members' := Put(members, name', v);
      var comma, _ := ReadToken();
      last := comma == ObjectEnd;
      if comma != ObjectEnd && comma != Comma { o := Syntax; }
    }

    /** readObject, after the brace. */
    method ReadObject(level: nat) returns (o: Outcome, members: seq<Member>)
      requires Valid()
      modifies this
      ensures Valid() && old(current) <= current
      ensures Agrees(ReadMembers(old(Left()), "", [], level, features), o, members, Left())
      decreases |text| - current, 3
    {
      members := [];
      var name, last := "", false;
      ghost var goal := ReadMembers(Left(), "", [], level, features);
      while true
        invariant Valid() && old(current) <= current
        invariant goal == ReadMembers(Left(), name, members, level, features)
        decreases |text| - current
      {
        o, name, members, last := ReadMember(level, name, members);
        if o != Read || last { return; }
      }
    }

    /** parse: the root value, then whatever may follow it. */
    method ParseDocument() returns (o: Outcome, root: Value)
      requires Valid()
      modifies this
      ensures Valid() && Agrees(Parse(old(Left()), features), o, root, Left())
    {
      o, root := ReadValue(1);
      if o != Read { return; }
      var kind, _ := ReadToken();
      if features.failIfExtra && kind != EndOfStream { o := Syntax; }
      else if features.strictRoot && !root.Arr? && !root.Obj? { o := Syntax; }
    }
  }
}
