// JSON documents: the text FastWriter makes of a value, the value OurReader makes of a text, and that the one
// undoes the other.
module Json {
  import opened Utf8
  import opened JsonStrings
  import N = JsonNumbers

  /**
   * A JSON value. Members are in key order, as in the std::map that holds them.
   */
  datatype Value =
    | Null
    | Bool(b: bool)
    | Int(n: int)
    | UInt(n: int)
    | Real(x: N.Float)
    | Str(s: string)
    | Arr(items: seq<Value>)
    | Obj(members: seq<Member>)

  datatype Member = Member(key: string, value: Value)

  // ----- writing -----

  /** The values there are: integers of 64 bits, strings of bytes. */
  ghost predicate Printable(v: Value) {
    match v
    case Int(n) => N.MIN_INT <= n <= N.MAX_INT
    case UInt(n) => 0 <= n <= N.MAX_UINT
    case Str(s) => IsBytes(s)
    case Arr(items) => forall i | 0 <= i < |items| :: Printable(items[i])
    case Obj(members) => forall i | 0 <= i < |members| :: IsBytes(members[i].key) && Printable(members[i].value)
    case _ => true
  }

  ghost predicate PrintableItems(items: seq<Value>) {
    forall i | 0 <= i < |items| :: Printable(items[i])
  }

  ghost predicate PrintableMembers(members: seq<Member>) {
    forall i | 0 <= i < |members| :: IsBytes(members[i].key) && Printable(members[i].value)
  }

  /** writeValue */
  function Text(v: Value): string
    requires Printable(v)
    decreases v
  {
    match v
    case Null => "null"
    case Bool(b) => if b then "true" else "false"
    case Int(n) => N.IntText(n)
    case UInt(n) => N.IntText(n)
    case Real(x) => N.RealText(x)
    case Str(s) => Quoted(s)
    case Arr(items) => "[" + ItemsFrom(items, 0) + "]"
    case Obj(members) => "{" + MembersFrom(members, 0) + "}"
  }

  /** The items from number k on, without the comma before it. */
  function ItemsFrom(items: seq<Value>, k: nat): string
    requires PrintableItems(items) && k <= |items|
    decreases items, |items| - k, 1
  {
    if k == |items| then "" else Text(items[k]) + MoreItems(items, k + 1)
  }

  /** And with the comma. */
  function MoreItems(items: seq<Value>, k: nat): string
    requires PrintableItems(items) && k <= |items|
    decreases items, |items| - k, 2
  {
    if k == |items| then "" else "," + ItemsFrom(items, k)
  }

  function Pair(m: Member): string
    requires IsBytes(m.key) && Printable(m.value)
    decreases m
  {
    Quoted(m.key) + ":" + Text(m.value)
  }

  function MembersFrom(members: seq<Member>, k: nat): string
    requires PrintableMembers(members) && k <= |members|
    decreases members, |members| - k, 1
  {
    if k == |members| then "" else Pair(members[k]) + MoreMembers(members, k + 1)
  }

  function MoreMembers(members: seq<Member>, k: nat): string
    requires PrintableMembers(members) && k <= |members|
    decreases members, |members| - k, 2
  {
    if k == |members| then "" else "," + MembersFrom(members, k)
  }

  /** write */
  function Document(v: Value): string
    requires Printable(v)
  {
    Text(v) + "\n"
  }

  // ----- reading -----

  /** `toDouble` is the double that the stream library reads a number token as, if it does. */
  datatype Features = Features(stackLimit: nat, trailingCommas: bool, failIfExtra: bool, strictRoot: bool,
                               toDouble: string -> Option<N.Float>)

  datatype Kind =
    | EndOfStream | ObjectBegin | ObjectEnd | ArrayBegin | ArrayEnd | StringToken | NumberToken
    | TrueToken | FalseToken | NullToken | Comma | Colon | ErrorToken

  /** A token, its text, and what is left after it. */
  datatype Token = Token(kind: Kind, text: string, rest: string)

  /** A value and what is left; or a syntax error; or the exception that a limit is exceeded. */
  datatype Result<T> = Got(value: T, rest: string) | Bad | Thrown

  predicate IsSpace(c: char) {
    c == ' ' || c == '\t' || c == '\r' || c == '\n'
  }

  function SkipSpaces(t: string): (r: string)
    ensures |r| <= |t|
    ensures r != "" ==> !IsSpace(r[0])
  {
    if t != "" && IsSpace(t[0]) then SkipSpaces(t[1..]) else t
  }

  function Matched(t: string, word: string, kind: Kind): (k: Token)
    requires 0 < |word|
    ensures k.kind == kind || k.kind == ErrorToken
    ensures |k.rest| < |t| || t == ""
  {
    if |word| <= |t| && t[..|word|] == word then Token(kind, word, t[|word|..])
    else Token(ErrorToken, "", if t == "" then "" else t[1..])
  }

  /** A string token, from its opening quote. */
  function QuotedToken(t: string): (k: Token)
    requires t != ""
    ensures |k.rest| < |t| && (k.kind == StringToken ==> |k.text| >= 2)
    ensures k.kind == StringToken || k.kind == ErrorToken
  {
    var n := StringEnd(t[1..]);
    if n < 0 then Token(ErrorToken, t, "") else Token(StringToken, t[..n + 1], t[n + 1..])
  }

  /** Numbers, the end of a C string, and everything that starts no token. */
  function OtherToken(t: string): (k: Token)
    requires t != ""
    ensures |k.rest| < |t| && (k.kind == NumberToken ==> k.text != "")
    ensures k.kind == NumberToken || k.kind == EndOfStream || k.kind == ErrorToken
  {
    var c := t[0];
    if c as int == 0 then Token(EndOfStream, [c], t[1..])
    else if (c == '-' || c == '+') && |t| > 1 && t[1] == 'I' then Token(ErrorToken, t[..2], t[2..])
    else if N.IsDigit(c) || c == '-' || c == '+' then
      var n := N.NumberEnd(t[1..]);
      Token(NumberToken, t[..n + 1], t[n + 1..])
    else Token(ErrorToken, [c], t[1..])
  }

  /** readToken. Comments are not part of this model: their start reads as an error. */
  function ReadToken(text: string): (k: Token)
    ensures k.kind == EndOfStream || |k.rest| < |text|
    ensures |k.rest| <= |text|
    ensures k.kind == StringToken ==> |k.text| >= 2
    ensures k.kind == NumberToken ==> k.text != ""
  {
    var t := SkipSpaces(text);
    if t == "" then Token(EndOfStream, "", "")
    else match t[0]
      case '{' => Token(ObjectBegin, "{", t[1..])
      case '}' => Token(ObjectEnd, "}", t[1..])
      case '[' => Token(ArrayBegin, "[", t[1..])
      case ']' => Token(ArrayEnd, "]", t[1..])
      case ',' => Token(Comma, ",", t[1..])
      case ':' => Token(Colon, ":", t[1..])
      case 't' => Matched(t, "true", TrueToken)
      case 'f' => Matched(t, "false", FalseToken)
      case 'n' => Matched(t, "null", NullToken)
      case '"' => QuotedToken(t)
      case _ => OtherToken(t)
  }

  /** decodeNumber, falling back to decodeDouble. */
  function NumberValue(token: string, rest: string, f: Features): Result<Value> {
    match N.Denoted(token)
    case Int(n) => Got(Int(n), rest)
    case UInt(n) => Got(UInt(n), rest)
    case Double =>
      (match f.toDouble(token)
       case None => Bad
       case Some(x) => Got(Real(x), rest))
  }

  /** decodeString, of a token with its quotes. */
  function StringValue(token: string): Option<string>
    requires |token| >= 2
  {
    Decode(token[1..|token| - 1])
  }

  /** The order of keys: bytes first, length last. */
  predicate KeyLess(a: string, b: string) {
    if b == "" then false
    else if a == "" then true
    else if a[0] != b[0] then a[0] < b[0]
    else KeyLess(a[1..], b[1..])
  }

  /** operator[] and assignment: a member of that name is replaced, a new one goes to its place in the order. */
  function Put(members: seq<Member>, key: string, value: Value): (r: seq<Member>)
    ensures |members| <= |r| <= |members| + 1
  {
    if members == [] then [Member(key, value)]
    else
      var k := |members| - 1;
      if KeyLess(members[k].key, key) then members + [Member(key, value)]
      else if members[k].key == key then members[..k] + [Member(key, value)]
      else Put(members[..k], key, value) + [members[k]]
  }

  /** readValue; `level` is the number of values being read, this one included. */
  function ReadValue(t: string, level: nat, f: Features): (r: Result<Value>)
    ensures r.Got? ==> |r.rest| < |t|
    decreases |t|, 1
  {
    if level > f.stackLimit then Thrown
    else
      var k := ReadToken(t);
      match k.kind
      case ObjectBegin =>
        (match ReadMembers(k.rest, "", [], level, f)
         case Got(members, rest) => Got(Obj(members), rest)
         case Bad => Bad
         case Thrown => Thrown)
      case ArrayBegin =>
        (match ReadItems(k.rest, true, level, f)
         case Got(items, rest) => Got(Arr(items), rest)
         case Bad => Bad
         case Thrown => Thrown)
      case NumberToken => NumberValue(k.text, k.rest, f)
      case StringToken =>
        (match StringValue(k.text)
         case None => Bad
         case Some(s) => Got(Str(s), k.rest))
      case TrueToken => Got(Bool(true), k.rest)
      case FalseToken => Got(Bool(false), k.rest)
      case NullToken => Got(Null, k.rest)
      case _ => Bad
  }

  /** The loop of readArray, before its first or a later item. */
  function ReadItems(t: string, first: bool, level: nat, f: Features): (r: Result<seq<Value>>)
    ensures r.Got? ==> |r.rest| < |t|
    decreases |t|, 2
  {
    var u := SkipSpaces(t);
    if u != "" && u[0] == ']' && (first || f.trailingCommas) then Got([], u[1..])
    else match ReadValue(u, level + 1, f)
      case Bad => Bad
      case Thrown => Thrown
      case Got(v, rest) =>
        var k := ReadToken(rest);
        if k.kind == ArrayEnd then Got([v], k.rest)
        else if k.kind != Comma then Bad
        else match ReadItems(k.rest, false, level, f)
          case Bad => Bad
          case Thrown => Thrown
          case Got(items, last) => Got([v] + items, last)
  }

  /** The loop of readObject; `name` is the last key read, `members` what the object has so far. */
  function ReadMembers(t: string, name: string, members: seq<Member>, level: nat, f: Features): (r: Result<seq<Member>>)
    ensures r.Got? ==> |r.rest| < |t|
    decreases |t|, 0
  {
    var k := ReadToken(t);
    if k.kind == ObjectEnd && (name == "" || f.trailingCommas) then Got(members, k.rest)
    else if k.kind != StringToken then Bad
    else match StringValue(k.text)
      case None => Bad
      case Some(key) =>
        if |key| >= 0x4000_0000 then Thrown
        else
          var colon := ReadToken(k.rest);
          if colon.kind != Colon then Bad
          else match ReadValue(colon.rest, level + 1, f)
            case Bad => Bad
            case Thrown => Thrown
            case Got(v, rest) =>
              var comma := ReadToken(rest);
              if comma.kind == ObjectEnd then Got(Put(members, key, v), comma.rest)
              else if comma.kind != Comma then Bad
              else ReadMembers(comma.rest, key, Put(members, key, v), level, f)
  }

  /** parse */
  function Parse(text: string, f: Features): Result<Value> {
    match ReadValue(text, 1, f)
    case Bad => Bad
    case Thrown => Thrown
    case Got(v, rest) =>
      var k := ReadToken(rest);
      if f.failIfExtra && k.kind != EndOfStream then Bad
      else if f.strictRoot && !v.Arr? && !v.Obj? then Bad
      else Got(v, k.rest)
  }
}
