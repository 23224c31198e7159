// FastWriter: a value appended to the document piece by piece.
module JsonWriter {
  import opened Utf8
  import opened JsonStrings
  import opened Json
  import N = JsonNumbers

  class FastWriter {
    var document: string
    /** The decimal point of the locale the writer runs in. */
    const point: N.Point

    constructor (point: N.Point)
      ensures document == ""
    {
      document := "";
      this.point := point;
    }

    method WriteValue(v: Value)
      requires Printable(v)
      modifies this
      ensures document == old(document) + Text(v)
      decreases v
    {
      match v {
        case Null => document := document + "null";
        case Bool(b) => document := document + if b then "true" else "false";
        case Int(n) =>
          var s := N.ValueToString(n);
          document := document + s;
        case UInt(n) =>
          var s := N.UintToString(n);
          document := document + s;
        case Real(x) =>
          var s := N.RealToString(x, point);
          document := document + s;
        case Str(s) =>
          var q := ValueToQuotedString(s);
          document := document + q;
        case Arr(items) =>
          WriteItems(items);
        case Obj(members) =>
          WriteMembers(members);
      }
    }

    method WriteItems(items: seq<Value>)
      requires PrintableItems(items)
      modifies this
      ensures document == old(document) + ("[" + ItemsFrom(items, 0) + "]")
      decreases items, 1
    {
      ghost var start, text := document, ItemsFrom(items, 0);
      document := document + "[";
      for index := 0 to |items|
        invariant document + RestOfItems(items, index) == start + "[" + text
      {
        WriteItem(items, index);
      }
      Ends(document, RestOfItems(items, |items|), start, "[", text, "]");
      document := document + "]";
    }

    method WriteItem(items: seq<Value>, index: nat)
      requires PrintableItems(items) && index < |items|
      modifies this
      ensures document + MoreItems(items, index + 1) == old(document) + RestOfItems(items, index)
      decreases items, 0
    {
      Append(document, Separator(index), Text(items[index]), MoreItems(items, index + 1));
      assert RestOfItems(items, index) == if index > 0 then "," + ItemsFrom(items, index) else ItemsFrom(items, index);
      assert ItemsFrom(items, index) == Text(items[index]) + MoreItems(items, index + 1);
      if index > 0 { document := document + ","; }
      WriteValue(items[index]);
    }

    method WriteMembers(members: seq<Member>)
      requires PrintableMembers(members)
      modifies this
      ensures document == old(document) + ("{" + MembersFrom(members, 0) + "}")
      decreases members, 1
    {
      ghost var start, text := document, MembersFrom(members, 0);
      document := document + "{";
      for k := 0 to |members|
        invariant document + RestOfMembers(members, k) == start + "{" + text
      {
        WriteMember(members, k);
      }
      Ends(document, RestOfMembers(members, |members|), start, "{", text, "}");
      document := document + "}";
    }

    method WriteMember(members: seq<Member>, k: nat)
      requires PrintableMembers(members) && k < |members|
      modifies this
      ensures document + MoreMembers(members, k + 1) == old(document) + RestOfMembers(members, k)
      decreases members, 0
    {
      Append(document, Separator(k), Pair(members[k]), MoreMembers(members, k + 1));
      assert RestOfMembers(members, k) == if k > 0 then "," + MembersFrom(members, k) else MembersFrom(members, k);
      assert MembersFrom(members, k) == Pair(members[k]) + MoreMembers(members, k + 1);
      if k > 0 { document := document + ","; }
      WritePair(members[k]);
    }

    method WritePair(m: Member)
      requires IsBytes(m.key) && Printable(m.value)
      modifies this
      ensures document == old(document) + Pair(m)
      decreases m
    {
      ghost var start := document;
      var key := ValueToQuotedString(m.key);
      document := document + key;
      document := document + ":";
      WriteValue(m.value);
      assert start + key + ":" + Text(m.value) == start + (key + ":" + Text(m.value));
    }

    /** write: the whole document, ended by a line feed. */
    method Write(root: Value) returns (text: string)
      requires Printable(root)
      modifies this
      ensures text == Document(root)
    {
      document := "";
      WriteValue(root);
      document := document + "\n";
      text := document;
    }
  }

  ghost function Separator(k: nat): string {
    if k > 0 then "," else ""
  }

  /** What the loop over the items has still to write when it is at number k. */
  ghost function RestOfItems(items: seq<Value>, k: nat): string
    requires PrintableItems(items) && k <= |items|
  {
    if k > 0 then MoreItems(items, k) else ItemsFrom(items, k)
  }

  ghost function RestOfMembers(members: seq<Member>, k: nat): string
    requires PrintableMembers(members) && k <= |members|
  {
    if k > 0 then MoreMembers(members, k) else MembersFrom(members, k)
  }

  lemma Append(document: string, separator: string, a: string, b: string)
    ensures document + separator + a + b == document + (separator + (a + b))
    ensures separator == "" ==> document + separator == document && separator + (a + b) == a + b
  {
  }

  lemma Ends(document: string, left: string, start: string, open: string, text: string, close: string)
    requires left == "" && document + left == start + open + text
    ensures document + close == start + (open + text + close)
  {
    assert document + left == document;
  }
}
