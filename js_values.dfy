/**
  JavaScript values as they travel through the CLI: JSON documents from the
  remote API and from the user, their truthiness, their conversion to text by
  `String(v)` (template literals) and `JSON.stringify(v, null, 2)`.
*/
module JsValues {
  import opened Wrappers
  import opened JsStrings

  /**
    A JSON value. Numbers are integers; an object is its list of members in
    insertion order, the order in which JavaScript enumerates and prints them
    for every name that is not an array index (index-like names, which come
    first in ascending order in JavaScript, are not modelled).
  */
  datatype Json =
    | JNull
    | JBool(b: bool)
    | JNum(n: int)
    | JStr(s: string)
    | JArr(items: seq<Json>)
    | JObj(members: seq<(string, Json)>)

  /** `if (v)`: `null`, `false`, `0` and `""` are falsy, every array and object is truthy. */
  predicate Truthy(v: Json) {
    match v
    case JNull => false
    case JBool(b) => b
    case JNum(n) => n != 0
    case JStr(s) => s != ""
    case JArr(_) => true
    case JObj(_) => true
  }

  /** An optional value (`undefined` is `None`) in a boolean context. */
  predicate TruthyOpt(v: Option<Json>) {
    v.Some? && Truthy(v.value)
  }

  /** An optional string (a CLI option, an environment variable) in a boolean context. */
  predicate Given(s: Option<string>) {
    s.Some? && s.value != ""
  }

  /** `v[key]` for a member name: `undefined` (None) on anything but an object that has the member. */
  function Get(v: Json, key: string): (r: Option<Json>)
    ensures r.Some? ==> v.JObj?
  {
    if v.JObj? then Lookup(v.members, key) else None
  }

  /** The value of the first member named `key`. */
  function Lookup(members: seq<(string, Json)>, key: string): Option<Json> {
    if members == [] then None
    else if members[0].0 == key then Some(members[0].1)
    else Lookup(members[1..], key)
  }

  /** A lookup finds a value exactly when some member carries the name, and then it is that member's value. */
  lemma {:induction false} LookupFindsMember(members: seq<(string, Json)>, key: string)
    ensures Lookup(members, key).Some? <==> exists i :: 0 <= i < |members| && members[i].0 == key
    ensures Lookup(members, key).Some? ==> exists i :: 0 <= i < |members| && members[i] == (key, Lookup(members, key).value)
  {
    if members != [] && members[0].0 != key {
      LookupFindsMember(members[1..], key);
      assert forall i :: 0 < i < |members| ==> members[i] == members[1..][i - 1];
      if Lookup(members, key).Some? {
        var j :| 0 <= j < |members[1..]| && members[1..][j] == (key, Lookup(members, key).value);
        assert members[j + 1] == members[1..][j];
      }
    } else if members != [] {
      assert members[0] == (key, members[0].1);
    }
  }

  /**
    `o[key] = value`: the member named `key` takes the new value where it
    stands; a new name is added after the existing members.
  */
  function SetMember(members: seq<(string, Json)>, key: string, value: Json): (r: seq<(string, Json)>)
    ensures Lookup(r, key) == Some(value)
    ensures forall name :: name != key ==> Lookup(r, name) == Lookup(members, name)
  {
    if members == [] then [(key, value)]
    else if members[0].0 == key then
      var r := [(key, value)] + members[1..];
      assert forall i :: 0 < i < |members| ==> r[i] == members[i];
      r
    else
      var rest := SetMember(members[1..], key, value);
      var r := [members[0]] + rest;
      assert forall i :: 0 < i < |r| ==> r[i] == rest[i - 1];
      assert forall i :: 0 < i < |members| ==> members[i] == members[1..][i - 1];
      r
  }

  /** The member names of an object, in order. */
  function Keys(members: seq<(string, Json)>): (ks: seq<string>)
    ensures |ks| == |members| && forall i :: 0 <= i < |members| ==> ks[i] == members[i].0
  {
    seq(|members|, i requires 0 <= i < |members| => members[i].0)
  }

  /**
    `String(v)`, which a template literal applies to what it embeds: an array
    is its elements' strings joined by commas (`null` as the empty string),
    any object is `[object Object]`.
  */
  function ToJsString(v: Json): (r: string)
    ensures v.JStr? ==> r == v.s
    ensures v.JNum? ==> r == IntToString(v.n)
    ensures v.JNull? ==> r == "null"
    ensures v.JObj? ==> r == "[object Object]"
    ensures v.JArr? && v.items == [] ==> r == ""
  {
    match v
    case JNull => "null"
    case JBool(b) => if b then "true" else "false"
    case JNum(n) => IntToString(n)
    case JStr(s) => s
    case JArr(items) =>
      JoinWith(seq(|items|, i requires 0 <= i < |items| => if items[i].JNull? then "" else ToJsString(items[i])), ",")
    case JObj(_) => "[object Object]"
  }

  /** The text of a number reads back as that number. */
  lemma {:induction false} NumberReadsBack(n: int)
    ensures ParseInt(IntToString(n)) == Some(n)
  {
    ParseIntOfDecimal("", n, "");
    assert "" + IntToString(n) + "" == IntToString(n);
  }

  /**
    `JSON.stringify(v, null, 2)`: a number as its decimal text, a string quoted, arrays and objects bracketed, and a non-empty array or
    object spread over several lines.
  */
  function Stringify(v: Json): (r: string)
    ensures r != []
    ensures v.JNum? ==> r == IntToString(v.n)
    ensures v.JStr? ==> r[0] == '"' && r[|r| - 1] == '"'
    ensures v.JArr? ==> r[0] == '[' && r[|r| - 1] == ']'
    ensures v.JObj? ==> r[0] == '{' && r[|r| - 1] == '}'
    ensures (v.JArr? && v.items != []) || (v.JObj? && v.members != []) ==> r[1] == '\n'
  {
    Serialize(v, "")
  }

  /** The text of `v` nested at `indent`: two more spaces per level, one member or element per line. */
  function Serialize(v: Json, indent: string): (r: string)
    ensures r != []
    ensures v.JNum? ==> r == IntToString(v.n)
    ensures v.JStr? ==> r[0] == '"' && r[|r| - 1] == '"'
    ensures v.JArr? ==> r[0] == '[' && r[|r| - 1] == ']'
    ensures v.JObj? ==> r[0] == '{' && r[|r| - 1] == '}'
    ensures (v.JArr? && v.items != []) || (v.JObj? && v.members != []) ==> r[1] == '\n'
  {
    match v
    case JNull => "null"
    case JBool(b) => if b then "true" else "false"
    case JNum(n) => IntToString(n)
    case JStr(s) => Quote(s)
    case JArr(items) =>
      if items == [] then "[]"
      else
        var inner := indent + "  ";
        var parts := seq(|items|, i requires 0 <= i < |items| => Serialize(items[i], inner));
        Block('[', inner + JoinWith(parts, ",\n" + inner) + "\n" + indent, ']')
    case JObj(members) =>
      if members == [] then "{}"
      else
        var inner := indent + "  ";
        var parts := seq(|members|, i requires 0 <= i < |members| =>
          var m := members[i];
          assert m in members;
          Quote(m.0) + ": " + Serialize(m.1, inner));
        Block('{', inner + JoinWith(parts, ",\n" + inner) + "\n" + indent, '}')
  }

  /**
    `JSON.stringify(v)`: the same text on one line, with no indentation; it
    agrees with the indented text on every value that is no non-empty array
    or object.
  */
  function StringifyCompact(v: Json): (r: string)
    ensures r != []
    ensures '\n' !in r
    ensures v.JArr? ==> r[0] == '[' && r[|r| - 1] == ']'
    ensures v.JObj? ==> r[0] == '{' && r[|r| - 1] == '}'
    ensures !(v.JArr? && v.items != []) && !(v.JObj? && v.members != []) ==> r == Stringify(v)
  {
    match v
    case JNull => "null"
    case JBool(b) => if b then "true" else "false"
    case JNum(n) => IntToString(n)
    case JStr(s) => Quote(s)
    case JArr(items) =>
      var parts := seq(|items|, i requires 0 <= i < |items| => StringifyCompact(items[i]));
      JoinAvoids(parts, ",", '\n');
      Enclosed('[', JoinWith(parts, ","), ']')
    case JObj(members) =>
      var parts := seq(|members|, i requires 0 <= i < |members| =>
        var m := members[i];
        assert m in members;
        Quote(m.0) + ":" + StringifyCompact(m.1));
      JoinAvoids(parts, ",", '\n');
      Enclosed('{', JoinWith(parts, ","), '}')
  }

  /** An indented block: the opening bracket, a line break, the lines, the closing bracket. */
  function Block(open: char, lines: string, close: char): (r: string)
    ensures |r| >= 3 && r[0] == open && r[1] == '\n' && r[|r| - 1] == close
  {
    [open, '\n'] + lines + [close]
  }

  /** A one-line bracketed text: it has a line break only if `body` has one. */
  function Enclosed(open: char, body: string, close: char): (r: string)
    requires open != '\n' && close != '\n'
    ensures |r| >= 2 && r[0] == open && r[|r| - 1] == close
    ensures '\n' !in body ==> '\n' !in r
    ensures body == [] ==> r == [open, close]
  {
    [open] + body + [close]
  }

  /** A JSON string literal: quotes, with `"`, `\` and control characters escaped. */
  function Quote(s: string): (r: string)
    ensures |r| >= 2 && r[0] == '"' && r[|r| - 1] == '"'
    ensures '\n' !in r
  {
    "\"" + Escape(s) + "\""
  }

  /** The escaped text of `s`: a line break in `s` is written as the two characters `\n`. */
  function Escape(s: string): (r: string)
    ensures '\n' !in r
  {
    if s == [] then [] else EscapeChar(s[0]) + Escape(s[1..])
  }

  function EscapeChar(c: char): (r: string)
    ensures '\n' !in r
  {
    if c == '"' then "\\\""
    else if c == '\\' then "\\\\"
    else if c == '\U{8}' then "\\b"
    else if c == '\t' then "\\t"
    else if c == '\n' then "\\n"
    else if c == '\U{C}' then "\\f"
    else if c == '\r' then "\\r"
    else if c < ' ' then "\\u00" + [HexDigit(c as int / 16), HexDigit(c as int % 16)]
    else [c]
  }

  function HexDigit(d: nat): char
    requires d < 16
  {
    "0123456789abcdef"[d]
  }
}
