/** JavaScript values as the scheduler, the push router and the chatbot see them:
    the handful of language rules the modelled code leans on (truthiness,
    `a || b`, optional property reads, `String(v)` in template literals and
    `String.prototype.split` with a one-character separator). */
module Js {

  /** A JavaScript value. Numbers are integers here: the modelled code only
      compares, adds and subtracts millisecond counts and counters. */
  datatype Value =
    | Undefined
    | Null
    | Bool(b: bool)
    | Num(n: int)
    | Str(s: string)
    | Arr(items: seq<Value>)
    | Obj(fields: map<string, Value>)

  /** `!!v`: every value is truthy except undefined, null, false, 0 and "". */
  predicate Truthy(v: Value) {
    match v
    case Undefined => false
    case Null => false
    case Bool(b) => b
    case Num(n) => n != 0
    case Str(s) => s != ""
    case Arr(_) => true
    case Obj(_) => true
  }

  /** `a || b`: the first operand when it is truthy, the second otherwise. */
  function Or(a: Value, b: Value): (r: Value)
    ensures Truthy(r) <==> Truthy(a) || Truthy(b)
    ensures r == a || r == b
  {
    if Truthy(a) then a else b
  }

  /** Reading `o.k` on an object literal: undefined when the key is missing. */
  function Get(o: map<string, Value>, k: string): Value {
    if k in o then o[k] else Undefined
  }

  /** Optional chaining `v?.k`: undefined unless `v` is an object holding `k`. */
  function Prop(v: Value, k: string): Value {
    if v.Obj? then Get(v.fields, k) else Undefined
  }

  /** Decimal digits of a natural number, most significant first. */
  function NatToString(n: nat): (r: string)
    ensures |r| >= 1
    ensures forall i :: 0 <= i < |r| ==> '0' <= r[i] <= '9'
    decreases n
  {
    var d := [(('0' as int) + n % 10) as char];
    if n < 10 then d else NatToString(n / 10) + d
  }

  /** `String(n)` for an integer. */
  function IntToString(n: int): string {
    if n < 0 then "-" + NatToString(-n) else NatToString(n)
  }

  /** `String(v)`, the conversion a template literal `${v}` applies. */
  function ToStr(v: Value): (r: string)
    ensures v.Str? ==> r == v.s
    decreases v, 1
  {
    match v
    case Undefined => "undefined"
    case Null => "null"
    case Bool(b) => if b then "true" else "false"
    case Num(n) => IntToString(n)
    case Str(s) => s
    case Arr(items) => JoinItems(v, 0)
    case Obj(_) => "[object Object]"
  }

  /** `Array.prototype.join(",")` from index `i` on, as `String(array)` uses it:
      null and undefined elements print as the empty string. */
  function JoinItems(arr: Value, i: nat): string
    requires arr.Arr? && i <= |arr.items|
    decreases arr, 0, |arr.items| - i
  {
    if i == |arr.items| then ""
    else
      var item := arr.items[i];
      var head := if item.Undefined? || item.Null? then "" else ToStr(item);
      if i + 1 == |arr.items| then head else head + "," + JoinItems(arr, i + 1)
  }

  /** The inverse of `Split`: the parts glued back with the separator. */
  function Join(parts: seq<string>, sep: char): string
    decreases |parts|
  {
    if |parts| == 0 then ""
    else if |parts| == 1 then parts[0]
    else parts[0] + [sep] + Join(parts[1..], sep)
  }

  /** `s.split(sep)` for a one-character separator: the maximal runs between
      separators, empty runs included, so "" splits into [""] and "a  b" on
      ' ' into ["a", "", "b"]. */
  function Split(s: string, sep: char): (parts: seq<string>)
    ensures |parts| >= 1
    ensures forall i :: 0 <= i < |parts| ==> sep !in parts[i]
    ensures Join(parts, sep) == s
    decreases |s|
  {
    if |s| == 0 then [""]
    else
      var rest := Split(s[1..], sep);
      if s[0] == sep then
        assert s == [sep] + s[1..];
        [""] + rest
      else
        JoinConsFirst(rest, s[0], sep);
        [[s[0]] + rest[0]] + rest[1..]
  }

  /** Prepending a character to the first part prepends it to the joined text. */
  lemma JoinConsFirst(parts: seq<string>, c: char, sep: char)
    requires |parts| >= 1
    ensures Join([[c] + parts[0]] + parts[1..], sep) == [c] + Join(parts, sep)
  {
    var p := [[c] + parts[0]] + parts[1..];
    assert p[1..] == parts[1..];
  }

  /** Splitting undoes joining when no part holds the separator. */
  lemma {:induction false} SplitJoin(parts: seq<string>, sep: char)
    requires |parts| >= 1
    requires forall i :: 0 <= i < |parts| ==> sep !in parts[i]
    ensures Split(Join(parts, sep), sep) == parts
    decreases |parts|, |parts[0]|
  {
    if |parts[0]| == 0 {
      if |parts| == 1 {
        assert Join(parts, sep) == "";
      } else {
        var j := Join(parts[1..], sep);
        assert Join(parts, sep) == [sep] + j;
        assert ([sep] + j)[1..] == j;
        SplitJoin(parts[1..], sep);
        assert parts == [""] + parts[1..];
      }
    } else {
      var c := parts[0][0];
      var shorter := [parts[0][1..]] + parts[1..];
      assert shorter[1..] == parts[1..];
      assert forall i :: 0 <= i < |shorter| ==> sep !in shorter[i] by {
        forall i | 0 <= i < |shorter| ensures sep !in shorter[i] {
          if i == 0 {
            assert forall k :: 0 <= k < |parts[0][1..]| ==> parts[0][1..][k] == parts[0][k + 1];
          } else {
            assert shorter[i] == parts[i];
          }
        }
      }
      SplitJoin(shorter, sep);
      assert parts[0] == [c] + parts[0][1..];
      JoinConsFirst(shorter, c, sep);
      assert [[c] + shorter[0]] + shorter[1..] == parts;
      var s := Join(parts, sep);
      assert s == [c] + Join(shorter, sep);
      assert s[1..] == Join(shorter, sep);
      assert s[0] == c && c != sep;
    }
  }

  /** `s.split(sep)[0]`: the text before the first separator. */
  function FirstSegment(s: string, sep: char): (r: string)
    ensures sep !in r
    ensures r <= s
    ensures |r| < |s| ==> s[|r|] == sep
  {
    var parts := Split(s, sep);
    JoinPrefix(parts, sep);
    parts[0]
  }

  lemma JoinPrefix(parts: seq<string>, sep: char)
    requires |parts| >= 1
    ensures parts[0] <= Join(parts, sep)
    ensures |parts| > 1 ==> |parts[0]| < |Join(parts, sep)| && Join(parts, sep)[|parts[0]|] == sep
  {
    if |parts| > 1 {
      var j := parts[0] + [sep] + Join(parts[1..], sep);
      assert j[..|parts[0]|] == parts[0];
    }
  }
}
