/** JSON values as Python holds them after `json.loads` (None, bool, int,
    float, str, list, dict with keys in insertion order), and the few Python
    operations the core applies to such values without first checking their
    type: truthiness, `in`, `.get`, item assignment, `", ".join(...)` and
    `json.dumps` of a list of strings. An operation that raises in Python
    yields `Failure(str(e))`. */
module PyJson {
  import opened Wrappers
  import Text

  datatype Json =
    | JNull
    | JBool(b: bool)
    | JInt(i: int)
    | JFloat(f: real)
    | JStr(s: string)
    | JArr(items: seq<Json>)
    | JObj(fields: seq<(string, Json)>)

  /** The name `type(v).__name__` gives, as it appears in Python's messages. */
  function TypeName(j: Json): string {
    match j
    case JNull => "NoneType"
    case JBool(_) => "bool"
    case JInt(_) => "int"
    case JFloat(_) => "float"
    case JStr(_) => "str"
    case JArr(_) => "list"
    case JObj(_) => "dict"
  }

  /** `bool(v)`. */
  predicate Truthy(j: Json) {
    match j
    case JNull => false
    case JBool(b) => b
    case JInt(i) => i != 0
    case JFloat(f) => f != 0.0
    case JStr(s) => s != []
    case JArr(items) => items != []
    case JObj(fields) => fields != []
  }

  function Keys(fields: seq<(string, Json)>): (ks: seq<string>)
    ensures |ks| == |fields|
    ensures forall i | 0 <= i < |fields| :: ks[i] == fields[i].0
  {
    if fields == [] then [] else [fields[0].0] + Keys(fields[1..])
  }

  /** `d[k]` when `k in d`: the value paired with `k`. */
  function Lookup(fields: seq<(string, Json)>, k: string): Option<Json> {
    if fields == [] then None
    else if fields[0].0 == k then Some(fields[0].1)
    else Lookup(fields[1..], k)
  }

  /** A key is found iff it is one of the keys, and then it is found with a
      value it is paired with. */
  lemma {:induction false} LookupFound(fields: seq<(string, Json)>, k: string)
    ensures Lookup(fields, k).None? <==> k !in Keys(fields)
    ensures Lookup(fields, k).Some? ==> exists i | 0 <= i < |fields| :: fields[i] == (k, Lookup(fields, k).value)
  {
    if fields != [] {
      LookupFound(fields[1..], k);
      assert Keys(fields) == [fields[0].0] + Keys(fields[1..]);
      if fields[0].0 != k && Lookup(fields, k).Some? {
        var i :| 0 <= i < |fields[1..]| && fields[1..][i] == (k, Lookup(fields, k).value);
        assert fields[i + 1] == (k, Lookup(fields, k).value);
      }
    }
  }

  /** `v.get(k, default)`: only a dict has `.get`. */
  function Get(j: Json, k: string, default: Json): (r: Result<Json>)
    ensures r.Success? <==> j.JObj?
  {
    match j
    case JObj(fields) => Success(Lookup(fields, k).GetOr(default))
    case _ => Failure("'" + TypeName(j) + "' object has no attribute 'get'")
  }

  /** `v[k]` for a string key: a dict gives the value or raises `KeyError`;
      every other type refuses a string subscript. */
  function GetItem(j: Json, k: string): (r: Result<Json>)
    ensures r.Success? <==> j.JObj? && k in Keys(j.fields)
    ensures r.Success? ==> Lookup(j.fields, k) == Some(r.value)
  {
    match j
    case JObj(fields) =>
      LookupFound(fields, k);
      if k in Keys(fields) then Success(Lookup(fields, k).value) else Failure("'" + k + "'")
    case JArr(_) => Failure("list indices must be integers or slices, not str")
    case JStr(_) => Failure("string indices must be integers, not 'str'")
    case _ => Failure("'" + TypeName(j) + "' object is not subscriptable")
  }

  /** What `for x in v` visits: a list's items, a dict's keys, a string's
      one-character strings; any other type raises. */
  function Iterate(j: Json): (r: Result<seq<Json>>)
    ensures r.Success? <==> (j.JArr? || j.JObj? || j.JStr?)
    ensures j.JArr? ==> r == Success(j.items)
    ensures j.JObj? || j.JStr? ==> forall k | 0 <= k < |r.value| :: r.value[k].JStr?
  {
    match j
    case JArr(items) => Success(items)
    case JObj(fields) => Success(seq(|fields|, i requires 0 <= i < |fields| => JStr(fields[i].0)))
    case JStr(s) => Success(seq(|s|, i requires 0 <= i < |s| => JStr([s[i]])))
    case _ => Failure("'" + TypeName(j) + "' object is not iterable")
  }

  /** `k in v` for a string `k`: key membership for a dict, element equality
      for a list, substring for a string; any other type raises. */
  function In(k: string, j: Json): (r: Result<bool>)
    ensures r.Success? <==> (j.JObj? || j.JArr? || j.JStr?)
    ensures j.JObj? ==> r == Success(k in Keys(j.fields))
    ensures j.JArr? ==> r == Success(JStr(k) in j.items)
    ensures j.JStr? ==> r == Success(Text.Contains(j.s, k))
  {
    match j
    case JObj(fields) => Success(k in Keys(fields))
    case JArr(items) => Success(JStr(k) in items)
    case JStr(s) => Success(Text.Contains(s, k))
    case _ => Failure("argument of type '" + TypeName(j) + "' is not iterable")
  }

  /** `d[k] = v` on a dict: overwrite in place, or append a new key at the end. */
  function Assign(fields: seq<(string, Json)>, k: string, v: Json): (r: seq<(string, Json)>)
    ensures k in Keys(fields) ==> Keys(r) == Keys(fields)
    ensures k !in Keys(fields) ==> r == fields + [(k, v)]
    ensures Lookup(r, k) == Some(v)
    ensures forall k' | k' != k :: Lookup(r, k') == Lookup(fields, k')
  {
    if fields == [] then [(k, v)]
    else if fields[0].0 == k then [(k, v)] + fields[1..]
    else
      var rest := Assign(fields[1..], k, v);
      assert Keys(fields) == [fields[0].0] + Keys(fields[1..]);
      [fields[0]] + rest
  }

  /** A key finds the value of its first pair. */
  lemma {:induction false} LookupFirst(fields: seq<(string, Json)>, k: string, i: nat)
    requires i < |fields| && fields[i].0 == k
    requires forall j | 0 <= j < i :: fields[j].0 != k
    ensures Lookup(fields, k) == Some(fields[i].1)
  {
    if i > 0 {
      LookupFirst(fields[1..], k, i - 1);
    }
  }

  /** After appending a pair, a key already present still finds its old
      value; the appended key finds the appended value. */
  lemma {:induction false} LookupAppend(fields: seq<(string, Json)>, k: string, v: Json, k': string)
    ensures Lookup(fields + [(k, v)], k') ==
      if Lookup(fields, k').Some? then Lookup(fields, k') else if k' == k then Some(v) else None
  {
    if fields != [] {
      assert (fields + [(k, v)])[1..] == fields[1..] + [(k, v)];
      LookupAppend(fields[1..], k, v, k');
    }
  }

  /** The same, read from the last entry of a non-empty dict. */
  lemma LookupLast(fields: seq<(string, Json)>, k: string)
    requires fields != []
    ensures var (k', v) := fields[|fields| - 1];
      Lookup(fields, k) ==
        if Lookup(fields[..|fields| - 1], k).Some? then Lookup(fields[..|fields| - 1], k)
        else if k == k' then Some(v) else None
  {
    var (k', v) := fields[|fields| - 1];
    assert fields == fields[..|fields| - 1] + [(k', v)];
    LookupAppend(fields[..|fields| - 1], k', v, k);
  }

  /** `v[k] = x` for a string key: only a dict accepts it. */
  function SetItem(j: Json, k: string, v: Json): (r: Result<Json>)
    ensures r.Success? <==> j.JObj?
    ensures r.Success? ==> r.value == JObj(Assign(j.fields, k, v))
  {
    match j
    case JObj(fields) => Success(JObj(Assign(fields, k, v)))
    case JArr(_) => Failure("list indices must be integers or slices, not str")
    case _ => Failure("'" + TypeName(j) + "' object does not support item assignment")
  }

  /** The strings `sep.join(v)` joins: the characters of a string, the keys
      of a dict, the items of a list (each of which must be a string). */
  function JoinItems(j: Json): (r: Result<seq<string>>)
    ensures r.Success? ==> (j.JStr? || j.JObj? || j.JArr?)
    ensures j.JStr? ==> r.Success? && |r.value| == |j.s|
    ensures j.JObj? ==> r == Success(Keys(j.fields))
    ensures j.JArr? ==> (r.Success? <==> forall i | 0 <= i < |j.items| :: j.items[i].JStr?)
  {
    match j
    case JStr(s) => Success(seq(|s|, i requires 0 <= i < |s| => [s[i]]))
    case JObj(fields) => Success(Keys(fields))
    case JArr(items) => StringItems(items, 0)
    case _ => Failure("can only join an iterable")
  }

  /** The items from position `from` on, all of which must be strings;
      Python names the first offending position in its message. */
  function StringItems(items: seq<Json>, from: nat): (r: Result<seq<string>>)
    requires from <= |items|
    ensures r.Success? <==> forall i | from <= i < |items| :: items[i].JStr?
    ensures r.Success? ==> |r.value| == |items| - from
    ensures r.Success? ==> forall i | 0 <= i < |r.value| :: items[from + i] == JStr(r.value[i])
    decreases |items| - from
  {
    if from == |items| then Success([])
    else if !items[from].JStr? then
      Failure("sequence item " + Text.NatToString(from) + ": expected str instance, "
        + TypeName(items[from]) + " found")
    else
      match StringItems(items, from + 1)
      case Failure(e) => Failure(e)
      case Success(rest) => Success([items[from].s] + rest)
  }

  /** `sep.join(v)`. */
  function JoinJson(sep: string, j: Json): Result<string> {
    match JoinItems(j)
    case Failure(e) => Failure(e)
    case Success(parts) => Success(Text.Join(sep, parts))
  }

  /** Joining a list of strings is joining the strings themselves. */
  lemma {:induction false} JoinJsonStrings(sep: string, ss: seq<string>)
    ensures JoinJson(sep, JArr(seq(|ss|, i requires 0 <= i < |ss| => JStr(ss[i])))) == Success(Text.Join(sep, ss))
  {
    var items := seq(|ss|, i requires 0 <= i < |ss| => JStr(ss[i]));
    var r := StringItems(items, 0);
    assert r.Success?;
    assert r.value == ss;
  }

  // ---- json.dumps for strings and lists of strings (ensure_ascii=True) ----

  function HexDigit(d: nat): (c: char)
    requires d < 16
    ensures '0' <= c <= '9' || 'a' <= c <= 'f'
  {
    "0123456789abcdef"[d]
  }

  predicate Printable(c: char) {
    ' ' as int <= c as int <= '~' as int
  }

  /** `\uXXXX` with four lower-case hex digits. */
  function UnicodeEscape(n: nat): (r: string)
    requires n < 0x10000
    ensures |r| == 6
    ensures forall i | 0 <= i < |r| :: Printable(r[i])
  {
    ['\\', 'u', HexDigit(n / 4096), HexDigit(n / 256 % 16), HexDigit(n / 16 % 16), HexDigit(n % 16)]
  }

  /** How `json.dumps` writes one character inside a string literal. */
  function EscapeChar(c: char): (r: string)
    ensures forall i | 0 <= i < |r| :: Printable(r[i])
  {
    if c == '"' then "\\\""
    else if c == '\\' then "\\\\"
    else if c == '\n' then "\\n"
    else if c == '\r' then "\\r"
    else if c == '\t' then "\\t"
    else if c as int == 8 then "\\b"
    else if c as int == 12 then "\\f"
    else if Printable(c) then [c]
    else if c as int < 0x10000 then UnicodeEscape(c as int)
    else
      var v := c as int - 0x10000;
      UnicodeEscape(0xD800 + v / 0x400) + UnicodeEscape(0xDC00 + v % 0x400)
  }

  function EscapeString(s: string): (r: string)
    ensures forall i | 0 <= i < |r| :: Printable(r[i])
  {
    if s == [] then [] else EscapeString(s[..|s| - 1]) + EscapeChar(s[|s| - 1])
  }

  /** `json.dumps(s)` for a string. */
  function DumpString(s: string): (r: string)
    ensures |r| >= 2 && r[0] == '"' && r[|r| - 1] == '"'
    ensures forall i | 0 <= i < |r| :: Printable(r[i])
  {
    "\"" + EscapeString(s) + "\""
  }

  function DumpItems(ss: seq<string>): seq<string>
  {
    seq(|ss|, i requires 0 <= i < |ss| => DumpString(ss[i]))
  }

  /** `json.dumps(xs)` for a list of strings: `[` items separated by `, ` `]`. */
  function DumpStrings(ss: seq<string>): (r: string)
  {
    "[" + Text.Join(", ", DumpItems(ss)) + "]"
  }

  lemma {:induction false} JoinPrintable(sep: string, parts: seq<string>)
    requires forall i | 0 <= i < |sep| :: Printable(sep[i])
    requires forall k, i | 0 <= k < |parts| && 0 <= i < |parts[k]| :: Printable(parts[k][i])
    ensures forall i | 0 <= i < |Text.Join(sep, parts)| :: Printable(Text.Join(sep, parts)[i])
  {
    if |parts| > 1 {
      JoinPrintable(sep, parts[1..]);
    }
  }

  /** The encoding of a list of strings is printable ASCII, bracketed, and is
      `[]` exactly for the empty list. */
  lemma DumpStringsShape(ss: seq<string>)
    ensures var r := DumpStrings(ss);
      && |r| >= 2 && r[0] == '[' && r[|r| - 1] == ']'
      && (forall i | 0 <= i < |r| :: Printable(r[i]))
      && (r == "[]" <==> ss == [])
  {
    var items := DumpItems(ss);
    JoinPrintable(", ", items);
    if ss != [] {
      assert |Text.Join(", ", items)| >= |items[0]| by { JoinLength(", ", items); }
    }
  }

  lemma {:induction false} JoinLength(sep: string, parts: seq<string>)
    requires parts != []
    ensures |Text.Join(sep, parts)| >= |parts[0]|
  {
  }
}
