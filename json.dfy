/**
 * JSON values as Python's `json` module produces and consumes them
 * (`None`, `bool`, `int`, `str`, `list`, `dict` in insertion order), and
 * `json.dumps` with its default settings (`ensure_ascii=True`, separators
 * `", "` and `": "`).
 */
module JsonValues {
  import opened Text

  /**
   * A `JObj` stands for a decoded dict, so its keys are distinct: `json.loads`
   * keeps one pair per key. The type does not enforce this; on such pairs
   * `Dumps` writes each key once, as `json.dumps` does.
   */
  datatype Json =
    | JNull
    | JBool(b: bool)
    | JInt(i: int)
    | JStr(s: string)
    | JArr(items: seq<Json>)
    | JObj(fields: seq<(string, Json)>)

  predicate IsAscii(s: string) { forall i :: 0 <= i < |s| ==> s[i] as int < 128 }

  lemma AsciiConcat(a: string, b: string)
    requires IsAscii(a) && IsAscii(b)
    ensures IsAscii(a + b)
  {
    assert forall i :: 0 <= i < |a + b| ==> (a + b)[i] == if i < |a| then a[i] else b[i - |a|];
  }

  lemma {:induction false} AsciiJoin(sep: string, parts: seq<string>)
    requires IsAscii(sep)
    requires forall i :: 0 <= i < |parts| ==> IsAscii(parts[i])
    ensures IsAscii(Join(sep, parts))
  {
    if |parts| > 1 {
      AsciiJoin(sep, parts[1..]);
      AsciiConcat(parts[0], sep);
      AsciiConcat(parts[0] + sep, Join(sep, parts[1..]));
    }
  }

  function HexDigit(d: nat): (c: char)
    requires d < 16
    ensures c as int < 128
  {
    if d < 10 then DigitChar(d) else (('a' as int) + d - 10) as char
  }

  /** Four lower-case hex digits, as `'{0:04x}'.format(n)` writes them. */
  function Hex4(n: nat): (s: string)
    requires n < 0x1_0000
    ensures |s| == 4 && IsAscii(s)
  {
    [HexDigit(n / 0x1000), HexDigit(n / 0x100 % 16), HexDigit(n / 0x10 % 16), HexDigit(n % 16)]
  }

  /** How `json.dumps` writes one character of a string with `ensure_ascii=True`. */
  function EscapeChar(c: char): (r: string)
    ensures IsAscii(r)
  {
    if c == '"' then "\\\""
    else if c == '\\' then "\\\\"
    else if c == '\n' then "\\n"
    else if c == '\r' then "\\r"
    else if c == '\t' then "\\t"
    else if c == '\U{8}' then "\\b"
    else if c == '\U{c}' then "\\f"
    else if ' ' <= c <= '~' then [c]
    else if (c as int) < 0x1_0000 then "\\u" + Hex4(c as int)
    else
      var n := c as int - 0x1_0000;
      "\\u" + Hex4(0xd800 + n / 0x400) + "\\u" + Hex4(0xdc00 + n % 0x400)
  }

  function EscapeString(s: string): (r: string)
    ensures IsAscii(r)
  {
    if s == [] then ""
    else
      AsciiConcat(EscapeChar(s[0]), EscapeString(s[1..]));
      EscapeChar(s[0]) + EscapeString(s[1..])
  }

  function Quote(s: string): (r: string)
    ensures IsAscii(r)
  {
    AsciiConcat("\"", EscapeString(s));
    AsciiConcat("\"" + EscapeString(s), "\"");
    "\"" + EscapeString(s) + "\""
  }

  /** `json.dumps(j)`: the text is ASCII whatever the strings hold. */
  function Dumps(j: Json): (r: string)
    ensures IsAscii(r)
    decreases j, 0
  {
    match j
    case JNull => "null"
    case JBool(b) => if b then "true" else "false"
    case JInt(i) => IntToString(i)
    case JStr(s) => Quote(s)
    case JArr(items) =>
      var parts := seq(|items|, k requires 0 <= k < |items| => Dumps(items[k]));
      AsciiJoin(", ", parts);
      AsciiConcat("[", Join(", ", parts));
      AsciiConcat("[" + Join(", ", parts), "]");
      "[" + Join(", ", parts) + "]"
    case JObj(fields) =>
      var parts := seq(|fields|, k requires 0 <= k < |fields| => DumpsField(fields[k].0, fields[k].1));
      AsciiJoin(", ", parts);
      AsciiConcat("{", Join(", ", parts));
      AsciiConcat("{" + Join(", ", parts), "}");
      "{" + Join(", ", parts) + "}"
  }

  function DumpsField(key: string, value: Json): (r: string)
    ensures IsAscii(r)
    decreases value, 1
  {
    AsciiConcat(Quote(key), ": ");
    AsciiConcat(Quote(key) + ": ", Dumps(value));
    Quote(key) + ": " + Dumps(value)
  }

  /**
   * Python's `d[key]` on a dict held as its key/value pairs: `None` when it
   * raises KeyError. Searching from the end finds the value `json.loads`
   * keeps for a key the text repeats.
   */
  function Lookup(fields: seq<(string, Json)>, key: string): Wrappers.Option<Json> {
    if |fields| == 0 then Wrappers.None
    else if fields[|fields| - 1].0 == key then Wrappers.Some(fields[|fields| - 1].1)
    else Lookup(fields[..|fields| - 1], key)
  }

  /** A lookup succeeds iff the key is present, and then yields the value at its last occurrence. */
  lemma {:induction false} LookupFinds(fields: seq<(string, Json)>, key: string)
    ensures var r := Lookup(fields, key);
      && (r.Some? <==> exists k :: 0 <= k < |fields| && fields[k].0 == key)
      && (r.Some? ==> exists k :: 0 <= k < |fields| && fields[k] == (key, r.value)
                                  && forall m :: k < m < |fields| ==> fields[m].0 != key)
    decreases |fields|
  {
    if |fields| > 0 && fields[|fields| - 1].0 != key {
      var init := fields[..|fields| - 1];
      LookupFinds(init, key);
      assert forall k :: 0 <= k < |fields| - 1 ==> fields[k] == init[k];
    }
  }

  /** The value a key last written at position `k` is the one looked up. */
  lemma {:induction false} LookupAt(fields: seq<(string, Json)>, k: nat)
    requires k < |fields| && forall m :: k < m < |fields| ==> fields[m].0 != fields[k].0
    ensures Lookup(fields, fields[k].0) == Wrappers.Some(fields[k].1)
    decreases |fields|
  {
    if k < |fields| - 1 {
      var init := fields[..|fields| - 1];
      assert init[k] == fields[k];
      LookupAt(init, k);
    }
  }

  /** `d[key]` is `v`: the key's last pair holds `v`. */
  predicate Field(fields: seq<(string, Json)>, key: string, v: Json) {
    exists k :: 0 <= k < |fields| && fields[k] == (key, v) && forall m :: k < m < |fields| ==> fields[m].0 != key
  }

  /** `key` is not a key of the dict. */
  predicate Absent(fields: seq<(string, Json)>, key: string) {
    forall k :: 0 <= k < |fields| ==> fields[k].0 != key
  }

  lemma FieldLookup(fields: seq<(string, Json)>, key: string, v: Json)
    requires Field(fields, key, v)
    ensures Lookup(fields, key) == Wrappers.Some(v)
  {
    var k :| 0 <= k < |fields| && fields[k] == (key, v) && forall m :: k < m < |fields| ==> fields[m].0 != key;
    LookupAt(fields, k);
  }

  lemma AbsentLookup(fields: seq<(string, Json)>, key: string)
    requires Absent(fields, key)
    ensures Lookup(fields, key) == Wrappers.None
  {
    LookupFinds(fields, key);
  }
}
