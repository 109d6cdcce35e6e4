/** JSON documents as the emitter builds them (objects keep insertion order), and `json.dumps`
    of a flat dict of strings. */
module Json {
  import opened Wrappers
  import opened Dicts
  import opened Strings

  datatype Json =
    | JNull
    | JBool(b: bool)
    | JStr(s: string)
    | JArr(items: seq<Json>)
    | JObj(fields: Dict<Json>)

  /** `obj[k]` when `j` is an object holding `k`. */
  function Field(j: Json, k: string): Option<Json> {
    if j.JObj? then Get(j.fields, k) else None
  }

  predicate IsPrintableAscii(c: char) {
    ' ' <= c <= '~'
  }

  function HexDigit(n: nat): (c: char)
    requires n < 16
    ensures IsPrintableAscii(c)
  {
    if n < 10 then ('0' as int + n) as char else ('a' as int + n - 10) as char
  }

  /** `'{0:04x}'.format(n)`. */
  function Hex4(n: nat): (r: string)
    requires n < 0x1_0000
    ensures |r| == 4
    ensures forall c :: c in r ==> IsPrintableAscii(c)
  {
    [HexDigit(n / 0x1000), HexDigit(n / 0x100 % 16), HexDigit(n / 0x10 % 16), HexDigit(n % 16)]
  }

  /** One character of a JSON string literal with `ensure_ascii`: the two-character escapes,
      `\u` escapes for the rest of the control and non-ASCII range (surrogate pairs above the BMP),
      and printable ASCII as itself. */
  function EscapeChar(c: char): (r: string)
    ensures forall e :: e in r ==> IsPrintableAscii(e)
    ensures IsPrintableAscii(c) && c != '"' && c != '\\' ==> r == [c]
  {
    if c == '"' then "\\\""
    else if c == '\\' then "\\\\"
    else if c == '\n' then "\\n"
    else if c == '\r' then "\\r"
    else if c == '\t' then "\\t"
    else if c == '\U{0008}' then "\\b"
    else if c == '\U{000C}' then "\\f"
    else if IsPrintableAscii(c) then [c]
    else if c as int < 0x1_0000 then "\\u" + Hex4(c as int)
    else
      var n := c as int - 0x1_0000;
      "\\u" + Hex4(0xD800 + n / 0x400) + "\\u" + Hex4(0xDC00 + n % 0x400)
  }

  function EscapeString(s: string): (r: string)
    ensures forall e :: e in r ==> IsPrintableAscii(e)
  {
    if |s| == 0 then "" else EscapeChar(s[0]) + EscapeString(s[1..])
  }

  function Quote(s: string): (r: string)
    ensures forall e :: e in r ==> IsPrintableAscii(e)
  {
    "\"" + EscapeString(s) + "\""
  }

  /** `json.dumps(d)` with its default separators `", "` and `": "`. */
  function Dumps(d: Dict<string>): string {
    "{" + Join(seq(|d|, i requires 0 <= i < |d| => Quote(d[i].0) + ": " + Quote(d[i].1)), ", ") + "}"
  }

  lemma {:induction false} JoinPrintable(ps: seq<string>, sep: string)
    requires forall c :: c in sep ==> IsPrintableAscii(c)
    requires forall i, c :: 0 <= i < |ps| && c in ps[i] ==> IsPrintableAscii(c)
    ensures forall c :: c in Join(ps, sep) ==> IsPrintableAscii(c)
    decreases |ps|
  {
    if |ps| > 1 {
      JoinPrintable(ps[1..], sep);
    }
  }

  /** With `ensure_ascii` the encoded text is printable ASCII whatever the keys and values hold. */
  lemma DumpsIsPrintableAscii(d: Dict<string>)
    ensures forall c :: c in Dumps(d) ==> IsPrintableAscii(c)
  {
    var ps := seq(|d|, i requires 0 <= i < |d| => Quote(d[i].0) + ": " + Quote(d[i].1));
    JoinPrintable(ps, ", ");
  }
}
