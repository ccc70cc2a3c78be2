/**
  The JavaScript values the example servers keep in their state tables, the
  points they emit, and the text `JSON.stringify` makes of a point, whose
  length `generateTelemetry` adds to `comms.sent`.
 */
module Json {
  import opened Wrappers
  import Decimal

  /** A JSON value as the servers see it (integers only). */
  datatype Value = Num(n: int) | Str(s: string) | Bool(b: bool) | Null | Undefined | NaN

  /**
    JavaScript's `ToNumber` of a value that is not a string: `None` stands
    for `NaN`.
   */
  function ToNumber(v: Value): Option<int>
    requires !v.Str?
  {
    match v
    case Num(a) => Some(a)
    case Bool(b) => Some(if b then 1 else 0)
    case Null => Some(0)
    case Undefined => None
    case NaN => None
  }

  /**
    JavaScript's `v += n` for a non-negative integer `n`, by the addition
    rule of ECMAScript: when one operand is a string, both are written as
    strings and concatenated; otherwise both are converted to numbers and
    added, and a `NaN` operand gives `NaN`.
   */
  function JsAdd(v: Value, n: nat): (r: Value)
    ensures v.Str? ==> r.Str? && r.s == v.s + Decimal.Show(n)
    ensures !v.Str? && ToNumber(v).Some? ==> r == Num(ToNumber(v).value + n)
    ensures !v.Str? && ToNumber(v).None? ==> r.NaN?
    ensures r.Str? <==> v.Str?
  {
    match v
    case Num(a) => Num(a + n)
    case Str(s) => Str(s + Decimal.Show(n))
    case Bool(b) => Num((if b then 1 else 0) + n)
    case Null => Num(n)
    case Undefined => NaN
    case NaN => NaN
  }

  /** `{timestamp, value, id}`: one generated telemetry point. */
  datatype Point = Point(timestamp: int, value: Value, id: string)

  /** One character of a JSON string literal, as `JSON.stringify` writes it. */
  function Escape(c: char): (r: string)
    ensures 1 <= |r| <= 6
    ensures c >= ' ' && c != '"' && c != '\\' ==> r == [c]
  {
    if c == '"' then "\\\""
    else if c == '\\' then "\\\\"
    else if c == '\U{0008}' then "\\b"
    else if c == '\t' then "\\t"
    else if c == '\n' then "\\n"
    else if c == '\U{000C}' then "\\f"
    else if c == '\r' then "\\r"
    else if c < ' ' then "\\u00" + [HexDigit(c as int / 16), HexDigit(c as int % 16)]
    else [c]
  }

  function HexDigit(d: nat): (c: char)
    requires d < 16
    ensures c as int <= 'f' as int
  {
    if d < 10 then ('0' as int + d) as char else ('a' as int + d - 10) as char
  }

  function EscapeAll(s: string): (r: string)
    ensures |r| >= |s|
  {
    if s == [] then [] else EscapeAll(s[..|s| - 1]) + Escape(s[|s| - 1])
  }

  /** `JSON.stringify` of a string: quoted, with `"`, `\` and control characters escaped. */
  function Quote(s: string): (r: string)
    ensures |r| >= |s| + 2 && r[0] == '"' && r[|r| - 1] == '"'
  {
    "\"" + EscapeAll(s) + "\""
  }

  /** `JSON.stringify` of a member's value; `None` when the member is dropped (`undefined`). */
  function Stringify(v: Value): Option<string> {
    match v
    case Num(n) => Some(Decimal.Show(n))
    case Str(s) => Some(Quote(s))
    case Bool(b) => Some(if b then "true" else "false")
    case Null => Some("null")
    case Undefined => None
    case NaN => Some("null")
  }

  /** `JSON.stringify({timestamp, value, id})`, members in that order. */
  function PointJson(p: Point): string {
    "{\"timestamp\":" + Decimal.Show(p.timestamp) + ValueMember(p.value) + ",\"id\":" + Quote(p.id) + "}"
  }

  /** The `,"value":<text>` member, or nothing when `JSON.stringify` drops it (`undefined`). */
  function ValueMember(v: Value): string {
    match Stringify(v)
    case Some(t) => ",\"value\":" + t
    case None => ""
  }

  /** A JavaScript string's `length`: UTF-16 code units, two for a character beyond the Basic Multilingual Plane. */
  function Utf16Length(s: string): (n: nat)
    ensures |s| <= n <= 2 * |s|
  {
    if s == [] then 0 else Utf16Length(s[..|s| - 1]) + CodeUnits(s[|s| - 1])
  }

  function CodeUnits(c: char): nat {
    if c as int > 0xFFFF then 2 else 1
  }

  /** The length of `Escape(c)` in UTF-16 code units. */
  function EscapeSize(c: char): nat {
    if c == '"' || c == '\\' || c == '\U{0008}' || c == '\t' || c == '\n' || c == '\U{000C}' || c == '\r' then 2
    else if c < ' ' then 6
    else CodeUnits(c)
  }

  function EscapedSize(s: string): (n: nat)
    ensures n >= |s|
  {
    if s == [] then 0 else EscapedSize(s[..|s| - 1]) + EscapeSize(s[|s| - 1])
  }

  /** The length of `,"value":<text>`, or 0 when the member is dropped. */
  function ValueSize(v: Value): nat {
    match v
    case Num(n) => 9 + |Decimal.Show(n)|
    case Str(s) => 11 + EscapedSize(s)
    case Bool(b) => if b then 13 else 14
    case Null => 13
    case Undefined => 0
    case NaN => 13
  }

  /**
    `JSON.stringify(point).length`, counted member by member:
    `{"timestamp":`, the digits, the value member, `,"id":`, the quoted id, `}`.
   */
  function Size(p: Point): (n: nat)
    ensures n >= 23 + |p.id|
  {
    22 + |Decimal.Show(p.timestamp)| + ValueSize(p.value) + EscapedSize(p.id)
  }

  /** The counted size is exactly the `length` of the JSON text. */
  lemma SizeIsJsonLength(p: Point)
    ensures Size(p) == Utf16Length(PointJson(p))
  {
    var open, ts, member, mid, id, close := "{\"timestamp\":", Decimal.Show(p.timestamp), ValueMember(p.value), ",\"id\":", Quote(p.id), "}";
    FramingLength();
    ShowLength(p.timestamp);
    ValueMemberLength(p.value);
    QuoteLength(p.id);
    Utf16Concat(open, ts);
    Utf16Concat(open + ts, member);
    Utf16Concat(open + ts + member, mid);
    Utf16Concat(open + ts + member + mid, id);
    Utf16Concat(open + ts + member + mid + id, close);
  }

  /** The fixed text around the members: `{"timestamp":`, `,"id":` and `}`. */
  lemma FramingLength()
    ensures Utf16Length("{\"timestamp\":") == 13 && Utf16Length(",\"id\":") == 6 && Utf16Length("}") == 1
  {
    AsciiLength("{\"timestamp\":");
    AsciiLength(",\"id\":");
    AsciiLength("}");
  }

  lemma ValueMemberLength(v: Value)
    ensures Utf16Length(ValueMember(v)) == ValueSize(v)
  {
    var key := ",\"value\":";
    KeywordLength();
    match v
    case Num(n) =>
      ShowLength(n);
      Utf16Concat(key, Decimal.Show(n));
    case Str(s) =>
      QuoteLength(s);
      Utf16Concat(key, Quote(s));
    case Bool(b) =>
      Utf16Concat(key, if b then "true" else "false");
    case Null =>
      Utf16Concat(key, "null");
    case Undefined =>
    case NaN =>
      Utf16Concat(key, "null");
  }

  /** The member name `,"value":` and the literals `true`, `false` and `null`. */
  lemma KeywordLength()
    ensures Utf16Length(",\"value\":") == 9
    ensures Utf16Length("true") == 4 && Utf16Length("false") == 5 && Utf16Length("null") == 4
  {
    AsciiLength(",\"value\":");
    AsciiLength("true");
    AsciiLength("false");
    AsciiLength("null");
  }

  lemma QuoteLength(s: string)
    ensures Utf16Length(Quote(s)) == 2 + EscapedSize(s)
  {
    EscapeAllLength(s);
    Utf16Concat("\"", EscapeAll(s));
    Utf16Concat("\"" + EscapeAll(s), "\"");
  }

  lemma {:induction false} EscapeAllLength(s: string)
    ensures Utf16Length(EscapeAll(s)) == EscapedSize(s)
  {
    if s != [] {
      EscapeAllLength(s[..|s| - 1]);
      EscapeLength(s[|s| - 1]);
      Utf16Concat(EscapeAll(s[..|s| - 1]), Escape(s[|s| - 1]));
    }
  }

  lemma EscapeLength(c: char)
    ensures Utf16Length(Escape(c)) == EscapeSize(c)
  {
    if c < ' ' && !(c == '\U{0008}' || c == '\t' || c == '\n' || c == '\U{000C}' || c == '\r') {
      var e := Escape(c);
      assert |e| == 6;
      AsciiLength(e);
    }
  }

  /** Every character lies in the Basic Multilingual Plane, so counts one code unit. */
  predicate InBmp(s: string) {
    forall i :: 0 <= i < |s| ==> s[i] as int <= 0xFFFF
  }

  /** A numeral is ASCII, so its `length` is its number of characters. */
  lemma ShowLength(n: int)
    ensures Utf16Length(Decimal.Show(n)) == |Decimal.Show(n)|
  {
    var s := Decimal.Show(n);
    forall i | 0 <= i < |s| ensures s[i] as int <= 0xFFFF {
      if n < 0 {
        assert i == 0 || s[i] == Decimal.NatString(-n)[i - 1];
      }
    }
    AsciiLength(s);
  }

  lemma {:induction false} AsciiLength(s: string)
    requires InBmp(s)
    ensures Utf16Length(s) == |s|
  {
    if s != [] {
      AsciiLength(s[..|s| - 1]);
    }
  }

  /** `length` adds up over concatenation. */
  lemma {:induction false} Utf16Concat(a: string, b: string)
    ensures Utf16Length(a + b) == Utf16Length(a) + Utf16Length(b)
    decreases |b|
  {
    if b == [] {
      assert a + b == a;
    } else {
      assert (a + b)[..|a + b| - 1] == a + b[..|b| - 1];
      Utf16Concat(a, b[..|b| - 1]);
    }
  }
}
