/** The flat JSON form of a provider error (crates/keplor-store/src/mapping.rs): strings escaped
    as in section 7 of RFC 8259, numbers unsigned integers, one object. */
module ErrorJson {
  import opened Enumerations
  import opened Wrappers
  import opened MachineInts
  import opened Events
  import Decimal

  // ── Strings ──────────────────────────────────────────────────────────

  function HexDigit(k: int): (c: char)
    requires 0 <= k <= 15
    ensures HexValue(c) == Some(k)
  {
    if k < 10 then (k + 48) as char else (k + 87) as char
  }

  function HexValue(c: char): (k: Option<int>)
    ensures k.Some? ==> 0 <= k.value <= 15
  {
    if '0' <= c <= '9' then Some(c as int - 48)
    else if 'a' <= c <= 'f' then Some(c as int - 87)
    else if 'A' <= c <= 'F' then Some(c as int - 55)
    else None
  }

  /** The digits are the usual ones; the printer writes lower case, the reader takes either. */
  lemma HexDigits(k: int, c: char)
    requires 0 <= k <= 15
    ensures HexDigit(k) == "0123456789abcdef"[k]
    ensures HexValue(c) == Some(k) <==> c == "0123456789abcdef"[k] || c == "0123456789ABCDEF"[k]
  {
  }

  /** How the printer writes one character. */
  function EscapeChar(c: char): string {
    if c == '\"' then "\\\""
    else if c == '\\' then "\\\\"
    else if c as int == 8 then "\\b"
    else if c as int == 12 then "\\f"
    else if c == '\n' then "\\n"
    else if c == '\r' then "\\r"
    else if c == '\t' then "\\t"
    else if c as int < 32 then ['\\', 'u', '0', '0', HexDigit(c as int / 16), HexDigit(c as int % 16)]
    else [c]
  }

  function Escape(s: string): string {
    if s == [] then [] else EscapeChar(s[0]) + Escape(s[1..])
  }

  function Quote(s: string): string {
    ['\"'] + Escape(s) + ['\"']
  }

  function Hex4(s: string): Option<int>
    requires |s| >= 4
  {
    var a, b, c, d := HexValue(s[0]), HexValue(s[1]), HexValue(s[2]), HexValue(s[3]);
    if a.Some? && b.Some? && c.Some? && d.Some? then Some(a.value * 4096 + b.value * 256 + c.value * 16 + d.value)
    else None
  }

  datatype Scan<T> = Failed | Got(value: T, rest: string)

  /** The character after a backslash-u: one code unit, or two that form a surrogate pair. */
  function UnicodeEscape(s: string): (r: Scan<char>)
    ensures r.Got? ==> |r.rest| < |s|
  {
    if |s| < 4 || Hex4(s).None? then Failed
    else
      var unit := Hex4(s).value;
      if 0xDC00 <= unit < 0xE000 then Failed
      else if !(0xD800 <= unit < 0xDC00) then Got(unit as char, s[4..])
      else if |s| < 10 || s[4] != '\\' || s[5] != 'u' || Hex4(s[6..]).None? then Failed
      else
        var low := Hex4(s[6..]).value;
        if 0xDC00 <= low < 0xE000 then Got((0x10000 + (unit - 0xD800) * 0x400 + (low - 0xDC00)) as char, s[10..])
        else Failed
  }

  /** One character of a string literal, possibly escaped; control characters are refused. */
  function ScanChar(s: string): (r: Scan<char>)
    requires s != []
    ensures r.Got? ==> |r.rest| < |s|
  {
    if s[0] as int < 32 then Failed
    else if s[0] != '\\' then Got(s[0], s[1..])
    else if |s| < 2 then Failed
    else
      match s[1]
      case '\"' => Got('\"', s[2..])
      case '\\' => Got('\\', s[2..])
      case '/' => Got('/', s[2..])
      case 'b' => Got(8 as char, s[2..])
      case 'f' => Got(12 as char, s[2..])
      case 'n' => Got('\n', s[2..])
      case 'r' => Got('\r', s[2..])
      case 't' => Got('\t', s[2..])
      case 'u' => UnicodeEscape(s[2..])
      case _ => Failed
  }

  /** The text of a string literal up to its closing quote. */
  function ScanText(s: string): (r: Scan<string>)
    ensures r.Got? ==> |r.rest| < |s|
    decreases |s|
  {
    if s == [] then Failed
    else if s[0] == '\"' then Got([], s[1..])
    else
      var c := ScanChar(s);
      if c.Failed? then Failed
      else
        var tail := ScanText(c.rest);
        if tail.Failed? then Failed else Got([c.value] + tail.value, tail.rest)
  }

  lemma ScanEscapedChar(c: char, rest: string)
    ensures ScanChar(EscapeChar(c) + rest) == Got(c, rest)
    ensures EscapeChar(c)[0] != '\"'
  {
  }

  lemma ScanTextSteps(s: string, c: char, tail: string, text: string, rest: string)
    requires s != [] && s[0] != '\"' && ScanChar(s) == Got(c, tail) && ScanText(tail) == Got(text, rest)
    ensures ScanText(s) == Got([c] + text, rest)
  {
  }

  lemma EscapedThen(first: string, others: string, rest: string)
    ensures first + others + ['\"'] + rest == first + (others + ['\"'] + rest)
  {
  }

  /** Whatever the message text, its printed form reads back as the same text. */
  lemma {:induction false} ScanQuoted(s: string, rest: string)
    ensures ScanText(Escape(s) + ['\"'] + rest) == Got(s, rest)
  {
    if s == [] {
      assert (Escape(s) + ['\"'] + rest)[1..] == rest;
    } else {
      var tail := Escape(s[1..]) + ['\"'] + rest;
      ScanQuoted(s[1..], rest);
      ScanEscapedChar(s[0], tail);
      EscapedThen(EscapeChar(s[0]), Escape(s[1..]), rest);
      ScanTextSteps(EscapeChar(s[0]) + tail, s[0], tail, s[1..], rest);
      assert [s[0]] + s[1..] == s;
    }
  }

  // ── Numbers ──────────────────────────────────────────────────────────

  function DigitRun(s: string): (n: nat)
    ensures n <= |s| && Decimal.AllDigits(s[..n]) && (n < |s| ==> !Decimal.IsDigit(s[n]))
  {
    if s == [] || !Decimal.IsDigit(s[0]) then 0 else 1 + DigitRun(s[1..])
  }

  /** An unsigned integer without leading zeros. */
  function ScanNumber(s: string): (r: Scan<nat>)
    ensures r.Got? ==> |r.rest| < |s|
  {
    var n := DigitRun(s);
    if n == 0 || (n > 1 && s[0] == '0') then Failed else Got(Decimal.Value(s[..n]), s[n..])
  }

  lemma {:induction false} RunOf(digits: string, rest: string)
    requires Decimal.AllDigits(digits) && (rest == [] || !Decimal.IsDigit(rest[0]))
    ensures DigitRun(digits + rest) == |digits|
  {
    if digits == [] {
      assert digits + rest == rest;
    } else {
      RunOf(digits[1..], rest);
      assert (digits + rest)[1..] == digits[1..] + rest;
    }
  }

  lemma ScanPrinted(n: nat, rest: string)
    requires rest == [] || !Decimal.IsDigit(rest[0])
    ensures ScanNumber(Decimal.Print(n) + rest) == Got(n, rest)
  {
    var digits := Decimal.Print(n);
    var s := digits + rest;
    var run := DigitRun(s);
    RunOf(digits, rest);
    assert s[..run] == digits && s[run..] == rest;
    Decimal.ValueOfPrint(n);
    Decimal.NoLeadingZero(n);
    if n == 0 { assert |digits| == 1; } else { assert s[0] == digits[0]; }
  }

  // ── Objects ──────────────────────────────────────────────────────────

  datatype Value = Str(text: string) | Num(n: nat)
  datatype Field = Field(name: string, value: Value)

  function PrintValue(v: Value): string {
    match v
    case Str(text) => Quote(text)
    case Num(n) => Decimal.Print(n)
  }

  function PrintField(f: Field): string {
    Quote(f.name) + ":" + PrintValue(f.value)
  }

  function PrintFields(fields: seq<Field>): string
    requires fields != []
  {
    if |fields| == 1 then PrintField(fields[0]) else PrintField(fields[0]) + "," + PrintFields(fields[1..])
  }

  function PrintObject(fields: seq<Field>): string
    requires fields != []
  {
    "{" + PrintFields(fields) + "}"
  }

  function ScanValue(s: string): (r: Scan<Value>)
    ensures r.Got? ==> |r.rest| < |s|
  {
    if s != [] && s[0] == '\"' then
      var text := ScanText(s[1..]);
      if text.Got? then Got(Str(text.value), text.rest) else Failed
    else
      var n := ScanNumber(s);
      if n.Got? then Got(Num(n.value), n.rest) else Failed
  }

  function ScanField(s: string): (r: Scan<Field>)
    ensures r.Got? ==> |r.rest| < |s|
  {
    if s == [] || s[0] != '\"' then Failed
    else
      var name := ScanText(s[1..]);
      if name.Failed? || name.rest == [] || name.rest[0] != ':' then Failed
      else
        var value := ScanValue(name.rest[1..]);
        if value.Failed? then Failed else Got(Field(name.value, value.value), value.rest)
  }

  /** The fields up to the closing brace. */
  function ScanFields(s: string): (r: Scan<seq<Field>>)
    decreases |s|
  {
    var f := ScanField(s);
    if f.Failed? || f.rest == [] then Failed
    else if f.rest[0] == '}' then Got([f.value], f.rest[1..])
    else if f.rest[0] != ',' then Failed
    else
      var tail := ScanFields(f.rest[1..]);
      if tail.Failed? then Failed else Got([f.value] + tail.value, tail.rest)
  }

  /** A whole document that is one flat object. */
  function ParseObject(s: string): Option<seq<Field>> {
    if s == [] || s[0] != '{' then None
    else if s == "{}" then Some([])
    else
      var fields := ScanFields(s[1..]);
      if fields.Got? && fields.rest == [] then Some(fields.value) else None
  }

  lemma ScanQuotedValue(s: string, text: string, rest: string)
    requires s != [] && s[0] == '\"' && ScanText(s[1..]) == Got(text, rest)
    ensures ScanValue(s) == Got(Str(text), rest)
  {
  }

  lemma ScanNumberValue(s: string, n: nat, rest: string)
    requires s != [] && s[0] != '\"' && ScanNumber(s) == Got(n, rest)
    ensures ScanValue(s) == Got(Num(n), rest)
  {
  }

  lemma PrintedStart(n: nat, rest: string)
    ensures var s := Decimal.Print(n) + rest; s != [] && s[0] != '\"'
  {
    assert (Decimal.Print(n) + rest)[0] == Decimal.Print(n)[0];
  }

  lemma ScanPrintedValue(v: Value, rest: string)
    requires rest == [] || !Decimal.IsDigit(rest[0])
    ensures ScanValue(PrintValue(v) + rest) == Got(v, rest)
  {
    match v
    case Str(text) =>
      QuotedThen(text, rest);
      ScanQuotedValue(Quote(text) + rest, text, rest);
    case Num(n) =>
      PrintedStart(n, rest);
      ScanPrinted(n, rest);
      ScanNumberValue(Decimal.Print(n) + rest, n, rest);
  }

  lemma ScanFieldSteps(s: string, name: string, after: string, v: Value, rest: string)
    requires s != [] && s[0] == '\"' && ScanText(s[1..]) == Got(name, after)
    requires after != [] && after[0] == ':' && ScanValue(after[1..]) == Got(v, rest)
    ensures ScanField(s) == Got(Field(name, v), rest)
  {
  }

  lemma QuotedThen(name: string, after: string)
    ensures (Quote(name) + after)[0] == '\"' && ScanText((Quote(name) + after)[1..]) == Got(name, after)
  {
    assert (Quote(name) + after)[1..] == Escape(name) + ['\"'] + after;
    ScanQuoted(name, after);
  }

  lemma FieldText(quoted: string, value: string, rest: string)
    ensures quoted + ":" + value + rest == quoted + (":" + (value + rest))
    ensures (":" + (value + rest))[1..] == value + rest
  {
  }

  lemma ScanPrintedField(f: Field, rest: string)
    requires rest == [] || !Decimal.IsDigit(rest[0])
    ensures ScanField(PrintField(f) + rest) == Got(f, rest)
  {
    var quoted, value := Quote(f.name), PrintValue(f.value);
    var after := ":" + (value + rest);
    ScanPrintedValue(f.value, rest);
    QuotedThen(f.name, after);
    FieldText(quoted, value, rest);
    ScanFieldSteps(quoted + after, f.name, after, f.value, rest);
  }

  lemma ScanFieldsLast(s: string, f: Field)
    requires ScanField(s) == Got(f, "}")
    ensures ScanFields(s) == Got([f], "")
  {
    assert "}"[1..] == "";
  }

  lemma ScanFieldsMore(s: string, f: Field, tail: string, fields: seq<Field>)
    requires ScanField(s) == Got(f, "," + tail) && ScanFields(tail) == Got(fields, "")
    ensures ScanFields(s) == Got([f] + fields, "")
  {
    assert ("," + tail)[1..] == tail;
  }

  lemma MoreText(first: string, others: string)
    ensures first + "," + others + "}" == first + ("," + (others + "}"))
  {
  }

  lemma ScanOneField(f: Field)
    ensures ScanFields(PrintField(f) + "}") == Got([f], "")
  {
    ScanPrintedField(f, "}");
    ScanFieldsLast(PrintField(f) + "}", f);
  }

  lemma ScanOneMoreField(f: Field, others: string, fields: seq<Field>)
    requires ScanFields(others + "}") == Got(fields, "")
    ensures ScanFields(PrintField(f) + "," + others + "}") == Got([f] + fields, "")
  {
    var tail := others + "}";
    ScanPrintedField(f, "," + tail);
    ScanFieldsMore(PrintField(f) + ("," + tail), f, tail, fields);
    MoreText(PrintField(f), others);
  }

  lemma {:induction false} ScanPrintedFields(fields: seq<Field>)
    requires fields != []
    ensures ScanFields(PrintFields(fields) + "}") == Got(fields, "")
  {
    if |fields| == 1 {
      ScanOneField(fields[0]);
      assert fields == [fields[0]];
    } else {
      ScanPrintedFields(fields[1..]);
      ScanOneMoreField(fields[0], PrintFields(fields[1..]), fields[1..]);
      FirstThenRest(fields);
    }
  }

  lemma FieldsText(fields: seq<Field>)
    requires fields != []
    ensures PrintFields(fields) != []
  {
  }

  lemma ParseText(text: string, fields: seq<Field>)
    requires text != [] && ScanFields(text + "}") == Got(fields, "")
    ensures ParseObject("{" + text + "}") == Some(fields)
  {
    Braced(text);
    ParseSteps("{" + text + "}", text + "}", fields);
  }

  lemma Braced(text: string)
    requires text != []
    ensures var s := "{" + text + "}"; |s| > 2 && s[0] == '{' && s[1..] == text + "}"
  {
  }

  lemma ParseSteps(s: string, rest: string, fields: seq<Field>)
    requires |s| > 2 && s[0] == '{' && s[1..] == rest && ScanFields(rest) == Got(fields, "")
    ensures ParseObject(s) == Some(fields)
  {
  }

  /** Every printed flat object parses back to its fields, for arbitrary names and text. */
  lemma ParsePrinted(fields: seq<Field>)
    requires fields != []
    ensures ParseObject(PrintObject(fields)) == Some(fields)
  {
    ScanPrintedFields(fields);
    FieldsText(fields);
    ParseText(PrintFields(fields), fields);
  }

  /** The value of a name; a repeated name takes its last value. */
  function Get(fields: seq<Field>, name: string): Option<Value> {
    if fields == [] then None
    else if fields[|fields| - 1].name == name then Some(fields[|fields| - 1].value)
    else Get(fields[..|fields| - 1], name)
  }

  function GetText(fields: seq<Field>, name: string): Option<string> {
    var v := Get(fields, name);
    if v.Some? && v.value.Str? then Some(v.value.text) else None
  }

  /** `as_u64`: a number too large for 64 bits is not one. */
  function GetU64(fields: seq<Field>, name: string): Option<u64> {
    var v := Get(fields, name);
    if v.Some? && v.value.Num? && v.value.n <= U64_MAX then Some(v.value.n) else None
  }

  // ── Provider errors ──────────────────────────────────────────────────

  datatype ErrorTextError = NotAnObject | MissingDiscriminator | UnknownDiscriminator

  function FieldsOf(e: ProviderError): (fields: seq<Field>)
    ensures fields != []
  {
    match e
    case RateLimited(None) => [Field("t", Str("rate_limited"))]
    case RateLimited(Some(d)) => [Field("t", Str("rate_limited")), Field("r", Num(d.secs))]
    case InvalidRequest(message) => [Field("t", Str("invalid_request")), Field("m", Str(message))]
    case AuthFailed => [Field("t", Str("auth_failed"))]
    case ContextLengthExceeded(limit) => [Field("t", Str("context_length_exceeded")), Field("l", Num(limit))]
    case ContentFiltered(reason) => [Field("t", Str("content_filtered")), Field("m", Str(reason))]
    case UpstreamTimeout => [Field("t", Str("upstream_timeout"))]
    case UpstreamUnavailable => [Field("t", Str("upstream_unavailable"))]
    case Other(status, detail) => [Field("t", Str("other")), Field("s", Num(status)), Field("m", Str(detail))]
  }

  function EncodeError(e: ProviderError): string {
    PrintObject(FieldsOf(e))
  }

  /** The match on the discriminator. */
  function FromFields(fields: seq<Field>): Result<ProviderError, ErrorTextError> {
    var t := GetText(fields, "t");
    var message := GetText(fields, "m").UnwrapOr("");
    if t.None? then Err(MissingDiscriminator)
    else if t.value == "rate_limited" then
      var secs := GetU64(fields, "r");
      Ok(RateLimited(if secs.Some? then Some(Duration(secs.value, 0)) else None))
    else if t.value == "invalid_request" then Ok(InvalidRequest(message))
    else if t.value == "auth_failed" then Ok(AuthFailed)
    else if t.value == "context_length_exceeded" then
      Ok(ContextLengthExceeded(GetU64(fields, "l").UnwrapOr(0) % 0x1_0000_0000))
    else if t.value == "content_filtered" then Ok(ContentFiltered(message))
    else if t.value == "upstream_timeout" then Ok(UpstreamTimeout)
    else if t.value == "upstream_unavailable" then Ok(UpstreamUnavailable)
    else if t.value == "other" then Ok(Other(GetU64(fields, "s").UnwrapOr(0) % 0x1_0000, message))
    else Err(UnknownDiscriminator)
  }

  function DecodeError(s: string): Result<ProviderError, ErrorTextError> {
    var fields := ParseObject(s);
    if fields.None? then Err(NotAnObject) else FromFields(fields.value)
  }

  /** What survives: a retry delay in whole seconds. */
  function NormaliseError(e: ProviderError): ProviderError {
    if e.RateLimited? && e.retryAfter.Some? then RateLimited(Some(Duration(e.retryAfter.value.secs, 0))) else e
  }

  lemma GetOfOne(a: Field, name: string)
    ensures Get([a], name) == if a.name == name then Some(a.value) else None
  {
  }

  lemma GetOfTwo(a: Field, b: Field, name: string)
    ensures Get([a, b], name) == if b.name == name then Some(b.value) else Get([a], name)
  {
  }

  lemma GetOfThree(a: Field, b: Field, c: Field, name: string)
    ensures Get([a, b, c], name) == if c.name == name then Some(c.value) else Get([a, b], name)
  {
    assert [a, b, c][..2] == [a, b];
  }

  lemma FieldsRoundTrip(e: ProviderError)
    ensures FromFields(FieldsOf(e)) == Ok(NormaliseError(e))
  {
    var f := FieldsOf(e);
    if |f| == 1 {
      OneFieldRoundTrip(e, f[0]);
    } else if |f| == 2 {
      TwoFieldsRoundTrip(e, f[0], f[1]);
    } else {
      ThreeFieldsRoundTrip(e, f[0], f[1], f[2]);
    }
  }

  lemma OneFieldRoundTrip(e: ProviderError, a: Field)
    requires FieldsOf(e) == [a]
    ensures FromFields([a]) == Ok(NormaliseError(e))
  {
    GetOfOne(a, "t");
    GetOfOne(a, "m");
    GetOfOne(a, "r");
  }

  lemma TwoFieldsRoundTrip(e: ProviderError, a: Field, b: Field)
    requires FieldsOf(e) == [a, b]
    ensures FromFields([a, b]) == Ok(NormaliseError(e))
  {
    GetOfOne(a, "t");
    GetOfTwo(a, b, "t");
    GetOfTwo(a, b, "m");
    GetOfTwo(a, b, "r");
    GetOfTwo(a, b, "l");
  }

  lemma ThreeFieldsRoundTrip(e: ProviderError, a: Field, b: Field, c: Field)
    requires FieldsOf(e) == [a, b, c]
    ensures FromFields([a, b, c]) == Ok(NormaliseError(e))
  {
    GetOfOne(a, "t");
    GetOfTwo(a, b, "t");
    GetOfTwo(a, b, "s");
    GetOfThree(a, b, c, "t");
    GetOfThree(a, b, c, "m");
    GetOfThree(a, b, c, "s");
  }

  predicate IsPlain(s: string) {
    forall i :: 0 <= i < |s| ==> s[i] != '\"' && s[i] != '\\' && s[i] as int >= 32
  }

  /** Text without quotes, backslashes and control characters is quoted as it stands. */
  lemma {:induction false} PlainIsVerbatim(s: string)
    requires IsPlain(s)
    ensures Escape(s) == s && Quote(s) == "\"" + s + "\""
  {
    if s != [] {
      PlainIsVerbatim(s[1..]);
      FirstThenRest(s);
    }
  }

  lemma FirstMember(f: seq<Field>, kind: string)
    requires f != [] && f[0] == Field("t", Str(kind)) && forall i :: 1 <= i < |f| ==> f[i].name != "t"
    ensures GetText(f, "t") == Some(kind)
  {
    if |f| > 1 {
      FirstMember(f[..|f| - 1], kind);
    }
  }

  /** Decoding an encoded error gives the error back, in every variant and for any text. */
  lemma ErrorRoundTrip(e: ProviderError)
    ensures DecodeError(EncodeError(e)) == Ok(NormaliseError(e))
    ensures EncodeError(e) != []
    ensures !e.RateLimited? ==> DecodeError(EncodeError(e)) == Ok(e)
    ensures e.RateLimited? ==>
      DecodeError(EncodeError(e)) ==
        Ok(RateLimited(if e.retryAfter.Some? then Some(Duration(e.retryAfter.value.secs, 0)) else None))
  {
    ParsePrinted(FieldsOf(e));
    FieldsRoundTrip(e);
  }
}
