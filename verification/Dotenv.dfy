/** The dotenv text inside a bundle (internal/dotenv/dotenv.go): the parser, the printer, and
    the exact extent to which they undo each other. */
module Dotenv {
  import opened Strings
  import opened Sorting

  /** The scanner's token limit: a line of this many bytes or more is refused. */
  const MAX_VALUE_BYTES: nat := 0x10_0000

  datatype ValueError = Multiline | Trailing | Unterminated

  datatype ParseError =
    | InvalidLine(line: nat)
    | InvalidKey(line: nat)
    | InvalidValue(line: nat, value: ValueError)
    | TooLong(line: nat)

  type Values = map<string, string>

  // ---- keys ---------------------------------------------------------------------------------

  predicate IsKeyStart(c: char) {
    'A' <= c <= 'Z' || c == '_'
  }

  predicate IsKeyChar(c: char) {
    IsKeyStart(c) || '0' <= c <= '9'
  }

  predicate ValidKey(key: string) {
    key != "" && IsKeyStart(key[0]) && forall i :: 0 <= i < |key| ==> IsKeyChar(key[i])
  }

  ghost predicate ValidKeys(values: Values) {
    forall k :: k in values ==> ValidKey(k)
  }

  // ---- parsing --------------------------------------------------------------------------------

  function Unescape(c: char): char {
    match c
    case 'n' => '\n'
    case 'r' => '\r'
    case 't' => '\t'
    case _ => c
  }

  function Prepend(c: char, r: Result<string, ValueError>): Result<string, ValueError> {
    match r
    case Ok(v) => Ok([c] + v)
    case Err(e) => Err(e)
  }

  /** What a quoted value means: `s` is the text after the opening quote, read one character or
      one escape pair at a time. */
  function Unquote(s: string): Result<string, ValueError> {
    if s == "" then Err(Unterminated)
    else if s[0] == '"' then
      if TrimSpace(s[1..]) != "" then Err(Trailing) else Ok("")
    else if s[0] == '\\' then
      if |s| == 1 then Err(Unterminated) else Prepend(Unescape(s[1]), Unquote(s[2..]))
    else Prepend(s[0], Unquote(s[1..]))
  }

  function Append(prefix: string, r: Result<string, ValueError>): Result<string, ValueError> {
    match r
    case Ok(v) => Ok(prefix + v)
    case Err(e) => Err(e)
  }

  lemma AppendPrepend(prefix: string, c: char, r: Result<string, ValueError>)
    ensures Append("", r) == r
    ensures Append(prefix, Prepend(c, r)) == Append(prefix + [c], r)
  {
    if r.Ok? {
      assert "" + r.value == r.value;
      assert prefix + ([c] + r.value) == prefix + [c] + r.value;
    }
  }

  /** The source's loop: a flag remembers that the previous byte was a backslash. */
  method ParseQuotedValue(value: string) returns (r: Result<string, ValueError>)
    requires value != "" && value[0] == '"'
    ensures r == Unquote(value[1..])
  {
    var out := "";
    var escaped := false;
    var i := 1;
    AppendPrepend("", ' ', Unquote(value[1..]));
    while i < |value|
      invariant 1 <= i <= |value|
      invariant escaped ==> i >= 2 && value[i - 1] == '\\'
      invariant Unquote(value[1..]) == Append(out, Unquote(value[if escaped then i - 1 else i..]))
    {
      var c := value[i];
      ghost var from := value[if escaped then i - 1 else i..];
      if escaped {
        assert from[2..] == value[i + 1..];
        AppendPrepend(out, Unescape(c), Unquote(value[i + 1..]));
        out := out + [Unescape(c)];
        escaped := false;
        i := i + 1;
        continue;
      }
      assert from[1..] == value[i + 1..];
      AppendPrepend(out, c, Unquote(value[i + 1..]));
      if c == '\\' {
        escaped := true;
        i := i + 1;
        continue;
      }
      if c == '"' {
        if TrimSpace(value[i + 1..]) != "" {
          return Err(Trailing);
        }
        assert out + "" == out;
        return Ok(out);
      }
      out := out + [c];
      i := i + 1;
    }
    return Err(Unterminated);
  }

  function ParseValue(value: string): Result<string, ValueError> {
    if value == "" then Ok("")
    else if value[0] != '"' then
      if ContainsAny(value, "\r\n") then Err(Multiline) else Ok(value)
    else Unquote(value[1..])
  }

  datatype Line = Skip | Entry(key: string, value: string) | BadLine | BadKey | BadValue(error: ValueError)

  function DropCR(raw: string): string {
    if raw != "" && raw[|raw| - 1] == '\r' then raw[..|raw| - 1] else raw
  }

  /** One scanned line, without its newline. */
  function ParseLine(raw: string): (l: Line)
    ensures l.Entry? ==> ValidKey(l.key)
  {
    var line := TrimSpace(DropCR(raw));
    if line == "" || line[0] == '#' then Skip
    else
      var eq := IndexByte(line, '=');
      if eq < 0 then BadLine
      else
        var key := TrimSpace(line[..eq]);
        if !ValidKey(key) then BadKey
        else
          match ParseValue(TrimSpace(line[eq + 1..]))
          case Ok(v) => Entry(key, v)
          case Err(e) => BadValue(e)
  }

  /** The scanner's next token: the bytes before the next newline, and what follows it. */
  function RawLine(input: string): string {
    var i := IndexByte(input, '\n');
    if i < 0 then input else input[..i]
  }

  function AfterLine(input: string): (rest: string)
    requires input != ""
    ensures |rest| < |input|
  {
    var i := IndexByte(input, '\n');
    if i < 0 then "" else input[i + 1..]
  }

  function ParseFrom(input: string, n: nat, values: Values): Result<Values, ParseError>
    decreases |input|
  {
    if input == "" then Ok(values)
    else
      var raw, rest := RawLine(input), AfterLine(input);
      if |raw| >= MAX_VALUE_BYTES then Err(TooLong(n + 1))
      else
        match ParseLine(raw)
        case Skip => ParseFrom(rest, n + 1, values)
        case Entry(k, v) => ParseFrom(rest, n + 1, values[k := v])
        case BadLine => Err(InvalidLine(n + 1))
        case BadKey => Err(InvalidKey(n + 1))
        case BadValue(e) => Err(InvalidValue(n + 1, e))
  }

  /** What a dotenv text means. */
  function Parsed(input: string): Result<Values, ParseError> {
    ParseFrom(input, 0, map[])
  }

  /** The body of the scan loop: trim, skip comments, split at the first '=', check, unquote. */
  method ReadLine(raw: string) returns (l: Line)
    ensures l == ParseLine(raw)
  {
    var line := TrimSpace(DropCR(raw));
    if line == "" || line[0] == '#' {
      return Skip;
    }
    var eq := IndexByte(line, '=');
    if eq < 0 {
      return BadLine;
    }
    var key := TrimSpace(line[..eq]);
    if !ValidKey(key) {
      return BadKey;
    }
    var text := TrimSpace(line[eq + 1..]);
    var value := ParseValue(text);
    if text != "" && text[0] == '"' {
      value := ParseQuotedValue(text);
    }
    if value.Err? {
      return BadValue(value.error);
    }
    return Entry(key, value.value);
  }

  method Parse(input: string) returns (r: Result<Values, ParseError>)
    ensures r == Parsed(input)
  {
    var values: Values := map[];
    var lineNo := 0;
    var rest := input;
    while rest != ""
      invariant lineNo >= 0
      invariant Parsed(input) == ParseFrom(rest, lineNo, values)
      decreases |rest|
    {
      lineNo := lineNo + 1;
      var raw := RawLine(rest);
      if |raw| >= MAX_VALUE_BYTES {
        return Err(TooLong(lineNo));
      }
      rest := AfterLine(rest);
      var l := ReadLine(raw);
      match l
      case Skip =>
      case Entry(k, v) => values := values[k := v];
      case BadLine => return Err(InvalidLine(lineNo));
      case BadKey => return Err(InvalidKey(lineNo));
      case BadValue(e) => return Err(InvalidValue(lineNo, e));
    }
    return Ok(values);
  }

  // ---- printing -------------------------------------------------------------------------------

  /** Safe runes are all ASCII, so a value is safe exactly when each of its bytes is. */
  predicate IsSafe(c: char) {
    || 'a' <= c <= 'z' || 'A' <= c <= 'Z' || '0' <= c <= '9'
    || c in "_-./:@%+,=~"
  }

  predicate IsUnquotedSafe(value: string) {
    forall i :: 0 <= i < |value| ==> IsSafe(value[i])
  }

  function EscapeChar(c: char): string {
    match c
    case '\\' => "\\\\"
    case '"' => "\\\""
    case '\n' => "\\n"
    case '\r' => "\\r"
    case '\t' => "\\t"
    case _ => [c]
  }

  function Escape(value: string): string {
    if value == "" then "" else EscapeChar(value[0]) + Escape(value[1..])
  }

  function QuoteValue(value: string): string {
    if value == "" then "\"\""
    else if IsUnquotedSafe(value) then value
    else "\"" + Escape(value) + "\""
  }

  /** One encoded line, without its newline. */
  function EncodedLine(key: string, value: string): string {
    key + "=" + QuoteValue(value)
  }

  function EncodeKeys(values: Values, keys: seq<string>): string
    requires forall k :: k in keys ==> k in values
  {
    if keys == [] then ""
    else EncodedLine(keys[0], values[keys[0]]) + "\n" + EncodeKeys(values, keys[1..])
  }

  /** The canonical text of a map: one line a key, in key order. */
  function Encoded(values: Values): string {
    assert forall k :: k in Sorted(values.Keys) ==> k in Elements(Sorted(values.Keys));
    EncodeKeys(values, Sorted(values.Keys))
  }

  lemma EncodeKeysSnoc(values: Values, keys: seq<string>, k: string)
    requires k in values && forall x :: x in keys ==> x in values
    ensures forall x :: x in keys + [k] ==> x in values
    ensures EncodeKeys(values, keys + [k])
         == EncodeKeys(values, keys) + EncodedLine(k, values[k]) + "\n"
  {
    assert forall x :: x in keys + [k] ==> x in keys || x == k;
    if keys != [] {
      assert (keys + [k])[1..] == keys[1..] + [k];
      EncodeKeysSnoc(values, keys[1..], k);
      Regroup(EncodedLine(keys[0], values[keys[0]]) + "\n", EncodeKeys(values, keys[1..]), EncodedLine(k, values[k]));
    } else {
      EncodeOneKey(values, k);
    }
  }

  lemma Regroup(first: string, rest: string, last: string)
    ensures first + (rest + last + "\n") == first + rest + last + "\n"
  {
  }

  lemma EncodeOneKey(values: Values, k: string)
    requires k in values
    ensures forall x :: x in [k] ==> x in values
    ensures EncodeKeys(values, [] + [k]) == EncodedLine(k, values[k]) + "\n"
  {
    assert [] + [k] == [k];
    assert EncodeKeys(values, [k][1..]) == "";
  }

  lemma AppendPieces(out: string, key: string, quoted: string)
    ensures out + key + "=" + quoted + "\n" == out + (key + "=" + quoted) + "\n"
  {
    assert out + key + "=" + quoted == out + (key + "=" + quoted);
  }

  lemma EncodeNext(values: Values, keys: seq<string>, i: nat)
    requires i < |keys| && forall k :: k in keys ==> k in values
    ensures EncodeKeys(values, keys[..i + 1])
         == EncodeKeys(values, keys[..i]) + EncodedLine(keys[i], values[keys[i]]) + "\n"
  {
    EncodeKeysSnoc(values, keys[..i], keys[i]);
    assert keys[..i + 1] == keys[..i] + [keys[i]];
  }

  /** The four writes of one line. */
  method AppendLine(text: string, key: string, value: string) returns (out: string)
    ensures out == text + EncodedLine(key, value) + "\n"
  {
    var quoted := QuoteValue(value);
    out := text + key;
    out := out + "=";
    out := out + quoted;
    out := out + "\n";
    AppendPieces(text, key, quoted);
  }

  method Encode(values: Values) returns (out: string)
    ensures out == Encoded(values)
  {
    var keys := Sorted(values.Keys);
    assert forall k :: k in keys ==> k in Elements(keys);
    out := "";
    for i := 0 to |keys|
      invariant out == EncodeKeys(values, keys[..i])
    {
      EncodeNext(values, keys, i);
      out := AppendLine(out, keys[i], values[keys[i]]);
    }
    assert keys[..|keys|] == keys;
  }

  /** Every line of the canonical text is below the scanner's limit. */
  ghost predicate Fits(values: Values) {
    forall k :: k in values ==> |EncodedLine(k, values[k])| < MAX_VALUE_BYTES
  }
}
