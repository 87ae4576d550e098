/** The laws of the dotenv codec: the exact round trip, composition, normalisation, sizes. */
module DotenvLaws {
  import opened Strings
  import opened Sorting
  import opened Dotenv

  // ---- one line -----------------------------------------------------------------------------

  lemma {:induction false} UnquoteEscape(v: string)
    ensures Unquote(Escape(v) + "\"") == Ok(v)
  {
    if v == "" {
      assert Escape(v) + "\"" == "\"";
      assert "\""[1..] == "";
    } else {
      var e, rest := EscapeChar(v[0]), Escape(v[1..]) + "\"";
      var s := Escape(v) + "\"";
      assert s == e + rest;
      UnquoteEscape(v[1..]);
      assert [v[0]] + v[1..] == v;
      if |e| == 2 {
        assert s[0] == '\\' && s[1] == e[1] && s[2..] == rest;
      } else {
        assert s[0] == v[0] && s[1..] == rest;
      }
    }
  }

  lemma {:induction false} EscapeHasNoEol(v: string)
    ensures '\n' !in Escape(v) && '\r' !in Escape(v)
  {
    if v != "" {
      EscapeHasNoEol(v[1..]);
    }
  }

  /** A printed value starts and ends with a graphic byte and holds no line break, so neither
      the scanner nor the trimming touches it. */
  lemma QuotedShape(v: string)
    ensures QuoteValue(v) != ""
    ensures IsGraphic(QuoteValue(v)[0]) && IsGraphic(QuoteValue(v)[|QuoteValue(v)| - 1])
    ensures '\n' !in QuoteValue(v) && '\r' !in QuoteValue(v)
  {
    if v != "" && IsUnquotedSafe(v) {
      forall i | 0 <= i < |v|
        ensures IsGraphic(v[i])
      {
        SafeIsGraphic(v[i]);
      }
    } else {
      EscapeHasNoEol(v);
    }
  }

  lemma SafeIsGraphic(c: char)
    requires IsSafe(c)
    ensures IsGraphic(c)
  {
    var punctuation := "_-./:@%+,=~";
    assert forall i :: 0 <= i < |punctuation| ==> IsGraphic(punctuation[i]);
  }

  lemma ParseValueQuote(v: string)
    ensures ParseValue(QuoteValue(v)) == Ok(v)
  {
    var q := QuoteValue(v);
    if v == "" {
      UnquoteEscape(v);
      assert q[1..] == Escape(v) + "\"";
    } else if IsUnquotedSafe(v) {
      QuotedShape(v);
    } else {
      UnquoteEscape(v);
      assert q[1..] == Escape(v) + "\"";
    }
  }

  lemma LineShape(k: string, v: string)
    requires ValidKey(k)
    ensures '\n' !in EncodedLine(k, v) && '\r' !in EncodedLine(k, v)
    ensures TrimSpace(DropCR(EncodedLine(k, v))) == EncodedLine(k, v)
    ensures EncodedLine(k, v) != "" && EncodedLine(k, v)[0] == k[0]
  {
    QuotedShape(v);
    var line := EncodedLine(k, v);
    var q := QuoteValue(v);
    assert line[|line| - 1] == q[|q| - 1];
    TrimSpaceId(line);
  }

  lemma SplitLine(k: string, q: string)
    requires ValidKey(k)
    ensures IndexByte(k + "=" + q, '=') == |k|
    ensures (k + "=" + q)[..|k|] == k && (k + "=" + q)[|k| + 1..] == q
  {
    var line := k + "=" + q;
    assert line[..|k|] == k && line[|k|] == '=';
    IndexByteUnique(line, '=', |k|);
  }

  lemma {:induction false} LineRoundTrip(k: string, v: string)
    requires ValidKey(k)
    ensures ParseLine(EncodedLine(k, v)) == Entry(k, v)
  {
    var line := EncodedLine(k, v);
    LineShape(k, v);
    SplitLine(k, QuoteValue(v));
    TrimSpaceId(k);
    QuotedShape(v);
    TrimSpaceId(QuoteValue(v));
    ParseValueQuote(v);
  }

  // ---- the round trip -----------------------------------------------------------------------

  lemma FirstLine(line: string, rest: string)
    requires '\n' !in line
    ensures RawLine(line + "\n" + rest) == line
    ensures AfterLine(line + "\n" + rest) == rest
  {
    var s := line + "\n" + rest;
    assert s[..|line|] == line && s[|line|] == '\n';
    IndexByteUnique(s, '\n', |line|);
  }

  /** The parser's step over one newline-terminated line. */
  lemma ParseFromLine(raw: string, rest: string, n: nat, acc: Values)
    requires '\n' !in raw
    ensures ParseFrom(raw + "\n" + rest, n, acc) ==
      if |raw| >= MAX_VALUE_BYTES then Err(TooLong(n + 1))
      else
        match ParseLine(raw)
        case Skip => ParseFrom(rest, n + 1, acc)
        case Entry(k, v) => ParseFrom(rest, n + 1, acc[k := v])
        case BadLine => Err(InvalidLine(n + 1))
        case BadKey => Err(InvalidKey(n + 1))
        case BadValue(e) => Err(InvalidValue(n + 1, e))
  {
    FirstLine(raw, rest);
  }

  ghost function Restrict(values: Values, keys: seq<string>): Values {
    map k | k in keys && k in values :: values[k]
  }

  ghost predicate FitsKeys(values: Values, keys: seq<string>) {
    forall k :: k in keys && k in values ==> |EncodedLine(k, values[k])| < MAX_VALUE_BYTES
  }

  lemma FitsCons(values: Values, keys: seq<string>)
    requires keys != [] && keys[0] in values
    ensures FitsKeys(values, keys) <==>
      FitsKeys(values, keys[1..]) && |EncodedLine(keys[0], values[keys[0]])| < MAX_VALUE_BYTES
  {
    assert keys == [keys[0]] + keys[1..];
  }

  lemma RestrictCons(values: Values, keys: seq<string>, acc: Values)
    requires keys != [] && keys[0] in values
    ensures acc[keys[0] := values[keys[0]]] + Restrict(values, keys[1..]) == acc + Restrict(values, keys)
  {
    var left, right := acc[keys[0] := values[keys[0]]] + Restrict(values, keys[1..]), acc + Restrict(values, keys);
    assert keys == [keys[0]] + keys[1..];
    assert left.Keys == right.Keys;
    assert forall k :: k in left ==> left[k] == right[k];
  }

  lemma {:induction false} ParseEncodeKeys(values: Values, keys: seq<string>, n: nat, acc: Values)
    requires ValidKeys(values) && forall k :: k in keys ==> k in values
    ensures FitsKeys(values, keys) ==>
      ParseFrom(EncodeKeys(values, keys), n, acc) == Ok(acc + Restrict(values, keys))
    ensures !FitsKeys(values, keys) ==>
      ParseFrom(EncodeKeys(values, keys), n, acc).Err?
      && ParseFrom(EncodeKeys(values, keys), n, acc).error.TooLong?
  {
    if keys == [] {
      assert acc + Restrict(values, keys) == acc;
    } else {
      var k := keys[0];
      var v := values[k];
      var line, rest := EncodedLine(k, v), EncodeKeys(values, keys[1..]);
      LineShape(k, v);
      LineRoundTrip(k, v);
      ParseFromLine(line, rest, n, acc);
      assert line + "\n" + rest == EncodeKeys(values, keys);
      FitsCons(values, keys);
      RestrictCons(values, keys, acc);
      ParseEncodeKeys(values, keys[1..], n + 1, acc[k := v]);
    }
  }

  /** Parsing what was printed gives the map back exactly when every line is below the limit;
      otherwise it is the "too long" error and never another map. Values are arbitrary bytes. */
  lemma {:induction false} RoundTrip(values: Values)
    requires ValidKeys(values)
    ensures Parsed(Encoded(values)) == Ok(values) <==> Fits(values)
    ensures !Fits(values) ==> Parsed(Encoded(values)).Err? && Parsed(Encoded(values)).error.TooLong?
  {
    var keys := Sorted(values.Keys);
    assert forall k :: k in keys <==> k in Elements(keys);
    RestrictAll(values, keys);
    ParseEncodeKeys(values, keys, 0, map[]);
  }

  lemma RestrictAll(values: Values, keys: seq<string>)
    requires Elements(keys) == values.Keys
    ensures map[] + Restrict(values, keys) == values
    ensures FitsKeys(values, keys) <==> Fits(values)
  {
    assert forall k :: k in keys <==> k in Elements(keys);
  }

  // ---- what the parser accepts --------------------------------------------------------------

  lemma {:induction false} ParseFromKeys(input: string, n: nat, acc: Values)
    requires ValidKeys(acc)
    ensures ParseFrom(input, n, acc).Ok? ==> ValidKeys(ParseFrom(input, n, acc).value)
    decreases |input|
  {
    if input != "" {
      var raw, rest := RawLine(input), AfterLine(input);
      match ParseLine(raw)
      case Skip => ParseFromKeys(rest, n + 1, acc);
      case Entry(k, v) => ParseFromKeys(rest, n + 1, acc[k := v]);
      case _ =>
    }
  }

  /** Every key of a parsed map is a valid dotenv key. */
  lemma ParsedKeysValid(input: string)
    ensures Parsed(input).Ok? ==> ValidKeys(Parsed(input).value)
  {
    ParseFromKeys(input, 0, map[]);
  }

  /** Printing after parsing is a normal form: doing it again changes nothing, as long as the
      printed lines are below the limit. */
  lemma Normalising(input: string)
    requires Parsed(input).Ok? && Fits(Parsed(input).value)
    ensures Parsed(Encoded(Parsed(input).value)) == Parsed(input)
  {
    ParsedKeysValid(input);
    RoundTrip(Parsed(input).value);
  }

  // ---- composition --------------------------------------------------------------------------

  /** Errors differ only in the line they name. */
  ghost predicate SameOutcome(r: Result<Values, ParseError>, acc: Values, s: Result<Values, ParseError>) {
    if s.Ok? then r == Ok(acc + s.value) else r.Err?
  }

  lemma {:induction false} ParseFromAcc(input: string, n: nat, acc: Values, n': nat, acc': Values)
    ensures SameOutcome(ParseFrom(input, n, acc + acc'), acc, ParseFrom(input, n', acc'))
    decreases |input|
  {
    if input != "" {
      var raw, rest := RawLine(input), AfterLine(input);
      match ParseLine(raw)
      case Skip => ParseFromAcc(rest, n + 1, acc, n' + 1, acc');
      case Entry(k, v) =>
        assert (acc + acc')[k := v] == acc + acc'[k := v];
        ParseFromAcc(rest, n + 1, acc, n' + 1, acc'[k := v]);
      case _ =>
    }
  }

  predicate LineEnded(a: string) {
    a == "" || a[|a| - 1] == '\n'
  }

  lemma {:induction false} ParseFromConcat(a: string, b: string, n: nat, acc: Values) returns (m: nat)
    requires LineEnded(a)
    ensures ParseFrom(a, n, acc).Err? ==> ParseFrom(a + b, n, acc) == ParseFrom(a, n, acc)
    ensures ParseFrom(a, n, acc).Ok? ==>
      ParseFrom(a + b, n, acc) == ParseFrom(b, m, ParseFrom(a, n, acc).value)
    decreases |a|
  {
    m := n;
    if a == "" {
      assert a + b == b;
    } else {
      var i := IndexByte(a, '\n');
      assert a[|a| - 1] in a;
      var raw, rest := a[..i], a[i + 1..];
      assert a == raw + "\n" + rest;
      assert a + b == raw + "\n" + (rest + b);
      ParseFromLine(raw, rest, n, acc);
      ParseFromLine(raw, rest + b, n, acc);
      assert rest != "" ==> rest[|rest| - 1] == a[|a| - 1];
      match ParseLine(raw)
      case Skip => m := ParseFromConcat(rest, b, n + 1, acc);
      case Entry(k, v) => m := ParseFromConcat(rest, b, n + 1, acc[k := v]);
      case _ =>
    }
  }

  /** Texts compose: a concatenation parses exactly when both parts do, and later lines win. */
  lemma {:induction false} Compositional(a: string, b: string)
    requires LineEnded(a)
    ensures Parsed(a + b).Ok? <==> Parsed(a).Ok? && Parsed(b).Ok?
    ensures Parsed(a + b).Ok? ==> Parsed(a + b).value == Parsed(a).value + Parsed(b).value
  {
    var m := ParseFromConcat(a, b, 0, map[]);
    if Parsed(a).Ok? {
      var va := Parsed(a).value;
      assert va + map[] == va;
      ParseFromAcc(b, m, va, 0, map[]);
    }
  }

  // ---- sizes --------------------------------------------------------------------------------

  lemma {:induction false} EscapeLength(v: string)
    ensures |v| <= |Escape(v)| <= 2 * |v|
  {
    if v != "" {
      EscapeLength(v[1..]);
    }
  }

  lemma QuoteLength(v: string)
    ensures |v| <= |QuoteValue(v)| <= 2 * |v| + 2
  {
    EscapeLength(v);
  }

  /** A check on the raw sizes that is enough for a map to be readable again. */
  lemma SmallMapsFit(values: Values)
    requires forall k :: k in values ==> |k| + 2 * |values[k]| + 3 < MAX_VALUE_BYTES
    ensures Fits(values)
  {
    forall k | k in values
      ensures |EncodedLine(k, values[k])| < MAX_VALUE_BYTES
    {
      QuoteLength(values[k]);
    }
  }

  /** And a key and value that together reach the limit are never readable again. */
  lemma {:induction false} LargeValuesDoNotFit(values: Values, k: string)
    requires ValidKeys(values) && k in values && |k| + 1 + |values[k]| >= MAX_VALUE_BYTES
    ensures Parsed(Encoded(values)).Err?
  {
    QuoteLength(values[k]);
    assert !Fits(values);
    RoundTrip(values);
  }

  /** Distinct readable maps have distinct texts. */
  lemma {:induction false} EncodedInjective(a: Values, b: Values)
    requires ValidKeys(a) && ValidKeys(b) && Fits(a) && Encoded(a) == Encoded(b)
    ensures a == b
  {
    RoundTrip(a);
    RoundTrip(b);
  }
}
