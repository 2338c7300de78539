/** The metric extractor: a JSON Pointer evaluator (sections 3 and 4 of RFC 6901) and the
    comparison of the number it finds with the frozen expectation.

    Parsing JSON text is library behaviour; a document is a value of type `Json`. */
module JsonPointer {
  import opened Basics

  /** `NonFinite` is what the parser makes of NaN, Infinity and -Infinity. */
  datatype Json =
    | Null
    | Boolean(b: bool)
    | Number(value: real)
    | NonFinite
    | Text(text: string)
    | Array(items: seq<Json>)
    | Object(fields: map<string, Json>)

  datatype Comparator = Equals | AtLeast | AtMost

  datatype Expectation = Expectation(
    pointer: string, comparator: Comparator, expected: real, tolerance: real, unit: string)

  /** One step of a path into a document, before any escaping. */
  datatype Segment = Field(name: string) | Item(index: nat)

  // ---------------------------------------------------------------- splitting and joining

  /** `str.split`: the pieces of `s` between separators; never empty. */
  function Split(s: string, separator: char): (pieces: seq<string>)
    ensures pieces != []
  {
    if s == "" then [""]
    else if s[0] == separator then [""] + Split(s[1..], separator)
    else
      var rest := Split(s[1..], separator);
      [[s[0]] + rest[0]] + rest[1..]
  }

  function Join(pieces: seq<string>, separator: char): string
    requires pieces != []
  {
    if |pieces| == 1 then pieces[0]
    else pieces[0] + [separator] + Join(pieces[1..], separator)
  }

  lemma {:induction false} SplitPrefix(head: string, tail: string, separator: char)
    requires separator !in head
    ensures Split(head + tail, separator)
         == [head + Split(tail, separator)[0]] + Split(tail, separator)[1..]
  {
    if head == "" {
      assert head + tail == tail;
      var pieces := Split(tail, separator);
      assert head + pieces[0] == pieces[0];
      assert pieces == [pieces[0]] + pieces[1..];
    } else {
      assert (head + tail)[1..] == head[1..] + tail;
      SplitPrefix(head[1..], tail, separator);
      var rest := Split(tail, separator);
      assert [head[0]] + (head[1..] + rest[0]) == head + rest[0];
    }
  }

  lemma SplitStops(rest: string, separator: char)
    ensures Split([separator] + rest, separator) == [""] + Split(rest, separator)
  {
    assert ([separator] + rest)[1..] == rest;
  }

  lemma JoinFirst(first: string, rest: seq<string>, separator: char)
    requires rest != []
    ensures Join([first] + rest, separator) == first + ([separator] + Join(rest, separator))
  {
    assert ([first] + rest)[1..] == rest;
  }

  /** Splitting undoes joining when no piece holds the separator. */
  lemma {:induction false} SplitJoin(pieces: seq<string>, separator: char)
    requires pieces != []
    requires forall i :: 0 <= i < |pieces| ==> separator !in pieces[i]
    ensures Split(Join(pieces, separator), separator) == pieces
  {
    var first, others := pieces[0], pieces[1..];
    assert pieces == [first] + others && first + "" == first;
    if others == [] {
      SplitPrefix(first, "", separator);
    } else {
      hide Split, Join;
      var rest := Join(others, separator);
      SplitJoin(others, separator);
      SplitPrefix(first, [separator] + rest, separator);
      SplitStops(rest, separator);
      JoinFirst(first, others, separator);
      assert ([""] + others)[1..] == others;
    }
  }

  lemma JoinLonger(c: char, pieces: seq<string>, separator: char)
    requires pieces != []
    ensures Join([[c] + pieces[0]] + pieces[1..], separator) == [c] + Join(pieces, separator)
  {
    var longer := [[c] + pieces[0]] + pieces[1..];
    assert longer[1..] == pieces[1..];
    if |pieces| > 1 {
      var tail := [separator] + Join(pieces[1..], separator);
      assert ([c] + pieces[0]) + tail == [c] + (pieces[0] + tail);
    }
  }

  /** Joining undoes splitting, and no piece of a split holds the separator. */
  lemma {:induction false} JoinSplit(s: string, separator: char)
    ensures Join(Split(s, separator), separator) == s
    ensures forall i :: 0 <= i < |Split(s, separator)| ==> separator !in Split(s, separator)[i]
  {
    hide Join;
    if s == "" {
      JoinOne("", separator);
    } else {
      JoinSplit(s[1..], separator);
      var rest := Split(s[1..], separator);
      assert [s[0]] + s[1..] == s;
      if s[0] == separator {
        JoinFirst("", rest, separator);
        assert "" + ([separator] + s[1..]) == s;
      } else {
        JoinLonger(s[0], rest, separator);
        var pieces := [[s[0]] + rest[0]] + rest[1..];
        assert forall i :: 1 <= i < |pieces| ==> pieces[i] == rest[i];
      }
    }
  }

  lemma JoinOne(piece: string, separator: char)
    ensures Join([piece], separator) == piece
  {}

  // ---------------------------------------------------------------- escaping

  /** `str.replace("~" + digit, plain)`: leftmost, non-overlapping, all occurrences. */
  function Replace(s: string, digit: char, plain: char): string {
    if s == "" then ""
    else if |s| >= 2 && s[0] == '~' && s[1] == digit then [plain] + Replace(s[2..], digit, plain)
    else [s[0]] + Replace(s[1..], digit, plain)
  }

  /** The two replacements in the order the code makes them. */
  function Unescape(raw: string): string {
    Replace(Replace(raw, '1', '/'), '0', '~')
  }

  /** Section 3 of RFC 6901: `~` is written `~0` and `/` is written `~1`. */
  function Escape(token: string): string {
    if token == "" then ""
    else (if token[0] == '~' then "~0" else if token[0] == '/' then "~1" else [token[0]]) + Escape(token[1..])
  }

  /** The grammar of a reference token: every `~` starts one of the two escapes, and no `/`. */
  predicate WellEscaped(raw: string) {
    if raw == "" then true
    else if raw[0] == '/' then false
    else if raw[0] == '~' then |raw| >= 2 && raw[1] in {'0', '1'} && WellEscaped(raw[2..])
    else WellEscaped(raw[1..])
  }

  /** The token with only its tildes escaped: what is left after the first replacement. */
  function EscapeTildes(token: string): string {
    if token == "" then ""
    else (if token[0] == '~' then "~0" else [token[0]]) + EscapeTildes(token[1..])
  }

  lemma {:induction false} FirstReplacement(token: string)
    ensures Replace(Escape(token), '1', '/') == EscapeTildes(token)
  {
    if token == "" {
    } else {
      var rest := Escape(token[1..]);
      FirstReplacement(token[1..]);
      if token[0] == '~' {
        assert Escape(token) == ['~', '0'] + rest;
        assert Escape(token)[1..] == ['0'] + rest;
        assert (['0'] + rest)[1..] == rest;
        assert Replace(['0'] + rest, '1', '/') == ['0'] + EscapeTildes(token[1..]);
        assert ['~'] + (['0'] + EscapeTildes(token[1..])) == "~0" + EscapeTildes(token[1..]);
      } else if token[0] == '/' {
        assert Escape(token) == ['~', '1'] + rest;
        assert Escape(token)[2..] == rest;
      } else {
        assert Escape(token)[1..] == rest;
      }
    }
  }

  lemma {:induction false} SecondReplacement(token: string)
    ensures Replace(EscapeTildes(token), '0', '~') == token
  {
    if token == "" {
    } else {
      var rest := EscapeTildes(token[1..]);
      SecondReplacement(token[1..]);
      if token[0] == '~' {
        assert EscapeTildes(token) == ['~', '0'] + rest;
        assert EscapeTildes(token)[2..] == rest;
      } else {
        assert EscapeTildes(token)[1..] == rest;
      }
    }
  }

  /** The ordered replacements undo the escapes, for every key. */
  lemma UnescapeEscape(token: string)
    ensures Unescape(Escape(token)) == token
  {
    FirstReplacement(token);
    SecondReplacement(token);
  }

  lemma {:induction false} EscapeIsWellFormed(token: string)
    ensures WellEscaped(Escape(token))
    ensures '/' !in Escape(token)
  {
    if token == "" {
    } else {
      EscapeIsWellFormed(token[1..]);
      var rest := Escape(token[1..]);
      if token[0] == '~' || token[0] == '/' {
        assert Escape(token)[2..] == rest;
      } else {
        assert Escape(token)[1..] == rest;
      }
    }
  }

  /** A well-escaped raw token is the escape of what the code reads from it. */
  lemma {:induction false} WellEscapedIsEscape(raw: string) returns (token: string)
    requires WellEscaped(raw)
    ensures raw == Escape(token)
  {
    if raw == "" {
      token := "";
    } else if raw[0] == '~' {
      var rest := WellEscapedIsEscape(raw[2..]);
      token := [if raw[1] == '0' then '~' else '/'] + rest;
      assert token[1..] == rest;
      assert raw == [raw[0], raw[1]] + raw[2..];
    } else {
      var rest := WellEscapedIsEscape(raw[1..]);
      token := [raw[0]] + rest;
      assert token[1..] == rest;
      assert raw == [raw[0]] + raw[1..];
    }
  }

  /** Escaping undoes the code's unescaping exactly on the tokens RFC 6901 allows; the code
      itself reads the others too (a lone `~`, or `~2`) without an error. */
  lemma EscapeUnescapeIffWellEscaped(raw: string)
    ensures Escape(Unescape(raw)) == raw <==> WellEscaped(raw)
  {
    EscapeIsWellFormed(Unescape(raw));
    if WellEscaped(raw) {
      var token := WellEscapedIsEscape(raw);
      UnescapeEscape(token);
    }
  }

  // ---------------------------------------------------------------- decimal indices

  predicate IsDigit(c: char) { '0' <= c <= '9' }

  /** `str.isdigit`, on ASCII digits. */
  predicate AllDigits(s: string) {
    s != "" && forall i :: 0 <= i < |s| ==> IsDigit(s[i])
  }

  function DigitValue(c: char): (d: nat)
    requires IsDigit(c)
    ensures d <= 9
  {
    (c - '0') as nat
  }

  function Digit(d: nat): (c: char)
    requires d <= 9
    ensures IsDigit(c) && DigitValue(c) == d
  {
    '0' + d as char
  }

  /** `int(token)`. */
  function ParseDecimal(s: string): nat
    requires forall i :: 0 <= i < |s| ==> IsDigit(s[i])
  {
    if s == "" then 0
    else 10 * ParseDecimal(s[..|s| - 1]) + DigitValue(s[|s| - 1])
  }

  function PrintDecimal(n: nat): string {
    if n < 10 then [Digit(n)] else PrintDecimal(n / 10) + [Digit(n % 10)]
  }

  /** An index the code accepts: digits, with no leading zero unless it is `0`. */
  predicate IsIndex(token: string) {
    AllDigits(token) && (token[0] == '0' ==> token == "0")
  }

  lemma ParseDigit(front: string, last: char)
    requires IsDigit(last) && forall i :: 0 <= i < |front| ==> IsDigit(front[i])
    ensures ParseDecimal(front + [last]) == 10 * ParseDecimal(front) + DigitValue(last)
  {
    assert (front + [last])[..|front|] == front;
  }

  lemma PrintDigit(front: nat, last: nat)
    requires front > 0 && last <= 9
    ensures PrintDecimal(10 * front + last) == PrintDecimal(front) + [Digit(last)]
  {
    var n := 10 * front + last;
    assert n / 10 == front && n % 10 == last;
  }

  lemma ParseOneDigit(last: char)
    requires IsDigit(last)
    ensures ParseDecimal([last]) == DigitValue(last) && PrintDecimal(DigitValue(last)) == [last]
  {
    ParseDigit("", last);
    assert "" + [last] == [last];
  }

  lemma {:induction false} PrintedIndex(n: nat)
    ensures IsIndex(PrintDecimal(n))
    ensures PrintDecimal(n)[0] == '0' <==> n == 0
    ensures ParseDecimal(PrintDecimal(n)) == n
  {
    hide ParseDecimal, PrintDecimal;
    if n < 10 {
      ParseOneDigit(Digit(n));
    } else {
      var front, last := n / 10, n % 10;
      PrintedIndex(front);
      PrintDigit(front, last);
      ParseDigit(PrintDecimal(front), Digit(last));
    }
  }

  lemma {:induction false} ParsedIndex(token: string)
    requires IsIndex(token)
    ensures PrintDecimal(ParseDecimal(token)) == token
  {
    hide ParseDecimal, PrintDecimal;
    var front, last := token[..|token| - 1], token[|token| - 1];
    assert token == front + [last];
    if front == "" {
      assert token == [last];
      ParseOneDigit(last);
    } else {
      assert front[0] == token[0];
      ParsedIndex(front);
      PrintedIndex(ParseDecimal(front));
      ParseDigit(front, last);
      PrintDigit(ParseDecimal(front), DigitValue(last));
    }
  }

  // ---------------------------------------------------------------- evaluation

  /** What one reference token selects; every refusal is a `MetricExtractionError`. */
  function Select(current: Json, token: string): Result<Json> {
    match current
    case Object(fields) => if token in fields then Ok(fields[token]) else Err(MetricExtraction)
    case Array(items) =>
      if !IsIndex(token) || ParseDecimal(token) >= |items| then Err(MetricExtraction)
      else Ok(items[ParseDecimal(token)])
    case _ => Err(MetricExtraction)
  }

  function Walk(document: Json, rawTokens: seq<string>): Result<Json> {
    if rawTokens == [] then Ok(document)
    else
      var next :- Select(document, Unescape(rawTokens[0]));
      Walk(next, rawTokens[1..])
  }

  function Resolve(document: Json, pointer: string): Result<Json> {
    if pointer == "" || pointer[0] != '/' then Err(MetricExtraction)
    else Walk(document, Split(pointer[1..], '/'))
  }

  lemma {:induction false} WalkSnoc(document: Json, tokens: seq<string>, last: string)
    ensures Walk(document, tokens + [last])
         == (match Walk(document, tokens) case Ok(v) => Select(v, Unescape(last)) case Err(e) => Err(e))
  {
    if tokens == [] {
      assert (tokens + [last])[1..] == [];
    } else {
      assert (tokens + [last])[1..] == tokens[1..] + [last];
      match Select(document, Unescape(tokens[0]))
      case Ok(next) => WalkSnoc(next, tokens[1..], last);
      case Err(_) =>
    }
  }

  /** The evaluator as the code runs it: one pass over the tokens updating `current`. */
  method ResolvePointer(document: Json, pointer: string) returns (r: Result<Json>)
    ensures r == Resolve(document, pointer)
  {
    if pointer == "" || pointer[0] != '/' {
      return Err(MetricExtraction);
    }
    var tokens := Split(pointer[1..], '/');
    var current := document;
    for i := 0 to |tokens|
      invariant Walk(document, tokens[..i]) == Ok(current)
    {
      assert tokens[..i + 1] == tokens[..i] + [tokens[i]];
      WalkSnoc(document, tokens[..i], tokens[i]);
      var token := Unescape(tokens[i]);
      match current {
        case Object(fields) =>
          if token !in fields {
            WalkStops(document, tokens, i + 1);
            return Err(MetricExtraction);
          }
          current := fields[token];
        case Array(items) =>
          if !AllDigits(token) || (token[0] == '0' && token != "0") {
            WalkStops(document, tokens, i + 1);
            return Err(MetricExtraction);
          }
          var index := ParseDecimal(token);
          if index >= |items| {
            WalkStops(document, tokens, i + 1);
            return Err(MetricExtraction);
          }
          current := items[index];
        case _ =>
          WalkStops(document, tokens, i + 1);
          return Err(MetricExtraction);
      }
    }
    assert tokens[..|tokens|] == tokens;
    return Ok(current);
  }

  /** A walk that fails on a prefix fails on the whole. */
  lemma {:induction false} WalkStops(document: Json, tokens: seq<string>, k: nat)
    requires k <= |tokens|
    requires Walk(document, tokens[..k]).Err?
    ensures Walk(document, tokens) == Err(MetricExtraction)
  {
    if k > 0 {
      match Select(document, Unescape(tokens[0]))
      case Ok(next) =>
        assert tokens[..k][1..] == tokens[1..][..k - 1];
        WalkStops(next, tokens[1..], k - 1);
      case Err(_) =>
    }
  }

  // ---------------------------------------------------------------- paths

  /** The value a path names, with no notion of text at all. */
  function ValueAt(document: Json, path: seq<Segment>): Option<Json> {
    if path == [] then Some(document)
    else match (document, path[0])
      case (Object(fields), Field(name)) =>
        if name in fields then ValueAt(fields[name], path[1..]) else None
      case (Array(items), Item(index)) =>
        if index < |items| then ValueAt(items[index], path[1..]) else None
      case _ => None
  }

  function SegmentText(segment: Segment): string {
    match segment case Field(name) => name case Item(index) => PrintDecimal(index)
  }

  function RawTokens(path: seq<Segment>): (tokens: seq<string>)
    ensures |tokens| == |path|
    ensures forall i :: 0 <= i < |path| ==> tokens[i] == Escape(SegmentText(path[i]))
  {
    if path == [] then [] else [Escape(SegmentText(path[0]))] + RawTokens(path[1..])
  }

  /** Section 3 of RFC 6901: the pointer that names a path. */
  function PointerOf(path: seq<Segment>): string
    requires path != []
  {
    "/" + Join(RawTokens(path), '/')
  }

  lemma {:induction false} WalkOfPath(document: Json, path: seq<Segment>)
    requires ValueAt(document, path).Some?
    ensures Walk(document, RawTokens(path)) == Ok(ValueAt(document, path).value)
  {
    if path == [] {
    } else {
      UnescapeEscape(SegmentText(path[0]));
      assert RawTokens(path)[1..] == RawTokens(path[1..]);
      match (document, path[0])
      case (Object(fields), Field(name)) => WalkOfPath(fields[name], path[1..]);
      case (Array(items), Item(index)) =>
        PrintedIndex(index);
        WalkOfPath(items[index], path[1..]);
    }
  }

  /** Round trip: printing the pointer of an existing path and evaluating it finds the value
      at that path, whatever characters the keys hold. */
  lemma PointerRoundTrip(document: Json, path: seq<Segment>)
    requires path != [] && ValueAt(document, path).Some?
    ensures Resolve(document, PointerOf(path)) == Ok(ValueAt(document, path).value)
  {
    var tokens := RawTokens(path);
    forall i | 0 <= i < |tokens| ensures '/' !in tokens[i] {
      EscapeIsWellFormed(SegmentText(path[i]));
    }
    SplitJoin(tokens, '/');
    assert PointerOf(path)[1..] == Join(tokens, '/');
    WalkOfPath(document, path);
  }

  lemma {:induction false} PathOfWalk(document: Json, tokens: seq<string>) returns (path: seq<Segment>)
    requires Walk(document, tokens).Ok?
    ensures |path| == |tokens|
    ensures ValueAt(document, path) == Some(Walk(document, tokens).value)
    ensures forall i :: 0 <= i < |tokens| ==> SegmentText(path[i]) == Unescape(tokens[i])
  {
    if tokens == [] {
      path := [];
    } else {
      var token := Unescape(tokens[0]);
      var rest := PathOfWalk(Select(document, token).value, tokens[1..]);
      match document
      case Object(_) => path := [Field(token)] + rest;
      case Array(_) =>
        ParsedIndex(token);
        path := [Item(ParseDecimal(token))] + rest;
      assert path[1..] == rest;
      forall i | 0 <= i < |tokens| ensures SegmentText(path[i]) == Unescape(tokens[i]) {
        if i > 0 { assert path[i] == rest[i - 1] && tokens[i] == tokens[1..][i - 1]; }
      }
    }
  }

  predicate WellFormedPointer(pointer: string) {
    pointer != "" && pointer[0] == '/' &&
    forall i :: 0 <= i < |Split(pointer[1..], '/')| ==> WellEscaped(Split(pointer[1..], '/')[i])
  }

  /** Conversely, every success names a real path with that value; and the pointer is the
      one RFC 6901 writes for that path exactly when its tokens are well escaped. */
  lemma SuccessNamesAPath(document: Json, pointer: string)
    requires Resolve(document, pointer).Ok?
    ensures exists path ::
      && path != [] && ValueAt(document, path) == Some(Resolve(document, pointer).value)
      && (PointerOf(path) == pointer <==> WellFormedPointer(pointer))
  {
    var path := PathOfPointer(document, pointer);
    assert path != [];
  }

  lemma PathOfPointer(document: Json, pointer: string) returns (path: seq<Segment>)
    requires Resolve(document, pointer).Ok?
    ensures path != []
    ensures ValueAt(document, path) == Some(Resolve(document, pointer).value)
    ensures PointerOf(path) == pointer <==> WellFormedPointer(pointer)
  {
    var tokens := Split(pointer[1..], '/');
    path := PathOfWalk(document, tokens);
    JoinSplit(pointer[1..], '/');
    var printed := RawTokens(path);
    forall i | 0 <= i < |tokens| ensures printed[i] == tokens[i] <==> WellEscaped(tokens[i]) {
      EscapeUnescapeIffWellEscaped(tokens[i]);
    }
    forall i | 0 <= i < |printed| ensures '/' !in printed[i] {
      EscapeIsWellFormed(SegmentText(path[i]));
    }
    SplitJoin(printed, '/');
    assert PointerOf(path)[1..] == Join(printed, '/');
    assert pointer == "/" + pointer[1..];
    if WellFormedPointer(pointer) {
      assert printed == tokens;
    }
    if PointerOf(path) == pointer {
      assert printed == tokens;
    }
  }

  /** The code is more lenient than RFC 6901: a lone `~` is read as itself. */
  lemma LoneTildeIsAccepted()
    ensures !WellFormedPointer("/~")
    ensures Resolve(Object(map["~" := Number(1.0)]), "/~") == Ok(Number(1.0))
  {
    assert "/~"[1..] == "~";
    assert Split("~", '/') == ["~"] by {
      assert "~"[1..] == "";
      assert ['~'] + "" == "~";
    }
    assert Unescape("~") == "~" by {
      assert "~"[1..] == "";
      assert ['~'] + "" == "~";
    }
    assert ["~"][1..] == [];
    assert WellEscaped(["~"][0]) == false;
  }

  // ---------------------------------------------------------------- the expectation

  function Abs(x: real): real { if x < 0.0 then -x else x }

  predicate Meets(value: real, e: Expectation) {
    match e.comparator
    case Equals => Abs(value - e.expected) <= e.tolerance
    case AtLeast => value >= e.expected - e.tolerance
    case AtMost => value <= e.expected + e.tolerance
  }

  /** The range that an expectation leaves open: the tolerance below the expected number unless only an
      upper bound is asked for, and above it unless only a lower bound is. */
  predicate InRange(x: real, e: Expectation) {
    && (e.comparator != AtMost ==> e.expected - e.tolerance <= x)
    && (e.comparator != AtLeast ==> x <= e.expected + e.tolerance)
  }

  datatype Validation = Validation(value: real, passed: bool, expectation: Expectation)

  /** `None` stands for bytes that are not UTF-8 JSON. */
  function ExtractAndValidate(document: Option<Json>, e: Expectation): (r: Result<Validation>)
    ensures r.Ok? <==> document.Some? && exists v :: Resolve(document.value, e.pointer) == Ok(Number(v))
    ensures r.Ok? ==> r.value.expectation == e
    ensures r.Ok? ==> document.Some? && Resolve(document.value, e.pointer) == Ok(Number(r.value.value))
    ensures r.Ok? ==> (r.value.passed <==> InRange(r.value.value, e))
  {
    if document.None? then Err(MetricExtraction)
    else
      var found :- Resolve(document.value, e.pointer);
      match found
      case Number(value) => Ok(Validation(value, Meets(value, e), e))
      case _ => Err(MetricExtraction)
  }

  // ---------------------------------------------------------------- what a verdict means

  /** The document holds this number where the expectation looks for it. */
  predicate Measures(document: Json, e: Expectation, x: real) {
    Resolve(document, e.pointer) == Ok(Number(x))
  }

  /** The extractor finds a number in the document and it passes. */
  predicate Passed(document: Json, e: Expectation) {
    var r := ExtractAndValidate(Some(document), e);
    r.Ok? && r.value.passed
  }

  /** `Equals` asks for both bounds, the others for one of them each. */
  lemma EqualsIsBoth(document: Json, e: Expectation, x: real)
    requires Measures(document, e, x) && e.comparator == Equals
    ensures Passed(document, e) <==>
      Passed(document, e.(comparator := AtLeast)) && Passed(document, e.(comparator := AtMost))
  {
    hide Resolve;
  }

  /** A number above a passing one passes under `AtLeast`, one below it under `AtMost`, and one between
      two passing ones under every comparator. */
  lemma VerdictIsMonotone(low: Json, middle: Json, high: Json, e: Expectation, x: real, y: real, z: real)
    requires Measures(low, e, x) && Measures(middle, e, y) && Measures(high, e, z) && x <= y <= z
    ensures e.comparator == AtLeast && Passed(low, e) ==> Passed(middle, e) && Passed(high, e)
    ensures e.comparator == AtMost && Passed(high, e) ==> Passed(middle, e) && Passed(low, e)
    ensures Passed(low, e) && Passed(high, e) ==> Passed(middle, e)
  {
    hide Resolve, ExtractAndValidate;
  }

  /** The expected number itself passes under every comparator exactly when the tolerance is not
      negative, and with no tolerance `Equals` passes no other number. */
  lemma ExpectedPasses(document: Json, e: Expectation, x: real)
    requires Measures(document, e, x)
    ensures x == e.expected ==> (Passed(document, e) <==> e.tolerance >= 0.0)
    ensures e.comparator == Equals && e.tolerance == 0.0 ==> (Passed(document, e) <==> x == e.expected)
  {
    hide Resolve;
  }
}
