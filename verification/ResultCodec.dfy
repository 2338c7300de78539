/** The JSON payload of a completed sandbox result, with its byte fields in Base64. */
module ResultCodec {
  import opened Basics

  /** Two bits. */
  type Crumb = n: nat | n < 4

  /** A byte, as its pairs of bits, the highest first. */
  datatype Octet = Octet(a: Crumb, b: Crumb, c: Crumb, d: Crumb)

  // ---------------------------------------------------------------- Base64

  /** The six bits that one symbol stands for. */
  datatype Sextet = Sextet(a: Crumb, b: Crumb, c: Crumb)

  function Symbol(s: Sextet): char {
    var n := 16 * s.a + 4 * s.b + s.c;
    if n < 26 then 'A' + n as char
    else if n < 52 then 'a' + (n - 26) as char
    else if n < 62 then '0' + (n - 52) as char
    else if n == 62 then '+' else '/'
  }

  function SextetOf(n: nat): Sextet
    requires n < 64
  {
    var a := if n < 16 then 0 else if n < 32 then 1 else if n < 48 then 2 else 3;
    var m := n - 16 * a;
    var b := if m < 4 then 0 else if m < 8 then 1 else if m < 12 then 2 else 3;
    Sextet(a, b, m - 4 * b)
  }

  function SymbolValue(c: char): Option<Sextet> {
    if 'A' <= c <= 'Z' then Some(SextetOf((c - 'A') as nat))
    else if 'a' <= c <= 'z' then Some(SextetOf((c - 'a') as nat + 26))
    else if '0' <= c <= '9' then Some(SextetOf((c - '0') as nat + 52))
    else if c == '+' then Some(SextetOf(62)) else if c == '/' then Some(SextetOf(63)) else None
  }

  lemma SymbolsAreRead(s: Sextet)
    ensures SymbolValue(Symbol(s)) == Some(s) && Symbol(s) != '=' && Symbol(s) != '\0'
  {}

  /** `b64encode`: three octets make four symbols; the rest is padded. */
  function Encode(s: seq<Octet>): string {
    if |s| == 0 then ""
    else
      var x := s[0];
      if |s| == 1 then [Symbol(Sextet(x.a, x.b, x.c)), Symbol(Sextet(x.d, 0, 0)), '=', '=']
      else
        var y := s[1];
        if |s| == 2 then
          [Symbol(Sextet(x.a, x.b, x.c)), Symbol(Sextet(x.d, y.a, y.b)), Symbol(Sextet(y.c, y.d, 0)), '=']
        else Quad(x, y, s[2]) + Encode(s[3..])
  }

  function Quad(x: Octet, y: Octet, z: Octet): string {
    [Symbol(Sextet(x.a, x.b, x.c)), Symbol(Sextet(x.d, y.a, y.b)), Symbol(Sextet(y.c, y.d, z.a)),
     Symbol(Sextet(z.b, z.c, z.d))]
  }

  /** `b64decode` with validation; the unused low bits before the padding are not looked at. */
  function Decode(t: string): Option<seq<Octet>> {
    if |t| == 0 then Some([])
    else if |t| < 4 || SymbolValue(t[0]).None? || SymbolValue(t[1]).None? then None
    else
      var p, q := SymbolValue(t[0]).value, SymbolValue(t[1]).value;
      var x := Octet(p.a, p.b, p.c, q.a);
      if t[2] == '=' && t[3] == '=' && |t| == 4 then Some([x])
      else if SymbolValue(t[2]).None? then None
      else
        var r := SymbolValue(t[2]).value;
        var y := Octet(q.b, q.c, r.a, r.b);
        if t[3] == '=' && |t| == 4 then Some([x, y])
        else if SymbolValue(t[3]).None? || Decode(t[4..]).None? then None
        else
          var w := SymbolValue(t[3]).value;
          Some([x, y, Octet(r.c, w.a, w.b, w.c)] + Decode(t[4..]).value)
  }

  lemma DecodeTwicePadded(p: Sextet, q: Sextet)
    ensures Decode([Symbol(p), Symbol(q), '=', '=']) == Some([Octet(p.a, p.b, p.c, q.a)])
  {
    SymbolsAreRead(p);
    SymbolsAreRead(q);
    hide Symbol, SymbolValue;
  }

  lemma DecodePadded(p: Sextet, q: Sextet, r: Sextet)
    ensures Decode([Symbol(p), Symbol(q), Symbol(r), '=']) ==
            Some([Octet(p.a, p.b, p.c, q.a), Octet(q.b, q.c, r.a, r.b)])
  {
    SymbolsAreRead(p);
    SymbolsAreRead(q);
    SymbolsAreRead(r);
    hide Symbol, SymbolValue;
  }

  lemma DecodeUnpadded(x: Octet, y: Octet, z: Octet, t: string, rest: string)
    requires t == Quad(x, y, z) + rest && Decode(rest).Some?
    ensures Decode(t) == Some([x, y, z] + Decode(rest).value)
  {
    SymbolsAreRead(Sextet(x.a, x.b, x.c));
    SymbolsAreRead(Sextet(x.d, y.a, y.b));
    SymbolsAreRead(Sextet(y.c, y.d, z.a));
    SymbolsAreRead(Sextet(z.b, z.c, z.d));
    hide Symbol, SymbolValue;
    assert t[4..] == rest;
  }

  lemma EncodedHasNoNul(s: seq<Octet>)
    ensures Encode(s) == "" <==> s == []
    ensures '\0' !in Encode(s)
    decreases |s|
  {
    hide Symbol;
    forall q: Sextet ensures Symbol(q) != '\0' { SymbolsAreRead(q); }
    if |s| > 2 { EncodedHasNoNul(s[3..]); }
  }

  lemma {:induction false} DecodeEncode(s: seq<Octet>)
    ensures Decode(Encode(s)) == Some(s)
    decreases |s|
  {
    hide Decode, Symbol, Quad;
    if |s| == 1 {
      DecodeTwicePadded(Sextet(s[0].a, s[0].b, s[0].c), Sextet(s[0].d, 0, 0));
      assert s == [s[0]];
    } else if |s| == 2 {
      DecodePadded(Sextet(s[0].a, s[0].b, s[0].c), Sextet(s[0].d, s[1].a, s[1].b), Sextet(s[1].c, s[1].d, 0));
      assert s == [s[0], s[1]];
    } else if |s| > 2 {
      DecodeEncode(s[3..]);
      DecodeUnpadded(s[0], s[1], s[2], Encode(s), Encode(s[3..]));
      assert s == [s[0], s[1], s[2]] + s[3..];
    } else {
      assert Encode(s) == "" && s == [];
      DecodeNothing();
    }
  }

  /** The examples of section 10 of RFC 4648, and one with the last two symbols of the alphabet. */
  lemma Examples()
    ensures var (f, o, b, a, r) := (Octet(1, 2, 1, 2), Octet(1, 2, 3, 3), Octet(1, 2, 0, 2), Octet(1, 2, 0, 1),
                                    Octet(1, 3, 0, 2));
      && Encode([]) == "" && Encode([f]) == "Zg==" && Encode([f, o]) == "Zm8=" && Encode([f, o, o]) == "Zm9v"
      && Encode([f, o, o, b]) == "Zm9vYg==" && Encode([f, o, o, b, a]) == "Zm9vYmE="
      && Encode([f, o, o, b, a, r]) == "Zm9vYmFy"
    ensures Encode([Octet(3, 3, 2, 3), Octet(3, 3, 3, 3)]) == "+/8="
  {
    var f, o, b, a, r := Octet(1, 2, 1, 2), Octet(1, 2, 3, 3), Octet(1, 2, 0, 2), Octet(1, 2, 0, 1), Octet(1, 3, 0, 2);
    assert [f, o, o][3..] == [] && [f, o, o, b][3..] == [b] && [f, o, o, b, a][3..] == [b, a];
    assert [f, o, o, b, a, r][3..] == [b, a, r] && [b, a, r][3..] == [];
    assert Encode([b, a, r]) == "YmFy" && Encode([b, a]) == "YmE=" && Encode([b]) == "Yg==";
    assert Encode([f, o, o]) == "Zm9v";
  }

  /** What is decoded is a whole number of groups of four symbols, and at most the last one is padded. */
  lemma {:induction false} GroupsOfFour(t: string) returns (groups: nat)
    requires Decode(t).Some?
    ensures |t| == 4 * groups && 3 * groups - 2 <= |Decode(t).value| <= 3 * groups
    ensures forall i :: 0 <= i < |t| && t[i] == '=' ==> i >= |t| - 2
    decreases |t|
  {
    if t == "" {
      groups := 0;
    } else if t[3] == '=' {
      groups := 1;
    } else {
      var rest := GroupsOfFour(t[4..]);
      groups := rest + 1;
      forall i | 0 <= i < |t| && t[i] == '=' ensures i >= |t| - 2 {
        if i >= 4 { assert t[4..][i - 4] == '='; }
      }
    }
  }

  lemma DecodeNothing()
    ensures Decode("") == Some([])
  {}

  // ---------------------------------------------------------------- the payload

  /** The keys of the payload object. */
  datatype Name =
    | OperationId | ExecutionId | ExitCode | Stdout | Stderr | OutputFiles | EnvironmentDigest | DatasetSha256
    | LogsTruncated

  datatype Value =
    | Text(text: string)
    | Number(number: int)
    | Truth(truth: bool)
    | Object(fields: map<string, Value>)
    | Other

  datatype SandboxResult = SandboxResult(
    operation: string, execution: string, exitCode: int, stdout: seq<Octet>, stderr: seq<Octet>,
    files: map<string, seq<Octet>>, environment: string, dataset: string, truncated: bool)

  type Payload = map<Name, Value>

  function EncodedFiles(files: map<string, seq<Octet>>): map<string, Value> {
    map path | path in files :: Text(Encode(files[path]))
  }

  function PayloadOf(r: SandboxResult): Payload {
    map[OperationId := Text(r.operation), ExecutionId := Text(r.execution), ExitCode := Number(r.exitCode),
        Stdout := Text(Encode(r.stdout)), Stderr := Text(Encode(r.stderr)),
        OutputFiles := Object(EncodedFiles(r.files)),
        EnvironmentDigest := Text(r.environment), DatasetSha256 := Text(r.dataset), LogsTruncated := Truth(r.truncated)]
  }

  predicate Solid(s: string) {
    s != "" && '\0' !in s
  }

  /** `_string`. */
  function StringIn<K>(p: map<K, Value>, key: K): Result<string> {
    if key in p && p[key].Text? && Solid(p[key].text) then Ok(p[key].text) else Err(Refused)
  }

  function BytesIn<K>(p: map<K, Value>, key: K): Result<seq<Octet>> {
    var text :- StringIn(p, key);
    if Decode(text).Some? then Ok(Decode(text).value) else Err(Refused)
  }

  predicate IsDigest(s: string) {
    |s| == 64 && forall c <- s :: '0' <= c <= '9' || 'a' <= c <= 'f'
  }

  /** The output files, each with a solid path and a non-empty valid encoding. */
  function FilesFrom(fields: map<string, Value>): Result<map<string, seq<Octet>>> {
    if exists path <- fields :: !Solid(path) || BytesIn(fields, path).Err? then Err(Refused)
    else Ok(map path | path in fields :: BytesIn(fields, path).value)
  }

  function ResultFrom(p: Payload): Result<SandboxResult> {
    if OutputFiles !in p || !p[OutputFiles].Object? then Err(Refused)
    else
      var operation :- StringIn(p, OperationId);
      var execution :- StringIn(p, ExecutionId);
      if ExitCode !in p || !p[ExitCode].Number? then Err(Refused)
      else
        var stdout :- BytesIn(p, Stdout);
        var stderr :- BytesIn(p, Stderr);
        var files :- FilesFrom(p[OutputFiles].fields);
        var environment :- StringIn(p, EnvironmentDigest);
        var dataset :- StringIn(p, DatasetSha256);
        if !IsDigest(dataset) || LogsTruncated !in p || !p[LogsTruncated].Truth? then Err(Refused)
        else
          Ok(SandboxResult(operation, execution, p[ExitCode].number, stdout, stderr, files, environment, dataset,
                           p[LogsTruncated].truth))
  }

  /** What the store can hold. An empty byte field encodes to the empty string, which reading
      refuses: a run with an empty stdout, stderr or output file cannot be stored. */
  predicate Storable(r: SandboxResult) {
    && Plain(r.operation) && Plain(r.execution) && Plain(r.environment) && IsSha256(r.dataset)
    && r.stdout != [] && r.stderr != [] && StorableFiles(r.files)
  }

  predicate StorableFiles(files: map<string, seq<Octet>>) {
    forall path <- files :: Plain(path) && files[path] != []
  }

  /** Some text without a NUL. */
  predicate Plain(s: string) {
    |s| > 0 && forall i :: 0 <= i < |s| ==> s[i] != '\0'
  }

  /** A SHA-256 digest as it is written: sixty-four lower case hexadecimal digits. */
  predicate IsSha256(s: string) {
    |s| == 64 && forall c <- s :: c in "0123456789abcdef"
  }

  lemma PlainIff(s: string)
    ensures Solid(s) <==> Plain(s)
    ensures Solid(s) && IsDigest(s) <==> IsSha256(s)
  {
    HexDigits();
    if IsSha256(s) {
      forall i | 0 <= i < |s| ensures s[i] != '\0' {
        assert s[i] in s && s[i] in "0123456789abcdef";
      }
    }
  }

  lemma HexDigits()
    ensures forall c: char :: c in "0123456789abcdef" <==> '0' <= c <= '9' || 'a' <= c <= 'f'
  {
    forall c: char | '0' <= c <= '9' || 'a' <= c <= 'f' ensures c in "0123456789abcdef" {
      var i := if c <= '9' then c - '0' else c - 'a' + 10 as char;
      assert c == "0123456789abcdef"[i as int];
    }
  }

  lemma EncodedField<K>(p: map<K, Value>, key: K, octets: seq<Octet>)
    requires key in p && p[key] == Text(Encode(octets))
    ensures BytesIn(p, key) == if octets == [] then Err(Refused) else Ok(octets)
  {
    hide Encode, Decode;
    DecodeEncode(octets);
    EncodedHasNoNul(octets);
  }

  lemma FilesRoundTrip(files: map<string, seq<Octet>>)
    ensures FilesFrom(EncodedFiles(files)) == if StorableFiles(files) then Ok(files) else Err(Refused)
  {
    hide Encode, BytesIn;
    var fields := EncodedFiles(files);
    forall path | path in files
      ensures BytesIn(fields, path) == if files[path] == [] then Err(Refused) else Ok(files[path])
    {
      EncodedField(fields, path, files[path]);
    }
    if StorableFiles(files) {
      assert (map path | path in fields :: BytesIn(fields, path).value) == files;
    } else {
      var path :| path in files && !(Solid(path) && files[path] != []);
      assert path in fields;
    }
  }

  /** Reading back what was written gives the same result, for exactly the storable ones. */
  lemma PayloadRoundTrip(r: SandboxResult)
    ensures ResultFrom(PayloadOf(r)) == if Storable(r) then Ok(r) else Err(Refused)
  {
    var p := PayloadOf(r);
    hide Encode, Decode, BytesIn, FilesFrom, StorableFiles, IsDigest, EncodedFiles;
    EncodedField(p, Stdout, r.stdout);
    EncodedField(p, Stderr, r.stderr);
    FilesRoundTrip(r.files);
    hide Plain, Solid;
    PlainIff(r.operation);
    PlainIff(r.execution);
    PlainIff(r.environment);
    PlainIff(r.dataset);
  }

  lemma DecodesToSome(t: string)
    requires t != "" && Decode(t).Some?
    ensures Decode(t).value != []
  {}

  lemma TextIsKept<K>(p: map<K, Value>, key: K)
    requires StringIn(p, key).Ok?
    ensures key in p && p[key] == Text(StringIn(p, key).value) && Plain(StringIn(p, key).value)
  {}

  lemma BytesAreKept<K>(p: map<K, Value>, key: K)
    requires BytesIn(p, key).Ok?
    ensures key in p && p[key].Text? && Decode(p[key].text) == Some(BytesIn(p, key).value)
    ensures BytesIn(p, key).value != []
  {
    TextIsKept(p, key);
    DecodesToSome(p[key].text);
    hide Decode;
  }

  lemma FilesAreKept(fields: map<string, Value>)
    requires FilesFrom(fields).Ok?
    ensures FilesFrom(fields).value.Keys == fields.Keys && StorableFiles(FilesFrom(fields).value)
    ensures forall path <- fields ::
      fields[path].Text? && Decode(fields[path].text) == Some(FilesFrom(fields).value[path])
  {
    hide Decode, BytesIn, Plain, Solid;
    forall path | path in fields
      ensures fields[path].Text? && Decode(fields[path].text) == Some(FilesFrom(fields).value[path])
      ensures Plain(path) && FilesFrom(fields).value[path] != []
    {
      BytesAreKept(fields, path);
      PlainIff(path);
    }
  }

  /** Whatever is read, from any payload at all, is a storable result, and every field of it is the one that
      the payload holds, its bytes in some encoding of them. */
  lemma ReadingIsFaithful(p: Payload)
    requires ResultFrom(p).Ok?
    ensures var r := ResultFrom(p).value;
      && Storable(r) && OperationId in p && p[OperationId] == Text(r.operation)
      && ExecutionId in p && p[ExecutionId] == Text(r.execution) && ExitCode in p && p[ExitCode] == Number(r.exitCode)
      && Stdout in p && p[Stdout].Text? && Decode(p[Stdout].text) == Some(r.stdout)
      && Stderr in p && p[Stderr].Text? && Decode(p[Stderr].text) == Some(r.stderr)
      && OutputFiles in p && p[OutputFiles].Object? && p[OutputFiles].fields.Keys == r.files.Keys
      && (forall path <- r.files ::
            p[OutputFiles].fields[path].Text? && Decode(p[OutputFiles].fields[path].text) == Some(r.files[path]))
      && EnvironmentDigest in p && p[EnvironmentDigest] == Text(r.environment)
      && DatasetSha256 in p && p[DatasetSha256] == Text(r.dataset)
      && LogsTruncated in p && p[LogsTruncated] == Truth(r.truncated)
  {
    hide Decode, BytesIn, StringIn, FilesFrom, Plain, Solid, StorableFiles;
    TextIsKept(p, OperationId);
    TextIsKept(p, ExecutionId);
    BytesAreKept(p, Stdout);
    BytesAreKept(p, Stderr);
    FilesAreKept(p[OutputFiles].fields);
    TextIsKept(p, EnvironmentDigest);
    TextIsKept(p, DatasetSha256);
    PlainIff(ResultFrom(p).value.dataset);
  }

  /** A run that prints nothing to stderr, or nothing to stdout, is refused, whatever else it has. */
  lemma QuietRunIsRefused(r: SandboxResult)
    requires r.stdout == [] || r.stderr == []
    ensures ResultFrom(PayloadOf(r)) == Err(Refused)
  {
    PayloadRoundTrip(r);
  }

  const Newline := Octet(0, 0, 2, 2)

  /** Such as this ordinary one, which would be stored if it had printed one byte more. */
  lemma QuietRun()
    ensures var quiet := SandboxResult("o", "x", 0, [Newline], [], map[], "e", seq(64, (i: nat) => '0'), false);
      ResultFrom(PayloadOf(quiet)) == Err(Refused) && ResultFrom(PayloadOf(quiet.(stderr := [Newline]))).Ok?
  {
    var quiet := SandboxResult("o", "x", 0, [Newline], [], map[], "e", seq(64, (i: nat) => '0'), false);
    QuietRunIsRefused(quiet);
    PayloadRoundTrip(quiet.(stderr := [Newline]));
    hide ResultFrom, PayloadOf;
    SolidWords(quiet.dataset);
  }

  lemma SolidWords(dataset: string)
    requires dataset == seq(64, (i: nat) => '0')
    ensures Solid("o") && Solid("x") && Solid("e") && Solid(dataset) && IsDigest(dataset)
  {
    assert "o"[0] == 'o' && "x"[0] == 'x' && "e"[0] == 'e';
    assert |dataset| == 64 && forall c <- dataset :: c == '0';
  }
}
