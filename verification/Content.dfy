/** Byte strings, their digests and the references that name them. */
module Content {
  import opened Basics

  /** A byte string is the UTF-8 encoding of exactly one text, or is not valid UTF-8 at all. */
  datatype Bytes = Utf8(text: string) | Binary(octets: seq<bv8>)

  function Utf8Width(c: char): nat {
    var point := c as int;
    if point < 0x80 then 1 else if point < 0x800 then 2 else if point < 0x1_0000 then 3 else 4
  }

  function TextSize(text: string): nat {
    if text == "" then 0 else Utf8Width(text[0]) + TextSize(text[1..])
  }

  /** The size of a text is that of its characters together, and a character takes as many octets as the
      table in section 3 of RFC 3629 gives its range. */
  lemma {:induction false} SizeAddsUp(s: string, t: string)
    ensures TextSize(s + t) == TextSize(s) + TextSize(t)
  {
    if s == "" {
      assert s + t == t;
    } else {
      SizeAddsUp(s[1..], t);
      assert (s + t)[1..] == s[1..] + t;
    }
  }

  lemma SizeOfOne(c: char, octets: nat)
    ensures TextSize([c]) <= octets <==>
      || octets >= 4
      || (octets == 3 && c <= '\U{FFFF}') || (octets == 2 && c <= '\U{07FF}') || (octets == 1 && c <= '\U{007F}')
  {
    assert [c][1..] == "";
  }

  function Size(bytes: Bytes): nat {
    match bytes case Utf8(text) => TextSize(text) case Binary(octets) => |octets|
  }

  /** `bytes.decode("utf-8")`. */
  function Decode(bytes: Bytes): Result<string> {
    match bytes case Utf8(text) => Ok(text) case Binary(_) => Err(OperationConflict)
  }

  /** A digest that determines its preimage: SHA-256 is taken to be collision free. */
  datatype Digest = Sha256(preimage: Bytes)

  datatype MediaType = PlainText | JsonDocument | ZipArchive | UnifiedDiff

  datatype ArtifactKind = ExecutionLog | Patch | Metric | Bundle

  datatype ArtifactRef = ArtifactRef(sha: Digest, size: nat, media: MediaType)

  function RefOf(payload: Bytes, media: MediaType): ArtifactRef {
    ArtifactRef(Sha256(payload), Size(payload), media)
  }

  /** What an external effect reported back: a blob address, or a path, run id or commit. */
  datatype EffectRef = CasUri(sha: Digest) | External(name: string)
}
