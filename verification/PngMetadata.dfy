/**
 * The preflight of PNG files and masks: a walk over the chunks of a file.
 *
 * A PNG file is a signature and a sequence of chunks (sections 3.2 and 4.1 of RFC 2083): a length
 * in four bytes, a type in four, the data and a checksum in four.  The checksum is not looked at.
 */
module PngMetadata {
  import opened Wrappers

  type Byte = b: int | 0 <= b < 256 witness 0
  type Bytes = seq<Byte>

  const SIGNATURE: Bytes := [0x89, 0x50, 0x4E, 0x47, 0x0D, 0x0A, 0x1A, 0x0A]
  const IHDR: Bytes := [0x49, 0x48, 0x44, 0x52]
  const IEND: Bytes := [0x49, 0x45, 0x4E, 0x44]
  const TRNS: Bytes := [0x74, 0x52, 0x4E, 0x53]

  datatype Metadata = Metadata(width: nat, height: nat, hasAlpha: bool)

  // ---------- Numbers of four bytes ----------

  function BigEndian(b: Bytes): nat
    requires |b| == 4
  {
    ((b[0] as int * 256 + b[1]) * 256 + b[2]) * 256 + b[3]
  }

  function FourBytes(n: nat): (r: Bytes)
    requires n < 0x1_0000_0000
    ensures |r| == 4
  {
    var a := n / 256;
    var b := a / 256;
    var c := b / 256;
    [c, b % 256, a % 256, n % 256]
  }

  lemma FourBytesRoundTrip(n: nat)
    requires n < 0x1_0000_0000
    ensures BigEndian(FourBytes(n)) == n
  {
  }

  lemma BigEndianRoundTrip(b: Bytes)
    requires |b| == 4
    ensures BigEndian(b) < 0x1_0000_0000 && FourBytes(BigEndian(b)) == b
  {
    var n := BigEndian(b);
    assert n / 256 == (b[0] as int * 256 + b[1]) * 256 + b[2];
    assert n / 256 / 256 == b[0] as int * 256 + b[1];
    assert n / 256 / 256 / 256 == b[0];
  }

  // ---------- The walk ----------

  // What the header says, and whether an alpha channel was seen.
  datatype Header = Header(width: nat, height: nat, color: Byte, hasAlpha: bool)

  predicate ValidHeader(data: Bytes) {
    && |data| == 13
    && BigEndian(data[..4]) > 0 && BigEndian(data[4..8]) > 0 && data[9] in {0, 2, 3, 4, 6}
  }

  function HeaderOf(data: Bytes): Header
    requires |data| == 13
  {
    Header(BigEndian(data[..4]), BigEndian(data[4..8]), data[9], data[9] in {4, 6})
  }

  // What a chunk that is neither header nor end does to the header.
  function Seen(kind: Bytes, header: Option<Header>): Option<Header> {
    if kind == TRNS && header.Some? && header.value.color in {0, 2, 3}
    then Some(header.value.(hasAlpha := true)) else header
  }

  function Summary(header: Option<Header>): Option<Metadata> {
    if header.None? then None else Some(Metadata(header.value.width, header.value.height, header.value.hasAlpha))
  }

  // The rest of a file after some chunks; `first` holds for the first chunk.
  function Walk(rest: Bytes, header: Option<Header>, first: bool): Option<Metadata>
    decreases |rest|
  {
    if |rest| < 12 then None
    else
      var n := BigEndian(rest[..4]);
      var kind := rest[4..8];
      if 12 + n > |rest| then None
      else if kind == IHDR then
        if header.Some? || !first || !ValidHeader(rest[8..8 + n]) then None
        else Walk(rest[12 + n..], Some(HeaderOf(rest[8..8 + n])), false)
      else if kind == IEND then
        if n != 0 then None else Summary(header)
      else Walk(rest[12 + n..], Seen(kind, header), false)
  }

  function Parse(bytes: Bytes): Option<Metadata> {
    if |bytes| < 8 || bytes[..8] != SIGNATURE then None else Walk(bytes[8..], None, true)
  }

  /** Walks over the chunks with an offset, as far as the end chunk. */
  method ReadMetadata(bytes: Bytes) returns (r: Option<Metadata>)
    ensures r == Parse(bytes)
  {
    if |bytes| < 8 || bytes[..8] != SIGNATURE {
      return None;
    }
    var offset := 8;
    var header: Option<Header> := None;
    while offset + 12 <= |bytes|
      invariant 8 <= offset <= |bytes|
      invariant Parse(bytes) == Walk(bytes[offset..], header, offset == 8)
      decreases |bytes| - offset
    {
      var rest := bytes[offset..];
      var n := BigEndian(bytes[offset..offset + 4]);
      assert bytes[offset..offset + 4] == rest[..4];
      var kind := bytes[offset + 4..offset + 8];
      assert kind == rest[4..8];
      var end := offset + 12 + n;
      if end > |bytes| {
        return None;
      }
      var data := bytes[offset + 8..offset + 8 + n];
      assert data == rest[8..8 + n] && bytes[end..] == rest[12 + n..];
      if kind == IHDR {
        if header.Some? || offset != 8 || !ValidHeader(data) {
          return None;
        }
        header := Some(HeaderOf(data));
      } else if kind == TRNS && header.Some? && header.value.color in {0, 2, 3} {
        header := Some(header.value.(hasAlpha := true));
      } else if kind == IEND {
        if n != 0 {
          return None;
        }
        return Summary(header);
      }
      offset := end;
    }
    r := None;
  }

  // ---------- Chunks ----------

  datatype Chunk = Chunk(kind: Bytes, data: Bytes, checksum: Bytes)

  predicate Fits(c: Chunk) { |c.kind| == 4 && |c.checksum| == 4 && |c.data| < 0x1_0000_0000 }

  function Encode(c: Chunk): Bytes
    requires Fits(c)
  {
    FourBytes(|c.data|) + c.kind + c.data + c.checksum
  }

  function EncodeAll(chunks: seq<Chunk>): Bytes
    requires forall c :: c in chunks ==> Fits(c)
  {
    if chunks == [] then [] else Encode(chunks[0]) + EncodeAll(chunks[1..])
  }

  // Whole chunks, of which the last and no other is an empty end chunk.
  ghost predicate Whole(chunks: seq<Chunk>) {
    && chunks != [] && (forall c :: c in chunks ==> Fits(c))
    && chunks[|chunks| - 1].kind == IEND && chunks[|chunks| - 1].data == []
    && forall i :: 0 <= i < |chunks| - 1 ==> chunks[i].kind != IEND
  }

  ghost predicate NoHeader(chunks: seq<Chunk>) { forall c :: c in chunks ==> c.kind != IHDR }

  ghost predicate Transparent(chunks: seq<Chunk>) { exists c :: c in chunks && c.kind == TRNS }

  // Thirteen bytes: a width and a height, neither zero, a depth, a color type and three more.
  predicate Plausible(data: Bytes) {
    |data| == 13 && BigEndian(data[..4]) > 0 && BigEndian(data[4..8]) > 0 && data[9] in {0, 2, 3, 4, 6}
  }

  lemma HeaderParts(width: nat, height: nat, depth: Byte, color: Byte, rest: Bytes)
    requires width < 0x1_0000_0000 && height < 0x1_0000_0000 && |rest| == 3
    ensures var data := FourBytes(width) + FourBytes(height) + [depth, color] + rest;
            && |data| == 13 && HeaderOf(data) == Header(width, height, color, color == 4 || color == 6)
            && (ValidHeader(data) <==> width > 0 && height > 0 && color in {0, 2, 3, 4, 6})
  {
    var data := FourBytes(width) + FourBytes(height) + [depth, color] + rest;
    assert data[..4] == FourBytes(width) && data[4..8] == FourBytes(height);
    FourBytesRoundTrip(width);
    FourBytesRoundTrip(height);
  }

  // The chunks of a file that passes: a valid header first, no second header, and an end.
  ghost predicate WellFormed(chunks: seq<Chunk>) {
    && Whole(chunks) && chunks[0].kind == IHDR && Plausible(chunks[0].data) && NoHeader(chunks[1..])
  }

  ghost function Describes(chunks: seq<Chunk>): Metadata
    requires WellFormed(chunks)
  {
    var d := chunks[0].data;
    Metadata(BigEndian(d[..4]), BigEndian(d[4..8]), d[9] in {4, 6} || (d[9] in {0, 2, 3} && Transparent(chunks)))
  }

  // The same for the chunks after the header.
  ghost predicate Continues(chunks: seq<Chunk>) { Whole(chunks) && NoHeader(chunks) }

  ghost function Outcome(chunks: seq<Chunk>, h: Header): Metadata {
    Metadata(h.width, h.height, h.hasAlpha || (h.color in {0, 2, 3} && Transparent(chunks)))
  }

  lemma EncodeParts(c: Chunk, rest: Bytes)
    requires Fits(c)
    ensures var b := Encode(c) + rest;
            && |b| >= 12 + |c.data| && BigEndian(b[..4]) == |c.data| && b[4..8] == c.kind
            && b[8..8 + |c.data|] == c.data && b[12 + |c.data|..] == rest
  {
    var b := Encode(c) + rest;
    assert b[..4] == FourBytes(|c.data|);
    FourBytesRoundTrip(|c.data|);
  }

  function Cut(b: Bytes): Chunk
    requires |b| >= 12 && 12 + BigEndian(b[..4]) <= |b|
  {
    var n := BigEndian(b[..4]);
    Chunk(b[4..8], b[8..8 + n], b[8 + n..12 + n])
  }

  lemma CutParts(b: Bytes)
    requires |b| >= 12 && 12 + BigEndian(b[..4]) <= |b|
    ensures Fits(Cut(b)) && b == Encode(Cut(b)) + b[12 + BigEndian(b[..4])..]
  {
    BigEndianRoundTrip(b[..4]);
    var n := BigEndian(b[..4]);
    assert b == b[..4] + b[4..8] + b[8..8 + n] + b[8 + n..12 + n] + b[12 + n..];
  }

  lemma WholeTail(c: Chunk, chunks: seq<Chunk>)
    requires Whole(chunks) && Fits(c) && c.kind != IEND
    ensures Whole([c] + chunks)
    ensures EncodeAll([c] + chunks) == Encode(c) + EncodeAll(chunks)
    ensures NoHeader([c] + chunks) <==> c.kind != IHDR && NoHeader(chunks)
    ensures Transparent([c] + chunks) <==> c.kind == TRNS || Transparent(chunks)
  {
    var all := [c] + chunks;
    assert all[1..] == chunks;
    assert c in all;
    assert forall d :: d in all <==> d == c || d in chunks;
  }

  lemma {:induction false} ContinuationsAreFound(rest: Bytes, h: Header) returns (chunks: seq<Chunk>, trailing: Bytes)
    requires Walk(rest, Some(h), false).Some?
    ensures Continues(chunks) && rest == EncodeAll(chunks) + trailing
    ensures Walk(rest, Some(h), false) == Some(Outcome(chunks, h))
    decreases |rest|
  {
    var n := BigEndian(rest[..4]);
    var c := Cut(rest);
    CutParts(rest);
    if c.kind == IEND {
      chunks, trailing := [c], rest[12 + n..];
      assert EncodeAll(chunks) == Encode(c) + EncodeAll(chunks[1..]);
      assert !Transparent(chunks);
    } else {
      var next := Seen(c.kind, Some(h)).value;
      var more;
      more, trailing := ContinuationsAreFound(rest[12 + n..], next);
      chunks := [c] + more;
      WholeTail(c, more);
      assert rest == Encode(c) + (EncodeAll(more) + trailing);
    }
  }

  // One step of the walk, over an encoded chunk.
  lemma WalkOne(c: Chunk, rest: Bytes, header: Option<Header>, first: bool)
    requires Fits(c)
    ensures Walk(Encode(c) + rest, header, first) ==
            if c.kind == IHDR then
              if header.Some? || !first || !ValidHeader(c.data) then None else Walk(rest, Some(HeaderOf(c.data)), false)
            else if c.kind == IEND then
              if c.data != [] then None else Summary(header)
            else Walk(rest, Seen(c.kind, header), false)
  {
    EncodeParts(c, rest);
  }

  lemma WholeRest(chunks: seq<Chunk>)
    requires Whole(chunks) && |chunks| > 1
    ensures Whole(chunks[1..]) && chunks == [chunks[0]] + chunks[1..]
  {
    var more := chunks[1..];
    assert more[|more| - 1] == chunks[|chunks| - 1];
    assert forall i :: 0 <= i < |more| ==> more[i] == chunks[i + 1];
  }

  lemma EncodedRest(chunks: seq<Chunk>, trailing: Bytes)
    requires chunks != [] && forall c :: c in chunks ==> Fits(c)
    ensures EncodeAll(chunks) + trailing == Encode(chunks[0]) + (EncodeAll(chunks[1..]) + trailing)
  {
  }

  lemma {:induction false} ContinuationsAreRead(chunks: seq<Chunk>, trailing: Bytes, h: Header)
    requires Continues(chunks)
    ensures Walk(EncodeAll(chunks) + trailing, Some(h), false) == Some(Outcome(chunks, h))
    decreases |chunks|
  {
    var c, more := chunks[0], chunks[1..];
    EncodedRest(chunks, trailing);
    WalkOne(c, EncodeAll(more) + trailing, Some(h), false);
    if |chunks| > 1 {
      WholeRest(chunks);
      WholeTail(c, more);
      ContinuationsAreRead(more, trailing, Seen(c.kind, Some(h)).value);
    } else {
      assert chunks == [c];
    }
  }

  // Before a header nothing is accepted but a header in the first place.
  lemma {:induction false} HeaderComesFirst(rest: Bytes)
    ensures Walk(rest, None, false).None?
    decreases |rest|
  {
    if |rest| >= 12 && 12 + BigEndian(rest[..4]) <= |rest| {
      HeaderComesFirst(rest[12 + BigEndian(rest[..4])..]);
    }
  }

  lemma AfterTheSignature(rest: Bytes)
    ensures Parse(SIGNATURE + rest) == Walk(rest, None, true)
  {
    assert (SIGNATURE + rest)[..8] == SIGNATURE && (SIGNATURE + rest)[8..] == rest;
  }

  /** Whatever follows them, the signature and well-formed chunks give the metadata that the chunks describe. */
  lemma WellFormedFilesAreRead(chunks: seq<Chunk>, trailing: Bytes)
    requires WellFormed(chunks)
    ensures Parse(SIGNATURE + EncodeAll(chunks) + trailing) == Some(Describes(chunks))
  {
    var c, more := chunks[0], chunks[1..];
    assert SIGNATURE + EncodeAll(chunks) + trailing == SIGNATURE + (EncodeAll(chunks) + trailing);
    AfterTheSignature(EncodeAll(chunks) + trailing);
    EncodedRest(chunks, trailing);
    WalkOne(c, EncodeAll(more) + trailing, None, true);
    WholeRest(chunks);
    WholeTail(c, more);
    ContinuationsAreRead(more, trailing, HeaderOf(c.data));
  }

  lemma FirstIsHeader(rest: Bytes)
    requires Walk(rest, None, true).Some?
    ensures |rest| >= 12 && 12 + BigEndian(rest[..4]) <= |rest|
    ensures Cut(rest).kind == IHDR && ValidHeader(Cut(rest).data)
    ensures Walk(rest, None, true) == Walk(rest[12 + BigEndian(rest[..4])..], Some(HeaderOf(Cut(rest).data)), false)
  {
    HeaderComesFirst(rest[12 + BigEndian(rest[..4])..]);
  }

  /** What is accepted is such a file. */
  lemma AcceptedFilesAreWellFormed(bytes: Bytes) returns (chunks: seq<Chunk>, trailing: Bytes)
    requires Parse(bytes).Some?
    ensures WellFormed(chunks) && bytes == SIGNATURE + EncodeAll(chunks) + trailing && Parse(bytes) == Some(Describes(chunks))
  {
    var rest := bytes[8..];
    var c := Cut(rest);
    FirstIsHeader(rest);
    CutParts(rest);
    var more;
    more, trailing := ContinuationsAreFound(rest[12 + BigEndian(rest[..4])..], HeaderOf(c.data));
    chunks := [c] + more;
    WholeTail(c, more);
    assert chunks[1..] == more;
    EncodedRest(chunks, trailing);
    assert bytes == SIGNATURE + rest;
    assert SIGNATURE + (EncodeAll(chunks) + trailing) == SIGNATURE + EncodeAll(chunks) + trailing;
  }

  /** A file is accepted if and only if it is the signature, well-formed chunks and anything after them. */
  lemma AcceptedMeansWellFormed(bytes: Bytes, m: Metadata)
    ensures Parse(bytes) == Some(m) <==>
            exists chunks, trailing :: WellFormed(chunks) && bytes == SIGNATURE + EncodeAll(chunks) + trailing && Describes(chunks) == m
  {
    if Parse(bytes) == Some(m) {
      var chunks, trailing := AcceptedFilesAreWellFormed(bytes);
    }
    if chunks, trailing :| WellFormed(chunks) && bytes == SIGNATURE + EncodeAll(chunks) + trailing && Describes(chunks) == m {
      WellFormedFilesAreRead(chunks, trailing);
    }
  }

  /** For instance the smallest files: a header with these sizes and this color type, and an end. */
  lemma PlainFilesAreRead(width: nat, height: nat, depth: Byte, color: Byte, rest: Bytes, sum: Bytes, end: Bytes)
    requires 0 < width < 0x1_0000_0000 && 0 < height < 0x1_0000_0000 && |rest| == 3 && |sum| == 4 && |end| == 4
    requires color in {0, 2, 3, 4, 6}
    ensures var header := Chunk(IHDR, FourBytes(width) + FourBytes(height) + [depth, color] + rest, sum);
            Parse(SIGNATURE + EncodeAll([header, Chunk(IEND, [], end)])) == Some(Metadata(width, height, color == 4 || color == 6))
  {
    var header := Chunk(IHDR, FourBytes(width) + FourBytes(height) + [depth, color] + rest, sum);
    var chunks := [header, Chunk(IEND, [], end)];
    HeaderParts(width, height, depth, color, rest);
    assert chunks[1..] == [Chunk(IEND, [], end)];
    WellFormedFilesAreRead(chunks, []);
    assert SIGNATURE + EncodeAll(chunks) + [] == SIGNATURE + EncodeAll(chunks);
    assert !Transparent(chunks);
  }

  /** The names of the chunks, as they stand in the file. */
  lemma ChunkNames()
    ensures |IHDR| == |IEND| == |TRNS| == 4
    ensures forall i :: 0 <= i < 4 ==>
              IHDR[i] == "IHDR"[i] as int && IEND[i] == "IEND"[i] as int && TRNS[i] == "tRNS"[i] as int
  {
  }

  // ---------- Masks ----------

  datatype MaskError = SourceIsNoPng | MaskIsNoPng | MaskHasNoAlpha | SizesDiffer

  method CheckMask(source: Bytes, mask: Bytes) returns (error: Option<MaskError>)
    ensures error.None? <==>
            && Parse(source).Some? && Parse(mask).Some? && Parse(mask).value.hasAlpha
            && Parse(source).value.width == Parse(mask).value.width && Parse(source).value.height == Parse(mask).value.height
    ensures error == Some(SourceIsNoPng) <==> Parse(source).None?
    ensures error == Some(MaskIsNoPng) <==> Parse(source).Some? && Parse(mask).None?
    ensures error == Some(MaskHasNoAlpha) <==> Parse(source).Some? && Parse(mask).Some? && !Parse(mask).value.hasAlpha
  {
    var s := ReadMetadata(source);
    if s.None? {
      return Some(SourceIsNoPng);
    }
    var m := ReadMetadata(mask);
    if m.None? {
      return Some(MaskIsNoPng);
    }
    if !m.value.hasAlpha {
      return Some(MaskHasNoAlpha);
    }
    if (s.value.width, s.value.height) != (m.value.width, m.value.height) {
      return Some(SizesDiffer);
    }
    error := None;
  }
}
