/** lab3/src/chipi_chapa.c: a WAV file played as a 1-bit signal on one GPIO
    line. The loader reads the packed 36-byte RIFF/WAVE header, skips chunks
    until the one whose id is "data", and keeps its samples; a periodic timer
    then decodes one frame per tick and drives the line high iff the sample is
    positive. The file is modelled as the byte sequence it holds. */
module PcmPlayer {
  import opened Gpio

  /** `sizeof(WavHeader)`: the header struct is packed. */
  const HeaderSize := 36
  /** `sizeof(DataChunkHeader)`. */
  const ChunkHeaderSize := 8
  /** The chunk id "data". */
  const DataId: seq<byte> := [0x64, 0x61, 0x74, 0x61]

  const TwoTo16 := 0x1_0000
  const TwoTo32 := 0x1_0000_0000

  /** A little-endian `uint16_t`. */
  function LeU16(s: seq<byte>): (v: nat)
    requires |s| == 2
    ensures v < TwoTo16
  {
    s[0] as int + 256 * s[1] as int
  }

  /** A little-endian `uint32_t`. */
  function LeU32(s: seq<byte>): (v: nat)
    requires |s| == 4
    ensures v < TwoTo32
  {
    s[0] as int + 256 * s[1] as int + 0x1_0000 * s[2] as int + 0x100_0000 * s[3] as int
  }

  /** A little-endian `int16_t`: the two's-complement reading of the
      unsigned value. */
  function LeS16(s: seq<byte>): (v: int)
    requires |s| == 2
    ensures -0x8000 <= v < 0x8000
  {
    var u := LeU16(s);
    if u < 0x8000 then u else u - TwoTo16
  }

  function EncodeU16(v: nat): (s: seq<byte>)
    requires v < TwoTo16
    ensures |s| == 2
  {
    [v % 256, v / 256]
  }

  function EncodeU32(v: nat): (s: seq<byte>)
    requires v < TwoTo32
    ensures |s| == 4
  {
    [v % 256, (v / 256) % 256, (v / 0x1_0000) % 256, v / 0x100_0000]
  }

  function EncodeS16(v: int): (s: seq<byte>)
    requires -0x8000 <= v < 0x8000
    ensures |s| == 2
  {
    EncodeU16(if v < 0 then v + TwoTo16 else v)
  }

  lemma U16RoundTrip(v: nat)
    requires v < TwoTo16
    ensures LeU16(EncodeU16(v)) == v
  {
  }

  /** Reading a `uint16_t` and writing it back gives the same bytes. */
  lemma U16Bytes(s: seq<byte>)
    requires |s| == 2
    ensures EncodeU16(LeU16(s)) == s
  {
  }

  lemma U32RoundTrip(v: nat)
    requires v < TwoTo32
    ensures LeU32(EncodeU32(v)) == v
  {
    var s := EncodeU32(v);
    var a := v / 256;
    var b := a / 256;
    assert v == s[0] + 256 * a;
    assert a == s[1] + 256 * b;
    assert b == s[2] as int + 256 * s[3] as int by {
      assert v / 0x1_0000 == b;
      assert v / 0x100_0000 == b / 256;
    }
  }

  lemma U32Bytes(s: seq<byte>)
    requires |s| == 4
    ensures EncodeU32(LeU32(s)) == s
  {
    var v := LeU32(s);
    var b0, b1, b2, b3: int := s[0], s[1], s[2], s[3];
    var a := b1 + 256 * (b2 + 256 * b3);
    var b := b2 + 256 * b3;
    assert v == b0 + 256 * a;
    assert v % 256 == b0 && v / 256 == a;
    assert a % 256 == b1 && a / 256 == b;
    assert v / 0x1_0000 == b by {
      assert v == b0 + 256 * b1 + 0x1_0000 * b;
    }
    assert b % 256 == b2 && b / 256 == b3;
    assert v / 0x100_0000 == b3 by {
      assert v == (b0 + 256 * b1 + 0x1_0000 * b2) + 0x100_0000 * b3;
    }
  }

  /** `*(int16_t*)p` reads back what was stored, and every byte pair is some
      stored value. */
  lemma S16RoundTrip(v: int)
    requires -0x8000 <= v < 0x8000
    ensures LeS16(EncodeS16(v)) == v
  {
    U16RoundTrip(if v < 0 then v + TwoTo16 else v);
  }

  lemma S16Bytes(s: seq<byte>)
    requires |s| == 2
    ensures EncodeS16(LeS16(s)) == s
  {
    U16Bytes(s);
  }

  /** The fields of `WavHeader`, in file order. */
  datatype WavHeader = WavHeader(
    riff: seq<byte>, fileSize: nat, wave: seq<byte>, fmt: seq<byte>, fmtSize: nat,
    audioFormat: nat, numChannels: nat, sampleRate: nat, byteRate: nat,
    blockAlign: nat, bitsPerSample: nat)
  {
    /** `bytes_per_sample`. */
    function BytesPerSample(): nat
    {
      bitsPerSample / 8
    }

    /** The bytes of one frame, `bytes_per_sample * num_channels`: at least
        one sample's worth when the header is playable. */
    function FrameSize(): (n: nat)
      requires Playable()
      ensures n >= BytesPerSample() >= 1
    {
      MulAtLeast(BytesPerSample(), numChannels);
      BytesPerSample() * numChannels
    }

    /** The fields `main` divides by are non-zero. */
    predicate Playable()
    {
      bitsPerSample >= 8 && numChannels >= 1 && sampleRate >= 1
    }

    /** Every field fits its C type. */
    predicate Representable()
    {
      |riff| == 4 && |wave| == 4 && |fmt| == 4
      && fileSize < TwoTo32 && fmtSize < TwoTo32 && sampleRate < TwoTo32 && byteRate < TwoTo32
      && audioFormat < TwoTo16 && numChannels < TwoTo16 && blockAlign < TwoTo16
      && bitsPerSample < TwoTo16
    }
  }

  lemma MulAtLeast(a: nat, b: nat)
    requires b >= 1
    ensures a * b >= a
  {
    assert a * b == a * (b - 1) + a;
  }

  /** The fields of the 36 header bytes, at their packed offsets. */
  function DecodeHeader(b: seq<byte>): (h: WavHeader)
    requires |b| == HeaderSize
    ensures h.Representable()
  {
    WavHeader(
      b[0..4], LeU32(b[4..8]), b[8..12], b[12..16], LeU32(b[16..20]),
      LeU16(b[20..22]), LeU16(b[22..24]), LeU32(b[24..28]), LeU32(b[28..32]),
      LeU16(b[32..34]), LeU16(b[34..36]))
  }

  /** `fread(&header, sizeof(WavHeader), 1, f)`: nothing unless the file
      holds the whole 36 bytes. No tag or format field is checked. */
  function ParseHeader(file: seq<byte>): (h: Option<WavHeader>)
    ensures h.Some? <==> |file| >= HeaderSize
    ensures h.Some? ==> h.value.Representable()
  {
    if |file| < HeaderSize then None else Some(DecodeHeader(file[..HeaderSize]))
  }

  /** The 36 bytes a header is stored as. */
  function EncodeHeader(h: WavHeader): (s: seq<byte>)
    requires h.Representable()
    ensures |s| == HeaderSize
  {
    h.riff + EncodeU32(h.fileSize) + h.wave + h.fmt + EncodeU32(h.fmtSize)
      + EncodeU16(h.audioFormat) + EncodeU16(h.numChannels) + EncodeU32(h.sampleRate)
      + EncodeU32(h.byteRate) + EncodeU16(h.blockAlign) + EncodeU16(h.bitsPerSample)
  }

  lemma HeaderFieldsRoundTrip(h: WavHeader)
    requires h.Representable()
    ensures DecodeHeader(EncodeHeader(h)) == h
  {
    var f := EncodeHeader(h);
    assert f[0..4] == h.riff;
    assert f[8..12] == h.wave;
    assert f[12..16] == h.fmt;
    U32Field(f, 4, h.fileSize);
    U32Field(f, 16, h.fmtSize);
    U16Field(f, 20, h.audioFormat);
    U16Field(f, 22, h.numChannels);
    U32Field(f, 24, h.sampleRate);
    U32Field(f, 28, h.byteRate);
    U16Field(f, 32, h.blockAlign);
    U16Field(f, 34, h.bitsPerSample);
  }

  lemma U16Field(f: seq<byte>, off: nat, v: nat)
    requires v < TwoTo16 && off + 2 <= |f|
    requires f[off] == EncodeU16(v)[0] && f[off + 1] == EncodeU16(v)[1]
    ensures LeU16(f[off..off + 2]) == v
  {
    assert f[off..off + 2] == EncodeU16(v);
    U16RoundTrip(v);
  }

  lemma U32Field(f: seq<byte>, off: nat, v: nat)
    requires v < TwoTo32 && off + 4 <= |f|
    requires f[off] == EncodeU32(v)[0] && f[off + 1] == EncodeU32(v)[1]
    requires f[off + 2] == EncodeU32(v)[2] && f[off + 3] == EncodeU32(v)[3]
    ensures LeU32(f[off..off + 4]) == v
  {
    assert f[off..off + 4] == EncodeU32(v);
    U32RoundTrip(v);
  }

  /** The header is read back field by field from its packed offsets,
      whatever follows it. */
  lemma HeaderRoundTrip(h: WavHeader, rest: seq<byte>)
    requires h.Representable()
    ensures ParseHeader(EncodeHeader(h) + rest) == Some(h)
  {
    assert (EncodeHeader(h) + rest)[..HeaderSize] == EncodeHeader(h);
    HeaderFieldsRoundTrip(h);
  }

  /** The `size` field of the chunk header at `pos`. */
  function DeclaredSize(file: seq<byte>, pos: nat): nat
    requires pos + ChunkHeaderSize <= |file|
  {
    LeU32(file[pos + 4..pos + 8])
  }

  /** `strncmp(data_chunk.id, "data", 4) == 0`. */
  predicate IsData(file: seq<byte>, pos: nat)
    requires pos + ChunkHeaderSize <= |file|
  {
    file[pos..pos + 4] == DataId
  }

  /** Where the next chunk header starts: `fseek(f, size, SEEK_CUR)` after
      the 8 header bytes. */
  function NextChunk(file: seq<byte>, pos: nat): (next: nat)
    requires pos + ChunkHeaderSize <= |file|
    ensures next >= pos + ChunkHeaderSize
  {
    pos + ChunkHeaderSize + DeclaredSize(file, pos)
  }

  /** The chunk scan from offset `pos`: read an 8-byte chunk header (the loop
      ends when fewer than 8 bytes remain), stop at id "data", otherwise seek
      past the chunk. The result is where the data chunk's header starts. */
  function FindChunk(file: seq<byte>, pos: nat): (r: Option<nat>)
    ensures r.Some? ==> pos <= r.value && r.value + ChunkHeaderSize <= |file|
    decreases if pos <= |file| then |file| - pos else 0
  {
    if pos + ChunkHeaderSize > |file| then None
    else if IsData(file, pos) then Some(pos)
    else FindChunk(file, NextChunk(file, pos))
  }

  /** The `while (fread(&data_chunk, …) == 1)` loop. */
  method ScanChunks(file: seq<byte>, start: nat) returns (found: Option<nat>)
    ensures found == FindChunk(file, start)
  {
    var pos := start;
    while pos + ChunkHeaderSize <= |file|
      invariant FindChunk(file, pos) == FindChunk(file, start)
      decreases if pos <= |file| then |file| - pos else 0
    {
      if IsData(file, pos) {
        return Some(pos);
      }
      pos := NextChunk(file, pos);
    }
    return None;
  }

  /** Whatever the scan returns is the header of a chunk whose id is
      "data". */
  lemma {:induction false} FoundIsData(file: seq<byte>, pos: nat)
    ensures FindChunk(file, pos).Some? ==> IsData(file, FindChunk(file, pos).value)
    decreases if pos <= |file| then |file| - pos else 0
  {
    if pos + ChunkHeaderSize <= |file| && !IsData(file, pos) {
      FoundIsData(file, NextChunk(file, pos));
    }
  }

  /** One RIFF chunk: a four-byte id and its body. */
  datatype Chunk = Chunk(id: seq<byte>, body: seq<byte>)
  {
    predicate Representable()
    {
      |id| == 4 && |body| < TwoTo32
    }
  }

  /** Chunk `c` is stored at `pos`: its id, its size and its body. */
  predicate ChunkAt(file: seq<byte>, pos: nat, c: Chunk)
  {
    pos + ChunkHeaderSize + |c.body| <= |file|
    && file[pos..pos + 4] == c.id
    && DeclaredSize(file, pos) == |c.body|
    && file[pos + ChunkHeaderSize..pos + ChunkHeaderSize + |c.body|] == c.body
  }

  /** Where chunk `k` of `cs` starts, counted from the first: the header
      and body sizes of the chunks before it. */
  function Offset(cs: seq<Chunk>, k: nat): nat
    requires k <= |cs|
  {
    if k == 0 then 0 else Offset(cs, k - 1) + ChunkHeaderSize + |cs[k - 1].body|
  }

  /** Chunk `k` of `cs` is stored at its offset from `pos`. */
  predicate NthChunkAt(file: seq<byte>, pos: nat, cs: seq<Chunk>, k: nat)
    requires k < |cs|
  {
    ChunkAt(file, pos + Offset(cs, k), cs[k])
  }

  /** The chunks `cs` are stored one after another from `pos`. */
  predicate ChunksAt(file: seq<byte>, pos: nat, cs: seq<Chunk>)
  {
    forall k :: 0 <= k < |cs| ==> NthChunkAt(file, pos, cs, k)
  }

  /** A stored chunk whose id is not "data" is skipped by its declared
      size, which brings the scan to the next chunk. */
  lemma SkipsChunk(file: seq<byte>, pos: nat, cs: seq<Chunk>, k: nat)
    requires ChunksAt(file, pos, cs) && k < |cs| && cs[k].id != DataId
    ensures FindChunk(file, pos + Offset(cs, k)) == FindChunk(file, pos + Offset(cs, k + 1))
  {
    assert NthChunkAt(file, pos, cs, k);
    assert !IsData(file, pos + Offset(cs, k));
  }

  /** A stored chunk whose id is "data" stops the scan where it starts. */
  lemma FindsDataHere(file: seq<byte>, pos: nat, cs: seq<Chunk>, k: nat)
    requires ChunksAt(file, pos, cs) && k < |cs| && cs[k].id == DataId
    ensures FindChunk(file, pos + Offset(cs, k)) == Some(pos + Offset(cs, k))
  {
    assert NthChunkAt(file, pos, cs, k);
    assert IsData(file, pos + Offset(cs, k));
  }

  /** Started at chunk `k`, the scan stops at the first chunk `i` whose id is
      "data", having skipped every chunk in between by its declared size. */
  lemma {:induction false} FindsFirstData(file: seq<byte>, pos: nat, cs: seq<Chunk>, k: nat, i: nat)
    requires ChunksAt(file, pos, cs)
    requires k <= i < |cs| && cs[i].id == DataId
    requires forall j :: k <= j < i ==> cs[j].id != DataId
    ensures FindChunk(file, pos + Offset(cs, k)) == Some(pos + Offset(cs, i))
    decreases i - k
  {
    if k == i {
      FindsDataHere(file, pos, cs, k);
    } else {
      SkipsChunk(file, pos, cs, k);
      FindsFirstData(file, pos, cs, k + 1, i);
    }
  }

  /** The offsets of `cs` past its first chunk are those of `cs[1..]`,
      shifted by the first chunk's size. */
  lemma {:induction false} OffsetCons(cs: seq<Chunk>, k: nat)
    requires k < |cs|
    ensures Offset(cs, k + 1) == ChunkHeaderSize + |cs[0].body| + Offset(cs[1..], k)
  {
    if k > 0 {
      OffsetCons(cs, k - 1);
      assert cs[1..][k - 1] == cs[k];
    }
  }

  function EncodeChunk(c: Chunk): (s: seq<byte>)
    requires c.Representable()
    ensures |s| == ChunkHeaderSize + |c.body|
  {
    c.id + EncodeU32(|c.body|) + c.body
  }

  function EncodeChunks(cs: seq<Chunk>): seq<byte>
    requires forall j :: 0 <= j < |cs| ==> cs[j].Representable()
  {
    if cs == [] then [] else EncodeChunk(cs[0]) + EncodeChunks(cs[1..])
  }

  lemma ChunkAtEncoded(prefix: seq<byte>, c: Chunk, suffix: seq<byte>)
    requires c.Representable()
    ensures ChunkAt(prefix + EncodeChunk(c) + suffix, |prefix|, c)
  {
    var file := prefix + EncodeChunk(c) + suffix;
    var pos := |prefix|;
    assert file == prefix + c.id + EncodeU32(|c.body|) + c.body + suffix;
    assert file[pos..pos + 4] == c.id;
    assert file[pos + 4..pos + 8] == EncodeU32(|c.body|);
    U32RoundTrip(|c.body|);
    assert file[pos + ChunkHeaderSize..pos + ChunkHeaderSize + |c.body|] == c.body;
  }

  /** Chunks stored one after another: the first at `pos`, the rest right
      after it. */
  lemma ChunksAtCons(file: seq<byte>, pos: nat, cs: seq<Chunk>)
    requires cs != [] && ChunkAt(file, pos, cs[0])
    requires ChunksAt(file, pos + ChunkHeaderSize + |cs[0].body|, cs[1..])
    ensures ChunksAt(file, pos, cs)
  {
    forall k | 0 <= k < |cs|
      ensures NthChunkAt(file, pos, cs, k)
    {
      if k > 0 {
        OffsetCons(cs, k - 1);
        assert cs[1..][k - 1] == cs[k];
        assert NthChunkAt(file, pos + ChunkHeaderSize + |cs[0].body|, cs[1..], k - 1);
      }
    }
  }

  /** The encoding of `cs` is the first chunk's, then the rest's. */
  lemma EncodeChunksCons(prefix: seq<byte>, cs: seq<Chunk>, rest: seq<byte>)
    requires cs != [] && forall j :: 0 <= j < |cs| ==> cs[j].Representable()
    ensures prefix + EncodeChunks(cs) + rest == prefix + EncodeChunk(cs[0]) + (EncodeChunks(cs[1..]) + rest)
    ensures prefix + EncodeChunks(cs) + rest == prefix + EncodeChunk(cs[0]) + EncodeChunks(cs[1..]) + rest
  {
    var e, r := EncodeChunk(cs[0]), EncodeChunks(cs[1..]);
    assert EncodeChunks(cs) == e + r;
    AppendTwo(prefix, e, r);
    AppendTwo(prefix + e, r, rest);
  }

  /** Encoded chunks are stored where they were written. */
  lemma {:induction false} EncodedChunksAt(prefix: seq<byte>, cs: seq<Chunk>, rest: seq<byte>)
    requires forall j :: 0 <= j < |cs| ==> cs[j].Representable()
    ensures ChunksAt(prefix + EncodeChunks(cs) + rest, |prefix|, cs)
    decreases |cs|
  {
    if cs != [] {
      var c := cs[0];
      EncodeChunksCons(prefix, cs, rest);
      ChunkAtEncoded(prefix, c, EncodeChunks(cs[1..]) + rest);
      EncodedChunksAt(prefix + EncodeChunk(c), cs[1..], rest);
      ChunksAtCons(prefix + EncodeChunks(cs) + rest, |prefix|, cs);
    }
  }

  datatype LoadError =
    | HeaderReadFailed   // fewer than 36 bytes for the header
    | TruncatedData      // fewer bytes after the data chunk header than it declares

  /** What `main` keeps of a loaded file: the header, the data chunk's body
      (`audio_buffer`) and `total_samples`. */
  datatype Audio = Audio(header: WavHeader, data: seq<byte>, totalSamples: nat)
  {
    /** Every counted frame lies inside the data. */
    predicate Valid()
    {
      header.Playable() && totalSamples * header.FrameSize() <= |data|
    }
  }

  datatype Result = Success(audio: Audio) | Failure(error: LoadError)

  /** What the program needs of a file that it reads past the header: the
      divisions by `bytes_per_sample * num_channels` and by `sample_rate`
      are unguarded, and a missing data chunk leaves `data_chunk` unset. */
  predicate Loadable(file: seq<byte>)
  {
    |file| >= HeaderSize ==>
      ParseHeader(file).value.Playable() && FindChunk(file, HeaderSize).Some?
  }

  /** `total_samples`: the whole frames in `size` bytes. */
  function TotalSamples(size: nat, frame: nat): (n: nat)
    requires frame >= 1
    ensures n * frame <= size < (n + 1) * frame
  {
    var n := size / frame;
    assert size == n * frame + size % frame;
    n
  }

  /** The loading steps of `main`: header, chunk scan, parameters, data. */
  function Decode(file: seq<byte>): (r: Result)
    requires Loadable(file)
    ensures r.Failure? && r.error == HeaderReadFailed <==> |file| < HeaderSize
    ensures r.Failure? && r.error == TruncatedData <==>
      |file| >= HeaderSize &&
      var p := FindChunk(file, HeaderSize).value;
      |file| - (p + ChunkHeaderSize) < DeclaredSize(file, p)
    ensures r.Success? ==>
      r.audio.Valid() && Some(r.audio.header) == ParseHeader(file)
      && |r.audio.data| < (r.audio.totalSamples + 1) * r.audio.header.FrameSize()
  {
    if |file| < HeaderSize then Failure(HeaderReadFailed)
    else
      var h := ParseHeader(file).value;
      var p := FindChunk(file, HeaderSize).value;
      var size := DeclaredSize(file, p);
      if |file| - (p + ChunkHeaderSize) < size then Failure(TruncatedData)
      else
        var data := file[p + ChunkHeaderSize..p + ChunkHeaderSize + size];
        Success(Audio(h, data, TotalSamples(size, h.FrameSize())))
  }

  /** `main` up to the start of playback. */
  method Load(file: seq<byte>) returns (r: Result)
    requires Loadable(file)
    ensures r == Decode(file)
  {
    var header := ParseHeader(file);
    if header.None? {
      return Failure(HeaderReadFailed);
    }
    var h := header.value;
    var found := ScanChunks(file, HeaderSize);
    var p := found.value;
    var size := DeclaredSize(file, p);
    var totalSamples := size / h.FrameSize();
    var available := |file| - (p + ChunkHeaderSize);
    if available < size {
      return Failure(TruncatedData);
    }
    assert totalSamples == TotalSamples(size, h.FrameSize());
    r := Success(Audio(h, file[p + ChunkHeaderSize..p + ChunkHeaderSize + size], totalSamples));
  }

  /** A file whose header is `h` and whose first data chunk starts at `p` and
      holds `body`. */
  predicate LaidOut(file: seq<byte>, h: WavHeader, p: nat, body: seq<byte>)
  {
    ParseHeader(file) == Some(h) && FindChunk(file, HeaderSize) == Some(p)
    && ChunkAt(file, p, Chunk(DataId, body))
  }

  /** Such a file loads to `body`, with as many samples as whole frames fit
      in it. */
  lemma DecodeLaidOut(file: seq<byte>, h: WavHeader, p: nat, body: seq<byte>)
    requires LaidOut(file, h, p, body) && h.Playable()
    ensures Loadable(file)
    ensures Decode(file) == Success(Audio(h, body, TotalSamples(|body|, h.FrameSize())))
  {
    assert ParseHeader(file).value == h;
    assert DeclaredSize(file, p) == |body|;
  }

  /** A file with header `h` and chunks `cs` after it is laid out with the
      body of its first "data" chunk as data. */
  lemma LaidOutFromChunks(file: seq<byte>, h: WavHeader, cs: seq<Chunk>, i: nat)
    requires ParseHeader(file) == Some(h) && ChunksAt(file, HeaderSize, cs)
    requires i < |cs| && cs[i].id == DataId
    requires forall j :: 0 <= j < i ==> cs[j].id != DataId
    ensures LaidOut(file, h, HeaderSize + Offset(cs, i), cs[i].body)
  {
    FindsDataAfterHeader(file, cs, i);
    DataChunkAt(file, HeaderSize, cs, i);
  }

  /** The scan from the end of the header stops at the first "data" chunk. */
  lemma FindsDataAfterHeader(file: seq<byte>, cs: seq<Chunk>, i: nat)
    requires ChunksAt(file, HeaderSize, cs)
    requires i < |cs| && cs[i].id == DataId
    requires forall j :: 0 <= j < i ==> cs[j].id != DataId
    ensures FindChunk(file, HeaderSize) == Some(HeaderSize + Offset(cs, i))
  {
    assert Offset(cs, 0) == 0;
    FindsFirstData(file, HeaderSize, cs, 0, i);
  }

  /** A stored chunk whose id is "data" is the data chunk with its body. */
  lemma DataChunkAt(file: seq<byte>, pos: nat, cs: seq<Chunk>, i: nat)
    requires ChunksAt(file, pos, cs) && i < |cs| && cs[i].id == DataId
    ensures ChunkAt(file, pos + Offset(cs, i), Chunk(DataId, cs[i].body))
  {
    assert NthChunkAt(file, pos, cs, i);
    assert cs[i] == Chunk(DataId, cs[i].body);
  }

  /** A file written as a header, chunks and trailing bytes is laid out with
      the body of its first "data" chunk as data (so it loads to that body). */
  lemma WavRoundTrip(h: WavHeader, cs: seq<Chunk>, i: nat, rest: seq<byte>) returns (p: nat)
    requires h.Representable()
    requires forall j :: 0 <= j < |cs| ==> cs[j].Representable()
    requires i < |cs| && cs[i].id == DataId
    requires forall j :: 0 <= j < i ==> cs[j].id != DataId
    ensures LaidOut(EncodeHeader(h) + EncodeChunks(cs) + rest, h, p, cs[i].body)
  {
    var file := EncodeHeader(h) + EncodeChunks(cs) + rest;
    p := HeaderSize + Offset(cs, i);
    assert ParseHeader(file) == Some(h) by {
      assert file == EncodeHeader(h) + (EncodeChunks(cs) + rest);
      HeaderRoundTrip(h, EncodeChunks(cs) + rest);
    }
    EncodedChunksAt(EncodeHeader(h), cs, rest);
    LaidOutFromChunks(file, h, cs, i);
  }

  /** The sample of a frame, as `int16_t`: an 8-bit sample is unsigned and
      becomes `(b - 128) << 8`; a 16-bit sample is a signed little-endian
      value; any other width leaves the initial 0. */
  function Sample(bitsPerSample: nat, frame: seq<byte>): (v: int)
    requires |frame| >= 1 && (bitsPerSample == 16 ==> |frame| >= 2)
    ensures -0x8000 <= v < 0x8000
  {
    if bitsPerSample == 8 then (frame[0] as int - 128) * 256
    else if bitsPerSample == 16 then LeS16(frame[..2])
    else 0
  }

  /** The 1-bit output: high iff the sample is positive. */
  function Output(sample: int): bit
  {
    if sample > 0 then 1 else 0
  }

  /** 8-bit samples span [-32768, 32512]: the shift never leaves `int16_t`,
      and the line goes high iff the byte is above the midpoint 128. */
  lemma EightBitSamples(b: byte, more: seq<byte>)
    ensures -0x8000 <= Sample(8, [b] + more) <= 32512
    ensures Output(Sample(8, [b] + more)) == 1 <==> b > 128
    ensures Sample(8, [b] + more) == 0 <==> b == 128
  {
  }

  /** A stored 16-bit sample is read back exactly, and drives the line high
      iff it is positive. */
  lemma SixteenBitSamples(v: int, more: seq<byte>)
    requires -0x8000 <= v < 0x8000
    ensures Sample(16, EncodeS16(v) + more) == v
    ensures Output(Sample(16, EncodeS16(v) + more)) == 1 <==> v > 0
  {
    assert (EncodeS16(v) + more)[..2] == EncodeS16(v);
    S16RoundTrip(v);
  }

  /** Any other sample width plays silence: the line stays low. */
  lemma OtherWidthsAreSilent(bitsPerSample: nat, frame: seq<byte>)
    requires bitsPerSample != 8 && bitsPerSample != 16 && |frame| >= 1
    ensures Output(Sample(bitsPerSample, frame)) == 0
  {
  }

  /** Frame `i` of `total` whole frames lies inside the data: its first
      sample's bytes end at or before `size`. */
  lemma FrameInBounds(i: nat, total: nat, frame: nat, bytesPerSample: nat, size: nat)
    requires i < total && bytesPerSample <= frame
    requires total * frame <= size
    ensures i * frame + bytesPerSample <= size
  {
    assert i * frame + frame == (i + 1) * frame;
    assert (i + 1) * frame <= total * frame by {
      assert total * frame == (i + 1) * frame + (total - (i + 1)) * frame;
    }
  }

  /** `1000000000L / sample_rate`: the tick period in nanoseconds, the
      largest that does not make the rate exceed `sample_rate`. Only rates of
      at least 2 Hz give a `tv_nsec` below one second. */
  function IntervalNs(sampleRate: nat): (ns: nat)
    requires sampleRate > 0
    ensures ns * sampleRate <= 1_000_000_000 < (ns + 1) * sampleRate
    ensures ns < 1_000_000_000 <==> sampleRate >= 2
  {
    TotalSamples(1_000_000_000, sampleRate)
  }

  /** The sample the handler decodes for frame `i`: the first channel's
      sample at byte offset `i * bytes_per_sample * num_channels`. */
  function FrameSample(a: Audio, i: nat): int
    requires a.Valid() && i < a.totalSamples
  {
    var h := a.header;
    FrameInBounds(i, a.totalSamples, h.FrameSize(), h.BytesPerSample(), |a.data|);
    var offset := i * h.FrameSize();
    Sample(h.bitsPerSample, a.data[offset..offset + h.BytesPerSample()])
  }

  /** The levels written for frames `from` up to `to`. */
  function Outputs(a: Audio, from: nat, to: nat): (r: seq<bit>)
    requires a.Valid() && from <= to <= a.totalSamples
    ensures |r| == to - from
    ensures forall k :: 0 <= k < |r| ==>
      r[k] == Output(FrameSample(a, from + k))
    decreases (to as int) - (from as int)
  {
    if from == to then [] else [Output(FrameSample(a, from))] + Outputs(a, from + 1, to)
  }

  lemma OutputsSnoc(a: Audio, from: nat, to: nat)
    requires a.Valid() && from <= to < a.totalSamples
    ensures Outputs(a, from, to + 1) == Outputs(a, from, to) + [Output(FrameSample(a, to))]
  {
  }

  /** The handler's globals and the levels written on the output line. */
  class Player {
    const audio: Audio
    /** `led` and `audio_buffer` are both set. */
    const attached: bool
    var currentSample: nat
    var complete: bool
    var written: seq<bit>

    predicate Valid()
      reads this
    {
      audio.Valid() && currentSample <= audio.totalSamples
    }

    /** The globals as `main` leaves them once the file is loaded. */
    constructor (audio: Audio, attached: bool)
      requires audio.Valid()
      ensures Valid() && this.audio == audio && this.attached == attached
      ensures currentSample == 0 && !complete && written == []
    {
      this.audio := audio;
      this.attached := attached;
      currentSample := 0;
      complete := false;
      written := [];
    }

    /** `timer_handler`: while frames remain, write the level of the next
        one and advance; afterwards only flag completion. */
    method Tick()
      requires Valid()
      modifies this
      ensures Valid()
      ensures old(attached && currentSample < audio.totalSamples) ==>
        currentSample == old(currentSample) + 1 && complete == old(complete)
        && written == old(written) + [Output(FrameSample(audio, old(currentSample)))]
      ensures !old(attached && currentSample < audio.totalSamples) ==>
        currentSample == old(currentSample) && complete && written == old(written)
    {
      if attached && currentSample < audio.totalSamples {
        var h := audio.header;
        FrameInBounds(currentSample, audio.totalSamples, h.FrameSize(), h.BytesPerSample(), |audio.data|);
        var byteOffset := currentSample * h.FrameSize();
        var sample := 0;
        if h.bitsPerSample == 8 {
          sample := (audio.data[byteOffset] as int - 128) * 256;
        } else if h.bitsPerSample == 16 {
          sample := LeS16(audio.data[byteOffset..byteOffset + 2]);
        }
        assert sample == FrameSample(audio, currentSample);
        var output := if sample > 0 then 1 else 0;
        written := written + [output];
        currentSample := currentSample + 1;
      } else {
        complete := true;
      }
    }

    /** `while (!playback_complete) pause();` with one tick per wake-up:
        every remaining frame is played in order, then completion is
        flagged. */
    method Play()
      requires Valid() && !complete
      modifies this
      ensures Valid() && complete
      ensures attached ==>
        currentSample == audio.totalSamples
        && written == old(written) + Outputs(audio, old(currentSample), audio.totalSamples)
      ensures !attached ==> written == old(written) && currentSample == old(currentSample)
    {
      while !complete
        invariant Valid()
        invariant old(currentSample) <= currentSample
        invariant attached ==> written == old(written) + Outputs(audio, old(currentSample), currentSample)
        invariant complete && attached ==> currentSample == audio.totalSamples
        invariant !attached ==> written == old(written) && currentSample == old(currentSample)
        decreases audio.totalSamples - currentSample, if complete then 0 else 1
      {
        ghost var before := currentSample;
        Tick();
        if attached && currentSample == before + 1 {
          OutputsSnoc(audio, old(currentSample), before);
        }
      }
    }
  }
}
