/**
 The RIFF chunk walker of the voice provider, against a chunk printer: chapter 2,
 section "Chunks", of Multimedia Programming Interface and Data Specifications 1.0.
 */
module Riff {
  import opened Basics

  type Byte = b: int | 0 <= b < 256
  type Bytes = seq<Byte>

  const RIFF: Bytes := [0x52, 0x49, 0x46, 0x46]
  const WAVE: Bytes := [0x57, 0x41, 0x56, 0x45]
  const FMT: Bytes := [0x66, 0x6D, 0x74, 0x20]
  const DATA: Bytes := [0x64, 0x61, 0x74, 0x61]
  const U32: int := 0x1_0000_0000

  // ----- little-endian numbers -----

  function Le32(n: nat): (r: Bytes)
    ensures |r| == 4
  {
    [n % 0x100, n / 0x100 % 0x100, n / 0x1_0000 % 0x100, n / 0x100_0000 % 0x100]
  }

  function FromLe32(b: Bytes): nat
    requires |b| == 4
  {
    b[0] as int + 0x100 * (b[1] as int) + 0x1_0000 * (b[2] as int) + 0x100_0000 * (b[3] as int)
  }

  lemma Le32RoundTrip(n: nat)
    requires n < U32
    ensures FromLe32(Le32(n)) == n
  {
    var a, b, c := n / 0x100, n / 0x1_0000, n / 0x100_0000;
    assert n == 0x100 * a + n % 0x100;
    assert a == 0x100 * b + a % 0x100;
    assert b == 0x100 * c + b % 0x100;
    assert c % 0x100 == c;
  }

  lemma FromLe32RoundTrip(b: Bytes)
    requires |b| == 4
    ensures FromLe32(b) < U32 && Le32(FromLe32(b)) == b
  {
    var n := FromLe32(b);
    assert n / 0x100 == b[1] as int + 0x100 * (b[2] as int) + 0x1_0000 * (b[3] as int);
    assert n / 0x1_0000 == b[2] as int + 0x100 * (b[3] as int);
    assert n / 0x100_0000 == b[3];
  }

  // ----- printing chunks -----

  datatype Chunk = Chunk(id: Bytes, payload: Bytes)

  ghost predicate WellFormed(c: Chunk) {
    |c.id| == 4 && |c.payload| < U32
  }

  function Pad(n: nat): Bytes {
    if n % 2 == 1 then [0] else []
  }

  function PrintHead(c: Chunk): Bytes {
    c.id + Le32(|c.payload|) + c.payload
  }

  /** Chunks one after the other, each payload padded to an even length. */
  function PrintAll(cs: seq<Chunk>): Bytes {
    if cs == [] then [] else PrintHead(cs[0]) + (Pad(|cs[0].payload|) + PrintAll(cs[1..]))
  }

  // ----- the walker -----

  function Walk(bytes: Bytes, index: nat): Option<Bytes>
    decreases |bytes| - index
  {
    if index + 8 > |bytes| then None
    else
      var size := FromLe32(bytes[index + 4..index + 8]);
      var end := index + 8 + size;
      if end > |bytes| then None
      else if bytes[index..index + 4] == DATA then Some(bytes[index + 8..end])
      else Walk(bytes, end + size % 2)
  }

  function DataChunk(bytes: Bytes): Option<Bytes> {
    if |bytes| < 12 then None else Walk(bytes, 12)
  }

  /** `wav_data_chunk`.  Where the service's checked additions overflow, the sum exceeds
      every slice length, so the bounds tests below give the same answer. */
  method WavDataChunk(bytes: Bytes) returns (data: Option<Bytes>)
    ensures data == DataChunk(bytes)
  {
    if |bytes| < 12 {
      return None;
    }
    var index := 12;
    while index + 8 <= |bytes|
      invariant index >= 12 && Walk(bytes, index) == DataChunk(bytes)
      decreases |bytes| - index
    {
      var chunkId := bytes[index..index + 4];
      var chunkSize := FromLe32(bytes[index + 4..index + 8]);
      var dataStart := index + 8;
      var dataEnd := dataStart + chunkSize;
      if dataEnd > |bytes| {
        return None;
      }
      if chunkId == DATA {
        return Some(bytes[dataStart..dataEnd]);
      }
      index := dataEnd + chunkSize % 2;
    }
    return None;
  }

  // ----- walker and printer agree -----

  function After(index: nat, c: Chunk): nat {
    index + 8 + |c.payload| + |c.payload| % 2
  }

  /** From `index` on, `bytes` holds the chunks `cs`, none of them a data chunk, one after
      the other on even offsets, and then a data chunk with payload `d`. */
  ghost predicate LeadsToData(bytes: Bytes, index: nat, cs: seq<Chunk>, d: Bytes)
    decreases |cs|
  {
    var c := if cs == [] then Chunk(DATA, d) else cs[0];
    && WellFormed(c) && index <= |bytes| && PrintHead(c) <= bytes[index..]
    && (cs != [] ==> c.id != DATA && LeadsToData(bytes, After(index, c), cs[1..], d))
  }

  lemma HeadAt(bytes: Bytes, index: nat, c: Chunk)
    requires WellFormed(c) && index <= |bytes| && PrintHead(c) <= bytes[index..]
    ensures index + 8 + |c.payload| <= |bytes|
    ensures bytes[index..index + 4] == c.id
    ensures FromLe32(bytes[index + 4..index + 8]) == |c.payload|
    ensures bytes[index + 8..index + 8 + |c.payload|] == c.payload
  {
    var h := PrintHead(c);
    var tail := bytes[index..];
    assert h == tail[..|h|];
    assert |h| == 8 + |c.payload|;
    assert bytes[index..index + 4] == h[..4] == c.id;
    assert bytes[index + 4..index + 8] == h[4..8] == Le32(|c.payload|);
    assert bytes[index + 8..index + 8 + |c.payload|] == h[8..] == c.payload;
    Le32RoundTrip(|c.payload|);
  }

  /** One step of the walker at a printed chunk. */
  lemma WalkAt(bytes: Bytes, index: nat, c: Chunk)
    requires WellFormed(c) && index <= |bytes| && PrintHead(c) <= bytes[index..]
    ensures Walk(bytes, index) == if c.id == DATA then Some(c.payload) else Walk(bytes, After(index, c))
  {
    hide PrintHead, FromLe32, Le32, Walk;
    HeadAt(bytes, index, c);
    WalkOnce(bytes, index, |c.payload|);
  }

  /** The walker unfolded once. */
  lemma WalkOnce(bytes: Bytes, index: nat, size: nat)
    requires index + 8 + size <= |bytes| && size == FromLe32(bytes[index + 4..index + 8])
    ensures Walk(bytes, index) ==
            if bytes[index..index + 4] == DATA then Some(bytes[index + 8..index + 8 + size])
            else Walk(bytes, index + 8 + size + size % 2)
  {
    hide FromLe32;
  }

  lemma {:induction false} WalkFindsData(bytes: Bytes, index: nat, cs: seq<Chunk>, d: Bytes)
    requires LeadsToData(bytes, index, cs, d)
    ensures Walk(bytes, index) == Some(d)
    decreases |cs|
  {
    hide PrintHead, Walk;
    if cs == [] {
      WalkAt(bytes, index, Chunk(DATA, d));
    } else {
      WalkAt(bytes, index, cs[0]);
      WalkFindsData(bytes, After(index, cs[0]), cs[1..], d);
    }
  }

  /** Any eight bytes with enough bytes behind them are the head of a printed chunk. */
  lemma ChunkAt(bytes: Bytes, index: nat, size: nat) returns (c: Chunk)
    requires index + 8 + size <= |bytes| && size == FromLe32(bytes[index + 4..index + 8])
    ensures WellFormed(c) && c == Chunk(bytes[index..index + 4], bytes[index + 8..index + 8 + size])
    ensures PrintHead(c) <= bytes[index..] && |c.payload| == size
  {
    var head := bytes[index + 4..index + 8];
    FromLe32RoundTrip(head);
    c := Chunk(bytes[index..index + 4], bytes[index + 8..index + 8 + size]);
    hide Le32, FromLe32;
    assert bytes[index..][..8 + size] == PrintHead(c);
  }

  lemma {:induction false} WalkFoundData(bytes: Bytes, index: nat) returns (cs: seq<Chunk>)
    requires Walk(bytes, index).Some?
    ensures LeadsToData(bytes, index, cs, Walk(bytes, index).value)
    decreases |bytes| - index
  {
    hide PrintHead, Le32, FromLe32;
    var size := FromLe32(bytes[index + 4..index + 8]);
    var c := ChunkAt(bytes, index, size);
    if c.id == DATA {
      cs := [];
    } else {
      var rest := WalkFoundData(bytes, After(index, c));
      cs := [c] + rest;
      assert cs[1..] == rest;
    }
  }

  /** On arbitrary bytes: the walker answers `d` exactly when the part after the 12-byte
      header holds printed non-data chunks followed by a data chunk with payload `d`. */
  lemma DataChunkExact(bytes: Bytes, d: Bytes)
    ensures DataChunk(bytes) == Some(d) <==> |bytes| >= 12 && exists cs :: LeadsToData(bytes, 12, cs, d)
  {
    if DataChunk(bytes) == Some(d) {
      var cs := WalkFoundData(bytes, 12);
    }
    if cs :| |bytes| >= 12 && LeadsToData(bytes, 12, cs, d) {
      WalkFindsData(bytes, 12, cs, d);
    }
  }

  // ----- printed files -----

  function FirstData(cs: seq<Chunk>): Option<Bytes> {
    if cs == [] then None else if cs[0].id == DATA then Some(cs[0].payload) else FirstData(cs[1..])
  }

  lemma BehindPrefix(a: Bytes, b: Bytes)
    ensures (a + b)[|a|..] == b
  {
  }

  lemma Regroup(a: Bytes, b: Bytes, c: Bytes, d: Bytes)
    ensures a + (b + (c + d)) == a + (b + c) + d
  {
  }

  lemma HeadLength(c: Chunk)
    requires WellFormed(c)
    ensures |PrintHead(c)| == 8 + |c.payload|
  {
  }

  lemma WalkOneChunk(before: Bytes, c: Chunk, pad: Bytes, rest: Bytes)
    requires WellFormed(c) && pad == Pad(|c.payload|)
    ensures var next := before + (PrintHead(c) + pad);
            Walk(before + (PrintHead(c) + (pad + rest)), |before|)
            == if c.id == DATA then Some(c.payload) else Walk(next + rest, |next|)
  {
    hide PrintHead, Walk;
    var h := PrintHead(c);
    HeadLength(c);
    BehindPrefix(before, h + (pad + rest));
    WalkAt(before + (h + (pad + rest)), |before|, c);
    Regroup(before, h, pad, rest);
  }

  lemma {:induction false} WalkOfPrinted(before: Bytes, cs: seq<Chunk>)
    requires forall i :: 0 <= i < |cs| ==> WellFormed(cs[i])
    ensures Walk(before + PrintAll(cs), |before|) == FirstData(cs)
    decreases |cs|
  {
    if cs != [] {
      hide PrintHead, Walk;
      var c, pad := cs[0], Pad(|cs[0].payload|);
      WalkOneChunk(before, c, pad, PrintAll(cs[1..]));
      if c.id != DATA {
        WalkOfPrinted(before + (PrintHead(c) + pad), cs[1..]);
      }
    }
  }

  /** For every list of well-formed chunks behind any 12-byte header, the walker returns the
      payload of the first data chunk, or nothing when there is none. */
  lemma PrintedFileRoundTrip(header: Bytes, cs: seq<Chunk>)
    requires |header| == 12 && forall i :: 0 <= i < |cs| ==> WellFormed(cs[i])
    ensures DataChunk(header + PrintAll(cs)) == FirstData(cs)
  {
    WalkOfPrinted(header, cs);
  }

  // ----- validation of provider audio -----

  datatype WavError = EmptyAudio | InvalidWav | NoDataChunk | NoSamples | SilentAudio
  datatype WavCheck = Valid | Invalid(error: WavError)

  /** `validate_voicevox_wav_audio`. */
  method ValidateWavAudio(bytes: Bytes) returns (r: WavCheck)
    ensures r == Invalid(EmptyAudio) <==> bytes == []
    ensures r == Invalid(InvalidWav) <==> bytes != [] && !(RIFF <= bytes && |bytes| >= 12 && bytes[8..12] == WAVE)
    ensures r.Valid? || r.error in {NoDataChunk, NoSamples, SilentAudio} ==>
              match DataChunk(bytes)
              case None => r == Invalid(NoDataChunk)
              case Some(data) =>
                if data == [] then r == Invalid(NoSamples)
                else r == (if forall i :: 0 <= i < |data| ==> data[i] == 0 then Invalid(SilentAudio) else Valid)
  {
    if bytes == [] {
      return Invalid(EmptyAudio);
    }
    if !(RIFF <= bytes) || |bytes| < 12 || bytes[8..12] != WAVE {
      return Invalid(InvalidWav);
    }
    var data := WavDataChunk(bytes);
    if data.None? {
      return Invalid(NoDataChunk);
    }
    if data.value == [] {
      return Invalid(NoSamples);
    }
    var i := 0;
    while i < |data.value|
      invariant 0 <= i <= |data.value|
      invariant forall j :: 0 <= j < i ==> data.value[j] == 0
    {
      if data.value[i] != 0 {
        return Valid;
      }
      i := i + 1;
    }
    return Invalid(SilentAudio);
  }

  // ----- the mock speech file -----

  const SAMPLE_RATE: nat := 8_000
  const BYTES_PER_SAMPLE: nat := 2
  const SAMPLE_COUNT: nat := SAMPLE_RATE * 420 / 1_000
  const DATA_SIZE: nat := SAMPLE_COUNT * BYTES_PER_SAMPLE

  type Sample = s: int | -0x8000 <= s < 0x8000

  function Le16(n: nat): (r: Bytes)
    ensures |r| == 2
  {
    [n % 0x100, n / 0x100 % 0x100]
  }

  function SampleBytes(s: Sample): Bytes {
    Le16(if s < 0 then s + 0x1_0000 else s)
  }

  function SamplesBytes(samples: seq<Sample>): Bytes {
    if samples == [] then []
    else SamplesBytes(samples[..|samples| - 1]) + SampleBytes(samples[|samples| - 1])
  }

  function MockHeader(): Bytes {
    RIFF + Le32(36 + DATA_SIZE) + WAVE
  }

  function FormatChunk(): Chunk {
    Chunk(FMT, Le16(1) + Le16(1) + Le32(SAMPLE_RATE) + Le32(SAMPLE_RATE * BYTES_PER_SAMPLE)
               + Le16(BYTES_PER_SAMPLE) + Le16(16))
  }

  function MockFile(samples: seq<Sample>): Bytes {
    MockHeader() + PrintAll([FormatChunk(), Chunk(DATA, SamplesBytes(samples))])
  }

  /** `generate_mock_wav`, with the computed sine samples as a parameter. */
  method GenerateMockWav(samples: seq<Sample>) returns (bytes: Bytes)
    requires |samples| == SAMPLE_COUNT
    ensures bytes == MockFile(samples)
    ensures FromLe32(bytes[4..8]) == |bytes| - 8
  {
    hide Le16, Le32, FromLe32, SampleBytes, MockHeader, FormatChunk, PrintHead, PrintAll;
    HeaderBytes();
    bytes := RIFF;
    bytes := bytes + Le32(36 + DATA_SIZE);
    bytes := bytes + WAVE;
    bytes := bytes + FMT;
    bytes := bytes + Le32(16);
    bytes := bytes + Le16(1);
    bytes := bytes + Le16(1);
    bytes := bytes + Le32(SAMPLE_RATE);
    bytes := bytes + Le32(SAMPLE_RATE * BYTES_PER_SAMPLE);
    bytes := bytes + Le16(BYTES_PER_SAMPLE);
    bytes := bytes + Le16(16);
    assert bytes == MockHeader() + PrintHead(FormatChunk());
    bytes := bytes + DATA;
    bytes := bytes + Le32(DATA_SIZE);
    ghost var head := bytes;
    for i := 0 to SAMPLE_COUNT
      invariant bytes == head + SamplesBytes(samples[..i])
    {
      assert samples[..i + 1][..i] == samples[..i];
      bytes := bytes + SampleBytes(samples[i]);
    }
    assert samples[..SAMPLE_COUNT] == samples;
    MockLayout(samples);
    Le32RoundTrip(36 + DATA_SIZE);
  }

  /** The header and the format chunk, piece by piece. */
  lemma HeaderBytes()
    ensures MockHeader() + PrintHead(FormatChunk()) ==
            RIFF + Le32(36 + DATA_SIZE) + WAVE + FMT + Le32(16) + Le16(1) + Le16(1) + Le32(SAMPLE_RATE)
            + Le32(SAMPLE_RATE * BYTES_PER_SAMPLE) + Le16(BYTES_PER_SAMPLE) + Le16(16)
  {
    hide Le16, Le32;
    assert |FormatChunk().payload| == 16;
  }

  lemma MockLayout(samples: seq<Sample>)
    requires |samples| == SAMPLE_COUNT
    ensures var bytes := MockFile(samples);
            && bytes == MockHeader() + PrintHead(FormatChunk()) + DATA + Le32(DATA_SIZE) + SamplesBytes(samples)
            && bytes[4..8] == Le32(36 + DATA_SIZE) && |bytes| - 8 == 36 + DATA_SIZE
  {
    hide Le16, Le32, PrintAll;
    FormatFacts();
    SamplesLength(samples);
    TwoChunkLayout(MockHeader(), FormatChunk(), Chunk(DATA, SamplesBytes(samples)));
  }

  lemma {:induction false} SamplesLength(samples: seq<Sample>)
    ensures |SamplesBytes(samples)| == 2 * |samples|
  {
    if samples != [] { SamplesLength(samples[..|samples| - 1]); }
  }

  lemma RegroupLeft(a: Bytes, b: Bytes, c: Bytes, d: Bytes, e: Bytes)
    ensures a + (b + (c + d + e)) == a + b + c + d + e
  {
  }

  lemma PrintTwo(c: Chunk, d: Chunk)
    requires |c.payload| % 2 == 0 && |d.payload| % 2 == 0
    ensures PrintAll([c, d]) == PrintHead(c) + PrintHead(d)
  {
    hide PrintHead;
    assert [c, d][1..] == [d] && [d][1..] == [];
    assert PrintAll([d]) == PrintHead(d);
  }

  lemma TwoChunkLayout(header: Bytes, c: Chunk, d: Chunk)
    requires |c.payload| % 2 == 0 && |d.payload| % 2 == 0
    ensures header + PrintAll([c, d]) == header + PrintHead(c) + d.id + Le32(|d.payload|) + d.payload
  {
    PrintTwo(c, d);
    hide PrintAll, Le32;
    RegroupLeft(header, PrintHead(c), d.id, Le32(|d.payload|), d.payload);
  }

  function ReadSamples(d: Bytes): seq<Sample> {
    if |d| < 2 then []
    else
      var n := |d| - 2;
      var v := d[n] as int + 0x100 * (d[n + 1] as int);
      ReadSamples(d[..n]) + [if v >= 0x8000 then v - 0x1_0000 else v]
  }

  lemma SampleRoundTrip(s: Sample)
    ensures ReadSamples(SampleBytes(s)) == [s]
  {
    var n := if s < 0 then s + 0x1_0000 else s;
    assert n == 0x100 * (n / 0x100) + n % 0x100;
    assert SampleBytes(s)[..0] == [];
  }

  lemma ReadLast(most: Bytes, s: Sample)
    ensures ReadSamples(most + SampleBytes(s)) == ReadSamples(most) + [s]
  {
    var d := most + SampleBytes(s);
    assert d[..|d| - 2] == most;
    SampleRoundTrip(s);
    assert SampleBytes(s)[..0] == [] && ReadSamples([]) == [];
    assert d[|d| - 2] == SampleBytes(s)[0] && d[|d| - 1] == SampleBytes(s)[1];
    assert ReadSamples(SampleBytes(s))[0] == s;
  }

  lemma {:induction false} SamplesRoundTrip(samples: seq<Sample>)
    ensures ReadSamples(SamplesBytes(samples)) == samples
  {
    if samples != [] {
      var n := |samples| - 1;
      SamplesRoundTrip(samples[..n]);
      hide ReadSamples;
      ReadLast(SamplesBytes(samples[..n]), samples[n]);
      assert samples == samples[..n] + [samples[n]];
    }
  }

  lemma TwoChunkWalk(header: Bytes, c: Chunk, d: Chunk)
    requires |header| == 12 && WellFormed(c) && WellFormed(d) && c.id != DATA && d.id == DATA
    ensures DataChunk(header + PrintAll([c, d])) == Some(d.payload)
  {
    hide DataChunk, PrintAll;
    PrintedFileRoundTrip(header, [c, d]);
    assert [c, d][1..] == [d] && FirstData([d]) == Some(d.payload);
  }

  lemma FormatFacts()
    ensures WellFormed(FormatChunk()) && FormatChunk().id != DATA && |FormatChunk().payload| == 16
    ensures |MockHeader()| == 12
  {
    hide Le16, Le32;
    assert FMT[0] != DATA[0];
  }

  /** What the walker finds in the mock file are exactly the samples written to it. */
  lemma MockRoundTrip(samples: seq<Sample>)
    requires |samples| == SAMPLE_COUNT
    ensures DataChunk(MockFile(samples)).Some? && ReadSamples(DataChunk(MockFile(samples)).value) == samples
  {
    hide FormatChunk, MockHeader, SamplesBytes, ReadSamples, DataChunk, PrintAll;
    FormatFacts();
    SamplesLength(samples);
    TwoChunkWalk(MockHeader(), FormatChunk(), Chunk(DATA, SamplesBytes(samples)));
    SamplesRoundTrip(samples);
  }

  function FromLe16(b: Bytes): nat
    requires |b| == 2
  {
    b[0] as int + 0x100 * (b[1] as int)
  }

  /** The format chunk of the mock file, read back: PCM, one channel, 8000 samples a second of 16 bits each, and the
      rates and sizes that follow from these. */
  lemma FormatReadsBack(samples: seq<Sample>)
    requires |samples| == SAMPLE_COUNT
    ensures var b := MockFile(samples);
            && |b| == 44 + 2 * |samples| && b[..4] == RIFF && b[8..12] == WAVE && b[12..16] == FMT && b[36..40] == DATA
            && FromLe32(b[4..8]) == |b| - 8 && FromLe32(b[16..20]) == 16 && FromLe32(b[40..44]) == 2 * |samples|
            && FromLe16(b[20..22]) == 1
            && var channels, rate, bits := FromLe16(b[22..24]), FromLe32(b[24..28]), FromLe16(b[34..36]);
               && channels == 1 && rate == 8_000 && bits == 16
               && FromLe32(b[28..32]) == rate * channels * bits / 8
               && FromLe16(b[32..34]) == channels * bits / 8
  {
    hide Le32, Le16, FromLe32, FromLe16, MockFile, SamplesBytes;
    MockPieces(samples);
    SamplesLength(samples);
    NumbersReadBack();
    FieldsAt(MockFile(samples), RIFF, Le32(36 + DATA_SIZE), WAVE, FMT, Le32(16), Le16(1), Le16(1), Le32(SAMPLE_RATE),
             Le32(SAMPLE_RATE * BYTES_PER_SAMPLE), Le16(BYTES_PER_SAMPLE), Le16(16), DATA, Le32(DATA_SIZE),
             SamplesBytes(samples));
  }

  lemma NumbersReadBack()
    ensures FromLe32(Le32(36 + DATA_SIZE)) == 36 + DATA_SIZE && FromLe32(Le32(DATA_SIZE)) == DATA_SIZE
    ensures FromLe32(Le32(16)) == 16 && FromLe32(Le32(SAMPLE_RATE)) == 8_000
    ensures FromLe32(Le32(SAMPLE_RATE * BYTES_PER_SAMPLE)) == 16_000
    ensures FromLe16(Le16(1)) == 1 && FromLe16(Le16(BYTES_PER_SAMPLE)) == 2 && FromLe16(Le16(16)) == 16
  {
    Le32RoundTrip(36 + DATA_SIZE);
    Le32RoundTrip(DATA_SIZE);
    Le32RoundTrip(16);
    Le32RoundTrip(8_000);
    Le32RoundTrip(16_000);
    hide Le32, FromLe32;
  }

  lemma MockPieces(samples: seq<Sample>)
    requires |samples| == SAMPLE_COUNT
    ensures MockFile(samples) ==
            RIFF + Le32(36 + DATA_SIZE) + WAVE + FMT + Le32(16) + Le16(1) + Le16(1) + Le32(SAMPLE_RATE)
            + Le32(SAMPLE_RATE * BYTES_PER_SAMPLE) + Le16(BYTES_PER_SAMPLE) + Le16(16) + DATA + Le32(DATA_SIZE)
            + SamplesBytes(samples)
  {
    hide Le32, Le16, MockFile, MockHeader, FormatChunk, PrintHead, SamplesBytes;
    MockLayout(samples);
    HeaderBytes();
  }

  /** Where thirteen fields of two or four bytes lie. */
  lemma FieldsAt(s: Bytes, a: Bytes, b: Bytes, c: Bytes, d: Bytes, e: Bytes, f: Bytes, g: Bytes, h: Bytes, i: Bytes,
                 j: Bytes, k: Bytes, l: Bytes, m: Bytes, rest: Bytes)
    requires |a| == |b| == |c| == |d| == |e| == |h| == |i| == |l| == |m| == 4 && |f| == |g| == |j| == |k| == 2
    requires s == a + b + c + d + e + f + g + h + i + j + k + l + m + rest
    ensures && |s| == 44 + |rest|
            && s[..4] == a && s[4..8] == b && s[8..12] == c && s[12..16] == d && s[16..20] == e && s[20..22] == f
            && s[22..24] == g && s[24..28] == h && s[28..32] == i && s[32..34] == j && s[34..36] == k
            && s[36..40] == l && s[40..44] == m
  {
  }
}
