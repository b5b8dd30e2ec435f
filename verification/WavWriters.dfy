/** The three writers of WAV files, the check that lets a file pass without conversion, and the
    normalisation of an upload. */
module WavWriters {
  import opened Wav

  /** The 44 bytes before the samples. */
  function Header(length: nat, rate: nat, channels: nat): (h: Bytes)
    ensures |h| == 44
  {
    RIFF + LE32(36 + length) + WAVE + (FMT + LE32(16) + FormatBody(rate, channels)) + (DATA + LE32(length))
  }

  /** The content of the format chunk. */
  function FormatBody(rate: nat, channels: nat): (b: Bytes)
    ensures |b| == 16
  {
    LE16(1) + LE16(channels) + LE32(rate) + LE32(rate * channels * 2) + LE16(channels * 2) + LE16(16)
  }

  /** The fields of the header in numbers, each in its place and the lowest byte first: the size of the
      file without its first eight bytes, 16 bytes of format, format 1, the channels, the rate, the bytes
      of a second and of a moment, 16 bits, and the length of the data. */
  lemma HeaderInBytes(length: nat, rate: nat, channels: nat)
    ensures var h := Header(length, rate, channels);
            && h[..4] == [82, 73, 70, 70] && h[8..16] == [87, 65, 86, 69, 102, 109, 116, 32]
            && h[16..22] == [16, 0, 0, 0, 1, 0] && h[34..40] == [16, 0, 100, 97, 116, 97]
            && Number(h[4], h[5], h[6], h[7]) == (36 + length) % 0x1_0000_0000
            && Number(h[22], h[23], 0, 0) == channels % 0x1_0000
            && Number(h[24], h[25], h[26], h[27]) == rate % 0x1_0000_0000
            && Number(h[28], h[29], h[30], h[31]) == rate * channels * 2 % 0x1_0000_0000
            && Number(h[32], h[33], 0, 0) == channels * 2 % 0x1_0000
            && Number(h[40], h[41], h[42], h[43]) == length % 0x1_0000_0000
  {
    var h := Header(length, rate, channels);
    var b := FormatBody(rate, channels);
    assert h[20..36] == b;
    FormatFields(rate, channels);
    RateFields(rate, channels);
    SizeFields(length, rate, channels);
    FormatPlaces(h, b);
  }

  lemma FormatPlaces(h: Bytes, b: Bytes)
    requires |h| == 44 && h[20..36] == b
    ensures h[20] == b[0] && h[21] == b[1] && h[22] == b[2] && h[23] == b[3] && h[24] == b[4] && h[25] == b[5]
    ensures h[26] == b[6] && h[27] == b[7] && h[28] == b[8] && h[29] == b[9] && h[30] == b[10] && h[31] == b[11]
    ensures h[32] == b[12] && h[33] == b[13] && h[34] == b[14] && h[35] == b[15]
  {}

  lemma RateFields(rate: nat, channels: nat)
    ensures var b := FormatBody(rate, channels);
            U32(b, 8) == rate * channels * 2 % TWO32 && U16(b, 12) == channels * 2 % TWO16
  {
    var b := FormatBody(rate, channels);
    assert b[8..12] == LE32(rate * channels * 2) && b[12..14] == LE16(channels * 2);
    Read32(b, 8, rate * channels * 2);
    Read16(b, 12, channels * 2);
  }

  lemma SizeFields(length: nat, rate: nat, channels: nat)
    ensures var h := Header(length, rate, channels);
            U32(h, 4) == (36 + length) % TWO32 && U32(h, 40) == length % TWO32
  {
    var h := Header(length, rate, channels);
    assert h[4..8] == LE32(36 + length) && h[40..44] == LE32(length);
    Read32(h, 4, 36 + length);
    Read32(h, 40, length);
  }

  // ---------- the writers ----------

  const MAX_DATA: nat := 4294967295 - 36

  lemma Nested<T>(z: seq<T>, a: seq<T>, b: seq<T>, c: seq<T>, d: seq<T>, e: seq<T>, f: seq<T>)
    ensures z + a + b + c + d + e + f == z + (a + b + c + d + e + f)
  {}

  /** pcmwav.Encode writes one field after the other into a buffer. */
  method Encode(audio: Audio) returns (r: Result<Bytes>)
    ensures r == Encoded(audio)
  {
    if audio.rate <= 0 || |audio.samples| == 0 { return Err(NothingToEncode); }
    var dataSize := |audio.samples| * 2;
    if dataSize > MAX_DATA { return Err(TooLarge); }
    var out := RIFF;
    out := out + LE32(36 + dataSize);
    out := out + WAVE;
    ghost var riff := out;
    out := out + FMT;
    out := out + LE32(16);
    ghost var start := out;
    out := out + LE16(1);
    out := out + LE16(1);
    out := out + LE32(audio.rate);
    out := out + LE32(audio.rate * 2);
    out := out + LE16(2);
    out := out + LE16(16);
    Nested(start, LE16(1), LE16(1), LE32(audio.rate), LE32(audio.rate * 2), LE16(2), LE16(16));
    ghost var body := FormatBody(audio.rate, 1);
    assert out == riff + (FMT + LE32(16) + body);
    out := out + DATA;
    out := out + LE32(dataSize);
    assert out == Header(dataSize, audio.rate, 1);
    out := out + SampleBytes(audio.samples);
    return Ok(out);
  }

  function Encoded(audio: Audio): Result<Bytes> {
    var pcm := SampleBytes(audio.samples);
    if audio.rate <= 0 || |audio.samples| == 0 then Err(NothingToEncode)
    else if |pcm| > MAX_DATA then Err(TooLarge)
    else Ok(Header(|pcm|, audio.rate, 1) + pcm)
  }

  /** Overwrites part of a byte slice. */
  method Put(wav: array<Byte>, at: nat, bytes: Bytes)
    requires at + |bytes| <= wav.Length
    modifies wav
    ensures wav[..at + |bytes|] == old(wav[..at]) + bytes
  {
    for i := 0 to |bytes|
      invariant wav[..at] == old(wav[..at])
      invariant forall k :: 0 <= k < i ==> wav[at + k] == bytes[k]
    {
      wav[at + i] := bytes[i];
    }
  }

  /** The fields in the order in which both in-place writers fill them. */
  method PutHeader(wav: array<Byte>, length: nat, rate: nat, channels: nat)
    requires wav.Length == 44 + length
    modifies wav
    ensures wav[..44] == Header(length, rate, channels)
  {
    Put(wav, 0, RIFF);
    Put(wav, 4, LE32(36 + length));
    Put(wav, 8, WAVE);
    PutFormat(wav, rate, channels);
    ghost var before := wav[..36];
    Put(wav, 36, DATA);
    Put(wav, 40, LE32(length));
    assert wav[..44] == before + (DATA + LE32(length));
  }

  method PutFormat(wav: array<Byte>, rate: nat, channels: nat)
    requires wav.Length >= 36
    modifies wav
    ensures wav[..36] == old(wav[..12]) + (FMT + LE32(16) + FormatBody(rate, channels))
  {
    ghost var before := wav[..12];
    Put(wav, 12, FMT);
    Put(wav, 16, LE32(16));
    ghost var middle := wav[..20];
    Put(wav, 20, LE16(1));
    Put(wav, 22, LE16(channels));
    Put(wav, 24, LE32(rate));
    Put(wav, 28, LE32(rate * channels * 2));
    Put(wav, 32, LE16(channels * 2));
    Put(wav, 34, LE16(16));
    Nested(middle, LE16(1), LE16(channels), LE32(rate), LE32(rate * channels * 2), LE16(channels * 2), LE16(16));
    assert before + FMT + LE32(16) + FormatBody(rate, channels) ==
        before + (FMT + LE32(16) + FormatBody(rate, channels));
  }

  /** pcm16WAV of the normaliser; its caller has checked the rate and the channels. */
  method NormalizerWav(pcm: Bytes, rate: int, channels: int) returns (r: Result<Bytes>)
    requires rate > 0 && channels > 0
    ensures r == NormalizerWavOf(pcm, rate, channels)
  {
    if |pcm| == 0 { return Err(NoSamples); }
    var blockAlign := channels * 2;
    if |pcm| % blockAlign != 0 { return Err(NotAligned); }
    if |pcm| > MAX_DATA { return Err(TooLarge); }
    var wav := new Byte[44 + |pcm|](_ => 0);
    PutHeader(wav, |pcm|, rate, channels);
    Put(wav, 44, pcm);
    assert wav[..] == wav[..44 + |pcm|];
    return Ok(wav[..]);
  }

  function NormalizerWavOf(pcm: Bytes, rate: int, channels: int): Result<Bytes>
    requires rate > 0 && channels > 0
  {
    if |pcm| == 0 then Err(NoSamples)
    else if |pcm| % (channels * 2) != 0 then Err(NotAligned)
    else if |pcm| > MAX_DATA then Err(TooLarge)
    else Ok(Header(|pcm|, rate, channels) + pcm)
  }

  /** pcm16WAV of the server, which has no limit on the size. */
  method ServerWav(pcm: Bytes, rate: int, channels: int) returns (r: Result<Bytes>)
    ensures r == ServerWavOf(pcm, rate, channels)
  {
    if |pcm| == 0 || |pcm| % 2 != 0 || rate <= 0 || channels <= 0 { return Err(NothingToEncode); }
    var wav := new Byte[44 + |pcm|](_ => 0);
    PutHeader(wav, |pcm|, rate, channels);
    Put(wav, 44, pcm);
    assert wav[..] == wav[..44 + |pcm|];
    return Ok(wav[..]);
  }

  function ServerWavOf(pcm: Bytes, rate: int, channels: int): Result<Bytes> {
    if |pcm| == 0 || |pcm| % 2 != 0 || rate <= 0 || channels <= 0 then Err(NothingToEncode)
    else Ok(Header(|pcm|, rate, channels) + pcm)
  }

  /** What each writer refuses, and that it writes the samples behind the header. The normaliser checks
      rate and channels before. */
  lemma WriterErrors(audio: Audio, pcm: Bytes, rate: int, channels: int)
    ensures Encoded(audio) ==
            if audio.rate <= 0 || audio.samples == [] then Err(NothingToEncode)
            else if 2 * |audio.samples| > 4294967259 then Err(TooLarge)
            else Ok(Header(2 * |audio.samples|, audio.rate, 1) + SampleBytes(audio.samples))
    ensures rate > 0 && channels > 0 ==>
            NormalizerWavOf(pcm, rate, channels) ==
            if pcm == [] then Err(NoSamples)
            else if |pcm| % (channels * 2) != 0 then Err(NotAligned)
            else if |pcm| > 4294967259 then Err(TooLarge)
            else Ok(Header(|pcm|, rate, channels) + pcm)
    ensures ServerWavOf(pcm, rate, channels) ==
            if pcm == [] || |pcm| % 2 == 1 || rate <= 0 || channels <= 0 then Err(NothingToEncode)
            else Ok(Header(|pcm|, rate, channels) + pcm)
  {}

  lemma Even(pcm: Bytes, n: nat)
    requires |pcm| == 2 * n
    ensures |pcm| % (1 * 2) == 0 && |pcm| % 2 == 0
  {}

  /** The three writers agree on mono samples, up to the size limit that the server does not check. */
  lemma WritersAgree(samples: seq<Sample>, rate: int)
    requires rate > 0 && samples != []
    ensures var r, pcm := Encoded(Audio(rate, samples)), SampleBytes(samples);
            && r == NormalizerWavOf(pcm, rate, 1)
            && (r == ServerWavOf(pcm, rate, 1) <==> r.Ok?)
            && (r.Ok? <==> 2 * |samples| <= 4294967259)
  {
    EncodedLimit(samples, rate);
    LimitedAgrees(SampleBytes(samples), |samples|, rate);
  }

  lemma LimitedAgrees(pcm: Bytes, n: nat, rate: int)
    requires rate > 0 && n > 0 && |pcm| == 2 * n
    ensures var r := Limited(pcm, rate);
            && r == NormalizerWavOf(pcm, rate, 1) && (r == ServerWavOf(pcm, rate, 1) <==> r.Ok?)
            && (r.Ok? <==> 2 * n <= 4294967259)
  {
    Even(pcm, n);
    PcmWriters(pcm, rate);
  }

  lemma EncodedLimit(samples: seq<Sample>, rate: int)
    requires rate > 0 && samples != []
    ensures Encoded(Audio(rate, samples)) == Limited(SampleBytes(samples), rate)
  {}

  /** A mono file up to the size limit. */
  function Limited(pcm: Bytes, rate: int): Result<Bytes>
    requires rate > 0
  {
    if |pcm| > MAX_DATA then Err(TooLarge) else Ok(Header(|pcm|, rate, 1) + pcm)
  }

  lemma PcmWriters(pcm: Bytes, rate: int)
    requires rate > 0 && |pcm| > 0 && |pcm| % (1 * 2) == 0 && |pcm| % 2 == 0
    ensures NormalizerWavOf(pcm, rate, 1) == Limited(pcm, rate)
    ensures ServerWavOf(pcm, rate, 1) == Ok(Header(|pcm|, rate, 1) + pcm)
  {}

  // ---------- reading back ----------

  function FileChunks(pcm: Bytes, rate: nat, channels: nat): seq<Chunk> {
    [Chunk(FMT, FormatBody(rate, channels), 0), Chunk(DATA, pcm, 0)]
  }

  /** What a writer puts down is a RIFF/WAVE file of two chunks. */
  lemma FileLayout(pcm: Bytes, rate: nat, channels: nat)
    requires |pcm| % 2 == 0
    ensures Header(|pcm|, rate, channels) + pcm ==
            RIFF + LE32(36 + |pcm|) + WAVE + WriteChunks(FileChunks(pcm, rate, channels))
  {
    var cs := FileChunks(pcm, rate, channels);
    assert cs[1..] == [cs[1]] && cs[1..][1..] == [];
    assert WriteChunks(cs[1..]) == DATA + LE32(|pcm|) + pcm;
  }

  lemma FormatFields(rate: nat, channels: nat)
    ensures var b := FormatBody(rate, channels);
            U16(b, 0) == 1 && U16(b, 2) == channels % TWO16 && U32(b, 4) == rate % TWO32 && U16(b, 14) == 16
  {
    var b := FormatBody(rate, channels);
    assert b[0..2] == LE16(1) && b[2..4] == LE16(channels) && b[4..8] == LE32(rate) && b[14..16] == LE16(16);
    Read16(b, 0, 1);
    Read16(b, 2, channels);
    Read32(b, 4, rate);
    Read16(b, 14, 16);
  }

  /** What the parser makes of a written file. */
  lemma FileParses(pcm: Bytes, rate: nat, channels: nat)
    requires |pcm| % 2 == 0 && |pcm| < TWO32
    ensures Parsed(Header(|pcm|, rate, channels) + pcm) == Conclude(Found(1, channels % TWO16, rate % TWO32, 16, pcm))
  {
    var cs := FileChunks(pcm, rate, channels);
    FileLayout(pcm, rate, channels);
    FormatFields(rate, channels);
    assert cs[0].id == FMT && cs[1].id == DATA && FMT[0] != DATA[0];
    var d := RIFF + LE32(36 + |pcm|) + WAVE + WriteChunks(cs);
    assert d + [] == d;
    ParseFound(LE32(36 + |pcm|), cs, [], 0, 1);
  }

  /** Parse after Encode: the samples come back, and so does the rate, reduced to 32 bits. The round
      trip is exact for every rate that fits. */
  lemma RoundTrip(audio: Audio)
    requires Encoded(audio).Ok?
    ensures var back := Parsed(Encoded(audio).value);
            && back == (if audio.rate % TWO32 == 0 then Err(WrongFormat)
                        else Ok(Audio(audio.rate % TWO32, audio.samples)))
            && (back == Ok(audio) <==> audio.rate < TWO32)
  {
    var pcm := SampleBytes(audio.samples);
    Even(pcm, |audio.samples|);
    FileParses(pcm, audio.rate, 1);
    DecodeBytes(audio.samples);
    FitsField(audio.rate, TWO32);
    MonoConcludes(audio.rate % TWO32, pcm);
  }

  lemma FitsField(n: nat, m: nat)
    requires m > 0
    ensures n % m == n <==> n < m
    ensures 0 <= n % m < m
  {
    if n < m { assert n % m == n; }
  }

  lemma MonoConcludes(rate: nat, pcm: Bytes)
    requires |pcm| > 0 && |pcm| % 2 == 0
    ensures Conclude(Found(1, 1 % TWO16, rate, 16, pcm)) == if rate == 0 then Err(WrongFormat)
            else Ok(Audio(rate, Decode(pcm)))
  {}

  // ---------- pass-through ----------

  /** A normalisation target; the two flags are the case-insensitive comparisons of its container
      with "wav" and of its codec with "pcm_s16le". */
  datatype Target = Target(wav: bool, pcm16: bool, rate: int, channels: int)

  predicate FormatMatches(body: Bytes, t: Target)
    requires |body| >= 16
  {
    U16(body, 0) == 1 && U16(body, 2) == t.channels && U32(body, 4) == t.rate && U16(body, 14) == 16
  }

  /** The walk of matchesWAV from n on. */
  predicate Match(d: Bytes, n: nat, formatMatches: bool, dataFound: bool, t: Target)
    decreases |d| - n
  {
    if n + 8 > |d| then formatMatches && dataFound
    else
      var end := n + 8 + U32(d, n + 4);
      if end > |d| then false
      else
        var id, body := d[n..n+4], d[n+8..end];
        if id == FMT && |body| < 16 then false
        else
          Match(d, end + (end - n) % 2, if id == FMT then FormatMatches(body, t) else formatMatches,
                dataFound || (id == DATA && |body| > 0), t)
  }

  predicate Matches(d: Bytes, t: Target) {
    t.wav && t.pcm16 && IsWave(d) && U32(d, 4) == |d| - 8 && Match(d, 12, false, false, t)
  }

  lemma MatchStep(d: Bytes, n: nat, fm: bool, df: bool, t: Target, c: Chunk)
    requires HasChunk(d, n, c)
    ensures Match(d, n, fm, df, t) ==
            (!(c.id == FMT && |c.body| < 16)
             && Match(d, Next(n, c), if c.id == FMT then FormatMatches(c.body, t)
                      else fm, df || (c.id == DATA && |c.body| > 0), t))
  {}

  lemma FormatInPlace(d: Bytes, n: nat, c: Chunk, t: Target)
    requires HasChunk(d, n, c) && c.id == FMT && |c.body| >= 16
    ensures FormatMatches(c.body, t) <==>
            U16(d, n + 8) == 1 && U16(d, n + 10) == t.channels && U32(d, n + 12) == t.rate && U16(d, n + 22) == 16
  {
    NoteInPlace(d, n, NOTHING, c);
  }

  method MatchesWav(audio: Bytes, required: Target) returns (r: bool)
    ensures r == Matches(audio, required)
  {
    if !required.wav || !required.pcm16 || |audio| < 12 || audio[..4] != RIFF || audio[8..12] != WAVE { return false; }
    if U32(audio, 4) != |audio| - 8 { return false; }
    var formatMatches, dataFound := false, false;
    var offset: nat := 12;
    ghost var at: nat, fm, df := 12, false, false;
    ghost var goal := Match(audio, at, fm, df, required);
    while offset + 8 <= |audio|
      invariant at == offset && fm == formatMatches && df == dataFound && goal == Match(audio, at, fm, df, required)
      decreases |audio| - offset
    {
      var size := U32(audio, offset + 4);
      var dataStart := offset + 8;
      var dataEnd := dataStart + size;
      if dataEnd > |audio| { return false; }
      var id := audio[offset..offset+4];
      ghost var c := Chunk(id, audio[dataStart..dataEnd], 0);
      MatchStep(audio, at, fm, df, required, c);
      if id == FMT {
        if size < 16 { return false; }
        FormatInPlace(audio, offset, c, required);
        formatMatches := U16(audio, dataStart) == 1 && U16(audio, dataStart + 2) == required.channels
          && U32(audio, dataStart + 4) == required.rate && U16(audio, dataStart + 14) == 16;
      }
      if id == DATA && size > 0 {
        dataFound := true;
      }
      fm := if c.id == FMT then FormatMatches(c.body, required) else fm;
      df := df || (c.id == DATA && |c.body| > 0);
      at := Next(at, c);
      offset := dataEnd + size % 2;
    }
    return formatMatches && dataFound;
  }

  /** What the walk makes of the chunks that are left. */
  ghost predicate MatchAll(cs: seq<Chunk>, i: int, fm: bool, df: bool, t: Target)
    requires LastAt(cs, FMT, i)
  {
    && FormatsComplete(cs)
    && (if i < 0 then fm else cs[i] in cs && FormatMatches(cs[i].body, t))
    && (df || exists c :: c in cs && c.id == DATA && |c.body| > 0)
  }

  lemma MatchFirst(cs: seq<Chunk>, i: int, fm: bool, df: bool, t: Target)
    requires |cs| > 0 && LastAt(cs, FMT, i)
    ensures LastAt(cs[1..], FMT, if i < 0 then -1 else i - 1)
    ensures var c := cs[0];
            MatchAll(cs, i, fm, df, t) <==>
            !(c.id == FMT && |c.body| < 16)
            && MatchAll(cs[1..], if i < 0 then -1 else i - 1, if c.id == FMT then FormatMatches(c.body, t) else fm,
                        df || (c.id == DATA && |c.body| > 0), t)
  {
    assert cs == [cs[0]] + cs[1..];
  }

  lemma {:induction false} MatchWalk(pre: Bytes, cs: seq<Chunk>, rest: Bytes, i: int, fm: bool, df: bool, t: Target)
    requires |rest| < 8 && (forall c :: c in cs ==> WellFormed(c)) && LastAt(cs, FMT, i)
    ensures Match(pre + WriteChunks(cs) + rest, |pre|, fm, df, t) <==> MatchAll(cs, i, fm, df, t)
    decreases |cs|
  {
    if |cs| > 0 {
      var c := cs[0];
      Associative(pre, WriteChunk(c), WriteChunks(cs[1..]), rest);
      var d := pre + WriteChunks(cs) + rest;
      ChunkAt(d, pre, c, WriteChunks(cs[1..]) + rest);
      MatchStep(d, |pre|, fm, df, t, c);
      MatchFirst(cs, i, fm, df, t);
      if !(c.id == FMT && |c.body| < 16) {
        MatchWalk(pre + WriteChunk(c), cs[1..], rest, if i < 0 then -1 else i - 1,
                  if c.id == FMT then FormatMatches(c.body, t) else fm, df || (c.id == DATA && |c.body| > 0), t);
      }
    } else {
      assert pre + WriteChunks(cs) + rest == pre + rest;
    }
  }

  /** Which files pass, for any chunks in any order: the RIFF size is that of the file, no format chunk
      is too short, the last one has format 1, 16 bits and the channels and rate of the target, and
      some data chunk is not empty. */
  lemma MatchChunks(size: Bytes, cs: seq<Chunk>, rest: Bytes, i: int, t: Target)
    requires |size| == 4 && |rest| < 8 && (forall c :: c in cs ==> WellFormed(c))
    requires LastAt(cs, [102, 109, 116, 32], i)
    ensures var d := [82, 73, 70, 70] + size + [87, 65, 86, 69] + WriteChunks(cs) + rest;
            Matches(d, t) <==>
            && t.wav && t.pcm16
            && Number(size[0], size[1], size[2], size[3]) == |d| - 8
            && FormatsComplete(cs) && i >= 0
            && (var b := cs[i].body;
                && b[..2] == [1, 0] && b[14..16] == [16, 0] && Number(b[2], b[3], 0, 0) == t.channels
                && Number(b[4], b[5], b[6], b[7]) == t.rate)
            && exists c :: c in cs && c.id == [100, 97, 116, 97] && |c.body| > 0
  {
    var pre := RIFF + size + WAVE;
    var d := pre + WriteChunks(cs) + rest;
    assert d[..4] == RIFF && d[8..12] == WAVE && d[4] == size[0] && d[5] == size[1] && d[6] == size[2]
        && d[7] == size[3];
    MatchWalk(pre, cs, rest, i, false, false, t);
    if FormatsComplete(cs) && i >= 0 { FieldsInBytes(cs[i].body, t); }
  }

  lemma FieldsInBytes(b: Bytes, t: Target)
    requires |b| >= 16
    ensures FormatMatches(b, t) <==>
            && b[..2] == [1, 0] && b[14..16] == [16, 0] && Number(b[2], b[3], 0, 0) == t.channels
            && Number(b[4], b[5], b[6], b[7]) == t.rate
  {}

  /** A file of a format chunk and one data chunk, which is padded if it is odd. */
  function ChunkFile(pcm: Bytes, rate: nat, channels: nat): Bytes {
    RIFF + LE32(36 + |pcm| + |pcm| % 2) + WAVE + WriteChunks(FileChunks(pcm, rate, channels))
  }

  /** Which files of this kind pass: any data will do. */
  lemma ChunkFileMatches(pcm: Bytes, rate: nat, channels: nat, t: Target)
    requires |pcm| + |pcm| % 2 <= MAX_DATA
    ensures Matches(ChunkFile(pcm, rate, channels), t) <==>
            t.wav && t.pcm16 && |pcm| > 0 && channels % TWO16 == t.channels && rate % TWO32 == t.rate
  {
    var format, data := FileChunks(pcm, rate, channels)[0], FileChunks(pcm, rate, channels)[1];
    var d := ChunkFile(pcm, rate, channels);
    FileHasChunks(d, pcm, rate, channels);
    FormatFields(rate, channels);
    MatchStep(d, 12, false, false, t, format);
    MatchStep(d, 36, FormatMatches(format.body, t), false, t, data);
    assert FMT[0] != DATA[0];
  }

  /** Which written files pass. */
  lemma FileMatches(pcm: Bytes, rate: nat, channels: nat, t: Target)
    requires |pcm| % 2 == 0 && |pcm| <= MAX_DATA
    ensures Matches(Header(|pcm|, rate, channels) + pcm, t) <==>
            t.wav && t.pcm16 && |pcm| > 0 && channels % TWO16 == t.channels && rate % TWO32 == t.rate
  {
    FileLayout(pcm, rate, channels);
    ChunkFileMatches(pcm, rate, channels, t);
  }

  lemma FileHasChunks(d: Bytes, pcm: Bytes, rate: nat, channels: nat)
    requires |pcm| + |pcm| % 2 <= MAX_DATA && d == ChunkFile(pcm, rate, channels)
    ensures var cs := FileChunks(pcm, rate, channels);
            HasChunk(d, 12, cs[0]) && Next(12, cs[0]) == 36 && HasChunk(d, 36, cs[1]) && Next(36, cs[1]) == |d|
    ensures IsWave(d) && U32(d, 4) == |d| - 8
  {
    var length := 36 + |pcm| + |pcm| % 2;
    var pre, cs := RIFF + LE32(length) + WAVE, FileChunks(pcm, rate, channels);
    TwoChunks(d, pre, cs[0], cs[1]);
    SizeField(d, length);
  }

  lemma TwoChunks(d: Bytes, pre: Bytes, a: Chunk, b: Chunk)
    requires WellFormed(a) && WellFormed(b) && d == pre + WriteChunks([a, b])
    ensures pre <= d && HasChunk(d, |pre|, a) && HasChunk(d, Next(|pre|, a), b) && Next(Next(|pre|, a), b) == |d|
  {
    assert [a, b][1..] == [b] && [b][1..] == [];
    assert WriteChunks([b]) == WriteChunk(b) && d == pre + WriteChunk(a) + WriteChunk(b);
    ChunkAt(d, pre, a, WriteChunk(b));
    assert d == (pre + WriteChunk(a)) + WriteChunk(b) + [];
    ChunkAt(d, pre + WriteChunk(a), b, []);
  }

  lemma SizeField(d: Bytes, length: nat)
    requires length < TWO32 && 12 <= |d| && RIFF + LE32(length) + WAVE <= d
    ensures IsWave(d) && U32(d, 4) == length
  {
    var pre := RIFF + LE32(length) + WAVE;
    assert pre == d[..12];
    assert d[..4] == pre[..4] == RIFF && d[4..8] == pre[4..8] == LE32(length) && d[8..12] == pre[8..12] == WAVE;
    Read32(d, 4, length);
    FitsField(length, TWO32);
  }

  /** A file that passes for a mono target is one that Parse reads, at that rate, exactly if its last
      data chunk holds samples and no half one; otherwise Parse finds no samples. */
  lemma PassedFilesParse(d: Bytes, t: Target)
    requires Matches(d, t) && t.channels == 1 && t.rate > 0
    ensures Scan(d, 12, NOTHING).Ok?
    ensures var pcm := Scan(d, 12, NOTHING).value.pcm;
            Parsed(d) == if |pcm| > 0 && |pcm| % 2 == 0 then Ok(Audio(t.rate, Decode(pcm))) else Err(NoSamples)
  {
    MatchedWalk(d, 12, false, false, t, NOTHING);
  }

  /** A file with half a sample too much passes unchanged, and cannot be parsed. */
  lemma OddFile(pcm: Bytes, rate: nat)
    requires |pcm| % 2 == 1 && |pcm| < MAX_DATA && 0 < rate < TWO32
    ensures Matches(ChunkFile(pcm, rate, 1), Target(true, true, rate, 1))
    ensures Parsed(ChunkFile(pcm, rate, 1)) == Err(NoSamples)
  {
    var cs, size := FileChunks(pcm, rate, 1), LE32(36 + |pcm| + |pcm| % 2);
    FitsField(rate, TWO32);
    FitsField(1, TWO16);
    ChunkFileMatches(pcm, rate, 1, Target(true, true, rate, 1));
    assert FMT[0] != DATA[0];
    ParseFound(size, cs, [], 0, 1);
    FormatFields(rate, 1);
    assert RIFF + size + WAVE + WriteChunks(cs) + [] == ChunkFile(pcm, rate, 1);
  }

  lemma {:induction false} MatchedWalk(d: Bytes, n: nat, fm: bool, df: bool, t: Target, f: Found)
    requires Match(d, n, fm, df, t)
    requires fm ==> f.format == 1 && f.channels == t.channels && f.rate == t.rate && f.bits == 16
    ensures Scan(d, n, f).Ok?
    ensures var g := Scan(d, n, f).value; g.format == 1 && g.channels == t.channels && g.rate == t.rate && g.bits == 16
    decreases |d| - n
  {
    if n + 8 <= |d| {
      var c := Chunk(d[n..n+4], d[n+8..n+8+U32(d, n+4)], 0);
      MatchStep(d, n, fm, df, t, c);
      ScanStep(d, n, f, c);
      MatchedWalk(d, Next(n, c), if c.id == FMT then FormatMatches(c.body, t)
                  else fm, df || (c.id == DATA && |c.body| > 0), t,
                  Note(f, c.id, c.body).value);
    }
  }

  // ---------- normalisation ----------

  datatype Normalized = Normalized(audio: Bytes, converted: bool)

  /** `installed` says whether ffmpeg is found, `pcm` is what it decodes. */
  method NormalizeAudio(audio: Bytes, t: Target, installed: bool, pcm: Result<Bytes>) returns (r: Result<Normalized>)
    ensures r == NormalizedOf(audio, t, installed, pcm)
  {
    if |audio| == 0 { return Err(NoAudio); }
    var passes := MatchesWav(audio, t);
    if passes { return Ok(Normalized(audio, false)); }
    if !t.wav || !t.pcm16 || t.rate <= 0 || t.channels <= 0 { return Err(UnsupportedTarget); }
    if !installed { return Err(FFmpegMissing); }
    if pcm.Err? { return Err(FFmpegFailed); }
    var wav := NormalizerWav(pcm.value, t.rate, t.channels);
    if wav.Err? { return Err(wav.error); }
    return Ok(Normalized(wav.value, true));
  }

  function NormalizedOf(audio: Bytes, t: Target, installed: bool, pcm: Result<Bytes>): Result<Normalized> {
    if |audio| == 0 then Err(NoAudio)
    else if Matches(audio, t) then Ok(Normalized(audio, false))
    else if !t.wav || !t.pcm16 || t.rate <= 0 || t.channels <= 0 then Err(UnsupportedTarget)
    else if !installed then Err(FFmpegMissing)
    else if pcm.Err? then Err(FFmpegFailed)
    else
      var wav := NormalizerWavOf(pcm.value, t.rate, t.channels);
      if wav.Err? then Err(wav.error) else Ok(Normalized(wav.value, true))
  }

  lemma Aligned(length: nat, channels: nat)
    requires channels > 0 && length % (channels * 2) == 0
    ensures length % 2 == 0
  {
    var q := length / (channels * 2);
    assert length == channels * 2 * q == 2 * (channels * q);
  }

  /** Normalising a normalised file for the same target changes nothing and needs no ffmpeg, exactly
      if the rate and the channels of the target fit their fields in the file, or it passed before. */
  lemma NormalizeTwice(audio: Bytes, t: Target, installed: bool, pcm: Result<Bytes>, again: bool, pcm2: Result<Bytes>)
    requires NormalizedOf(audio, t, installed, pcm).Ok?
    ensures var once := NormalizedOf(audio, t, installed, pcm).value;
            && (once.converted ==>
                  (Matches(once.audio, t) <==> t.rate < TWO32 && t.channels < TWO16))
            && (!once.converted || (t.rate < TWO32 && t.channels < TWO16) ==>
                  NormalizedOf(once.audio, t, again, pcm2) == Ok(Normalized(once.audio, false)))
  {
    if !Matches(audio, t) {
      Aligned(|pcm.value|, t.channels);
      FileMatches(pcm.value, t.rate, t.channels, t);
      FitsField(t.rate, TWO32);
      FitsField(t.channels, TWO16);
    }
  }
}
