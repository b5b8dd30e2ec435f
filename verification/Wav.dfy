/** Mono PCM16 WAV files: the parser and the three writers, on the chunk layout of the RIFF and WAVE
    chapters of Multimedia Programming Interface and Data Specifications 1.0. */
module Wav {
  type Byte = b: int | 0 <= b < 256
  type Bytes = seq<Byte>
  /** int16. */
  type Sample = s: int | -32768 <= s < 32768

  const RIFF: Bytes := [82, 73, 70, 70]
  const WAVE: Bytes := [87, 65, 86, 69]
  const FMT: Bytes := [102, 109, 116, 32]
  const DATA: Bytes := [100, 97, 116, 97]

  const TWO32: int := 0x1_0000_0000
  const TWO16: int := 0x1_0000

  // ---------- little endian ----------

  /** The conversion to uint16 or uint32 drops the higher bits. */
  function LE16(n: nat): (b: Bytes)
    ensures |b| == 2
  {
    [n % 256, n / 256 % 256]
  }

  function LE32(n: nat): (b: Bytes)
    ensures |b| == 4
  {
    [n % 256, n / 256 % 256, n / 65536 % 256, n / 16777216 % 256]
  }

  function U16(d: Bytes, at: nat): (n: nat)
    requires at + 2 <= |d|
    ensures n < TWO16
  {
    var b0: int, b1: int := d[at], d[at+1];
    b0 + 256 * b1
  }

  function U32(d: Bytes, at: nat): (n: nat)
    requires at + 4 <= |d|
    ensures n < TWO32
  {
    var b0: int, b1: int, b2: int, b3: int := d[at], d[at+1], d[at+2], d[at+3];
    b0 + 256 * b1 + 65536 * b2 + 16777216 * b3
  }

  lemma Digits16(n: nat)
    ensures n % 256 + 256 * (n / 256 % 256) == n % TWO16
  {}

  lemma Digits32(n: nat)
    ensures n % 256 + 256 * (n / 256 % 256) + 65536 * (n / 65536 % 256) + 16777216 * (n / 16777216 % 256) == n % TWO32
  {
    assert n / 256 / 256 == n / 65536 && n / 65536 / 256 == n / 16777216;
  }

  /** A number written into a file is read back, modulo its width. */
  lemma Read16(d: Bytes, at: nat, n: nat)
    requires at + 2 <= |d| && d[at..at+2] == LE16(n)
    ensures U16(d, at) == n % TWO16
  {
    Digits16(n);
    var b := d[at..at+2];
    assert d[at] == b[0] && d[at+1] == b[1];
  }

  lemma Read32(d: Bytes, at: nat, n: nat)
    requires at + 4 <= |d| && d[at..at+4] == LE32(n)
    ensures U32(d, at) == n % TWO32
  {
    Digits32(n);
    var b := d[at..at+4];
    assert d[at] == b[0] && d[at+1] == b[1] && d[at+2] == b[2] && d[at+3] == b[3];
  }

  // ---------- samples ----------

  function ToSample(lo: Byte, hi: Byte): Sample {
    var low: int, high: int := lo, hi;
    var v := low + 256 * high;
    if v >= 32768 then v - 65536 else v
  }

  function FromSample(s: Sample): (b: Bytes)
    ensures |b| == 2 && ToSample(b[0], b[1]) == s
  {
    var v := if s < 0 then s + 65536 else s;
    [v % 256, v / 256]
  }

  function SampleBytes(samples: seq<Sample>): (b: Bytes)
    ensures |b| == 2 * |samples|
  {
    if |samples| == 0 then [] else SampleBytes(samples[..|samples|-1]) + FromSample(samples[|samples|-1])
  }

  /** The samples of PCM data; an odd last byte is ignored. */
  function Decode(pcm: Bytes): (samples: seq<Sample>)
    ensures |samples| == |pcm| / 2
  {
    seq(|pcm| / 2, i requires 0 <= i < |pcm| / 2 => ToSample(pcm[2*i], pcm[2*i+1]))
  }

  lemma {:induction false} DecodeBytes(samples: seq<Sample>)
    ensures Decode(SampleBytes(samples)) == samples
  {
    if |samples| > 0 {
      var front, last := samples[..|samples|-1], samples[|samples|-1];
      DecodeBytes(front);
      assert Decode(SampleBytes(front) + FromSample(last)) == Decode(SampleBytes(front)) + [last];
    }
  }

  // ---------- the parser ----------

  datatype Error =
    | NotRiff | BadChunkSize | BadFormatChunk | WrongFormat | NoSamples     // Parse
    | NothingToEncode | TooLarge | NotAligned                               // the writers
    | NoAudio | UnsupportedTarget | FFmpegMissing | FFmpegFailed            // NormalizeAudio

  datatype Result<T> = Ok(value: T) | Err(error: Error)

  datatype Audio = Audio(rate: int, samples: seq<Sample>)

  /** What the walk over the chunks has seen so far. */
  datatype Found = Found(format: nat, channels: nat, rate: nat, bits: nat, pcm: Bytes)

  const NOTHING := Found(0, 0, 0, 0, [])

  function Note(f: Found, id: Bytes, body: Bytes): Result<Found> {
    if id == FMT then
      if |body| < 16 then Err(BadFormatChunk)
      else Ok(Found(U16(body, 0), U16(body, 2), U32(body, 4), U16(body, 14), f.pcm))
    else if id == DATA then Ok(f.(pcm := body))
    else Ok(f)
  }

  /** The walk from `offset` on. */
  function Scan(d: Bytes, offset: nat, f: Found): Result<Found>
    decreases |d| - offset
  {
    if offset + 8 > |d| then Ok(f)
    else
      var end := offset + 8 + U32(d, offset + 4);
      if end > |d| then Err(BadChunkSize)
      else
        match Note(f, d[offset..offset+4], d[offset+8..end])
        case Err(e) => Err(e)
        case Ok(g) => Scan(d, end + (end - offset) % 2, g)
  }

  function Conclude(f: Found): Result<Audio> {
    if f.format != 1 || f.channels != 1 || f.bits != 16 || f.rate == 0 then Err(WrongFormat)
    else if |f.pcm| == 0 || |f.pcm| % 2 != 0 then Err(NoSamples)
    else Ok(Audio(f.rate, Decode(f.pcm)))
  }

  predicate IsWave(d: Bytes) { 12 <= |d| && d[..4] == RIFF && d[8..12] == WAVE }

  function Parsed(d: Bytes): Result<Audio> {
    if !IsWave(d) then Err(NotRiff)
    else
      match Scan(d, 12, NOTHING)
      case Err(e) => Err(e)
      case Ok(f) => Conclude(f)
  }

  /** A chunk with its identifier, its content and the byte that pads an odd content. */
  datatype Chunk = Chunk(id: Bytes, body: Bytes, pad: Byte)

  /** The walk finds this chunk at n. */
  ghost predicate HasChunk(d: Bytes, n: nat, c: Chunk) {
    n + 8 + |c.body| <= |d| && U32(d, n + 4) == |c.body| && d[n..n+4] == c.id && d[n+8..n+8+|c.body|] == c.body
  }

  function Next(n: nat, c: Chunk): nat { n + 8 + |c.body| + |c.body| % 2 }

  /** One turn of the walk. */
  lemma ScanStep(d: Bytes, n: nat, f: Found, c: Chunk)
    requires HasChunk(d, n, c)
    ensures Scan(d, n, f) == var g := Note(f, c.id, c.body); if g.Err? then Err(g.error)
            else Scan(d, Next(n, c), g.value)
  {}

  /** What the parser reads straight from the file. */
  lemma NoteInPlace(d: Bytes, n: nat, f: Found, c: Chunk)
    requires HasChunk(d, n, c) && c.id == FMT && |c.body| >= 16
    ensures Note(f, FMT, c.body) == Ok(Found(U16(d, n + 8), U16(d, n + 10), U32(d, n + 12), U16(d, n + 22), f.pcm))
  {
    var body := c.body;
    assert forall i :: 0 <= i < 16 ==> body[i] == d[n+8+i];
  }

  method Parse(data: Bytes) returns (r: Result<Audio>)
    ensures r == Parsed(data)
  {
    if |data| < 12 || data[..4] != RIFF || data[8..12] != WAVE { return Err(NotRiff); }
    var format, channels, bits, sampleRate := 0, 0, 0, 0;
    var pcm: Bytes := [];
    var offset: nat := 12;
    ghost var at: nat, f := 12, NOTHING;
    ghost var result := Scan(data, at, f);
    while offset + 8 <= |data|
      invariant f.format == format && f.channels == channels && f.rate == sampleRate && f.bits == bits && f.pcm == pcm
      invariant at == offset && result == Scan(data, at, f)
      decreases |data| - offset
    {
      var id := data[offset..offset+4];
      var size := U32(data, offset + 4);
      var start := offset + 8;
      var end := start + size;
      if end > |data| { return Err(BadChunkSize); }
      ghost var c := Chunk(id, data[start..end], 0);
      ScanStep(data, at, f, c);
      if id == FMT {
        if size < 16 { return Err(BadFormatChunk); }
        NoteInPlace(data, offset, f, c);
        format := U16(data, start);
        channels := U16(data, start + 2);
        sampleRate := U32(data, start + 4);
        bits := U16(data, start + 14);
      } else if id == DATA {
        pcm := data[start..end];
      }
      at, f := Next(at, c), Note(f, c.id, c.body).value;
      offset := end + size % 2;
    }
    if format != 1 || channels != 1 || bits != 16 || sampleRate == 0 { return Err(WrongFormat); }
    if |pcm| == 0 || |pcm| % 2 != 0 { return Err(NoSamples); }
    return Ok(Audio(sampleRate, Decode(pcm)));
  }

  // ---------- chunk lists ----------

  predicate WellFormed(c: Chunk) { |c.id| == 4 && |c.body| < TWO32 }

  function WriteChunk(c: Chunk): Bytes {
    c.id + LE32(|c.body|) + c.body + Padding(c)
  }

  function Padding(c: Chunk): Bytes { if |c.body| % 2 == 1 then [c.pad] else [] }

  function WriteChunks(cs: seq<Chunk>): Bytes {
    if |cs| == 0 then [] else WriteChunk(cs[0]) + WriteChunks(cs[1..])
  }

  function NoteAll(cs: seq<Chunk>, f: Found): Result<Found> {
    if |cs| == 0 then Ok(f)
    else
      match Note(f, cs[0].id, cs[0].body)
      case Err(e) => Err(e)
      case Ok(g) => NoteAll(cs[1..], g)
  }

  /** The walk finds a chunk where it was written. */
  lemma ChunkAt(d: Bytes, pre: Bytes, c: Chunk, post: Bytes)
    requires WellFormed(c) && d == pre + WriteChunk(c) + post
    ensures HasChunk(d, |pre|, c) && |pre + WriteChunk(c)| == Next(|pre|, c)
  {
    Layout(pre, c.id, LE32(|c.body|), c.body, Padding(c), post);
    var n := |pre|;
    assert |pre + c.id| == n + 4 && |pre + c.id + LE32(|c.body|)| == n + 8;
    assert d[n+4..n+8] == LE32(|c.body|);
    Read32(d, n + 4, |c.body|);
    assert U32(d, n + 4) == |c.body|;
  }

  lemma Layout<T>(a: seq<T>, b: seq<T>, c: seq<T>, d: seq<T>, e: seq<T>, f: seq<T>)
    ensures var s, n, k, l := a + (b + c + d + e) + f, |a|, |a + b|, |a + b + c|;
            && n <= k <= l <= l + |d| <= |s|
            && s[n..k] == b && s[k..l] == c && s[l..l+|d|] == d
  {
    var s := a + (b + c + d + e) + f;
    Slice(a, b + c + d + e, f, 0, |b|);
    Slice(a, b + c + d + e, f, |b|, |b + c|);
    Slice(a, b + c + d + e, f, |b + c|, |b + c + d|);
  }

  lemma Slice<T>(a: seq<T>, w: seq<T>, f: seq<T>, i: nat, j: nat)
    requires i <= j <= |w|
    ensures (a + w + f)[|a|+i..|a|+j] == w[i..j]
  {}

  lemma ScanEnd(pre: Bytes, rest: Bytes, f: Found)
    requires |rest| < 8
    ensures Scan(pre + [] + rest, |pre|, f) == Ok(f)
  {}

  lemma {:induction false} ScanChunks(pre: Bytes, cs: seq<Chunk>, rest: Bytes, f: Found)
    requires |rest| < 8 && forall c :: c in cs ==> WellFormed(c)
    ensures Scan(pre + WriteChunks(cs) + rest, |pre|, f) == NoteAll(cs, f)
    decreases |cs|
  {
    if |cs| > 0 {
      var c := cs[0];
      assert pre + WriteChunks(cs) + rest == pre + WriteChunk(c) + (WriteChunks(cs[1..]) + rest)
          && pre + WriteChunks(cs) + rest == pre + WriteChunk(c) + WriteChunks(cs[1..]) + rest by {
        Associative(pre, WriteChunk(c), WriteChunks(cs[1..]), rest);
      }
      var d := pre + WriteChunks(cs) + rest;
      ChunkAt(d, pre, c, WriteChunks(cs[1..]) + rest);
      ScanStep(d, |pre|, f, c);
      if Note(f, c.id, c.body).Ok? { ScanChunks(pre + WriteChunk(c), cs[1..], rest, Note(f, c.id, c.body).value); }
    } else {
      ScanEnd(pre, rest, f);
    }
  }

  lemma Associative<T>(a: seq<T>, b: seq<T>, c: seq<T>, d: seq<T>)
    ensures a + (b + c) + d == a + b + (c + d) && a + (b + c) + d == a + b + c + d
  {}

  /** The positions of the last format chunk and the last data chunk; -1 if there is none. */
  ghost predicate LastAt(cs: seq<Chunk>, id: Bytes, i: int) {
    -1 <= i < |cs| && (i >= 0 ==> cs[i].id == id) && forall k :: i < k < |cs| ==> cs[k].id != id
  }

  predicate FormatsComplete(cs: seq<Chunk>) { forall c :: c in cs && c.id == FMT ==> |c.body| >= 16 }

  lemma {:induction false} LastChunksCount(cs: seq<Chunk>, f: Found, i: int, j: int)
    requires FormatsComplete(cs) && LastAt(cs, FMT, i) && LastAt(cs, DATA, j)
    ensures NoteAll(cs, f) ==
            Ok(var g := if i < 0 then f else Found(U16(cs[i].body, 0), U16(cs[i].body, 2), U32(cs[i].body, 4),
                                                   U16(cs[i].body, 14), f.pcm);
               if j < 0 then g else g.(pcm := cs[j].body))
    decreases |cs|
  {
    if |cs| > 0 {
      assert cs[0] in cs;
      var g := Note(f, cs[0].id, cs[0].body).value;
      LastChunksCount(cs[1..], g, if i <= 0 then -1 else i - 1, if j <= 0 then -1 else j - 1);
    }
  }

  lemma {:induction false} ShortFormat(cs: seq<Chunk>, f: Found)
    requires !FormatsComplete(cs)
    ensures NoteAll(cs, f) == Err(BadFormatChunk)
    decreases |cs|
  {
    if cs[0].id != FMT || |cs[0].body| >= 16 {
      var c :| c in cs && c.id == FMT && |c.body| < 16;
      assert c in cs[1..];
      ShortFormat(cs[1..], Note(f, cs[0].id, cs[0].body).value);
    }
  }

  lemma ParseFound(size: Bytes, cs: seq<Chunk>, rest: Bytes, i: int, j: int)
    requires |size| == 4 && |rest| < 8 && (forall c :: c in cs ==> WellFormed(c))
    requires LastAt(cs, FMT, i) && LastAt(cs, DATA, j)
    ensures var d := RIFF + size + WAVE + WriteChunks(cs) + rest;
            Parsed(d) ==
            if !FormatsComplete(cs) then Err(BadFormatChunk)
            else if i < 0 then Err(WrongFormat)
            else Conclude(Found(U16(cs[i].body, 0), U16(cs[i].body, 2), U32(cs[i].body, 4), U16(cs[i].body, 14),
                                if j < 0 then [] else cs[j].body))
  {
    var pre := RIFF + size + WAVE;
    var d := pre + WriteChunks(cs) + rest;
    assert d[..4] == RIFF && d[8..12] == WAVE;
    ScanChunks(pre, cs, rest, NOTHING);
    if FormatsComplete(cs) { LastChunksCount(cs, NOTHING, i, j); } else { ShortFormat(cs, NOTHING); }
  }

  /** The value of four bytes, the lowest one first. */
  function Number(a: int, b: int, c: int, d: int): int { a + 256 * b + 65536 * c + 16777216 * d }

  /** How a chunk lies in a file. */
  lemma ChunkInBytes(c: Chunk)
    ensures var n := |c.body|;
            WriteChunk(c) ==
            c.id + [n % 256, n / 256 % 256, n / 65536 % 256, n / 16777216 % 256] + c.body +
            if n % 2 == 1 then [c.pad] else []
  {}

  /** Sample k of PCM data: two bytes, the lower one first, in two's complement. */
  lemma SampleInBytes(pcm: Bytes, k: nat)
    requires 2 * k + 1 < |pcm|
    ensures k < |Decode(pcm)|
    ensures var v := Number(pcm[2*k], pcm[2*k+1], 0, 0); Decode(pcm)[k] == if v < 32768 then v else v - 65536
  {}

  /** A RIFF/WAVE file with any chunks in any order: the parser takes the last format chunk and the
      last data chunk, and stops only at a format chunk that is too short. The format has to be 1 with
      one channel and 16 bits at a rate that is not zero; the data has to be whole samples. */
  lemma ParseChunks(size: Bytes, cs: seq<Chunk>, rest: Bytes, i: int, j: int)
    requires |size| == 4 && |rest| < 8 && (forall c :: c in cs ==> WellFormed(c))
    requires LastAt(cs, [102, 109, 116, 32], i) && LastAt(cs, [100, 97, 116, 97], j)
    ensures var result := Parsed([82, 73, 70, 70] + size + [87, 65, 86, 69] + WriteChunks(cs) + rest);
            if !FormatsComplete(cs) then result == Err(BadFormatChunk)
            else if i < 0 then result == Err(WrongFormat)
            else
              var b, pcm := cs[i].body, if j < 0 then [] else cs[j].body;
              var rate := Number(b[4], b[5], b[6], b[7]);
              result ==
              if b[0] != 1 || b[1] != 0 || b[2] != 1 || b[3] != 0 || b[14] != 16 || b[15] != 0 || rate == 0
                then Err(WrongFormat)
              else if pcm == [] || |pcm| % 2 == 1 then Err(NoSamples)
              else Ok(Audio(rate, Decode(pcm)))
  {
    ParseFound(size, cs, rest, i, j);
    FoundInBytes(cs, i, j, Parsed(RIFF + size + WAVE + WriteChunks(cs) + rest));
  }

  lemma FoundInBytes(cs: seq<Chunk>, i: int, j: int, result: Result<Audio>)
    requires LastAt(cs, FMT, i) && LastAt(cs, DATA, j)
    requires result ==
             if !FormatsComplete(cs) then Err(BadFormatChunk)
             else if i < 0 then Err(WrongFormat)
             else Conclude(Found(U16(cs[i].body, 0), U16(cs[i].body, 2), U32(cs[i].body, 4), U16(cs[i].body, 14),
                                 if j < 0 then [] else cs[j].body))
    ensures if !FormatsComplete(cs) then result == Err(BadFormatChunk)
            else if i < 0 then result == Err(WrongFormat)
            else
              var b, pcm := cs[i].body, if j < 0 then [] else cs[j].body;
              var rate := Number(b[4], b[5], b[6], b[7]);
              result ==
              if b[0] != 1 || b[1] != 0 || b[2] != 1 || b[3] != 0 || b[14] != 16 || b[15] != 0 || rate == 0
                then Err(WrongFormat)
              else if pcm == [] || |pcm| % 2 == 1 then Err(NoSamples)
              else Ok(Audio(rate, Decode(pcm)))
  {
    if FormatsComplete(cs) && i >= 0 {
      assert cs[i] in cs;
      ConcludeInBytes(cs[i].body, if j < 0 then [] else cs[j].body);
    }
  }

  lemma ConcludeInBytes(b: Bytes, pcm: Bytes)
    requires |b| >= 16
    ensures var rate := Number(b[4], b[5], b[6], b[7]);
            Conclude(Found(U16(b, 0), U16(b, 2), U32(b, 4), U16(b, 14), pcm)) ==
            if b[0] != 1 || b[1] != 0 || b[2] != 1 || b[3] != 0 || b[14] != 16 || b[15] != 0 || rate == 0
              then Err(WrongFormat)
            else if pcm == [] || |pcm| % 2 == 1 then Err(NoSamples)
            else Ok(Audio(rate, Decode(pcm)))
  {}
}
