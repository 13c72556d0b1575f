/** The recorder's WAV writer and the player's WAV reader. */
module WaveFile {
  import opened Options
  import Text

  type Byte = b: int | 0 <= b < 256
  type Sample = s: int | -32768 <= s < 32768

  const TWO32 := 0x1_0000_0000
  const TWO16 := 0x1_0000

  /** The low `n` bytes of a number, the lowest first. */
  function LowBytes(v: nat, n: nat): (bs: seq<Byte>)
    ensures |bs| == n
  {
    if n == 0 then [] else [v % 256] + LowBytes(v / 256, n - 1)
  }

  function U16(v: nat): seq<Byte> { LowBytes(v, 2) }

  function U32(v: nat): seq<Byte> { LowBytes(v, 4) }

  const RIFF: seq<Byte> := [0x52, 0x49, 0x46, 0x46]
  const WAVE: seq<Byte> := [0x57, 0x41, 0x56, 0x45]
  const FMT: seq<Byte> := [0x66, 0x6d, 0x74, 0x20]
  const DATA: seq<Byte> := [0x64, 0x61, 0x74, 0x61]

  // ── Writing ─────────────────────────────────────────────────────────────────

  /** A sample in two's complement, the low byte first. */
  function SampleBytes(s: Sample): seq<Byte> {
    U16(if s < 0 then s + TWO16 else s)
  }

  function PcmBytes(pcm: seq<Sample>): (bs: seq<Byte>)
    ensures |bs| == 2 * |pcm|
  {
    if pcm == [] then [] else PcmBytes(pcm[..|pcm|-1]) + SampleBytes(pcm[|pcm|-1])
  }

  function FormatBody(channels: nat, rate: nat): seq<Byte> {
    U16(1) + U16(channels) + U32(rate) + U32(rate * channels * 2 % TWO32) + U16(channels * 2) + U16(16)
  }

  function Chunk(id: seq<Byte>, body: seq<Byte>): seq<Byte> {
    id + U32(|body|) + body
  }

  function Header(fileSize: nat): seq<Byte> {
    RIFF + U32(fileSize) + WAVE
  }

  /** The file that the recorder writes: one channel, sixteen bits. */
  function WavOf(pcm: seq<Sample>, rate: nat): seq<Byte> {
    Header((36 + 2 * |pcm|) % TWO32) + Chunk(FMT, FormatBody(1, rate)) + Chunk(DATA, PcmBytes(pcm))
  }

  lemma Regroup(h: seq<Byte>, a: seq<Byte>, b: seq<Byte>, c: seq<Byte>, d: seq<Byte>, e: seq<Byte>, f: seq<Byte>,
                g: seq<Byte>, i: seq<Byte>)
    ensures h + a + b + c + d + e + f + g + i == h + (a + b + (c + d + e + f + g + i))
  {}

  lemma RegroupData(h: seq<Byte>, a: seq<Byte>, b: seq<Byte>, c: seq<Byte>)
    ensures h + a + b + c == h + (a + b + c)
  {}

  method WriteFormat(wav: seq<Byte>, rate: nat) returns (out: seq<Byte>)
    ensures out == wav + Chunk(FMT, FormatBody(1, rate))
  {
    out := wav + FMT;
    out := out + U32(16);
    out := out + U16(1);
    out := out + U16(1);
    out := out + U32(rate);
    out := out + U32(rate * 1 * 2 % TWO32);
    out := out + U16(1 * 2);
    out := out + U16(16);
    Regroup(wav, FMT, U32(16), U16(1), U16(1), U32(rate), U32(rate * 1 * 2 % TWO32), U16(1 * 2), U16(16));
  }

  method WriteData(wav: seq<Byte>, pcm: seq<Sample>) returns (out: seq<Byte>)
    ensures out == wav + Chunk(DATA, PcmBytes(pcm))
  {
    out := wav + DATA;
    out := out + U32(2 * |pcm|);
    ghost var before := out;
    for i := 0 to |pcm|
      invariant out == before + PcmBytes(pcm[..i])
    {
      assert pcm[..i+1][..i] == pcm[..i];
      out := out + SampleBytes(pcm[i]);
    }
    assert pcm[..|pcm|] == pcm;
    RegroupData(wav, DATA, U32(2 * |pcm|), PcmBytes(pcm));
  }

  method BuildWav(pcm: seq<Sample>, rate: nat) returns (wav: seq<Byte>)
    ensures wav == WavOf(pcm, rate)
  {
    var fileSize := (36 + 2 * |pcm|) % TWO32;
    wav := RIFF;
    wav := wav + U32(fileSize);
    wav := wav + WAVE;
    wav := WriteFormat(wav, rate);
    wav := WriteData(wav, pcm);
  }

  // ── Reading ─────────────────────────────────────────────────────────────────

  /** A byte that the reader looks at; beyond the end it could be any, here it is zero. */
  function At(bs: seq<Byte>, i: nat): Byte {
    if i < |bs| then bs[i] else 0
  }

  /** The number whose `n` low bytes start at `i`. */
  function ReadBytes(bs: seq<Byte>, i: nat, n: nat): nat
    decreases n
  {
    if n == 0 then 0 else At(bs, i) + 256 * ReadBytes(bs, i + 1, n - 1)
  }

  function ReadU16(bs: seq<Byte>, i: nat): nat { ReadBytes(bs, i, 2) }

  function ReadU32(bs: seq<Byte>, i: nat): nat { ReadBytes(bs, i, 4) }

  /** `part` stands at `i`. */
  predicate Holds(bs: seq<Byte>, i: nat, part: seq<Byte>) {
    i + |part| <= |bs| && forall k :: 0 <= k < |part| ==> bs[i + k] == part[k]
  }

  datatype Format = Format(channels: nat, rate: nat, bits: nat)
  const NO_FORMAT := Format(0, 0, 0)

  /** What the chunk at a place makes the reader do. */
  datatype Move = NotPcm | Found(offset: nat, size: nat) | Go(format: Format, next: nat)

  function ChunkMove(bs: seq<Byte>, pos: nat, f: Format): Move {
    var size, body := ReadU32(bs, pos + 4), pos + 8;
    if Holds(bs, pos, FMT) && size >= 16 then
      if ReadU16(bs, body) != 1 then NotPcm
      else Go(Format(ReadU16(bs, body + 2), ReadU32(bs, body + 4), ReadU16(bs, body + 14)), body + size)
    else if Holds(bs, pos, DATA) then Found(body, size)
    else Go(f, body + size)
  }

  /** Where the data chunk is, and the format read before it; `None` for a format that is not PCM. */
  function FindData(bs: seq<Byte>, pos: nat, f: Format): Option<(Format, nat, nat)>
    decreases |bs| - pos
  {
    if pos + 8 > |bs| then Some((f, 0, 0))
    else match ChunkMove(bs, pos, f)
      case NotPcm => None
      case Found(offset, size) => Some((f, offset, size))
      case Go(g, next) => if next <= pos then None else FindData(bs, next, g)
  }

  function ReadSample(bs: seq<Byte>, i: nat): Sample {
    var v := ReadU16(bs, i) % TWO16;
    if v >= 32768 then v - TWO16 else v
  }

  function ReadSamples(bs: seq<Byte>, i: nat, n: nat): seq<Sample> {
    if n == 0 then [] else ReadSamples(bs, i, n - 1) + [ReadSample(bs, i + 2 * (n - 1))]
  }

  datatype Wave = Wave(pcm: seq<Sample>, channels: nat, rate: nat)

  predicate HasMagic(bs: seq<Byte>) {
    |bs| >= 44 && Holds(bs, 0, RIFF) && Holds(bs, 8, WAVE)
  }

  /** `offset` is zero when there was no data chunk. */
  function WaveAt(bs: seq<Byte>, f: Format, offset: nat, size: nat): Option<Wave> {
    if offset == 0 || f.channels == 0 || f.bits != 16 then None
    else Some(Wave(ReadSamples(bs, offset, size / 2), f.channels, f.rate))
  }

  function Decoded(bs: seq<Byte>): Option<Wave> {
    if !HasMagic(bs) then None
    else match FindData(bs, 12, NO_FORMAT)
      case None => None
      case Some(r) => WaveAt(bs, r.0, r.1, r.2)
  }

  lemma MoveOn(bs: seq<Byte>, pos: nat, f: Format)
    ensures var m := ChunkMove(bs, pos, f); (m.Found? ==> m.offset == pos + 8) && (m.Go? ==> m.next >= pos + 8)
  {}

  /** The loop over the chunks; an offset of zero when there is no data chunk. */
  method WalkChunks(bs: seq<Byte>) returns (r: Option<(Format, nat, nat)>)
    ensures r == FindData(bs, 12, NO_FORMAT)
  {
    var pos, format := 12, NO_FORMAT;
    while pos + 8 <= |bs|
      invariant 0 <= pos && FindData(bs, pos, format) == FindData(bs, 12, NO_FORMAT)
      decreases |bs| - pos
    {
      var move := ChunkMove(bs, pos, format);
      MoveOn(bs, pos, format);
      if move.NotPcm? {
        return None;
      }
      if move.Found? {
        return Some((format, move.offset, move.size));
      }
      format, pos := move.format, move.next;
    }
    r := Some((format, 0, 0));
  }

  method CopySamples(bs: seq<Byte>, offset: nat, n: nat) returns (pcm: seq<Sample>)
    ensures pcm == ReadSamples(bs, offset, n)
  {
    pcm := [];
    for i := 0 to n
      invariant pcm == ReadSamples(bs, offset, i)
    {
      pcm := pcm + [ReadSample(bs, offset + 2 * i)];
    }
  }

  method DecodeWav(bs: seq<Byte>) returns (r: Option<Wave>)
    ensures r == Decoded(bs)
  {
    if !HasMagic(bs) {
      return None;
    }
    var found := WalkChunks(bs);
    if found.None? {
      return None;
    }
    var (format, offset, size) := found.value;
    if offset == 0 || format.channels == 0 || format.bits != 16 {
      return None;
    }
    var pcm := CopySamples(bs, offset, size / 2);
    r := Some(Wave(pcm, format.channels, format.rate));
  }

  // ── Numbers ─────────────────────────────────────────────────────────────────

  lemma HoldsAt(bs: seq<Byte>, i: nat, part: seq<Byte>, k: nat)
    requires Holds(bs, i, part) && k < |part|
    ensures At(bs, i + k) == part[k]
  {}

  lemma HoldsPart(bs: seq<Byte>, i: nat, part: seq<Byte>, a: nat, sub: seq<Byte>)
    requires Holds(bs, i, part) && a + |sub| <= |part| && part[a..a + |sub|] == sub
    ensures Holds(bs, i + a, sub)
  {
    forall k | 0 <= k < |sub|
      ensures bs[i + a + k] == sub[k]
    {
      assert bs[i + (a + k)] == part[a + k] && part[a..a + |sub|][k] == part[a + k];
    }
  }

  lemma HoldsTwo(bs: seq<Byte>, pos: nat, a: seq<Byte>, b: seq<Byte>)
    requires Holds(bs, pos, a + b)
    ensures Holds(bs, pos, a) && Holds(bs, pos + |a|, b)
  {
    HoldsPart(bs, pos, a + b, 0, a);
    HoldsPart(bs, pos, a + b, |a|, b);
  }

  function Pow256(n: nat): nat {
    if n == 0 then 1 else 256 * Pow256(n - 1)
  }

  lemma {:induction false} BytesBack(bs: seq<Byte>, i: nat, v: nat, n: nat)
    requires Holds(bs, i, LowBytes(v, n)) && v < Pow256(n)
    ensures ReadBytes(bs, i, n) == v
    decreases n
  {
    if n > 0 {
      var part := LowBytes(v, n);
      HoldsAt(bs, i, part, 0);
      assert part[1..] == LowBytes(v / 256, n - 1);
      HoldsPart(bs, i, part, 1, LowBytes(v / 256, n - 1));
      BytesBack(bs, i + 1, v / 256, n - 1);
    }
  }

  lemma Powers()
    ensures Pow256(2) == TWO16 && Pow256(4) == TWO32
  {
    assert Pow256(1) == 256 && Pow256(3) == 256 * Pow256(2);
  }

  lemma U16Back(bs: seq<Byte>, i: nat, v: nat)
    requires Holds(bs, i, U16(v)) && v < TWO16
    ensures ReadU16(bs, i) == v
  {
    Powers();
    BytesBack(bs, i, v, 2);
  }

  lemma U32Back(bs: seq<Byte>, i: nat, v: nat)
    requires Holds(bs, i, U32(v)) && v < TWO32
    ensures ReadU32(bs, i) == v
  {
    Powers();
    BytesBack(bs, i, v, 4);
  }

  lemma SampleBack(bs: seq<Byte>, i: nat, s: Sample)
    requires Holds(bs, i, SampleBytes(s))
    ensures ReadSample(bs, i) == s
  {
    U16Back(bs, i, if s < 0 then s + TWO16 else s);
  }

  lemma {:induction false} PcmBack(bs: seq<Byte>, i: nat, pcm: seq<Sample>)
    requires Holds(bs, i, PcmBytes(pcm))
    ensures ReadSamples(bs, i, |pcm|) == pcm
    decreases |pcm|
  {
    if pcm != [] {
      var init, s := pcm[..|pcm|-1], pcm[|pcm|-1];
      HoldsTwo(bs, i, PcmBytes(init), SampleBytes(s));
      PcmBack(bs, i, init);
      SampleBack(bs, i + 2 * |init|, s);
      Text.FrontAndLast(pcm);
    }
  }

  // ── Chunks ──────────────────────────────────────────────────────────────────

  datatype Extra = Extra(id: seq<Byte>, body: seq<Byte>)

  /** A chunk that the reader does not know. */
  predicate Unknown(e: Extra) {
    |e.id| == 4 && e.id != FMT && e.id != DATA && |e.body| < TWO32
  }

  function ExtraBytes(es: seq<Extra>): seq<Byte> {
    if es == [] then [] else Chunk(es[0].id, es[0].body) + ExtraBytes(es[1..])
  }

  lemma ChunkRead(bs: seq<Byte>, pos: nat, id: seq<Byte>, body: seq<Byte>)
    requires Holds(bs, pos, Chunk(id, body)) && |id| == 4 && |body| < TWO32
    ensures pos + 8 <= |bs| && ReadU32(bs, pos + 4) == |body| && Holds(bs, pos, id) && Holds(bs, pos + 8, body)
    ensures forall other: seq<Byte> :: |other| == 4 ==> (Holds(bs, pos, other) <==> other == id)
  {
    var c := Chunk(id, body);
    HoldsPart(bs, pos, c, 0, id);
    HoldsPart(bs, pos, c, 4, U32(|body|));
    HoldsPart(bs, pos, c, 8, body);
    U32Back(bs, pos + 4, |body|);
  }

  lemma ExtraSkipped(bs: seq<Byte>, pos: nat, e: Extra, f: Format)
    requires Holds(bs, pos, Chunk(e.id, e.body)) && Unknown(e)
    ensures ChunkMove(bs, pos, f) == Go(f, pos + |Chunk(e.id, e.body)|)
  {
    ChunkRead(bs, pos, e.id, e.body);
  }

  lemma GoOn(bs: seq<Byte>, pos: nat, f: Format, g: Format, next: nat)
    requires ChunkMove(bs, pos, f) == Go(g, next) && pos + 8 <= |bs| && pos < next
    ensures FindData(bs, pos, f) == FindData(bs, next, g)
  {}

  lemma ChunkFits(bs: seq<Byte>, pos: nat, e: Extra, next: nat)
    requires Holds(bs, pos, Chunk(e.id, e.body)) && Unknown(e) && next == pos + |Chunk(e.id, e.body)|
    ensures pos + 8 <= |bs| && pos + 8 <= next
  {}

  ghost predicate AllUnknown(es: seq<Extra>) {
    forall i :: 0 <= i < |es| ==> Unknown(es[i])
  }

  lemma OneSkipped(bs: seq<Byte>, pos: nat, e: Extra, f: Format, next: nat)
    requires Holds(bs, pos, Chunk(e.id, e.body)) && Unknown(e) && next == pos + |Chunk(e.id, e.body)|
    ensures FindData(bs, pos, f) == FindData(bs, next, f)
  {
    ExtraSkipped(bs, pos, e, f);
    ChunkFits(bs, pos, e, next);
    GoOn(bs, pos, f, f, next);
  }

  lemma ExtrasSplit(bs: seq<Byte>, pos: nat, es: seq<Extra>, next: nat, end: nat)
    requires es != [] && Holds(bs, pos, ExtraBytes(es)) && end == pos + |ExtraBytes(es)|
    requires next == pos + |Chunk(es[0].id, es[0].body)|
    ensures Holds(bs, pos, Chunk(es[0].id, es[0].body)) && Holds(bs, next, ExtraBytes(es[1..]))
    ensures end == next + |ExtraBytes(es[1..])|
  {
    HoldsTwo(bs, pos, Chunk(es[0].id, es[0].body), ExtraBytes(es[1..]));
  }

  /** Unknown chunks are passed over. */
  lemma {:induction false} ExtrasSkipped(bs: seq<Byte>, pos: nat, es: seq<Extra>, f: Format, end: nat)
    requires Holds(bs, pos, ExtraBytes(es)) && AllUnknown(es) && end == pos + |ExtraBytes(es)|
    ensures FindData(bs, pos, f) == FindData(bs, end, f)
    decreases |es|
  {
    if es != [] {
      var next := pos + |Chunk(es[0].id, es[0].body)|;
      ExtrasSplit(bs, pos, es, next, end);
      OneSkipped(bs, pos, es[0], f, next);
      ExtrasSkipped(bs, next, es[1..], f, end);
    }
  }

  lemma FormatParts(bs: seq<Byte>, at: nat, channels: nat, rate: nat)
    requires Holds(bs, at, FormatBody(channels, rate))
    ensures Holds(bs, at, U16(1)) && Holds(bs, at + 2, U16(channels)) && Holds(bs, at + 4, U32(rate))
    ensures Holds(bs, at + 14, U16(16))
  {
    var body := FormatBody(channels, rate);
    HoldsPart(bs, at, body, 0, U16(1));
    HoldsPart(bs, at, body, 2, U16(channels));
    HoldsPart(bs, at, body, 4, U32(rate));
    HoldsPart(bs, at, body, 14, U16(16));
  }

  lemma FormatFields(bs: seq<Byte>, at: nat, channels: nat, rate: nat)
    requires Holds(bs, at, FormatBody(channels, rate)) && channels < TWO16 / 2 && rate < TWO32
    ensures ReadU16(bs, at) == 1 && ReadU16(bs, at + 2) == channels && ReadU32(bs, at + 4) == rate
    ensures ReadU16(bs, at + 14) == 16
  {
    FormatParts(bs, at, channels, rate);
    U16Back(bs, at, 1);
    U16Back(bs, at + 2, channels);
    U32Back(bs, at + 4, rate);
    U16Back(bs, at + 14, 16);
  }

  lemma FormatRead(bs: seq<Byte>, pos: nat, channels: nat, rate: nat, f: Format)
    requires Holds(bs, pos, Chunk(FMT, FormatBody(channels, rate))) && channels < TWO16 / 2 && rate < TWO32
    ensures pos + 24 <= |bs| && ChunkMove(bs, pos, f) == Go(Format(channels, rate, 16), pos + 24)
  {
    ChunkRead(bs, pos, FMT, FormatBody(channels, rate));
    FormatFields(bs, pos + 8, channels, rate);
  }

  /** The recorder's file with unknown chunks before and after the format. */
  function WavWith(pcm: seq<Sample>, rate: nat, fileSize: nat, before: seq<Extra>, after: seq<Extra>): seq<Byte> {
    Header(fileSize) + ExtraBytes(before) + Chunk(FMT, FormatBody(1, rate)) + ExtraBytes(after)
    + Chunk(DATA, PcmBytes(pcm))
  }

  lemma Layout(a: seq<Byte>, b: seq<Byte>, c: seq<Byte>, d: seq<Byte>, e: seq<Byte>)
    ensures var bs := a + b + c + d + e;
            && Holds(bs, 0, a) && Holds(bs, |a|, b) && Holds(bs, |a| + |b|, c)
            && Holds(bs, |a| + |b| + |c|, d) && Holds(bs, |a| + |b| + |c| + |d|, e)
  {}

  lemma HeaderRead(bs: seq<Byte>, fileSize: nat)
    requires Holds(bs, 0, Header(fileSize)) && |bs| >= 44
    ensures HasMagic(bs)
  {
    HoldsTwo(bs, 0, RIFF + U32(fileSize), WAVE);
    HoldsTwo(bs, 0, RIFF, U32(fileSize));
  }

  lemma DataRead(bs: seq<Byte>, pos: nat, body: seq<Byte>, f: Format)
    requires Holds(bs, pos, Chunk(DATA, body)) && |body| < TWO32
    ensures ChunkMove(bs, pos, f) == Found(pos + 8, |body|) && Holds(bs, pos + 8, body) && pos + 8 <= |bs|
  {
    ChunkRead(bs, pos, DATA, body);
  }

  /** The reader's walk over the chunks. */
  lemma Walk(bs: seq<Byte>, f: Format, before: seq<Extra>, after: seq<Extra>, p: nat, q: nat, r: nat, offset: nat, size: nat)
    requires AllUnknown(before) && AllUnknown(after)
    requires p == 12 + |ExtraBytes(before)| && p + 8 <= q && r == q + |ExtraBytes(after)| && r + 8 <= |bs|
    requires Holds(bs, 12, ExtraBytes(before)) && Holds(bs, q, ExtraBytes(after))
    requires ChunkMove(bs, p, NO_FORMAT) == Go(f, q) && ChunkMove(bs, r, f) == Found(offset, size)
    ensures FindData(bs, 12, NO_FORMAT) == Some((f, offset, size))
  {
    ExtrasSkipped(bs, 12, before, NO_FORMAT, p);
    GoOn(bs, p, NO_FORMAT, f, q);
    ExtrasSkipped(bs, q, after, f, r);
    FoundHere(bs, r, f, offset, size);
  }

  lemma FoundHere(bs: seq<Byte>, r: nat, f: Format, offset: nat, size: nat)
    requires r + 8 <= |bs| && ChunkMove(bs, r, f) == Found(offset, size)
    ensures FindData(bs, r, f) == Some((f, offset, size))
  {}

  lemma WaveBack(bs: seq<Byte>, pcm: seq<Sample>, rate: nat, offset: nat, size: nat)
    requires Holds(bs, offset, PcmBytes(pcm)) && offset > 0 && size == |PcmBytes(pcm)|
    ensures WaveAt(bs, Format(1, rate, 16), offset, size) == Some(Wave(pcm, 1, rate))
  {
    PcmBack(bs, offset, pcm);
    assert size / 2 == |pcm|;
  }

  /** Where the parts of the file lie. */
  lemma Located(a: seq<Byte>, b: seq<Byte>, c: seq<Byte>, d: seq<Byte>, e: seq<Byte>, p: nat, q: nat, r: nat)
    requires |a| == 12 && |c| == 24 && p == 12 + |b| && q == p + 24 && r == q + |d|
    ensures var bs := a + b + c + d + e;
            Holds(bs, 0, a) && Holds(bs, 12, b) && Holds(bs, p, c) && Holds(bs, q, d) && Holds(bs, r, e)
  {
    Layout(a, b, c, d, e);
  }

  lemma LongEnough(bs: seq<Byte>, r: nat, body: seq<Byte>)
    requires Holds(bs, r, Chunk(DATA, body)) && r >= 36
    ensures |bs| >= 44
  {}

  /** The walk finds these samples, recorded at this rate, at this place. */
  ghost predicate Readable(bs: seq<Byte>, pcm: seq<Sample>, rate: nat, offset: nat) {
    && HasMagic(bs) && offset > 0 && Holds(bs, offset, PcmBytes(pcm))
    && FindData(bs, 12, NO_FORMAT) == Some((Format(1, rate, 16), offset, |PcmBytes(pcm)|))
  }

  lemma WaveFound(bs: seq<Byte>, pcm: seq<Sample>, rate: nat, offset: nat)
    requires Readable(bs, pcm, rate, offset)
    ensures Decoded(bs) == Some(Wave(pcm, 1, rate))
  {
    WaveBack(bs, pcm, rate, offset, |PcmBytes(pcm)|);
  }

  lemma MagicFound(bs: seq<Byte>, fileSize: nat, r: nat, body: seq<Byte>)
    requires Holds(bs, 0, Header(fileSize)) && Holds(bs, r, Chunk(DATA, body)) && r >= 36
    ensures HasMagic(bs)
  {
    LongEnough(bs, r, body);
    HeaderRead(bs, fileSize);
  }

  lemma WavPlaces(bs: seq<Byte>, pcm: seq<Sample>, rate: nat, fileSize: nat, before: seq<Extra>, after: seq<Extra>,
                  p: nat, q: nat, r: nat)
    requires bs == WavWith(pcm, rate, fileSize, before, after)
    requires p == 12 + |ExtraBytes(before)| && q == p + 24 && r == q + |ExtraBytes(after)|
    ensures Holds(bs, 0, Header(fileSize)) && Holds(bs, 12, ExtraBytes(before))
    ensures Holds(bs, p, Chunk(FMT, FormatBody(1, rate))) && Holds(bs, q, ExtraBytes(after))
    ensures Holds(bs, r, Chunk(DATA, PcmBytes(pcm)))
  {
    Located(Header(fileSize), ExtraBytes(before), Chunk(FMT, FormatBody(1, rate)), ExtraBytes(after),
            Chunk(DATA, PcmBytes(pcm)), p, q, r);
  }

  lemma Short(pcm: seq<Sample>)
    requires 36 + 2 * |pcm| < TWO32
    ensures |PcmBytes(pcm)| < TWO32
  {}

  /** What the reader does at the two chunks it knows. */
  lemma KnownChunks(bs: seq<Byte>, pcm: seq<Sample>, rate: nat, fileSize: nat, before: seq<Extra>, after: seq<Extra>,
                    p: nat, q: nat, r: nat, size: nat)
    requires bs == WavWith(pcm, rate, fileSize, before, after) && rate < TWO32
    requires p == 12 + |ExtraBytes(before)| && q == p + 24 && r == q + |ExtraBytes(after)|
    requires size == |PcmBytes(pcm)| && size < TWO32
    ensures HasMagic(bs) && Holds(bs, 12, ExtraBytes(before)) && Holds(bs, q, ExtraBytes(after))
    ensures r + 8 <= |bs| && Holds(bs, r + 8, PcmBytes(pcm))
    ensures ChunkMove(bs, p, NO_FORMAT) == Go(Format(1, rate, 16), q)
    ensures ChunkMove(bs, r, Format(1, rate, 16)) == Found(r + 8, size)
  {
    WavPlaces(bs, pcm, rate, fileSize, before, after, p, q, r);
    MagicFound(bs, fileSize, r, PcmBytes(pcm));
    FormatRead(bs, p, 1, rate, NO_FORMAT);
    DataRead(bs, r, PcmBytes(pcm), Format(1, rate, 16));
  }

  lemma DataFound(bs: seq<Byte>, pcm: seq<Sample>, rate: nat, fileSize: nat, before: seq<Extra>, after: seq<Extra>,
                  offset: nat)
    requires bs == WavWith(pcm, rate, fileSize, before, after) && rate < TWO32 && |PcmBytes(pcm)| < TWO32
    requires offset == 44 + |ExtraBytes(before)| + |ExtraBytes(after)| && AllUnknown(before) && AllUnknown(after)
    ensures Readable(bs, pcm, rate, offset)
  {
    var p := 12 + |ExtraBytes(before)|;
    KnownChunks(bs, pcm, rate, fileSize, before, after, p, p + 24, offset - 8, |PcmBytes(pcm)|);
    Walk(bs, Format(1, rate, 16), before, after, p, p + 24, offset - 8, offset, |PcmBytes(pcm)|);
  }

  lemma RoundTripAt(bs: seq<Byte>, pcm: seq<Sample>, rate: nat, fileSize: nat, before: seq<Extra>, after: seq<Extra>,
                    offset: nat)
    requires bs == WavWith(pcm, rate, fileSize, before, after) && rate < TWO32 && |PcmBytes(pcm)| < TWO32
    requires offset == 44 + |ExtraBytes(before)| + |ExtraBytes(after)| && AllUnknown(before) && AllUnknown(after)
    ensures Decoded(bs) == Some(Wave(pcm, 1, rate))
  {
    DataFound(bs, pcm, rate, fileSize, before, after, offset);
    WaveFound(bs, pcm, rate, offset);
  }

  /** Round trip: the samples, one channel and the rate come back, whatever unknown chunks are put in. */
  lemma WavRoundTrip(pcm: seq<Sample>, rate: nat, fileSize: nat, before: seq<Extra>, after: seq<Extra>)
    requires 36 + 2 * |pcm| < TWO32 && rate < TWO32 && AllUnknown(before) && AllUnknown(after)
    ensures Decoded(WavWith(pcm, rate, fileSize, before, after)) == Some(Wave(pcm, 1, rate))
  {
    Short(pcm);
    RoundTripAt(WavWith(pcm, rate, fileSize, before, after), pcm, rate, fileSize, before, after,
                44 + |ExtraBytes(before)| + |ExtraBytes(after)|);
  }

  lemma NoExtras(a: seq<Byte>, c: seq<Byte>, e: seq<Byte>)
    ensures a + [] + c + [] + e == a + c + e
  {}

  /** What the recorder writes, the player reads. */
  lemma RecordedIsPlayed(pcm: seq<Sample>, rate: nat)
    requires 36 + 2 * |pcm| < TWO32 && rate < TWO32
    ensures Decoded(WavOf(pcm, rate)) == Some(Wave(pcm, 1, rate))
  {
    var size := (36 + 2 * |pcm|) % TWO32;
    WavRoundTrip(pcm, rate, size, [], []);
    NoExtras(Header(size), Chunk(FMT, FormatBody(1, rate)), Chunk(DATA, PcmBytes(pcm)));
  }

  // ── Reads inside the file ───────────────────────────────────────────────────

  /** What a read gives that must not leave the file. */
  datatype Checked<T> = Inside(value: T) | Outside

  function Reading(bs: seq<Byte>, i: nat, n: nat): Checked<nat> {
    if i + n <= |bs| then Inside(ReadBytes(bs, i, n)) else Outside
  }

  function Fields(channels: Checked<nat>, rate: Checked<nat>, bits: Checked<nat>, next: nat): Checked<Move> {
    if channels.Inside? && rate.Inside? && bits.Inside?
    then Inside(Go(Format(channels.value, rate.value, bits.value), next)) else Outside
  }

  predicate IsFormat(bs: seq<Byte>, pos: nat) {
    Holds(bs, pos, FMT) && ReadU32(bs, pos + 4) >= 16
  }

  /** What a chunk makes the reader do, if it reads inside the file. */
  function CheckedMove(bs: seq<Byte>, pos: nat, f: Format): Checked<Move> {
    var size, body := ReadU32(bs, pos + 4), pos + 8;
    if IsFormat(bs, pos) then
      match Reading(bs, body, 2)
      case Outside => Outside
      case Inside(tag) =>
        if tag != 1 then Inside(NotPcm)
        else Fields(Reading(bs, body + 2, 2), Reading(bs, body + 4, 4), Reading(bs, body + 14, 2), body + size)
    else Inside(ChunkMove(bs, pos, f))
  }

  function CheckedFind(bs: seq<Byte>, pos: nat, f: Format): Checked<Option<(Format, nat, nat)>>
    decreases |bs| - pos
  {
    if pos + 8 > |bs| then Inside(Some((f, 0, 0)))
    else match CheckedMove(bs, pos, f)
      case Outside => Outside
      case Inside(NotPcm) => Inside(None)
      case Inside(Found(offset, size)) => Inside(Some((f, offset, size)))
      case Inside(Go(g, next)) => if next <= pos then Inside(None) else CheckedFind(bs, next, g)
  }

  predicate Accepted(f: Format, offset: nat) {
    offset != 0 && f.channels != 0 && f.bits == 16
  }

  /** The reader with every read checked. */
  function CheckedDecode(bs: seq<Byte>): Checked<Option<Wave>> {
    if !HasMagic(bs) then Inside(None)
    else match CheckedFind(bs, 12, NO_FORMAT)
      case Outside => Outside
      case Inside(None) => Inside(None)
      case Inside(Some(r)) =>
        if Accepted(r.0, r.1) && r.1 + 2 * (r.2 / 2) > |bs| then Outside else Inside(WaveAt(bs, r.0, r.1, r.2))
  }

  /** The last chunk that the reader looks at. */
  function LastChunk(bs: seq<Byte>, pos: nat, f: Format): nat
    decreases |bs| - pos
  {
    match ChunkMove(bs, pos, f)
    case Go(g, next) => if pos < next && next + 8 <= |bs| then LastChunk(bs, next, g) else pos
    case _ => pos
  }

  /** A format chunk has the bytes that are read of it: two, and sixteen when it is PCM. */
  predicate FormatWhole(bs: seq<Byte>, pos: nat) {
    IsFormat(bs, pos) ==> pos + 10 <= |bs| && (ReadU16(bs, pos + 8) == 1 ==> pos + 24 <= |bs|)
  }

  /** The data chunk, if its samples are copied, has them all. */
  predicate DataWhole(bs: seq<Byte>) {
    match FindData(bs, 12, NO_FORMAT)
    case None => true
    case Some(r) => Accepted(r.0, r.1) ==> r.1 + 2 * (r.2 / 2) <= |bs|
  }

  lemma CheckedMoveExactly(bs: seq<Byte>, pos: nat, f: Format)
    requires pos + 8 <= |bs|
    ensures CheckedMove(bs, pos, f) == if FormatWhole(bs, pos) then Inside(ChunkMove(bs, pos, f)) else Outside
  {}

  /** A format chunk that another chunk follows is whole. */
  lemma FollowedIsWhole(bs: seq<Byte>, pos: nat, f: Format, g: Format, next: nat)
    requires ChunkMove(bs, pos, f) == Go(g, next) && next + 8 <= |bs|
    ensures FormatWhole(bs, pos)
  {}

  lemma {:induction false} CheckedFindExactly(bs: seq<Byte>, pos: nat, f: Format)
    requires pos + 8 <= |bs|
    ensures CheckedFind(bs, pos, f)
            == if FormatWhole(bs, LastChunk(bs, pos, f)) then Inside(FindData(bs, pos, f)) else Outside
    decreases |bs| - pos
  {
    CheckedMoveExactly(bs, pos, f);
    var move := ChunkMove(bs, pos, f);
    if move.Go? && pos < move.next && move.next + 8 <= |bs| {
      FollowedIsWhole(bs, pos, f, move.format, move.next);
      CheckedFindExactly(bs, move.next, move.format);
    }
  }

  /** Every read stays inside the file exactly when the last chunk is no format chunk cut short and the data that is
      copied is not cut short; and then what is read is what the reader gives. */
  lemma ReadsInsideExactly(bs: seq<Byte>)
    ensures CheckedDecode(bs).Inside?
            <==> (HasMagic(bs) ==> FormatWhole(bs, LastChunk(bs, 12, NO_FORMAT)) && DataWhole(bs))
    ensures CheckedDecode(bs).Inside? ==> CheckedDecode(bs).value == Decoded(bs)
  {
    if HasMagic(bs) {
      CheckedFindExactly(bs, 12, NO_FORMAT);
    }
  }

  // ── A recording cut short ───────────────────────────────────────────────────

  lemma HoldsInPrefix(bs: seq<Byte>, n: nat, i: nat, part: seq<Byte>)
    requires n <= |bs| && Holds(bs, i, part) && i + |part| <= n
    ensures Holds(bs[..n], i, part)
  {}

  /** Where the parts of a recording lie. */
  lemma RecordingPlaces(bs: seq<Byte>, pcm: seq<Sample>, rate: nat)
    requires bs == WavOf(pcm, rate)
    ensures |bs| == 44 + 2 * |pcm|
    ensures Holds(bs, 0, Header((36 + 2 * |pcm|) % TWO32)) && Holds(bs, 12, Chunk(FMT, FormatBody(1, rate)))
    ensures Holds(bs, 36, DATA + U32(2 * |pcm|))
  {
    var a, c, e := Header((36 + 2 * |pcm|) % TWO32), Chunk(FMT, FormatBody(1, rate)), Chunk(DATA, PcmBytes(pcm));
    NoExtras(a, c, e);
    Located(a, [], c, [], e, 12, 36, 36);
    HoldsTwo(bs, 36, DATA + U32(2 * |pcm|), PcmBytes(pcm));
  }

  lemma DataHeaderRead(bs: seq<Byte>, pos: nat, size: nat, f: Format)
    requires Holds(bs, pos, DATA + U32(size)) && size < TWO32
    ensures ChunkMove(bs, pos, f) == Found(pos + 8, size) && !IsFormat(bs, pos)
  {
    HoldsTwo(bs, pos, DATA, U32(size));
    U32Back(bs, pos + 4, size);
    assert bs[pos + 0] == DATA[0] != FMT[0];
    assert !Holds(bs, pos, FMT);
  }

  /** What the reader finds in a recording of which at least the headers are there. */
  lemma CutFound(bs: seq<Byte>, rate: nat, fileSize: nat, size: nat)
    requires |bs| >= 44 && rate < TWO32 && size < TWO32
    requires Holds(bs, 0, Header(fileSize)) && Holds(bs, 12, Chunk(FMT, FormatBody(1, rate)))
    requires Holds(bs, 36, DATA + U32(size))
    ensures HasMagic(bs) && FindData(bs, 12, NO_FORMAT) == Some((Format(1, rate, 16), 44, size))
    ensures LastChunk(bs, 12, NO_FORMAT) == 36 && FormatWhole(bs, 36)
  {
    HeaderRead(bs, fileSize);
    FormatRead(bs, 12, 1, rate, NO_FORMAT);
    DataHeaderRead(bs, 36, size, Format(1, rate, 16));
    GoOn(bs, 12, NO_FORMAT, Format(1, rate, 16), 36);
    FoundHere(bs, 36, Format(1, rate, 16), 44, size);
    LastHere(bs, 36, Format(1, rate, 16));
    LastGoesOn(bs, 12, NO_FORMAT, Format(1, rate, 16), 36);
  }

  lemma LastHere(bs: seq<Byte>, pos: nat, f: Format)
    requires ChunkMove(bs, pos, f).Found?
    ensures LastChunk(bs, pos, f) == pos
  {}

  lemma LastGoesOn(bs: seq<Byte>, pos: nat, f: Format, g: Format, next: nat)
    requires ChunkMove(bs, pos, f) == Go(g, next) && pos < next && next + 8 <= |bs|
    ensures LastChunk(bs, pos, f) == LastChunk(bs, next, g)
  {}

  /** A recording cut short after `n` bytes of its samples is read beyond its end, exactly when any are missing. */
  lemma CutShortExactly(pcm: seq<Sample>, rate: nat, n: nat)
    requires 36 + 2 * |pcm| < TWO32 && rate < TWO32 && n <= 2 * |pcm|
    ensures |WavOf(pcm, rate)| == 44 + 2 * |pcm|
    ensures CheckedDecode(WavOf(pcm, rate)[..44 + n]).Inside? <==> n == 2 * |pcm|
  {
    var bs := WavOf(pcm, rate);
    RecordingPlaces(bs, pcm, rate);
    CutPlaces(bs, (36 + 2 * |pcm|) % TWO32, rate, 2 * |pcm|, n);
    CutRead(bs[..44 + n], (36 + 2 * |pcm|) % TWO32, rate, 2 * |pcm|, n);
  }

  lemma CutPlaces(bs: seq<Byte>, fileSize: nat, rate: nat, size: nat, n: nat)
    requires 44 + n <= |bs|
    requires Holds(bs, 0, Header(fileSize)) && Holds(bs, 12, Chunk(FMT, FormatBody(1, rate))) && Holds(bs, 36, DATA + U32(size))
    ensures var cut := bs[..44 + n];
            Holds(cut, 0, Header(fileSize)) && Holds(cut, 12, Chunk(FMT, FormatBody(1, rate))) && Holds(cut, 36, DATA + U32(size))
  {
    HoldsInPrefix(bs, 44 + n, 0, Header(fileSize));
    HoldsInPrefix(bs, 44 + n, 12, Chunk(FMT, FormatBody(1, rate)));
    HoldsInPrefix(bs, 44 + n, 36, DATA + U32(size));
  }

  lemma CutRead(cut: seq<Byte>, fileSize: nat, rate: nat, size: nat, n: nat)
    requires rate < TWO32 && size < TWO32 && size % 2 == 0 && n <= size && |cut| == 44 + n
    requires Holds(cut, 0, Header(fileSize)) && Holds(cut, 12, Chunk(FMT, FormatBody(1, rate))) && Holds(cut, 36, DATA + U32(size))
    ensures CheckedDecode(cut).Inside? <==> n == size
  {
    CutFound(cut, rate, fileSize, size);
    ReadsInsideExactly(cut);
  }
}
