/** desktop/tape.go and desktop/play_windows.go against the file format: what the fields
    of the header say, which samples are in the file, and that the reader follows the
    chunks of any WAV. */
module WavFormat {
  import opened GoText
  import opened WavTape

  // --------------------------------------------------------------------- the header

  /** binary.LittleEndian.Uint16. */
  function U16(b: seq<Byte>): nat
    requires |b| == 2
  {
    b[0] as int + 0x100 * b[1] as int
  }

  /** The four bytes are these ASCII letters. */
  predicate Says(b: seq<Byte>, tag: string) {
    |b| == 4 == |tag| && forall i | 0 <= i < 4 :: b[i] == tag[i] as int
  }

  lemma Tags()
    ensures Says(RIFF, "RIFF") && Says(WAVE, "WAVE") && Says(FMT, "fmt ") && Says(DATA, "data")
  {}

  /** The fields that do not depend on the length, in the 32 bytes from 8 on: a 16-byte
      format chunk - PCM, one channel, 16000 samples of 2 bytes a second, 16 bits - and the
      data chunk's tag. */
  lemma MiddleFields()
    ensures var m := Middle();
      && Says(m[0..4], "WAVE") && Says(m[4..8], "fmt ") && U32(m[8..12]) == 16
      && U16(m[12..14]) == 1 && U16(m[14..16]) == 1
      && U32(m[16..20]) == 16000 && U32(m[20..24]) == 32000
      && U16(m[24..26]) == 2 && U16(m[26..28]) == 16 && Says(m[28..32], "data")
  {
    var m := Middle();
    Tags();
    assert m[0..4] == WAVE && m[4..8] == FMT && m[28..32] == DATA;
    assert m[8..12] == [16, 0, 0, 0] && m[16..20] == [0x80, 0x3E, 0, 0] && m[20..24] == [0, 0x7D, 0, 0];
    assert m[12..14] == [1, 0] && m[14..16] == [1, 0] && m[24..26] == [2, 0] && m[26..28] == [16, 0];
  }

  /** The header of n bytes of samples, field by field at its place in the file. */
  lemma HeaderFields(n: nat)
    ensures var h := Header(n);
      && Says(h[0..4], "RIFF") && U32(h[4..8]) == (n + 36) % TWO32 && Says(h[8..12], "WAVE")
      && Says(h[12..16], "fmt ") && U32(h[16..20]) == 16 && U16(h[20..22]) == 1 && U16(h[22..24]) == 1
      && U32(h[24..28]) == 16000 && U32(h[28..32]) == 32000 && U16(h[32..34]) == 2 && U16(h[34..36]) == 16
      && Says(h[36..40], "data") && U32(h[40..44]) == n % TWO32
  {
    var h, m := Header(n), Middle();
    Tags();
    MiddleFields();
    U32OfLe32(n);
    U32OfLe32(36 + n);
    assert h == RIFF + Le32(36 + n) + m + Le32(n);
    assert h[0..4] == RIFF && h[4..8] == Le32(36 + n);
    MiddleAt(h, m);
  }

  lemma MiddleAt(h: seq<Byte>, m: seq<Byte>)
    requires |h| == HEADER_LEN && |m| == 32 && h[8..40] == m
    ensures h[8..12] == m[0..4] && h[12..16] == m[4..8] && h[16..20] == m[8..12] && h[20..22] == m[12..14]
    ensures h[22..24] == m[14..16] && h[24..28] == m[16..20] && h[28..32] == m[20..24] && h[32..34] == m[24..26]
    ensures h[34..36] == m[26..28] && h[36..40] == m[28..32]
  {}

  // -------------------------------------------------------------------- the samples

  /** All that was handed over, each piece without a last odd byte. */
  function Handed(ps: seq<Piece>): seq<Byte> {
    if ps == [] then []
    else
      var b := ps[|ps| - 1].pcm;
      Handed(ps[..|ps| - 1]) + if |b| % 2 == 0 then b else b[..|b| - 1]
  }

  lemma EvenIs(b: seq<Byte>)
    ensures Even(b) == if |b| % 2 == 0 then b else b[..|b| - 1]
  {
    if |b| % 2 == 0 { assert b[..|b|] == b; }
  }

  lemma {:induction false} RecordedAll(ps: seq<Piece>)
    requires forall i | 0 <= i < |ps| :: PcmWhole(ps[i])
    ensures Recorded(ps) == Handed(ps)
  {
    if ps != [] {
      RecordedAll(ps[..|ps| - 1]);
      EvenIs(ps[|ps| - 1].pcm);
    }
  }

  /** Without failures the file is the header and everything handed over. */
  lemma FileIsInput(ps: seq<Piece>)
    requires forall i | 0 <= i < |ps| :: Whole(ps[i])
    ensures After(ps).file == Header(|Handed(ps)|) + Handed(ps) && |Handed(ps)| == 2 * After(ps).samples
  {
    RecordingExact(ps);
    RecordedAll(ps);
  }

  /** An append whose samples do not all reach the disk leaves header, samples and count as
      they were. */
  lemma FailedAppendKeeps(ps: seq<Piece>, p: Piece)
    requires !PcmWhole(p)
    ensures var t, z, n := After(ps), After(ps + [p]), HEADER_LEN + |Recorded(ps)|;
      n <= |t.file| && n <= |z.file| && z.file[..n] == t.file[..n] && z.samples == t.samples
  {
    assert (ps + [p])[..|ps|] == ps;
    TapeInvariant(ps);
    var t := After(ps);
    BeyondOnly(t.file, HEADER_LEN + 2 * t.samples, Even(p.pcm)[..p.pcmBytes]);
  }

  lemma BeyondOnly(f: seq<Byte>, at: nat, b: seq<Byte>)
    requires at <= |f|
    ensures at <= |WriteAt(f, at, b)| && WriteAt(f, at, b)[..at] == f[..at]
  {}

  // --------------------------------------------------------------------- the reader

  /** A chunk: its tag and what is in it. */
  datatype Chunk = Chunk(id: seq<Byte>, body: seq<Byte>)

  function Padding(c: Chunk): seq<Byte> { if |c.body| % 2 == 1 then [0] else [] }

  /** Tag, length, content, and a byte to make it even. */
  function Laid(c: Chunk): seq<Byte> {
    c.id + Le32(|c.body|) + c.body + Padding(c)
  }

  function AllLaid(cs: seq<Chunk>): seq<Byte> {
    if cs == [] then [] else Laid(cs[0]) + AllLaid(cs[1..])
  }

  /** What follows the length field of the first of these chunks. */
  function Following(cs: seq<Chunk>): seq<Byte>
    requires cs != []
  {
    cs[0].body + Padding(cs[0]) + AllLaid(cs[1..])
  }

  /** The byte rate of the latest format chunk and the length of the latest data chunk,
      as soon as there are both. The rate is bytes 8 to 12 of what follows the chunk's
      length, whether they are the chunk's or not. */
  function Heard(cs: seq<Chunk>, rate: nat, len: nat): Option<Clip> {
    if cs == [] then None
    else
      var c := cs[0];
      var r := if c.id == FMT && |Following(cs)| >= 12 then U32(Following(cs)[8..12]) else rate;
      var d := if c.id == DATA then |c.body| else len;
      if r > 0 && d > 0 then Some(Clip(r, d)) else Heard(cs[1..], r, d)
  }

  lemma TailSlice(f: seq<Byte>, pre: seq<Byte>, t: seq<Byte>, a: nat, b: nat)
    requires f == pre + t && a <= b <= |t|
    ensures f[|pre| + a..|pre| + b] == t[a..b]
  {}

  lemma LaidOut(c: Chunk, t: seq<Byte>, rest: seq<Byte>)
    requires t == Laid(c) + rest && |c.id| == 4
    ensures |t| >= 8 + |c.body| && t[0..4] == c.id && t[4..8] == Le32(|c.body|)
    ensures |Laid(c)| == 8 + |c.body| + |c.body| % 2
  {
    FirstEight(c.id, Le32(|c.body|), c.body + Padding(c) + rest, t);
  }

  lemma FirstEight(a: seq<Byte>, b: seq<Byte>, more: seq<Byte>, t: seq<Byte>)
    requires |a| == 4 && |b| == 4 && t == a + b + more
    ensures t[0..4] == a && t[4..8] == b
  {}

  /** f has chunk c after pre, and rest behind it. */
  lemma ChunkAt(f: seq<Byte>, pre: seq<Byte>, c: Chunk, rest: seq<Byte>)
    requires f == pre + (Laid(c) + rest) && |c.id| == 4 && |f| < TWO32
    ensures var off := |pre|;
      && off + 8 + |c.body| <= |f| && f[off..off + 4] == c.id && U32(f[off + 4..off + 8]) == |c.body|
      && NextChunk(f, off) == |pre + Laid(c)|
  {
    var t := Laid(c) + rest;
    LaidOut(c, t, rest);
    TailSlice(f, pre, t, 0, 4);
    TailSlice(f, pre, t, 4, 8);
    U32OfLe32(|c.body|);
  }

  /** What one chunk tells the walk; t: all that follows its length field. */
  lemma ChunkRead(f: seq<Byte>, pre: seq<Byte>, c: Chunk, rest: seq<Byte>, t: seq<Byte>, rate: nat, len: nat)
    requires f == pre + (Laid(c) + rest) && |c.id| == 4 && |f| < TWO32 && t == c.body + Padding(c) + rest
    ensures |pre| + 8 <= |f|
    ensures ByteRateAt(f, |pre|, rate) == if c.id == FMT && |t| >= 12 then U32(t[8..12]) else rate
    ensures DataLenAt(f, |pre|, len) == if c.id == DATA then |c.body| else len
  {
    ChunkAt(f, pre, c, rest);
    var head := pre + (c.id + Le32(|c.body|));
    assert f == head + t;
    if |t| >= 12 { TailSlice(f, head, t, 8, 12); }
  }

  lemma {:induction false} WalksChunks(f: seq<Byte>, pre: seq<Byte>, cs: seq<Chunk>, rate: nat, len: nat)
    requires f == pre + AllLaid(cs) && |f| < TWO32 && forall i | 0 <= i < |cs| :: |cs[i].id| == 4
    ensures Scan(f, |pre|, rate, len) == Heard(cs, rate, len)
    decreases |cs|
  {
    if cs != [] {
      var c, rest := cs[0], AllLaid(cs[1..]);
      ChunkRead(f, pre, c, rest, Following(cs), rate, len);
      ChunkAt(f, pre, c, rest);
      assert f == (pre + Laid(c)) + rest;
      WalksChunks(f, pre + Laid(c), cs[1..], ByteRateAt(f, |pre|, rate), DataLenAt(f, |pre|, len));
    }
  }

  /** Any WAV up to 4 GiB, however many chunks of whatever kind and size it has: the walk
      hears exactly its chunks, odd-sized ones included. size: what the RIFF header claims,
      which is not read. */
  lemma ReadsAnyWav(size: nat, cs: seq<Chunk>)
    requires forall i | 0 <= i < |cs| :: |cs[i].id| == 4
    requires |AllLaid(cs)| < TWO32 - 12
    ensures Measure(RIFF + Le32(size) + WAVE + AllLaid(cs)) == Heard(cs, 0, 0)
  {
    var pre := RIFF + Le32(size) + WAVE;
    var f := pre + AllLaid(cs);
    assert f[..4] == RIFF && f[8..12] == WAVE;
    WalksChunks(f, pre, cs, 0, 0);
  }

  /** The four bytes the rate is read from are the format chunk's own exactly if it has
      twelve. */
  lemma RateIsOwn(cs: seq<Chunk>)
    requires cs != [] && |Following(cs)| >= 12
    ensures 12 <= |cs[0].body| <==> Following(cs)[..12] <= cs[0].body
    ensures |cs[0].body| >= 12 ==> Following(cs)[8..12] == cs[0].body[8..12]
  {}

  /** A shorter one is not refused: with an empty one in front of the samples, their first
      four bytes are taken for the byte rate. */
  lemma ShortFormatMisread(pcm: seq<Byte>)
    requires 4 <= |pcm| < TWO32 - 64 && U32(pcm[..4]) > 0
    ensures Heard([Chunk(FMT, []), Chunk(DATA, pcm)], 0, 0) == Some(Clip(U32(pcm[..4]), |pcm|))
  {
    var cs := [Chunk(FMT, []), Chunk(DATA, pcm)];
    assert cs[1..] == [cs[1]] && cs[1..][1..] == [];
    var d := DATA + Le32(|pcm|) + pcm + Padding(cs[1]);
    assert AllLaid(cs[1..]) == d + [] == d;
    assert Following(cs) == [] + [] + d == d;
    assert d[8..12] == pcm[..4];
    IdsDiffer();
  }
}
