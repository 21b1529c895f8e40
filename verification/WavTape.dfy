/** desktop/tape.go and desktop/play_windows.go: the WAV file a recording is kept in
    while it grows, and the reader that measures a WAV. */
module WavTape {
  import opened GoText

  type Byte = x: int | 0 <= x < 256

  const TWO32: nat := 0x1_0000_0000
  const TAPE_RATE: nat := 16000
  const HEADER_LEN: nat := 44

  const RIFF: seq<Byte> := [0x52, 0x49, 0x46, 0x46]
  const WAVE: seq<Byte> := [0x57, 0x41, 0x56, 0x45]
  const FMT: seq<Byte> := [0x66, 0x6D, 0x74, 0x20]
  const DATA: seq<Byte> := [0x64, 0x61, 0x74, 0x61]

  // ------------------------------------------------------------ little-endian

  function Low(n: nat): Byte { n % 256 }

  /** binary.LittleEndian.PutUint32 of uint32(n). */
  function Le32(n: nat): (b: seq<Byte>)
    ensures |b| == 4
  {
    var q1 := n / 0x100;
    var q2 := q1 / 0x100;
    [Low(n), Low(q1), Low(q2), Low(q2 / 0x100)]
  }

  function Le16(n: nat): (b: seq<Byte>)
    ensures |b| == 2
  {
    [Low(n), Low(n / 0x100)]
  }

  /** binary.LittleEndian.Uint32. */
  function U32(b: seq<Byte>): (n: nat)
    requires |b| == 4
    ensures n < TWO32
  {
    b[0] as int + 0x100 * b[1] as int + 0x1_0000 * b[2] as int + 0x100_0000 * b[3] as int
  }

  lemma Remainder(n: nat, q: nat, r: nat)
    requires n == TWO32 * q + r && r < TWO32
    ensures n % TWO32 == r
  {}

  lemma U32OfLe32(n: nat)
    ensures U32(Le32(n)) == n % TWO32
  {
    var q1 := n / 0x100;
    var q2 := q1 / 0x100;
    var q3 := q2 / 0x100;
    var q4 := q3 / 0x100;
    assert n == 0x100 * q1 + Low(n) as int && q1 == 0x100 * q2 + Low(q1) as int;
    assert q2 == 0x100 * q3 + Low(q2) as int && q3 == 0x100 * q4 + Low(q3) as int;
    Remainder(n, q4, U32(Le32(n)));
  }

  /** Low digits of the larger number under the high digits of the smaller one. */
  lemma MixedDigits(base: nat, nLow: nat, nHigh: nat, wLow: nat, wHigh: nat)
    requires base > 0 && nLow < base && wLow + base * wHigh <= nLow + base * nHigh
    ensures wHigh <= nHigh && nLow + base * wHigh <= nLow + base * nHigh
  {
    assert wHigh > nHigh ==> base * wHigh >= base * (nHigh + 1);
  }

  function Tear(after: seq<Byte>, was: seq<Byte>, j: nat): (m: seq<Byte>)
    requires |after| == 4 && |was| == 4 && j <= 4
    ensures |m| == 4 && forall i | 0 <= i < 4 :: m[i] == if i < j then after[i] else was[i]
  {
    after[..j] + was[j..]
  }

  lemma TornBytes(b: seq<Byte>, w: seq<Byte>, j: nat)
    requires |b| == 4 && |w| == 4 && U32(w) <= U32(b) && j <= 4
    ensures U32(Tear(b, w, j)) <= U32(b)
  {
    var m := Tear(b, w, j);
    assert m[0] == (if 0 < j then b[0] else w[0]) && m[1] == (if 1 < j then b[1] else w[1]);
    assert m[2] == (if 2 < j then b[2] else w[2]) && m[3] == (if 3 < j then b[3] else w[3]);
    MixedDigits(0x100, b[0], b[1] as int + 0x100 * b[2] as int + 0x1_0000 * b[3] as int,
      w[0], w[1] as int + 0x100 * w[2] as int + 0x1_0000 * w[3] as int);
    MixedDigits(0x1_0000, b[0] as int + 0x100 * b[1] as int, b[2] as int + 0x100 * b[3] as int,
      w[0] as int + 0x100 * w[1] as int, w[2] as int + 0x100 * w[3] as int);
    MixedDigits(0x100_0000, b[0] as int + 0x100 * b[1] as int + 0x1_0000 * b[2] as int, b[3],
      w[0] as int + 0x100 * w[1] as int + 0x1_0000 * w[2] as int, w[3]);
  }

  /** A write of the length field that stops after j bytes never leaves more than
      the new length there, if what was there did not exceed it. */
  lemma TornLength(was: seq<Byte>, n: nat, j: nat)
    requires |was| == 4 && U32(was) <= n && j <= 4
    ensures U32(Tear(Le32(n), was, j)) <= n
  {
    U32OfLe32(n);
    TornField(Le32(n), was, n, j);
  }

  lemma TornField(b: seq<Byte>, was: seq<Byte>, n: nat, j: nat)
    requires |b| == 4 && |was| == 4 && U32(b) == n % TWO32 && U32(was) <= n && j <= 4
    ensures U32(Tear(b, was, j)) <= n
  {
    if n < TWO32 { TornBytes(b, was, j); }
  }

  // --------------------------------------------------------------- the header

  /** The part of the header that never changes: bytes 8 to 40. */
  function Middle(): (b: seq<Byte>)
    ensures |b| == 32
  {
    WAVE + FMT + Le32(16) + Le16(1) + Le16(1) + Le32(TAPE_RATE) + Le32(TAPE_RATE * 2) + Le16(2) + Le16(16) + DATA
  }

  function Header(n: nat): (b: seq<Byte>)
    ensures |b| == HEADER_LEN
    ensures b[..4] == RIFF && b[8..40] == Middle() && b[40..44] == Le32(n)
  {
    RIFF + Le32(36 + n) + Middle() + Le32(n)
  }

  method Put(h: array<Byte>, at: nat, b: seq<Byte>)
    requires at + |b| <= h.Length
    modifies h
    ensures h[..] == old(h[..at]) + b + old(h[at + |b|..])
  {
    for i := 0 to |b|
      invariant forall k | 0 <= k < h.Length ::
        h[k] == if at <= k < at + i then b[k - at] else old(h[k])
    {
      h[at + i] := b[i];
    }
  }

  method WavHeader(n: nat) returns (h: array<Byte>)
    ensures fresh(h) && h.Length == HEADER_LEN && h[..] == Header(n)
  {
    h := new Byte[HEADER_LEN](_ => 0);
    Put(h, 0, RIFF);
    Put(h, 4, Le32(36 + n));
    ghost var front := RIFF + Le32(36 + n);
    assert h[..8] == front;
    FormatFields(h, front);
    Put(h, 40, Le32(n));
    assert h[..] == front + Middle() + Le32(n);
  }

  /** The lines of wavHeader that do not depend on the length. */
  method FormatFields(h: array<Byte>, ghost front: seq<Byte>)
    requires h.Length == HEADER_LEN && h[..8] == front
    modifies h
    ensures h[..40] == front + Middle()
  {
    Put(h, 8, WAVE + FMT);
    ghost var a := front + (WAVE + FMT);
    assert h[..16] == a;
    Put(h, 16, Le32(16));
    Put(h, 20, Le16(1));
    ghost var b := a + Le32(16) + Le16(1);
    assert h[..22] == b;
    Put(h, 22, Le16(1));
    Put(h, 24, Le32(TAPE_RATE));
    ghost var c := b + Le16(1) + Le32(TAPE_RATE);
    assert h[..28] == c;
    Put(h, 28, Le32(TAPE_RATE * 2));
    Put(h, 32, Le16(2));
    ghost var d := c + Le32(TAPE_RATE * 2) + Le16(2);
    assert h[..34] == d;
    Put(h, 34, Le16(16));
    Put(h, 36, DATA);
    assert h[..40] == d + Le16(16) + DATA;
    MiddlePieces(front);
  }

  lemma MiddlePieces(front: seq<Byte>)
    ensures front + (WAVE + FMT) + Le32(16) + Le16(1) + Le16(1) + Le32(TAPE_RATE)
      + Le32(TAPE_RATE * 2) + Le16(2) + Le16(16) + DATA == front + Middle()
  {}

  // ------------------------------------------------------------- the recording

  /** A write at an offset: what is there is overwritten, a gap reads as zeros. */
  function WriteAt(f: seq<Byte>, at: nat, b: seq<Byte>): (g: seq<Byte>)
    ensures |g| == if |f| > at + |b| then |f| else at + |b|
  {
    (if at <= |f| then f[..at] else f + seq(at - |f|, _ => 0)) + b + if at + |b| < |f| then f[at + |b|..] else []
  }

  datatype Tape = Tape(file: seq<Byte>, samples: nat)

  /** One TapeAppend: of the samples pcmBytes bytes reach the disk, of the header
      headerBytes; fewer than all is a failed write, or a crash. */
  datatype Piece = Piece(pcm: seq<Byte>, pcmBytes: nat, headerBytes: nat)

  function Even(pcm: seq<Byte>): (e: seq<Byte>)
    ensures |e| == |pcm| / 2 * 2
  {
    pcm[..|pcm| / 2 * 2]
  }

  predicate PcmWhole(p: Piece) { p.pcmBytes >= |Even(p.pcm)| }

  predicate Whole(p: Piece) { PcmWhole(p) && p.headerBytes >= HEADER_LEN }

  /** The samples written; counted if all of them were. */
  function PutPcm(t: Tape, p: Piece): (z: Tape)
    ensures |z.file| >= |t.file| && |z.file| >= HEADER_LEN
  {
    var e := Even(p.pcm);
    if PcmWhole(p) then Tape(WriteAt(t.file, HEADER_LEN + 2 * t.samples, e), t.samples + |e| / 2)
    else t.(file := WriteAt(t.file, HEADER_LEN + 2 * t.samples, e[..p.pcmBytes]))
  }

  function HeaderPart(n: nat, k: nat): (h: seq<Byte>)
    ensures |h| == if k >= HEADER_LEN then HEADER_LEN else k
  {
    if k >= HEADER_LEN then Header(n) else Header(n)[..k]
  }

  /** The first k bytes of the header brought up to date. */
  function PutHeader(t: Tape, k: nat): (z: Tape)
    ensures |t.file| >= HEADER_LEN ==> |z.file| == |t.file|
  {
    t.(file := WriteAt(t.file, 0, HeaderPart(2 * t.samples, k)))
  }

  function Append(t: Tape, p: Piece): (z: Tape)
    ensures |z.file| >= HEADER_LEN
  {
    var u := PutPcm(t, p);
    if PcmWhole(p) then PutHeader(u, p.headerBytes) else u
  }

  function After(ps: seq<Piece>): (t: Tape)
    ensures |t.file| >= HEADER_LEN
  {
    if ps == [] then Tape(Header(0), 0) else Append(After(ps[..|ps| - 1]), ps[|ps| - 1])
  }

  /** All the whole samples that reached the disk. */
  function Recorded(ps: seq<Piece>): seq<Byte> {
    if ps == [] then []
    else Recorded(ps[..|ps| - 1]) + if PcmWhole(ps[|ps| - 1]) then Even(ps[|ps| - 1].pcm) else []
  }

  /** The length the file claims for its data. */
  function Claim(f: seq<Byte>): nat
    requires |f| >= HEADER_LEN
  {
    U32(f[40..44])
  }

  predicate HeaderSane(f: seq<Byte>, n: nat) {
    |f| >= HEADER_LEN && f[..4] == RIFF && f[8..40] == Middle() && Claim(f) <= n
  }

  predicate Holds(t: Tape, data: seq<Byte>) {
    && |data| == 2 * t.samples && |t.file| >= HEADER_LEN + |data|
    && t.file[HEADER_LEN..HEADER_LEN + |data|] == data
    && HeaderSane(t.file, |data|)
  }

  lemma PcmWritten(t: Tape, data: seq<Byte>, b: seq<Byte>)
    requires Holds(t, data)
    ensures var f := WriteAt(t.file, HEADER_LEN + 2 * t.samples, b);
      |f| >= |t.file| && |f| >= HEADER_LEN + |data| + |b| && f[..HEADER_LEN] == t.file[..HEADER_LEN]
      && f[HEADER_LEN..HEADER_LEN + |data| + |b|] == data + b && HeaderSane(f, |data|)
      && (|t.file| <= HEADER_LEN + |data| + |b| ==> |f| == HEADER_LEN + |data| + |b|)
  {
    var f := WriteAt(t.file, HEADER_LEN + 2 * t.samples, b);
    assert f[..4] == t.file[..4] && f[8..40] == t.file[8..40] && f[40..44] == t.file[40..44];
  }

  /** The header written over the old one, whole or torn. */
  lemma HeaderWritten(f: seq<Byte>, n: nat, k: nat)
    requires HeaderSane(f, n)
    ensures var g := WriteAt(f, 0, HeaderPart(n, k));
      |g| == |f| && g[HEADER_LEN..] == f[HEADER_LEN..] && HeaderSane(g, n)
      && (k >= HEADER_LEN ==> g[..HEADER_LEN] == Header(n))
  {
    var m := if k > HEADER_LEN then HEADER_LEN else k;
    assert Header(n)[..HEADER_LEN] == Header(n);
    Overwritten(f, Header(n), n, m);
  }

  lemma Overwritten(f: seq<Byte>, h: seq<Byte>, n: nat, m: nat)
    requires HeaderSane(f, n) && m <= HEADER_LEN
    requires |h| == HEADER_LEN && h[..4] == RIFF && h[8..40] == Middle() && h[40..44] == Le32(n)
    ensures var g := WriteAt(f, 0, h[..m]);
      |g| == |f| && g[HEADER_LEN..] == f[HEADER_LEN..] && HeaderSane(g, n) && (m == HEADER_LEN ==> g[..HEADER_LEN] == h)
  {
    var g := WriteAt(f, 0, h[..m]);
    assert forall i | 0 <= i < |g| :: g[i] == if i < m then h[i] else f[i];
    Mixed(f, h, g, m, 0, 4);
    Mixed(f, h, g, m, 8, 40);
    var j := if m < 40 then 0 else m - 40;
    TornLength(f[40..44], n, j);
    var w, b := f[40..44], h[40..44];
    assert g[40..44] == Tear(b, w, j) by {
      assert forall i | 0 <= i < 4 :: g[40..44][i] == g[40 + i] && b[i] == h[40 + i] && w[i] == f[40 + i];
    }
  }

  /** A stretch that is the same in both stays. */
  lemma Mixed(f: seq<Byte>, h: seq<Byte>, g: seq<Byte>, m: nat, a: nat, b: nat)
    requires a <= b <= |h| <= |f| == |g| && f[a..b] == h[a..b]
    requires forall i | 0 <= i < |g| :: g[i] == if i < m && i < |h| then h[i] else f[i]
    ensures g[a..b] == f[a..b]
  {
    assert forall i | a <= i < b :: f[i] == f[a..b][i - a] && h[i] == h[a..b][i - a];
  }

  lemma TakeOfConcat(f: seq<Byte>, a: nat, data: seq<Byte>, e: seq<Byte>)
    requires a + |data| + |e| <= |f| && f[a..a + |data| + |e|] == data + e
    ensures f[a..a + |data|] == data
  {
    assert f[a..a + |data|] == f[a..a + |data| + |e|][..|data|];
  }

  lemma PcmHolds(t: Tape, data: seq<Byte>, p: Piece)
    requires Holds(t, data)
    ensures Holds(PutPcm(t, p), data + if PcmWhole(p) then Even(p.pcm) else [])
    ensures PcmWhole(p) && |t.file| == HEADER_LEN + |data| ==>
      |PutPcm(t, p).file| == HEADER_LEN + |data| + |Even(p.pcm)|
  {
    var e := if PcmWhole(p) then Even(p.pcm) else Even(p.pcm)[..p.pcmBytes];
    PcmWritten(t, data, e);
    if !PcmWhole(p) {
      assert data + [] == data;
      TakeOfConcat(PutPcm(t, p).file, HEADER_LEN, data, e);
    }
  }

  lemma HeaderHolds(t: Tape, data: seq<Byte>, k: nat)
    requires Holds(t, data)
    ensures Holds(PutHeader(t, k), data)
    ensures k >= HEADER_LEN ==> PutHeader(t, k).file[..HEADER_LEN] == Header(|data|)
  {
    HeaderWritten(t.file, |data|, k);
    SameTail(t.file, PutHeader(t, k).file, HEADER_LEN, HEADER_LEN + |data|);
  }

  lemma AppendHolds(t: Tape, data: seq<Byte>, p: Piece)
    requires Holds(t, data)
    ensures Holds(Append(t, p), data + if PcmWhole(p) then Even(p.pcm) else [])
    ensures Whole(p) ==> Append(t, p).file[..HEADER_LEN] == Header(|data| + |Even(p.pcm)|)
    ensures Whole(p) && |t.file| == HEADER_LEN + |data| ==>
      |Append(t, p).file| == HEADER_LEN + |data| + |Even(p.pcm)|
  {
    PcmHolds(t, data, p);
    var u, more := PutPcm(t, p), data + if PcmWhole(p) then Even(p.pcm) else [];
    assert Holds(u, more);
    if PcmWhole(p) {
      assert |more| == |data| + |Even(p.pcm)|;
      HeaderHolds(u, more, p.headerBytes);
    }
  }

  lemma SameTail(f: seq<Byte>, g: seq<Byte>, a: nat, b: nat)
    requires a <= b <= |f| == |g| && f[a..] == g[a..]
    ensures f[a..b] == g[a..b]
  {
    assert f[a..b] == f[a..][..b - a] && g[a..b] == g[a..][..b - a];
  }

  /** After any pieces, wherever a write failed or the machine stopped: the file
      holds every recorded sample in order, its header is a WAV header, and the
      length it claims never exceeds the data present. */
  lemma {:induction false} TapeInvariant(ps: seq<Piece>)
    ensures Holds(After(ps), Recorded(ps))
    ensures Claim(After(ps).file) <= |After(ps).file| - HEADER_LEN
  {
    if ps == [] {
      U32OfLe32(0);
    } else {
      TapeInvariant(ps[..|ps| - 1]);
      AppendHolds(After(ps[..|ps| - 1]), Recorded(ps[..|ps| - 1]), ps[|ps| - 1]);
    }
  }

  lemma Assembled(f: seq<Byte>, h: seq<Byte>, r: seq<Byte>)
    requires |h| == HEADER_LEN && |f| >= HEADER_LEN + |r|
    requires f[..HEADER_LEN] == h && f[HEADER_LEN..HEADER_LEN + |r|] == r
    ensures f[..HEADER_LEN + |r|] == h + r
  {
    assert f[..HEADER_LEN + |r|] == f[..HEADER_LEN] + f[HEADER_LEN..HEADER_LEN + |r|];
  }

  lemma RepairStep(t: Tape, data: seq<Byte>, p: Piece)
    requires Holds(t, data) && Whole(p)
    ensures var r, f := data + Even(p.pcm), Append(t, p).file;
      |f| >= HEADER_LEN + |r| && f[..HEADER_LEN + |r|] == Header(|r|) + r
  {
    AppendHolds(t, data, p);
    RepairedBy(Append(t, p), data + Even(p.pcm));
  }

  lemma RepairedBy(z: Tape, r: seq<Byte>)
    requires Holds(z, r) && z.file[..HEADER_LEN] == Header(|r|)
    ensures |z.file| >= HEADER_LEN + |r| && z.file[..HEADER_LEN + |r|] == Header(|r|) + r
  {
    Assembled(z.file, Header(|r|), r);
  }

  /** A whole append puts everything right, whatever failed before it. */
  lemma WholeAppendRepairs(ps: seq<Piece>)
    requires ps != [] && Whole(ps[|ps| - 1])
    ensures var r, f := Recorded(ps), After(ps).file;
      |f| >= HEADER_LEN + |r| && f[..HEADER_LEN + |r|] == Header(|r|) + r
  {
    TapeInvariant(ps[..|ps| - 1]);
    RepairStep(After(ps[..|ps| - 1]), Recorded(ps[..|ps| - 1]), ps[|ps| - 1]);
  }

  /** Where nothing failed the file is the header for its samples and all of them. */
  lemma {:induction false} RecordingExact(ps: seq<Piece>)
    requires forall i | 0 <= i < |ps| :: Whole(ps[i])
    ensures After(ps).file == Header(2 * After(ps).samples) + Recorded(ps)
    ensures |Recorded(ps)| == 2 * After(ps).samples
  {
    if ps == [] {
      assert Header(0) + [] == Header(0);
    } else {
      var f := ps[..|ps| - 1];
      RecordingExact(f);
      TapeInvariant(f);
      AppendHolds(After(f), Recorded(f), ps[|ps| - 1]);
      WholeAppendRepairs(ps);
      TapeInvariant(ps);
      var g := After(ps).file;
      assert g[..|g|] == g;
    }
  }

  // ---------------------------------------------------------------- the reader

  /** What wavDuration divides: bytes of data and bytes per second. */
  datatype Clip = Clip(byteRate: nat, dataLen: nat) {
    function Seconds(): real
      requires byteRate > 0
    {
      dataLen as real / byteRate as real
    }
  }

  function ByteRateAt(wav: seq<Byte>, off: nat, rate: nat): nat
    requires off + 8 <= |wav|
  {
    if wav[off..off + 4] == FMT && off + 20 <= |wav| then U32(wav[off + 16..off + 20]) else rate
  }

  /** rest is computed in 32 bits. */
  function DataLenAt(wav: seq<Byte>, off: nat, len: nat): nat
    requires off + 8 <= |wav|
  {
    if wav[off..off + 4] == DATA
    then
      var size, rest := U32(wav[off + 4..off + 8]), (|wav| - off - 8) % TWO32;
      if size > rest then rest else size
    else len
  }

  function NextChunk(wav: seq<Byte>, off: nat): (next: nat)
    requires off + 8 <= |wav|
    ensures next > off
  {
    var size := U32(wav[off + 4..off + 8]);
    off + 8 + size + size % 2
  }

  /** The chunk walk from off. */
  function Scan(wav: seq<Byte>, off: nat, rate: nat, len: nat): Option<Clip>
    decreases |wav| - off
  {
    if off + 8 > |wav| then None
    else
      var r, d := ByteRateAt(wav, off, rate), DataLenAt(wav, off, len);
      if r > 0 && d > 0 then Some(Clip(r, d)) else Scan(wav, NextChunk(wav, off), r, d)
  }

  function Measure(wav: seq<Byte>): Option<Clip> {
    if |wav| < 12 || wav[..4] != RIFF || wav[8..12] != WAVE then None else Scan(wav, 12, 0, 0)
  }

  lemma IdsDiffer()
    ensures FMT != DATA
  {
    assert FMT[0] != DATA[0];
  }

  /** Any bytes at all: it stops, and never looks past the end. */
  method WavDuration(wav: seq<Byte>) returns (c: Option<Clip>)
    ensures c == Measure(wav)
    ensures c.Some? ==> 0 < c.value.byteRate < TWO32 && 0 < c.value.dataLen <= |wav| - 20
  {
    if |wav| < 12 || wav[..4] != RIFF || wav[8..12] != WAVE {
      return None;
    }
    var byteRate: nat, dataLen: nat := 0, 0;
    var off: nat := 12;
    while off + 8 <= |wav|
      invariant off >= 12 && byteRate < TWO32 && (dataLen > 0 ==> dataLen <= |wav| - 20)
      invariant Scan(wav, off, byteRate, dataLen) == Measure(wav)
      decreases |wav| - off
    {
      byteRate, dataLen := ReadChunk(wav, off, byteRate, dataLen);
      if byteRate > 0 && dataLen > 0 {
        return Some(Clip(byteRate, dataLen));
      }
      off := NextChunk(wav, off);
    }
    return None;
  }

  /** The switch in the walk: the chunk at off. */
  method ReadChunk(wav: seq<Byte>, off: nat, rate: nat, len: nat) returns (byteRate: nat, dataLen: nat)
    requires off + 8 <= |wav|
    ensures byteRate == ByteRateAt(wav, off, rate) && dataLen == DataLenAt(wav, off, len)
    ensures (rate < TWO32 ==> byteRate < TWO32) && (dataLen == len || dataLen <= |wav| - off - 8)
  {
    byteRate, dataLen := rate, len;
    var id := wav[off..off + 4];
    var size := U32(wav[off + 4..off + 8]);
    var body := off + 8;
    if id == FMT {
      IdsDiffer();
      if body + 12 <= |wav| {
        byteRate := U32(wav[body + 8..body + 12]);
      }
    } else if id == DATA {
      dataLen := size;
      var rest := (|wav| - body) % TWO32;
      if dataLen > rest {
        dataLen := rest;
      }
    }
  }

  /** The walk over a tape's header: the format chunk, and at 36 the data. */
  lemma HeaderChunks(f: seq<Byte>)
    requires |f| >= HEADER_LEN && f[..4] == RIFF && f[8..40] == Middle()
    ensures f[8..12] == WAVE && f[36..40] == DATA && Scan(f, 12, 0, 0) == Scan(f, 36, 2 * TAPE_RATE, 0)
  {
    var m := Middle();
    Slice(f, m, 8, 12, 0);
    assert m[0..4] == WAVE;
    Slice(f, m, 12, 16, 4);
    assert m[4..8] == FMT;
    Slice(f, m, 16, 20, 8);
    assert m[8..12] == [16, 0, 0, 0];
    Slice(f, m, 28, 32, 20);
    assert m[20..24] == [0, 0x7D, 0, 0];
    Slice(f, m, 36, 40, 28);
    assert m[28..32] == DATA;
    IdsDiffer();
    assert ByteRateAt(f, 12, 0) == 32000 && DataLenAt(f, 12, 0) == 0 && NextChunk(f, 12) == 36;
  }

  lemma HeaderScanned(f: seq<Byte>)
    requires |f| >= HEADER_LEN && f[..4] == RIFF && f[8..40] == Middle()
    ensures var rest := (|f| - HEADER_LEN) % TWO32;
      var d := if Claim(f) > rest then rest else Claim(f);
      d > 0 ==> Measure(f) == Some(Clip(2 * TAPE_RATE, d))
  {
    HeaderChunks(f);
    IdsDiffer();
    assert ByteRateAt(f, 36, 2 * TAPE_RATE) == 2 * TAPE_RATE;
  }

  lemma SubSlice(f: seq<Byte>, lo: nat, hi: nat, k: nat, n: nat)
    requires lo + k + n <= hi <= |f|
    ensures f[lo + k..lo + k + n] == f[lo..hi][k..k + n]
  {
    var x, y := f[lo + k..lo + k + n], f[lo..hi][k..k + n];
    forall i | 0 <= i < n ensures x[i] == y[i] { assert y[i] == f[lo..hi][k + i]; }
  }

  lemma Slice(f: seq<Byte>, m: seq<Byte>, a: nat, b: nat, k: nat)
    requires |f| >= HEADER_LEN && f[8..40] == m && 8 <= a <= b <= 40 && k == a - 8
    ensures f[a..b] == m[k..k + b - a]
  {
    SubSlice(f, 8, 40, k, b - a);
  }

  /** The reader understands a finished recording of n bytes exactly when n fits the
      header's field and is not 0. */
  lemma ReaderAgrees(pcm: seq<Byte>)
    ensures Measure(Header(|pcm|) + pcm) == Some(Clip(2 * TAPE_RATE, |pcm|)) <==> 0 < |pcm| < TWO32
  {
    HeadOf(pcm);
    U32OfLe32(|pcm|);
    ReadsLength(Header(|pcm|) + pcm, |pcm|);
  }

  /** A recording without a sample is no WAV to the reader. */
  lemma EmptyTapeUnreadable()
    ensures Measure(Header(0)) == None
  {
    HeadOf([]);
    assert Header(0) + [] == Header(0);
    U32OfLe32(0);
    NothingToRead(Header(0));
  }

  lemma NothingToRead(f: seq<Byte>)
    requires |f| == HEADER_LEN && f[..4] == RIFF && f[8..40] == Middle() && Claim(f) == 0
    ensures Measure(f) == None
  {
    HeaderChunks(f);
    assert DataLenAt(f, 36, 0) == 0 && NextChunk(f, 36) == 44;
  }

  lemma ReadsLength(f: seq<Byte>, n: nat)
    requires |f| == HEADER_LEN + n && f[..4] == RIFF && f[8..40] == Middle() && Claim(f) == n % TWO32
    ensures Measure(f) == Some(Clip(2 * TAPE_RATE, n)) <==> 0 < n < TWO32
  {
    HeaderScanned(f);
    MeasureBounds(f);
  }

  lemma HeadOf(pcm: seq<Byte>)
    ensures var f := Header(|pcm|) + pcm;
      f[..4] == RIFF && f[8..40] == Middle() && f[40..44] == Le32(|pcm|)
  {
    var f, h := Header(|pcm|) + pcm, Header(|pcm|);
    assert f[..4] == h[..4] && f[8..40] == h[8..40] && f[40..44] == h[40..44];
  }

  /** No length reported reaches 2^32 or is 0. */
  lemma MeasureBounds(wav: seq<Byte>)
    ensures Measure(wav).Some? ==> 0 < Measure(wav).value.dataLen < TWO32
  {
    ScanBounds(wav, 12, 0, 0);
  }

  lemma {:induction false} ScanBounds(wav: seq<Byte>, off: nat, rate: nat, len: nat)
    requires len < TWO32
    ensures var c := Scan(wav, off, rate, len); c.Some? ==> 0 < c.value.dataLen < TWO32
    decreases |wav| - off
  {
    if off + 8 <= |wav| {
      ScanBounds(wav, NextChunk(wav, off), ByteRateAt(wav, off, rate), DataLenAt(wav, off, len));
    }
  }

  lemma SliceOfSlice(f: seq<Byte>, a: nat, n: nat, c: nat)
    requires c <= n && a + n <= |f|
    ensures f[a..a + c] == f[a..a + n][..c]
  {}

  lemma MeasuresClaim(f: seq<Byte>)
    requires |f| >= HEADER_LEN && f[..4] == RIFF && f[8..40] == Middle()
    requires 0 < Claim(f) <= |f| - HEADER_LEN < TWO32
    ensures Measure(f) == Some(Clip(2 * TAPE_RATE, Claim(f)))
  {
    HeaderScanned(f);
  }

  lemma ClaimIsRecorded(t: Tape, data: seq<Byte>)
    requires Holds(t, data) && 0 < Claim(t.file) && |t.file| < HEADER_LEN + TWO32
    ensures var c := Claim(t.file);
      Measure(t.file) == Some(Clip(2 * TAPE_RATE, c)) && c <= |data|
      && t.file[HEADER_LEN..HEADER_LEN + c] == data[..c]
  {
    MeasuresClaim(t.file);
    SliceOfSlice(t.file, HEADER_LEN, |data|, Claim(t.file));
  }

  /** A recording cut off at any moment plays: what its header claims is what the
      reader measures, and every byte of it was recorded. */
  lemma CutOffStillPlays(ps: seq<Piece>)
    requires 0 < Claim(After(ps).file) && |After(ps).file| < HEADER_LEN + TWO32
    ensures var f, c := After(ps).file, Claim(After(ps).file);
      Measure(f) == Some(Clip(2 * TAPE_RATE, c))
      && c <= |Recorded(ps)| <= |f| - HEADER_LEN && f[HEADER_LEN..HEADER_LEN + c] == Recorded(ps)[..c]
  {
    TapeInvariant(ps);
    ClaimIsRecorded(After(ps), Recorded(ps));
  }

  // -------------------------------------------------------------- the program

  class TapeState {
    var open: bool
    var file: seq<Byte>
    var samples: nat

    ghost function View(): Tape
      reads this
    {
      Tape(file, samples)
    }

    constructor ()
      ensures !open
    {
      open, file, samples := false, [], 0;
    }

    method TapeStart()
      modifies this
      ensures open && View() == After([])
    {
      open := false;
      var h := WavHeader(0);
      file := h[..];
      samples := 0;
      open := true;
    }

    /** pcmBytes, headerBytes: how much of each write gets done. */
    method TapeAppend(pcm: seq<Byte>, pcmBytes: nat, headerBytes: nat) returns (ok: bool)
      modifies this`file, this`samples
      ensures ok <==> open && Whole(Piece(pcm, pcmBytes, headerBytes))
      ensures View() == if open then Append(old(View()), Piece(pcm, pcmBytes, headerBytes)) else old(View())
    {
      if !open {
        return false;
      }
      ok := AppendPcm(pcm, pcmBytes, headerBytes);
      if ok {
        ok := UpdateHeader(headerBytes);
      }
    }

    /** The even part of pcm, after the samples so far. */
    method AppendPcm(pcm: seq<Byte>, pcmBytes: nat, ghost headerBytes: nat) returns (ok: bool)
      modifies this`file, this`samples
      ensures ok <==> PcmWhole(Piece(pcm, pcmBytes, headerBytes))
      ensures View() == PutPcm(old(View()), Piece(pcm, pcmBytes, headerBytes))
    {
      var even := pcm[..|pcm| / 2 * 2];
      var at := HEADER_LEN + 2 * samples;
      if pcmBytes < |even| {
        file := WriteAt(file, at, even[..pcmBytes]);
        return false;
      }
      file := WriteAt(file, at, even);
      samples := samples + |even| / 2;
      ok := true;
    }

    method UpdateHeader(headerBytes: nat) returns (ok: bool)
      modifies this`file
      ensures ok <==> headerBytes >= HEADER_LEN
      ensures View() == PutHeader(old(View()), headerBytes)
    {
      var h := WavHeader(2 * samples);
      if headerBytes < HEADER_LEN {
        file := WriteAt(file, 0, h[..headerBytes]);
        return false;
      }
      file := WriteAt(file, 0, h[..]);
      ok := true;
    }

    method TapeStop() returns (seconds: Option<real>)
      modifies this`open
      ensures !open
      ensures seconds == if old(open) then Some(samples as real / TAPE_RATE as real) else None
    {
      if !open {
        return None;
      }
      open := false;
      seconds := Some(samples as real / TAPE_RATE as real);
    }
  }

  /** What TapeStop reports is how long the reader says the file plays. */
  lemma SecondsAgree(ps: seq<Piece>)
    requires forall i | 0 <= i < |ps| :: Whole(ps[i])
    ensures var t, c := After(ps), Measure(After(ps).file);
      0 < 2 * t.samples < TWO32 ==>
        c.Some? && c.value.byteRate > 0 && c.value.Seconds() == t.samples as real / TAPE_RATE as real
  {
    RecordingExact(ps);
    var t := After(ps);
    if 0 < 2 * t.samples < TWO32 { SecondsOf(t.file, t.samples, Recorded(ps)); }
  }

  lemma SecondsOf(f: seq<Byte>, s: nat, r: seq<Byte>)
    requires f == Header(2 * s) + r && |r| == 2 * s && 0 < 2 * s < TWO32
    ensures var c := Measure(f);
      c.Some? && c.value.byteRate > 0 && c.value.Seconds() == s as real / TAPE_RATE as real
  {
    ReaderAgrees(r);
    HalfRate(s, |r|);
  }

  lemma HalfRate(s: nat, n: nat)
    requires n == 2 * s
    ensures Clip(2 * TAPE_RATE, n).Seconds() == s as real / TAPE_RATE as real
  {}
}
