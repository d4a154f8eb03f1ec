/**
 * WavUtility.FromAudioClip: a 16-bit PCM RIFF/WAVE file written through a
 * BinaryWriter over a MemoryStream: a 44-byte header with two size fields
 * left at zero, the samples as little-endian 16-bit words, and then the two
 * size fields back-patched by seeking.
 *
 * The samples arrive already quantised to 16-bit integers; the float to
 * short conversion is not part of this model.
 */
module Wav {

  newtype byte = x: int | 0 <= x < 0x100
  newtype int16 = x: int | -0x8000 <= x < 0x8000
  newtype int32 = x: int | -0x8000_0000 <= x < 0x8000_0000

  const TwoTo16 := 0x1_0000
  const TwoTo32 := 0x1_0000_0000

  /**
   * The two bytes BinaryWriter writes for a ushort or short: the low 16 bits
   * of `v` (Dafny's `%` is Euclidean, so a negative value gives its two's
   * complement), least significant byte first.
   */
  function LE16(v: int): (b: seq<byte>)
    ensures |b| == 2
  {
    var u := v % TwoTo16;
    [(u % 0x100) as byte, (u / 0x100) as byte]
  }

  /** The four bytes BinaryWriter writes for an int: the low 32 bits of `v`, least significant byte first. */
  function LE32(v: int): (b: seq<byte>)
    ensures |b| == 4
  {
    var u := v % TwoTo32;
    LE16(u % TwoTo16) + LE16(u / TwoTo16)
  }

  /** Reading back an unsigned little-endian 16-bit field. */
  function U16At(b: seq<byte>, off: nat): nat
    requires off + 2 <= |b|
  {
    b[off] as nat + 0x100 * b[off + 1] as nat
  }

  /** Reading back an unsigned little-endian 32-bit field. */
  function U32At(b: seq<byte>, off: nat): nat
    requires off + 4 <= |b|
  {
    U16At(b, off) + TwoTo16 * U16At(b, off + 2)
  }

  /** Reading back a signed little-endian 16-bit sample. */
  function I16At(b: seq<byte>, off: nat): int
    requires off + 2 <= |b|
  {
    var u := U16At(b, off);
    if u >= 0x8000 then u - TwoTo16 else u
  }

  lemma LE16RoundTrip(v: int)
    ensures U16At(LE16(v), 0) == v % TwoTo16
  {
    var u := v % TwoTo16;
    assert u == (u % 0x100) + 0x100 * (u / 0x100);
  }

  lemma {:induction false} LE32RoundTrip(v: int)
    ensures U32At(LE32(v), 0) == v % TwoTo32
  {
    var u := v % TwoTo32;
    LE16RoundTrip(u % TwoTo16);
    LE16RoundTrip(u / TwoTo16);
    assert LE32(v)[0..2] == LE16(u % TwoTo16);
    assert LE32(v)[2..4] == LE16(u / TwoTo16);
    assert U16At(LE32(v), 2) == U16At(LE16(u / TwoTo16), 0);
  }

  /** A 16-bit sample survives encoding and decoding unchanged. */
  lemma SampleRoundTrip(s: int16)
    ensures I16At(LE16(s as int), 0) == s as int
  {
    LE16RoundTrip(s as int);
  }

  /** The four chunk tags as the integers the source writes with `Write(int)`. */
  const RiffId: int := 0x46464952
  const WaveId: int := 0x45564157
  const FmtId: int := 0x20746d66
  const DataId: int := 0x61746164

  /** The ASCII bytes of a four-character chunk tag. */
  function Tag(s: string): (b: seq<byte>)
    requires |s| == 4 && forall i :: 0 <= i < 4 ==> s[i] as int < 0x100
    ensures |b| == 4
  {
    [s[0] as int as byte, s[1] as int as byte, s[2] as int as byte, s[3] as int as byte]
  }

  /** The integer constants the source writes are exactly the four chunk tags. */
  lemma TagConstants()
    ensures LE32(RiffId) == Tag("RIFF")
    ensures LE32(WaveId) == Tag("WAVE")
    ensures LE32(FmtId) == Tag("fmt ")
    ensures LE32(DataId) == Tag("data")
  {
  }

  /** The body of the "fmt " chunk: bytes 20 to 36 of the file. */
  function FormatFields(channels: int32, frequency: int32): (b: seq<byte>)
    ensures |b| == 16
  {
    LE16(1)                                            // AudioFormat: PCM
    + LE16(channels as int)                            // NumChannels
    + LE32(frequency as int)                           // SampleRate
    + LE32(frequency as int * channels as int * 2)     // ByteRate
    + LE16(channels as int * 2)                        // BlockAlign
    + LE16(16)                                         // BitsPerSample
  }

  /** Bytes 8 to 40: the WAVE form type, the whole "fmt " chunk and the "data" tag. */
  function FormatChunk(channels: int32, frequency: int32): (b: seq<byte>)
    ensures |b| == 32
  {
    LE32(WaveId)                                       // "WAVE"
    + LE32(FmtId)                                      // "fmt "
    + LE32(16)                                         // Subchunk1Size
    + FormatFields(channels, frequency)
    + LE32(DataId)                                     // "data"
  }

  /** The sample words, little-endian, in order. */
  function SampleBytes(samples: seq<int16>): (b: seq<byte>)
    ensures |b| == 2 * |samples|
  {
    if samples == [] then [] else LE16(samples[0] as int) + SampleBytes(samples[1..])
  }

  /** The 44-byte header with the given ChunkSize and Subchunk2Size fields. */
  function Header(channels: int32, frequency: int32, chunkSize: int, dataSize: int): (h: seq<byte>)
    ensures |h| == 44
  {
    LE32(RiffId)                                       // "RIFF"
    + LE32(chunkSize)                                  // ChunkSize
    + FormatChunk(channels, frequency)
    + LE32(dataSize)                                   // Subchunk2Size
  }

  /** The WAV file as laid out once both size fields hold their final values. */
  function WavFile(channels: int32, frequency: int32, samples: seq<int16>): seq<byte>
  {
    var data := SampleBytes(samples);
    Header(channels, frequency, 36 + |data|, |data|) + data
  }

  lemma {:induction false} SampleBytesAt(samples: seq<int16>, i: nat)
    requires i < |samples|
    ensures SampleBytes(samples)[2 * i .. 2 * i + 2] == LE16(samples[i] as int)
    decreases i
  {
    if i > 0 {
      SampleBytesAt(samples[1..], i - 1);
      assert SampleBytes(samples) == LE16(samples[0] as int) + SampleBytes(samples[1..]);
      assert SampleBytes(samples)[2 * i .. 2 * i + 2] == SampleBytes(samples[1..])[2 * (i - 1) .. 2 * (i - 1) + 2];
    }
  }

  lemma {:induction false} SampleBytesSnoc(samples: seq<int16>, s: int16)
    ensures SampleBytes(samples + [s]) == SampleBytes(samples) + LE16(s as int)
    decreases |samples|
  {
    if samples == [] {
      assert [] + [s] == [s];
    } else {
      assert (samples + [s])[1..] == samples[1..] + [s];
      SampleBytesSnoc(samples[1..], s);
    }
  }

  /** The header is 44 bytes and each sample takes two more. */
  lemma WavLength(channels: int32, frequency: int32, samples: seq<int16>)
    ensures |WavFile(channels, frequency, samples)| == 44 + 2 * |samples|
  {
  }

  /** ChunkSize at offset 4 is the file length minus 8, Subchunk2Size at offset 40 the length minus 44. */
  lemma SizeFields(channels: int32, frequency: int32, samples: seq<int16>)
    ensures var w := WavFile(channels, frequency, samples);
      && |w| == 44 + 2 * |samples|
      && U32At(w, 4) == (|w| - 8) % TwoTo32
      && U32At(w, 40) == (|w| - 44) % TwoTo32
  {
    var w := WavFile(channels, frequency, samples);
    var n := 2 * |samples|;
    WavFileLayout(channels, frequency, samples);
    LE32RoundTrip(36 + n);
    LE32RoundTrip(n);
    U32InSlice(w, 4, 8, 0);
    U32InSlice(w, 40, 44, 0);
  }

  /** Reading a field through a slice is reading it in place. */
  lemma U16InSlice(b: seq<byte>, lo: nat, hi: nat, off: nat)
    requires lo <= hi <= |b| && off + 2 <= hi - lo
    ensures U16At(b[lo..hi], off) == U16At(b, lo + off)
  {
    assert b[lo..hi][off] == b[lo + off] && b[lo..hi][off + 1] == b[lo + off + 1];
  }

  lemma U32InSlice(b: seq<byte>, lo: nat, hi: nat, off: nat)
    requires lo <= hi <= |b| && off + 4 <= hi - lo
    ensures U32At(b[lo..hi], off) == U32At(b, lo + off)
  {
    U16InSlice(b, lo, hi, off);
    U16InSlice(b, lo, hi, off + 2);
  }

  /** The six fields of the "fmt " chunk body read back as written. */
  lemma FormatFieldsRead(channels: int32, frequency: int32)
    ensures var b := FormatFields(channels, frequency);
      && U16At(b, 0) == 1                                          // AudioFormat
      && U16At(b, 2) == channels as int % TwoTo16                  // NumChannels
      && U32At(b, 4) == frequency as int % TwoTo32                 // SampleRate
      && U32At(b, 8) == (frequency as int * channels as int * 2) % TwoTo32    // ByteRate
      && U16At(b, 12) == (channels as int * 2) % TwoTo16           // BlockAlign
      && U16At(b, 14) == 16                                        // BitsPerSample
  {
    var b := FormatFields(channels, frequency);
    LE16RoundTrip(1);
    LE16RoundTrip(channels as int);
    LE32RoundTrip(frequency as int);
    LE32RoundTrip(frequency as int * channels as int * 2);
    LE16RoundTrip(channels as int * 2);
    LE16RoundTrip(16);
    assert b[0..2] == LE16(1);
    assert b[2..4] == LE16(channels as int);
    assert b[4..8] == LE32(frequency as int);
    assert b[8..12] == LE32(frequency as int * channels as int * 2);
    assert b[12..14] == LE16(channels as int * 2);
    assert b[14..16] == LE16(16);
    U16InSlice(b, 0, 2, 0);
    U16InSlice(b, 2, 4, 0);
    U32InSlice(b, 4, 8, 0);
    U32InSlice(b, 8, 12, 0);
    U16InSlice(b, 12, 14, 0);
    U16InSlice(b, 14, 16, 0);
  }

  /** Where each piece of bytes 8 to 40 sits. */
  lemma FormatChunkLayout(channels: int32, frequency: int32)
    ensures var c := FormatChunk(channels, frequency);
      && c[0..4] == LE32(WaveId) && c[4..8] == LE32(FmtId) && c[8..12] == LE32(16)
      && c[12..28] == FormatFields(channels, frequency) && c[28..32] == LE32(DataId)
  {
  }

  /** Where each piece of the header sits. */
  lemma HeaderLayout(channels: int32, frequency: int32, chunkSize: int, dataSize: int)
    ensures var h := Header(channels, frequency, chunkSize, dataSize);
      && h[0..4] == LE32(RiffId) && h[4..8] == LE32(chunkSize)
      && h[8..40] == FormatChunk(channels, frequency) && h[40..44] == LE32(dataSize)
  {
  }

  /** Where each piece of the file sits. */
  lemma WavFileLayout(channels: int32, frequency: int32, samples: seq<int16>)
    ensures var w := WavFile(channels, frequency, samples);
      var n := 2 * |samples|;
      && |w| == 44 + n
      && w[0..4] == LE32(RiffId) && w[4..8] == LE32(36 + n)
      && w[8..40] == FormatChunk(channels, frequency)
      && w[40..44] == LE32(n) && w[44..] == SampleBytes(samples)
  {
    var n := 2 * |samples|;
    var h := Header(channels, frequency, 36 + n, n);
    var d := SampleBytes(samples);
    HeaderLayout(channels, frequency, 36 + n, n);
    PrefixSlice(h, d, 0, 4);
    PrefixSlice(h, d, 4, 8);
    PrefixSlice(h, d, 8, 40);
    PrefixSlice(h, d, 40, 44);
    assert (h + d)[44..] == d;
  }

  lemma PrefixSlice(a: seq<byte>, b: seq<byte>, lo: nat, hi: nat)
    requires lo <= hi <= |a|
    ensures (a + b)[lo..hi] == a[lo..hi]
  {
    assert forall i :: lo <= i < hi ==> (a + b)[i] == a[i];
  }

  /** The fixed fields of the header. */
  lemma HeaderFields(channels: int32, frequency: int32, samples: seq<int16>)
    ensures var w := WavFile(channels, frequency, samples);
      && |w| >= 44
      && w[0..4] == Tag("RIFF") && w[8..12] == Tag("WAVE") && w[12..16] == Tag("fmt ") && w[36..40] == Tag("data")
      && U32At(w, 16) == 16                                        // Subchunk1Size
      && U16At(w, 20) == 1                                         // AudioFormat
      && U16At(w, 22) == channels as int % TwoTo16                 // NumChannels
      && U32At(w, 24) == frequency as int % TwoTo32                // SampleRate
      && U32At(w, 28) == (frequency as int * channels as int * 2) % TwoTo32   // ByteRate
      && U16At(w, 32) == (channels as int * 2) % TwoTo16           // BlockAlign
      && U16At(w, 34) == 16                                        // BitsPerSample
  {
    var w := WavFile(channels, frequency, samples);
    var c := w[8..40];
    WavFileLayout(channels, frequency, samples);
    FormatChunkLayout(channels, frequency);
    TagConstants();
    LE32RoundTrip(16);
    FormatFieldsRead(channels, frequency);
    assert w[8..12] == c[0..4] && w[12..16] == c[4..8] && w[16..20] == c[8..12];
    assert w[20..36] == c[12..28] && w[36..40] == c[28..32];
    U32InSlice(w, 16, 20, 0);
    U16InSlice(w, 20, 36, 0);
    U16InSlice(w, 20, 36, 2);
    U32InSlice(w, 20, 36, 4);
    U32InSlice(w, 20, 36, 8);
    U16InSlice(w, 20, 36, 12);
    U16InSlice(w, 20, 36, 14);
  }

  /** Every sample can be read back from its place after the header. */
  lemma SamplesReadBack(channels: int32, frequency: int32, samples: seq<int16>, i: nat)
    requires i < |samples|
    ensures var w := WavFile(channels, frequency, samples);
      44 + 2 * i + 2 <= |w| && I16At(w, 44 + 2 * i) == samples[i] as int
  {
    var w := WavFile(channels, frequency, samples);
    var data := SampleBytes(samples);
    WavFileLayout(channels, frequency, samples);
    SampleBytesAt(samples, i);
    SampleRoundTrip(samples[i]);
    assert w[44 + 2 * i .. 44 + 2 * i + 2] == LE16(samples[i] as int);
    assert I16At(w, 44 + 2 * i) == I16At(LE16(samples[i] as int), 0);
  }

  /** The zero bytes that fill a gap left by seeking past the end. */
  function Zeros(k: nat): (z: seq<byte>)
    ensures |z| == k && forall i :: 0 <= i < k ==> z[i] == 0
  {
    if k == 0 then [] else [0 as byte] + Zeros(k - 1)
  }

  /**
   * The buffer of a MemoryStream after writing `bytes` at `pos`: the bytes
   * overwrite what is there, the stream grows as needed, and a gap left by
   * seeking past the end reads as zeros.
   */
  function Overwrite(data: seq<byte>, pos: nat, bytes: seq<byte>): (r: seq<byte>)
    ensures |r| == if pos + |bytes| > |data| then pos + |bytes| else |data|
  {
    var padded := if pos <= |data| then data else data + Zeros(pos - |data|);
    padded[..pos] + bytes + (if pos + |bytes| <= |padded| then padded[pos + |bytes|..] else [])
  }

  /** What a write leaves in the stream: the new bytes at the position, the old ones elsewhere, zeros in any gap. */
  lemma OverwriteContents(data: seq<byte>, pos: nat, bytes: seq<byte>)
    ensures var r := Overwrite(data, pos, bytes);
      && r[pos .. pos + |bytes|] == bytes
      && (forall i :: 0 <= i < |r| && !(pos <= i < pos + |bytes|) ==> r[i] == if i < |data| then data[i] else 0)
  {
    var padded := if pos <= |data| then data else data + Zeros(pos - |data|);
    var r := Overwrite(data, pos, bytes);
    assert r[..pos] == padded[..pos];
    assert forall i :: 0 <= i < pos ==> r[i] == padded[i];
  }

  /** Writing at the end of the stream appends. */
  lemma OverwriteAtEnd(data: seq<byte>, bytes: seq<byte>)
    ensures Overwrite(data, |data|, bytes) == data + bytes
  {
    assert data[..|data|] == data;
  }

  /** A BinaryWriter over a MemoryStream: the stream's bytes and its position. */
  class MemoryWriter {
    var buffer: seq<byte>
    var position: nat

    constructor ()
      ensures buffer == [] && position == 0
    {
      buffer := [];
      position := 0;
    }

    method Write(bytes: seq<byte>)
      modifies this
      ensures buffer == Overwrite(old(buffer), old(position), bytes)
      ensures position == old(position) + |bytes|
      ensures old(position) == |old(buffer)| ==> buffer == old(buffer) + bytes && position == |buffer|
    {
      if position == |buffer| {
        OverwriteAtEnd(buffer, bytes);
      }
      buffer := Overwrite(buffer, position, bytes);
      position := position + |bytes|;
    }

    method WriteInt32(v: int)
      modifies this
      ensures buffer == Overwrite(old(buffer), old(position), LE32(v))
      ensures position == old(position) + 4
      ensures old(position) == |old(buffer)| ==> buffer == old(buffer) + LE32(v) && position == |buffer|
    {
      Write(LE32(v));
    }

    method WriteUInt16(v: int)
      modifies this
      ensures buffer == Overwrite(old(buffer), old(position), LE16(v))
      ensures position == old(position) + 2
      ensures old(position) == |old(buffer)| ==> buffer == old(buffer) + LE16(v) && position == |buffer|
    {
      Write(LE16(v));
    }

    method Seek(offset: nat)
      modifies this
      ensures buffer == old(buffer) && position == offset
    {
      position := offset;
    }
  }

  /** Replacing four bytes at a boundary between pieces. */
  lemma Patch(front: seq<byte>, was: seq<byte>, now: seq<byte>, back: seq<byte>)
    requires |was| == 4 && |now| == 4
    ensures Overwrite(front + was + back, |front|, now) == front + now + back
  {
    var r := Overwrite(front + was + back, |front|, now);
    OverwriteContents(front + was + back, |front|, now);
    assert r[..|front|] == front;
    assert r[|front| + 4..] == back;
    assert r == r[..|front|] + r[|front| .. |front| + 4] + r[|front| + 4..];
  }

  /** The byte-copy of the quantised samples: two little-endian bytes per sample. */
  method SamplesToBytes(samples: seq<int16>) returns (data: array<byte>)
    ensures fresh(data)
    ensures data[..] == SampleBytes(samples)
  {
    data := new byte[|samples| * 2];
    var i := 0;
    while i < |samples|
      invariant 0 <= i <= |samples|
      invariant data[..2 * i] == SampleBytes(samples[..i])
    {
      var u := samples[i] as int % TwoTo16;
      data[2 * i] := (u % 0x100) as byte;
      data[2 * i + 1] := (u / 0x100) as byte;
      assert samples[..i + 1] == samples[..i] + [samples[i]];
      SampleBytesSnoc(samples[..i], samples[i]);
      assert data[..2 * (i + 1)] == data[..2 * i] + LE16(samples[i] as int);
      i := i + 1;
    }
    assert samples[..i] == samples;
    assert data[..] == data[..2 * i];
  }

  /** The six fields of the "fmt " chunk body, written at the end of the stream. */
  method WriteFormatFields(writer: MemoryWriter, channels: int32, frequency: int32)
    requires writer.position == |writer.buffer|
    modifies writer
    ensures writer.buffer == old(writer.buffer) + FormatFields(channels, frequency)
    ensures writer.position == |writer.buffer|
  {
    ghost var start := writer.buffer;
    ghost var acc: seq<byte> := [];
    writer.WriteUInt16(1);                                         // AudioFormat
    acc := acc + LE16(1);
    writer.WriteUInt16(channels as int);                           // NumChannels
    assert writer.buffer == start + (acc + LE16(channels as int));
    acc := acc + LE16(channels as int);
    writer.WriteInt32(frequency as int);                           // SampleRate
    assert writer.buffer == start + (acc + LE32(frequency as int));
    acc := acc + LE32(frequency as int);
    writer.WriteInt32(frequency as int * channels as int * 2);     // ByteRate
    assert writer.buffer == start + (acc + LE32(frequency as int * channels as int * 2));
    acc := acc + LE32(frequency as int * channels as int * 2);
    writer.WriteUInt16(channels as int * 2);                       // BlockAlign
    assert writer.buffer == start + (acc + LE16(channels as int * 2));
    acc := acc + LE16(channels as int * 2);
    writer.WriteUInt16(16);                                        // BitsPerSample
    assert writer.buffer == start + (acc + LE16(16));
    acc := acc + LE16(16);
    assert acc == FormatFields(channels, frequency);
  }

  /** Bytes 8 to 40 written field by field at the end of the stream. */
  method WriteFormatChunk(writer: MemoryWriter, channels: int32, frequency: int32)
    requires writer.position == |writer.buffer|
    modifies writer
    ensures writer.buffer == old(writer.buffer) + FormatChunk(channels, frequency)
    ensures writer.position == |writer.buffer|
  {
    ghost var start := writer.buffer;
    ghost var acc: seq<byte> := [];
    writer.WriteInt32(WaveId);                                     // "WAVE"
    acc := acc + LE32(WaveId);
    writer.WriteInt32(FmtId);                                      // "fmt "
    assert writer.buffer == start + (acc + LE32(FmtId));
    acc := acc + LE32(FmtId);
    writer.WriteInt32(16);                                         // Subchunk1Size
    assert writer.buffer == start + (acc + LE32(16));
    acc := acc + LE32(16);
    WriteFormatFields(writer, channels, frequency);
    assert writer.buffer == start + (acc + FormatFields(channels, frequency));
    acc := acc + FormatFields(channels, frequency);
    writer.WriteInt32(DataId);                                     // "data"
    assert writer.buffer == start + (acc + LE32(DataId));
    acc := acc + LE32(DataId);
    assert acc == FormatChunk(channels, frequency);
  }

  /** Seeking to offset 4 and writing ChunkSize replaces that field only. */
  lemma PatchChunkSize(channels: int32, frequency: int32, was: int, dataSize: int, now: int, data: seq<byte>)
    ensures Overwrite(Header(channels, frequency, was, dataSize) + data, 4, LE32(now))
         == Header(channels, frequency, now, dataSize) + data
  {
    var riff := LE32(RiffId);
    var back := FormatChunk(channels, frequency) + LE32(dataSize) + data;
    assert Header(channels, frequency, was, dataSize) + data == riff + LE32(was) + back;
    assert Header(channels, frequency, now, dataSize) + data == riff + LE32(now) + back;
    Patch(riff, LE32(was), LE32(now), back);
  }

  /** Seeking to offset 40 and writing Subchunk2Size replaces that field only. */
  lemma PatchDataSize(channels: int32, frequency: int32, chunkSize: int, was: int, now: int, data: seq<byte>)
    ensures Overwrite(Header(channels, frequency, chunkSize, was) + data, 40, LE32(now))
         == Header(channels, frequency, chunkSize, now) + data
  {
    var front := LE32(RiffId) + LE32(chunkSize) + FormatChunk(channels, frequency);
    assert Header(channels, frequency, chunkSize, was) + data == front + LE32(was) + data;
    assert Header(channels, frequency, chunkSize, now) + data == front + LE32(now) + data;
    Patch(front, LE32(was), LE32(now), data);
  }

  /** The header with both size fields left at zero, written to an empty stream. */
  method WriteHeader(writer: MemoryWriter, channels: int32, frequency: int32)
    requires writer.buffer == [] && writer.position == 0
    modifies writer
    ensures writer.buffer == Header(channels, frequency, 0, 0) && writer.position == 44
  {
    writer.WriteInt32(RiffId);                                     // "RIFF"
    writer.WriteInt32(0);                                          // ChunkSize, patched later
    WriteFormatChunk(writer, channels, frequency);
    writer.WriteInt32(0);                                          // Subchunk2Size, patched later
  }

  /** Seek back and fill in ChunkSize, then Subchunk2Size, from the final stream length. */
  method PatchSizeFields(writer: MemoryWriter, channels: int32, frequency: int32, ghost data: seq<byte>)
    requires writer.buffer == Header(channels, frequency, 0, 0) + data
    modifies writer
    ensures writer.buffer == Header(channels, frequency, 36 + |data|, |data|) + data
  {
    writer.Seek(4);
    writer.WriteInt32(|writer.buffer| - 8);
    PatchChunkSize(channels, frequency, 0, 0, 36 + |data|, data);
    writer.Seek(40);
    writer.WriteInt32(|writer.buffer| - 44);
    PatchDataSize(channels, frequency, 36 + |data|, 0, |data|, data);
  }

  method FromAudioClip(channels: int32, frequency: int32, samples: seq<int16>) returns (wav: seq<byte>)
    ensures wav == WavFile(channels, frequency, samples)
  {
    var writer := new MemoryWriter();
    WriteHeader(writer, channels, frequency);
    var data := SamplesToBytes(samples);
    writer.Write(data[..]);
    PatchSizeFields(writer, channels, frequency, data[..]);
    wav := writer.buffer;
  }
}
