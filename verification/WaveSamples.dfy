/** The samples of a mono recording: which files have them, what they are, and that a written recording
    is read back. */
module WaveSamples {
  import opened Checked
  import opened Index
  import opened Wave

  /** 16-bit samples as fractions of full scale; 32-bit floats as bit patterns. */
  datatype Samples = Pcm16(values: seq<real>) | Float32(patterns: seq<nat>)

  function Signed(n: nat): int { if n < 0x8000 then n else n - 0x1_0000 }

  /** An `i16` over 32768; dividing by a power of two is exact. */
  function Fraction(v: int): real { v as real / 32768.0 }

  method DecodePcm16(data: seq<byte>) returns (r: Result<seq<real>>)
    ensures r.Ok? <==> |data| % 2 == 0
    ensures r.Ok? ==> |data| == 2 * |r.value|
    ensures r.Ok? ==> forall i :: 0 <= i < |r.value| ==> r.value[i] == Fraction(Signed(U16(data[2 * i..2 * i + 2])))
  {
    hide U16, Signed, Fraction;
    if |data| % 2 != 0 { return Err; }
    var values := [];
    for i := 0 to |data| / 2
      invariant |values| == i
      invariant forall j :: 0 <= j < i ==> values[j] == Fraction(Signed(U16(data[2 * j..2 * j + 2])))
    {
      values := values + [Fraction(Signed(U16(data[2 * i..2 * i + 2])))];
    }
    r := Ok(values);
  }

  method DecodeFloat32(data: seq<byte>) returns (r: Result<seq<nat>>)
    ensures r.Ok? <==> |data| % 4 == 0
    ensures r.Ok? ==> |data| == 4 * |r.value|
    ensures r.Ok? ==> forall i :: 0 <= i < |r.value| ==> r.value[i] == U32(data[4 * i..4 * i + 4])
  {
    hide U32;
    if |data| % 4 != 0 { return Err; }
    var patterns := [];
    for i := 0 to |data| / 4
      invariant |patterns| == i
      invariant forall j :: 0 <= j < i ==> patterns[j] == U32(data[4 * j..4 * j + 4])
    {
      patterns := patterns + [U32(data[4 * i..4 * i + 4])];
    }
    r := Ok(patterns);
  }

  predicate IsPcm16(fmt: Fmt) { fmt.format == 1 && fmt.bits == 16 }

  predicate IsFloat32(fmt: Fmt) { fmt.format == 3 && fmt.bits == 32 }

  /** What a decoder is made of: one channel of whole 16-bit or 32-bit float samples. */
  predicate Playable(fmt: Fmt, size: nat) {
    fmt.channels == 1 && ((IsPcm16(fmt) && size % 2 == 0) || (IsFloat32(fmt) && size % 4 == 0))
  }

  ghost predicate SamplesAre(data: seq<byte>, fmt: Fmt, s: Samples) {
    match s
    case Pcm16(values) =>
      && IsPcm16(fmt) && |data| == 2 * |values|
      && forall i :: 0 <= i < |values| ==> values[i] == Fraction(Signed(U16(data[2 * i..2 * i + 2])))
    case Float32(patterns) =>
      && IsFloat32(fmt) && |data| == 4 * |patterns|
      && forall i :: 0 <= i < |patterns| ==> patterns[i] == U32(data[4 * i..4 * i + 4])
  }

  /** The bytes of a layout's data. */
  function DataOf(bytes: seq<byte>, layout: WavLayout): (data: seq<byte>)
    requires LayoutOf(bytes) == Ok(layout)
    ensures |data| == layout.data.size
  {
    DataInside(bytes);
    bytes[layout.data.start..layout.data.start + layout.data.size]
  }

  /** The outcome of reading a file is `r`. */
  ghost predicate Reads(bytes: seq<byte>, r: Result<(WavLayout, Samples)>) {
    var parsed := LayoutOf(bytes);
    && (r.Ok? <==> parsed.Ok? && Playable(parsed.value.fmt, parsed.value.data.size))
    && (r.Ok? ==> r.value.0 == parsed.value && SamplesAre(DataOf(bytes, parsed.value), parsed.value.fmt, r.value.1))
  }

  /** parse_wav_mono_samples */
  method ParseMono(bytes: seq<byte>) returns (r: Result<(WavLayout, Samples)>)
    requires |bytes| < LIMIT / 2
    ensures Reads(bytes, r)
  {
    hide LayoutOf, U16, U32, Signed, Fraction;
    var parsed := ParseWavLayout(bytes);
    if parsed.Err? { return Err; }
    var layout := parsed.value;
    if layout.fmt.channels != 1 { return Err; }
    DataInside(bytes);
    var data := bytes[layout.data.start..layout.data.start + layout.data.size];
    if layout.fmt.format == 1 && layout.fmt.bits == 16 {
      var values := DecodePcm16(data);
      if values.Err? { return Err; }
      return Ok((layout, Pcm16(values.value)));
    }
    if layout.fmt.format == 3 && layout.fmt.bits == 32 {
      var patterns := DecodeFloat32(data);
      if patterns.Err? { return Err; }
      return Ok((layout, Float32(patterns.value)));
    }
    return Err;
  }

  /** The contract leaves one outcome. */
  lemma {:induction false} ReadsOnce(bytes: seq<byte>, r: Result<(WavLayout, Samples)>,
                                     r': Result<(WavLayout, Samples)>)
    requires Reads(bytes, r) && Reads(bytes, r')
    ensures r == r'
  {
    hide LayoutOf, U16, U32, Signed, Fraction, DataOf;
    if r.Ok? {
      var s, s' := r.value.1, r'.value.1;
      match s {
        case Pcm16(v) => assert v == s'.values;
        case Float32(p) => assert p == s'.patterns;
      }
    }
  }

  // ---- which files can be read ----

  /** Chunk f is the last fmt chunk, chunk d the last data chunk, and they are a mono recording. */
  ghost predicate Holds(chunks: seq<Chunk>, f: nat, d: nat) {
    && LastOf(chunks, FMT, f) && LastOf(chunks, DATA, d) && 16 <= |chunks[f].body|
    && Playable(FmtOf(chunks[f].body), |chunks[d].body|)
  }

  ghost predicate IsRecording(bytes: seq<byte>, chunks: seq<Chunk>, cut: bool, rest: seq<byte>, f: nat, d: nat) {
    WrittenAs(bytes, chunks, cut, rest) && Complete(chunks) && Holds(chunks, f, d)
  }

  lemma {:induction false} LastExists(chunks: seq<Chunk>, id: seq<byte>, n: nat) returns (i: nat)
    requires n <= |chunks| && (exists j :: 0 <= j < n && chunks[j].id == id)
    requires forall j :: n <= j < |chunks| ==> chunks[j].id != id
    ensures LastOf(chunks, id, i)
  {
    if chunks[n - 1].id == id { i := n - 1; } else { i := LastExists(chunks, id, n - 1); }
  }

  /** Reading succeeds on exactly the recordings. */
  lemma {:induction false} ReadsExactly(bytes: seq<byte>, r: Result<(WavLayout, Samples)>)
    requires Reads(bytes, r)
    ensures r.Ok? <==> exists chunks, cut, rest, f, d :: IsRecording(bytes, chunks, cut, rest, f, d)
  {
    hide LayoutOf, WrittenAs, Find, FmtOf, Playable, SamplesAre, DataOf;
    if r.Ok? {
      AcceptsExactly(bytes);
      var chunks, cut, rest :| WrittenAs(bytes, chunks, cut, rest) && Complete(chunks);
      FindKeeps(chunks, 12, None, None);
      var f := LastExists(chunks, FMT, |chunks|);
      var d := LastExists(chunks, DATA, |chunks|);
      var start := LayoutIs(bytes, chunks, cut, rest, f, d);
      assert IsRecording(bytes, chunks, cut, rest, f, d);
    }
    if chunks, cut, rest, f, d :| IsRecording(bytes, chunks, cut, rest, f, d) {
      var start := LayoutIs(bytes, chunks, cut, rest, f, d);
    }
  }

  // ---- round trips ----

  ghost predicate AreI16(values: seq<int>) { forall i :: 0 <= i < |values| ==> -0x8000 <= values[i] < 0x8000 }

  ghost predicate AreU32(patterns: seq<nat>) { forall i :: 0 <= i < |patterns| ==> patterns[i] < 0x1_0000_0000 }

  function Word(v: int): (n: nat)
    requires -0x8000 <= v < 0x8000
    ensures n < 0x1_0000 && Signed(n) == v
  {
    if v < 0 then v + 0x1_0000 else v
  }

  /** A writer of 16-bit samples. */
  function EncodePcm16(values: seq<int>): (data: seq<byte>)
    requires AreI16(values)
    ensures |data| == 2 * |values|
  {
    if |values| == 0 then [] else EncodePcm16(values[..|values| - 1]) + Le16(Word(values[|values| - 1]))
  }

  /** A writer of 32-bit floats, given as bit patterns. */
  function EncodeFloat32(patterns: seq<nat>): (data: seq<byte>)
    requires AreU32(patterns)
    ensures |data| == 4 * |patterns|
  {
    if |patterns| == 0 then [] else EncodeFloat32(patterns[..|patterns| - 1]) + Le32(patterns[|patterns| - 1])
  }

  lemma {:induction false} InFront(a: seq<byte>, b: seq<byte>, i: nat, j: nat)
    requires i <= j <= |a|
    ensures (a + b)[i..j] == a[i..j]
  {}

  lemma {:induction false} AtEnd(a: seq<byte>, b: seq<byte>)
    ensures (a + b)[|a|..|a| + |b|] == b
  {}

  lemma {:induction false} Pcm16At(values: seq<int>, i: nat)
    requires AreI16(values) && i < |values|
    ensures Signed(U16(EncodePcm16(values)[2 * i..2 * i + 2])) == values[i]
  {
    hide U16, Le16, Signed;
    var front, last := values[..|values| - 1], Le16(Word(values[|values| - 1]));
    if i == |front| {
      AtEnd(EncodePcm16(front), last);
    } else {
      Pcm16At(front, i);
      InFront(EncodePcm16(front), last, 2 * i, 2 * i + 2);
    }
  }

  lemma {:induction false} Float32At(patterns: seq<nat>, i: nat)
    requires AreU32(patterns) && i < |patterns|
    ensures U32(EncodeFloat32(patterns)[4 * i..4 * i + 4]) == patterns[i]
  {
    hide U32, Le32;
    var front, last := patterns[..|patterns| - 1], Le32(patterns[|patterns| - 1]);
    if i == |front| {
      AtEnd(EncodeFloat32(front), last);
    } else {
      Float32At(front, i);
      InFront(EncodeFloat32(front), last, 4 * i, 4 * i + 4);
    }
  }

  function Fractions(values: seq<int>): (s: seq<real>)
    ensures |s| == |values|
  {
    seq(|values|, i requires 0 <= i < |values| => Fraction(values[i]))
  }

  lemma {:induction false} Pcm16Samples(values: seq<int>, fmt: Fmt)
    requires AreI16(values) && IsPcm16(fmt)
    ensures SamplesAre(EncodePcm16(values), fmt, Pcm16(Fractions(values)))
  {
    hide U16, EncodePcm16, Signed, Fraction;
    forall i | 0 <= i < |values| ensures Signed(U16(EncodePcm16(values)[2 * i..2 * i + 2]))
        == values[i] { Pcm16At(values, i); }
  }

  lemma {:induction false} Float32Samples(patterns: seq<nat>, fmt: Fmt)
    requires AreU32(patterns) && IsFloat32(fmt)
    ensures SamplesAre(EncodeFloat32(patterns), fmt, Float32(patterns))
  {
    hide U32, EncodeFloat32;
    forall i | 0 <= i < |patterns| ensures U32(EncodeFloat32(patterns)[4 * i..4 * i + 4])
        == patterns[i] { Float32At(patterns, i); }
  }

  /** A recording of either kind among any other chunks is read back with its format and its samples. */
  lemma {:induction false} RecordingRoundTrips(bytes: seq<byte>, chunks: seq<Chunk>, cut: bool, rest: seq<byte>, f: nat,
                                               d: nat, values: seq<int>, patterns: seq<nat>,
                                               r: Result<(WavLayout, Samples)>)
    requires IsRecording(bytes, chunks, cut, rest, f, d) && Reads(bytes, r) && AreI16(values) && AreU32(patterns)
    ensures r.Ok? && r.value.0.fmt == FmtOf(chunks[f].body) && r.value.0.data.size == |chunks[d].body|
    ensures IsPcm16(r.value.0.fmt) && chunks[d].body == EncodePcm16(values) ==> r.value.1 == Pcm16(Fractions(values))
    ensures IsFloat32(r.value.0.fmt) && chunks[d].body == EncodeFloat32(patterns) ==> r.value.1 == Float32(patterns)
  {
    hide LayoutOf, FmtOf, WrittenAs, Complete, LastOf, SamplesAre, EncodePcm16, EncodeFloat32, Fractions;
    var start := LayoutIs(bytes, chunks, cut, rest, f, d);
    var layout := LayoutOf(bytes).value;
    assert DataOf(bytes, layout) == chunks[d].body;
    if IsPcm16(layout.fmt) && chunks[d].body == EncodePcm16(values) {
      Pcm16Samples(values, layout.fmt);
      ReadsOnce(bytes, r, Ok((layout, Pcm16(Fractions(values)))));
    }
    if IsFloat32(layout.fmt) && chunks[d].body == EncodeFloat32(patterns) {
      Float32Samples(patterns, layout.fmt);
      ReadsOnce(bytes, r, Ok((layout, Float32(patterns))));
    }
  }

  /** Different recordings of one kind are read differently: no sample is lost to the scaling. */
  lemma {:induction false} FractionsDiffer(values: seq<int>, other: seq<int>)
    requires Fractions(values) == Fractions(other)
    ensures values == other
  {
    forall i | 0 <= i < |values| ensures values[i] == other[i] {
      assert Fractions(values)[i] == Fraction(values[i]) && Fractions(other)[i] == Fraction(other[i]);
    }
  }

  // ---- a file byte by byte ----

  /** The chunk names in letters. */
  lemma {:induction false} NamesInLetters()
    ensures forall i :: 0 <= i < 4 ==> RIFF[i] as int == "RIFF"[i] as int && WAVE[i] as int == "WAVE"[i] as int
    ensures forall i :: 0 <= i < 4 ==> FMT[i] as int == "fmt "[i] as int && DATA[i] as int == "data"[i] as int
    ensures |RIFF| == |WAVE| == |FMT| == |DATA| == 4
  {}

  // One 16-bit sample, -32768, in one channel at 16000 a second, as any recorder writes it.
  const RIFF_HEAD: seq<byte> := [0x52, 0x49, 0x46, 0x46, 0x26, 0x00, 0x00, 0x00, 0x57, 0x41, 0x56, 0x45]
  const FMT_HEAD: seq<byte> := [0x66, 0x6d, 0x74, 0x20, 0x10, 0x00, 0x00, 0x00]
  const FMT_BODY: seq<byte> := [0x01, 0x00, 0x01, 0x00, 0x80, 0x3e, 0x00, 0x00, 0x00, 0x7d, 0x00, 0x00, 0x02, 0x00,
                                0x10, 0x00]
  const DATA_HEAD: seq<byte> := [0x64, 0x61, 0x74, 0x61, 0x02, 0x00, 0x00, 0x00]
  const DATA_BODY: seq<byte> := [0x00, 0x80]

  function OneSample(): (b: seq<byte>)
    ensures |b| == 46 && b[0..12] == RIFF_HEAD && b[12..20] == FMT_HEAD && b[20..36] == FMT_BODY
    ensures b[36..44] == DATA_HEAD && b[44..46] == DATA_BODY
  {
    RIFF_HEAD + FMT_HEAD + FMT_BODY + DATA_HEAD + DATA_BODY
  }

  lemma {:induction false} OneSampleParts()
    ensures var b := OneSample();
            && b[0..4] == RIFF && b[8..12] == WAVE && b[12..16] == FMT && b[36..40] == DATA
            && U32(b[16..20]) == 16 && U32(b[40..44]) == 2
  {
    var b := OneSample();
    SliceOfSlice(b, 0, 12, 0, 4);
    SliceOfSlice(b, 0, 12, 8, 4);
    SliceOfSlice(b, 12, 8, 0, 4);
    SliceOfSlice(b, 12, 8, 4, 4);
    SliceOfSlice(b, 36, 8, 0, 4);
    SliceOfSlice(b, 36, 8, 4, 4);
  }

  lemma {:induction false} OneSampleFormat()
    ensures FmtOf(FMT_BODY) == Fmt(1, 1, 16000, 16)
  {}

  lemma {:induction false} OneSampleLayout()
    ensures LayoutOf(OneSample()) == Ok(WavLayout(Fmt(1, 1, 16000, 16), Span(44, 2)))
  {
    hide Walk, OneSample, U32, FmtOf;
    var b := OneSample();
    OneSampleParts();
    OneSampleFormat();
    var fmt := Some(Fmt(1, 1, 16000, 16));
    WalkUnfolds(b, 12, 16, None, None);
    WalkUnfolds(b, 36, 2, fmt, None);
    WalkEnds(b, 46, fmt, Some(Span(44, 2)));
  }

  /** It reads as minus one, full scale. */
  lemma {:induction false} OneSampleIsRead(r: Result<(WavLayout, Samples)>)
    requires Reads(OneSample(), r)
    ensures r == Ok((WavLayout(Fmt(1, 1, 16000, 16), Span(44, 2)), Pcm16([-1.0])))
  {
    hide LayoutOf, OneSample;
    OneSampleLayout();
    var data := DataOf(OneSample(), WavLayout(Fmt(1, 1, 16000, 16), Span(44, 2)));
    assert data == DATA_BODY && data[0..2] == data;
    assert Fraction(Signed(U16(data[0..2]))) == -1.0;
    assert r.value.1.values == [-1.0];
  }
}
