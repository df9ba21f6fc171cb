/** The RIFF/WAVE chunk walk, and the files it accepts: exactly a header, a list of chunks padded to
    even length, and fewer than eight bytes that are too few for another. */
module Wave {
  import opened Checked
  import opened Index

  newtype byte = x: int | 0 <= x < 256

  datatype Fmt = Fmt(format: nat, channels: nat, rate: nat, bits: nat)

  datatype Span = Span(start: nat, size: nat)

  datatype WavLayout = WavLayout(fmt: Fmt, data: Span)

  const RIFF: seq<byte> := [0x52, 0x49, 0x46, 0x46]
  const WAVE: seq<byte> := [0x57, 0x41, 0x56, 0x45]
  const FMT: seq<byte> := [0x66, 0x6d, 0x74, 0x20]
  const DATA: seq<byte> := [0x64, 0x61, 0x74, 0x61]

  function U16(b: seq<byte>): (n: nat)
    requires |b| == 2
    ensures n < 0x1_0000
  {
    b[0] as nat + 0x100 * b[1] as nat
  }

  function U32(b: seq<byte>): (n: nat)
    requires |b| == 4
    ensures n < 0x1_0000_0000
  {
    b[0] as nat + 0x100 * b[1] as nat + 0x1_0000 * b[2] as nat + 0x100_0000 * b[3] as nat
  }

  function ReadU16(bytes: seq<byte>, offset: nat): Result<nat> {
    match CheckedAdd(offset, 2)
    case Err => Err
    case Ok(end) => if end <= |bytes| then Ok(U16(bytes[offset..offset + 2])) else Err
  }

  function ReadU32(bytes: seq<byte>, offset: nat): Result<nat> {
    match CheckedAdd(offset, 4)
    case Err => Err
    case Ok(end) => if end <= |bytes| then Ok(U32(bytes[offset..offset + 4])) else Err
  }

  /** The fields of a fmt body; its bytes 8 to 13 are not read. */
  function FmtOf(body: seq<byte>): Fmt
    requires 16 <= |body|
  {
    Fmt(U16(body[0..2]), U16(body[2..4]), U32(body[4..8]), U16(body[14..16]))
  }

  predicate Refused(id: seq<byte>, size: nat) { id == FMT && size < 16 }

  function NextFmt(id: seq<byte>, body: seq<byte>, fmt: Option<Fmt>): Option<Fmt>
    requires !Refused(id, |body|)
  {
    if id == FMT then Some(FmtOf(body)) else fmt
  }

  function NextData(id: seq<byte>, span: Span, data: Option<Span>): Option<Span> {
    if id == DATA then Some(span) else data
  }

  /** The walk from an offset, given what has been found so far. */
  function Walk(bytes: seq<byte>, offset: nat, fmt: Option<Fmt>, data: Option<Span>): Result<(Option<Fmt>,
                Option<Span>)>
    decreases |bytes| - offset
  {
    if offset + 8 > |bytes| then Ok((fmt, data))
    else
      var id, size := bytes[offset..offset + 4], U32(bytes[offset + 4..offset + 8]);
      var start := offset + 8;
      if start + size > |bytes| || Refused(id, size) then Err
      else
        Walk(bytes, start + size + size % 2, NextFmt(id, bytes[start..start + size], fmt),
            NextData(id, Span(start, size), data))
  }

  function LayoutOf(bytes: seq<byte>): Result<WavLayout> {
    if |bytes| < 12 || bytes[0..4] != RIFF || bytes[8..12] != WAVE then Err
    else
      match Walk(bytes, 12, None, None)
      case Err => Err
      case Ok(found) => if found.0.Some? && found.1.Some? then Ok(WavLayout(found.0.value, found.1.value)) else Err
  }

  /** parse_wav_layout. A Rust slice holds at most isize::MAX bytes, so no checked addition fails. */
  method ParseWavLayout(bytes: seq<byte>) returns (r: Result<WavLayout>)
    requires |bytes| < LIMIT / 2
    ensures r == LayoutOf(bytes)
  {
    hide Walk, U16, U32, FmtOf;
    if |bytes| < 12 { return Err; }
    if bytes[0..4] != RIFF || bytes[8..12] != WAVE { return Err; }
    var offset: nat := 12;
    var fmt: Option<Fmt>, data: Option<Span> := None, None;
    while CheckedAdd(offset, 8).Ok? && CheckedAdd(offset, 8).value <= |bytes|
      invariant offset <= |bytes| + 1
      invariant Walk(bytes, offset, fmt, data) == Walk(bytes, 12, None, None)
      decreases |bytes| + 1 - offset
    {
      var id := bytes[offset..offset + 4];
      var read := ReadU32(bytes, offset + 4);
      if read.Err? { return Err; }
      var size, start := read.value, offset + 8;
      WalkUnfolds(bytes, offset, size, fmt, data);
      var end := CheckedAdd(start, size);
      if end.Err? || end.value > |bytes| { return Err; }
      if id == FMT {
        if size < 16 { return Err; }
        var format, channels := ReadU16(bytes, start), ReadU16(bytes, start + 2);
        var rate, bits := ReadU32(bytes, start + 4), ReadU16(bytes, start + 14);
        if format.Err? || channels.Err? || rate.Err? || bits.Err? { return Err; }
        FmtInPlace(bytes, start, size);
        fmt := Some(Fmt(format.value, channels.value, rate.value, bits.value));
      } else if id == DATA {
        data := Some(Span(start, size));
      }
      var next := CheckedAdd(end.value, size % 2);
      if next.Err? { return Err; }
      offset := next.value;
    }
    WalkEnds(bytes, offset, fmt, data);
    if fmt.None? || data.None? { return Err; }
    r := Ok(WavLayout(fmt.value, data.value));
  }

  lemma {:induction false} WalkUnfolds(bytes: seq<byte>, offset: nat, size: nat, fmt: Option<Fmt>, data: Option<Span>)
    requires offset + 8 <= |bytes| && size == U32(bytes[offset + 4..offset + 8])
    ensures size < 0x1_0000_0000
    ensures var id, start := bytes[offset..offset + 4], offset + 8;
            Walk(bytes, offset, fmt, data) ==
              if start + size > |bytes| || Refused(id, size) then Err
              else Walk(bytes, start + size + size % 2, NextFmt(id, bytes[start..start + size], fmt),
                  NextData(id, Span(start, size), data))
  {}

  lemma {:induction false} WalkEnds(bytes: seq<byte>, offset: nat, fmt: Option<Fmt>, data: Option<Span>)
    requires offset + 8 > |bytes|
    ensures Walk(bytes, offset, fmt, data) == Ok((fmt, data))
  {}

  lemma {:induction false} FmtInPlace(bytes: seq<byte>, start: nat, size: nat)
    requires 16 <= size && start + size <= |bytes|
    ensures FmtOf(bytes[start..start + size])
         == Fmt(U16(bytes[start..start + 2]), U16(bytes[start + 2..start + 4]), U32(bytes[start + 4..start + 8]),
                U16(bytes[start + 14..start + 16]))
  {
    SliceOfSlice(bytes, start, size, 0, 2);
    SliceOfSlice(bytes, start, size, 2, 2);
    SliceOfSlice(bytes, start, size, 4, 4);
    SliceOfSlice(bytes, start, size, 14, 2);
  }

  /** A chunk as a file holds it: any id, any body whose size fits 32 bits, any pad byte. */
  datatype Chunk = Chunk(id: seq<byte>, body: seq<byte>, pad: byte) {
    ghost predicate Valid() { |id| == 4 && |body| < 0x1_0000_0000 }
  }

  function Le32(n: nat): (b: seq<byte>)
    requires n < 0x1_0000_0000
    ensures |b| == 4 && U32(b) == n
  {
    var (q, r, s) := (n / 0x100, n / 0x100 / 0x100, n / 0x100 / 0x100 / 0x100);
    [(n % 0x100) as byte, (q % 0x100) as byte, (r % 0x100) as byte, s as byte]
  }

  function Le16(n: nat): (b: seq<byte>)
    requires n < 0x1_0000
    ensures |b| == 2 && U16(b) == n
  {
    [(n % 0x100) as byte, (n / 0x100) as byte]
  }

  /** Id, size, body, and a pad byte after an odd body unless the file is cut there. */
  function Encode(c: Chunk, cut: bool): seq<byte>
    requires c.Valid()
  {
    c.id + Le32(|c.body|) + c.body + if |c.body| % 2 == 1 && !cut then [c.pad] else []
  }

  ghost predicate AllValid(chunks: seq<Chunk>) { forall i :: 0 <= i < |chunks| ==> chunks[i].Valid() }

  /** The chunks one after another and then the rest; `cut` drops the last chunk's pad byte. */
  function EncodeAll(chunks: seq<Chunk>, cut: bool, rest: seq<byte>): seq<byte>
    requires AllValid(chunks)
  {
    if |chunks| == 0 then rest
    else Encode(chunks[0], cut && |chunks| == 1) + EncodeAll(chunks[1..], cut, rest)
  }

  /** What a reader of the list must find: the last fmt and the last data, if no fmt is too short. */
  function Find(chunks: seq<Chunk>, at: nat, fmt: Option<Fmt>, data: Option<Span>): Result<(Option<Fmt>,
                Option<Span>)> {
    if |chunks| == 0 then Ok((fmt, data))
    else
      var c := chunks[0];
      if Refused(c.id, |c.body|) then Err
      else
        Find(chunks[1..], at + 8 + |c.body| + |c.body| % 2, NextFmt(c.id, c.body, fmt),
            NextData(c.id, Span(at + 8, |c.body|), data))
  }

  ghost predicate Ends(cut: bool, rest: seq<byte>) { |rest| < 8 && (cut ==> rest == []) }

  /** The file from `offset` on. A file cut at its last pad byte ends one byte before the next offset. */
  ghost predicate FileFrom(bytes: seq<byte>, offset: nat, chunks: seq<Chunk>, cut: bool, rest: seq<byte>)
    requires AllValid(chunks)
  {
    offset <= |bytes| && bytes[offset..] == EncodeAll(chunks, cut, rest)
  }

  lemma {:induction false} Middle(s: seq<byte>, x: seq<byte>, y: seq<byte>, z: seq<byte>)
    requires s == x + y + z
    ensures s[|x|..|x| + |y|] == y && s[|x| + |y|..] == z
  {}

  lemma {:induction false} From(bytes: seq<byte>, offset: nat, i: nat, j: nat)
    requires offset <= |bytes| && i <= j <= |bytes| - offset
    ensures bytes[offset + i..offset + j] == bytes[offset..][i..j] && bytes[offset + i..] == bytes[offset..][i..]
  {}

  lemma {:induction false} HeadParts(bytes: seq<byte>, offset: nat, c: Chunk, cut: bool, after: seq<byte>)
    requires c.Valid() && offset <= |bytes| && bytes[offset..] == Encode(c, cut) + after
    ensures offset + 8 + |c.body| <= |bytes|
    ensures bytes[offset..offset + 4] == c.id && U32(bytes[offset + 4..offset + 8]) == |c.body|
    ensures bytes[offset + 8..offset + 8 + |c.body|] == c.body
    ensures !cut || |c.body| % 2 == 0 ==>
              var next := offset + 8 + |c.body| + |c.body| % 2;
              next <= |bytes| && bytes[next..] == after
  {
    hide U32, Le32;
    var n := |c.body|;
    var pad := if n % 2 == 1 && !cut then [c.pad] else [];
    assert Encode(c, cut) == c.id + Le32(n) + c.body + pad;
    FiveParts(bytes[offset..], c.id, Le32(n), c.body, pad, after);
    From(bytes, offset, 0, 4);
    From(bytes, offset, 4, 8);
    From(bytes, offset, 8, 8 + n);
    From(bytes, offset, 8 + n + |pad|, 8 + n + |pad|);
  }

  lemma {:induction false} FiveParts(s: seq<byte>, a: seq<byte>, b: seq<byte>, c: seq<byte>, d: seq<byte>, e: seq<byte>)
    requires s == a + b + c + d + e
    ensures s[0..|a|] == a && s[|a|..|a| + |b|] == b && s[|a| + |b|..|a| + |b| + |c|] == c
    ensures s[|a| + |b| + |c| + |d|..] == e
  {
    Middle(s, a + b + c, d, e);
    Middle(s, a + b, c, d + e) by { Regroup(a + b, c, d, e); }
    Middle(s, a, b, c + d + e) by { Regroup(a, b, c, d + e); Regroup(a + b, c, d, e); }
  }

  lemma {:induction false} Regroup(a: seq<byte>, b: seq<byte>, c: seq<byte>, d: seq<byte>)
    ensures a + b + c + d == a + b + (c + d) && b + c + d == b + (c + d)
  {}

  function After(c: Chunk, at: nat): nat { at + 8 + |c.body| + |c.body| % 2 }

  /** One turn of the walk consumes one chunk. */
  lemma {:induction false} WalkTakes(bytes: seq<byte>, offset: nat, c: Chunk, cut: bool, after: seq<byte>,
                                     fmt: Option<Fmt>, data: Option<Span>)
    requires c.Valid() && offset <= |bytes| && bytes[offset..] == Encode(c, cut) + after
    ensures Walk(bytes, offset, fmt, data) ==
              if Refused(c.id, |c.body|) then Err
              else Walk(bytes, After(c, offset), NextFmt(c.id, c.body, fmt),
                  NextData(c.id, Span(offset + 8, |c.body|), data))
    ensures !cut || |c.body| % 2 == 0 ==> After(c, offset) <= |bytes| && bytes[After(c, offset)..] == after
    ensures cut && |c.body| % 2 == 1 && after == [] ==> |bytes| + 1 == After(c, offset)
  {
    hide U32, Encode, FmtOf, Walk, Refused, NextFmt, NextData;
    HeadParts(bytes, offset, c, cut, after);
    WalkUnfolds(bytes, offset, |c.body|, fmt, data);
    if cut && |c.body| % 2 == 1 && after == [] { CutEndsFile(bytes, offset, c, after); }
  }

  lemma {:induction false} FindTakes(chunks: seq<Chunk>, at: nat, fmt: Option<Fmt>, data: Option<Span>)
    requires |chunks| > 0
    ensures var c := chunks[0];
            Find(chunks, at, fmt, data) ==
              if Refused(c.id, |c.body|) then Err
              else Find(chunks[1..], After(c, at), NextFmt(c.id, c.body, fmt),
                  NextData(c.id, Span(at + 8, |c.body|), data))
  {}

  lemma {:induction false} EncodeAllTakes(chunks: seq<Chunk>, cut: bool, rest: seq<byte>)
    requires |chunks| > 0 && AllValid(chunks)
    ensures EncodeAll(chunks, cut, rest) == Encode(chunks[0], cut && |chunks| == 1) + EncodeAll(chunks[1..], cut, rest)
  {}

  lemma {:induction false} NoChunks(bytes: seq<byte>, offset: nat, cut: bool, rest: seq<byte>, fmt: Option<Fmt>,
                                    data: Option<Span>)
    ensures EncodeAll([], cut, rest) == rest && Find([], offset, fmt, data) == Ok((fmt, data))
  {}

  /** Whatever chunks a file was written from, the walk finds the last fmt and the last data of them. */
  lemma {:induction false} WalkFinds(bytes: seq<byte>, offset: nat, chunks: seq<Chunk>, cut: bool, rest: seq<byte>,
                                     fmt: Option<Fmt>, data: Option<Span>)
    requires AllValid(chunks) && FileFrom(bytes, offset, chunks, cut, rest) && Ends(cut, rest)
    ensures Walk(bytes, offset, fmt, data) == Find(chunks, offset, fmt, data)
    decreases |chunks|
  {
    hide Encode, Walk, EncodeAll, Find, Refused, NextFmt, NextData, After;
    if |chunks| == 0 {
      assert chunks == [];
      NoChunks(bytes, offset, cut, rest, fmt, data);
      assert |bytes[offset..]| == |rest|;
      WalkEnds(bytes, offset, fmt, data);
    } else {
      var c, last, more := chunks[0], cut && |chunks| == 1, chunks[1..];
      EncodeAllTakes(chunks, cut, rest);
      WalkTakes(bytes, offset, c, last, EncodeAll(more, cut, rest), fmt, data);
      FindTakes(chunks, offset, fmt, data);
      if !Refused(c.id, |c.body|) {
        var fmt', data' := NextFmt(c.id, c.body, fmt), NextData(c.id, Span(offset + 8, |c.body|), data);
        if last && |c.body| % 2 == 1 {
          assert more == [];
          NoChunks(bytes, After(c, offset), cut, rest, fmt', data');
          WalkEnds(bytes, After(c, offset), fmt', data');
        } else {
          WalkFinds(bytes, After(c, offset), more, cut, rest, fmt', data');
        }
      }
    }
  }

  lemma {:induction false} CutEndsFile(bytes: seq<byte>, offset: nat, c: Chunk, after: seq<byte>)
    requires c.Valid() && offset <= |bytes| && bytes[offset..] == Encode(c, true) + after && after == []
    ensures |bytes| == offset + 8 + |c.body|
  {}

  lemma {:induction false} DigitsAreUnique(b: seq<byte>)
    requires |b| == 4
    ensures Le32(U32(b)) == b
  {
    var n := U32(b);
    var q, r := n / 0x100, n / 0x100 / 0x100;
    assert n == b[0] as nat + 0x100 * (b[1] as nat + 0x100 * (b[2] as nat + 0x100 * b[3] as nat));
    assert q == b[1] as nat + 0x100 * (b[2] as nat + 0x100 * b[3] as nat) && n % 0x100 == b[0] as nat;
    assert r == b[2] as nat + 0x100 * b[3] as nat && q % 0x100 == b[1] as nat;
    assert r / 0x100 == b[3] as nat && r % 0x100 == b[2] as nat;
  }

  function ChunkAt(bytes: seq<byte>, offset: nat): (c: Chunk)
    requires offset + 8 <= |bytes| && offset + 8 + U32(bytes[offset + 4..offset + 8]) <= |bytes|
    ensures c.Valid()
  {
    var size, start := U32(bytes[offset + 4..offset + 8]), offset + 8;
    Chunk(bytes[offset..offset + 4], bytes[start..start + size], if start + size < |bytes| then bytes[start + size]
        else 0)
  }

  lemma {:induction false} ChunkIsThere(bytes: seq<byte>, offset: nat)
    requires offset + 8 <= |bytes| && offset + 8 + U32(bytes[offset + 4..offset + 8]) <= |bytes|
    ensures var c := ChunkAt(bytes, offset);
            if After(c, offset) <= |bytes| then bytes[offset..] == Encode(c, false) + bytes[After(c, offset)..]
            else bytes[offset..] == Encode(c, true) + [] && |c.body| % 2 == 1
  {
    hide U32, Le32;
    var c := ChunkAt(bytes, offset);
    var end := offset + 8 + |c.body|;
    DigitsAreUnique(bytes[offset + 4..offset + 8]);
    assert bytes[offset..end] == c.id + Le32(|c.body|) + c.body;
    assert bytes[offset..] == bytes[offset..end] + bytes[end..];
    if After(c, offset) <= |bytes| {
      assert bytes[end..] == (if |c.body| % 2 == 1 then [c.pad] else []) + bytes[After(c, offset)..];
    }
  }

  lemma {:induction false} Join(c: Chunk, more: seq<Chunk>, cut: bool, rest: seq<byte>)
    requires c.Valid() && AllValid(more)
    ensures AllValid([c] + more)
    ensures EncodeAll([c] + more, cut && |more| > 0, rest) == Encode(c, false) + EncodeAll(more, cut, rest)
  {
    assert ([c] + more)[1..] == more;
    if |more| == 0 { assert EncodeAll(more, cut, rest) == rest == EncodeAll(more, false, rest); }
  }

  /** What the walk accepts was written from some list of chunks. */
  lemma {:induction false} WalkParses(bytes: seq<byte>, offset: nat, fmt: Option<Fmt>, data: Option<Span>)
    returns (chunks: seq<Chunk>, cut: bool, rest: seq<byte>)
    requires offset <= |bytes| && Walk(bytes, offset, fmt, data).Ok?
    ensures AllValid(chunks) && FileFrom(bytes, offset, chunks, cut, rest) && Ends(cut, rest)
    decreases |bytes| - offset
  {
    hide Encode, Walk, Refused, NextFmt, NextData, U32, Le32;
    if offset + 8 > |bytes| {
      chunks, cut, rest := [], false, bytes[offset..];
    } else {
      WalkUnfolds(bytes, offset, U32(bytes[offset + 4..offset + 8]), fmt, data);
      var c := ChunkAt(bytes, offset);
      ChunkIsThere(bytes, offset);
      if After(c, offset) <= |bytes| {
        var more;
        more, cut, rest := WalkParses(bytes, After(c, offset), NextFmt(c.id, c.body, fmt),
            NextData(c.id, Span(offset + 8, |c.body|), data));
        chunks, cut := [c] + more, cut && |more| > 0;
        Join(c, more, cut, rest);
      } else {
        chunks, cut, rest := [c], true, [];
        assert chunks[1..] == [];
        NoChunks(bytes, offset, cut, rest, fmt, data);
      }
    }
  }

  // ---- the files the parser accepts ----

  ghost predicate Headed(bytes: seq<byte>) { |bytes| >= 12 && bytes[0..4] == RIFF && bytes[8..12] == WAVE }

  ghost predicate WrittenAs(bytes: seq<byte>, chunks: seq<Chunk>, cut: bool, rest: seq<byte>) {
    Headed(bytes) && AllValid(chunks) && FileFrom(bytes, 12, chunks, cut, rest) && Ends(cut, rest)
  }

  ghost predicate Complete(chunks: seq<Chunk>) {
    var found := Find(chunks, 12, None, None);
    found.Ok? && found.value.0.Some? && found.value.1.Some?
  }

  /** The parser succeeds on exactly the files that are a header, chunks among which no fmt is short
      and one fmt and one data occur, and a short rest. */
  lemma {:induction false} AcceptsExactly(bytes: seq<byte>)
    ensures LayoutOf(bytes).Ok? <==>
              exists chunks, cut, rest :: WrittenAs(bytes, chunks, cut, rest) && Complete(chunks)
  {
    hide Walk, Find, EncodeAll;
    if LayoutOf(bytes).Ok? {
      var chunks, cut, rest := WalkParses(bytes, 12, None, None);
      WalkFinds(bytes, 12, chunks, cut, rest, None, None);
      assert WrittenAs(bytes, chunks, cut, rest) && Complete(chunks);
    }
    if chunks, cut, rest :| WrittenAs(bytes, chunks, cut, rest) && Complete(chunks) {
      WalkFinds(bytes, 12, chunks, cut, rest, None, None);
    }
  }

  /** Where chunk i starts. */
  function OffsetOf(chunks: seq<Chunk>, at: nat, i: nat): nat
    requires i <= |chunks|
  {
    if i == 0 then at else OffsetOf(chunks[1..], After(chunks[0], at), i - 1)
  }

  ghost predicate LastOf(chunks: seq<Chunk>, id: seq<byte>, i: nat) {
    i < |chunks| && chunks[i].id == id && forall j :: i < j < |chunks| ==> chunks[j].id != id
  }

  lemma {:induction false} FindKeeps(chunks: seq<Chunk>, at: nat, fmt: Option<Fmt>, data: Option<Span>)
    requires Find(chunks, at, fmt, data).Ok?
    ensures (forall j :: 0 <= j < |chunks| ==> chunks[j].id != FMT) ==> Find(chunks, at, fmt, data).value.0 == fmt
    ensures (forall j :: 0 <= j < |chunks| ==> chunks[j].id != DATA) ==> Find(chunks, at, fmt, data).value.1 == data
  {
    if |chunks| > 0 {
      var c := chunks[0];
      FindTakes(chunks, at, fmt, data);
      FindKeeps(chunks[1..], After(c, at), NextFmt(c.id, c.body, fmt), NextData(c.id, Span(at + 8, |c.body|), data));
    }
  }

  /** What is found is the last fmt chunk's fields and the last data chunk's place. */
  lemma {:induction false} FindIsLast(chunks: seq<Chunk>, at: nat, fmt: Option<Fmt>, data: Option<Span>, i: nat)
    requires Find(chunks, at, fmt, data).Ok?
    ensures LastOf(chunks, FMT, i) ==>
              16 <= |chunks[i].body| && Find(chunks, at, fmt, data).value.0 == Some(FmtOf(chunks[i].body))
    ensures LastOf(chunks, DATA, i) ==>
              Find(chunks, at, fmt, data).value.1 == Some(Span(OffsetOf(chunks, at, i) + 8, |chunks[i].body|))
  {
    if |chunks| > 0 {
      hide FmtOf;
      var c := chunks[0];
      FindTakes(chunks, at, fmt, data);
      var fmt', data' := NextFmt(c.id, c.body, fmt), NextData(c.id, Span(at + 8, |c.body|), data);
      if i == 0 {
        FindKeeps(chunks[1..], After(c, at), fmt', data');
      } else {
        FindIsLast(chunks[1..], After(c, at), fmt', data', i - 1);
      }
    }
  }

  /** A found data range lies inside the file. */
  lemma {:induction false} WalkInside(bytes: seq<byte>, offset: nat, fmt: Option<Fmt>, data: Option<Span>)
    requires Walk(bytes, offset, fmt, data).Ok? && (data.Some? ==> data.value.start + data.value.size <= |bytes|)
    ensures var found := Walk(bytes, offset, fmt, data).value.1; found.Some? ==>
        found.value.start + found.value.size <= |bytes|
    decreases |bytes| - offset
  {
    hide U32, FmtOf;
    if offset + 8 <= |bytes| {
      var id, size, start := bytes[offset..offset + 4], U32(bytes[offset + 4..offset + 8]), offset + 8;
      WalkUnfolds(bytes, offset, size, fmt, data);
      WalkInside(bytes, start + size + size % 2, NextFmt(id, bytes[start..start + size], fmt),
          NextData(id, Span(start, size), data));
    }
  }

  lemma {:induction false} DataInside(bytes: seq<byte>)
    requires LayoutOf(bytes).Ok?
    ensures var d := LayoutOf(bytes).value.data; d.start + d.size <= |bytes|
  {
    hide Walk;
    WalkInside(bytes, 12, None, None);
  }

  /** The parsed layout of a written file. */
  lemma {:induction false} LayoutIs(bytes: seq<byte>, chunks: seq<Chunk>, cut: bool, rest: seq<byte>, f: nat,
                                    d: nat) returns (start: nat)
    requires WrittenAs(bytes, chunks, cut, rest) && Complete(chunks) && LastOf(chunks, FMT, f)
        && LastOf(chunks, DATA, d)
    ensures f < |chunks| && d < |chunks| && 16 <= |chunks[f].body|
    ensures start == OffsetOf(chunks, 12, d) + 8
    ensures LayoutOf(bytes) == Ok(WavLayout(FmtOf(chunks[f].body), Span(start, |chunks[d].body|)))
    ensures start + |chunks[d].body| <= |bytes| && bytes[start..start + |chunks[d].body|] == chunks[d].body
  {
    hide Walk, Find, FmtOf, EncodeAll, OffsetOf;
    start := OffsetOf(chunks, 12, d) + 8;
    WalkFinds(bytes, 12, chunks, cut, rest, None, None);
    FindIsLast(chunks, 12, None, None, f);
    FindIsLast(chunks, 12, None, None, d);
    BodyAt(bytes, 12, chunks, cut, rest, d);
  }

  /** The bytes of chunk i's body are where the walk says. */
  lemma {:induction false} BodyAt(bytes: seq<byte>, offset: nat, chunks: seq<Chunk>, cut: bool, rest: seq<byte>, i: nat)
    requires AllValid(chunks) && FileFrom(bytes, offset, chunks, cut, rest) && i < |chunks|
    ensures var start := OffsetOf(chunks, offset, i) + 8;
            start + |chunks[i].body| <= |bytes| && bytes[start..start + |chunks[i].body|] == chunks[i].body
    decreases i
  {
    hide Encode, EncodeAll;
    var c, more := chunks[0], chunks[1..];
    EncodeAllTakes(chunks, cut, rest);
    HeadParts(bytes, offset, c, cut && |chunks| == 1, EncodeAll(more, cut, rest));
    if i > 0 { BodyAt(bytes, After(c, offset), more, cut, rest, i - 1); }
  }
}
