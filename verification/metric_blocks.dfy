/**
 Blocks of a metric stream (`metric_block`) and their packed columns (`metric_columns`).

 A block is a prefix — magic, version, two lengths and a checksum — and a header and a
 body of those lengths. A stream of blocks and any strict prefix of one more reads as
 exactly those blocks (`StreamFrames`); a writer truncating what is torn and appending
 leaves the blocks and the new one (`TruncateAndAppend`); walking the headers alone
 visits the same ones (`HeadersWalked`), of any bytes if and only if no checksum is bad, for
 a walk does not read them (`WalkAgrees`, `WalkSkipsChecksums`).
 Columns are packed as differences and read back just when the numbers and their
 differences fit 64 bits (`DeltasReadBack`), so a block's keys are read back whole
 (`KeysReadBack`).

 JSON, compression and the checksum are functions given by the caller.
 */
module MetricBlocks {
  datatype Option<+T> = None | Some(value: T)

  type byte = x: int | 0 <= x < 256

  type bytes = seq<byte>

  const WORD := 0x1_0000_0000

  type u32 = x: int | 0 <= x < 0x1_0000_0000

  type Checksum = bytes -> u32

  const MAGIC: bytes := [0x56, 0x4D, 0x53, 0x42]
  const VERSION: byte := 1
  const PREFIX := 17

  // ----------------------------------------------------------------- numbers as bytes

  /** `n` as `width` bytes, the lowest first. */
  function Little(n: nat, width: nat): (b: bytes)
    ensures |b| == width
  {
    if width == 0 then [] else [n % 256] + Little(n / 256, width - 1)
  }

  function FromLittle(b: bytes): nat {
    if b == [] then 0 else b[0] + 256 * FromLittle(b[1..])
  }

  function Power(width: nat): nat { if width == 0 then 1 else 256 * Power(width - 1) }

  lemma {:induction false} LittleReadBack(n: nat, width: nat)
    requires n < Power(width)
    ensures FromLittle(Little(n, width)) == n
  {
    if width > 0 {
      LittleReadBack(n / 256, width - 1);
      assert Little(n, width)[1..] == Little(n / 256, width - 1);
    }
  }

  lemma Words()
    ensures Power(4) == WORD && Power(8) == WORD * WORD
  {
    assert Power(1) == 256 * Power(0) && Power(2) == 256 * Power(1) && Power(3) == 256 * Power(2);
    assert Power(4) == 256 * Power(3) && Power(5) == 256 * Power(4) && Power(6) == 256 * Power(5);
    assert Power(7) == 256 * Power(6) && Power(8) == 256 * Power(7);
  }

  // ------------------------------------------------------------------------- framing

  /** A block's header and body, as bytes. */
  datatype Raw = Raw(header: bytes, body: bytes)

  /** The lengths a prefix can hold. */
  predicate Fits(r: Raw) { |r.header| < WORD && |r.body| < WORD }

  function Prefix(crc: Checksum, r: Raw): (b: bytes)
    ensures |b| == PREFIX
  {
    MAGIC + [VERSION] + Little(|r.header|, 4) + Little(|r.body|, 4) + Little(crc(r.header + r.body), 4)
  }

  function Encode(crc: Checksum, r: Raw): bytes { Prefix(crc, r) + r.header + r.body }

  function Stream(crc: Checksum, rs: seq<Raw>): bytes {
    if rs == [] then [] else Encode(crc, rs[0]) + Stream(crc, rs[1..])
  }

  /** What a prefix says: the lengths and the checksum, if it is one. */
  datatype Lengths = Lengths(header: nat, body: nat, crc: nat)

  function Unpack(prefix: bytes): Option<Lengths>
    requires |prefix| == PREFIX
  {
    if prefix[..4] != MAGIC || prefix[4] != VERSION then None
    else Some(Lengths(FromLittle(prefix[5..9]), FromLittle(prefix[9..13]), FromLittle(prefix[13..])))
  }

  lemma Parts(a: bytes, v: byte, h: bytes, b: bytes, c: bytes)
    requires |a| == 4 && |h| == 4 && |b| == 4 && |c| == 4
    ensures var p := a + [v] + h + b + c;
            p[..4] == a && p[4] == v && p[5..9] == h && p[9..13] == b && p[13..] == c
  {
  }

  lemma PrefixReadBack(crc: Checksum, r: Raw)
    requires Fits(r)
    ensures Unpack(Prefix(crc, r)) == Some(Lengths(|r.header|, |r.body|, crc(r.header + r.body)))
  {
    Words();
    Parts(MAGIC, VERSION, Little(|r.header|, 4), Little(|r.body|, 4), Little(crc(r.header + r.body), 4));
    LittleReadBack(|r.header|, 4);
    LittleReadBack(|r.body|, 4);
    LittleReadBack(crc(r.header + r.body), 4);
  }

  /** The intact block at the start of some bytes. */
  function FrameAt(crc: Checksum, data: bytes): Option<Raw> {
    if |data| < PREFIX then None
    else
      match Unpack(data[..PREFIX])
      case None => None
      case Some(l) =>
        if |data| < PREFIX + l.header + l.body then None
        else
          var header, body := data[PREFIX..PREFIX + l.header], data[PREFIX + l.header..PREFIX + l.header + l.body];
          if crc(header + body) != l.crc then None else Some(Raw(header, body))
  }

  function Length(r: Raw): nat { PREFIX + |r.header| + |r.body| }

  lemma FrameLength(crc: Checksum, data: bytes)
    ensures FrameAt(crc, data).Some? ==> PREFIX <= Length(FrameAt(crc, data).value) <= |data|
  {
  }

  /** Every intact block up to the first that is not. */
  function Frames(crc: Checksum, data: bytes): seq<Raw>
    decreases |data|
  {
    FrameLength(crc, data);
    match FrameAt(crc, data)
    case None => []
    case Some(r) => [r] + Frames(crc, data[Length(r)..])
  }

  /** How long a block's encoding is, and where its parts are. */
  lemma EncodedParts(crc: Checksum, r: Raw, rest: bytes)
    ensures |Encode(crc, r)| == Length(r)
    ensures var data := Encode(crc, r) + rest;
            && data[..PREFIX] == Prefix(crc, r) && data[PREFIX..PREFIX + |r.header|] == r.header
            && data[PREFIX + |r.header|..Length(r)] == r.body && data[Length(r)..] == rest
  {
  }

  lemma EncodedIsFrame(crc: Checksum, r: Raw, rest: bytes)
    requires Fits(r)
    ensures FrameAt(crc, Encode(crc, r) + rest) == Some(r)
  {
    EncodedParts(crc, r, rest);
    PrefixReadBack(crc, r);
  }

  lemma {:induction false} LittleWrittenBack(b: bytes)
    ensures FromLittle(b) < Power(|b|) && Little(FromLittle(b), |b|) == b
  {
    if b != [] {
      LittleWrittenBack(b[1..]);
      assert FromLittle(b) % 256 == b[0] && FromLittle(b) / 256 == FromLittle(b[1..]);
      assert b == [b[0]] + b[1..];
    }
  }

  /** Only what was encoded is read as a block: its magic, version, lengths and checksum right. */
  lemma FrameIsEncoded(crc: Checksum, data: bytes, r: Raw)
    ensures FrameAt(crc, data) == Some(r)
            <==> Fits(r) && Length(r) <= |data| && data[..Length(r)] == Encode(crc, r)
  {
    if FrameAt(crc, data) == Some(r) {
      UnpackWritesBack(data[..PREFIX]);
      Words();
      assert data[..Length(r)] == data[..PREFIX] + r.header + r.body;
    }
    if Fits(r) && Length(r) <= |data| && data[..Length(r)] == Encode(crc, r) {
      assert data == Encode(crc, r) + data[Length(r)..];
      EncodedIsFrame(crc, r, data[Length(r)..]);
    }
  }

  lemma UnpackWritesBack(p: bytes)
    requires |p| == PREFIX
    ensures Unpack(p).Some? ==>
              var l := Unpack(p).value;
              l.header < Power(4) && l.body < Power(4)
              && p == MAGIC + [VERSION] + Little(l.header, 4) + Little(l.body, 4) + Little(l.crc, 4)
  {
    LittleWrittenBack(p[5..9]);
    LittleWrittenBack(p[9..13]);
    LittleWrittenBack(p[13..]);
    assert p == p[..4] + [p[4]] + p[5..9] + p[9..13] + p[13..];
  }

  ghost predicate IsTorn(crc: Checksum, torn: bytes, r: Raw) {
    |torn| < |Encode(crc, r)| && torn == Encode(crc, r)[..|torn|]
  }

  /** A strict prefix of a block is none. */
  lemma TornIsNone(crc: Checksum, torn: bytes, r: Raw)
    requires Fits(r) && IsTorn(crc, torn, r)
    ensures FrameAt(crc, torn) == None
  {
    EncodedParts(crc, r, []);
    assert Encode(crc, r) + [] == Encode(crc, r);
    if |torn| >= PREFIX {
      assert torn[..PREFIX] == Prefix(crc, r);
      PrefixReadBack(crc, r);
    }
  }

  ghost predicate AllFit(rs: seq<Raw>) { forall i :: 0 <= i < |rs| ==> Fits(rs[i]) }

  /** A stream and a torn block after it read as the stream's blocks. */
  lemma {:induction false} StreamFrames(crc: Checksum, rs: seq<Raw>, torn: bytes, next: Raw)
    requires AllFit(rs) && Fits(next) && IsTorn(crc, torn, next)
    ensures Frames(crc, Stream(crc, rs) + torn) == rs
  {
    if rs == [] {
      assert Stream(crc, rs) + torn == torn;
      TornIsNone(crc, torn, next);
    } else {
      var rest := Stream(crc, rs[1..]) + torn;
      assert Stream(crc, rs) + torn == Encode(crc, rs[0]) + rest;
      EncodedIsFrame(crc, rs[0], rest);
      EncodedParts(crc, rs[0], rest);
      StreamFrames(crc, rs[1..], torn, next);
    }
  }

  /** Where the last intact block ends. */
  function IntactLength(crc: Checksum, data: bytes): nat { TotalLength(Frames(crc, data)) }

  function TotalLength(rs: seq<Raw>): nat {
    if rs == [] then 0 else Length(rs[0]) + TotalLength(rs[1..])
  }

  lemma {:induction false} StreamLength(crc: Checksum, rs: seq<Raw>)
    ensures |Stream(crc, rs)| == TotalLength(rs)
  {
    if rs != [] {
      StreamLength(crc, rs[1..]);
    }
  }

  lemma {:induction false} StreamAppended(crc: Checksum, rs: seq<Raw>, r: Raw)
    ensures Stream(crc, rs + [r]) == Stream(crc, rs) + Encode(crc, r)
  {
    if rs == [] {
      assert Stream(crc, [r]) == Encode(crc, r) + Stream(crc, [r][1..]);
      assert [r][1..] == [] && rs + [r] == [r] && Encode(crc, r) + [] == Encode(crc, r);
    } else {
      assert (rs + [r])[1..] == rs[1..] + [r];
      StreamAppended(crc, rs[1..], r);
    }
  }

  /** What is torn truncated and a block appended: the blocks and the new one. */
  lemma TruncateAndAppend(crc: Checksum, rs: seq<Raw>, torn: bytes, next: Raw, r: Raw)
    requires AllFit(rs) && Fits(next) && IsTorn(crc, torn, next) && Fits(r)
    ensures var data := Stream(crc, rs) + torn;
            && IntactLength(crc, data) == |Stream(crc, rs)| <= |data|
            && Frames(crc, data[..IntactLength(crc, data)] + Encode(crc, r)) == rs + [r]
  {
    StreamFrames(crc, rs, torn, next);
    StreamLength(crc, rs);
    StreamAppended(crc, rs, r);
    EncodedParts(crc, r, []);
    assert Stream(crc, rs + [r]) + [] == Stream(crc, rs + [r]);
    assert IsTorn(crc, [], r);
    StreamFrames(crc, rs + [r], [], r);
  }

  // ----------------------------------------------------------------- headers alone

  /** The header and the length of the block at an offset of an object of `size` bytes, its
      body unread. */
  function HeaderAt(data: bytes, offset: nat, size: nat): Option<(bytes, nat)>
    requires offset <= size == |data|
  {
    if offset + PREFIX > size then None
    else
      match Unpack(data[offset..offset + PREFIX])
      case None => None
      case Some(l) =>
        var length := PREFIX + l.header + l.body;
        if offset + length > size then None
        else Some((data[offset + PREFIX..offset + PREFIX + l.header], length))
  }

  /** The headers from an offset on. */
  function Headers(data: bytes, offset: nat): seq<bytes>
    requires offset <= |data|
    decreases |data| - offset
  {
    match HeaderAt(data, offset, |data|)
    case None => []
    case Some(h) => [h.0] + Headers(data, offset + h.1)
  }

  /** A header is read at every intact block, and at one with a bad checksum. */
  lemma HeaderIsFrames(crc: Checksum, data: bytes, offset: nat)
    requires offset <= |data|
    ensures FrameAt(crc, data[offset..]).Some? ==>
              HeaderAt(data, offset, |data|) == Some((FrameAt(crc, data[offset..]).value.header, Length(FrameAt(crc, data[offset..]).value)))
  {
    var rest := data[offset..];
    if |rest| >= PREFIX {
      assert rest[..PREFIX] == data[offset..offset + PREFIX];
      if Unpack(rest[..PREFIX]).Some? {
        var l := Unpack(rest[..PREFIX]).value;
        if |rest| >= PREFIX + l.header + l.body {
          assert rest[PREFIX..PREFIX + l.header] == data[offset + PREFIX..offset + PREFIX + l.header];
        }
      }
    }
  }

  function HeadersOf(rs: seq<Raw>): seq<bytes> {
    if rs == [] then [] else [rs[0].header] + HeadersOf(rs[1..])
  }

  lemma HeaderOfBlock(crc: Checksum, data: bytes, offset: nat, r: Raw, rest: bytes)
    requires Fits(r) && offset <= |data| && data[offset..] == Encode(crc, r) + rest
    ensures HeaderAt(data, offset, |data|) == Some((r.header, Length(r))) && |Encode(crc, r)| == Length(r)
  {
    EncodedIsFrame(crc, r, rest);
    HeaderIsFrames(crc, data, offset);
    EncodedParts(crc, r, rest);
  }

  lemma HeadersStep(data: bytes, offset: nat, header: bytes, length: nat)
    requires offset <= |data| && HeaderAt(data, offset, |data|) == Some((header, length))
    ensures offset + length <= |data| && Headers(data, offset) == [header] + Headers(data, offset + length)
  {
  }

  lemma Rearranged(before: bytes, a: bytes, b: bytes, torn: bytes)
    ensures before + (a + b) + torn == (before + a) + b + torn
    ensures (before + (a + b) + torn)[|before|..] == a + (b + torn)
  {
  }

  lemma HeadersOfTorn(crc: Checksum, before: bytes, torn: bytes, next: Raw)
    requires Fits(next) && IsTorn(crc, torn, next)
    ensures Headers(before + [] + torn, |before|) == []
  {
    hide *;
    assert before + [] + torn == before + torn;
    TornHasNoHeader(crc, before, torn, next);
    NoHeader(before + torn, |before|);
  }

  lemma NoHeader(data: bytes, offset: nat)
    requires offset <= |data| && HeaderAt(data, offset, |data|) == None
    ensures Headers(data, offset) == []
  {
  }

  /** The walk's first step over a stream. */
  lemma NextHeader(crc: Checksum, before: bytes, r: Raw, rest: bytes, torn: bytes)
    requires Fits(r)
    ensures Headers(before + (Encode(crc, r) + rest) + torn, |before|)
            == [r.header] + Headers((before + Encode(crc, r)) + rest + torn, |before + Encode(crc, r)|)
  {
    var data := before + (Encode(crc, r) + rest) + torn;
    hide *;
    Rearranged(before, Encode(crc, r), rest, torn);
    HeaderOfBlock(crc, data, |before|, r, rest + torn);
    HeadersStep(data, |before|, r.header, Length(r));
  }

  /** A walk over the headers of a stream, torn or not, visits each block's. */
  lemma {:induction false} HeadersWalked(crc: Checksum, before: bytes, rs: seq<Raw>, torn: bytes, next: Raw)
    requires AllFit(rs) && Fits(next) && IsTorn(crc, torn, next)
    ensures Headers(before + Stream(crc, rs) + torn, |before|) == HeadersOf(rs)
    decreases |rs|
  {
    hide Encode, HeaderAt, Headers, IsTorn;
    if rs == [] {
      HeadersOfTorn(crc, before, torn, next);
    } else {
      NextHeader(crc, before, rs[0], Stream(crc, rs[1..]), torn);
      HeadersWalked(crc, before + Encode(crc, rs[0]), rs[1..], torn, next);
    }
  }

  lemma TornHasNoHeader(crc: Checksum, before: bytes, torn: bytes, r: Raw)
    requires Fits(r) && IsTorn(crc, torn, r)
    ensures var data := before + torn; HeaderAt(data, |before|, |data|) == None
  {
    var data := before + torn;
    EncodedParts(crc, r, []);
    assert Encode(crc, r) + [] == Encode(crc, r);
    if |torn| >= PREFIX {
      assert data[|before|..|before| + PREFIX] == torn[..PREFIX] == Prefix(crc, r);
      PrefixReadBack(crc, r);
    }
  }

  /** A walk over headers goes on where the blocks end at a bad checksum. */
  lemma WalkSkipsChecksums(crc: Checksum, other: Checksum, r: Raw)
    requires Fits(r) && crc(r.header + r.body) != other(r.header + r.body)
    ensures Frames(crc, Encode(other, r)) == [] && Headers(Encode(other, r), 0) == [r.header]
  {
    EncodedParts(other, r, []);
    PrefixReadBack(other, r);
    assert Encode(other, r) + [] == Encode(other, r);
    assert IsTorn(other, [], r);
    assert Stream(other, [r]) == Encode(other, r) + Stream(other, [r][1..]);
    assert [] + Stream(other, [r]) + [] == Encode(other, r);
    HeadersWalked(other, [], [r], [], r);
  }

  /** Every block a walk over headers passes has a good checksum. */
  predicate AllChecked(crc: Checksum, data: bytes, offset: nat)
    requires offset <= |data|
    decreases |data| - offset
  {
    match HeaderAt(data, offset, |data|)
    case None => true
    case Some(h) => FrameAt(crc, data[offset..]).Some? && AllChecked(crc, data, offset + h.1)
  }

  /** Only a bad checksum tells an intact block from what a walk takes for one. */
  lemma HeaderOrFrame(crc: Checksum, data: bytes, offset: nat)
    requires offset <= |data|
    ensures HeaderAt(data, offset, |data|) == None ==> FrameAt(crc, data[offset..]) == None
  {
    HeaderIsFrames(crc, data, offset);
  }

  lemma FramesOn(crc: Checksum, data: bytes, offset: nat)
    requires offset <= |data| && FrameAt(crc, data[offset..]).Some?
    ensures var r := FrameAt(crc, data[offset..]).value;
            && HeaderAt(data, offset, |data|) == Some((r.header, Length(r))) && offset + Length(r) <= |data|
            && Frames(crc, data[offset..]) == [r] + Frames(crc, data[offset + Length(r)..])
  {
    HeaderIsFrames(crc, data, offset);
    FrameLength(crc, data[offset..]);
    var r := FrameAt(crc, data[offset..]).value;
    assert data[offset..][Length(r)..] == data[offset + Length(r)..];
  }

  /** Over any bytes a walk visits the headers of the blocks decoded if and only if no block
      it passes has a bad checksum; else it visits more. */
  lemma {:induction false} WalkAgrees(crc: Checksum, data: bytes, offset: nat)
    requires offset <= |data|
    ensures HeadersOf(Frames(crc, data[offset..])) <= Headers(data, offset)
    ensures Headers(data, offset) == HeadersOf(Frames(crc, data[offset..])) <==> AllChecked(crc, data, offset)
    decreases |data| - offset
  {
    hide FrameAt, HeaderAt;
    HeaderOrFrame(crc, data, offset);
    if FrameAt(crc, data[offset..]).Some? {
      var r := FrameAt(crc, data[offset..]).value;
      FramesOn(crc, data, offset);
      HeadersStep(data, offset, r.header, Length(r));
      FrameLength(crc, data[offset..]);
      WalkAgrees(crc, data, offset + Length(r));
      var rest := Frames(crc, data[offset + Length(r)..]);
      assert ([r] + rest)[1..] == rest;
    }
  }

  // ------------------------------------------------------------------- reading loops

  /** Bytes read in turn. */
  class Reader {
    const data: bytes
    var pos: nat

    constructor (data: bytes)
      ensures this.data == data && pos == 0
    {
      this.data, pos := data, 0;
    }

    /** The next `n` bytes, or what there is. */
    method Read(n: nat) returns (chunk: bytes)
      requires pos <= |data|
      modifies this
      ensures pos == old(pos) + |chunk| <= |data| && chunk == data[old(pos)..pos]
      ensures |chunk| == n || (|chunk| < n && pos == |data|)
    {
      var end := if pos + n <= |data| then pos + n else |data|;
      chunk := data[pos..end];
      pos := end;
    }
  }

  /** The intact block a reader is at. */
  method ReadFrame(crc: Checksum, reader: Reader) returns (r: Option<Raw>)
    requires reader.pos <= |reader.data|
    modifies reader
    ensures reader.pos <= |reader.data|
    ensures r == FrameAt(crc, reader.data[old(reader.pos)..])
    ensures r.Some? ==> reader.pos == old(reader.pos) + Length(r.value)
  {
    ghost var rest := reader.data[reader.pos..];
    var prefix := reader.Read(PREFIX);
    if |prefix| < PREFIX {
      return None;
    }
    assert prefix == rest[..PREFIX];
    var lengths := Unpack(prefix);
    if lengths.None? {
      return None;
    }
    var header := reader.Read(lengths.value.header);
    var body := reader.Read(lengths.value.body);
    if |header| < lengths.value.header || |body| < lengths.value.body {
      return None;
    }
    assert header == rest[PREFIX..PREFIX + |header|];
    assert body == rest[PREFIX + |header|..PREFIX + |header| + |body|];
    if crc(header + body) != lengths.value.crc {
      return None;
    }
    return Some(Raw(header, body));
  }

  /** Every intact block, and where the last one ends. */
  method ReadFrames(crc: Checksum, data: bytes) returns (rs: seq<Raw>, end: nat)
    ensures rs == Frames(crc, data) && end == IntactLength(crc, data)
  {
    var reader := new Reader(data);
    rs, end := [], 0;
    assert data[0..] == data;
    while true
      invariant end == reader.pos <= |data| && reader.data == data
      invariant FramesUpTo(crc, data, rs, end)
      decreases |data| - end
    {
      hide Frames, FrameAt;
      var r := ReadFrame(crc, reader);
      if r.None? {
        AllFrames(crc, data, rs, end);
        return;
      }
      OneFrameMore(crc, data, rs, end, r.value);
      rs, end := rs + [r.value], end + Length(r.value);
    }
  }

  /** The blocks read so far, up to `end`. */
  ghost predicate FramesUpTo(crc: Checksum, data: bytes, rs: seq<Raw>, end: nat) {
    && end <= |data| && Frames(crc, data) == rs + Frames(crc, data[end..])
    && TotalLength(Frames(crc, data)) == end + TotalLength(Frames(crc, data[end..]))
  }

  lemma AllFrames(crc: Checksum, data: bytes, rs: seq<Raw>, end: nat)
    requires FramesUpTo(crc, data, rs, end) && FrameAt(crc, data[end..]).None?
    ensures rs == Frames(crc, data) && end == IntactLength(crc, data)
  {
  }

  lemma OneFrameMore(crc: Checksum, data: bytes, rs: seq<Raw>, end: nat, r: Raw)
    requires FramesUpTo(crc, data, rs, end) && FrameAt(crc, data[end..]) == Some(r)
    ensures FramesUpTo(crc, data, rs + [r], end + Length(r)) && Length(r) > 0
  {
    var rest := data[end..];
    FrameLength(crc, rest);
    assert data[end + Length(r)..] == rest[Length(r)..];
    assert Frames(crc, rest) == [r] + Frames(crc, rest[Length(r)..]);
    assert ([r] + Frames(crc, rest[Length(r)..]))[1..] == Frames(crc, rest[Length(r)..]);
  }

  // ---------------------------------------------------------------- packed columns

  const INT64 := 0x8000_0000_0000_0000

  predicate Fits64(n: int) { -INT64 <= n < INT64 }

  /** An int64 as eight bytes, two's complement. */
  function Word64(n: int): (b: bytes)
    requires Fits64(n)
    ensures |b| == 8
  {
    Little(if n < 0 then n + 2 * INT64 else n, 8)
  }

  function FromWord64(b: bytes): int
    requires |b| == 8
  {
    var n := FromLittle(b);
    if n < INT64 then n else n - 2 * INT64
  }

  lemma WordReadBack(n: int)
    requires Fits64(n)
    ensures FromWord64(Word64(n)) == n
  {
    Words();
    LittleReadBack(if n < 0 then n + 2 * INT64 else n, 8);
  }

  /** Every eight bytes are an int64, and those of no other. */
  lemma WordWrittenBack(b: bytes)
    requires |b| == 8
    ensures Fits64(FromWord64(b)) && Word64(FromWord64(b)) == b
  {
    Words();
    LittleWrittenBack(b);
  }

  /** The first number and each one's difference from the one before. */
  function Deltas(ns: seq<int>): seq<int> {
    seq(|ns|, i requires 0 <= i < |ns| => if i == 0 then ns[0] else ns[i] - ns[i - 1])
  }

  predicate AllFit64(ns: seq<int>) { forall i :: 0 <= i < |ns| ==> Fits64(ns[i]) }

  function Packed(ns: seq<int>): (b: bytes)
    requires AllFit64(ns)
    ensures |b| == 8 * |ns|
  {
    if ns == [] then [] else Packed(ns[..|ns| - 1]) + Word64(ns[|ns| - 1])
  }

  function Unpacked(b: bytes): (ns: seq<int>)
    requires |b| % 8 == 0
    ensures |ns| == |b| / 8
  {
    if b == [] then [] else Unpacked(b[..|b| - 8]) + [FromWord64(b[|b| - 8..])]
  }

  /** Numbers as packed differences; none when one does not fit. */
  function PackDeltas(ns: seq<int>): Option<bytes> {
    if AllFit64(Deltas(ns)) then Some(Packed(Deltas(ns))) else None
  }

  function Sums(ds: seq<int>): seq<int> {
    if ds == [] then []
    else
      var init := Sums(ds[..|ds| - 1]);
      init + [if init == [] then ds[0] else init[|init| - 1] + ds[|ds| - 1]]
  }

  /** The running sums of what was packed; none when one does not fit. */
  function UnpackDeltas(b: bytes): Option<seq<int>>
    requires |b| % 8 == 0
  {
    var ns := Sums(Unpacked(b));
    if AllFit64(ns) then Some(ns) else None
  }

  lemma {:induction false} PackedReadBack(ns: seq<int>)
    requires AllFit64(ns)
    ensures Unpacked(Packed(ns)) == ns
  {
    if ns != [] {
      var init := ns[..|ns| - 1];
      PackedReadBack(init);
      WordReadBack(ns[|ns| - 1]);
      assert Packed(ns)[..8 * |init|] == Packed(init);
      assert Packed(ns)[8 * |init|..] == Word64(ns[|ns| - 1]);
    }
  }

  lemma {:induction false} SumsOfDeltas(ns: seq<int>)
    ensures Sums(Deltas(ns)) == ns
  {
    if ns != [] {
      var init := ns[..|ns| - 1];
      SumsOfDeltas(init);
      assert Deltas(ns)[..|ns| - 1] == Deltas(init);
    }
  }

  /** Numbers are read back just when they and their differences fit. */
  lemma DeltasReadBack(ns: seq<int>)
    ensures (PackDeltas(ns).Some? && UnpackDeltas(PackDeltas(ns).value) == Some(ns)) <==> AllFit64(ns) && AllFit64(Deltas(ns))
  {
    if AllFit64(Deltas(ns)) {
      PackedReadBack(Deltas(ns));
      SumsOfDeltas(ns);
    }
  }

  // ---------------------------------------------------------------- a block's keys

  /** A float64 by its bits. */
  type Bits = x: nat | x < 0x1_0000_0000_0000_0000

  function PackedFloats(vs: seq<Bits>): (b: bytes)
    ensures |b| == 8 * |vs|
  {
    if vs == [] then [] else Little(vs[0], 8) + PackedFloats(vs[1..])
  }

  function UnpackedFloats(b: bytes): (vs: seq<nat>)
    requires |b| % 8 == 0
    ensures |vs| == |b| / 8
  {
    if b == [] then [] else [FromLittle(b[..8])] + UnpackedFloats(b[8..])
  }

  lemma {:induction false} FloatsReadBack(vs: seq<Bits>)
    ensures UnpackedFloats(PackedFloats(vs)) == vs
  {
    if vs != [] {
      Words();
      LittleReadBack(vs[0], 8);
      FloatsReadBack(vs[1..]);
      assert PackedFloats(vs)[..8] == Little(vs[0], 8) && PackedFloats(vs)[8..] == PackedFloats(vs[1..]);
    }
  }

  /** A key's points: steps, if it has them, timestamps in microseconds and values. */
  datatype Columns = Columns(steps: Option<seq<int>>, ts: seq<int>, values: seq<nat>)

  /** Columns of one length whose numbers and differences fit. */
  ghost predicate Packable(c: Columns) {
    && |c.ts| == |c.values| && AllFit64(c.ts) && AllFit64(Deltas(c.ts))
    && (forall i :: 0 <= i < |c.values| ==> c.values[i] < 0x1_0000_0000_0000_0000)
    && (c.steps.Some? ==> |c.steps.value| == |c.ts| && AllFit64(c.steps.value) && AllFit64(Deltas(c.steps.value)))
  }

  function Floats(vs: seq<nat>): seq<Bits>
    requires forall i :: 0 <= i < |vs| ==> vs[i] < 0x1_0000_0000_0000_0000
  {
    vs
  }

  function PackKey(c: Columns): (b: bytes)
    requires Packable(c)
    ensures |b| == 8 * |c.ts| * (if c.steps.Some? then 3 else 2)
  {
    (if c.steps.Some? then Packed(Deltas(c.steps.value)) else []) + Packed(Deltas(c.ts)) + PackedFloats(Floats(c.values))
  }

  /** What a header says of a key of the body. */
  datatype Entry = Entry(name: string, n: nat, hasStep: bool)

  datatype Keyed = Keyed(name: string, columns: Columns)

  function EntryOf(k: Keyed): Entry { Entry(k.name, |k.columns.ts|, k.columns.steps.Some?) }

  function Entries(keys: seq<Keyed>): seq<Entry> {
    if keys == [] then [] else [EntryOf(keys[0])] + Entries(keys[1..])
  }

  ghost predicate AllPackable(keys: seq<Keyed>) { forall i :: 0 <= i < |keys| ==> Packable(keys[i].columns) }

  function Body(keys: seq<Keyed>): bytes
    requires AllPackable(keys)
  {
    if keys == [] then [] else PackKey(keys[0].columns) + Body(keys[1..])
  }

  function Size(e: Entry): nat { 8 * e.n * (if e.hasStep then 3 else 2) }

  /** A key's columns of the bytes it takes. */
  function UnpackKey(e: Entry, b: bytes): Option<Columns>
    requires |b| == Size(e)
  {
    var w, first := 8 * e.n, if e.hasStep then 8 * e.n else 0;
    var steps := if e.hasStep then UnpackDeltas(b[..w]) else None;
    var ts, values := UnpackDeltas(b[first..first + w]), UnpackedFloats(b[first + w..]);
    if ts.None? || (e.hasStep && steps.None?) then None else Some(Columns(steps, ts.value, values))
  }

  /** A body's keys, as its header lists them; none when it is too short or does not fit. */
  function UnpackKeys(entries: seq<Entry>, body: bytes): Option<seq<Keyed>> {
    if entries == [] then Some([])
    else if |body| < Size(entries[0]) then None
    else
      var c := UnpackKey(entries[0], body[..Size(entries[0])]);
      var rest := UnpackKeys(entries[1..], body[Size(entries[0])..]);
      if c.None? || rest.None? then None else Some([Keyed(entries[0].name, c.value)] + rest.value)
  }

  lemma ColumnReadBack(ns: seq<int>)
    requires AllFit64(ns) && AllFit64(Deltas(ns))
    ensures UnpackDeltas(Packed(Deltas(ns))) == Some(ns)
  {
    PackedReadBack(Deltas(ns));
    SumsOfDeltas(ns);
  }

  lemma KeyReadBack(c: Columns, e: Entry)
    requires Packable(c) && e.n == |c.ts| && e.hasStep == c.steps.Some?
    ensures UnpackKey(e, PackKey(c)) == Some(c)
  {
    hide Packed, Unpacked, PackedFloats, UnpackedFloats, UnpackDeltas;
    var steps: bytes, ts, values := if c.steps.Some? then Packed(Deltas(c.steps.value)) else [], Packed(Deltas(c.ts)), PackedFloats(Floats(c.values));
    var b := PackKey(c);
    assert b == steps + ts + values;
    var w := 8 * e.n;
    if c.steps.Some? {
      ColumnReadBack(c.steps.value);
      assert b[..w] == steps && b[w..w + w] == ts && b[w + w..] == values;
    } else {
      assert b[0..w] == ts && b[w..] == values;
    }
    ColumnReadBack(c.ts);
    FloatsReadBack(Floats(c.values));
  }

  /** A body unpacked by its header has the keys it was made of. */
  lemma {:induction false} KeysReadBack(keys: seq<Keyed>)
    requires AllPackable(keys)
    ensures UnpackKeys(Entries(keys), Body(keys)) == Some(keys)
  {
    if keys != [] {
      assert Packable(keys[0].columns);
      hide Packable, PackKey, UnpackKey, UnpackKeys;
      KeysReadBack(keys[1..]);
      FirstKey(keys[0], Entries(keys[1..]), Body(keys[1..]), keys[1..]);
      assert [keys[0]] + keys[1..] == keys;
    } else {
      assert Entries(keys) == [] && UnpackKeys([], Body(keys)) == Some([]);
    }
  }

  lemma FirstKey(k: Keyed, entries: seq<Entry>, rest: bytes, keys: seq<Keyed>)
    requires Packable(k.columns) && UnpackKeys(entries, rest) == Some(keys)
    ensures UnpackKeys([EntryOf(k)] + entries, PackKey(k.columns) + rest) == Some([k] + keys)
  {
    var all, body := [EntryOf(k)] + entries, PackKey(k.columns) + rest;
    KeyReadBack(k.columns, EntryOf(k));
    assert all[0] == EntryOf(k) && all[1..] == entries;
    assert |PackKey(k.columns)| == Size(EntryOf(k));
    assert body[..Size(EntryOf(k))] == PackKey(k.columns) && body[Size(EntryOf(k))..] == rest;
    hide PackKey, UnpackKey, Packable;
  }
}
