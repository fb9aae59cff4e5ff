/**
 The out-of-band pickle format: an opcode string and its buffers, each behind an 8-byte signed
 little-endian length. Pickling itself is opaque: any opcodes, any list of buffers.
 */
module OutOfBand {
  import opened Wrappers
  import opened FileChunker
  import opened ChunkRoundTrip
  import opened Extremes

  const INT64_LIMIT: nat := 0x8000_0000_0000_0000

  function Power256(k: nat): nat {
    if k == 0 then 1 else 256 * Power256(k - 1)
  }

  /** The low `k` bytes of `n`, least significant first. */
  function LittleEndian(n: nat, k: nat): (b: seq<byte>)
    ensures |b| == k
  {
    if k == 0 then [] else [(n % 256) as byte] + LittleEndian(n / 256, k - 1)
  }

  function FromLittleEndian(b: seq<byte>): nat {
    if b == [] then 0 else b[0] as nat + 256 * FromLittleEndian(b[1..])
  }

  lemma {:induction false} LittleEndianReadsBack(n: nat, k: nat)
    requires n < Power256(k)
    ensures FromLittleEndian(LittleEndian(n, k)) == n
  {
    if k > 0 {
      LittleEndianReadsBack(n / 256, k - 1);
      assert LittleEndian(n, k)[1..] == LittleEndian(n / 256, k - 1);
    }
  }

  function Pack(n: nat): seq<byte> {
    LittleEndian(n, 8)
  }

  /** Two's complement. */
  function Unpack(b: seq<byte>): int
    requires |b| == 8
  {
    var n := FromLittleEndian(b);
    if n >= INT64_LIMIT then n - 2 * INT64_LIMIT else n
  }

  lemma EightBytes()
    ensures Power256(8) == 2 * INT64_LIMIT
  {
    assert Power256(2) == 0x1_0000;
    assert Power256(4) == 0x1_0000_0000;
    assert Power256(6) == 0x1_0000_0000_0000;
  }

  lemma UnpackPack(n: nat)
    requires n < INT64_LIMIT
    ensures Unpack(Pack(n)) == n
  {
    EightBytes();
    LittleEndianReadsBack(n, 8);
  }

  lemma FourBytes(b: seq<byte>)
    requires |b| >= 4
    ensures FromLittleEndian(b) == b[0] as int + 0x100 * b[1] as int + 0x1_0000 * b[2] as int + 0x100_0000 * b[3] as int
                                   + 0x1_0000_0000 * FromLittleEndian(b[4..])
  {
    assert b[1..][1..] == b[2..] && b[2..][1..] == b[3..] && b[3..][1..] == b[4..];
    assert FromLittleEndian(b) == b[0] as int + 0x100 * FromLittleEndian(b[1..]);
    assert FromLittleEndian(b[1..]) == b[1] as int + 0x100 * FromLittleEndian(b[2..]);
    assert FromLittleEndian(b[2..]) == b[2] as int + 0x100 * FromLittleEndian(b[3..]);
  }

  /** A length is eight bytes, the least significant first. */
  lemma LengthLayout(n: nat)
    requires n < 0x8000_0000_0000_0000
    ensures var p := Pack(n);
      && |p| == 8
      && n == p[0] as int + 0x100 * p[1] as int + 0x1_0000 * p[2] as int + 0x100_0000 * p[3] as int
              + 0x1_0000_0000 * (p[4] as int + 0x100 * p[5] as int + 0x1_0000 * p[6] as int + 0x100_0000 * p[7] as int)
  {
    var p := Pack(n);
    EightBytes();
    LittleEndianReadsBack(n, 8);
    FourBytes(p);
    FourBytes(p[4..]);
    assert p[4..][4..] == [];
  }

  // ----- writing -----

  function FrameAll(buffers: seq<seq<byte>>): seq<byte> {
    if buffers == [] then [] else Pack(|buffers[0]|) + buffers[0] + FrameAll(buffers[1..])
  }

  lemma {:induction false} FrameAppend(buffers: seq<seq<byte>>, m: seq<byte>)
    ensures FrameAll(buffers + [m]) == FrameAll(buffers) + Pack(|m|) + m
    decreases |buffers|
  {
    if buffers == [] {
      assert (buffers + [m])[1..] == [];
      assert Pack(|m|) + m + [] == [] + Pack(|m|) + m;
    } else {
      FrameAppend(buffers[1..], m);
      assert (buffers + [m])[1..] == buffers[1..] + [m];
      Regroup(Pack(|buffers[0]|) + buffers[0], FrameAll(buffers[1..]), Pack(|m|), m);
    }
  }

  lemma Regroup(a: seq<byte>, b: seq<byte>, c: seq<byte>, d: seq<byte>)
    ensures a + (b + c + d) == a + b + c + d
  {
  }

  function Dump(opcodes: seq<byte>, buffers: seq<seq<byte>>): seq<byte> {
    Pack(|opcodes|) + opcodes + FrameAll(buffers)
  }

  ghost predicate Packable(opcodes: seq<byte>, buffers: seq<seq<byte>>) {
    |opcodes| < INT64_LIMIT && forall b :: b in buffers ==> |b| < INT64_LIMIT
  }

  /** The pickler hands over its buffers one by one, then the opcodes; the opcodes go first in the file. */
  method DumpOob(opcodes: seq<byte>, buffers: seq<seq<byte>>) returns (f: seq<byte>)
    ensures f == Dump(opcodes, buffers)
  {
    var tmp: seq<byte> := [];
    for i := 0 to |buffers|
      invariant tmp == FrameAll(buffers[..i])
    {
      var m := buffers[i];
      assert buffers[..i + 1] == buffers[..i] + [m];
      FrameAppend(buffers[..i], m);
      tmp := tmp + Pack(|m|);
      tmp := tmp + m;
    }
    assert buffers[..|buffers|] == buffers;
    f := Pack(|opcodes|);
    f := f + opcodes;
    f := f + tmp;
  }

  // ----- reading -----

  datatype ReadError = StructError | NegativeLength

  /** Data of the announced length; where the file ends early, the rest of the array stays zero. */
  function Filled(rest: seq<byte>, length: nat): seq<byte> {
    if |rest| >= length then rest[..length] else rest + seq(length - |rest|, _ => 0)
  }

  function After(rest: seq<byte>, length: nat): seq<byte> {
    rest[Least(length, |rest|)..]
  }

  function ParseBuffers(rest: seq<byte>): Result<seq<seq<byte>>, ReadError>
    decreases |rest|
  {
    if rest == [] then Ok([])
    else if |rest| < 8 then Err(StructError)
    else
      var length := Unpack(rest[..8]);
      if length < 0 then Err(NegativeLength)
      else
        Prepend([Filled(rest[8..], length)], ParseBuffers(After(rest[8..], length)))
  }

  function Prepend(first: seq<seq<byte>>, r: Result<seq<seq<byte>>, ReadError>): Result<seq<seq<byte>>, ReadError> {
    if r.Err? then r else Ok(first + r.value)
  }

  lemma PrependStep(first: seq<seq<byte>>, b: seq<byte>, r: Result<seq<seq<byte>>, ReadError>)
    ensures Prepend(first, Prepend([b], r)) == Prepend(first + [b], r)
  {
    if r.Ok? {
      assert first + ([b] + r.value) == first + [b] + r.value;
    }
  }

  lemma PrependNothing(first: seq<seq<byte>>, r: Result<seq<seq<byte>>, ReadError>)
    ensures Prepend([], r) == r && Prepend(first, Ok([])) == Ok(first)
  {
    assert first + [] == first;
    if r.Ok? {
      assert [] + r.value == r.value;
    }
  }

  /** `read` takes -1 for everything and refuses other negative lengths. */
  function Parse(data: seq<byte>): Result<(seq<byte>, seq<seq<byte>>), ReadError> {
    if |data| < 8 then Err(StructError)
    else
      var length := Unpack(data[..8]);
      if length < -1 then Err(NegativeLength)
      else
        var body := data[8..];
        var take := if length == -1 then |body| else Least(length, |body|);
        var buffers := ParseBuffers(body[take..]);
        if buffers.Err? then Err(buffers.error) else Ok((body[..take], buffers.value))
  }

  // ----- dumps cut short -----

  /** What is read of framed buffers of which only the first `k` bytes are there. */
  function CutShort(buffers: seq<seq<byte>>, k: nat): Result<seq<seq<byte>>, ReadError> {
    if k == 0 || buffers == [] then Ok([])
    else if k < 8 then Err(StructError)
    else if k - 8 <= |buffers[0]| then Ok([buffers[0][..k - 8] + seq(|buffers[0]| - (k - 8), _ => 0)])
    else Prepend([buffers[0]], CutShort(buffers[1..], k - 8 - |buffers[0]|))
  }

  lemma FrontOfFrames(b: seq<byte>, rest: seq<byte>, k: nat)
    requires 8 <= k <= 8 + |b| + |rest|
    ensures var data := (Pack(|b|) + b + rest)[..k];
      && data[..8] == Pack(|b|)
      && data[8..] == if k - 8 <= |b| then b[..k - 8] else b + rest[..k - 8 - |b|]
  {
    var whole := Pack(|b|) + b + rest;
    assert whole == Pack(|b|) + (b + rest);
    assert whole[..k][..8] == whole[..8];
    assert whole[..k][8..] == whole[8..k] == (b + rest)[..k - 8];
  }

  lemma {:induction false} ParseCut(buffers: seq<seq<byte>>, k: nat)
    requires k <= |FrameAll(buffers)| && forall b :: b in buffers ==> |b| < INT64_LIMIT
    ensures ParseBuffers(FrameAll(buffers)[..k]) == CutShort(buffers, k)
    decreases |buffers|
  {
    if k >= 8 && buffers != [] {
      var b, rest := buffers[0], FrameAll(buffers[1..]);
      var data := FrameAll(buffers)[..k];
      FrontOfFrames(b, rest, k);
      UnpackPack(|b|);
      if k - 8 <= |b| {
        assert After(data[8..], |b|) == [];
        assert Filled(data[8..], |b|) == b[..k - 8] + seq(|b| - (k - 8), _ => 0);
        assert ParseBuffers(data) == Prepend([Filled(data[8..], |b|)], Ok([]));
        PrependNothing([Filled(data[8..], |b|)], Ok([]));
      } else {
        assert After(data[8..], |b|) == rest[..k - 8 - |b|];
        assert Filled(data[8..], |b|) == b;
        ParseCut(buffers[1..], k - 8 - |b|);
      }
    }
  }

  /**
   A dump that was cut after `k` bytes: a cut inside a length raises, one inside the opcodes leaves them short,
   and one inside a buffer leaves its rest zero; the buffers before are whole, and those after are missing.
   */
  lemma CutDump(opcodes: seq<byte>, buffers: seq<seq<byte>>, k: nat)
    requires Packable(opcodes, buffers) && k <= |Dump(opcodes, buffers)|
    ensures Parse(Dump(opcodes, buffers)[..k]) ==
      if k < 8 then Err(StructError)
      else if k - 8 < |opcodes| then Ok((opcodes[..k - 8], []))
      else match CutShort(buffers, k - 8 - |opcodes|)
        case Ok(read) => Ok((opcodes, read))
        case Err(e) => Err(e)
  {
    if k >= 8 {
      var data := Dump(opcodes, buffers)[..k];
      FrontOfFrames(opcodes, FrameAll(buffers), k);
      UnpackPack(|opcodes|);
      var body := data[8..];
      if k - 8 < |opcodes| {
        assert body[|body|..] == [] && body[..|body|] == body;
      } else {
        assert body[..|opcodes|] == opcodes;
        assert body[|opcodes|..] == FrameAll(buffers)[..k - 8 - |opcodes|];
        ParseCut(buffers, k - 8 - |opcodes|);
      }
    }
  }

  method LoadOob(f: ChunkStream) returns (r: Result<(seq<byte>, seq<seq<byte>>), ReadError>)
    requires f.Complete()
    modifies f
    ensures r == Parse(old(f.Remaining()))
  {
    ghost var data := f.Remaining();
    var h := f.Read(8);
    if |h| < 8 {
      return Err(StructError);
    }
    assert h == data[..8];
    var length := Unpack(h);
    if length < -1 {
      return Err(NegativeLength);
    }
    var opcodes;
    if length == -1 {
      opcodes := ReadToEnd(f);
    } else {
      opcodes := f.Read(length);
    }
    ghost var body := data[8..];
    ghost var take := if length == -1 then |body| else Least(length, |body|);
    assert opcodes == body[..take] && f.Remaining() == body[take..];
    var buffers := LoadBuffers(f);
    return if buffers.Err? then Err(buffers.error) else Ok((opcodes, buffers.value));
  }

  method ReadToEnd(f: ChunkStream) returns (all: seq<byte>)
    requires f.Complete()
    modifies f
    ensures f.Complete() && all == old(f.Remaining()) && f.Remaining() == []
  {
    all := [];
    ghost var whole := f.Remaining();
    while true
      invariant f.Complete() && all + f.Remaining() == whole
      decreases |f.Remaining()|
    {
      ghost var left := f.Remaining();
      var part := f.Read(8192);
      PartOfRest(all, left, part, f.Remaining());
      if part == [] {
        break;
      }
      all := all + part;
    }
  }

  /** What was read and the rest make up what was left. */
  lemma PartOfRest(all: seq<byte>, left: seq<byte>, part: seq<byte>, rest: seq<byte>)
    requires part <= left && rest == left[|part|..] && (part == [] ==> left == [])
    ensures (all + part) + rest == all + left && (part != [] ==> |rest| < |left|)
    ensures part == [] ==> all + left == all
  {
  }

  method LoadBuffers(f: ChunkStream) returns (r: Result<seq<seq<byte>>, ReadError>)
    requires f.Complete()
    modifies f
    ensures r == ParseBuffers(old(f.Remaining()))
  {
    var buffers: seq<seq<byte>> := [];
    ghost var rest := f.Remaining();
    PrependNothing([], ParseBuffers(rest));
    while true
      invariant f.Complete() && ParseBuffers(rest) == Prepend(buffers, ParseBuffers(f.Remaining()))
      decreases |f.Remaining()|
    {
      ghost var left := f.Remaining();
      var h := f.Read(8);
      if h == [] {
        PrependNothing(buffers, ParseBuffers(left));
        return Ok(buffers);
      }
      if |h| < 8 {
        return Err(StructError);
      }
      var length := Unpack(h);
      if length < 0 {
        return Err(NegativeLength);
      }
      var buf := LoadBuffer(f, length);
      PrependStep(buffers, buf, ParseBuffers(f.Remaining()));
      buffers := buffers + [buf];
    }
  }

  /** A zeroed array of the announced length, filled as far as the stream goes. */
  method LoadBuffer(f: ChunkStream, length: nat) returns (data: seq<byte>)
    requires f.Complete()
    modifies f
    ensures f.Complete()
    ensures data == Filled(old(f.Remaining()), length) && f.Remaining() == After(old(f.Remaining()), length)
  {
    var buf := new byte[length](_ => 0);
    ghost var left, zeros := f.Remaining(), seq(length, _ => 0 as byte);
    assert buf[..] == zeros;
    var n := f.ReadInto(buf);
    assert buf[n..] == zeros[n..] == seq(length - n, _ => 0);
    assert buf[..n] == left[..n];
    data := buf[..n] + buf[n..];
  }

  // ----- round trip -----

  lemma SplitAt(a: seq<byte>, b: seq<byte>, c: seq<byte>)
    ensures (a + b + c)[..|a|] == a && (a + b + c)[|a|..] == b + c
    ensures (b + c)[..|b|] == b && (b + c)[|b|..] == c
  {
  }

  lemma {:induction false} FramesReadBack(buffers: seq<seq<byte>>)
    requires forall b :: b in buffers ==> |b| < INT64_LIMIT
    ensures ParseBuffers(FrameAll(buffers)) == Ok(buffers)
    decreases |buffers|
  {
    if buffers != [] {
      UnpackPack(|buffers[0]|);
      SplitAt(Pack(|buffers[0]|), buffers[0], FrameAll(buffers[1..]));
      FramesReadBack(buffers[1..]);
      assert [buffers[0]] + buffers[1..] == buffers;
    }
  }

  /** Loading what was dumped gives back the opcodes and every buffer, empty ones included. */
  lemma DumpThenLoad(opcodes: seq<byte>, buffers: seq<seq<byte>>)
    requires Packable(opcodes, buffers)
    ensures Parse(Dump(opcodes, buffers)) == Ok((opcodes, buffers))
  {
    var data := Dump(opcodes, buffers);
    UnpackPack(|opcodes|);
    SplitAt(Pack(|opcodes|), opcodes, FrameAll(buffers));
    FramesReadBack(buffers);
  }

  /**
   End to end: dump to a file, split it into any sufficient number of chunks, open the chunks, load:
   the same opcodes and buffers come back.
   */
  lemma EndToEnd(files: Files, path: string, spare: nat, opcodes: seq<byte>, buffers: seq<seq<byte>>)
    requires Packable(opcodes, buffers)
    ensures var n := NeededChunks(|Dump(opcodes, buffers)|) + spare;
      var after := Chunked(files[path := Dump(opcodes, buffers)], path, n);
      && StreamPaths(after, path) == Ok(ChunkNames(path, n))
      && (forall p :: p in ChunkNames(path, n) ==> p in after)
      && Parse(Concat(after, ChunkNames(path, n))) == Ok((opcodes, buffers))
  {
    SplitThenJoin(files[path := Dump(opcodes, buffers)], path, NeededChunks(|Dump(opcodes, buffers)|) + spare);
    DumpThenLoad(opcodes, buffers);
  }

  /** The same with the code itself, whatever else is in the directory. */
  method SaveAndLoad(dir: Directory, path: string, spare: nat, opcodes: seq<byte>, buffers: seq<seq<byte>>)
    returns (r: Result<(seq<byte>, seq<seq<byte>>), ReadError>)
    requires Packable(opcodes, buffers)
    modifies dir
    ensures r == Ok((opcodes, buffers)) && path !in dir.files
  {
    var f := DumpOob(opcodes, buffers);
    var n := NeededChunks(|f|) + spare;
    EndToEnd(dir.files, path, spare, opcodes, buffers);
    ManifestReadsBack(dir.files[path := f], path, n);
    dir.files := dir.files[path := f];
    var chunked := dir.ChunkFile(path, n);
    r := OpenAndLoad(dir, path, ChunkNames(path, n));
  }

  method OpenAndLoad(dir: Directory, path: string, names: seq<string>) returns (r: Result<(seq<byte>, seq<seq<byte>>), ReadError>)
    requires StreamPaths(dir.files, path) == Ok(names) && forall p :: p in names ==> p in dir.files
    ensures r == Parse(Concat(dir.files, names))
  {
    var result := dir.OpenFileChunked(path);
    var stream := result.value;
    ghost var data := Concat(dir.files, names);
    assert [] + data == data;
    assert stream.Remaining() == data;
    r := LoadOob(stream);
  }
}
