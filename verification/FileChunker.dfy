/**
 Splitting a file into numbered chunks with a manifest, and reading the chunks back as one stream
 through buffers of any size.
 */
module FileChunker {
  import opened Wrappers
  import opened Decimal
  import opened Extremes

  newtype byte = b: int | 0 <= b < 256

  const CHUNK_SIZE: nat := 45 * 1024 * 1024

  datatype Error = FileNotFound(path: string) | NotEnoughChunks | BadManifest

  type Files = map<string, seq<byte>>

  // ----- names -----

  function GetChunkName(name: string, idx: nat, numChunks: nat): string {
    name + ".chunk" + Padded(idx + 1) + "of" + Padded(numChunks)
  }

  function GetManifestPath(name: string): string {
    name + ".chunkmanifest"
  }

  function ChunkNames(path: string, numChunks: nat): seq<string> {
    seq(numChunks, i requires 0 <= i < numChunks => GetChunkName(path, i, numChunks))
  }

  function CeilDiv(n: nat, d: nat): nat
    requires d > 0
  {
    if n % d == 0 then n / d else n / d + 1
  }

  /** The chunk count that `get_chunk_targets` chooses. */
  function TargetCount(fileSize: nat): nat {
    CeilDiv(fileSize, CHUNK_SIZE)
  }

  /** The least count that `chunk_file` accepts. */
  function NeededChunks(fileSize: nat): nat {
    if TargetCount(fileSize) >= 1 then TargetCount(fileSize) else 1
  }

  lemma ChunkNamesDistinct(path: string, i: nat, j: nat, n: nat)
    requires GetChunkName(path, i, n) == GetChunkName(path, j, n)
    ensures i == j
  {
    SameMiddle(path + ".chunk", "of", Padded(n), Padded(i + 1), Padded(j + 1));
    ParsePadded(i + 1);
    ParsePadded(j + 1);
  }

  lemma SameMiddle(head: string, mid: string, tail: string, a: string, b: string)
    requires head + a + mid + tail == head + b + mid + tail
    ensures a == b
  {
    var s, t := head + a + mid + tail, head + b + mid + tail;
    assert |s| == |t|;
    forall k | 0 <= k < |a| ensures a[k] == b[k] {
      assert s[|head| + k] == a[k] && t[|head| + k] == b[k];
    }
  }

  lemma ChunkIsNotManifest(path: string, i: nat, n: nat)
    ensures GetChunkName(path, i, n) != GetManifestPath(path)
    ensures GetChunkName(path, i, n) != path && GetManifestPath(path) != path
  {
    var chunk, manifest := GetChunkName(path, i, n), GetManifestPath(path);
    assert chunk == (path + ".chunk") + (Padded(i + 1) + "of" + Padded(n));
    assert manifest == (path + ".chunk") + "manifest";
    assert chunk[|path| + 6] == Padded(i + 1)[0];
    assert manifest[|path| + 6] == 'm';
  }

  // ----- contents -----

  /** What the `i`-th successive read of `size` bytes returns: empty past the end. */
  function Slice(content: seq<byte>, i: nat, size: nat): seq<byte> {
    assert i * size <= (i + 1) * size;
    content[Least(i * size, |content|)..Least((i + 1) * size, |content|)]
  }

  function Code(c: char): byte
    requires IsDigit(c)
  {
    c as int as byte
  }

  function Ascii(s: string): seq<byte>
    requires forall i :: 0 <= i < |s| ==> IsDigit(s[i])
  {
    seq(|s|, i requires 0 <= i < |s| => Code(s[i]))
  }

  function FromAscii(b: seq<byte>): string {
    seq(|b|, i requires 0 <= i < |b| => b[i] as int as char)
  }

  /** The first `k` chunks written beside whatever was there. */
  function WithChunks(files: Files, path: string, content: seq<byte>, n: nat, k: nat): Files
    requires k <= n
  {
    if k == 0 then files
    else WithChunks(files, path, content, n, k - 1)[GetChunkName(path, k - 1, n) := Slice(content, k - 1, CHUNK_SIZE)]
  }

  /** The directory after `chunk_file`: chunks and manifest added, the file removed. */
  function Chunked(files: Files, path: string, n: nat): Files
    requires path in files
  {
    WithChunks(files, path, files[path], n, n)[GetManifestPath(path) := Ascii(Text(n))] - {path}
  }

  /** The files an open stream will read, in order. */
  function StreamPaths(files: Files, path: string): Result<seq<string>, Error> {
    var manifest := GetManifestPath(path);
    if manifest in files then
      var n := IntOf(FromAscii(files[manifest]));
      if n.None? then Err(BadManifest) else Ok(ChunkNames(path, if n.value < 0 then 0 else n.value))
    else if path in files then Ok([path])
    else Err(FileNotFound(path))
  }

  function Concat(files: Files, paths: seq<string>): seq<byte>
    requires forall p :: p in paths ==> p in files
  {
    if paths == [] then [] else files[paths[0]] + Concat(files, paths[1..])
  }

  class Directory {
    var files: Files

    constructor (files: Files)
      ensures this.files == files
    {
      this.files := files;
    }

    /** The targets are the manifest and `numChunks` chunk paths, as `_chunk_paths` lists them. */
    method ChunkFile(path: string, numChunks: nat) returns (r: Result<(), Error>)
      modifies this
      ensures r == if path !in old(files) then Err(FileNotFound(path))
                   else if numChunks < NeededChunks(|old(files)[path]|) then Err(NotEnoughChunks)
                   else Ok(())
      ensures files == if r.Ok? then Chunked(old(files), path, numChunks) else old(files)
    {
      if path !in files {
        return Err(FileNotFound(path));
      }
      var content := files[path];
      if numChunks < NeededChunks(|content|) {
        return Err(NotEnoughChunks);
      }
      var cursor := 0;
      var i := 0;
      while i < numChunks
        invariant i <= numChunks && cursor == Least(i * CHUNK_SIZE, |content|)
        invariant files == WithChunks(old(files), path, content, numChunks, i)
      {
        var end := Least(cursor + CHUNK_SIZE, |content|);
        assert (i + 1) * CHUNK_SIZE == i * CHUNK_SIZE + CHUNK_SIZE;
        assert content[cursor..end] == Slice(content, i, CHUNK_SIZE);
        files := files[GetChunkName(path, i, numChunks) := content[cursor..end]];
        cursor := end;
        i := i + 1;
      }
      files := files[GetManifestPath(path) := Ascii(Text(numChunks))];
      files := files - {path};
      return Ok(());
    }

    method OpenFileChunked(path: string) returns (r: Result<ChunkStream, Error>)
      ensures r.Ok? <==> StreamPaths(files, path).Ok?
      ensures r.Err? ==> r.error == StreamPaths(files, path).error
      ensures r.Ok? ==> fresh(r.value) && r.value.files == files
                        && r.value.paths == StreamPaths(files, path).value && r.value.buf == []
    {
      var paths := StreamPaths(files, path);
      if paths.Err? {
        return Err(paths.error);
      }
      var s := new ChunkStream(files, paths.value);
      return Ok(s);
    }
  }

  /** Copying the front of what is buffered continues the copy of the whole. */
  lemma CopyStep(all: seq<byte>, before: seq<byte>, was: seq<byte>, now: seq<byte>, n: nat, take: nat, buf: seq<byte>, tail: seq<byte>)
    requires n + take <= |was| == |before| && take <= |buf| && n <= |all| && all[n..] == buf + tail
    requires was[..n] == all[..n] && was[n..] == before[n..]
    requires now == was[..n] + buf[..take] + was[n + take..]
    ensures n + take <= |all| && |now| == |was|
    ensures now[..n + take] == all[..n + take] && now[n + take..] == before[n + take..]
    ensures all[n + take..] == buf[take..] + tail
  {
    assert all == all[..n] + (buf + tail);
    assert was[n..][take..] == before[n..][take..];
  }

  class ChunkStream {
    const files: Files
    var paths: seq<string>
    var buf: seq<byte>

    /** No chunk is missing. */
    ghost predicate Complete()
      reads this
    {
      forall p :: p in paths ==> p in files
    }

    /** Everything not yet handed out. */
    ghost function Remaining(): seq<byte>
      reads this
      requires Complete()
    {
      buf + Concat(files, paths)
    }

    constructor (files: Files, paths: seq<string>)
      ensures this.files == files && this.paths == paths && buf == []
    {
      this.files := files;
      this.paths := paths;
      buf := [];
    }

    /** Fills `b` across chunk borders; short only at the end of the last chunk. */
    method ReadInto(b: array<byte>) returns (n: nat)
      requires Complete()
      modifies this, b
      ensures Complete()
      ensures n == Least(b.Length, |old(Remaining())|)
      ensures b[..n] == old(Remaining())[..n] && b[n..] == old(b[n..])
      ensures Remaining() == old(Remaining())[n..]
    {
      n := 0;
      ghost var all, before := Remaining(), b[..];
      while n < b.Length
        invariant n <= b.Length && n <= |all| && Complete()
        invariant Remaining() == all[n..]
        invariant b[..n] == all[..n] && b[n..] == before[n..]
        decreases b.Length - n, |paths|, |buf|
      {
        if buf == [] {
          if paths == [] {
            break;
          }
          assert Remaining() == Concat(files, paths);
          buf := files[paths[0]];
          paths := paths[1..];
          continue;
        }
        var take := Least(b.Length - n, |buf|);
        ghost var was := b[..];
        forall i | 0 <= i < take {
          b[n + i] := buf[i];
        }
        assert b[..] == was[..n] + buf[..take] + was[n + take..];
        CopyStep(all, before, was, b[..], n, take, buf, Concat(files, paths));
        buf := buf[take..];
        n := n + take;
      }
    }

    /** `read(size)` of the buffered reader on top. */
    method Read(size: nat) returns (data: seq<byte>)
      requires Complete()
      modifies this
      ensures Complete()
      ensures data == old(Remaining())[..Least(size, |old(Remaining())|)]
      ensures Remaining() == old(Remaining())[|data|..]
    {
      var b := new byte[size](_ => 0);
      var n := ReadInto(b);
      data := b[..n];
    }
  }
}
