/** Splitting and joining are inverse, for every file and every sufficient number of chunks. */
module ChunkRoundTrip {
  import opened Wrappers
  import opened Decimal
  import opened FileChunker
  import opened Extremes

  lemma {:induction false} ChunkWritten(files: Files, path: string, content: seq<byte>, n: nat, k: nat, i: nat)
    requires i < k <= n
    ensures GetChunkName(path, i, n) in WithChunks(files, path, content, n, k)
    ensures WithChunks(files, path, content, n, k)[GetChunkName(path, i, n)] == Slice(content, i, CHUNK_SIZE)
  {
    if i < k - 1 {
      ChunkWritten(files, path, content, n, k - 1, i);
      if GetChunkName(path, i, n) == GetChunkName(path, k - 1, n) {
        ChunkNamesDistinct(path, i, k - 1, n);
      }
    }
  }

  lemma ChunkKept(files: Files, path: string, n: nat, i: nat)
    requires path in files && i < n
    ensures GetChunkName(path, i, n) in Chunked(files, path, n)
    ensures Chunked(files, path, n)[GetChunkName(path, i, n)] == Slice(files[path], i, CHUNK_SIZE)
  {
    ChunkWritten(files, path, files[path], n, n, i);
    ChunkIsNotManifest(path, i, n);
  }

  lemma ManifestReadsBack(files: Files, path: string, n: nat)
    requires path in files
    ensures StreamPaths(Chunked(files, path, n), path) == Ok(ChunkNames(path, n))
    ensures path !in Chunked(files, path, n)
  {
    ChunkIsNotManifest(path, 0, n);
    var text := Ascii(Text(n));
    assert FromAscii(text) == "" + Text(n) + "";
    IntOfText(n, "", "");
  }

  /** A manifest that holds a number decides, also beside the file itself; without one the file does. */
  lemma ManifestFirst(files: Files, path: string, n: nat)
    ensures GetManifestPath(path) in files && files[GetManifestPath(path)] == Ascii(Text(n)) ==>
              StreamPaths(files, path) == Ok(ChunkNames(path, n))
    ensures GetManifestPath(path) !in files ==>
              StreamPaths(files, path) == if path in files then Ok([path]) else Err(FileNotFound(path))
  {
    assert FromAscii(Ascii(Text(n))) == "" + Text(n) + "";
    IntOfText(n, "", "");
  }

  /** Where the `i`-th slice of a content of `length` bytes starts. */
  function Start(i: nat, length: nat): (r: nat)
    ensures r <= length
  {
    Least(i * CHUNK_SIZE, length)
  }

  lemma StartGrows(i: nat, j: nat, length: nat)
    requires i <= j
    ensures Start(i, length) <= Start(j, length)
  {
    assert (j - i) * CHUNK_SIZE >= 0;
  }

  /** Reading the slices from `i` on gives the content from the start of slice `i` on. */
  lemma {:induction false} JoinFrom(files: Files, names: seq<string>, content: seq<byte>, i: nat)
    requires i <= |names|
    requires forall j :: 0 <= j < |names| ==> names[j] in files && files[names[j]] == Slice(content, j, CHUNK_SIZE)
    ensures forall p :: p in names[i..] ==> p in files
    ensures Start(i, |content|) <= Start(|names|, |content|)
    ensures Concat(files, names[i..]) == content[Start(i, |content|)..Start(|names|, |content|)]
    decreases |names| - i
  {
    StartGrows(i, |names|, |content|);
    if i < |names| {
      JoinFrom(files, names, content, i + 1);
      StartGrows(i, i + 1, |content|);
      var rest := names[i..];
      assert rest[1..] == names[i + 1..] && rest[0] == names[i];
      Abut(content, Start(i, |content|), Start(i + 1, |content|), Start(|names|, |content|));
    } else {
      assert names[i..] == [];
    }
  }

  lemma Abut(content: seq<byte>, a: nat, b: nat, c: nat)
    requires a <= b <= c <= |content|
    ensures content[a..b] + content[b..c] == content[a..c]
  {
  }

  lemma EnoughChunks(size: nat, n: nat)
    requires n >= NeededChunks(size)
    ensures n * CHUNK_SIZE >= size
  {
  }

  /** After `chunk_file` the stream that `open_file_chunked` opens carries exactly the file. */
  lemma SplitThenJoin(files: Files, path: string, n: nat)
    requires path in files && n >= NeededChunks(|files[path]|)
    ensures var after := Chunked(files, path, n);
      && StreamPaths(after, path) == Ok(ChunkNames(path, n))
      && (forall p :: p in ChunkNames(path, n) ==> p in after)
      && Concat(after, ChunkNames(path, n)) == files[path]
  {
    var after, names, content := Chunked(files, path, n), ChunkNames(path, n), files[path];
    ManifestReadsBack(files, path, n);
    forall j | 0 <= j < |names| ensures names[j] in after && after[names[j]] == Slice(content, j, CHUNK_SIZE) {
      ChunkKept(files, path, n, j);
    }
    JoinFrom(after, names, content, 0);
    EnoughChunks(|content|, n);
    assert names[0..] == names;
    assert content[0..|content|] == content;
  }

  /**
   Every chunk but the last one that is not empty has 45 MiB, that one has the rest, and those after it are
   empty; so the chosen count is the least that leaves no chunk empty.
   */
  lemma ChunkSizes(files: Files, path: string, n: nat, i: nat)
    requires path in files && n >= NeededChunks(|files[path]|) && i < n
    ensures var after, name, size := Chunked(files, path, n), GetChunkName(path, i, n), |files[path]|;
      && name in after
      && |after[name]| == (if size >= (i + 1) * 47185920 then 47185920 else if size > i * 47185920 then size - i * 47185920 else 0)
    ensures var count, size := TargetCount(|files[path]|), |files[path]|;
      count * 47185920 >= size && (count > 0 ==> (count - 1) * 47185920 < size)
  {
    ChunkKept(files, path, n, i);
    EnoughTargets(|files[path]|);
    SliceSize(files[path], i);
  }

  lemma SliceSize(content: seq<byte>, i: nat)
    ensures var size := |content|;
      |Slice(content, i, CHUNK_SIZE)|
        == (if size >= (i + 1) * 47185920 then 47185920 else if size > i * 47185920 then size - i * 47185920 else 0)
  {
    assert CHUNK_SIZE == 47185920;
    assert (i + 1) * CHUNK_SIZE == i * CHUNK_SIZE + 47185920;
  }

  lemma EnoughTargets(size: nat)
    ensures var count := TargetCount(size); count * 47185920 >= size && (count > 0 ==> (count - 1) * 47185920 < size)
  {
  }

  /** A chunk's name is the path with its number and the count, both from 1 and in two digits or more. */
  lemma ChunkNameReads(path: string, i: nat, n: nat) returns (a: string, b: string)
    ensures GetChunkName(path, i, n) == path + ".chunk" + a + "of" + b
    ensures Parse(a) == Some(i + 1) && Parse(b) == Some(n) && |a| >= 2 && |b| >= 2
    ensures |a| > 2 ==> a[0] != '0'
  {
    a, b := Padded(i + 1), Padded(n);
    ParsePadded(i + 1);
    ParsePadded(n);
    NoLeadingZero(i + 1);
  }

  /** The count that `get_chunk_targets` chooses is accepted by `chunk_file` iff the file is not empty. */
  lemma TargetsSufficeIff(size: nat)
    ensures TargetCount(size) >= NeededChunks(size) <==> size > 0
  {
  }

  // ----- any sequence of reads -----

  /** What successive reads of the given sizes return from a stream. */
  function Served(content: seq<byte>, sizes: seq<nat>): seq<seq<byte>> {
    if sizes == [] then []
    else
      var k := Least(sizes[0], |content|);
      [content[..k]] + Served(content[k..], sizes[1..])
  }

  function Joined(parts: seq<seq<byte>>): seq<byte> {
    if parts == [] then [] else parts[0] + Joined(parts[1..])
  }

  function Total(sizes: seq<nat>): nat {
    if sizes == [] then 0 else sizes[0] + Total(sizes[1..])
  }

  /** Whatever the request sizes, the reads hand out the content in order, up to their total. */
  lemma {:induction false} ReadsAreConsecutive(content: seq<byte>, sizes: seq<nat>)
    ensures Joined(Served(content, sizes)) == content[..Least(Total(sizes), |content|)]
    decreases |sizes|
  {
    if sizes != [] {
      var k := Least(sizes[0], |content|);
      ReadsAreConsecutive(content[k..], sizes[1..]);
      var served := Served(content, sizes);
      assert served[1..] == Served(content[k..], sizes[1..]);
      assert Joined(served) == content[..k] + Joined(served[1..]);
    }
  }

  /** The stream serves any sequence of reads like its content. */
  method ReadAll(s: ChunkStream, sizes: seq<nat>) returns (parts: seq<seq<byte>>)
    requires s.Complete()
    modifies s
    ensures s.Complete() && parts == Served(old(s.Remaining()), sizes)
  {
    if sizes == [] {
      return [];
    }
    var first := s.Read(sizes[0]);
    var rest := ReadAll(s, sizes[1..]);
    parts := [first] + rest;
  }
}
