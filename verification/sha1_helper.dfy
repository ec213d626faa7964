// SHA-1 digests of memory buffers and files, as the compiler records them
// for its cache dependency checks, and the build tool that writes the
// digest of a list of files as a stamp.  The SHA-1 function itself is a
// parameter `sha1`: an incremental hashing context fed a series of chunks
// yields the digest of their concatenation.

module Sha1Helper {
  import opened Common

  /** A SHA-1 context: the bytes fed to it since `SHA1Init`. */
  class Sha1Context {
    var fed: seq<byte>

    /** `SHA1Init`. */
    constructor ()
      ensures fed == []
    {
      fed := [];
    }

    /** `SHA1Update`: the chunk is appended to what the digest covers. */
    method Update(data: seq<byte>)
      modifies this
      ensures fed == old(fed) + data
    {
      fed := fed + data;
    }
  }

  /** `calcSHA1`: the digest of exactly the buffer. */
  method CalcSha1(data: seq<byte>, sha1: seq<byte> -> seq<byte>) returns (result: seq<byte>)
    ensures result == sha1(data)
  {
    var ctx := new Sha1Context();
    ctx.Update(data);
    assert ctx.fed == data;
    result := sha1(ctx.fed);
  }

  /** A file as the chunk loop reads it: its contents, and the read call
    * (counting from 0) that fails, if one does. */
  datatype InputFile = InputFile(contents: seq<byte>, failingRead: Option<nat>)

  /** How many leading bytes of the file the chunk loop feeds: all of them,
    * or when a read fails, the full chunks read before it. */
  function FedLength(f: InputFile, chunkSize: nat): (n: nat)
    ensures n <= |f.contents|
    ensures f.failingRead.None? ==> n == |f.contents|
  {
    if f.failingRead.Some? then Min(chunkSize * f.failingRead.value, |f.contents|)
    else |f.contents|
  }

  lemma MulMonotone(c: nat, a: nat, b: nat)
    requires a <= b
    ensures c * a <= c * b
  {
  }

  /** The read loop of `calcFileSHA1` and `compute_sha1`: read a chunk, stop
    * on an error, feed what was read, and stop after a short read.  The
    * context ends up fed with the file's leading `FedLength` bytes. */
  method FeedFile(ctx: Sha1Context, f: InputFile, chunkSize: nat)
    requires chunkSize > 0
    modifies ctx
    ensures ctx.fed == old(ctx.fed) + f.contents[..FedLength(f, chunkSize)]
  {
    var contents := f.contents;
    var pos := 0;
    var k := 0;
    var done := false;
    while !done
      invariant 0 <= pos <= |contents|
      invariant !done ==> pos == chunkSize * k
      invariant !done && f.failingRead.Some? ==> k <= f.failingRead.value
      invariant done ==> pos == FedLength(f, chunkSize)
      invariant ctx.fed == old(ctx.fed) + contents[..pos]
      decreases if done then 0 else 1, |contents| - pos
    {
      if f.failingRead == Some(k) {
        done := true;
      } else {
        var n := Min(chunkSize, |contents| - pos);
        ctx.Update(contents[pos..pos + n]);
        assert contents[..pos + n] == contents[..pos] + contents[pos..pos + n];
        if n < chunkSize {
          if f.failingRead.Some? {
            MulMonotone(chunkSize, k + 1, f.failingRead.value);
          }
          done := true;
        } else {
          k := k + 1;
        }
        pos := pos + n;
      }
    }
  }

  /** The chunk size of the compiler's `calcFileSHA1`. */
  const FileChunkSize: nat := 256

  /** `calcFileSHA1`: 20 zero bytes when the file cannot be opened;
    * otherwise the digest of what the chunk loop fed, which is the whole
    * file unless a read fails. */
  method CalcFileSha1(file: Option<InputFile>, sha1: seq<byte> -> seq<byte>)
    returns (result: seq<byte>)
    ensures file.None? ==> result == ZeroSha1()
    ensures file.Some? ==> result == sha1(file.value.contents[..FedLength(file.value, FileChunkSize)])
    ensures file.Some? && file.value.failingRead.None? ==> result == sha1(file.value.contents)
  {
    if file.None? {
      return ZeroSha1();
    }
    var ctx := new Sha1Context();
    FeedFile(ctx, file.value, FileChunkSize);
    var f := file.value;
    assert ctx.fed == f.contents[..FedLength(f, FileChunkSize)];
    assert f.contents[..|f.contents|] == f.contents;
    result := sha1(ctx.fed);
  }

  /** A read that fails only after the end of the file is never made: a
    * read failure at or beyond the last chunk does not change the digest. */
  lemma {:induction false} LateFailureIrrelevant(contents: seq<byte>, k: nat)
    requires FileChunkSize * k >= |contents|
    ensures FedLength(InputFile(contents, Some(k)), FileChunkSize) == |contents|
  {
  }

  /** `readSHA1`: fills the caller's buffer with 20 (`resultSize`) zero bytes
    * when the file cannot be opened; otherwise the file's leading bytes
    * (as many as it has, up to the size) are read over the buffer, and a
    * failing read leaves it alone. */
  method ReadSha1(result: array<byte>, resultSize: nat, file: Option<seq<byte>>, readOk: bool)
    requires resultSize <= result.Length
    modifies result
    ensures file.None? ==>
      (forall i :: 0 <= i < resultSize ==> result[i] == 0) &&
      result[resultSize..] == old(result[resultSize..])
    ensures file.Some? && readOk ==>
      var n := Min(resultSize, |file.value|);
      result[..n] == file.value[..n] && result[n..] == old(result[n..])
    ensures file.Some? && !readOk ==> result[..] == old(result[..])
  {
    if file.None? {
      var i := 0;
      while i < resultSize
        invariant 0 <= i <= resultSize
        invariant forall j :: 0 <= j < i ==> result[j] == 0
        invariant forall j :: resultSize <= j < result.Length ==> result[j] == old(result[j])
      {
        result[i] := 0;
        i := i + 1;
      }
      assert result[resultSize..] == old(result[resultSize..]);
      return;
    }
    if readOk {
      var n := Min(resultSize, |file.value|);
      var i := 0;
      while i < n
        invariant 0 <= i <= n
        invariant forall j :: 0 <= j < i ==> result[j] == file.value[j]
        invariant forall j :: n <= j < result.Length ==> result[j] == old(result[j])
      {
        result[i] := file.value[i];
        i := i + 1;
      }
      assert result[..n] == file.value[..n];
      assert result[n..] == old(result[n..]);
    }
  }
}

// The SHA-1 stamp tool of the build: it writes the digest of the
// concatenation of its input files to its output file.
module Sha1Stamp {
  import opened Common
  import opened Sha1Helper

  /** The chunk size of the tool's `compute_sha1`. */
  const StampChunkSize: nat := 1024

  /** The files' contents, one after another. */
  function Concat(paths: seq<seq<char>>, files: map<seq<char>, seq<byte>>): seq<byte>
    requires forall p :: p in paths ==> p in files
  {
    if |paths| == 0 then [] else Concat(paths[..|paths| - 1], files) + files[paths[|paths| - 1]]
  }

  /** `compute_sha1_list`: one context fed every file in order; opening a
    * file that does not exist raises, which ends the tool. */
  method ComputeSha1List(paths: seq<seq<char>>, files: map<seq<char>, seq<byte>>,
                         sha1: seq<byte> -> seq<byte>) returns (digest: Option<seq<byte>>)
    ensures digest.Some? <==> forall p :: p in paths ==> p in files
    ensures digest.Some? ==> digest.value == sha1(Concat(paths, files))
  {
    var ctx := new Sha1Context();
    var i := 0;
    while i < |paths|
      invariant 0 <= i <= |paths|
      invariant forall p :: p in paths[..i] ==> p in files
      invariant ctx.fed == Concat(paths[..i], files)
    {
      if paths[i] !in files {
        return None;
      }
      // `compute_sha1` reads the file in chunks; reads of a local file do not fail.
      FeedFile(ctx, InputFile(files[paths[i]], None), StampChunkSize);
      assert paths[..i + 1][..i] == paths[..i];
      assert files[paths[i]][..|files[paths[i]]|] == files[paths[i]];
      i := i + 1;
    }
    assert paths[..i] == paths;
    return Some(sha1(ctx.fed));
  }

  /** What the tool leaves behind: its exit status, and the output file
    * with its contents when it was created. */
  datatype StampRun = StampRun(exitCode: int, output: Option<(seq<char>, seq<byte>)>)

  /** `main`: fewer than two arguments is a usage error with exit status 1.
    * Otherwise the output file is created first, so an input that cannot
    * be opened leaves it empty (the uncaught error exits with status 1);
    * on success it holds the digest of the inputs. */
  method StampMain(argv: seq<seq<char>>, files: map<seq<char>, seq<byte>>, sha1: seq<byte> -> seq<byte>)
    returns (run: StampRun)
    ensures |argv| < 2 ==> run == StampRun(1, None)
    ensures |argv| >= 2 && (forall p :: p in argv[2..] ==> p in files) ==>
      run == StampRun(0, Some((argv[1], sha1(Concat(argv[2..], files)))))
    ensures |argv| >= 2 && !(forall p :: p in argv[2..] ==> p in files) ==>
      run == StampRun(1, Some((argv[1], [])))
  {
    if |argv| < 2 {
      return StampRun(1, None);
    }
    var digest := ComputeSha1List(argv[2..], files, sha1);
    if digest.None? {
      return StampRun(1, Some((argv[1], [])));
    }
    return StampRun(0, Some((argv[1], digest.value)));
  }
}
