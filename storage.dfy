/** The part of the local filesystem the tools touch: regular files with their bytes and
    the set of existing directories. */
module Storage {
  import opened Common

  /** The bytes of a sequence of chunks written one after another, in order. */
  function Concat(chunks: seq<seq<byte>>): seq<byte> {
    if chunks == [] then [] else chunks[0] + Concat(chunks[1..])
  }

  /** Writing one more chunk extends the written bytes by exactly that chunk. */
  lemma {:induction false} ConcatSnoc(chunks: seq<seq<byte>>, c: seq<byte>)
    ensures Concat(chunks + [c]) == Concat(chunks) + c
  {
    if chunks == [] {
      assert [] + [c] == [c];
    } else {
      assert (chunks + [c])[1..] == chunks[1..] + [c];
      ConcatSnoc(chunks[1..], c);
    }
  }

  /** The bytes of the first n chunks are a prefix of the bytes of all chunks: a stream cut
      short leaves a prefix of the complete file. */
  lemma {:induction false} ConcatPrefix(chunks: seq<seq<byte>>, n: nat)
    requires n <= |chunks|
    ensures Concat(chunks[..n]) <= Concat(chunks)
  {
    if n > 0 {
      assert chunks[..n][0] == chunks[0];
      assert chunks[..n][1..] == chunks[1..][..n - 1];
      ConcatPrefix(chunks[1..], n - 1);
    }
  }

  /** The length of the written bytes is the sum of the chunk lengths. */
  function TotalLength(chunks: seq<seq<byte>>): nat {
    if chunks == [] then 0 else |chunks[0]| + TotalLength(chunks[1..])
  }

  lemma {:induction false} ConcatLength(chunks: seq<seq<byte>>)
    ensures |Concat(chunks)| == TotalLength(chunks)
  {
    if chunks != [] {
      ConcatLength(chunks[1..]);
    }
  }

  /** A filesystem whose contents the tools change in place. The fault arguments of the
      methods are an oracle: `Some(message)` makes that call raise with that message. */
  class FileSystem {
    var files: map<string, seq<byte>>
    var dirs: set<string>

    constructor (files: map<string, seq<byte>>, dirs: set<string>)
      ensures this.files == files && this.dirs == dirs
    {
      this.files := files;
      this.dirs := dirs;
    }

    /** os.path.exists: true for an existing file or directory. */
    predicate Exists(p: string)
      reads this
    {
      p in files || p in dirs
    }

    /** os.makedirs(dir). */
    method MakeDirs(dir: string, fault: Option<string>) returns (err: Option<string>)
      modifies this
      ensures err == fault
      ensures files == old(files)
      ensures dirs == if fault == None then old(dirs) + {dir} else old(dirs)
    {
      err := fault;
      if fault == None {
        dirs := dirs + {dir};
      }
    }

    /** open(path, "wb"): on success the file exists and is empty, whatever it held before. */
    method OpenForWrite(path: string, fault: Option<string>) returns (err: Option<string>)
      modifies this
      ensures err == fault
      ensures files == if fault == None then old(files)[path := []] else old(files)
      ensures dirs == old(dirs)
    {
      err := fault;
      if fault == None {
        files := files[path := []];
      }
    }

    /** f.write(chunk) on a file opened for writing: the chunk is appended at the end. */
    method Write(path: string, chunk: seq<byte>, fault: Option<string>) returns (err: Option<string>)
      requires path in files
      modifies this
      ensures err == fault
      ensures files == if fault == None then old(files)[path := old(files[path]) + chunk] else old(files)
      ensures dirs == old(dirs)
    {
      err := fault;
      if fault == None {
        files := files[path := files[path] + chunk];
      }
    }
  }
}
