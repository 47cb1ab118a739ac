/** The streaming writer shared by both synthesis tools: make sure the parent directory
    exists, open the destination for binary writing, send the request and write every chunk
    of the answer in arrival order, and report the result as a string. */
module Writer {
  import opened Common
  import opened Request
  import opened Paths
  import opened Storage
  import opened Remote

  const SuccessPrefix := "成功生成语音文件："
  const FailurePrefix := "生成语音失败："

  /** What a tool does with the caller: return a string, or let an exception escape. */
  datatype Outcome = Returned(message: string) | Raised(error: string)

  /** Whether, and at which chunk, a local write fails. */
  datatype WriteFault = NoWriteFault | FailAt(index: nat, message: string)

  /** The failures of the local system that one call runs into: the oracle for os.makedirs,
      for open(path, "wb") and for f.write. */
  datatype Faults = Faults(makedirs: Option<string>, open: Option<string>, write: WriteFault)

  const NoFaults := Faults(None, None, NoWriteFault)

  /** The observable state: files, directories and the requests sent so far. */
  datatype World = World(files: map<string, seq<byte>>, dirs: set<string>, sent: seq<TtsRequest>)

  function Snapshot(fs: FileSystem, session: Session): World
    reads fs, session
  {
    World(fs.files, fs.dirs, session.sent)
  }

  /** The number of chunks written before the stream ends or a write fails. */
  function Delivered(resp: Response, wf: WriteFault): (n: nat)
    ensures n <= |resp.chunks|
  {
    if wf.FailAt? && wf.index < |resp.chunks| then wf.index else |resp.chunks|
  }

  /** The error that ends the draining loop, if any: the first failing write, else the
      error the stream raises after its last chunk. */
  function StreamError(resp: Response, wf: WriteFault): Option<string> {
    if wf.FailAt? && wf.index < |resp.chunks| then Some(wf.message) else resp.failure
  }

  /** `for chunk in stream: f.write(chunk)` on an open file: the file grows by the delivered
      chunks, in order, and the loop stops at the first error. */
  method Drain(fs: FileSystem, path: string, resp: Response, wf: WriteFault) returns (err: Option<string>)
    requires path in fs.files
    modifies fs
    ensures fs.dirs == old(fs.dirs)
    ensures fs.files == old(fs.files)[path := old(fs.files[path]) + Concat(resp.chunks[..Delivered(resp, wf)])]
    ensures err == StreamError(resp, wf)
  {
    ghost var before := fs.files[path];
    var i := 0;
    assert resp.chunks[..0] == [] && before + [] == before;
    assert fs.files == old(fs.files)[path := before];
    while i < |resp.chunks|
      invariant i <= |resp.chunks|
      invariant !(wf.FailAt? && wf.index < i)
      invariant fs.dirs == old(fs.dirs)
      invariant fs.files == old(fs.files)[path := before + Concat(resp.chunks[..i])]
    {
      var fault := if wf.FailAt? && wf.index == i then Some(wf.message) else None;
      ConcatSnoc(resp.chunks[..i], resp.chunks[i]);
      assert resp.chunks[..i + 1] == resp.chunks[..i] + [resp.chunks[i]];
      assert (before + Concat(resp.chunks[..i])) + resp.chunks[i] == before + Concat(resp.chunks[..i + 1]);
      var werr := fs.Write(path, resp.chunks[i], fault);
      if werr != None {
        assert Delivered(resp, wf) == i;
        return werr;
      }
      i := i + 1;
    }
    assert resp.chunks[..i] == resp.chunks;
    err := resp.failure;
  }

  /** os.path.dirname(path) must be created before writing. */
  predicate NeedsDir(w: World, dir: string) {
    dir != "" && !(dir in w.files || dir in w.dirs)
  }

  /** The specification of one synthesis into `path`. A failing os.makedirs escapes as an
      exception; a failing open, remote call or write becomes the failure string; otherwise
      the file holds every chunk and the success string names the path. */
  function Synthesis(w: World, respond: TtsRequest -> Response, path: string, req: TtsRequest, faults: Faults): (World, Outcome) {
    var dir := Dirname(path);
    if NeedsDir(w, dir) && faults.makedirs != None then
      (w, Raised(faults.makedirs.value))
    else
      var dirs := if NeedsDir(w, dir) then w.dirs + {dir} else w.dirs;
      if faults.open != None then
        (World(w.files, dirs, w.sent), Returned(FailurePrefix + faults.open.value))
      else
        var resp := respond(req);
        var err := StreamError(resp, faults.write);
        (World(w.files[path := Concat(resp.chunks[..Delivered(resp, faults.write)])], dirs, w.sent + [req]),
         Returned(if err == None then SuccessPrefix + path else FailurePrefix + err.value))
  }

  /** Create the missing parent directory, open the destination with "wb", send the request
      and drain the answer into the file; report the outcome as a string, except that a
      failing directory creation escapes as an exception. */
  method Synthesize(session: Session, fs: FileSystem, path: string, req: TtsRequest, faults: Faults) returns (o: Outcome)
    modifies fs, session
    ensures (Snapshot(fs, session), o) == Synthesis(old(Snapshot(fs, session)), session.respond, path, req, faults)
  {
    var dir := Dirname(path);
    if dir != "" && !fs.Exists(dir) {
      var derr := fs.MakeDirs(dir, faults.makedirs);
      if derr != None {
        return Raised(derr.value);
      }
    }
    var oerr := fs.OpenForWrite(path, faults.open);
    if oerr != None {
      return Returned(FailurePrefix + oerr.value);
    }
    ghost var afterOpen := fs.files;
    var resp := session.Tts(req);
    var serr := Drain(fs, path, resp, faults.write);
    ghost var written := Concat(resp.chunks[..Delivered(resp, faults.write)]);
    assert afterOpen[path] + written == written;
    assert fs.files == old(fs.files)[path := written];
    if serr != None {
      return Returned(FailurePrefix + serr.value);
    }
    return Returned(SuccessPrefix + path);
  }

  /** A success string is never a failure string: they differ in their first character. */
  lemma PrefixesDiffer(a: string, b: string)
    ensures SuccessPrefix + a != FailurePrefix + b
  {
    assert (SuccessPrefix + a)[0] != (FailurePrefix + b)[0];
  }

  /** The call reports success exactly when nothing failed, and then the file holds the
      concatenation of all chunks, whatever it held before. */
  lemma SuccessIffStreamCompletes(w: World, respond: TtsRequest -> Response, path: string, req: TtsRequest, faults: Faults)
    ensures var (w', o) := Synthesis(w, respond, path, req, faults);
      (o == Returned(SuccessPrefix + path)) <==>
        (!(NeedsDir(w, Dirname(path)) && faults.makedirs != None) && faults.open == None &&
         StreamError(respond(req), faults.write) == None)
    ensures var (w', o) := Synthesis(w, respond, path, req, faults);
      o == Returned(SuccessPrefix + path) ==>
        path in w'.files && w'.files[path] == Concat(respond(req).chunks) && w'.sent == w.sent + [req]
  {
    var resp := respond(req);
    var (w', o) := Synthesis(w, respond, path, req, faults);
    if faults.open != None {
      PrefixesDiffer(path, faults.open.value);
    } else if StreamError(resp, faults.write) != None {
      PrefixesDiffer(path, StreamError(resp, faults.write).value);
    }
    if StreamError(resp, faults.write) == None {
      assert resp.chunks[..Delivered(resp, faults.write)] == resp.chunks;
    }
  }

  /** Failures are reported, never raised, once the directory exists: a failing os.makedirs
      escapes with nothing changed; a failing open leaves files and request log alone and
      returns the failure string; a failing stream or write returns the failure string
      with its message. */
  lemma FailureReported(w: World, respond: TtsRequest -> Response, path: string, req: TtsRequest, faults: Faults)
    ensures var (w', o) := Synthesis(w, respond, path, req, faults);
      NeedsDir(w, Dirname(path)) && faults.makedirs != None ==>
        w' == w && o == Raised(faults.makedirs.value)
    ensures var (w', o) := Synthesis(w, respond, path, req, faults);
      !(NeedsDir(w, Dirname(path)) && faults.makedirs != None) && faults.open != None ==>
        w'.files == w.files && w'.sent == w.sent && o == Returned(FailurePrefix + faults.open.value)
    ensures var (w', o) := Synthesis(w, respond, path, req, faults);
      !(NeedsDir(w, Dirname(path)) && faults.makedirs != None) && faults.open == None &&
      StreamError(respond(req), faults.write) != None ==>
        o == Returned(FailurePrefix + StreamError(respond(req), faults.write).value)
  {
  }

  /** Only the destination file can change, and no directory other than its parent appears. */
  lemma SynthesisFrame(w: World, respond: TtsRequest -> Response, path: string, req: TtsRequest, faults: Faults)
    ensures var (w', o) := Synthesis(w, respond, path, req, faults);
      (forall p :: p in w.files && p != path ==> p in w'.files && w'.files[p] == w.files[p]) &&
      w'.files.Keys <= w.files.Keys + {path} &&
      w.dirs <= w'.dirs <= w.dirs + {Dirname(path)}
  {
  }

  /** Whatever the failure, the destination holds a prefix of the complete stream: what was
      written before the error stays on disk. */
  lemma PartialFileIsPrefix(w: World, respond: TtsRequest -> Response, path: string, req: TtsRequest, faults: Faults)
    requires faults.open == None && !(NeedsDir(w, Dirname(path)) && faults.makedirs != None)
    ensures var (w', o) := Synthesis(w, respond, path, req, faults);
      path in w'.files && w'.files[path] <= Concat(respond(req).chunks)
  {
    var resp := respond(req);
    ConcatPrefix(resp.chunks, Delivered(resp, faults.write));
  }

  /** No remote request is made unless the file was opened: a failure to create the
      directory or to open the file leaves the request log alone. */
  lemma RequestSentIffOpened(w: World, respond: TtsRequest -> Response, path: string, req: TtsRequest, faults: Faults)
    ensures var (w', o) := Synthesis(w, respond, path, req, faults);
      (w'.sent == w.sent + [req] <==> (faults.open == None && !(NeedsDir(w, Dirname(path)) && faults.makedirs != None))) &&
      (w'.sent == w.sent || w'.sent == w.sent + [req])
  {
  }

  /** A second fault-free call to the same destination replaces whatever the first one
      left: the file then holds exactly the second answer's chunks, even when the service
      answers the repeated request differently. */
  lemma RepeatOverwrites(w: World, respond: TtsRequest -> Response, respond2: TtsRequest -> Response,
                         path: string, req: TtsRequest)
    requires respond2(req).failure == None
    ensures var (w1, o1) := Synthesis(w, respond, path, req, NoFaults);
      var (w2, o2) := Synthesis(w1, respond2, path, req, NoFaults);
      w2.files == w1.files[path := Concat(respond2(req).chunks)] && w2.dirs == w1.dirs &&
      o2 == Returned(SuccessPrefix + path)
  {
    var (w1, o1) := Synthesis(w, respond, path, req, NoFaults);
    SuccessIffStreamCompletes(w1, respond2, path, req, NoFaults);
  }

  /** The three-chunk stream "AAA", "BBB", "CCC" with no faults yields the file "AAABBBCCC". */
  lemma ThreeChunkExample(w: World, respond: TtsRequest -> Response, path: string, req: TtsRequest)
    requires respond(req) == Response([[65, 65, 65], [66, 66, 66], [67, 67, 67]], None)
    ensures var (w', o) := Synthesis(w, respond, path, req, NoFaults);
      o == Returned(SuccessPrefix + path) && w'.files[path] == [65, 65, 65, 66, 66, 66, 67, 67, 67]
  {
    var chunks: seq<seq<byte>> := [[65, 65, 65], [66, 66, 66], [67, 67, 67]];
    assert chunks[..3] == chunks;
    assert Concat(chunks) == [65, 65, 65] + Concat(chunks[1..]);
    assert Concat(chunks[1..]) == [66, 66, 66] + Concat(chunks[2..]);
    assert Concat(chunks[2..]) == [67, 67, 67] + Concat(chunks[3..]);
  }
}
