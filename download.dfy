/** The cached downloader: `cachedDownload` fetches a remote artifact once into
    the cache folder and reads it back as a file on every call; `downloadTo`
    streams the response body into `<path>.partial` and renames it to `<path>`
    only when the write stream finishes.

    The filesystem is a map from path to contents plus a set of directories; the
    response body is the finite sequence of values that `reader.read()` yields,
    ending either with `done` or with a read error. */
module Download {
  import opened Wrappers

  type Path = string

  datatype Error =
    | Thrown(message: string)  // a rejection of `fetch`, `reader.read()` or the write stream
    | NotAFile(path: Path)     // `readFileSync` on a missing path or a directory

  datatype File = File(contents: Bytes, name: string)

  /** How the last `reader.read()` settles. */
  datatype ReadEnd =
    | Done(value: Option<Bytes>)  // `{ done: true, value }`: the value, if any, is still written
    | ReadFailed(error: Error)    // `reader.read()` rejects

  /** The values of the reads that came back with `done: false`, then the last read. */
  datatype Body = Body(chunks: seq<Option<Bytes>>, end: ReadEnd)

  /** How the write stream settles after `close()`. */
  datatype WriterOutcome = Finish | WriteError(error: Error)

  // ---------------------------------------------------------------------------
  // Paths

  /** `path.join(folder, key)` for a folder without a trailing separator. */
  function Join(folder: Path, key: string): Path {
    folder + "/" + key
  }

  function PartialPath(localPath: Path): Path {
    localPath + ".partial"
  }

  function LastSegment(p: Path): (s: string)
    ensures '/' !in s
    ensures |s| <= |p| && s == p[|p| - |s|..]
    decreases |p|
  {
    if |p| == 0 || p[|p| - 1] == '/' then "" else LastSegment(p[..|p| - 1]) + [p[|p| - 1]]
  }

  function TrimTrailingSlashes(p: Path): (q: Path)
    ensures |q| <= |p| && q == p[..|q|]
    ensures q == [] || q[|q| - 1] != '/'
    decreases |p|
  {
    if |p| > 0 && p[|p| - 1] == '/' then TrimTrailingSlashes(p[..|p| - 1]) else p
  }

  /** `path.basename(p)`: the last segment, ignoring trailing separators. */
  function Basename(p: Path): (name: string)
    ensures '/' !in name
  {
    LastSegment(TrimTrailingSlashes(p))
  }

  lemma {:induction false} LastSegmentOfSuffix(prefix: Path, key: string)
    requires '/' !in key
    ensures LastSegment(prefix + "/" + key) == key
    decreases |key|
  {
    var p := prefix + "/" + key;
    if |key| > 0 {
      var init := key[..|key| - 1];
      assert p[..|p| - 1] == prefix + "/" + init;
      assert p[|p| - 1] == key[|key| - 1];
      LastSegmentOfSuffix(prefix, init);
      assert init + [key[|key| - 1]] == key;
    }
  }

  /** The artifact that `cachedDownload` reads back is named after its cache key. */
  lemma BasenameOfJoin(folder: Path, key: string)
    requires key != [] && '/' !in key
    ensures Basename(Join(folder, key)) == key
  {
    var p := Join(folder, key);
    assert p[|p| - 1] == key[|key| - 1];
    assert TrimTrailingSlashes(p) == p;
    LastSegmentOfSuffix(folder, key);
  }

  // ---------------------------------------------------------------------------
  // The bytes a download writes

  /** The concatenation of the values that were present, in read order. */
  function Written(values: seq<Option<Bytes>>): Bytes {
    if |values| == 0 then []
    else Written(values[..|values| - 1]) + values[|values| - 1].GetOr([])
  }

  /** The values a body delivers before its end, including one that comes with `done`. */
  function Delivered(body: Body): seq<Option<Bytes>> {
    if body.end.Done? then body.chunks + [body.end.value] else body.chunks
  }

  // ---------------------------------------------------------------------------
  // Reference definition of downloadTo

  datatype Effect = Effect(files: map<Path, Bytes>, result: Outcome<Error>)

  /** What `downloadTo(remoteUrl, localPath)` does to the files and how it ends,
      for a `fetch` that rejects or resolves with `response`. */
  function DownloadEffect(files: map<Path, Bytes>, localPath: Path, response: Result<Body, Error>,
                          writer: WriterOutcome): (eff: Effect)
    ensures forall p :: p != localPath && p != PartialPath(localPath) ==>
              (p in eff.files <==> p in files) && (p in files ==> eff.files[p] == files[p])
    ensures response.Failure? ==> eff == Effect(files, Fail(response.error))
  {
    match response
    case Failure(e) => Effect(files, Fail(e))
    case Success(body) =>
      var partial := PartialPath(localPath);
      var streamed := files[partial := Written(Delivered(body))];
      match body.end
      case ReadFailed(e) => Effect(streamed, Fail(e))
      case Done(_) =>
        match writer
        case Finish => Effect((streamed - {partial})[localPath := streamed[partial]], Pass)
        case WriteError(e) => Effect(streamed - {partial}, Fail(e))
  }

  lemma PartialDiffers(localPath: Path)
    ensures PartialPath(localPath) != localPath
  {
    assert |PartialPath(localPath)| == |localPath| + 8;
  }

  /** A successful download leaves the concatenated chunks under the final name
      and no partial file; every other path is untouched. */
  lemma DownloadSuccess(files: map<Path, Bytes>, localPath: Path, response: Result<Body, Error>,
                        writer: WriterOutcome)
    requires DownloadEffect(files, localPath, response, writer).result == Pass
    ensures var after := DownloadEffect(files, localPath, response, writer).files;
            response.Success? && response.value.end.Done? && writer == Finish &&
            localPath in after && after[localPath] == Written(Delivered(response.value)) &&
            PartialPath(localPath) !in after &&
            forall p :: p != localPath && p != PartialPath(localPath) ==>
              (p in after <==> p in files) && (p in files ==> after[p] == files[p])
  {
    PartialDiffers(localPath);
  }

  /** The final path gets new contents only from a finished write stream: in
      every other outcome it is exactly as before. */
  lemma FinalPathAtomic(files: map<Path, Bytes>, localPath: Path, response: Result<Body, Error>,
                        writer: WriterOutcome)
    requires DownloadEffect(files, localPath, response, writer).result.Fail?
    ensures var after := DownloadEffect(files, localPath, response, writer).files;
            (localPath in after <==> localPath in files) &&
            (localPath in files ==> after[localPath] == files[localPath])
  {
    PartialDiffers(localPath);
  }

  /** A write-stream error removes the partial file and rethrows its error; the
      final path is not created. */
  lemma WriterErrorCleansUp(files: map<Path, Bytes>, localPath: Path, body: Body, e: Error)
    requires body.end.Done?
    ensures var eff := DownloadEffect(files, localPath, Success(body), WriteError(e));
            eff.result == Fail(e) && PartialPath(localPath) !in eff.files &&
            (localPath in eff.files <==> localPath in files)
  {
    PartialDiffers(localPath);
  }

  /** A `reader.read()` that rejects propagates its error and leaves the partial
      file holding what was written so far: `downloadTo` removes it only on a
      write-stream error. */
  lemma ReadErrorLeavesPartial(files: map<Path, Bytes>, localPath: Path, chunks: seq<Option<Bytes>>,
                               e: Error, writer: WriterOutcome)
    ensures var eff := DownloadEffect(files, localPath, Success(Body(chunks, ReadFailed(e))), writer);
            eff.result == Fail(e) && PartialPath(localPath) in eff.files &&
            eff.files[PartialPath(localPath)] == Written(chunks)
  {
  }

  // ---------------------------------------------------------------------------
  // The filesystem object

  class FileSystem {
    var files: map<Path, Bytes>
    var dirs: set<Path>

    constructor (files: map<Path, Bytes>, dirs: set<Path>)
      ensures this.files == files && this.dirs == dirs
    {
      this.files := files;
      this.dirs := dirs;
    }

    /** `fs.existsSync(p)`. */
    predicate Exists(p: Path)
      reads this
    {
      p in files || p in dirs
    }

    /** `readAsFile(path, fileName)`: the file's contents, named `fileName` when
        one is given and after the path's last segment otherwise. */
    function ReadAsFile(path: Path, fileName: Option<string>): (r: Result<File, Error>)
      reads this
      ensures r.Success? <==> path in files
      ensures r.Success? ==> r.value.contents == files[path]
      ensures r.Success? && fileName.Some? ==> r.value.name == fileName.value
      ensures r.Success? && fileName.None? ==> r.value.name == Basename(path)
      ensures r.Failure? ==> r.error == NotAFile(path)
    {
      if path in files then Success(File(files[path], fileName.GetOr(Basename(path))))
      else Failure(NotAFile(path))
    }

    /** `fs.ensureDirSync(dir)`. */
    method EnsureDir(dir: Path)
      modifies this
      ensures files == old(files) && dirs == old(dirs) + {dir}
    {
      dirs := dirs + {dir};
    }

    /** `fs.createWriteStream(p)`: opens `p` for writing, truncating it. */
    method CreateWriteStream(p: Path)
      modifies this
      ensures files == old(files)[p := []] && dirs == old(dirs)
    {
      files := files[p := []];
    }

    /** `writer.write(chunk)` on the stream opened at `p`. */
    method Append(p: Path, chunk: Bytes)
      requires p in files
      modifies this
      ensures files == old(files)[p := old(files)[p] + chunk] && dirs == old(dirs)
    {
      files := files[p := files[p] + chunk];
    }

    /** `fs.renameSync(from, to)`. */
    method Rename(from: Path, to: Path)
      requires from in files
      modifies this
      ensures files == (old(files) - {from})[to := old(files)[from]] && dirs == old(dirs)
    {
      files := (files - {from})[to := files[from]];
    }

    /** `fs.removeSync(p)`: no error when `p` is absent. */
    method Remove(p: Path)
      modifies this
      ensures files == old(files) - {p} && dirs == old(dirs)
    {
      files := files - {p};
    }
  }

  /** The `while (true)` loop of `downloadTo`: each read's value, when there is
      one, is written to the stream at `tmpPath`, up to and including the read
      that reports `done`; a rejected read ends the loop with its error. */
  method Pump(fs: FileSystem, tmpPath: Path, body: Body) returns (r: Outcome<Error>)
    requires tmpPath in fs.files && fs.files[tmpPath] == []
    modifies fs
    ensures fs.dirs == old(fs.dirs)
    ensures fs.files == old(fs.files)[tmpPath := Written(Delivered(body))]
    ensures r == if body.end.ReadFailed? then Fail(body.end.error) else Pass
  {
    var i := 0;
    assert old(fs.files)[tmpPath := Written(body.chunks[..0])] == fs.files;
    while i < |body.chunks|
      invariant 0 <= i <= |body.chunks|
      invariant fs.dirs == old(fs.dirs)
      invariant fs.files == old(fs.files)[tmpPath := Written(body.chunks[..i])]
    {
      assert body.chunks[..i + 1][..i] == body.chunks[..i];
      assert Written(body.chunks[..i + 1]) == Written(body.chunks[..i]) + body.chunks[i].GetOr([]);
      if body.chunks[i].Some? {
        fs.Append(tmpPath, body.chunks[i].value);
      } else {
        assert Written(body.chunks[..i]) + body.chunks[i].GetOr([]) == Written(body.chunks[..i]);
      }
      i := i + 1;
    }
    assert body.chunks[..|body.chunks|] == body.chunks;
    match body.end
    case ReadFailed(e) =>
      return Fail(e);
    case Done(value) =>
      if value.Some? {
        fs.Append(tmpPath, value.value);
      } else {
        assert Written(body.chunks) + value.GetOr([]) == Written(body.chunks);
      }
      assert Delivered(body) == body.chunks + [value];
      assert Written(body.chunks + [value]) == Written(body.chunks) + value.GetOr([]) by {
        assert (body.chunks + [value])[..|body.chunks|] == body.chunks;
      }
      return Pass;
  }

  /** `downloadTo(remoteUrl, localPath)`; `response` is how `fetch(remoteUrl)`
      settles and `writer` how the write stream settles after `close()`. */
  method DownloadTo(fs: FileSystem, localPath: Path, response: Result<Body, Error>, writer: WriterOutcome)
    returns (r: Outcome<Error>)
    modifies fs
    ensures fs.dirs == old(fs.dirs)
    ensures Effect(fs.files, r) == DownloadEffect(old(fs.files), localPath, response, writer)
  {
    if response.Failure? {
      return Fail(response.error);
    }
    var body := response.value;
    var tmpPath := PartialPath(localPath);
    fs.CreateWriteStream(tmpPath);
    ghost var truncated := fs.files;
    r := Pump(fs, tmpPath, body);
    assert fs.files == old(fs.files)[tmpPath := Written(Delivered(body))] by {
      assert fs.files == truncated[tmpPath := Written(Delivered(body))];
    }
    if r.Fail? {
      return;
    }
    match writer
    case Finish =>
      fs.Rename(tmpPath, localPath);
    case WriteError(e) =>
      fs.Remove(tmpPath);
      r := Fail(e);
  }

  /** `cachedDownload(remoteUrl, cacheKey)`; `fetched` says whether the network
      was used. */
  method CachedDownload(fs: FileSystem, cacheFolder: Path, cacheKey: string, response: Result<Body, Error>,
                        writer: WriterOutcome)
    returns (r: Result<File, Error>, fetched: bool)
    modifies fs
    ensures var artifact := Join(cacheFolder, cacheKey);
            var eff := DownloadEffect(old(fs.files), artifact, response, writer);
            if old(fs.Exists(artifact)) then
              !fetched && fs.files == old(fs.files) && fs.dirs == old(fs.dirs) &&
              r == old(fs.ReadAsFile(artifact, None))
            else
              fetched && fs.dirs == old(fs.dirs) + {cacheFolder} && fs.files == eff.files &&
              r == (if eff.result.Fail? then Failure(eff.result.error) else fs.ReadAsFile(artifact, None))
  {
    var artifactPath := Join(cacheFolder, cacheKey);
    fetched := false;
    if !fs.Exists(artifactPath) {
      fetched := true;
      fs.EnsureDir(cacheFolder);
      var downloaded := DownloadTo(fs, artifactPath, response, writer);
      if downloaded.Fail? {
        return Failure(downloaded.error), fetched;
      }
    }
    r := fs.ReadAsFile(artifactPath, None);
  }

  /** A fresh download returns the streamed bytes under the cache key's name and
      leaves no partial file; a second call for the same key then fetches
      nothing and returns the same file. */
  method DownloadThenHit(files: map<Path, Bytes>, dirs: set<Path>, cacheFolder: Path, cacheKey: string,
                         body: Body, second: Result<Body, Error>, secondWriter: WriterOutcome)
    returns (r1: Result<File, Error>, fetched1: bool, r2: Result<File, Error>, fetched2: bool,
             partialLeft: bool)
    requires Join(cacheFolder, cacheKey) !in files && Join(cacheFolder, cacheKey) !in dirs
    requires body.end.Done? && cacheKey != [] && '/' !in cacheKey
    ensures fetched1 && !fetched2
    ensures r1 == Success(File(Written(Delivered(body)), cacheKey))
    ensures r2 == r1
    ensures !partialLeft
  {
    var fs := new FileSystem(files, dirs);
    var artifact := Join(cacheFolder, cacheKey);
    r1, fetched1 := CachedDownload(fs, cacheFolder, cacheKey, Success(body), Finish);
    DownloadSuccess(files, artifact, Success(body), Finish);
    BasenameOfJoin(cacheFolder, cacheKey);
    partialLeft := PartialPath(artifact) in fs.files;
    r2, fetched2 := CachedDownload(fs, cacheFolder, cacheKey, second, secondWriter);
  }
}
