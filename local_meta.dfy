/** Metadata of a local file (upload mode): `tryFromFile` and the file form of
    `getContentType`. */
module LocalMeta {
  import opened Wrappers
  import opened Errors
  import opened Decimal
  import opened Meta

  /** The file system calls: `open` is `os.Open` (its error, if any), `stat` is
      `os.Stat(...).Size()`, `detectFile` is `mimetype.DetectFile`. */
  datatype LocalFs = LocalFs(
    open: string -> Option<Error>,
    stat: string -> Result<Int64, Error>,
    detectFile: string -> Result<string, Error>)

  /** File-form `getContentType`: any detection error becomes the empty type. */
  function ContentTypeOfFile(fs: LocalFs, name: string): (t: string)
    ensures fs.detectFile(name).Failure? ==> t == ""
    ensures fs.detectFile(name).Success? ==> t == fs.detectFile(name).value
  {
    match fs.detectFile(name)
    case Failure(_) => ""
    case Success(m) => m
  }

  /** `tryFromFile`: open, stat, then detect the type; the ACL is always PublicRead and
      there is no size check. */
  function TryFromFile(name: string, fs: LocalFs): (r: MetaResult)
    // An open failure, then a stat failure, come back before any field is set.
    ensures fs.open(name).Some? ==> r == MetaResult(ZeroMeta, fs.open(name))
    ensures fs.open(name).None? && fs.stat(name).Failure? ==> r == MetaResult(ZeroMeta, Some(fs.stat(name).error))
    // Past both, reader, size and ACL are set whatever the outcome of detection.
    ensures fs.open(name).None? && fs.stat(name).Success? ==>
              && r.meta.reader == OpenFile(name)
              && r.meta.filesize == fs.stat(name).value
              && r.meta.acl == PublicRead
              && (r.err.None? <==> ContentTypeOfFile(fs, name) != "")
              && (r.err.None? ==> r.meta.mimetype == ContentTypeOfFile(fs, name))
              && (r.err.Some? ==> r.meta.mimetype == "")
    // A failed detection is a MimeTypeNotRecognized error.
    ensures r.err.Some? && fs.open(name).None? && fs.stat(name).Success? ==>
              r.err.value.Annotated? && r.err.value.base == MimeTypeNotRecognized
  {
    match fs.open(name)
    case Some(e) => MetaResult(ZeroMeta, Some(e))
    case None =>
      match fs.stat(name)
      case Failure(e) => MetaResult(ZeroMeta, Some(e))
      case Success(size) =>
        var meta := FileMeta(OpenFile(name), size, ContentTypeOfFile(fs, name), PublicRead);
        if meta.mimetype == "" then
          MetaResult(meta, Some(Annotated(MimeTypeNotRecognized, " filesize: " + FormatInt(meta.filesize))))
        else
          MetaResult(meta, None)
  }

  /** A zero-byte local file is accepted. */
  lemma TryFromFileAcceptsEmptyFile(name: string, fs: LocalFs)
    requires fs.open(name).None? && fs.stat(name) == Success(0)
    requires fs.detectFile(name) == Success("text/plain")
    ensures TryFromFile(name, fs) == MetaResult(FileMeta(OpenFile(name), 0, "text/plain", PublicRead), None)
  {
  }
}
