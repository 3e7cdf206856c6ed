/** The metadata record every transfer is resolved to (`FileMeta` of package `internal`)
    and the reader form of `getContentType`. */
module Meta {
  import opened Wrappers
  import opened Errors
  import opened Decimal

  type Byte = bv8

  /** goamz's canned ACLs that the resolver produces; `Unset` is the zero value "" a
      FileMeta carries until its Acl field is assigned. */
  datatype Acl = Unset | Private | PublicRead | PublicReadWrite

  /** What the `io.ReadCloser` in a FileMeta reads from. */
  datatype Reader =
    | NoReader                    // nil: not assigned yet
    | HttpBody(data: seq<Byte>)   // the GET response's body stream
    | Buffered(data: seq<Byte>)   // the body read into memory and re-wrapped
    | OpenFile(path: string)      // an *os.File opened on a local path

  datatype FileMeta = FileMeta(reader: Reader, filesize: Int64, mimetype: string, acl: Acl)

  /** Go's zero value of FileMeta, which a resolver returns when it fails before
      assigning any field. */
  const ZeroMeta := FileMeta(NoReader, 0, "", Unset)

  /** The `(fmeta FileMeta, err error)` pair the resolvers return. */
  datatype MetaResult = MetaResult(meta: FileMeta, err: Option<Error>)

  /** A Go call that returns normally with a value, or panics. */
  datatype Call<T> = Returns(value: T) | Panics

  /** The parsed form of a manifest line in copy mode; only the path is used. */
  datatype Url = Url(path: string)

  /** The `(string, error)` pair of the reader form of getContentType. */
  datatype Detected = Detected(mime: string, err: Option<Error>)

  /** Reader-form `getContentType`: `detect` stands for `mimetype.DetectReader` applied
      to the bytes the reader yields. A detection error gives ("", err); otherwise the
      detected type with no error. */
  function ContentTypeOfReader(detect: seq<Byte> -> Result<string, Error>, data: seq<Byte>): (r: Detected)
    ensures r.err.Some? <==> detect(data).Failure?
    ensures r.err.Some? ==> r.mime == "" && r.err.value == detect(data).error
    ensures r.err.None? ==> r.mime == detect(data).value
  {
    match detect(data)
    case Failure(e) => Detected("", Some(e))
    case Success(m) => Detected(m, None)
  }
}
