/** `uploadToS3` of version 1.0.1 (scotabc.go): local files only, MIME type from the
    file extension, always uploaded PublicRead. */
module ScotUpload {
  import opened Wrappers
  import opened Errors
  import opened Decimal
  import opened Meta
  import opened GoStrings
  import opened Tasks

  /** The calls this version makes: `os.Open`, `os.Stat(...).Size()`, and
      `mime.TypeByExtension` (applied to `filepath.Ext` of the name). */
  datatype ScotFs = ScotFs(
    open: string -> Option<Error>,
    stat: string -> Result<Int64, Error>,
    typeByExtension: string -> string)

  /** `getContentType` of this version: the type registered for the name's extension;
      a name without a '.' is looked up under the empty extension. */
  function ContentTypeByExtension(fs: ScotFs, filename: string): (t: string)
    ensures t == fs.typeByExtension(Ext(filename))
    ensures (forall i :: 0 <= i < |filename| ==> filename[i] != '.') ==> t == fs.typeByExtension("")
  {
    fs.typeByExtension(Ext(filename))
  }

  /** The error sent for an empty type: a fresh `errors.New`, not the sentinel. */
  const MimeNotRecognized: Error := Opaque("mime type not recognized")

  /** A finished worker and the value `uploadToS3` returns. */
  datatype ScotOutcome = ScotOutcome(report: TaskReport, returned: Option<Error>)

  function Upload(silent: bool, task: Task, fs: ScotFs, put: PutRequest -> Option<Error>, elapsed: int): (r: ScotOutcome)
    // The deferred block resets the named result, so the function always returns nil.
    ensures r.returned == None
    ensures r.report.messages == ErrorMessages(r.report.messages) + DoneMessages(silent, task, elapsed)
    // An open or stat failure sends one error message and returns before any upload.
    ensures fs.open(task.source).Some? ==>
              ErrorMessages(r.report.messages) == [FailureMessage(task, fs.open(task.source).value)]
              && r.report.upload == None && r.report.transferred == 0
    ensures fs.open(task.source).None? && fs.stat(task.source).Failure? ==>
              ErrorMessages(r.report.messages) == [FailureMessage(task, fs.stat(task.source).error)]
              && r.report.upload == None && r.report.transferred == 0
    // Otherwise the file is uploaded, PublicRead, with the extension's type even when
    // that is empty; an empty type and a failed put are each reported once, in that
    // order; the stat size counts as transferred either way.
    ensures fs.open(task.source).None? && fs.stat(task.source).Success? ==>
              var size := fs.stat(task.source).value;
              var mime := ContentTypeByExtension(fs, task.source);
              var q := PutRequest(task.key, OpenFile(task.source), size, mime, PublicRead);
              && r.report.upload == Some(q)
              && r.report.transferred == ToUint64(size)
              && ErrorMessages(r.report.messages)
                 == (if mime == "" then [FailureMessage(task, MimeNotRecognized)] else [])
                    + (if put(q).Some? then [FailureMessage(task, put(q).value)] else [])
  {
    var done := DoneMessages(silent, task, elapsed);
    ErrorsOfDone(silent, task, elapsed);
    match fs.open(task.source)
    case Some(e) =>
      OneError(task, e, done);
      ScotOutcome(TaskReport([FailureMessage(task, e)] + done, 0, None), None)
    case None =>
      match fs.stat(task.source)
      case Failure(e) =>
        OneError(task, e, done);
        ScotOutcome(TaskReport([FailureMessage(task, e)] + done, 0, None), None)
      case Success(size) =>
        var mime := ContentTypeByExtension(fs, task.source);
        var mimeMsg := if mime == "" then [FailureMessage(task, MimeNotRecognized)] else [];
        var q := PutRequest(task.key, OpenFile(task.source), size, mime, PublicRead);
        var putMsg := if put(q).Some? then [FailureMessage(task, put(q).value)] else [];
        ErrorsConcat(mimeMsg + putMsg, done);
        ErrorsConcat(mimeMsg, putMsg);
        assert ErrorMessages(mimeMsg) == mimeMsg by {
          if mimeMsg != [] {
            assert mimeMsg[1..] == [];
          }
        }
        assert ErrorMessages(putMsg) == putMsg by {
          if putMsg != [] {
            assert putMsg[1..] == [];
          }
        }
        ScotOutcome(TaskReport(mimeMsg + putMsg + done, ToUint64(size), Some(q)), None)
  }

  lemma OneError(task: Task, e: Error, done: seq<Message>)
    requires ErrorMessages(done) == []
    ensures ErrorMessages([FailureMessage(task, e)] + done) == [FailureMessage(task, e)]
  {
    ErrorsConcat([FailureMessage(task, e)], done);
    assert [FailureMessage(task, e)][1..] == [];
  }

  /** The error for an empty type reads like the sentinel of package internal but is a
      different value. */
  lemma MimeNotRecognizedIsNotTheSentinel()
    ensures MimeNotRecognized.Text() == MimeTypeNotRecognized.Text()
    ensures MimeNotRecognized != MimeTypeNotRecognized
  {
  }
}
