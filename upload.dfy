/** `uploadToS3` of version 2.0.0 as one atomic worker: resolve the metadata, stream the
    payload with PutReader, report, and (in the deferred block) account. A panic in
    NewMeta is recovered by the deferred block. */
module Upload {
  import opened Wrappers
  import opened Errors
  import opened Decimal
  import opened Meta
  import opened Tasks

  /** `meta` is what NewMeta did for the task's source; `put` is PutReader on the
      destination bucket; `elapsed` is the clock difference the done message shows. */
  function Upload(silent: bool, task: Task, meta: Call<MetaResult>, put: PutRequest -> Option<Error>, elapsed: int): (r: TaskReport)
    // The worker sends its error messages, then its done message, and nothing else.
    ensures r.messages == ErrorMessages(r.messages) + DoneMessages(silent, task, elapsed)
    // A recovered panic sends no error message and transfers nothing.
    ensures meta.Panics? ==> ErrorMessages(r.messages) == [] && r.transferred == 0 && r.upload == None
    // A NewMeta error is reported once, tagged with the source line; nothing is uploaded.
    ensures meta.Returns? && meta.value.err.Some? ==>
              && ErrorMessages(r.messages) == [FailureMessage(task, meta.value.err.value)]
              && r.transferred == 0 && r.upload == None
    // After a successful NewMeta the payload is put under the task's key with the
    // resolved size, type and ACL, and its size counts as transferred even if the
    // put fails; a put failure is reported once.
    ensures meta.Returns? && meta.value.err.None? ==>
              var m := meta.value.meta;
              var q := PutRequest(task.key, m.reader, m.filesize, m.mimetype, m.acl);
              && r.upload == Some(q)
              && r.transferred == ToUint64(m.filesize)
              && ErrorMessages(r.messages) == (if put(q).Some? then [FailureMessage(task, put(q).value)] else [])
  {
    var done := DoneMessages(silent, task, elapsed);
    ErrorsOfDone(silent, task, elapsed);
    match meta
    case Panics =>
      assert done == [] + done;
      TaskReport(done, 0, None)
    case Returns(MetaResult(m, Some(e))) =>
      ErrorsConcat([FailureMessage(task, e)], done);
      assert ErrorMessages([FailureMessage(task, e)]) == [FailureMessage(task, e)] by {
        assert [FailureMessage(task, e)][1..] == [];
      }
      TaskReport([FailureMessage(task, e)] + done, 0, None)
    case Returns(MetaResult(m, None)) =>
      var q := PutRequest(task.key, m.reader, m.filesize, m.mimetype, m.acl);
      var failed := if put(q).Some? then [FailureMessage(task, put(q).value)] else [];
      ErrorsConcat(failed, done);
      assert ErrorMessages(failed) == failed by {
        if failed != [] {
          assert failed[1..] == [];
        }
      }
      TaskReport(failed + done, ToUint64(m.filesize), Some(q))
  }
}
