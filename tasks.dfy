/** What passes between the producer, the workers and the monitor of both program
    versions: the task a manifest line becomes, the `Message` sent on the messages
    channel, and what one finished worker leaves behind. */
module Tasks {
  import opened Wrappers
  import opened Errors
  import opened Decimal
  import opened Meta
  import opened GoStrings

  /** `Message{String, SourceLine, Error}`. */
  datatype Message = Message(text: string, sourceLine: string, error: Option<Error>)

  /** One dispatched line: the source it names and the destination key. */
  datatype Task = Task(source: string, key: string)

  /** The key is the line with every occurrence of the prefix removed. */
  function MakeTask(line: string, prefix: string): (t: Task)
    ensures t.source == line && t.key == RemoveAll(line, prefix) && |t.key| <= |line|
  {
    Task(line, RemoveAll(line, prefix))
  }

  /** The arguments of the `PutReader` call that stores the payload. */
  datatype PutRequest = PutRequest(key: string, reader: Reader, size: Int64, mimetype: string, acl: Acl)

  /** What a worker leaves behind: the messages it sent in order, the amount its deferred
      block adds to `totalTransferred`, and the upload it attempted, if any. */
  datatype TaskReport = TaskReport(messages: seq<Message>, transferred: Uint64, upload: Option<PutRequest>)

  /** The text of the deferred "done" message: the quoted source and key, then the
      elapsed seconds in decimal. */
  function DoneText(source: string, key: string, elapsed: int): (t: string)
    ensures |t| > |source| + |key| + 4
    ensures t[..|source| + 2] == "\"" + source + "\"" && t[|t| - 4..] == " sec"
  {
    "\"" + source + "\" -> \"" + key + "\" done. Time elapsed " + FormatInt(elapsed) + " sec"
  }

  /** The deferred block sends one "done" message, without error, unless silent. */
  function DoneMessages(silent: bool, task: Task, elapsed: int): (ms: seq<Message>)
    ensures |ms| == if silent then 0 else 1
    ensures forall i :: 0 <= i < |ms| ==> ms[i].error.None? && ms[i].text != ""
  {
    if silent then [] else [Message(DoneText(task.source, task.key, elapsed), "", None)]
  }

  /** The message a worker sends for a failure: the error, tagged with the source line. */
  function FailureMessage(task: Task, e: Error): Message {
    Message("", task.source, Some(e))
  }

  /** The messages of a report that carry an error. */
  function ErrorMessages(ms: seq<Message>): (es: seq<Message>)
    ensures |es| <= |ms|
    ensures forall i :: 0 <= i < |es| ==> es[i].error.Some?
  {
    if ms == [] then []
    else (if ms[0].error.Some? then [ms[0]] else []) + ErrorMessages(ms[1..])
  }

  lemma {:induction false} ErrorsConcat(a: seq<Message>, b: seq<Message>)
    ensures ErrorMessages(a + b) == ErrorMessages(a) + ErrorMessages(b)
    decreases |a|
  {
    if a == [] {
      assert a + b == b;
    } else {
      assert (a + b)[1..] == a[1..] + b;
      ErrorsConcat(a[1..], b);
    }
  }

  /** Done messages carry no error. */
  lemma {:induction false} ErrorsOfDone(silent: bool, task: Task, elapsed: int)
    ensures ErrorMessages(DoneMessages(silent, task, elapsed)) == []
  {
    if !silent {
      assert DoneMessages(silent, task, elapsed)[1..] == [];
    }
  }
}
