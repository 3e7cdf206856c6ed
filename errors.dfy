/** The `error` values that flow through the uploader: the four sentinels of package
    `internal`, the annotated copies `fmt.Errorf("%+v ...", sentinel, ...)` makes of them,
    and errors produced by code outside this model (os, net/http, encoding/xml, net/url),
    which are known only by their text. */
module Errors {

  datatype Error =
    | NotSuccessHttpStatus
    | NotImplementedAclMapping
    | MimeTypeNotRecognized
    | FileInvalidSize
      /** `fmt.Errorf` with `%+v` of `base` followed by `suffix`; it does not wrap with
          `%w`, so only the text carries `base`. */
    | Annotated(base: Error, suffix: string)
      /** An error made elsewhere, e.g. by `errors.New` at a call site or by the OS. */
    | Opaque(text: string)
  {
    /** `err.Error()`. */
    function Text(): string {
      match this
      case NotSuccessHttpStatus => "url returned not 200"
      case NotImplementedAclMapping => "mapping not implemented"
      case MimeTypeNotRecognized => "mime type not recognized"
      case FileInvalidSize => "filesize has a invalid size"
      case Annotated(base, suffix) => base.Text() + suffix
      case Opaque(text) => text
    }

    predicate IsSentinel() {
      NotSuccessHttpStatus? || NotImplementedAclMapping? || MimeTypeNotRecognized? || FileInvalidSize?
    }
  }

  /** An annotated error's text starts with the text of the sentinel it annotates, which
      is all a reader of the error log can go by. */
  lemma AnnotatedTextStartsWithBase(e: Error)
    requires e.Annotated?
    ensures |e.base.Text()| <= |e.Text()| && e.Text()[..|e.base.Text()|] == e.base.Text()
  {
  }

  /** The four sentinels are different values with different texts. */
  lemma SentinelsDistinct(a: Error, b: Error)
    requires a.IsSentinel() && b.IsSentinel() && a != b
    ensures a.Text() != b.Text()
  {
  }
}
