/** `NewMeta`: the choice between the two metadata sources. */
module MetaReader {
  import opened Wrappers
  import opened Errors
  import opened Meta
  import CephMeta
  import LocalMeta

  /** Everything NewMeta may call: `parseUrl` is `url.Parse`, then the source bucket for
      copy mode and the file system for upload mode. */
  datatype Resolver = Resolver(
    parseUrl: string -> Result<Url, Error>,
    bucket: CephMeta.SourceBucket,
    fs: LocalMeta.LocalFs)

  /** `NewMeta(sourceIsS3, name, bucket)`: in copy mode parse the name as a URL, giving
      up before any fetch when that fails, and resolve it in the source bucket;
      otherwise resolve it as a local file. */
  function NewMeta(sourceIsS3: bool, name: string, res: Resolver): (r: Call<MetaResult>)
    ensures sourceIsS3 && res.parseUrl(name).Failure? ==>
              r == Returns(MetaResult(ZeroMeta, Some(res.parseUrl(name).error)))
    ensures sourceIsS3 && res.parseUrl(name).Success? ==>
              r == CephMeta.TryFromUrl(res.parseUrl(name).value, res.bucket)
    ensures !sourceIsS3 ==> r == Returns(LocalMeta.TryFromFile(name, res.fs))
    ensures r.Panics? ==> sourceIsS3
  {
    if sourceIsS3 then
      match res.parseUrl(name)
      case Failure(e) => Returns(MetaResult(ZeroMeta, Some(e)))
      case Success(u) => CephMeta.TryFromUrl(u, res.bucket)
    else
      Returns(LocalMeta.TryFromFile(name, res.fs))
  }

  /** Whatever the source, a successful resolution has a non-empty type and a mapped
      ACL, and in copy mode a non-zero size. */
  lemma NewMetaSuccess(sourceIsS3: bool, name: string, res: Resolver)
    requires NewMeta(sourceIsS3, name, res).Returns?
    requires NewMeta(sourceIsS3, name, res).value.err.None?
    ensures var m := NewMeta(sourceIsS3, name, res).value.meta;
            && m.mimetype != ""
            && m.acl in {Private, PublicRead, PublicReadWrite}
            && (sourceIsS3 ==> m.filesize != 0)
            && (!sourceIsS3 ==> m.acl == PublicRead)
  {
  }
}
