/** Metadata of an object in the source bucket (copy mode): the GET checks of
    `tryFromUrl`, the ACL request of `getAcl` with its signing path, and the scan that
    maps the source object's grant list to one destination canned ACL. */
module CephMeta {
  import opened Wrappers
  import opened Errors
  import opened Decimal
  import opened Meta
  import opened CephAcl

  const StatusOK: int := 200

  const AllUsersUri: string := "http://acs.amazonaws.com/groups/global/AllUsers"
  const AuthenticatedUsersUri: string := "http://acs.amazonaws.com/groups/global/AuthenticatedUsers"
  const LogDeliveryUri: string := "http://acs.amazonaws.com/groups/s3/LogDelivery"

  /** An HTTP response as far as the resolver looks at it: the status, the
      `content-length` and `content-type` header values ("" when absent), the body. */
  datatype HttpResponse = HttpResponse(status: int, contentLength: string, contentType: string, body: seq<Byte>)

  /** The `GET <object URL>?acl` request; `canonicalizedResource` is the path its
      AWS Signature Version 2 signature covers. */
  datatype AclRequest = AclRequest(key: string, canonicalizedResource: string)

  /** The source bucket and the calls made through it: `getResponse` is goamz's
      `GetResponse`, `doAcl` signs and sends an ACL request, `decodeAcl` is
      `encoding/xml` decoding of an AccessControlPolicy, `detect` is
      `mimetype.DetectReader` on a byte buffer. */
  datatype SourceBucket = SourceBucket(
    name: string,
    getResponse: string -> Result<HttpResponse, Error>,
    doAcl: AclRequest -> Result<HttpResponse, Error>,
    decodeAcl: seq<Byte> -> Result<AccessControlPolicy, Error>,
    detect: seq<Byte> -> Result<string, Error>)

  /** The CanonicalizedResource of the ACL request: "/" + bucket + key, with a "/"
      put in front of a key that lacks one. Slicing `key[0:1]` panics on an empty key. */
  function SigningPath(bucket: string, key: string): (r: string)
    requires key != []
    ensures r == "/" + bucket + "/" + (if key[0] == '/' then key[1..] else key)
  {
    var path := if key[..1] != "/" then "/" + key else key;
    assert key[0] == '/' ==> key == "/" + key[1..];
    "/" + bucket + path
  }

  /** A key's leading "/" is optional: both spellings sign the same resource. */
  lemma SigningPathLeadingSlashOptional(bucket: string, key: string)
    requires key != [] && key[0] != '/'
    ensures SigningPath(bucket, "/" + key) == SigningPath(bucket, key)
  {
    assert ("/" + key)[1..] == key;
  }

  /** The signed resource ends with the key itself. */
  lemma SigningPathEndsWithKey(bucket: string, key: string)
    requires key != []
    ensures |key| < |SigningPath(bucket, key)|
    ensures SigningPath(bucket, key)[|SigningPath(bucket, key)| - |key|..] == key
  {
    var r := SigningPath(bucket, key);
    if key[0] == '/' {
      assert key == "/" + key[1..];
      assert r == "/" + bucket + key;
    } else {
      assert r == "/" + bucket + "/" + key;
    }
  }

  // ---------------------------------------------------------------------------
  // The grant scan

  /** A grant before the first AllUsers grant that has no canned-ACL equivalent:
      AuthenticatedUsers, LogDelivery, or FULL_CONTROL to any grantee with a URI. */
  predicate Unmappable(g: Grant) {
    || g.grantee.uri == AuthenticatedUsersUri
    || g.grantee.uri == LogDeliveryUri
    || (g.permission == "FULL_CONTROL" && g.grantee.uri != "")
  }

  /** The ACL an AllUsers grant with `permission` leaves, starting from `current`. */
  function PermissionAcl(permission: string, current: Acl): (a: Acl)
    ensures permission == "READ" ==> a == PublicRead
    ensures permission == "WRITE" ==> a == PublicReadWrite
    ensures permission != "READ" && permission != "WRITE" ==> a == current
  {
    if permission == "WRITE" then PublicReadWrite
    else if permission == "READ" then PublicRead
    else current
  }

  /** The index of the first AllUsers grant, or |grants| when there is none. */
  function FirstAllUsers(grants: seq<Grant>): (i: nat)
    ensures i <= |grants|
    ensures forall j :: 0 <= j < i ==> grants[j].grantee.uri != AllUsersUri
    ensures i < |grants| ==> grants[i].grantee.uri == AllUsersUri
  {
    if grants == [] then 0
    else if grants[0].grantee.uri == AllUsersUri then 0
    else 1 + FirstAllUsers(grants[1..])
  }

  datatype AclResult = AclResult(acl: Acl, err: Option<Error>)

  /** What the scan of a grant list yields, stated without the loop: the first AllUsers
      grant decides the ACL (Private when there is none), and the error is set exactly
      when an unmappable grant comes before it. */
  function GrantScan(grants: seq<Grant>): AclResult {
    var i := FirstAllUsers(grants);
    AclResult(
      if i < |grants| then PermissionAcl(grants[i].permission, Private) else Private,
      if exists j :: 0 <= j < i && Unmappable(grants[j]) then Some(NotImplementedAclMapping) else None)
  }

  /** The loop of getAcl over the decoded grants, in source order, with its early exit. */
  method ScanGrants(grants: seq<Grant>) returns (acl: Acl, err: Option<Error>)
    ensures AclResult(acl, err) == GrantScan(grants)
  {
    acl := Private;
    err := None;
    var i := 0;
    while i < |grants|
      invariant 0 <= i <= |grants|
      invariant forall j :: 0 <= j < i ==> grants[j].grantee.uri != AllUsersUri
      invariant acl == Private
      invariant err == if exists j :: 0 <= j < i && Unmappable(grants[j]) then Some(NotImplementedAclMapping) else None
    {
      var g := grants[i];
      if g.grantee.uri == AllUsersUri {
        if g.permission == "READ" {
          acl := PublicRead;
        }
        if g.permission == "WRITE" {
          acl := PublicReadWrite;
        }
        break;
      }
      if g.grantee.uri == AuthenticatedUsersUri {
        err := Some(NotImplementedAclMapping);
      }
      if g.grantee.uri == LogDeliveryUri {
        err := Some(NotImplementedAclMapping);
      }
      if g.permission == "FULL_CONTROL" && g.grantee.uri != "" {
        err := Some(NotImplementedAclMapping);
      }
      i := i + 1;
    }
  }

  /** An empty grant list maps to Private without error. */
  lemma GrantScanEmpty()
    ensures GrantScan([]) == AclResult(Private, None)
  {
  }

  /** The first AllUsers grant ends the scan: its permission decides the ACL (READ,
      WRITE, or the initial Private for anything else) and no later grant is looked at. */
  lemma {:induction false} GrantScanStopsAtFirstAllUsers(before: seq<Grant>, g: Grant, after1: seq<Grant>, after2: seq<Grant>)
    requires forall j :: 0 <= j < |before| ==> before[j].grantee.uri != AllUsersUri
    requires g.grantee.uri == AllUsersUri
    ensures GrantScan(before + [g] + after1) == GrantScan(before + [g] + after2)
    ensures GrantScan(before + [g] + after1).acl == PermissionAcl(g.permission, Private)
  {
    var s1, s2 := before + [g] + after1, before + [g] + after2;
    FirstAllUsersAt(s1, |before|);
    FirstAllUsersAt(s2, |before|);
    assert forall j :: 0 <= j < |before| ==> s1[j] == before[j] == s2[j];
  }

  lemma FirstAllUsersAt(grants: seq<Grant>, k: nat)
    requires k < |grants| && grants[k].grantee.uri == AllUsersUri
    requires forall j :: 0 <= j < k ==> grants[j].grantee.uri != AllUsersUri
    ensures FirstAllUsers(grants) == k
  {
  }

  /** An unmappable grant seen before the first AllUsers grant sets the error, and no
      later grant clears it. */
  lemma GrantScanErrorSticky(grants: seq<Grant>, j: nat)
    requires j < FirstAllUsers(grants) && Unmappable(grants[j])
    ensures GrantScan(grants).err == Some(NotImplementedAclMapping)
  {
  }

  /** The error and a public ACL can come out of the same scan. */
  lemma GrantScanErrorWithPublicRead()
    ensures GrantScan([Grant(Grantee(AuthenticatedUsersUri, "", ""), "READ"), Grant(Grantee(AllUsersUri, "", ""), "READ")])
         == AclResult(PublicRead, Some(NotImplementedAclMapping))
  {
    var gs := [Grant(Grantee(AuthenticatedUsersUri, "", ""), "READ"), Grant(Grantee(AllUsersUri, "", ""), "READ")];
    FirstAllUsersAt(gs, 1);
    assert Unmappable(gs[0]);
  }

  /** A grant to a canonical user (empty URI), such as the owner's FULL_CONTROL grant,
      is invisible to the scan. */
  lemma {:induction false} GrantScanIgnoresCanonicalUser(g: Grant, rest: seq<Grant>)
    requires g.grantee.uri == ""
    ensures GrantScan([g] + rest) == GrantScan(rest)
  {
    var s := [g] + rest;
    assert s[1..] == rest;
    assert FirstAllUsers(s) == 1 + FirstAllUsers(rest);
    var i := FirstAllUsers(rest);
    assert !Unmappable(g);
    assert (exists j :: 0 <= j < i + 1 && Unmappable(s[j])) <==> (exists j :: 0 <= j < i && Unmappable(rest[j])) by {
      forall j | 0 <= j < i ensures s[j + 1] == rest[j] { }
      if exists j :: 0 <= j < i + 1 && Unmappable(s[j]) {
        var j :| 0 <= j < i + 1 && Unmappable(s[j]);
        assert j > 0 && Unmappable(rest[j - 1]);
      }
      if exists j :: 0 <= j < i && Unmappable(rest[j]) {
        var j :| 0 <= j < i && Unmappable(rest[j]);
        assert Unmappable(s[j + 1]);
      }
    }
  }

  /** FULL_CONTROL raises the error only for a grantee with a URI. */
  lemma FullControlNeedsUri(id: string, uri: string)
    requires uri != AllUsersUri
    ensures GrantScan([Grant(Grantee("", id, ""), "FULL_CONTROL")]) == AclResult(Private, None)
    ensures uri != "" ==> GrantScan([Grant(Grantee(uri, id, ""), "FULL_CONTROL")]) == AclResult(Private, Some(NotImplementedAclMapping))
  {
    var g := Grant(Grantee(uri, id, ""), "FULL_CONTROL");
    assert FirstAllUsers([g]) == 1;
    assert [g][0] == g;
  }

  /** The grantee's ID and display name never matter: grant lists with the same
      (URI, permission) pairs in the same order scan alike. */
  lemma GrantScanReadsOnlyUriAndPermission(a: seq<Grant>, b: seq<Grant>)
    requires |a| == |b|
    requires forall i :: 0 <= i < |a| ==> a[i].grantee.uri == b[i].grantee.uri && a[i].permission == b[i].permission
    ensures GrantScan(a) == GrantScan(b)
  {
    var i := FirstAllUsers(a);
    FirstAllUsersSame(a, b);
    assert (exists j :: 0 <= j < i && Unmappable(a[j])) <==> (exists j :: 0 <= j < i && Unmappable(b[j])) by {
      assert forall j :: 0 <= j < i ==> (Unmappable(a[j]) <==> Unmappable(b[j]));
    }
  }

  lemma {:induction false} FirstAllUsersSame(a: seq<Grant>, b: seq<Grant>)
    requires |a| == |b|
    requires forall i :: 0 <= i < |a| ==> a[i].grantee.uri == b[i].grantee.uri
    ensures FirstAllUsers(a) == FirstAllUsers(b)
  {
    if a != [] && a[0].grantee.uri != AllUsersUri {
      FirstAllUsersSame(a[1..], b[1..]);
    }
  }

  /** The mapping of each kind of single grant. AllUsers with a permission other than
      READ or WRITE silently yields Private. */
  lemma SingleGrantTable(id: string, permission: string)
    ensures GrantScan([Grant(Grantee(AllUsersUri, id, ""), "READ")]) == AclResult(PublicRead, None)
    ensures GrantScan([Grant(Grantee(AllUsersUri, id, ""), "WRITE")]) == AclResult(PublicReadWrite, None)
    ensures GrantScan([Grant(Grantee(AllUsersUri, id, ""), "FULL_CONTROL")]) == AclResult(Private, None)
    ensures GrantScan([Grant(Grantee(AuthenticatedUsersUri, id, ""), "READ")]).err == Some(NotImplementedAclMapping)
    ensures GrantScan([Grant(Grantee(LogDeliveryUri, id, ""), permission)]) == AclResult(Private, Some(NotImplementedAclMapping))
  {
    var au := Grant(Grantee(AuthenticatedUsersUri, id, ""), "READ");
    var ld := Grant(Grantee(LogDeliveryUri, id, ""), permission);
    assert FirstAllUsers([au]) == 1 && [au][0] == au;
    assert FirstAllUsers([ld]) == 1 && [ld][0] == ld;
  }

  // ---------------------------------------------------------------------------
  // getAcl and tryFromUrl

  /** The ACL request for `key`, signed over its CanonicalizedResource. */
  function AclRequestFor(bucket: SourceBucket, key: string): (q: AclRequest)
    requires key != []
    ensures q.key == key && q.canonicalizedResource == SigningPath(bucket.name, key)
  {
    AclRequest(key, SigningPath(bucket.name, key))
  }

  /** The ACL document of `key`: the signed request's transport error, a non-200 status
      as NotSuccessHttpStatus, the decoder's error, or the decoded policy. */
  function FetchPolicy(bucket: SourceBucket, key: string): (r: Result<AccessControlPolicy, Error>)
    requires key != []
    ensures bucket.doAcl(AclRequestFor(bucket, key)).Failure? ==> r == Failure(bucket.doAcl(AclRequestFor(bucket, key)).error)
    ensures bucket.doAcl(AclRequestFor(bucket, key)).Success? && bucket.doAcl(AclRequestFor(bucket, key)).value.status != StatusOK
            ==> r == Failure(NotSuccessHttpStatus)
    ensures bucket.doAcl(AclRequestFor(bucket, key)).Success? && bucket.doAcl(AclRequestFor(bucket, key)).value.status == StatusOK
            ==> r == bucket.decodeAcl(bucket.doAcl(AclRequestFor(bucket, key)).value.body)
  {
    match bucket.doAcl(AclRequestFor(bucket, key))
    case Failure(e) => Failure(e)
    case Success(resp) =>
      if resp.status != StatusOK then Failure(NotSuccessHttpStatus)
      else bucket.decodeAcl(resp.body)
  }

  /** `getAcl`: panics on an empty key; a failed fetch returns Private with the error;
      otherwise the grant scan of the decoded policy, whose owner is never read. */
  function GetAcl(bucket: SourceBucket, key: string): (r: Call<AclResult>)
    ensures r.Panics? <==> key == []
    ensures r.Returns? ==> r.value.acl in {Private, PublicRead, PublicReadWrite}
    ensures r.Returns? && FetchPolicy(bucket, key).Failure?
            ==> r.value == AclResult(Private, Some(FetchPolicy(bucket, key).error))
    ensures r.Returns? && FetchPolicy(bucket, key).Success?
            ==> r.value == GrantScan(FetchPolicy(bucket, key).value.accessControlList.grants)
  {
    if key == [] then Panics
    else
      match FetchPolicy(bucket, key)
      case Failure(e) => Returns(AclResult(Private, Some(e)))
      case Success(policy) => Returns(GrantScan(policy.accessControlList.grants))
  }

  /** Whether the resolver re-detects the type from the body. */
  predicate NeedsSniff(contentType: string) {
    contentType == "text/plain" || contentType == ""
  }

  /** The type check's outcome for a response: the type sniffed from the body when
      the header is "text/plain" or empty, the header value otherwise. */
  function ResponseType(bucket: SourceBucket, resp: HttpResponse): Detected {
    if NeedsSniff(resp.contentType) then ContentTypeOfReader(bucket.detect, resp.body) else Detected(resp.contentType, None)
  }

  /** Every check before getAcl passed for `u`. */
  predicate PassesTypeCheck(u: Url, bucket: SourceBucket) {
    && ReachesTypeCheck(u, bucket)
    && ResponseType(bucket, bucket.getResponse(u.path).value).err.None?
    && ResponseType(bucket, bucket.getResponse(u.path).value).mime != ""
  }

  /** `tryFromUrl`: GET the object at the URL's path and check, in order, the transport
      error, the status, the content-length, and the content type (sniffing the body
      when the header is "text/plain" or empty), then fetch the ACL. */
  function TryFromUrl(u: Url, bucket: SourceBucket): (r: Call<MetaResult>)
    // A transport error comes back as it is; a non-200 status as NotSuccessHttpStatus.
    ensures bucket.getResponse(u.path).Failure?
            ==> r == Returns(MetaResult(ZeroMeta, Some(bucket.getResponse(u.path).error)))
    ensures bucket.getResponse(u.path).Success? && bucket.getResponse(u.path).value.status != StatusOK
            ==> r == Returns(MetaResult(ZeroMeta, Some(NotSuccessHttpStatus)))
    // A length that parses to 0 (which includes every unparsable one) is rejected.
    ensures bucket.getResponse(u.path).Success? && bucket.getResponse(u.path).value.status == StatusOK
            && ParseInt(bucket.getResponse(u.path).value.contentLength).value == 0
            ==> r.Returns? && r.value.err == Some(Annotated(FileInvalidSize, "; size: 0"))
    // A success carries a non-zero size, a non-empty type, a mapped ACL, and a reader
    // that yields exactly the response body.
    ensures r.Returns? && r.value.err.None? ==>
              && bucket.getResponse(u.path).Success?
              && bucket.getResponse(u.path).value.status == StatusOK
              && r.value.meta.filesize == ParseInt(bucket.getResponse(u.path).value.contentLength).value != 0
              && r.value.meta.mimetype != ""
              && r.value.meta.acl in {Private, PublicRead, PublicReadWrite}
              && (r.value.meta.reader.HttpBody? || r.value.meta.reader.Buffered?)
              && r.value.meta.reader.data == bucket.getResponse(u.path).value.body
    // Size, type and ACL are assigned only after every check has passed.
    ensures r.Returns? && r.value.err.Some? ==>
              r.value.meta.filesize == 0 && r.value.meta.mimetype == "" && r.value.meta.acl == Unset
    // Once the type check has passed, getAcl decides: its panic, its error, or the
    // ACL of a success, which then carries the checked type.
    ensures PassesTypeCheck(u, bucket) ==> (r.Panics? <==> GetAcl(bucket, u.path).Panics?)
    ensures PassesTypeCheck(u, bucket) && GetAcl(bucket, u.path).Returns?
            ==> r.Returns? && r.value.err == GetAcl(bucket, u.path).value.err
    ensures r.Returns? && r.value.err.None? ==>
              && PassesTypeCheck(u, bucket)
              && GetAcl(bucket, u.path) == Returns(AclResult(r.value.meta.acl, None))
              && r.value.meta.mimetype == ResponseType(bucket, bucket.getResponse(u.path).value).mime
    // The only panic is getAcl's, on an empty path.
    ensures r.Panics? ==> u.path == []
  {
    var key := u.path;
    match bucket.getResponse(key)
    case Failure(e) => Returns(MetaResult(ZeroMeta, Some(e)))
    case Success(resp) =>
      if resp.status != StatusOK then Returns(MetaResult(ZeroMeta, Some(NotSuccessHttpStatus)))
      else
        var meta := ZeroMeta.(reader := HttpBody(resp.body));
        var filesize := ParseInt(resp.contentLength).value;
        if filesize == 0 then
          assert "; size: " + FormatInt(filesize) == "; size: 0";
          Returns(MetaResult(meta, Some(Annotated(FileInvalidSize, "; size: " + FormatInt(filesize)))))
        else
          var sniff := NeedsSniff(resp.contentType);
          var detected := ResponseType(bucket, resp);
          if detected.err.Some? then
            Returns(MetaResult(meta, Some(Annotated(MimeTypeNotRecognized,
              " size: " + FormatInt(filesize) + "; err: " + detected.err.value.Text()))))
          else
            var meta' := if sniff then meta.(reader := Buffered(resp.body)) else meta;
            if detected.mime == "" then
              Returns(MetaResult(meta', Some(Annotated(MimeTypeNotRecognized, " size: " + FormatInt(filesize)))))
            else
              match GetAcl(bucket, key)
              case Panics => Panics
              case Returns(AclResult(acl, err)) =>
                if err.Some? then Returns(MetaResult(meta', err))
                else Returns(MetaResult(meta'.(filesize := filesize, mimetype := detected.mime, acl := acl), None))
  }

  /** The checks up to the content type passed for `u`. */
  predicate ReachesTypeCheck(u: Url, bucket: SourceBucket) {
    && bucket.getResponse(u.path).Success?
    && bucket.getResponse(u.path).value.status == StatusOK
    && ParseInt(bucket.getResponse(u.path).value.contentLength).value != 0
  }

  /** A "text/plain" or missing content type is replaced by the type sniffed from the
      body, and the reader is the buffered body; any other header value is kept and the
      body is streamed as is. */
  lemma TryFromUrlContentType(u: Url, bucket: SourceBucket)
    requires ReachesTypeCheck(u, bucket)
    requires TryFromUrl(u, bucket).Returns? && TryFromUrl(u, bucket).value.err.None?
    ensures var resp := bucket.getResponse(u.path).value;
            var meta := TryFromUrl(u, bucket).value.meta;
            if NeedsSniff(resp.contentType)
            then meta.mimetype == bucket.detect(resp.body).value && meta.reader == Buffered(resp.body)
            else meta.mimetype == resp.contentType && meta.reader == HttpBody(resp.body)
  {
  }

  /** A failed sniff, or a sniff that finds the empty type, is MimeTypeNotRecognized. */
  lemma TryFromUrlUnrecognizedType(u: Url, bucket: SourceBucket)
    requires ReachesTypeCheck(u, bucket)
    requires NeedsSniff(bucket.getResponse(u.path).value.contentType)
    requires bucket.detect(bucket.getResponse(u.path).value.body).Failure?
             || bucket.detect(bucket.getResponse(u.path).value.body) == Success("")
    ensures TryFromUrl(u, bucket).Returns?
    ensures TryFromUrl(u, bucket).value.err.Some?
    ensures TryFromUrl(u, bucket).value.err.value.Annotated?
    ensures TryFromUrl(u, bucket).value.err.value.base == MimeTypeNotRecognized
  {
  }

  /** A negative content-length is not rejected: it becomes the size. */
  lemma TryFromUrlNegativeLength(u: Url, bucket: SourceBucket)
    requires PassesTypeCheck(u, bucket)
    requires ParseInt(bucket.getResponse(u.path).value.contentLength).value < 0
    requires GetAcl(bucket, u.path).Returns? && GetAcl(bucket, u.path).value.err.None?
    ensures TryFromUrl(u, bucket).Returns? && TryFromUrl(u, bucket).value.err.None?
    ensures TryFromUrl(u, bucket).value.meta.filesize < 0
  {
  }

  /** The sniffing rule on the example of a JPEG served as text/plain. */
  lemma TryFromUrlResniffsTextPlain(u: Url, bucket: SourceBucket)
    requires ReachesTypeCheck(u, bucket)
    requires bucket.getResponse(u.path).value.contentType == "text/plain"
    requires bucket.detect(bucket.getResponse(u.path).value.body) == Success("image/jpeg")
    requires GetAcl(bucket, u.path) == Returns(AclResult(PublicRead, None))
    ensures TryFromUrl(u, bucket) == Returns(MetaResult(
              FileMeta(Buffered(bucket.getResponse(u.path).value.body),
                       ParseInt(bucket.getResponse(u.path).value.contentLength).value,
                       "image/jpeg", PublicRead), None))
  {
  }
}
