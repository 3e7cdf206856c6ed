/** The GetObjectAcl document (an S3 `AccessControlPolicy`) as `encoding/xml` decodes it:
    one owner and one access-control list holding one Grant per repeated `<Grant>`
    element, in document order. Every string may be empty (a missing element). */
module CephAcl {

  datatype Owner = Owner(id: string, displayName: string)

  /** Group grantees are told apart only by `uri`; canonical users have an empty `uri`. */
  datatype Grantee = Grantee(uri: string, id: string, displayName: string)

  /** The permission is free text ("READ", "WRITE", "FULL_CONTROL", ...), not an enum. */
  datatype Grant = Grant(grantee: Grantee, permission: string)

  datatype AccessControlList = AccessControlList(grants: seq<Grant>)

  datatype AccessControlPolicy = AccessControlPolicy(owner: Owner, accessControlList: AccessControlList)
}
