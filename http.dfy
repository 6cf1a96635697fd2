/**
 * The HTTP vocabulary the controller uses: status codes, header and method
 * names, and the two conditional-request checks it performs itself
 * (`If-None-Match` on reads, `If-Match` on updates).
 */
module Http {
  import opened Wrappers

  const StatusOk := 200
  const StatusCreated := 201
  const StatusNoContent := 204
  /** Non-standard "Content Returned", sent by a successful update. */
  const StatusContentReturned := 209
  const StatusNotModified := 304
  const StatusBadRequest := 400
  const StatusUnauthorized := 401
  const StatusForbidden := 403
  const StatusNotFound := 404
  const StatusPreconditionFailed := 412

  const HeaderCacheControl := "Cache-Control"
  const HeaderAllow := "Allow"
  const HeaderETag := "ETag"
  const HeaderLocation := "Location"

  const MethodGet := "GET"
  const MethodPost := "POST"
  const MethodPut := "PUT"
  const MethodDelete := "DELETE"
  const MethodOptions := "OPTIONS"

  /** The `*` of `If-None-Match: *` and `If-Match: *`. */
  const AnyTag := "*"

  /**
   * The 304 test of the two read handlers. `etags` is the request's
   * `If-None-Match` list as the framework splits it (empty when the header is
   * absent); the read is "not modified" when some listed tag is the computed
   * one or is `*`. This is the `If-None-Match` condition of section 3.2 of
   * RFC 7232 evaluated to false, with tags compared as plain strings.
   */
  function NoneMatchHit(etags: seq<string>, etag: string): (hit: bool)
    ensures hit <==> exists i :: 0 <= i < |etags| && (etags[i] == etag || etags[i] == AnyTag)
    ensures hit ==> |etags| > 0
  {
    |etags| > 0 && (etag in etags || AnyTag in etags)
  }

  /**
   * The 412 test of the update handler: the request's `If-Match` value, when
   * there is one, must be the current tag character for character. Unlike
   * section 3.1 of RFC 7232, `*` is not a wildcard and only one tag is read.
   */
  function IfMatchPasses(ifMatch: Option<string>, etag: string): (pass: bool)
    ensures ifMatch.None? ==> !pass
    ensures pass <==> ifMatch == Some(etag)
  {
    ifMatch.Some? && ifMatch.value == etag
  }
}
