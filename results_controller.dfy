/**
 * The Results REST controller: per-verb request handling over a store of
 * results. Authentication, role and identity come in as a `Caller` value;
 * the persisted results are a map held by `ResultsController`; everything the
 * controller hands to code outside it (tag hashing, the entity's setters) is
 * a `Collaborators` value of uninterpreted functions.
 */
module ApiResultsQuery {
  import opened Wrappers
  import opened Http
  import PhpStrings

  /** Path prefix of every route of the resource. */
  const ApiRoute := "/api/v1/results"

  type Email = string
  type ResultId = nat
  type Timestamp = int
  type ETag = string

  /** A stored result: its owner (by e-mail), the recorded value and its time. */
  datatype Result = Result(owner: Email, value: int, time: Timestamp)

  /** Who is calling: authentication state, admin role and user identifier (e-mail). */
  datatype Caller = Caller(fullyAuthenticated: bool, isAdmin: bool, identifier: Email)

  /** A field of a decoded JSON body: `null` (or absent), or some value kept as its literal text. */
  datatype Json = Null | Literal(text: string)

  /** The three fields the controller reads from a body; `user` is None when absent or null. */
  datatype Fields = Fields(result: Json, time: Json, user: Option<Email>)

  /** A request body: not JSON at all, JSON that is not an object, or an object. */
  datatype RequestBody = Malformed | NotAnObject | Object(fields: Fields)

  /**
   * What the controller delegates and does not itself define:
   * - `parseResult`, `parseTime`: the entity's `setResult` and `setTimeFromString`;
   *   None stands for the TypeError they throw;
   * - `applyUpdate`: the entity's `updateResultFromPostData`, given the body and
   *   the resolved new owner (None when no user was named);
   * - `etagOne`, `etagMany`: md5 of the JSON encoding of one result or of a list.
   */
  datatype Collaborators = Collaborators(
    parseResult: Json -> Option<int>,
    parseTime: Json -> Option<Timestamp>,
    applyUpdate: (Result, Fields, Option<Email>) -> Result,
    etagOne: (ResultId, Result) -> ETag,
    etagMany: map<ResultId, Result> -> ETag)

  /** The body of a response. */
  datatype Content =
    | Empty
    | Message(text: string)
    | One(id: ResultId, result: Result)
    | Many(results: map<ResultId, Result>)

  /**
   * A response: status, the headers the controller sets, and the body; or
   * `Thrown` when an exception escapes the handler.
   */
  datatype Response =
    | Reply(status: int, headers: map<string, string>, content: Content)
    | Thrown
  {
    predicate Is(code: int) {
      Reply? && status == code
    }
  }

  /** Either the response that ends the request, or the value to go on with. */
  datatype Decision<T> = Reject(response: Response) | Proceed(value: T)

  const MsgUnauthorized := "`Unauthorized`: Invalid credentials."
  const MsgResultsNotFound := "Results not found"
  const MsgFieldsMissing := "The result field or the time field are not passed"
  const MsgBadFormat := "Some request field doesn' have the correct format"
  const MsgForbidden := "Operation forbidden for the current user"
  const MsgPreconditionFailed := "PRECONDITION FAILED: one or more conditions given evaluated to false"
  const CachePrivate := "private"
  const CacheOptions := "public, inmutable"

  function MsgResultNotFound(id: ResultId): string {
    "Result with id #" + PhpStrings.DecimalString(id) + " not found"
  }

  function MsgPostUserNotFound(email: Email): string {
    "User " + email + " not found in db"
  }

  function MsgPutUserNotFound(email: Email): string {
    "User with email:" + email + " not found"
  }

  /** An error response: status and message, no extra headers. */
  function ErrorReply(code: int, message: string): Response {
    Reply(code, map[], Message(message))
  }

  /** The path part of the `Location` header of a created result. */
  function LocationOf(id: ResultId): (loc: string)
    ensures |loc| > |ApiRoute| + 1 && loc[..|ApiRoute| + 1] == ApiRoute + "/"
    ensures PhpStrings.AllDigits(loc[|ApiRoute| + 1..])
    ensures PhpStrings.DecimalValue(loc[|ApiRoute| + 1..]) == id
  {
    var digits := PhpStrings.DecimalString(id);
    PhpStrings.DecimalRoundTrip(id);
    var loc := ApiRoute + "/" + digits;
    assert loc[|ApiRoute| + 1..] == digits;
    loc
  }

  /** The authentication gate opening every handler except OPTIONS. */
  function AuthorizationError(caller: Caller): (r: Option<Response>)
    ensures r.Some? <==> !caller.fullyAuthenticated
    ensures r.Some? ==> r.value.Is(StatusUnauthorized) && r.value.content == Message(MsgUnauthorized)
  {
    if !caller.fullyAuthenticated then Some(ErrorReply(StatusUnauthorized, MsgUnauthorized)) else None
  }

  /** The ownership rule: an admin may act on any result, anyone else only on their own. */
  predicate MayAccess(caller: Caller, result: Result): (ok: bool)
    ensures caller.isAdmin ==> ok
    ensures !caller.isAdmin ==> (ok <==> caller.identifier == result.owner)
  {
    caller.isAdmin || caller.identifier == result.owner
  }

  /**
   * Single-result lookup for an authenticated caller: an unknown id is 404
   * whoever asks, a result owned by someone else is 403 unless the caller is an
   * admin, and otherwise the stored result.
   */
  function Lookup(results: map<ResultId, Result>, caller: Caller, id: ResultId): (r: Decision<Result>)
    ensures id !in results ==> r == Reject(ErrorReply(StatusNotFound, MsgResultNotFound(id)))
    ensures (id in results && !caller.isAdmin && caller.identifier != results[id].owner)
              ==> r == Reject(ErrorReply(StatusForbidden, MsgForbidden))
    ensures r.Proceed? <==> id in results && (caller.isAdmin || caller.identifier == results[id].owner)
    ensures r.Proceed? ==> r.value == results[id]
  {
    if id !in results then Reject(ErrorReply(StatusNotFound, MsgResultNotFound(id)))
    else if !MayAccess(caller, results[id]) then Reject(ErrorReply(StatusForbidden, MsgForbidden))
    else Proceed(results[id])
  }

  /** The 401 gate followed by the lookup: the common start of GET, PUT and DELETE on one result. */
  function Access(results: map<ResultId, Result>, caller: Caller, id: ResultId): (r: Decision<Result>)
    ensures !caller.fullyAuthenticated ==> r.Reject? && r.response.Is(StatusUnauthorized)
    ensures r.Reject? && r.response.Is(StatusNotFound) <==> caller.fullyAuthenticated && id !in results
    ensures (r.Reject? && r.response.Is(StatusForbidden))
              <==> caller.fullyAuthenticated && id in results && !MayAccess(caller, results[id])
    ensures r.Proceed? <==> caller.fullyAuthenticated && id in results && MayAccess(caller, results[id])
    ensures r.Proceed? ==> r.value == results[id]
  {
    var denied := AuthorizationError(caller);
    if denied.Some? then Reject(denied.value) else Lookup(results, caller, id)
  }

  /** What the list handler returns: every result for an admin, the caller's own otherwise. */
  function Visible(results: map<ResultId, Result>, caller: Caller): (v: map<ResultId, Result>)
    ensures forall id :: id in v <==> id in results && (caller.isAdmin || results[id].owner == caller.identifier)
    ensures forall id :: id in v ==> v[id] == results[id]
    ensures caller.isAdmin ==> v == results
  {
    if caller.isAdmin then results
    else map id | id in results && results[id].owner == caller.identifier :: results[id]
  }

  /** `isset` of both required fields: the body is an object holding a non-null `result` and `time`. */
  predicate HasRequiredFields(body: RequestBody): (ok: bool)
    ensures !body.Object? ==> !ok
    ensures body.Object? ==> (ok <==> body.fields.result != Null && body.fields.time != Null)
  {
    body.Object? && body.fields.result != Null && body.fields.time != Null
  }

  /** The owner a created result gets: the named user, or else the caller. */
  function PostOwner(fields: Fields, caller: Caller): (owner: Email)
    ensures fields.user.Some? ==> owner == fields.user.value
    ensures fields.user.None? ==> owner == caller.identifier
  {
    fields.user.GetOr(caller.identifier)
  }

  /** A non-admin may create a result only for themselves. */
  function PostForbidden(fields: Fields, caller: Caller): (r: Option<Response>)
    ensures r.Some? <==> !caller.isAdmin && fields.user.Some? && fields.user.value != caller.identifier
    ensures r.Some? ==> r.value == ErrorReply(StatusForbidden, MsgForbidden)
  {
    if !caller.isAdmin && PostOwner(fields, caller) != caller.identifier
    then Some(ErrorReply(StatusForbidden, MsgForbidden))
    else None
  }

  /**
   * Everything POST decides before writing: 401, then an uncaught exception
   * for a body that is not JSON, then 400 for a missing field, then 403, then
   * 404 for an unknown owner, then 400 for a value or time the entity rejects;
   * otherwise the result to insert.
   */
  function PostDecision(env: Collaborators, users: set<Email>, caller: Caller, body: RequestBody)
    : (r: Decision<Result>)
    ensures !caller.fullyAuthenticated ==> r.Reject? && r.response.Is(StatusUnauthorized)
    ensures caller.fullyAuthenticated && body.Malformed? ==> r == Reject(Thrown)
    ensures (caller.fullyAuthenticated && !body.Malformed? && !HasRequiredFields(body))
              ==> r == Reject(ErrorReply(StatusBadRequest, MsgFieldsMissing))
    ensures (caller.fullyAuthenticated && HasRequiredFields(body) && !caller.isAdmin
              && body.fields.user.Some? && body.fields.user.value != caller.identifier)
              ==> r == Reject(ErrorReply(StatusForbidden, MsgForbidden))
    ensures (caller.fullyAuthenticated && HasRequiredFields(body)
              && (caller.isAdmin || body.fields.user.None? || body.fields.user.value == caller.identifier)
              && PostOwner(body.fields, caller) !in users)
              ==> r == Reject(ErrorReply(StatusNotFound, MsgPostUserNotFound(PostOwner(body.fields, caller))))
    ensures (caller.fullyAuthenticated && HasRequiredFields(body)
              && (caller.isAdmin || body.fields.user.None? || body.fields.user.value == caller.identifier)
              && PostOwner(body.fields, caller) in users
              && (env.parseResult(body.fields.result).None? || env.parseTime(body.fields.time).None?))
              ==> r == Reject(ErrorReply(StatusBadRequest, MsgBadFormat))
    ensures r.Proceed? <==>
              caller.fullyAuthenticated && HasRequiredFields(body)
              && (caller.isAdmin || body.fields.user.None? || body.fields.user.value == caller.identifier)
              && PostOwner(body.fields, caller) in users
              && env.parseResult(body.fields.result).Some? && env.parseTime(body.fields.time).Some?
    ensures r.Proceed? ==>
              r.value == Result(PostOwner(body.fields, caller),
                                env.parseResult(body.fields.result).value,
                                env.parseTime(body.fields.time).value)
  {
    var denied := AuthorizationError(caller);
    if denied.Some? then Reject(denied.value)
    else if body.Malformed? then Reject(Thrown)
    else if !HasRequiredFields(body) then Reject(ErrorReply(StatusBadRequest, MsgFieldsMissing))
    else
      var fields := body.fields;
      var forbidden := PostForbidden(fields, caller);
      if forbidden.Some? then Reject(forbidden.value)
      else
        var owner := PostOwner(fields, caller);
        if owner !in users then Reject(ErrorReply(StatusNotFound, MsgPostUserNotFound(owner)))
        else
          var value := env.parseResult(fields.result);
          var time := env.parseTime(fields.time);
          if value.None? || time.None? then Reject(ErrorReply(StatusBadRequest, MsgBadFormat))
          else Proceed(Result(owner, value.value, time.value))
  }

  /** An accepted update: the result as it was, the body, the new owner if one was named, and the tag checked. */
  datatype Update = Update(current: Result, fields: Fields, owner: Option<Email>, tag: ETag)

  /** The result after an accepted update. */
  function Updated(env: Collaborators, u: Update): Result {
    env.applyUpdate(u.current, u.fields, u.owner)
  }

  /**
   * Everything PUT decides before writing: 401, then 404 / 403 from the
   * lookup, then 400 for a body without both fields, then 404 for a named
   * user that does not exist, then 412 unless `If-Match` is exactly the
   * current tag; otherwise the update to apply. A named user is not checked
   * against the caller.
   */
  function PutDecision(env: Collaborators, results: map<ResultId, Result>, users: set<Email>,
                       caller: Caller, id: ResultId, body: RequestBody, ifMatch: Option<string>)
    : (r: Decision<Update>)
    ensures Access(results, caller, id).Reject? ==> r == Reject(Access(results, caller, id).response)
    ensures (Access(results, caller, id).Proceed? && !HasRequiredFields(body))
              ==> r == Reject(ErrorReply(StatusBadRequest, MsgFieldsMissing))
    ensures (Access(results, caller, id).Proceed? && HasRequiredFields(body)
              && body.fields.user.Some? && body.fields.user.value !in users)
              ==> r == Reject(ErrorReply(StatusNotFound, MsgPutUserNotFound(body.fields.user.value)))
    ensures (Access(results, caller, id).Proceed? && HasRequiredFields(body)
              && (body.fields.user.Some? ==> body.fields.user.value in users)
              && ifMatch != Some(env.etagOne(id, results[id])))
              ==> r == Reject(ErrorReply(StatusPreconditionFailed, MsgPreconditionFailed))
    ensures r.Proceed? <==>
              caller.fullyAuthenticated && id in results && MayAccess(caller, results[id])
              && HasRequiredFields(body)
              && (body.fields.user.Some? ==> body.fields.user.value in users)
              && ifMatch == Some(env.etagOne(id, results[id]))
    ensures r.Proceed? ==>
              r.value == Update(results[id], body.fields, body.fields.user, env.etagOne(id, results[id]))
  {
    match Access(results, caller, id)
    case Reject(response) => Reject(response)
    case Proceed(current) =>
      if !HasRequiredFields(body) then Reject(ErrorReply(StatusBadRequest, MsgFieldsMissing))
      else if body.fields.user.Some? && body.fields.user.value !in users
      then Reject(ErrorReply(StatusNotFound, MsgPutUserNotFound(body.fields.user.value)))
      else
        var tag := env.etagOne(id, current);
        if !IfMatchPasses(ifMatch, tag) then Reject(ErrorReply(StatusPreconditionFailed, MsgPreconditionFailed))
        else Proceed(Update(current, body.fields, body.fields.user, tag))
  }

  /**
   * The 209 reply to an accepted update as the code writes it: the body is the
   * updated result but the `ETag` header is the tag of the result as it was
   * before the update.
   */
  function PutReplyAsWritten(env: Collaborators, id: ResultId, u: Update): (r: Response)
    ensures r.Is(StatusContentReturned) && r.content == One(id, Updated(env, u))
    ensures r.headers == map[HeaderETag := u.tag]
  {
    Reply(StatusContentReturned, map[HeaderETag := u.tag], One(id, Updated(env, u)))
  }

  /** The 209 reply to an accepted update, its `ETag` header the tag of the result it returns. */
  function PutReply(env: Collaborators, id: ResultId, u: Update): (r: Response)
    ensures r.Is(StatusContentReturned) && r.content.One? && r.content.id == id
    ensures r.content.result == Updated(env, u)
    ensures r.headers == map[HeaderETag := env.etagOne(r.content.id, r.content.result)]
  {
    var updated := Updated(env, u);
    Reply(StatusContentReturned, map[HeaderETag := env.etagOne(id, updated)], One(id, updated))
  }

  /** The methods OPTIONS advertises: item routes (non-zero id) versus the collection route. */
  function AllowedMethods(id: Option<int>): (methods: seq<string>)
    ensures |methods| > 0 && methods[0] == MethodGet && methods[|methods| - 1] == MethodOptions
    ensures MethodPost in methods <==> id.None? || id.value == 0
    ensures MethodPut in methods <==> id.Some? && id.value != 0
    ensures MethodDelete in methods <==> id.Some? && id.value != 0
    ensures forall i, j :: 0 <= i < j < |methods| ==> methods[i] != methods[j]
    ensures forall i :: 0 <= i < |methods| ==> ',' !in methods[i]
  {
    var methods := if id.Some? && id.value != 0 then [MethodGet, MethodPut, MethodDelete] else [MethodGet, MethodPost];
    methods + [MethodOptions]
  }

  /** OPTIONS: no authentication; 204 with the `Allow` list (comma-joined) and a public cache policy. */
  function OptionsAction(id: Option<int>): (r: Response)
    ensures r.Is(StatusNoContent) && r.content == Empty
    ensures r.headers.Keys == {HeaderAllow, HeaderCacheControl}
    ensures r.headers[HeaderCacheControl] == CacheOptions
    ensures PhpStrings.Explode(',', r.headers[HeaderAllow]) == AllowedMethods(id)
  {
    var methods := AllowedMethods(id);
    PhpStrings.ExplodeImplode(',', methods);
    Reply(StatusNoContent,
          map[HeaderAllow := PhpStrings.Implode(',', methods), HeaderCacheControl := CacheOptions],
          Empty)
  }

  /**
   * The controller with the persisted state it works on: the results (by id),
   * the e-mails of existing users, and the next id the database will assign.
   */
  class ResultsController {
    const env: Collaborators
    var results: map<ResultId, Result>
    var users: set<Email>
    var nextId: nat

    /** Ids are assigned from 1 upwards and every stored id is below the next one. */
    ghost predicate Valid()
      reads this
    {
      0 < nextId && forall id :: id in results ==> 0 < id < nextId
    }

    constructor (env: Collaborators, users: set<Email>)
      ensures Valid()
      ensures this.env == env && this.users == users && results == map[] && nextId == 1
    {
      this.env := env;
      this.users := users;
      results := map[];
      nextId := 1;
    }

    /**
     * GET on the collection: 401, then 404 when the caller can see nothing,
     * then 304 when `If-None-Match` names the list's tag or `*`, else 200 with
     * the visible results, their tag and `Cache-Control: private`.
     */
    function CGet(caller: Caller, ifNoneMatch: seq<string>): (r: Response)
      reads this
      ensures r.Is(StatusUnauthorized) <==> !caller.fullyAuthenticated
      ensures !caller.fullyAuthenticated ==> r.content == Message(MsgUnauthorized)
      ensures r.Is(StatusNotFound) <==>
                caller.fullyAuthenticated
                && forall id :: id in results ==> !caller.isAdmin && results[id].owner != caller.identifier
      ensures r.Is(StatusOk) ==>
                && r.content.Many?
                && (forall id :: id in r.content.results <==>
                      id in results && (caller.isAdmin || results[id].owner == caller.identifier))
                && (forall id :: id in r.content.results ==> r.content.results[id] == results[id])
                && r.content.results != map[]
                && r.headers == map[HeaderCacheControl := CachePrivate,
                                    HeaderETag := env.etagMany(r.content.results)]
      ensures r.Is(StatusNotModified) ==> r == Reply(StatusNotModified, map[], Empty)
      ensures caller.fullyAuthenticated && Visible(results, caller) != map[] ==>
                var etag := env.etagMany(Visible(results, caller));
                if exists i :: 0 <= i < |ifNoneMatch| && (ifNoneMatch[i] == etag || ifNoneMatch[i] == AnyTag)
                then r == Reply(StatusNotModified, map[], Empty)
                else r == Reply(StatusOk, map[HeaderCacheControl := CachePrivate, HeaderETag := etag],
                                Many(Visible(results, caller)))
      ensures r.Is(StatusOk) || r.Is(StatusNotModified) || r.Is(StatusNotFound) || r.Is(StatusUnauthorized)
    {
      var denied := AuthorizationError(caller);
      if denied.Some? then denied.value
      else
        var visible := Visible(results, caller);
        if visible == map[] then
          assert forall id :: id in results ==> id !in visible;
          ErrorReply(StatusNotFound, MsgResultsNotFound)
        else
          var etag := env.etagMany(visible);
          if NoneMatchHit(ifNoneMatch, etag) then Reply(StatusNotModified, map[], Empty)
          else Reply(StatusOk, map[HeaderCacheControl := CachePrivate, HeaderETag := etag], Many(visible))
    }

    /**
     * GET on one result: 401, then 404 / 403 from the lookup, then 304 when
     * `If-None-Match` names its tag or `*`, else 200 with the result, its tag
     * and `Cache-Control: private`.
     */
    function Get(caller: Caller, id: ResultId, ifNoneMatch: seq<string>): (r: Response)
      reads this
      ensures !caller.fullyAuthenticated ==> r.Is(StatusUnauthorized)
      ensures r.Is(StatusNotFound) <==> caller.fullyAuthenticated && id !in results
      ensures r.Is(StatusForbidden) <==>
                caller.fullyAuthenticated && id in results && !caller.isAdmin && results[id].owner != caller.identifier
      ensures caller.fullyAuthenticated && id in results && MayAccess(caller, results[id]) ==>
                var etag := env.etagOne(id, results[id]);
                if exists i :: 0 <= i < |ifNoneMatch| && (ifNoneMatch[i] == etag || ifNoneMatch[i] == AnyTag)
                then r == Reply(StatusNotModified, map[], Empty)
                else r == Reply(StatusOk, map[HeaderCacheControl := CachePrivate, HeaderETag := etag], One(id, results[id]))
    {
      match Access(results, caller, id)
      case Reject(response) => response
      case Proceed(result) =>
        var etag := env.etagOne(id, result);
        if NoneMatchHit(ifNoneMatch, etag) then Reply(StatusNotModified, map[], Empty)
        else Reply(StatusOk, map[HeaderCacheControl := CachePrivate, HeaderETag := etag], One(id, result))
    }

    /**
     * POST on the collection. When `PostDecision` accepts, exactly one result
     * is inserted, under a fresh id, and the reply is 201 with `Location`
     * pointing at it; on every other outcome nothing is stored.
     */
    method Post(caller: Caller, body: RequestBody) returns (r: Response)
      requires Valid()
      modifies this
      ensures Valid() && users == old(users)
      ensures var d := PostDecision(env, users, caller, body);
        if d.Reject? then
          r == d.response && results == old(results) && nextId == old(nextId)
        else
          && old(nextId) !in old(results)
          && results == old(results)[old(nextId) := d.value]
          && nextId == old(nextId) + 1
          && r == Reply(StatusCreated, map[HeaderLocation := LocationOf(old(nextId))], One(old(nextId), d.value))
    {
      var d := PostDecision(env, users, caller, body);
      if d.Reject? {
        r := d.response;
      } else {
        var id := nextId;
        results := results[id := d.value];
        nextId := nextId + 1;
        r := Reply(StatusCreated, map[HeaderLocation := LocationOf(id)], One(id, d.value));
      }
    }

    /** DELETE on one result: after 401 / 404 / 403, removes that id alone and replies 204. */
    method Delete(caller: Caller, id: ResultId) returns (r: Response)
      requires Valid()
      modifies this
      ensures Valid() && users == old(users) && nextId == old(nextId)
      ensures var d := Access(old(results), caller, id);
        if d.Reject? then
          r == d.response && results == old(results)
        else
          && id in old(results)
          && results == old(results) - {id}
          && r == Reply(StatusNoContent, map[], Empty)
    {
      var d := Access(results, caller, id);
      if d.Reject? {
        r := d.response;
      } else {
        results := results - {id};
        r := Reply(StatusNoContent, map[], Empty);
      }
    }

    /**
     * PUT on one result. When `PutDecision` accepts, that one result is
     * replaced by its updated form and the reply is 209; on every other
     * outcome nothing changes.
     */
    method Put(caller: Caller, id: ResultId, body: RequestBody, ifMatch: Option<string>) returns (r: Response)
      requires Valid()
      modifies this
      ensures Valid() && users == old(users) && nextId == old(nextId)
      ensures var d := PutDecision(env, old(results), users, caller, id, body, ifMatch);
        if d.Reject? then
          r == d.response && results == old(results)
        else
          && id in old(results)
          && results == old(results)[id := Updated(env, d.value)]
          && r == PutReply(env, id, d.value)
    {
      var d := PutDecision(env, results, users, caller, id, body, ifMatch);
      if d.Reject? {
        r := d.response;
      } else {
        results := results[id := Updated(env, d.value)];
        r := PutReply(env, id, d.value);
      }
    }
  }
}
