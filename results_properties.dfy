/**
 * Properties that relate several handlers of the Results controller, the
 * stale-tag defect of the update reply, and a worked session.
 */
module ResultsProperties {
  import opened Wrappers
  import opened Http
  import PhpStrings
  import opened ApiResultsQuery

  /** The list and the single read apply the same ownership rule: a result is listed iff it can be read. */
  lemma ListedIffReadable(c: ResultsController, caller: Caller, id: ResultId)
    requires caller.fullyAuthenticated
    ensures id in Visible(c.results, caller) <==> c.Get(caller, id, []).Is(StatusOk)
    ensures id in Visible(c.results, caller) ==> c.Get(caller, id, []).content == One(id, Visible(c.results, caller)[id])
  {
  }

  /** A non-admin can hand a result they own to another existing user: PUT checks the named user exists, not who it is. */
  lemma NonAdminMayReassignOwner(env: Collaborators, results: map<ResultId, Result>, users: set<Email>,
                                 caller: Caller, id: ResultId, value: Json, time: Json, newOwner: Email)
    requires caller.fullyAuthenticated && !caller.isAdmin
    requires id in results && results[id].owner == caller.identifier
    requires value != Null && time != Null
    requires newOwner in users && newOwner != caller.identifier
    ensures var body := Object(Fields(value, time, Some(newOwner)));
            var d := PutDecision(env, results, users, caller, id, body, Some(env.etagOne(id, results[id])));
            d.Proceed? && d.value.owner == Some(newOwner)
  {
  }

  /** POST, by contrast, refuses the same request from a non-admin. */
  lemma NonAdminCannotCreateForOthers(env: Collaborators, users: set<Email>, caller: Caller,
                                      value: Json, time: Json, other: Email)
    requires caller.fullyAuthenticated && !caller.isAdmin
    requires value != Null && time != Null && other != caller.identifier
    ensures PostDecision(env, users, caller, Object(Fields(value, time, Some(other)))).response.Is(StatusForbidden)
  {
  }

  /** A result a non-admin creates is always their own: the default owner and the 403 check agree. */
  lemma NonAdminCreatesOnlyOwn(env: Collaborators, users: set<Email>, caller: Caller, body: RequestBody)
    requires !caller.isAdmin
    requires PostDecision(env, users, caller, body).Proceed?
    ensures PostDecision(env, users, caller, body).value.owner == caller.identifier
  {
  }

  /** `implode` of three pieces, spelled out. */
  lemma ImplodeThree(a: string, b: string, c: string)
    ensures PhpStrings.Implode(',', [a, b, c]) == a + "," + b + "," + c
  {
    var pieces := [a, b, c];
    assert pieces[1..] == [b, c] && pieces[1..][1..] == [c];
  }

  /** `implode` of four pieces, spelled out. */
  lemma ImplodeFour(a: string, b: string, c: string, d: string)
    ensures PhpStrings.Implode(',', [a, b, c, d]) == a + "," + b + "," + c + "," + d
  {
    var pieces := [a, b, c, d];
    assert pieces[1..] == [b, c, d];
    ImplodeThree(b, c, d);
  }

  /** The methods an item route advertises, spelled out. */
  lemma ItemMethods(id: int)
    requires id != 0
    ensures AllowedMethods(Some(id)) == ["GET", "PUT", "DELETE", "OPTIONS"]
  {
    assert AllowedMethods(Some(id)) == [MethodGet, MethodPut, MethodDelete] + [MethodOptions];
  }

  /** An item route's methods, comma-joined. */
  lemma ItemAllowText()
    ensures PhpStrings.Implode(',', ["GET", "PUT", "DELETE", "OPTIONS"]) == "GET,PUT,DELETE,OPTIONS"
  {
    ImplodeFour("GET", "PUT", "DELETE", "OPTIONS");
    ItemAllowConcat();
  }

  /** The header text, by concatenation of the literals. */
  lemma ItemAllowConcat()
    ensures "GET" + "," + "PUT" + "," + "DELETE" + "," + "OPTIONS" == "GET,PUT,DELETE,OPTIONS"
  {
  }

  /** The `Allow` header of an item route (non-zero id). */
  lemma ItemAllowHeader(id: int)
    requires id != 0
    ensures OptionsAction(Some(id)).headers[HeaderAllow] == "GET,PUT,DELETE,OPTIONS"
  {
    ItemMethods(id);
    assert OptionsAction(Some(id)).headers[HeaderAllow] == PhpStrings.Implode(',', ["GET", "PUT", "DELETE", "OPTIONS"]);
    ItemAllowText();
  }

  /** The methods the collection route advertises, spelled out. */
  lemma CollectionMethods(id: Option<int>)
    requires id.None? || id.value == 0
    ensures AllowedMethods(id) == ["GET", "POST", "OPTIONS"]
  {
    assert !(id.Some? && id.value != 0);
    assert AllowedMethods(id) == [MethodGet, MethodPost] + [MethodOptions];
  }

  /** The collection route's methods, comma-joined. */
  lemma CollectionAllowText()
    ensures PhpStrings.Implode(',', ["GET", "POST", "OPTIONS"]) == "GET,POST,OPTIONS"
  {
    ImplodeThree("GET", "POST", "OPTIONS");
    CollectionAllowConcat();
  }

  /** The header text, by concatenation of the literals. */
  lemma CollectionAllowConcat()
    ensures "GET" + "," + "POST" + "," + "OPTIONS" == "GET,POST,OPTIONS"
  {
  }

  /** The `Allow` header of the collection route (no id, or id 0). */
  lemma CollectionAllowHeader(id: Option<int>)
    requires id.None? || id.value == 0
    ensures OptionsAction(id).headers[HeaderAllow] == "GET,POST,OPTIONS"
  {
    CollectionMethods(id);
    assert OptionsAction(id).headers[HeaderAllow] == PhpStrings.Implode(',', ["GET", "POST", "OPTIONS"]);
    CollectionAllowText();
  }

  /** Two created results never share a `Location`. */
  lemma LocationsDistinct(a: ResultId, b: ResultId)
    requires a != b
    ensures LocationOf(a) != LocationOf(b)
  {
  }

  /**
   * The defect as written: when an update changes the result's tag, the tag
   * the 209 reply carries is already out of date, so a client that sends it
   * back as `If-Match` on its next update is refused with 412.
   */
  lemma StaleEtagAfterPut(env: Collaborators, results: map<ResultId, Result>, users: set<Email>,
                          caller: Caller, id: ResultId, body: RequestBody, ifMatch: Option<string>,
                          next: RequestBody)
    requires PutDecision(env, results, users, caller, id, body, ifMatch).Proceed?
    requires var u := PutDecision(env, results, users, caller, id, body, ifMatch).value;
             env.etagOne(id, Updated(env, u)) != u.tag && MayAccess(caller, Updated(env, u))
    requires HasRequiredFields(next) && next.fields.user.None?
    ensures var u := PutDecision(env, results, users, caller, id, body, ifMatch).value;
            var sent := PutReplyAsWritten(env, id, u).headers[HeaderETag];
            PutDecision(env, results[id := Updated(env, u)], users, caller, id, next, Some(sent))
              == Reject(ErrorReply(StatusPreconditionFailed, MsgPreconditionFailed))
  {
  }

  /** The corrected reply: its tag is the one the next update must present, and that update is accepted. */
  lemma FreshEtagAfterPut(env: Collaborators, results: map<ResultId, Result>, users: set<Email>,
                          caller: Caller, id: ResultId, body: RequestBody, ifMatch: Option<string>,
                          next: RequestBody)
    requires PutDecision(env, results, users, caller, id, body, ifMatch).Proceed?
    requires var u := PutDecision(env, results, users, caller, id, body, ifMatch).value;
             MayAccess(caller, Updated(env, u))
    requires HasRequiredFields(next) && next.fields.user.None?
    ensures var u := PutDecision(env, results, users, caller, id, body, ifMatch).value;
            var sent := PutReply(env, id, u).headers[HeaderETag];
            PutDecision(env, results[id := Updated(env, u)], users, caller, id, next, Some(sent)).Proceed?
  {
  }

  /**
   * An admin creates a result for alice, reads it, updates it with the tag
   * just read, deletes it, and then finds it gone; another user is kept out
   * and an anonymous caller is refused.
   */
  method ExampleSession(env: Collaborators)
    requires env.parseResult(Literal("1")).Some?
    requires env.parseTime(Literal("\"2023-12-12 10:10:10\"")).Some?
  {
    var alice, bob := "alice@x.com", Caller(true, false, "bob@x.com");
    var admin := Caller(true, true, "admin@x.com");
    var c := new ResultsController(env, {alice, bob.identifier, admin.identifier});

    var body := Object(Fields(Literal("1"), Literal("\"2023-12-12 10:10:10\""), Some(alice)));
    var created := c.Post(admin, body);
    assert created.Is(StatusCreated) && created.headers[HeaderLocation] == LocationOf(1);
    assert c.results[1].owner == alice;

    var read := c.Get(admin, 1, []);
    assert read.Is(StatusOk);
    var e1 := read.headers[HeaderETag];
    assert c.Get(admin, 1, [e1]).Is(StatusNotModified);
    assert c.Get(bob, 1, []).Is(StatusForbidden);
    assert c.CGet(bob, []).Is(StatusNotFound);

    var change := Object(Fields(Literal("100"), Literal("\"2023-12-12 10:12:12\""), None));
    var refused := c.Put(admin, 1, change, None);
    assert refused.Is(StatusPreconditionFailed);
    var updated := c.Put(admin, 1, change, Some(e1));
    assert updated.Is(StatusContentReturned);

    var gone := c.Delete(admin, 1);
    assert gone.Is(StatusNoContent);
    assert c.Get(admin, 1, []).Is(StatusNotFound);
    assert c.CGet(admin, []).Is(StatusNotFound);

    var anonymous := c.Delete(Caller(false, false, ""), 1);
    assert anonymous.Is(StatusUnauthorized);
  }
}
