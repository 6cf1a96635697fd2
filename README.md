# Results API controller — a Dafny model

This project models the request handling of the Results resource of a Symfony
REST API (`/api/v1/results`). A result is a recorded value and time owned by
one user. The controller offers six handlers:

- list (`GET /results`)
- create (`POST /results`)
- read one (`GET /results/{id}`)
- update (`PUT /results/{id}`)
- delete (`DELETE /results/{id}`)
- `OPTIONS` on both routes

Each handler is a decision among status codes followed, for the three
writing verbs, by a change to the stored results. The model states, for
every handler:

- the order in which 401, 400, 403, 404 and 412 are chosen;
- the conditional-request checks (`If-None-Match` gives 304, `If-Match` gives 412);
- the headers of each success;
- exactly how the store changes.

It then proves properties that relate several handlers.

Files:

- `wrappers.dfy`: `Option`.
- `php_strings.dfy`: PHP's `implode`/`explode` with a one-character
  separator and the decimal rendering of an id. Each is proved to round-trip.
- `http.dfy`: status codes, header and method names, and the two tag checks.
- `results_controller.dfy`: the data model and the pure decisions
  (authentication gate, lookup, POST and PUT check order, OPTIONS). It also
  holds the class `ResultsController`, whose `results` map is the persisted
  store. `Post`, `Put` and `Delete` are methods that change it. `CGet` and
  `Get` are functions that read it.
- `results_properties.dfy`: lemmas across handlers, the stale-tag finding,
  and an example session. In that session an admin creates, reads, updates
  and deletes a result, and another user and an anonymous caller are refused.

The caller's authentication and role come in as a `Caller` value. The
controller also relies on pieces of the entity and on md5/JSON tags. These are
the uninterpreted functions of a `Collaborators` value:

- `parseResult` and `parseTime` stand for `setResult` and `setTimeFromString`.
  Their `None` is the `TypeError` caught at line 112.
- `applyUpdate` stands for `updateResultFromPostData`.
- `etagOne` and `etagMany` stand for `md5(json_encode(...))`.

Behaviours of the code that the model keeps as written:

- PUT does not check a named `user` against the caller (lines 216-222). It
  only checks that the user exists. The named user is then handed to the
  entity's update (lines 231-232), for a non-admin caller too
  (`NonAdminMayReassignOwner`). POST, by contrast, refuses a non-admin who
  names someone else (`NonAdminCannotCreateForOthers`).
- `If-Match: *` is not a wildcard. Only a tag equal to the current one
  passes. Section 3.1 of RFC 7232 would let `*` match.
- `OPTIONS /results/{id}` allows `GET,PUT,DELETE,OPTIONS`. The test at
  `tests/Controller/ApiResultsControllerTest.php:50-51` expects
  `GET,PUT,DELETE,POST,OPTIONS`.

## Model

| member | source | states |
|---|---|---|
| `ApiResultsQuery.AuthorizationError` | src/Controller/ApiResultsQueryController.php:266-275 | a 401 response with the "Invalid credentials" message exactly when the caller is not fully authenticated, nothing otherwise |
| `ApiResultsQuery.MayAccess` | src/Controller/ApiResultsQueryController.php:296 | an admin may act on any result; anyone else iff they own it |
| `ApiResultsQuery.Lookup` | src/Controller/ApiResultsQueryController.php:290-300 | an unknown id gives 404 whoever asks; a result owned by someone else gives 403 unless the caller is an admin; an admin always passes; on success the stored result itself |
| `ApiResultsQuery.Access` | src/Controller/ApiResultsQueryController.php:143-150 | the 401 check comes before the lookup; 404 iff authenticated and the id is missing, 403 iff authenticated, present and not the caller's (non-admin), success iff authenticated, present and accessible |
| `ApiResultsQuery.Visible` | src/Controller/ApiResultsQueryController.php:52-57 | the listed results are exactly the caller's own for a non-admin and all results for an admin, with their stored values |
| `ApiResultsQuery.HasRequiredFields` | src/Controller/ApiResultsQueryController.php:95 | the `isset` test passes iff the body is a JSON object whose `result` and `time` are both present and not null; anything that is not an object fails (the same test is at line 213 for PUT) |
| `ApiResultsQuery.PostOwner` | src/Controller/ApiResultsQueryController.php:316-322 | the owner of a created result is the `user` named in the body, and the caller when none is named |
| `ApiResultsQuery.PostForbidden` | src/Controller/ApiResultsQueryController.php:301-308 | 403 exactly when a non-admin names a user other than themselves; naming nobody is never forbidden |
| `ResultsProperties.NonAdminCreatesOnlyOwn` | src/Controller/ApiResultsQueryController.php:301-322 | every POST a non-admin gets accepted creates a result owned by that caller: the default owner and the 403 check agree |
| `ApiResultsQuery.PostDecision` | src/Controller/ApiResultsQueryController.php:88-114 | POST's check order: 401; an escaping exception for non-JSON; 400 for a missing or null `result`/`time` (before ownership and user lookup); 403; 404 naming the unknown owner; 400 when the entity rejects value or time; accepted iff all pass, with the record built from the resolved owner and parsed fields |
| `ApiResultsQuery.LocationOf` | src/Controller/ApiResultsQueryController.php:120-123 | the `Location` path is the route prefix, a slash and the id in decimal, which reads back as the id |
| `ApiResultsQuery.PutDecision` | src/Controller/ApiResultsQueryController.php:203-230 | PUT's check order: 401 / 404 / 403 from the lookup, then 400 for a body without both fields, then 404 for an unknown named user, then 412 unless `If-Match` is present and equal to the current tag; accepted iff all pass, carrying the current result, the body, the named owner and the tag checked |
| `ApiResultsQuery.PutReplyAsWritten` | src/Controller/ApiResultsQueryController.php:223-241 | as written: status 209, body the updated result, `ETag` header the tag of the result before the update |
| `ApiResultsQuery.PutReply` | src/Controller/ApiResultsQueryController.php:231-241 | corrected: status 209, body the updated result, `ETag` header the tag of that returned result |
| `ApiResultsQuery.AllowedMethods` | src/Controller/ApiResultsQueryController.php:252-255 | GET first and OPTIONS last, no method twice; PUT and DELETE iff the id is non-zero, POST iff it is null or zero |
| `ApiResultsQuery.OptionsAction` | src/Controller/ApiResultsQueryController.php:250-265 | 204 without authentication or body; `Allow` is the method list joined by commas and splits back into it; `Cache-Control: public, inmutable` |
| `ApiResultsQuery.ResultsController.CGet` | src/Controller/ApiResultsQueryController.php:45-74 | 401 with the "Invalid credentials" message iff the caller is not fully authenticated; 404 iff authenticated and nothing is visible; when something is visible, 304 with no headers or body iff `If-None-Match` holds the list's tag or `*`, and otherwise 200 with exactly the visible results, `Cache-Control: private` and their tag |
| `ApiResultsQuery.ResultsController.Get` | src/Controller/ApiResultsQueryController.php:140-164 | 401, then 404 iff the id is missing, 403 iff owned by another (non-admin caller), then 304 iff `If-None-Match` holds the result's tag or `*`, else 200 with the result, its tag and `Cache-Control: private` |
| `ApiResultsQuery.ResultsController.Post` | src/Controller/ApiResultsQueryController.php:86-125 | on an accepted POST exactly one result is inserted under a fresh id and the reply is 201 with `Location` ending in `/api/v1/results/<id>`; on every refusal the store and the id counter are unchanged |
| `ApiResultsQuery.ResultsController.Delete` | src/Controller/ApiResultsQueryController.php:172-185 | after 401 / 404 / 403 with the store unchanged, removes exactly that id, keeps every other entry and replies 204 |
| `ApiResultsQuery.ResultsController.Put` | src/Controller/ApiResultsQueryController.php:200-242 | on every refusal the store is unchanged; on acceptance only that result is replaced by its updated form and the reply is the corrected `PutReply` (tag of the updated result; see Left out and Findings) |
| `Http.NoneMatchHit` | src/Controller/ApiResultsQueryController.php:62-64 | the read is "not modified" iff some tag in the `If-None-Match` list is the computed tag or `*` (so never for an empty list) |
| `Http.IfMatchPasses` | src/Controller/ApiResultsQueryController.php:224 | the update precondition holds iff an `If-Match` value is present and equals the current tag; an absent header always fails |
| `PhpStrings.ExplodeImplode` | src/Controller/ApiResultsQueryController.php:261 | a comma-joined method list splits back into the same list when no method contains a comma |
| `PhpStrings.Implode` | src/Controller/ApiResultsQueryController.php:261 | `implode` gives "" for no pieces and the piece itself for one (its inverse is `ExplodeImplode`) |
| `PhpStrings.ImplodeEnds` | src/Controller/ApiResultsQueryController.php:261 | the joined string starts with the first piece and ends with the last, so the `Allow` header starts with `GET` and ends with `OPTIONS` |
| `PhpStrings.DecimalString` | src/Controller/ApiResultsQueryController.php:122 | an id is rendered as a non-empty string of decimal digits without a leading zero |
| `PhpStrings.DecimalRoundTrip` | src/Controller/ApiResultsQueryController.php:122 | reading the rendered id as a decimal number gives the id back |
| `PhpStrings.DecimalStringInjective` | src/Controller/ApiResultsQueryController.php:293 | distinct ids are rendered differently (so distinct ids give distinct "not found" messages) |
| `ResultsProperties.ListedIffReadable` | src/Controller/ApiResultsQueryController.php:52-60 | a result is in the caller's list iff a plain GET of it returns 200, and with the same content: list and single read apply one ownership rule |
| `ResultsProperties.NonAdminMayReassignOwner` | src/Controller/ApiResultsQueryController.php:216-232 | a non-admin owner naming another existing user in a PUT with the right tag is accepted, and the named user is handed to the entity's update (lines 231-232) |
| `ResultsProperties.NonAdminCannotCreateForOthers` | src/Controller/ApiResultsQueryController.php:98-101 | a non-admin whose POST names another user gets 403, whether or not that user exists |
| `ResultsProperties.ItemAllowHeader` | src/Controller/ApiResultsQueryController.php:252-261 | OPTIONS on a non-zero id sends `Allow: GET,PUT,DELETE,OPTIONS` |
| `ResultsProperties.CollectionAllowHeader` | src/Controller/ApiResultsQueryController.php:252-261 | OPTIONS on the collection (null or zero id) sends `Allow: GET,POST,OPTIONS` |
| `ResultsProperties.LocationsDistinct` | src/Controller/ApiResultsQueryController.php:121-122 | two different ids never share a `Location` |
| `ResultsProperties.StaleEtagAfterPut` | src/Controller/ApiResultsQueryController.php:223-239 | as written, when an update changes the tag, sending back the reply's `ETag` as `If-Match` on the next update gets 412 |
| `ResultsProperties.FreshEtagAfterPut` | src/Controller/ApiResultsQueryController.php:223-239 | with the corrected reply, sending back its `ETag` as `If-Match` on the next update is accepted (when the caller may still access the result) |

## Left out

- Routing, format negotiation and rendering are not modelled: `Utils::getFormat`, `Utils::apiResponse` and `Utils::errorMessage`. A response is a status code, the headers the controller itself sets, and a body. The body is empty, an error message, one result or a map of results.
- Doctrine is not modelled. The repositories and the entity manager are a map of results and a set of user e-mails. A new id comes from an auto-increment counter.
- `md5` and `json_encode` are not modelled. The list tag is taken over the map of listed results, so the order in which the database returns rows is abstracted away.
- The entity's `setResult`, `setTimeFromString` and `updateResultFromPostData` are uninterpreted. A `TypeError` inside `updateResultFromPostData` (lines 231-233, no `try`) is not modelled. The update is total.
- POST with a body that is not JSON throws `JsonException` (line 94). The model returns `Thrown` and leaves the store unchanged. Whatever the framework then renders is not modelled.
- The scheme and host in `Location` (line 121) are left out. Only the path is modelled.
- The framework's splitting of the `If-None-Match` header into a tag list (`getETags`) is not modelled. The handlers receive the list.
- A `user` field that is set but is not a string is not modelled. The body's `user` is an e-mail or absent/null.
- The stored `result` value is an integer. A fractional value is not modelled.
- `isGranted` with the role hierarchy is reduced to an `isAdmin` flag. The list's lookup of the caller's `User` by e-mail (line 53) is folded into comparing owner e-mails.
- Http.IfMatchPasses: compares the tag and the header as strings. PHP's loose `!=` (line 224) also treats two numeric-looking strings as equal, for instance an md5 of the form `0e` followed by digits and the header `0`. That is not modelled.
- Http.NoneMatchHit: the same string comparison stands in for the loose `in_array` at lines 62 and 152.
- The error messages interpolate the id and the e-mail. They are modelled as strings, but the framework's error body format is not.
- ApiResultsQuery.ResultsController.Put: sends the corrected reply `PutReply`, whose `ETag` is the tag of the updated result. The code at line 239 sends the tag from before the update; that reply is modelled as `PutReplyAsWritten` (see Findings).
- `src/Controller/ApiResultsQueryInterface.php` contributes only the route prefix, modelled as `ApiRoute`. The test file is not part of this model.

## Findings

| source | as written | input that shows it | evidently intended | confidence | as-written member | corrected member |
|---|---|---|---|---|---|---|
| src/Controller/ApiResultsQueryController.php:223-239 | the 209 reply's `ETag` is the tag computed before `updateResultFromPostData`, while its body is the updated result | a result whose current tag is E1, updated by `PUT` with `If-Match: E1` and a new `result`; the reply carries `ETag: E1`, and a second `PUT` with `If-Match: E1` gets 412 because the stored result's tag is no longer E1 | the reply's `ETag` is the tag of the updated result it returns, so the next conditional update can use it | high, not executed | `ApiResultsQuery.PutReplyAsWritten`, `ResultsProperties.StaleEtagAfterPut` | `ApiResultsQuery.PutReply`, `ResultsProperties.FreshEtagAfterPut` |
