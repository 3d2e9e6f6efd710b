# Listing handler of the TryMyGold media gateway, modelled in Dafny

The gateway serves `GET /api/resources/<folder>`. It lists the uploaded assets
under that folder prefix from the media provider (Cloudinary). It pages through
the provider's results until the provider stops returning a continuation cursor
or a cap on the total is reached. Then it sends the client a JSON array of
seven-field asset summaries.

The model has seven modules:

- `Optional`: an absent JavaScript value.
- `JsString`: `String.prototype.trim` over ECMAScript's whitespace and
  line-terminator code points.
- `Assets`: the provider's asset record, the client summary and the `.map`
  projection between them.
- `Provider`: the listing primitive's requests and replies. It is modelled as
  a finite sequence of replies, where reply k answers call k. A reply is a page
  (records, possibly missing, plus a flag saying whether its `next_cursor` is
  truthy; an empty-string cursor is not) or a failure. A
  page's cursor names the index of the reply it leads to.
- `Pagination`: the pagination loop as the method `Paginate`, with `resources`,
  `nextCursor` and the call index as loop variables. The method is proved equal
  to the specification functions `CallCount`, `Requests` and `Listing`. The
  stopping rule, the per-call limit, the length bound, the failure rule and
  call order are proved about those functions.
- `ResourceHandler`: the folder check, the cap, the try/catch, and the
  200/400/500 reply, as the method `HandleListing`.
- `Scenarios`: states the listing's outcome for scripted providers.

Any deterministic provider produces some sequence of replies in a given run,
because each request follows from the replies before it. The fixed reply
sequence therefore covers every provider behaviour for that run.

The loop at server.js:52 stops as soon as a reply has no cursor or the cap is
met. It would run forever only if cursors kept coming while fewer records than
the cap had been gathered, for example empty pages with a cursor under a
positive cap. The model's `WellFormed` requirement excludes that case: the last
reply carries no cursor. The loop's `decreases` clause is the number of replies
left.

`WellFormed` still covers runs that the cap stops against a provider that always
returns a cursor. Such a run is padded with one final reply that is never read.
`Scenarios.CapSplitsLastCall` does this with its `rest` of replies.

`Math.min(1000, …)` at server.js:37 caps the value only from above. So 0 and
negative `max_results` values pass through unchanged (`EffectiveCap`). With a
cap of 0 or less, exactly one call is made, asking for the cap itself.

## Model

| member | source | states |
|---|---|---|
| `ResourceHandler.FolderMissing` | server.js:31-34 | a folder counts as missing exactly when it is absent or consists only of whitespace code points (the empty string included) |
| `JsString.Trim` | server.js:32 | trim yields the empty string exactly when every character is whitespace; otherwise the result starts and ends with non-whitespace |
| `JsString.TrimKeepsInnerStretch` | server.js:32 | trim keeps exactly the stretch from the first to the last non-whitespace character |
| `ResourceHandler.EffectiveCap` | server.js:37 | the cap is never above 1000 and never above the requested value, it is one of the two, and an absent `max_results` gives 500 |
| `ResourceHandler.HandleListing` | server.js:27-80 | a missing folder gives 400 `Folder path required` with no provider call; otherwise the calls are those of `Requests` for the computed cap, a failed call gives 500 `Cloudinary error` with no items, and success gives 200 with the projection of `Listing`'s records |
| `ResourceHandler.ItemsWithinCap` | server.js:37-72 | with a provider that honours each call's limit, a successful reply holds no more summaries than the cap, and the cap is at most 1000 |
| `Pagination.Limit` | server.js:44-56 | the limit of a call is at most 500 and at most the cap minus the records gathered by the calls before it, and it equals one of the two |
| `Pagination.RequestAt` | server.js:41-58 | a call asks for type `upload` under the folder prefix with its `Limit`; the first call has no cursor, and call j passes the cursor of reply j - 1, which names reply j |
| `Pagination.Continues` | server.js:52 | the loop goes on only while fewer records than the cap are gathered, and for a finite provider a reply with a cursor always has a reply after it |
| `Pagination.Paginate` | server.js:41-61 | the loop's result and the calls it sends are exactly `Listing` and `Requests` of the provider's replies and the cap |
| `Pagination.CallCount` | server.js:51-52 | a listing makes at least one call and never more calls than the provider has replies |
| `Pagination.StoppingRule` | server.js:51-52 | every call after the first was made because the previous reply had a cursor and fewer than cap records were gathered; after the last call that condition fails, so no call is made once the cap is met even if a cursor remains |
| `Pagination.PerCallLimit` | server.js:42-57 | each call asks for type `upload` under the folder prefix, for at most 500 records and at most the cap minus the records already gathered; every later call asks for at least one record and passes the previous reply's cursor |
| `Pagination.LengthBound` | server.js:52-61 | with a provider that returns no more than each call asked for, the listing never exceeds the cap |
| `Pagination.HonestCapNonNegative` | server.js:44 | a provider can honour every call's limit only when the cap is non-negative, because the first call asks for at most the cap |
| `Pagination.FailureIff` | server.js:75-78 | for the replies the model can express (a page or a rejected call), the listing fails exactly when one of its calls fails |
| `Pagination.PagesInCallOrder` | server.js:48 | each call's records appear whole and in place in the listing, right after the records of the calls before it |
| `Pagination.EmptyFirstPage` | server.js:48-52 | a first page with no records and no cursor gives an empty listing after exactly one call |
| `Provider.Records` | server.js:48 | a page's records are its `resources` when the field is present; a failure or a page without the field contributes no records |
| `Provider.FlatAppend` | server.js:59 | concatenating the pages of two runs of replies equals concatenating the two runs' records |
| `Provider.MissingResourcesContributeNothing` | server.js:48 | a page without a `resources` field leaves the result as if it were absent |
| `Assets.Project` | server.js:64-72 | public_id, format, width, height, bytes and created_at are copied verbatim under their own names, and secure_url becomes src |
| `Assets.ProjectAll` | server.js:64 | the projection keeps the length and maps each record, position by position, to its summary |
| `Assets.ProjectSameIff` | server.js:64-72 | two records have the same summary exactly when they agree on public_id, secure_url, format, width, height, bytes and created_at; every other field, `url` included, is dropped |
| `Scenarios.TwoPagesConcatenated` | server.js:41-61 | two ten-record pages, the first with a cursor, under cap 1000: two calls, twenty records, first page first |
| `Scenarios.CapSplitsLastCall` | server.js:52-61 | with a cap of 650 and pages that keep offering a cursor, there are two calls, for 500 and then for 150, and 650 records; no third call is made |
| `Scenarios.FirstCallFails` | server.js:41-45 | a failing first call ends the listing after that one call with a failure |

## Left out

- Express setup, CORS and JSON middleware, `app.listen` and the `PORT` lookup (server.js:2-9, server.js:87-88) are process and I/O plumbing.
- `cloudinary.config` and the real `cloudinary.api.resources` network call (server.js:12-16) belong to a foreign client library. They are replaced by the reply sequence of `Provider`.
- The `/_health` and `/` endpoints (server.js:19-21, server.js:83-85) return constant responses.
- `console.error` logging and the `details` field built from `err.message || err.toString()` (server.js:76-78) are I/O and foreign content. A failure is an abstract `Failure` reply, and the 500 reply carries only its fixed `error` text.
- `parseInt` string semantics (server.js:37) are not modelled. The parsed `max_results` is an optional integer, where absent stands for a missing or empty parameter. A non-numeric value (NaN in the source, which makes the loop stop after one call) is not modelled, and neither is a repeated parameter.
- JavaScript numbers are modelled as unbounded integers. Floating-point precision of very large `max_results` values is not modelled.
- Malformed replies are not modelled. Inside the `try` at server.js:28-74, a reply the handler cannot read throws a TypeError, and the catch at server.js:75-78 turns it into 500 `Cloudinary error` although no call failed. Examples are an undefined `response` or `page` (server.js:48, server.js:59), a truthy `resources` that is not an array (it passes `.concat` at server.js:59 and throws at the `.map`, server.js:64, possibly after further calls), and a null record (server.js:65). `Reply` and `AssetRecord` cannot express such replies, so `Pagination.FailureIff` covers only pages and rejected calls.
- `async`/`await` is modelled as ordinary sequential calls, because the calls are strictly sequential.
- Fields that the provider leaves out of a record (for example `width` of a raw file, which JSON serialisation then drops) are not modelled. Every record carries all its fields.
- Pagination.LengthBound: holds only for a provider that returns no more records than each call asks for, because the handler itself never trims a page.
