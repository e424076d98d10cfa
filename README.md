# media_handler — a Dafny model of the gateway and the media backend

This project models the behavioural core of the media handler system:

- the aiohttp API gateway (`gateway.py`): its route table, the header
  hygiene and body strategy of `proxy_request`, the translation of the
  upstream outcome into the client reply, and the fixed health and preflight
  answers;
- the backend's bearer-token authentication (`JWTAuthentication`, `JWTUser`);
- the media serializer: the type check, the owner assignment on create and
  the gateway URL of a stored file;
- the media model: the upload path, what `Media.save` does to a record, the
  creation defaults and the string forms;
- the media and collection endpoints over an in-memory table: the
  ownership-filtered listings, soft delete, add to / remove from a
  collection, and the two creates.

Modules:

- `Text` (text.dfy): the Python string operations used (`startswith`,
  `in`, `lower`, `split`, `split(sep, 1)`), with their properties.
- `HeaderMaps` (header_maps.dfy): header lists. An aiohttp `CIMultiDict` is a
  list of pairs with first-match case-insensitive lookup. A Python `dict` is a
  list of pairs with distinct names, with exact lookup, assignment and the
  dict comprehension.
- `Routing` (routing.dfy): the table of nine routes in registration order
  and the resolver.
- `Proxy` (proxy.dfy): `proxy_request`, as specification functions plus the
  imperative `ProxyRequest` method proved equal to them.
- `Gateway` (gateway.py's handlers put together, gateway.dfy).
- `Auth` (auth.dfy), `Models` (models.dfy), `Serializers` (serializers.dfy).
- `Uuids` (uuids.dfy): Python's `uuid.UUID` reading of a text, which
  Django applies to every value a lookup compares with a UUID id. Stored
  ids are kept in the canonical text form `str(uuid)` gives.
- `Views` (views.dfy): a `MediaStore` class whose `media` and `collections`
  tables the endpoint methods update.

Modelling decisions:

- **Resolver.** The framework's route resolver is not shown. The model
  assumes it picks the first route, in registration order, whose path pattern
  and method both match, as aiohttp did before version 3.10. When no route accepts the request, the answer is 405
  if some pattern matched the path and 404 otherwise.
- **Oracles.** These happen outside the shown code and become parameters:
  - the upstream HTTP call (`upstream: UpstreamRequest -> Outcome`);
  - UTF-8 decoding plus `json.loads` (`decode`);
  - JWT signature checking (`decode` in `Auth`);
  - the clock (`now`);
  - the outcome of DRF's field validation (`validated`);
  - database failures (`dbFailure`);
  - fresh UUIDs (`freshId`).
- **Empty contracts on purpose.** `ForwardHeaders`, `ReplyHeaders`,
  `PlanRequest`, `Translate` and `ProxyResult` are specification functions
  with no contract of their own. Their lemmas below say what they mean.

Where the code and the written design of the system disagree, the model
follows the code:

- **CORS.** The design asks for CORS headers on every response. Within
  `proxy_request` the code adds them only to a forwarded non-empty upstream
  reply (`CorsOnlyOnForwardedBody`). Outside it, the preflight answer
  (gateway.py:174-177) carries all four and the welcome page (gateway.py:238)
  carries only `Access-Control-Allow-Origin`.
- **Timeouts.** The design asks that an upstream timeout be answered with 503.
  No timeout is configured, so the client session's default total timeout
  applies. The timeout error it raises is not a connection error, so it falls
  into the generic branch and the client gets a 500 with the error's text
  (gateway.py:142-144). In the model this is the `Raised` outcome
  (`TranslateFailure`); the 503 is given only for a refused connection.
- **Unmatched paths.** The design answers them with 404. The preflight
  pattern `/{path:.*}` matches every path that starts with `/`. So, under
  first-match resolution, a request to an unknown path gets a 405, and a 404
  is sent only for a path that does not start with `/` (`NotFoundExactly`).
- **OPTIONS.** The design answers OPTIONS on any path with the preflight. The
  `"*"` auth routes are registered before the preflight route and take OPTIONS
  on auth paths. `proxy_request` then refuses OPTIONS with a 405 that has no
  CORS headers (`AuthPreflightRefused`).
- **storage_path.** `Media.save` copies `file.name` into `storage_path`
  before the framework's save writes the file under `media_upload_path`.
  - A record created with a file would therefore record the client's file
    name, and only a later save would record the stored path
    (`CreatedRecord`, `ResaveSettles`).
  - Through the API no record is created with a file at all (see
    "## Findings").

## Model

| member | source | states |
|---|---|---|
| `Routing.MatchPath` | gateway.py:147-202 | what each route pattern kind matches and captures: an exact path, a prefix with the captured rest, or `/media/{type}/{filename}` with two non-empty slash-free segments |
| `Routing.MatchSegments` | gateway.py:195-202 | `{type}/{filename}` after the prefix captures two non-empty segments without `/` that rebuild the path around one slash |
| `Routing.ResolveFirst` | gateway.py:147-202 | the first route in registration order whose pattern and methods both accept the request decides it, with its captures |
| `Routing.ResolveMatched` | gateway.py:147-202 | every match comes from the first accepting route |
| `Routing.ResolveUnmatched` | gateway.py:147-202 | with no accepting route the answer is 405 when some path pattern matched and 404 when none did |
| `Routing.AuthPathRoute` | gateway.py:147-152 | `/api/auth/{rest}`, any method, goes to the auth service at `/api/auth/` + rest |
| `Routing.AuthTrailingSlashShadowed` | gateway.py:154-158 | the dedicated `/api/auth/` route is never the one chosen, since the `{path:.*}` route before it already takes `/api/auth/` |
| `Routing.AuthRootRoute` | gateway.py:160-164 | `/api/auth`, any method, goes to the auth service at `/api/auth/` |
| `Routing.MediaPathRoute` | gateway.py:182-187 | `/api/media/{rest}`, any method but OPTIONS, goes to the backend at `/api/media/` + rest |
| `Routing.MediaRootRoute` | gateway.py:189-193 | `/api/media`, any method but OPTIONS, goes to the backend at `/api/media` with no slash added |
| `Routing.MediaFileRoute` | gateway.py:195-202 | `GET /media/{type}/{filename}` goes to the backend at the same path; other methods except OPTIONS are refused with 405 |
| `Routing.PreflightRoute` | gateway.py:167-179 | OPTIONS on any path starting with `/` outside the auth prefix reaches the preflight handler |
| `Routing.AuthPreflightProxied` | gateway.py:147-168 | OPTIONS on an auth path is taken by one of the auth routes registered before the preflight route |
| `Routing.NotFoundExactly` | gateway.py:167-168 | the resolver answers 404 exactly for paths that do not start with `/` |
| `HeaderMaps.Get` | gateway.py:36-37 | a dict lookup finds a value exactly when the name is present |
| `HeaderMaps.Set` | gateway.py:41 | `d[k] = v` keeps names distinct, makes `k` read `v`, changes no other name, appends a new name and overwrites an existing one in place |
| `HeaderMaps.FromItemsGet` | gateway.py:36-37 | a dict comprehension keeps for each name the value of its last pair |
| `HeaderMaps.FilterOutGet` | gateway.py:36-37 | filtering on lower-cased names removes exactly those names, whatever their case, and keeps every other name's last value |
| `HeaderMaps.FromItemsOfDict` | gateway.py:126-127 | a comprehension over a dict without filtering keeps it unchanged, order included |
| `HeaderMaps.CIGet` | gateway.py:40-41 | aiohttp's lookup finds the first pair whose name matches ignoring case, and nothing exactly when there is none |
| `Proxy.CleanRequestHeaders` | gateway.py:36-41 | the loop that builds the upstream headers yields exactly `ForwardHeaders` of the inbound headers |
| `Proxy.CleanReplyHeaders` | gateway.py:126-134 | the loop that rebuilds the reply headers yields exactly `ReplyHeaders` of the upstream headers |
| `Proxy.ProxyRequest` | gateway.py:26-144 | the imperative proxy gives exactly the reply `ProxyResult` specifies, for every upstream and decoder |
| `Proxy.ForwardHeadersGet` | gateway.py:36-41 | upstream sees each non-hop-by-hop inbound header with its last value, no hop-by-hop name, and `X-Forwarded-Host` equal to the inbound Host whenever Host is present |
| `Proxy.ForwardHeadersNoHop` | gateway.py:36-37 | no forwarded header name lower-cases to transfer-encoding, host or content-length |
| `Proxy.ForwardHeadersPreserveOrder` | gateway.py:36-37 | with distinct inbound names and no Host, the forwarded headers are exactly the non-hop-by-hop inbound headers in their order |
| `HeaderMaps.DictOfGet` | gateway.py:48 | `dict(resp.headers)` holds exactly the names the upstream sent, each with the first value sent under that name ignoring case |
| `Proxy.ReplyHeadersGet` | gateway.py:126-134 | the three CORS headers have their fixed values, overriding the upstream's; content-encoding, content-length and transfer-encoding are gone in any case; every other header the upstream sent has the first value it was sent with, and a header not sent is absent; the fixed values replace only headers spelt exactly as the CORS names, so an upstream header spelt in another case stays beside them |
| `Proxy.RepeatedHeaderKeepsFirst` | gateway.py:48 | a header the upstream repeats reaches the client with its first value only |
| `Proxy.UnsupportedMethod` | gateway.py:119-120 | a method outside GET, POST, PUT, PATCH and DELETE gets 405 `{"error": "Unsupported method"}` whatever the upstream would answer |
| `Proxy.RejectedExactly` | gateway.py:44-120 | a request is refused before any upstream call exactly when its method is unsupported or a non-empty JSON body does not decode |
| `Proxy.ForwardedShape` | gateway.py:44-117 | a forwarded request keeps the method, targets service URL + path, carries the query string on GET and only on GET, and has no body exactly for GET, DELETE and a JSON body that decodes to `null` |
| `Proxy.MultipartPassthrough` | gateway.py:53-72 | a `multipart/` content type forwards the body bytes unchanged with the original Content-Type, even when it also names JSON |
| `Proxy.JsonBody` | gateway.py:74-96 | with a JSON content type an empty body is sent as `{}`, an undecodable one is 400 `{"error": "Invalid JSON"}`, one that decodes to `null` is sent without a body, and any other is sent decoded, with the cleaned headers |
| `Proxy.RawBody` | gateway.py:98-111 | any other content type forwards the raw bytes with the cleaned headers |
| `Proxy.TranslateResponse` | gateway.py:122-137 | an empty upstream body gives 204 `{"message": "No data available"}` whatever the status; otherwise status and bytes pass through with the reply headers |
| `Proxy.TranslateFailure` | gateway.py:139-144 | a refused connection gives 503 naming the service URL; any other exception gives 500 with its text |
| `Proxy.CorsOnlyOnForwardedBody` | gateway.py:96-144 | the reply carries CORS headers exactly when the request was forwarded and the upstream answered with a non-empty body |
| `Proxy.RejectShape` | gateway.py:94-120 | the refusals made before any upstream call are JSON error documents without headers |
| `Proxy.ProxyAnswers` | gateway.py:26-144 | `proxy_request` always answers itself: its reply is never the framework's own page |
| `Gateway.HealthCheck` | gateway.py:20-23 | `GET /health` answers `{"status": "ok", "gateway": true}` without any upstream call |
| `Gateway.PreflightAnswered` | gateway.py:167-179 | preflight outside the auth prefix answers 200 with the four CORS headers, Max-Age 86400, without any upstream call |
| `Gateway.AuthPreflightRefused` | gateway.py:147-179 | OPTIONS on an auth path is proxied and refused with 405 without CORS headers |
| `Gateway.AuthForwarded` | gateway.py:147-152 | every path under `/api/auth/` is proxied to the auth service unchanged |
| `Gateway.AuthRootForwarded` | gateway.py:160-164 | `/api/auth` is proxied to the auth service as `/api/auth/` |
| `Gateway.MediaForwarded` | gateway.py:182-193 | `/api/media/{rest}` and `/api/media` are proxied to the backend unchanged for every method but OPTIONS |
| `Gateway.MediaFileForwarded` | gateway.py:195-202 | `GET /media/{type}/{filename}` is proxied to the backend at the same path; other methods except OPTIONS get the framework's 405 |
| `Gateway.FrameworkAnswers` | gateway.py:167-168 | the framework's own page is sent exactly when no route accepts, and it is a 404 exactly for paths not starting with `/` |
| `Gateway.ServiceDown` | gateway.py:139-141 | when a service refuses connections, every request forwarded to it that is not refused before the call (an undecodable JSON body) gets 503 naming that service, whatever the decoder |
| `Gateway.ListingWhileBackendDown` | gateway.py:139-141 | `GET /api/media` while the backend refuses connections gets 503 naming the backend |
| `Gateway.LoginScenario` | gateway.py:147-152 | a JSON login answered 201 by the auth service comes back 201 with the same body and the CORS headers |
| `Auth.NewJwtUser` | backend_server/media_handler/auth.py:13-18 | a JWT user has the given id and email, is authenticated and active, and is not anonymous |
| `Auth.UserNameIsEmail` | backend_server/media_handler/auth.py:20-21 | a user's string form is its email |
| `Auth.AnonymousExactly` | backend_server/media_handler/auth.py:30-33 | no authentication is attempted exactly when the header is missing or empty |
| `Auth.FormatExactly` | backend_server/media_handler/auth.py:35-38 | a non-empty header fails with "Invalid Authorization header format." exactly when it does not hold exactly one space |
| `Auth.PrefixChecked` | backend_server/media_handler/auth.py:40-41 | a two-part header whose prefix is not exactly `Bearer` (case-sensitive) fails with the prefix message |
| `Auth.DecodeOutcomes` | backend_server/media_handler/auth.py:43-69 | decoder expiry gives "Token has expired.", decoder rejection gives "Invalid token: " + reason, valid claims fail exactly when a truthy `exp` is before now, claims without `exp` pass, and a truthy `exp` outside the years 1 to 9999 raises an exception that neither handler catches |
| `Auth.AuthenticatedExactly` | backend_server/media_handler/auth.py:29-64 | success happens exactly for `Bearer <token>` with a space-free token whose claims decode, whose `exp` a date can hold, and have not expired; the token is returned unchanged and the user carries the claimed id and the email or "" |
| `Models.ExtensionAfterLastDot` | backend_server/media_handler/models.py:23 | the extension is the dot-free text after the last dot, or the whole name without a dot |
| `Models.UploadPathShape` | backend_server/media_handler/models.py:18-25 | the upload path is `<type>/<id>.<ext>` |
| `Models.ExtensionOf` | backend_server/media_handler/models.py:23 | the extension of `base.ext` is `ext` for a dot-free `ext` |
| `Models.BaseNameDiscarded` | backend_server/media_handler/models.py:23-24 | two file names with the same extension give the same upload path |
| `Models.UploadPathExample` | backend_server/media_handler/models.py:18-25 | `test_image.jpg` uploaded as an image goes to `image/<id>.jpg` |
| `Models.SaveFillsFromFile` | backend_server/media_handler/models.py:77-82 | saving with a file sets size and storage path from the file, saving without one changes nothing, and no other field changes |
| `Models.CreatedRecord` | backend_server/media_handler/models.py:64-82 | a new record is not deleted and in no collection; without a file, size and storage path stay unset; a record built with a file has it stored under the upload path while the storage path keeps the client's file name |
| `Models.ResaveSettles` | backend_server/media_handler/models.py:77-82 | from the second save on the storage path is the stored file's name, and further saves change nothing |
| `Models.MediaStringIsName` | backend_server/media_handler/models.py:84-86 | a media record prints as its name |
| `Models.CollectionStringIsName` | backend_server/media_handler/models.py:44-45 | a collection prints as its name |
| `Serializers.ValidateTypeExactly` | backend_server/media_handler/serializers.py:29-36 | a type is returned unchanged exactly when it is image, video or audio, and refused with the fixed message otherwise |
| `Serializers.Create` | backend_server/media_handler/serializers.py:38-53 | a missing context or user fails with the context message, a user without id fails with the authentication message, otherwise the data gets `user` = the requester's id replacing any value it had, every other field unchanged |
| `Serializers.HostPartBeforeColon` | backend_server/media_handler/serializers.py:89-104 | the host part is the host up to its first colon, colon-free, or the whole host without a colon |
| `Serializers.ForwardedHostFirst` | backend_server/media_handler/serializers.py:83-105 | a non-empty forwarded host wins over the request's host; without one the request's host is used |
| `Serializers.GetFileNone` | backend_server/media_handler/serializers.py:72-109 | no URL exactly for a record without a file or a stored name without `/` |
| `Serializers.GetFileUrl` | backend_server/media_handler/serializers.py:72-108 | the URL is `http://` + host + `:3000/media/` + the stored name, split at its first `/` into type and file name |
| `Views.MediaQueryset` | backend_server/media_handler/views.py:57-63 | a record is listed exactly when it is the requester's, not deleted, and of the asked type when a known type is asked |
| `Views.CollectionQueryset` | backend_server/media_handler/views.py:137-139 | a collection is listed exactly when it is the requester's |
| `Views.OfKind` | backend_server/media_handler/views.py:62 | `filter(type=kind)` keeps exactly the records of that type |
| `Views.FindMedia` | backend_server/media_handler/views.py:108 | `get_object` finds the first listed record whose UUID the pk names, and nothing exactly when there is none; a pk naming no UUID finds nothing |
| `Views.FindCollection` | backend_server/media_handler/views.py:113 | `get_object_or_404` finds the first requester-owned collection whose UUID the given id names, and nothing exactly when there is none |
| `Views.FindMediaByValue` | backend_server/media_handler/views.py:108 | the record found depends only on the UUID the pk names, not on how it is written, and a pk naming none finds nothing |
| `Views.FindCollectionByValue` | backend_server/media_handler/views.py:113 | the collection found depends only on the UUID the id names, not on how it is written, and an id naming none finds nothing |
| `Uuids.ShortRejected` | backend_server/media_handler/views.py:113 | a lookup text shorter than 32 characters, such as `abc`, names no UUID |
| `Uuids.CanonicalForms` | backend_server/media_handler/models.py:64 | the canonical `8-4-4-4-12` text of a UUID, the same in braces and the bare 32 digits all name that UUID |
| `Views.UploadFailed` | backend_server/media_handler/views.py:92-97 | a failed upload is a 400 whose error is `Upload failed: ` followed by the failure's own text |
| `Views.MediaStore.GetObject` | backend_server/media_handler/views.py:108 | the scan returns the position `FindMedia` specifies |
| `Views.MediaStore.GetCollection` | backend_server/media_handler/views.py:113 | the scan returns the position `FindCollection` specifies |
| `Views.MediaStore.Save` | backend_server/media_handler/models.py:77-82 | saving writes back the record as `Saved` describes it, keeps ids distinct and leaves the collections alone |
| `Views.MediaStore.Destroy` | backend_server/media_handler/views.py:99-103 | a listed record is soft-deleted and saved in place with 204; otherwise 404 and nothing changes |
| `Views.MediaStore.AddToCollection` | backend_server/media_handler/views.py:105-116 | 404 for an unlisted record, then 400 "collection_id is required" for a missing or empty id, then 500 for an id that names no UUID, then 404 for a collection not the requester's, else the record's collection is set and saved with the fixed message; nothing else changes |
| `Views.MediaStore.RemoveFromCollection` | backend_server/media_handler/views.py:118-124 | a listed record's collection is cleared and saved with the fixed message; otherwise 404 and nothing changes |
| `Views.MediaStore.CreateMedia` | backend_server/media_handler/views.py:65-97 | success appends the saved record with 201, and that record has no file, size or storage path; every failure is a 400 whose error begins "Upload failed: " and leaves the table unchanged |
| `Views.MediaStore.CreateCollection` | backend_server/media_handler/views.py:141-143 | a new collection is owned by the requester and appended with 201; without a requester id nothing is stored |
| `Views.UnknownTypeIgnored` | backend_server/media_handler/views.py:60-63 | a `type` value outside image, audio and video leaves the listing unfiltered by type |
| `Views.KnownTypeFilters` | backend_server/media_handler/views.py:60-63 | a known `type` value narrows the owner's listing to that type, in order |
| `Views.OfKindConcat` | backend_server/media_handler/views.py:62 | the type filter distributes over concatenation |
| `Views.OnlyOwnRecords` | backend_server/media_handler/views.py:57-59 | only the requester's non-deleted records are listed, and nothing without a requester id |
| `Views.DeletedStaysHidden` | backend_server/media_handler/views.py:99-103 | a soft-deleted record stays in the table with its id and is absent from every later listing |
| `Views.CollectionMoves` | backend_server/media_handler/views.py:113-124 | adding to a collection sets just the collection, removing clears it, the other fields stay |
| `Views.CreatedBelongsToRequester` | backend_server/media_handler/serializers.py:49-66 | an uploaded record belongs to the requester whatever `user` the data carried, and is not deleted |
| `Views.CreatedWithoutFile` | backend_server/media_handler/serializers.py:17-61 | whatever the request carried, a created record has no file, no size and no storage path, and no file URL is reported for it |
| `Views.IntendedUploadStored` | backend_server/media_handler/models.py:18-82 | a record created with the client's file part keeps it under `<type>/<id>.<ext>` with its size, and for an allowed type its URL names that path on the gateway |

## Left out

- HTTP I/O of the gateway (the aiohttp client session, reading request bodies, server startup), logging, and async execution: the upstream call and the body decoding are parameters.
- The welcome page's text: `WelcomeReply` carries only its status and origin header.
- aiohttp's automatic HEAD route added beside every GET route is not in the route table.
- The gateway's 100 MB body cap (gateway.py:243) is not modelled. A larger body makes `request.read()` (gateway.py:55, 76, 100) raise inside the `try`, so the client gets the generic 500 (gateway.py:142-144), not a 413; in the model that is one more `Raised` outcome. The backend settings' 10 MB upload caps are not part of this model either.
- JSON parsing, UTF-8 decoding and aiohttp's re-serialisation of the JSON body are the `decode` parameter and the `JsonPayload` value. JSON numbers are integers only (`JNumber(n: int)`): a fraction or an exponent cannot be represented, although the gateway would forward it.
- JWT signature checking and the decoder's own `exp` validation are the `decode` parameter of `Auth`. An `exp` outside the years 1 to 9999 (before -62135596800 or after 253402300799 seconds) makes `datetime.fromtimestamp` raise, which the model gives as the `Unhandled` outcome; the framework's 500 reply to it is outside the model. The current time is the integer `now`, so sub-second differences between `exp` and the clock are not modelled.
- Auth.Authenticate: the `email` claim is taken as text or absent; a JSON `null` email is not modelled.
- The Authorization header is given as the value Django's case-insensitive `request.headers.get` returns.
- DRF field validation (required fields, the ChoiceField on `type`, the primary-key check on `collection`), pagination, search and ordering filters, and permission checks are not modelled: the view receives the validation outcome.
- The text after "Upload failed: " is the modelled message of the error, not DRF's rendering of `ValidationError` details.
- Views.MediaStore.CreateMedia: a failed database insert is the `dbFailure` parameter; fresh UUIDs are assumed distinct from existing ids.
- Uuids.UuidValue: `int(hex, 16)` also accepts a sign, a `0x` prefix, underscores between digits and surrounding blanks; 32-character texts that rely on these are taken as malformed. A `collection_id` sent as a JSON number (read as `UUID(int=...)`) is not modelled, since the id is text.
- Gateway.PreflightAnswered: on `/api/media` and the paths under it, the preflight is reached only under registration-order resolution. From aiohttp 3.10 on, the more specific `"*"` media routes (gateway.py:182-193) take OPTIONS there, and `proxy_request` refuses it with 405. No aiohttp version is pinned.
- Routing.PreflightRoute: holds under registration-order resolution only, for the same reason as the line above.
- The storage's renaming of a file whose upload path is taken (`get_available_name`) is not modelled.
- `Media.save` updates the Python instance in place; the model writes the updated record value back into the table, so aliasing between fetched objects is not represented.
- `update`, `retrieve` and the collection serializer's nested listing are framework-generated and not modelled.
- The auth service's views and URL tables, the backend URL table and `generate_keys.py` are not part of this model.

## Findings

| source | as written | input that shows it | evidently intended | confidence | as-written member | corrected member |
|---|---|---|---|---|---|---|
| backend_server/media_handler/serializers.py:17-61 | `file` is declared as a read-only `SerializerMethodField`, so it is never among the validated data, and `Media.objects.create(**validated_data)` builds the record without the uploaded file | a multipart POST to `/api/media` with `name`, `type=image` and `file=@image.jpg`: the record is created with 201 but has no file, size or storage path, and `file` reads `null` | the uploaded file is stored with the record under `<type>/<id>.<ext>`, with its size, and `file` reports its gateway URL | not executed | `Views.CreatedWithoutFile`, `Views.MediaStore.CreateMedia` | `Views.IntendedUploadStored` |
