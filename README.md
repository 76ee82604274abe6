# LocationAPI core in Dafny

This project models the core of LocationAPI, an Express and MySQL REST backend for places, coordinates, report types, favorites and the links between users and places. The backend also keeps users, roles, permissions and endpoints for its own access control. The model covers:

- **Token service and auth middleware** (`auth_service.dfy`, `jwt.dfy`, `auth_middleware.dfy`):
  - typed access and refresh tokens, and their verification against an expected type;
  - the route-template permission decision over a role's (action, endpoint) rows;
  - the middlewares that read the bearer token, set `req.auth`, and answer 401 or 403, pass the request on, or leave it pending.
- **Error classification** (`errors.dfy`): `errorHandler`'s mapping from an error code to an HTTP status and message, and the `error403`, `error404` and `error422` helpers.
- **Query builders** (`sql.dfy` and one `*_repository.dfy` per repository):
  - every builder yields a small SQL syntax tree instead of text;
  - `sql.dfy` gives that tree a meaning over rows at a query time `now`: which rows a SELECT admits, and which rows an UPDATE or DELETE reaches and how it changes them;
  - a well-formedness predicate stands for "the text MySQL would accept";
  - lemmas state what each list, count, insert, modify and delete query means: the visibility window, which filters are present, pagination, and the `deleted IS NULL` guard that keeps a write from resurrecting or double-deleting a row.
- **Model post-processing** (`model_kit.dfy` and one `*_model.dfy` per model):
  - what each model makes of the driver's answer: stripped rows, `results[0].count`, the re-read result set, the 404 on a deleted re-read row, and the deletion timestamp;
  - the driver is a parameter `db: Executor` from a script and its named parameters to a result;
  - the clock and the uuid generator are parameters too.
- **Controllers** (`http.dfy`, `controller_kit.dfy` and one `*_controller.dfy` per controller):
  - the request exchange and the connection pool are classes whose state the handlers change;
  - each handler is a method proved against one of three outcome functions (`ListOutcome`, `LookupOutcome` or `WriteOutcome`), and leaves the pool balanced;
  - there are two exceptions. `PutUserHasPlacesController` always throws from its model call, so its outcome is `Thrown` and one connection stays open. `GetFavoritesController` does the same when `uuidList` cannot be split;
  - no handler changes `req.auth`.
- **String validators** (`custom_validators.dfy`): `isUUID`, the `validators` item predicates, `arrayOf` and `varChar`.
- **Upload rules** (`upload.dfy`):
  - the file filter;
  - the stored file name: random hexadecimal text plus the original extension;
  - the destination directory, with POSIX `path.normalize` and `path.join` written out;
  - the 10 MiB limit.

`js.dfy` models the JavaScript values and built-ins the source relies on:
- truthiness, `||`, property access and object spread;
- `parseInt`, `trim`, `split`/`join`, `toLowerCase`, `lastIndexOf` and `replace`.

Several source defects are modelled as written, and lemmas state their consequences:
- `placesModel.js` throws `error404` without importing it;
- several count queries never select a `count`;
- the favorites list query misses a comma;
- the users-has-places insert is malformed and its modify builder reads undeclared names;
- `authorizePermission` does not return its inner promise chain;
- `refreshAuthenticate` checks a refresh token against the type `'access'`;
- several handlers pass a key or a column name the query does not read.

The project follows the code wherever the code and the intended design differ.

## Model

| member | source | states |
|---|---|---|
| Errors.ErrorHandler | src/utils/errors.js:1-38 | the answer is `Classify`: the status and default text the `switch` on `err.code` selects, the caller's message when one is given, and the original error attached only in development and test; the status is always one of 400, 403, 404, 409, 422, 500 |
| Errors.ClassifyTable | src/utils/errors.js:5-30 | `ER_DUP_ENTRY`, `BAD_REQUEST`, `FORBIDDEN`, `NOT_FOUND`, `UNPROCESSABLE_ENTITY` give 409, 400, 403, 404, 422; any other code, or none, gives 500 `Server Error` |
| Errors.MessageKeepsStatus | src/utils/errors.js:7-27 | a non-empty message replaces the default text, an empty one falls back to it, and the status never depends on the message |
| Errors.DetailsOnlyInDevelopment | src/utils/errors.js:34-36 | the original error is in the answer exactly when the environment is `development` or `test` |
| Errors.HelpersClassifyToOwnStatus | src/utils/errors.js:40-59 | `error403`, `error404` and `error422` carry the status their own code classifies to, with the default texts |
| Jwt.Sign | src/services/authService.js:42 | a signed token keeps the contents and the secret, is stamped with the issue time, and expires exactly `expiresIn` seconds later when an expiry is given |
| Jwt.VerifySigned | src/services/authService.js:19-21 | a token verifies with the secret that signed it until its expiry, fails with the expiry error from then on, and fails with `invalid signature` under any other secret |
| Jwt.PayloadKeepsClaims | src/services/authService.js:27 | every signed claim other than `iat` and `exp` comes back unchanged in the decoded payload |
| AuthService.GetDataFromTokenOutcomes | src/services/authService.js:16-31 | the verifier's error is passed on unchanged, a token of another type is rejected with the 403 `Forbidden` answer of `errorHandler(error403())`, and otherwise the decoded payload is returned; the expected type defaults to `access` |
| AuthService.ExpiresIn | src/services/authService.js:41-42 | an expiry is attached exactly when the setting parses to a nonzero integer, and it is that integer |
| AuthService.GeneratedTokenContents | src/services/authService.js:38-57 | both tokens carry every payload field, `type` is forced to `access` or `refresh`, each is signed with the secret, and each expires exactly when its own setting gives a nonzero number |
| AuthService.GenerateTokensRoundTrip | src/services/authService.js:16-57 | before expiry the access token verifies as `access` and is refused as `refresh`, and the refresh token the other way round; the payload fields come back |
| AuthService.ExpiredAccessTokenRejected | src/services/authService.js:19-21 | once an expiring access token's time is up, verification fails with the expiry error at `issued + JWT_TIME` |
| AuthService.SomeGrantsCharacterised | src/services/authService.js:70-74 | the `.some` scan grants iff a row has both the action and the endpoint id, is false when no row has the action, and throws only when no endpoint was found and some row has the action |
| AuthService.CheckPermissionDecision | src/services/authService.js:67-92 | with an endpoint found, permission is granted iff some row has the action and the first endpoint row's id; with no row for the action it is denied whatever the lookup found; with no endpoint and a matching action it fails |
| AuthMiddleware.ObtainToken | src/middlewares/auth.js:8-17 | no header gives no token; a token is non-empty and no longer than the header; a header without `Bearer ` is taken whole |
| AuthMiddleware.BearerTokenStripped | src/middlewares/auth.js:10-11 | `Bearer <t>` yields `<t>`, and `Bearer ` alone yields no token |
| AuthMiddleware.RejectionValue | src/middlewares/auth.js:33-35 | a verifier error is sent as an object with `name` and `message`; a wrong-type rejection is sent as the `errorHandler` answer itself |
| AuthMiddleware.AuthenticateOutcome | src/middlewares/auth.js:26-36 | no token answers 401 with the `Access token required` message; the request proceeds, with no argument, exactly when a token is present and verifies as `access`; every other case answers 401 |
| AuthMiddleware.AuthenticateToken | src/middlewares/auth.js:26-36 | the handler's outcome is `AuthenticateOutcome`; on success `req.auth` is the decoded payload, otherwise `req.auth` is untouched |
| AuthMiddleware.RefreshOutcome | src/middlewares/auth.js:38-48 | the body's `refreshToken` is verified as an `access` token; the request proceeds exactly when that succeeds, otherwise 401, and a missing `refreshToken` answers the `jwt must be provided` error |
| AuthMiddleware.RefreshAuthenticate | src/middlewares/auth.js:38-48 | the handler's outcome is `RefreshOutcome`; on success `req.auth` is the decoded payload, otherwise it is untouched |
| AuthMiddleware.TokenChecksAcceptOnlyAccessTokens | src/middlewares/auth.js:28-40 | a generated access token passes both `authenticateToken` and `refreshAuthenticate`, and a generated refresh token is refused by both with the 403 answer, sent as 401 |
| AuthMiddleware.RolePermissions | src/middlewares/auth.js:82-96 | a permission list exists exactly when the role query answers a non-empty array with no null or undefined item; each row is projected to its action and endpoint |
| AuthMiddleware.RolePermissionsByName | src/middlewares/auth.js:80-100 | the connection opened is closed again, and the rows are `RolePermissions` of the query for the role name |
| AuthMiddleware.Authorization | src/middlewares/auth.js:50-78 | no token answers 401; a token that fails verification answers 403 with the rejection; a decision grants by proceeding with `req.auth.user` and `req.auth.role` set; a denial answers 403; failures inside the inner chain leave the request pending; nothing else touches `req.auth` |
| AuthMiddleware.AuthorizePermission | src/middlewares/auth.js:50-100 | the handler's outcome and `req.auth` are `Authorization`, and every connection it opens is closed |
| AuthMiddleware.AuthorizationDecision | src/middlewares/auth.js:55-70 | with a token, a permission list and an endpoint found, the request proceeds iff some row has the request method and the endpoint's id, and otherwise answers 403 `Access denied` |
| AuthMiddleware.MissingPermissionsLeavePending | src/middlewares/auth.js:84-88 | a failed or empty permission query leaves the request with no answer and `req.auth` unchanged |
| AuthMiddleware.UnlistedMethodDenied | src/middlewares/auth.js:62-65 | a method no permission row names is denied with 403, whatever the endpoint lookup found |
| AuthMiddleware.LoginPayload | src/middlewares/auth.js:20-21 | the token payload holds exactly `role` and `user`, taken from `_data.role` and `_data.uuid` |
| AuthMiddleware.SetTokenOutcome | src/middlewares/auth.js:19-24 | `next` is called exactly when `result._data` is readable, with `{ user: { ...result, accessToken, refreshToken } }` keeping every field of `result`; otherwise a TypeError is thrown |
| AuthMiddleware.SetToken | src/middlewares/auth.js:19-24 | the handler's outcome is `SetTokenOutcome` and `req.auth` is untouched |
| AuthMiddleware.SetTokenCredentials | src/middlewares/auth.js:19-48 | the access token handed out authenticates, with `user` and `role` from `_data`, and the refresh token handed out is refused by `refreshAuthenticate` |
| AuthMiddleware.SetTokenUser | src/middlewares/auth.js:19-23 | the user `setToken` forwards carries the two tokens generated from `_data`, as their texts |
| ControllerKit.Failure | src/controllers/resource_types/placesController.js:31-34 | a rejection is answered with the status its code selects, and the body carries that status and the default text |
| ControllerKit.NotFoundReply | src/controllers/resource_types/placesController.js:46-50 | an empty lookup answers through the not-found helper with code 404 and `Not Found` |
| ControllerKit.Wrapped | src/controllers/resource_types/placesController.js:52-57 | the result is passed on as `{_data: {key: result}}`, `{_data: result}`, `{_data: {message, key: result}}` or dropped for `{}`, as each handler writes it |
| ControllerKit.PageInfo | src/controllers/resource_types/placesController.js:24-28 | the page block holds exactly `totalElements` (the count), `limit` (the query's or 100) and `page` (the query's, else 1 for a truthy count, else 0) |
| ControllerKit.ListOutcome | src/controllers/resource_types/placesController.js:14-38 | `next` is called exactly when both list and count succeed, with the rows under the key and the page block; otherwise the list's error, then the count's, is answered with its status |
| ControllerKit.LookupOutcome | src/controllers/resource_types/placesController.js:40-66 | an empty answer, and only that, gets the 404 reply; any other answer is passed on wrapped; a rejection is answered with its status |
| ControllerKit.WriteOutcome | src/controllers/resource_types/placesController.js:153-172 | `next` is called exactly when the model succeeds, with the wrapped result; a rejection is answered with its status |
| ControllerKit.Fail | src/controllers/resource_types/placesController.js:31-34 | the exchange is answered with `Failure` and `req.auth` is untouched |
| ControllerKit.ListFlow | src/controllers/resource_types/placesController.js:14-38 | the exchange settles as `ListOutcome` and the connection opened is closed |
| ControllerKit.LookupFlow | src/controllers/resource_types/placesController.js:40-66 | the exchange settles as `LookupOutcome` and the connection opened is closed |
| ControllerKit.WriteFlow | src/controllers/resource_types/placesController.js:153-172 | the exchange settles as `WriteOutcome` and the connection opened is closed |
| ControllerKit.FlowsSettle | src/controllers/resource_types/placesController.js:14-214 | no handler built on these flows leaves the request pending; on a rejection lookup and write answer alike |
| PlaceRepository.PlaceFiltersMean | src/repositories/resource_types/placesRepository.js:4-8 | the optional conditions hold exactly when the place matches every filter given: uuid exactly, name, description and address as substrings, and the coordinate when both latitude and longitude are given |
| PlaceRepository.PlaceMatchesGates | src/repositories/resource_types/placesRepository.js:4-8 | a place matching the filters satisfies every condition that is switched on |
| PlaceRepository.PlaceGatesMatch | src/repositories/resource_types/placesRepository.js:4-8 | a place satisfying every switched-on condition matches the filters |
| PlaceRepository.PlaceListMeaning | src/repositories/resource_types/placesRepository.js:3-38 | list and count select the same rows: places joined to their coordinate, not deleted, created by `now`, matching the filters |
| PlaceRepository.PlaceListShape | src/repositories/resource_types/placesRepository.js:3-38 | the count query is the list query without pagination and selects the eight fixed columns, none named `count`; both are well formed; each condition is present iff its filter is given |
| PlaceRepository.InsertPlaceValues | src/repositories/resource_types/placesRepository.js:40-64 | the insert is one well-formed statement with no re-read; absent description and address become null; the coordinate is looked up by position; a given creator is stored as the comparison `createdBy = :createdBy` |
| PlaceRepository.PlaceGuardMeans | src/repositories/resource_types/placesRepository.js:79-83 | the update and delete reach exactly the uuid's row that is not deleted and was created by the database clock |
| PlaceRepository.UpdatePlaceWellFormed | src/repositories/resource_types/placesRepository.js:66-85 | the SET list is well formed exactly when an address is given and the coordinate is not |
| PlaceRepository.MissingCommaShape | src/repositories/resource_types/placesRepository.js:67-70 | with the third item alone lacking a comma, four optional items are separated exactly when the third is present and the fourth absent |
| PlaceRepository.UpdatePlaceEffect | src/repositories/resource_types/placesRepository.js:66-85 | on the row a well-formed update reaches, name, description and address take their given values and every other column keeps its value |
| PlaceRepository.DeletePlaceEffect | src/repositories/resource_types/placesRepository.js:87-98 | the delete stamps `deleted` and `deletedby` on the uuid's live row, and after a non-null stamp a second delete reaches nothing |
| PlacesModel.GetPlaceListModel | src/models/resource_types/placesModel.js:12-18 | a driver error is passed on; otherwise the result exists exactly when the driver answers rows, and is those rows without id and audit columns |
| PlacesModel.CountPlaceListModel | src/models/resource_types/placesModel.js:20-26 | a driver error is passed on; a result is the `count` field of the first row the driver answered |
| PlacesModel.InsertPlaceModel | src/models/resource_types/placesModel.js:28-34 | a driver error is passed on; a result is `queryResult[1]` without id and audit columns |
| PlacesModel.ModifyPlaceModel | src/models/resource_types/placesModel.js:36-47 | a driver error is passed on; a result is `queryResult[1]` without audit columns; the throw on a deleted row classifies as 500 because `error404` is not imported |
| PlacesModel.InsertPlaceRejects | src/models/resource_types/placesModel.js:31-33 | the insert is a single statement, so `queryResult[1]` is undefined and the model rejects with a 500 whenever the statement succeeds |
| PlacesModel.ModifyPlaceRejects | src/models/resource_types/placesModel.js:37-45 | the update is a single statement too, so the modify model rejects with a 500 whenever it succeeds |
| PlacesModel.PlaceDeleteStamps | src/models/resource_types/placesModel.js:49-54 | the delete stamps the time given, or `now`, and the deleting user on the reached row; once stamped with a non-null time the row no longer passes the guard |
| PlacesController.GetPlaceListController | src/controllers/resource_types/placesController.js:14-38 | the outcome is `ListOutcome` of the list and count models on the query, under `places`; the connection is closed |
| PlacesController.GetPlaceByUuidController | src/controllers/resource_types/placesController.js:40-66 | the outcome is `LookupOutcome` of the list model on the path's uuid alone |
| PlacesController.GetPlaceByAddressController | src/controllers/resource_types/placesController.js:68-94 | the outcome is `LookupOutcome` of the list model on the path's address alone |
| PlacesController.GetPlaceByNameController | src/controllers/resource_types/placesController.js:96-122 | the outcome is `LookupOutcome` of the list model on the path's name alone |
| PlacesController.GetPlaceByLatLongController | src/controllers/resource_types/placesController.js:124-151 | the outcome is `LookupOutcome` of the list model on the path's latitude and longitude |
| PlacesController.InsertPlaceController | src/controllers/resource_types/placesController.js:153-172 | the outcome is `WriteOutcome` of the insert model on the body |
| PlacesController.ModifyPlaceController | src/controllers/resource_types/placesController.js:174-193 | the outcome is `WriteOutcome` of the modify model on the path parameters overridden by the body |
| PlacesController.DeletePlaceController | src/controllers/resource_types/placesController.js:195-214 | the outcome is `WriteOutcome` of the delete model on the path parameters overridden by the body |
| PlacesController.PlaceUuidLookupMeaning | src/controllers/resource_types/placesController.js:41-44 | the lookup by uuid selects exactly the joined, undeleted places created by `now` with that uuid |
| PlacesController.PlaceTextLookupMeaning | src/controllers/resource_types/placesController.js:68-100 | the lookups by address and by name select the places whose column contains the text given |
| PlacesController.PlaceWriteHandlersFail | src/controllers/resource_types/placesController.js:153-193 | whenever their statement succeeds, the insert and modify handlers answer 500 and never pass a place on |
| ModelKit.StripRows | src/models/resource_types/placesModel.js:17 | the map succeeds exactly on an array of objects, giving the same rows in order with the id and audit keys removed and every other field kept; anything else throws a 500 TypeError |
| ModelKit.Index | src/models/resource_types/placesModel.js:33 | indexing throws exactly on `undefined` or `null`; an array gives its item or `undefined` past its end; any other value gives `undefined` |
| ModelKit.ListRows | src/models/resource_types/placesModel.js:15-17 | a driver error passes through; a result exists exactly when the driver answers rows, and is those rows stripped |
| ModelKit.CountOf | src/models/resource_types/placesModel.js:25 | a driver error passes through; a result is the `count` of the first row; a non-empty array whose first item is an object always gives one; an empty answer throws |
| ModelKit.ResultSetRows | src/models/resource_types/placesModel.js:33 | a driver error passes through; a result exists exactly when `queryResult[at]` is rows, and is those rows stripped |
| ModelKit.FindDeleted | src/models/resource_types/placesModel.js:40 | the item found is one whose `deleted` is present and not null; none found means every item's `deleted` is null; an array of objects never throws |
| ModelKit.RefuseDeleted | src/models/resource_types/placesModel.js:40-45 | on rows, the model refuses with the not-found error exactly when some row's `deleted` is not null, and otherwise gives the stripped rows, all of them undeleted |
| ModelKit.RereadRows | src/models/resource_types/placesModel.js:36-47 | a driver error passes through; a result takes `queryResult[at]` and refuses it as `RefuseDeleted` does; any other failure is the not-found error or a 500 |
| ModelKit.DeleteParams | src/models/resource_types/placesModel.js:49-51 | the delete parameters are exactly `uuid`, `deletedBy` and `deleted`, the last being the time given or `now` |
| CoordinateRepository.CoordinateListMeaning | src/repositories/resource_types/coordinatesRepository.js:3-30 | list and count admit the same rows: the coordinates visible at `now` whose uuid, latitude and longitude equal each filter given |
| CoordinateRepository.CoordinateListShape | src/repositories/resource_types/coordinatesRepository.js:3-30 | list and count share their WHERE, only the list is paginated, the count is of distinct uuids, each filter is present exactly when its value is truthy, and both are well formed |
| CoordinateRepository.InsertCoordinateValues | src/repositories/resource_types/coordinatesRepository.js:32-50 | the insert is well formed and writes each column from the parameter of its name, `created` from `:now` |
| CoordinateRepository.UpdateCoordinateEffect | src/repositories/resource_types/coordinatesRepository.js:52-65 | the update reaches exactly the uuid's row while it is not deleted, sets latitude and longitude each when its builder argument is truthy, writes back the uuid it matched, and keeps every other column |
| CoordinateRepository.CoordinateSoftDelete | src/repositories/resource_types/coordinatesRepository.js:67-76 | the soft delete reaches exactly the uuid's undeleted row, stamps `deleted` and `deletedby`, and a stamped row is not reached again |
| CoordinatesModel.GetCoordinatesListModel | src/models/resource_types/coordinatesModel.js:13-19 | a driver error is passed on; otherwise the result exists exactly when the driver answers rows, and is those rows without id and audit columns |
| CoordinatesModel.CountCoordinatesListModel | src/models/resource_types/coordinatesModel.js:21-27 | a driver error is passed on; a result is the `count` field of the first row the driver answered |
| CoordinatesModel.InsertCoordinatesModel | src/models/resource_types/coordinatesModel.js:29-35 | a driver error is passed on; a result is `queryResult[1]` without id and audit columns |
| CoordinatesModel.ModifyCoordinatesModel | src/models/resource_types/coordinatesModel.js:37-48 | a driver error is passed on; a result is `queryResult[1]` stripped; any other failure is the 404 or a 500 |
| CoordinatesModel.InsertCoordinatesReturnsReread | src/models/resource_types/coordinatesModel.js:32-34 | when the insert and its re-read succeed, the model gives the re-read rows, stripped |
| CoordinatesModel.ModifyCoordinatesOutcome | src/models/resource_types/coordinatesModel.js:40-46 | when the update and its re-read succeed, the model answers 404 exactly when a re-read row is deleted, and the stripped rows otherwise |
| CoordinatesModel.ModifyCoordinatesPositional | src/models/resource_types/coordinatesModel.js:39 | the parameter object lands in the builder's `latitude` slot, so the update always writes `latitude` and never `longitude` |
| CoordinatesModel.CoordinateDeleteStamps | src/models/resource_types/coordinatesModel.js:50-55 | the delete stamps the time given, or `now`, on the reached row; once stamped with a non-null time the row no longer passes the guard |
| CoordinatesController.GetCoordinatesListController | src/controllers/resource_types/coordinatesController.js:14-38 | the outcome is `ListOutcome` of the list and count models on the query, under `coordinates`; the connection is closed |
| CoordinatesController.GetCoordinatesByUuidController | src/controllers/resource_types/coordinatesController.js:40-66 | the outcome is `LookupOutcome` of the list model on `uuid_coordinates` alone |
| CoordinatesController.PostCoordinatesController | src/controllers/resource_types/coordinatesController.js:68-87 | the outcome is `WriteOutcome` of the insert model on the body |
| CoordinatesController.PutCoordinatesController | src/controllers/resource_types/coordinatesController.js:89-109 | the outcome is `WriteOutcome` of the modify model on the body with the path's uuid winning |
| CoordinatesController.DeleteCoordinatesController | src/controllers/resource_types/coordinatesController.js:111-138 | the outcome is `LookupOutcome` of the delete model on the path's uuid alone |
| CoordinatesController.CoordinateLookupIgnoresUuid | src/controllers/resource_types/coordinatesController.js:41-44 | `uuid_coordinates` is no filter of the list, so the lookup admits every coordinate visible at `now` |
| CoordinatesController.CoordinatePutAddressesPath | src/controllers/resource_types/coordinatesController.js:89-93 | the put reaches only the row the path's uuid names, writes latitude from the body and keeps longitude |
| CoordinatesController.CoordinateDeleteHandler | src/controllers/resource_types/coordinatesController.js:111-121 | the delete stamps the row with `now` and no deleting user, and never answers 404 since a result packet is not an empty array |
| ReportTypeRepository.ReportTypeListMeaning | src/repositories/resource_types/reportTypesRepository.js:3-26 | list and count admit the same rows: the report types visible at `now` with the uuid given and whose name contains the name given |
| ReportTypeRepository.ReportTypeListShape | src/repositories/resource_types/reportTypesRepository.js:3-26 | the count query is the list query without pagination: it selects the four fixed columns and no `count` alias; each filter is present exactly when its value is truthy |
| ReportTypeRepository.InsertReportTypeValues | src/repositories/resource_types/reportTypesRepository.js:28-44 | the insert and its re-read are well formed; each column is written from the parameter of its name, `created` from `:now` |
| ReportTypeRepository.UpdateReportTypeEffect | src/repositories/resource_types/reportTypesRepository.js:46-57 | the update reaches exactly the uuid's undeleted row, renames it when the builder argument is truthy, writes back the uuid it matched and keeps every other column |
| ReportTypeRepository.ReportTypeSoftDelete | src/repositories/resource_types/reportTypesRepository.js:59-70 | the soft delete reaches exactly the uuid's undeleted row, stamps `deleted` and `deletedBy`, and a stamped row is not reached again |
| ReportTypesModel.GetReportTypesListModel | src/models/resource_types/reportTypesModel.js:13-19 | a driver error is passed on; otherwise the result exists exactly when the driver answers rows, and is those rows without id and audit columns |
| ReportTypesModel.CountReportTypesListModel | src/models/resource_types/reportTypesModel.js:21-27 | a driver error is passed on; a result is the `count` field of the first row the driver answered |
| ReportTypesModel.InsertReportTypesModel | src/models/resource_types/reportTypesModel.js:29-35 | a driver error is passed on; a result is `queryResult[1]` without id and audit columns |
| ReportTypesModel.ModifyReportTypesModel | src/models/resource_types/reportTypesModel.js:37-48 | a driver error is passed on; a result is `queryResult[1]` stripped; any other failure is the 404 or a 500 |
| ReportTypesModel.InsertReportTypesReturnsReread | src/models/resource_types/reportTypesModel.js:32-34 | when the insert and its re-read succeed, the model gives the re-read rows, stripped |
| ReportTypesModel.ModifyReportTypesOutcome | src/models/resource_types/reportTypesModel.js:40-46 | when the update and its re-read succeed, the model answers 404 exactly when a re-read row is deleted, and the stripped rows otherwise |
| ReportTypesModel.ModifyReportTypesPositional | src/models/resource_types/reportTypesModel.js:39 | the parameter object lands in the builder's `name` slot, so the update always writes `name`, NULL when the request has none |
| ReportTypesModel.ReportTypeDeleteStamps | src/models/resource_types/reportTypesModel.js:50-55 | the delete stamps the time given, or `now`, on the reached row; once stamped with a non-null time the row no longer passes the guard |
| ReportTypesController.GetReportTypesListController | src/controllers/resource_types/reportTypesController.js:14-38 | the outcome is `ListOutcome` of the list and count models on the query, under `report_types`; the connection is closed |
| ReportTypesController.GetReportTypesByUuidController | src/controllers/resource_types/reportTypesController.js:40-66 | the outcome is `LookupOutcome` of the list model on the path's uuid alone |
| ReportTypesController.PostReportTypesController | src/controllers/resource_types/reportTypesController.js:68-88 | the outcome is `WriteOutcome` of the insert model on the body with `created_by` |
| ReportTypesController.PutReportTypesController | src/controllers/resource_types/reportTypesController.js:90-110 | the outcome is `WriteOutcome` of the modify model on the body with the path's uuid winning |
| ReportTypesController.SoftDeleteReportTypesController | src/controllers/resource_types/reportTypesController.js:112-129 | the outcome is `WriteOutcome` of the delete model on the uuid and `deleted_by`, with an empty result |
| ReportTypesController.ReportTypeCreatorLost | src/controllers/resource_types/reportTypesController.js:70-72 | the user goes in as `created_by` but the insert binds `:createdBy`, so unless the body has `createdBy` the new row records no creator |
| ReportTypesController.ReportTypeDeleterLost | src/controllers/resource_types/reportTypesController.js:115-117 | the user goes in as `deleted_by`, which the delete does not read: the row is stamped with `now` and no deleting user |
| ReportTypesController.ReportTypePutAddressesPath | src/controllers/resource_types/reportTypesController.js:90-94 | the put renames only the row the path's uuid names, to the body's name, NULL when the body has none |
| FavoriteRepository.FavoriteFiltersMean | src/repositories/resource_types/favoritesRepository.js:4-6 | the optional filters hold exactly when the favorite has the uuid given and the place and user the given uuids name |
| FavoriteRepository.FavoriteRowMeans | src/repositories/resource_types/favoritesRepository.js:29-33 | the favorite's own conditions admit exactly the favorites created by `now` and not deleted at all, since `r.created > :now` contradicts `r.created <= :now` |
| FavoriteRepository.VisibleJoinMeans | src/repositories/resource_types/favoritesRepository.js:21-28 | a joined place or user is kept exactly when it is the one the foreign key names and is visible at `now` |
| FavoriteRepository.FavoriteListMeaning | src/repositories/resource_types/favoritesRepository.js:3-45 | list and count admit the same rows: undeleted favorites created by `now` whose place and user are visible and which match the filters |
| FavoriteRepository.FavoriteListShape | src/repositories/resource_types/favoritesRepository.js:8-18 | the list query is malformed (the comma after `place_description` is missing) while the count is well formed; both share joins and WHERE; only the list is paginated |
| FavoriteRepository.InsertFavoriteValues | src/repositories/resource_types/favoritesRepository.js:47-61 | the insert is well formed, finds the place and the user by their uuids and stamps `created` with `:now` |
| FavoriteRepository.InsertRereadMeans | src/repositories/resource_types/favoritesRepository.js:63-70 | the re-read after the insert admits exactly the favorite with the new uuid, with or without its user and place |
| FavoriteRepository.PairGuardMeans | src/repositories/resource_types/favoritesRepository.js:86-90 | the modify reaches exactly the undeleted favorite whose place and user the given uuids name |
| FavoriteRepository.IdByUuidMeans | src/repositories/resource_types/favoritesRepository.js:87-88 | a `(SELECT id FROM t WHERE uuid = :param)` lookup evaluates to the id of the row the parameter names |
| FavoriteRepository.ModifyFavoriteEffect | src/repositories/resource_types/favoritesRepository.js:74-104 | the modify is always well formed, reaches the favorite the pair names, moves it to the new place and user when given and keeps every other column |
| FavoriteRepository.ModifyRereadUnfiltered | src/repositories/resource_types/favoritesRepository.js:92-102 | without a new user or place the re-read has no condition and returns every favorite, deleted ones included |
| FavoriteRepository.SoftDeleteGuardMeans | src/repositories/resource_types/favoritesRepository.js:106-118 | the soft delete reaches the user's undeleted favorites, only the one at the place when a place uuid is given |
| FavoriteRepository.FavoriteSoftDelete | src/repositories/resource_types/favoritesRepository.js:106-119 | the soft delete is well formed, stamps `deleted` and `deletedBy` on the reached rows, and with a deletion time a second one changes nothing |
| FavoritesModel.GetFavoritesModel | src/models/resource_types/favoritesModel.js:13-20 | a driver error is passed on; otherwise the result exists exactly when the driver answers rows, and is those rows without ids and audit columns |
| FavoritesModel.CountFavoritesModel | src/models/resource_types/favoritesModel.js:22-29 | a driver error is passed on; a result is the `count` field of the first row the driver answered |
| FavoritesModel.InsertFavoritesModel | src/models/resource_types/favoritesModel.js:31-39 | a driver error is passed on; a result is `results[1]` without ids and audit columns |
| FavoritesModel.ModifyFavoritesModel | src/models/resource_types/favoritesModel.js:41-52 | a driver error is passed on; a result is `queryResult[1]` without audit columns, foreign keys kept; any other failure is the 404 or a 500 |
| FavoritesModel.FavoriteDeleteParams | src/models/resource_types/favoritesModel.js:54-56 | the parameters are the other arguments unchanged plus `deleted`, the time given or `now`, and `deletedBy` |
| FavoritesModel.InsertFavoritesReturnsReread | src/models/resource_types/favoritesModel.js:36-38 | when the insert and its re-read succeed, the model gives the re-read rows without ids and audit columns |
| FavoritesModel.ModifyFavoritesOutcome | src/models/resource_types/favoritesModel.js:44-50 | when the update and its re-read succeed, the model answers 404 exactly when a re-read row is deleted, and the rows otherwise |
| FavoritesModel.FavoriteDeleteStamps | src/models/resource_types/favoritesModel.js:54-60 | the delete stamps the time given, or `now`, and the `deletedBy` argument; a differently spelled `deletedby` leaves `deletedBy` NULL |
| FavoritesController.UuidListOf | src/controllers/resource_types/favoritesController.js:16 | a falsy `uuidList` is kept; a string is cut at commas into comma-free pieces that join back to it; any other truthy value throws a 500 TypeError |
| FavoritesController.GetFavoritesController | src/controllers/resource_types/favoritesController.js:14-38 | a failed split leaves the connection open and throws; otherwise the outcome is `ListOutcome` of the list model on query and path and the count model on the query alone |
| FavoritesController.GetFavoritesByUuidController | src/controllers/resource_types/favoritesController.js:40-65 | the outcome is `LookupOutcome` of the list model on the path's uuid alone |
| FavoritesController.PostFavoritesController | src/controllers/resource_types/favoritesController.js:67-85 | the outcome is `WriteOutcome` of the insert model on body, path and creator, the rows passed on bare |
| FavoritesController.RestoreFavoritesController | src/controllers/resource_types/favoritesController.js:87-105 | the outcome is `WriteOutcome` of the modify model on the path with `user_uuid` and `deleted: false` |
| FavoritesController.PutFavoritesController | src/controllers/resource_types/favoritesController.js:107-129 | the outcome is `LookupOutcome` of the modify model on body and path, the path winning |
| FavoritesController.SoftDeleteFavoritesController | src/controllers/resource_types/favoritesController.js:131-148 | the outcome is `WriteOutcome` of the delete model on the path, the body's `deleted` and `deletedby`, with an empty result |
| FavoritesController.RestoreNeverUndeletes | src/controllers/resource_types/favoritesController.js:87-91 | the restore only reaches a favorite that is not deleted and leaves `deleted` as it was, so it restores nothing |
| FavoritesController.FavoriteDeleterLost | src/controllers/resource_types/favoritesController.js:133-136 | the user goes in as `deletedby`, which the query does not read, so the row records no deleting user; the time is the body's or `now` |
| UsersHasPlacesRepository.LinkFiltersMean | src/repositories/resource_types/usersHasPlacesRepository.js:4-6 | the optional filters hold exactly when the link has the uuid given and the user and place the given uuids name |
| UsersHasPlacesRepository.LinkListMeaning | src/repositories/resource_types/usersHasPlacesRepository.js:3-39 | list and count admit the same rows: links joined to their user and place, visible at `now`, whose user is not deleted (the place may be), matching the filters |
| UsersHasPlacesRepository.LinkJoinsMean | src/repositories/resource_types/usersHasPlacesRepository.js:20-21 | the two inner joins hold exactly when the link's user and place ids are those of the joined user and place |
| UsersHasPlacesRepository.LinkWhereMeans | src/repositories/resource_types/usersHasPlacesRepository.js:22-30 | the WHERE list holds exactly for a link visible at `now` whose user is not deleted and which matches the filters |
| UsersHasPlacesRepository.LinkListShape | src/repositories/resource_types/usersHasPlacesRepository.js:3-39 | the count query is the list query without pagination, selecting the nine fixed columns and no `count`; each filter is present exactly when its value is truthy |
| UsersHasPlacesRepository.InsertRereadMeans | src/repositories/resource_types/usersHasPlacesRepository.js:60 | the re-read after the insert looks for the uuid `UUID()` generates, not the one written |
| UsersHasPlacesRepository.InsertLinkMalformed | src/repositories/resource_types/usersHasPlacesRepository.js:41-62 | the insert is malformed whatever is given, since no comma follows `:uuid`; the creator's value is the comparison `createdBy = :createdBy` |
| UsersHasPlacesRepository.ModifyUserHasPlacesQuery | src/repositories/resource_types/usersHasPlacesRepository.js:64-79 | every call fails with a 500, since the body reads the undeclared `uuidUser` |
| UsersHasPlacesRepository.LinkSoftDelete | src/repositories/resource_types/usersHasPlacesRepository.js:81-92 | the soft delete is well formed, reaches exactly the uuid's undeleted link, stamps it, and a stamped link is not reached again |
| UsersHasPlacesModel.GetUserHasPlacesListModel | src/models/resource_types/usersHasPlacesModel.js:8-14 | a driver error is passed on; otherwise the result exists exactly when the driver answers rows, and is those rows without ids and audit columns |
| UsersHasPlacesModel.CountUserHasPlacesListModel | src/models/resource_types/usersHasPlacesModel.js:16-22 | a driver error is passed on; a result is the `count` field of the first row the driver answered |
| UsersHasPlacesModel.LinkCountIsUndefined | src/models/resource_types/usersHasPlacesModel.js:16-22 | rows without a `count` field make the count `undefined`, and no row at all makes it reject |
| UsersHasPlacesModel.InsertUserHasPlacesModel | src/models/resource_types/usersHasPlacesModel.js:24-30 | a driver error is passed on; a result is `queryResult[2]` without id and audit columns |
| UsersHasPlacesModel.InsertUserHasPlacesRejects | src/models/resource_types/usersHasPlacesModel.js:29 | the script has two statements, so `queryResult[2]` is undefined and the model rejects whenever the script succeeds |
| UsersHasPlacesModel.ModifyUserHasPlacesModel | src/models/resource_types/usersHasPlacesModel.js:32-44 | the query builder throws before any query exists, so the call throws a 500 whatever the parameters |
| UsersHasPlacesModel.LinkDeleteStamps | src/models/resource_types/usersHasPlacesModel.js:46-51 | the delete stamps the time given, or `now`; without a `uuid` argument it reaches no row |
| UsersHasPlacesController.GetUserHasPlacesListController | src/controllers/resource_types/usersHasPlacesController.js:14-38 | the outcome is `ListOutcome` of the list and count models on the query, under `usersHasPlaces`; the connection is closed |
| UsersHasPlacesController.GetUserHasPlacesByController | src/controllers/resource_types/usersHasPlacesController.js:40-122 | each of the three lookups has the outcome `LookupOutcome` of the list model on the path's uuid under its own key |
| UsersHasPlacesController.PostUserHasPlacesController | src/controllers/resource_types/usersHasPlacesController.js:124-143 | the outcome is `WriteOutcome` of the insert model on the body |
| UsersHasPlacesController.PutUserHasPlacesController | src/controllers/resource_types/usersHasPlacesController.js:145-164 | the model throws before a handler is attached: the connection stays open and a 500 error escapes |
| UsersHasPlacesController.DeleteUserHasPlacesByController | src/controllers/resource_types/usersHasPlacesController.js:166-218 | each of the three deletes has the outcome `WriteOutcome` of the delete model on its key and `deleted_by`, with an empty result |
| UsersHasPlacesController.LinkLookupsIgnorePath | src/controllers/resource_types/usersHasPlacesController.js:41-44 | none of the three path keys is a list filter, so every lookup admits each visible link of a live user |
| UsersHasPlacesController.LinkDeletesTouchNothing | src/controllers/resource_types/usersHasPlacesController.js:166-171 | none of the three deletes passes `uuid`, so none reaches a link |
| UsersHasPlacesController.PostLinkHandlerFails | src/controllers/resource_types/usersHasPlacesController.js:124-143 | whenever the insert succeeds, the post handler answers 500 and never passes the link on |
| UsersHasPlacesController.LinkListPage | src/controllers/resource_types/usersHasPlacesController.js:21-29 | with a non-empty count answer the page block reports `undefined` elements and, without a `page` in the query, page 0 |
| RoleRepository.RoleListMeaning | src/repositories/authorization/rolesRepository.js:10-44 | list and count admit the same rows: the roles visible at `now` whose uuid and name equal those given; the builder drops its pagination, so the list is never cut |
| RoleRepository.RoleListShape | src/repositories/authorization/rolesRepository.js:10-44 | list and count share their WHERE; the list selects `*` and the count `COUNT(*)`; both are well formed; each filter is present exactly when its value is truthy |
| RoleRepository.InsertRoleValues | src/repositories/authorization/rolesRepository.js:50-66 | the insert is well formed and writes each column from the parameter of its name, `created` from `:now` |
| RoleRepository.ModifyRoleEffect | src/repositories/authorization/rolesRepository.js:72-89 | the modify reaches exactly the uuid's undeleted row, renames it when a name is given and keeps every other column |
| RoleRepository.RoleDeletes | src/repositories/authorization/rolesRepository.js:94-115 | the soft delete reaches the uuid's undeleted row and a stamped row is not reached again; the hard delete removes exactly the uuid's row |
| PermissionRepository.PermissionFiltersMean | src/repositories/authorization/permissionsRepository.js:4-6 | the optional filters, read as the permission's own columns, hold exactly when the permission has the uuid and action given and the endpoint whose route is given |
| PermissionRepository.PermissionListMeaning | src/repositories/authorization/permissionsRepository.js:3-34 | list and count admit the same rows: permissions visible at `now` whose endpoint is visible too; a permission without an endpoint is dropped despite the left join (the conditions' meaning: with a `uuid` filter MySQL refuses both statements, see the next row) |
| PermissionRepository.PermissionListShape | src/repositories/authorization/permissionsRepository.js:3-34 | list and count share their WHERE; only the list is paginated; the count is `COUNT(*)`; both are well formed; each filter is present exactly when given; every unqualified column resolves exactly when no `uuid` is given, since `uuid = :uuid` is ambiguous between permissions and endpoints |
| PermissionRepository.PermissionResolution | src/repositories/authorization/permissionsRepository.js:4-28 | list and count both name `uuid` unqualified, which is a column of both joined tables, exactly when a `uuid` filter is given |
| PermissionRepository.PermissionPlainNames | src/repositories/authorization/permissionsRepository.js:4-28 | the windows and the join condition are qualified, so the only unqualified columns are the present filters' |
| PermissionRepository.PermissionFilterNames | src/repositories/authorization/permissionsRepository.js:4-6 | the filters name `uuid`, `action` and `fk_endpoint` unqualified, each exactly when it is given |
| PermissionRepository.InsertPermissionValues | src/repositories/authorization/permissionsRepository.js:36-55 | the insert is well formed, finds the endpoint by route, and without a creator writes a literal null as `createdBy` |
| PermissionRepository.ModifyPermissionEffect | src/repositories/authorization/permissionsRepository.js:57-72 | the modify reaches exactly the uuid's undeleted row, sets the action and the endpoint found by route when given and keeps every other column |
| PermissionRepository.PermissionSoftDelete | src/repositories/authorization/permissionsRepository.js:74-86 | the soft delete stamps `deleted` with `:now` on the uuid's undeleted row; with a request time a second one changes nothing |
| EndpointRepository.EndpointListMeaning | src/repositories/authorization/endpointsRepository.js:3-28 | list and count admit the same rows: endpoints visible at `now` whose uuid, route and method equal those given |
| EndpointRepository.EndpointListShape | src/repositories/authorization/endpointsRepository.js:3-28 | list and count share their WHERE; only the list is paginated; both are well formed; each filter is present exactly when given |
| EndpointRepository.InsertEndpointValues | src/repositories/authorization/endpointsRepository.js:30-46 | the insert is well formed and writes each column from the parameter of its name, `created` from `:now` |
| EndpointRepository.UpdateEndpointEffect | src/repositories/authorization/endpointsRepository.js:48-59 | the update reaches exactly the uuid's undeleted row, sets the route when given and keeps every other column |
| EndpointRepository.EndpointDeletes | src/repositories/authorization/endpointsRepository.js:61-76 | the soft delete reaches the uuid's undeleted row and not again; the hard delete removes the uuid's row whether or not it is soft-deleted |
| UserRepository.UserFiltersMean | src/repositories/authorization/userRepository.js:13-20 | the gated clauses hold exactly when the user matches every filter given, the username as a substring and the others exactly |
| UserRepository.UserMatchesGates | src/repositories/authorization/userRepository.js:13-20 | a matching user satisfies each clause whose parameter is truthy |
| UserRepository.UserGatesMatch | src/repositories/authorization/userRepository.js:13-20 | a user satisfying each switched-on clause matches the filters |
| UserRepository.UserListMeaning | src/repositories/authorization/userRepository.js:10-57 | list and count admit the same rows: the users visible at `now` matching every filter given; a falsy filter constrains nothing |
| UserRepository.UserListShape | src/repositories/authorization/userRepository.js:10-57 | list and count share FROM, joins and WHERE; the list selects `users.*` and the role name and is paginated; the count is of distinct uuids |
| UserRepository.UserFilterPresence | src/repositories/authorization/userRepository.js:13-20 | each filter clause is in the WHERE exactly when its parameter is truthy |
| UserRepository.InsertUserValues | src/repositories/authorization/userRepository.js:63-88 | the insert is well formed; the role is found by the name given or `viewer`; an absent email or creator is a literal null; `created` is `:now` |
| UserRepository.ModifyUserGuard | src/repositories/authorization/userRepository.js:94-117 | the modify is well formed whatever is given and reaches only the uuid's undeleted row |
| UserRepository.ModifyUserEffect | src/repositories/authorization/userRepository.js:94-117 | on the row reached, each given field takes its new value, the role by name, and every other column, `deleted` included, is kept |
| UserRepository.UserDeletes | src/repositories/authorization/userRepository.js:122-143 | the soft delete stamps the uuid's undeleted row and not again; the hard delete removes the uuid's row whether or not it is soft-deleted |
| RolesController.ParsedOr | src/controllers/authorization/rolesController.js:15-16 | NaN and 0 fall back to the default, any other parsed integer, negative ones included, is kept; a repeated key is parsed from its first value |
| RolesController.RoleQueryParams | src/controllers/authorization/rolesController.js:14-23 | the query gains `limit` and `page`, parsed or defaulted to 100 and 1, and every other key is kept |
| RolesController.GetRoleController | src/controllers/authorization/rolesController.js:13-48 | the outcome is `ListOutcome` of the role models on the parsed query, the page block built from the raw query |
| RolesController.GetRoleInfoController | src/controllers/authorization/rolesController.js:50-76 | the outcome is `LookupOutcome` of the role model on the path's uuid |
| RolesController.PostRoleController | src/controllers/authorization/rolesController.js:78-97 | the outcome is `WriteOutcome` of the insert model on the body with the creator |
| RolesController.PutRoleController | src/controllers/authorization/rolesController.js:99-120 | the outcome is `WriteOutcome` with the message `Role modified` of the modify model on the body and the path's uuid |
| RolesController.DeleteRoleController | src/controllers/authorization/rolesController.js:122-139 | the outcome is `WriteOutcome` of the delete model on the uuid and the deleting user, with an empty result |
| RolesController.RolePaginationUnsanitised | src/controllers/authorization/rolesController.js:15-36 | `limit=-5` reaches the model as -5 and `limit=ten` as 100, while the page block still reports `ten` |
| CustomValidators.UuidIsDashedGroups | src/validators/expressValidator/customValidators.js:23 | a string `isUUID` accepts is exactly its five groups written with dashes, 8-4-4-4-12 hexadecimal digits long |
| CustomValidators.DashedGroupsAreUuid | src/validators/expressValidator/customValidators.js:23 | groups of the right lengths form an accepted UUID exactly when all are hexadecimal, the third starts with 1-5 and the fourth with 8, 9, a or b |
| CustomValidators.UuidIgnoresCase | src/validators/expressValidator/customValidators.js:23 | under the `i` flag a string and its lowercase form are accepted alike |
| CustomValidators.StringKinds | src/validators/expressValidator/customValidators.js:28-37 | every item predicate but `number`, `boolean` and `positive` accepts only strings; `positive` accepts only numbers above 0 |
| CustomValidators.NonEmptyMeansVisible | src/validators/expressValidator/customValidators.js:36 | `nonEmpty` holds exactly for strings with a character that is not whitespace |
| CustomValidators.EmailShape | src/validators/expressValidator/customValidators.js:33 | `local@domain.tld` with three non-empty whitespace-free parts passes `email` |
| CustomValidators.EmailUnanchored | src/validators/expressValidator/customValidators.js:33 | the pattern is unanchored: any text around a match, whitespace included, still passes |
| CustomValidators.EmailNeedsAtAndDot | src/validators/expressValidator/customValidators.js:33 | every accepted email has an `@` followed later by a `.` |
| CustomValidators.UrlAfterScheme | src/validators/expressValidator/customValidators.js:34 | after `http://` or `https://` the URL test asks only for a first character that is not a line terminator |
| CustomValidators.ArrayOfErrors | src/validators/expressValidator/customValidators.js:25 | no message exactly when the value is an array whose every item passes; a non-array gets the array message and the item message; the last message is the one given, or the default |
| CustomValidators.ArrayOfAppend | src/validators/expressValidator/customValidators.js:25 | a concatenated array passes exactly when both parts pass |
| CustomValidators.VarCharBounds | src/validators/expressValidator/customValidators.js:3 | what `varChar` accepts `nonEmpty` accepts, a larger limit accepts more, and the default limit is 255 on the trimmed length |
| Upload.UploadMiddleware | src/middlewares/upload.js:53-59 | the uploader keeps the field name and the single or multiple choice and limits files to 10 MiB |
| Upload.Extname | src/middlewares/upload.js:34 | the extension is empty or a `.` followed by text with no further `.` or `/`, and is always a suffix of the name |
| Upload.ExtnameOfDotted | src/middlewares/upload.js:34 | the extension of `stem.suffix` is `.suffix` whenever the name is not a bare dot-file |
| Upload.FileFilter | src/middlewares/upload.js:39-51 | a file is accepted exactly when its lower-cased extension contains an allowed one and its type contains an allowed type; a refusal is an error with neither code nor status, which the upload routes (src/routes/uploadRoutes.js:10-11) answer with 400 and `{ error: err.message }` |
| Upload.PngAccepted | src/middlewares/upload.js:39-51 | a name whose extension contains `png` in any letter case, with a type containing `image/png`, is accepted |
| Upload.RejectionNamesFile | src/middlewares/upload.js:49 | the refusal message starts with `File type not allowed: ` and contains the original name |
| Upload.UppercaseExtensionAccepted | src/middlewares/upload.js:40-44 | `.PNG` passes, since the extension is lower-cased before the test |
| Upload.LongerExtensionAccepted | src/middlewares/upload.js:40-44 | `.pngx` passes, since the test is a substring search, not equality |
| Upload.EmbeddedTypeAccepted | src/middlewares/upload.js:40-44 | a MIME type that merely contains `image/png` passes |
| Upload.DotFileRefused | src/middlewares/upload.js:40-44 | a file named `.png` has no extension and is refused |
| Upload.UnhexHex | src/middlewares/upload.js:33 | the hexadecimal text of the random bytes decodes back to them, so it is one-to-one |
| Upload.StoredNameShape | src/middlewares/upload.js:32-36 | a stored name is 32 lowercase hexadecimal characters followed by the original's extension, and has that extension itself |
| Upload.StoredNamesDiffer | src/middlewares/upload.js:32-36 | different random bytes give different stored names |
| Upload.NormalizeClimb | src/middlewares/upload.js:16 | a path of leading `..` segments followed by plain segments is already normal |
| Upload.StripUps | src/middlewares/upload.js:16 | stripping the leading parents of such a path leaves its plain segments |
| Upload.StripClimb | src/middlewares/upload.js:16 | a path of `..` segments only is stripped down to a single `..` |
| Upload.JoinPlainBelow | src/middlewares/upload.js:18 | joining plain segments to an absolute directory stays below it |
| Upload.JoinParent | src/middlewares/upload.js:18 | joining `..` to an absolute directory gives its parent, which is shorter |
| Upload.JoinDot | src/middlewares/upload.js:18 | joining `.` to an absolute directory gives the directory |
| Upload.Destination | src/middlewares/upload.js:13-30 | an accepted destination starts with the upload directory; a refusal other than `Invalid path.` means the body's path is truthy and not a string |
| Upload.DestinationOfPath | src/middlewares/upload.js:14-22 | a non-empty string path is normalised, stripped of leading parents and joined to the upload directory, and accepted exactly when the result starts with that directory |
| Upload.DestinationDefault | src/middlewares/upload.js:14-18 | without a body or a path the destination is the upload directory itself |
| Upload.DestinationBelowUploadDir | src/middlewares/upload.js:14-29 | a path of leading parents and plain segments lands in those segments below the upload directory |
| Upload.DestinationRefusesParent | src/middlewares/upload.js:20-22 | a path of parents only resolves above the upload directory and is refused with `Invalid path.` |
| Sql.WindowMeans | src/repositories/resource_types/placesRepository.js:22-23 | the visibility window holds exactly when the row was created no later than `now` and is not deleted, or deleted only after `now` |
| Sql.SoftDeleteOnce | src/repositories/resource_types/placesRepository.js:87-98 | a soft delete guarded by `deleted IS NULL` that stamps a non-null time reaches only undeleted rows and never the row it stamped |
| Js.ParseIntDigits | src/controllers/authorization/rolesController.js:15-16 | `parseInt` of a run of digits followed by a non-digit is the digits' value |
| Js.ParseIntOfStrings | src/controllers/authorization/rolesController.js:15-16 | `parseInt` of a repeated query key, an array of texts, is `parseInt` of the texts joined by commas, which is decided by the first text |
| Js.ParseIntStopsAtComma | src/controllers/authorization/rolesController.js:15-16 | a comma and anything after it leave `parseInt` of a text unchanged |
| Js.JoinSplit | src/controllers/resource_types/favoritesController.js:16 | the pieces `split(',')` gives join back with commas to the original string |
| Http.ResponseJson | src/controllers/resource_types/placesController.js:32-33 | the JSON an error answer carries has the message and the code, and an `error` field exactly when the handler kept details |
| Upload.StripParents | src/middlewares/upload.js:16 | the stripped path is a suffix of the normalized one and starts with neither `../` nor `..\` |
| Upload.StripRemovesParents | src/middlewares/upload.js:16 | what the strip removes is a whole number of `../` and `..\` references: its length is a multiple of three, with `.` at the first two places of each group of three and a separator at the third |

## Left out

- The cryptography of `jsonwebtoken` is left out. A token is a sealed record of claims, issue time, expiry and signing secret. Which token texts decode to which records is an input map, and the clock is a parameter in seconds.
- The MySQL adapter is left out: `mysql.start`, `mysql.end` and `execute`.
  - The pool only counts open connections.
  - The driver is a parameter. Its answer shape (rows, or one result set per statement) is a hypothesis of the lemmas that need it.
  - Actual SQL text, collation, `LIKE` escaping and type coercion are not modelled. `LIKE CONCAT('%',:x,'%')` is read as "contains", and time comparisons are on numbers, which stand for the DATETIME values MySQL compares.
- `dayjs` formatting, `crypto.randomUUID` and `crypto.randomBytes` are left out. The formatted time, the new uuid and the 16 random bytes are parameters; a time is a number.
- `utils/pagination.js`, `validators/result-validators.js` and `utils/responses.js` are not part of this model. Their roles are stood in for as follows:
  - pagination is an opaque `Page` of the raw `limit` and `page`;
  - `noResults` means "an empty array";
  - `sendResponseNotFound` and its siblings are a reply tagged with the helper used, carrying the body passed.
- `Promise.all` and asynchronous ordering are left out. The list and the count run one after the other, and a rejected promise settles the handler's outcome in the order the source's `.then`, `.catch` and `.finally` give.
- Express itself is left out: routing, the `next` chain and the handling of an exception that escapes a handler. An escaped exception is the outcome `Thrown`.
- The role, role-permission and endpoint models called by the auth middleware and the role controller are left out, because their files are not part of this model. The middleware and the controller take their results as parameters.
- The express-validator chains `integer`, `integerRange`, `uuid`, `bigInt`, `latitudeRange`, `longitudeRange` and `json` (customValidators.js lines 4-21) are library calls with nothing of the source's own to model. Only `varChar`, `isUUID`, `arrayOf` and `validators` are modelled.
- Lower-casing covers ASCII letters only. Unicode case mapping and normalisation are not modelled.
- `parseInt` is modelled for optional whitespace, an optional sign and decimal digits. Numbers are reals, and NaN, Infinity and floating-point rounding are not modelled.
- Js.ParseIntValue: a number is taken to print in plain decimal notation. A number that JavaScript prints in exponent form (`1e21` and above, or below `1e-6`) has its `parseInt` decided by that text instead, which is not modelled.
- Upload.Destination: `fs.existsSync` and `fs.mkdirSync` are left out, and so is multer's own handling of the callback. Only POSIX paths are modelled, with `/` as the only separator, so Windows paths and `path.win32` are left out.
- Upload.Extname: a file name is taken as given. Node's stripping of trailing separators before taking the extension is not modelled, because an uploaded file's original name has none.
- multer's storage engine, the field parsing and the enforcement of the file-size limit are left out. `UploadMiddleware` only records the limit it configures.
- The module-level failures of `placesModel.js` are left out. It exports `getPlaceByUuidModel`, which it never declares, and that would fail at module link time. The model describes the functions the module does declare.
- A named parameter that is missing from a statement's parameters binds NULL. The driver's own handling of `undefined` bindings is not modelled.
- Column names are compared as written, so `deletedBy` and `deletedby` are different keys of a row. MySQL compares column names without regard to case.
- The controllers read `req.auth.user` from an `auth` object that is always present. Every route that reaches a controller runs `authenticateToken` first (src/routes/index.js:110-111 and each later route), so the TypeError a request without `req.auth` would raise is not modelled.
- Module loading is not modelled. The model describes the functions as if every import resolved, but Node's native ES modules refuse relative imports without a file extension (ERR_MODULE_NOT_FOUND). Such imports appear in src/controllers/resource_types/coordinatesController.js:7-12, src/controllers/resource_types/usersHasPlacesController.js:7, src/repositories/resource_types/usersHasPlacesRepository.js:1 and src/models/resource_types/placesModel.js:7. As written, those modules would fail to load.
- Sql.Resolves: only the columns of `dbmaster.permissions` and `dbmaster.endpoints` that the repositories' own statements name are known (`PermissionColumns`), and name resolution is stated only for the permission list and count. No other joined query names an unqualified column that its joined table also has. The meaning functions (`Admits`, `Holds`) evaluate conditions without resolving names, and the executor is not made to refuse an ambiguous statement.
