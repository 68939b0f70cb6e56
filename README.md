# Microservice example: gateway, user and product services, notification consumer

A Dafny model of the four PHP scripts that make up the system:

- **API gateway** (`Gateway`). It turns an `Authorization` header into a simulated role and id, then routes by prefix: `/api/users` first, then `/api/products`. It rewrites the path and builds the target URL and the forwarded headers. It answers with either a 502 or the backend's own status and output.
- **User service** (`UserService`). It dispatches on method and REQUEST_URI and authorises from the `X-User-Role` and `X-User-Id` headers. A valid POST inserts a user. When the broker connected at startup, the insert also publishes a user-created event.
- **Product service** (`ProductService`). It answers the CORS preflight and checks the database connection. Reads are open to everyone. Create, update and delete are admin only and run their checks in a fixed order.
- **Notification consumer** (`Notification`). It acknowledges every message and produces a welcome notice for each one that has an email.

Shared pieces:

- `Php` gives the PHP semantics the scripts depend on: `strpos === 0`, `str_replace`, cutting at the first `?`, `empty()` on strings, the unanchored `preg_match` with a greedy `(\d+)`, `(int)` on a digit string, and `lastInsertId()` as a decimal string.
- `Json` gives decoded bodies and PHP's `isset`, `empty` and `??` on their fields.
- `Http` gives responses, the outcome of an uncaught exception, and the admin test both backends apply to X-User-Role.
- `Ordering` gives `ORDER BY id`.
- `Messaging` gives the queue declaration and the event.
- `Pipeline` states properties that span services.

**How each script is modelled.**

- The decision chain is a pure `Decide` function returning a plan: a reply, or one write.
- `Apply` gives the plan's effect on the table, and `Serve` combines the two.
- Each service's table is also a class (`UserService.Service`, `ProductService.Store`). Its INSERT, UPDATE, DELETE and publish methods change the fields in place. Its `Handle` method is proved to produce exactly `Serve` of the old state.
- The consumer is a class whose callback appends to the acknowledged tags and the sent notices. A loop drains the arriving messages.
- Outside inputs become parameters: environment variables, superglobals, headers, curl's result (a function `Outbound -> Transfer`), database reachability and faults, and broker reachability.

**Behaviour of the code worth knowing:**

- `str_replace` replaces every occurrence of the prefix, not only the first (`Gateway.EveryOccurrenceRewritten`).
- The prefix test runs on the raw URI, query string included, and has no segment boundary (`Gateway.NoSegmentBoundary`). For these prefixes this agrees with testing the path without its query (`Gateway.MatchIgnoresQuery`).
- A query string of `"0"` is `empty()` and is not forwarded (`Gateway.ZeroQueryDropped`).
- The event's `user_id` is the string `lastInsertId()` returns, not an integer (`Messaging.UserCreated`).
- There is no separate timeout status: every curl error, a timeout included, answers 502 (`Gateway.Respond`).
- Three errors are never caught by the user service (user_service/public/index.php). `password_hash` (line 84) and the SELECTs (lines 113 and 126-127) are outside any `try`; the model covers these two, and the script dies with nothing written (`UserService.ArrayPasswordWritesNothing`, `UserService.ListingIsComplete`, `UserService.ShowAuthorised`). `basic_publish` (line 95) is inside a `try` that catches only PDOException, so a failing publish leaves the inserted row in place and sends no 201; the model does not cover this one (see "## Left out").

## Model

| member | source | states |
|---|---|---|
| Php.StripQuery | api_gateway/public/index.php:52-54 | the result is a prefix of the input without '?'; it is the whole input when there is no '?', and otherwise stops exactly at the first '?' |
| Php.StartsWith | api_gateway/public/index.php:49 | `strpos($s, $prefix) === 0`, defined as: the prefix fits in `s` and is its first characters; so a match is at least as long as the prefix, and a match of equal length is the prefix itself |
| Php.EmptyString | api_gateway/public/index.php:58 | `empty()` on a string: such a string has at most one character, and a non-blank one is the digit zero |
| Php.ReplaceAll | api_gateway/public/index.php:50 | `str_replace` with one search string: an occurrence at the front becomes the replacement, otherwise the first character is kept; "" stays "" (further properties in the lemmas below) |
| Php.IndexOf | api_gateway/public/index.php:52-53 | `strpos` of one character: the first index holding it, and none exactly when it does not occur |
| Php.LeadingDigits | product_service/public/index.php:87 | the greedy `\d+`: a digit-only prefix that is followed by a non-digit or by the end |
| Php.MatchNumber | product_service/public/index.php:87-89 | the unanchored `preg_match` on `<pattern>(\d+)`: none exactly when the pattern is never followed by a digit, otherwise the number captured at the leftmost match |
| Php.PatternThenId | user_service/public/index.php:117-118 | the pattern followed by an id's decimal digits captures exactly that id |
| Php.NatToString | user_service/public/index.php:88 | `lastInsertId()` as text: non-empty decimal digits, with a leading '0' only for 0 |
| Php.ParseNatToString | user_service/public/index.php:88-118 | `(int)` of the decimal text of an id gives back the id |
| Php.NatToStringParse | user_service/public/index.php:118 | a canonical digit string is the decimal text of its own value |
| Php.ParseDigits | user_service/public/index.php:118 | `(int)` on a digit string, defined as its decimal value; `Php.ParseNatToString` and `Php.NatToStringParse` prove it inverse to the decimal text of an id |
| Json.GetOr | user_service/public/index.php:76 | `$data[$key] ?? $default`: the field when it is set and not null, otherwise the default |
| Json.IsSet | user_service/public/index.php:71 | `isset($data[$key])` holds exactly when the body decoded, has the key, and its value is not null |
| Json.Empty | product_service/public/index.php:121 | `empty()` on a decoded value: null is empty, a string is empty exactly as `Php.EmptyString` says, and a non-empty value is set |
| Http.IsAdmin | user_service/public/index.php:62 | `($_SERVER['HTTP_X_USER_ROLE'] ?? 'guest') === 'admin'` holds exactly when the header is present and is "admin"; the same test sits at user_service/public/index.php line 107 and product_service/public/index.php lines 66 and 106 |
| Gateway.EnvOr | api_gateway/public/index.php:11-12 | `getenv() ?:` keeps a set value that PHP counts as true and otherwise falls back to the default URL |
| Gateway.LoadConfig | api_gateway/public/index.php:11-12 | both base URLs are never `empty()`; an unset variable gives the default URL and a non-empty one is used as it is |
| Gateway.Identify | api_gateway/public/index.php:22-37 | admin exactly for `Bearer admin-token` with id "100"; user exactly for `Bearer user-token` with id "101"; guest with no id for anything else or no header |
| Gateway.Resolve | api_gateway/public/index.php:49-62 | users when the URI starts with `/api/users`; products only when it starts with `/api/products` and not `/api/users`; none when it starts with neither |
| Gateway.PrefixesExclusive | api_gateway/public/index.php:49-62 | no URI starts with both prefixes |
| Gateway.Route | api_gateway/public/index.php:48-71 | no target exactly when no prefix matches; otherwise the backend, the rewritten path and the URL base + path + query suffix |
| Gateway.BackendPath | api_gateway/public/index.php:50-54 | the path given to the backend is a prefix of the rewritten URI and contains no '?' |
| Gateway.QuerySuffix | api_gateway/public/index.php:58-60 | nothing exactly when QUERY_STRING is `empty()`, otherwise '?' followed by the query string verbatim |
| Gateway.MatchIgnoresQuery | api_gateway/public/index.php:49-54 | testing a '?'-free prefix on the raw URI agrees with testing it on the URI cut at its first '?' |
| Gateway.BackendPathShape | api_gateway/public/index.php:50-54 | for a matching URI the backend path starts with `/users` (or `/products`) and contains no '?' |
| Gateway.BackendPathIgnoresQuery | api_gateway/public/index.php:50-66 | the backend path is the rewrite of the query-free part of the URI; nothing after the first '?' reaches it |
| Gateway.TargetQuery | api_gateway/public/index.php:55-60 | after the base URL the target holds a '?' exactly when QUERY_STRING is not `empty()`, and then it ends with the path, '?' and the query string verbatim |
| Gateway.UrlTail | api_gateway/public/index.php:67-70 | base + path + query suffix, read after the base, is path + '?' + query for a non-empty query and holds no '?' otherwise |
| Gateway.SinglePrefixRoute | api_gateway/public/index.php:62-66 | a prefix followed by text without 'a' or '?' routes to that backend with only the prefix rewritten |
| Gateway.EveryOccurrenceRewritten | api_gateway/public/index.php:50 | `/api/users/api/users` is forwarded as `/users/users` |
| Gateway.NoSegmentBoundary | api_gateway/public/index.php:49-50 | `/api/usersX` goes to the user service as `/usersX` |
| Gateway.ZeroQueryDropped | api_gateway/public/index.php:68-70 | with QUERY_STRING "0" the target URL is base + path, with no '?' |
| Gateway.ForwardsId | api_gateway/public/index.php:86 | `if ($simulatedUserId)`: only an id that is set and neither "" nor "0" is forwarded |
| Gateway.ForwardHeaders | api_gateway/public/index.php:81-88 | Content-Type and Accept (default application/json), X-User-Role, then X-User-Id only when the id is truthy; length 4 with an id and 3 without |
| Gateway.BuildForwardHeaders | api_gateway/public/index.php:81-88 | the list the script builds by appending to the three fixed lines is exactly `ForwardHeaders` |
| Gateway.ForwardsIdExactlyForTokens | api_gateway/public/index.php:86-88 | an X-User-Id is forwarded exactly for the two known tokens |
| Gateway.Respond | api_gateway/public/index.php:109-119 | a truthy curl error gives 502 with error and details; otherwise the backend's status and its raw output (headers included) unchanged |
| Gateway.Handle | api_gateway/public/index.php:45-119 | an unroutable URI gives 404 and nothing is sent; otherwise one request goes out with the target URL, the method and body unchanged, CURLOPT_HEADER on and exactly the `ForwardHeaders` list for the caller's token, and the response is `Respond` of curl's result |
| Messaging.UserCreated | user_service/public/index.php:93-95 | the event goes through the default exchange to `user_created_queue`, is persistent, and has exactly user_id, email and name; user_id is a digit string that parses back to the id |
| UserService.RequestPath | user_service/public/index.php:56-59 | REQUEST_URI up to, not including, its first '?'; unchanged when it has none |
| UserService.Dispatch | user_service/public/index.php:68-139 | create exactly for POST on `/users` or `/users/`; list exactly for GET on those; show for another GET path where `/users/<digits>` matches, with the captured id; everything else no endpoint |
| UserService.LooselyEqual | user_service/public/index.php:120 | PHP 8 `$userId == $requestedId`: an absent header equals exactly 0, the decimal text of n equals n, and only a digit string can equal anything |
| UserService.MayView | user_service/public/index.php:120 | an admin may view every id and a caller claiming the id's decimal text may view it; without role or id header only id 0 |
| UserService.LooselyEqualCanonical | user_service/public/index.php:120 | the id header "n" loosely equals n and no other integer |
| UserService.NullIdEqualsZero | user_service/public/index.php:63-120 | without an X-User-Id header a caller passes the ownership test for id 0, and for any other id only as admin |
| UserService.ValidateNewUser | user_service/public/index.php:71-82 | accepted exactly when name, email and password are set and the caller is admin or asks for no role or "user"; 400 for a missing field, else 403; without a role field the role is "user", for an admin too, and a non-admin always gets "user" |
| UserService.Listing | user_service/public/index.php:113-114 | the rows of the users table: each row is a user's under its own id, ids strictly ascend (the SQL has no ORDER BY; see "## Left out"), and on a well-formed table every user has a row |
| UserService.Created | user_service/public/index.php:99-100 | the 201 body has exactly id, name, email and role; the id is the digit string `lastInsertId()` returns and parses back to the new id |
| UserService.Publication | user_service/public/index.php:92-97 | one message exactly when the broker connected, none otherwise; it goes to the shared queue with the new user's email, name and an id that parses back to the new id |
| UserService.Decide | user_service/public/index.php:41-139 | without the database 500 before anything else; an INSERT is planned exactly for a create whose validation passes, whose password is not an array and whose INSERT does not raise, and it inserts the validated user |
| UserService.Apply | user_service/public/index.php:86-100 | a reply writes nothing; an INSERT answers 201, puts the user under the counter, moves the counter on and only appends to the queue; well-formedness is kept |
| UserService.Serve | user_service/public/index.php:41-139 | without the database 500 and no change; any change of state comes with a 201 to a create that passed validation |
| UserService.ServeKeepsInvariant | user_service/public/index.php:86-100 | every request keeps ids below the counter, never changes or removes a user, and only appends to the queue |
| UserService.MissingFieldsRejected | user_service/public/index.php:71-75 | a create without name, email or password answers 400 and changes nothing |
| UserService.CustomRoleNeedsAdmin | user_service/public/index.php:76-82 | a non-admin asking for a role other than "user" gets 403 and nothing is written; an admin's user gets the role asked for |
| UserService.CreateInserts | user_service/public/index.php:86-100 | a valid create adds exactly one user under the next id, answers 201 with that id, and appends the `{user_id,email,name}` event exactly when the broker is up |
| UserService.BrokerDoesNotChangeResponse | user_service/public/index.php:92-100 | broker availability changes neither the response nor the table, and without the broker nothing is published |
| UserService.InsertFaultPublishesNothing | user_service/public/index.php:85-105 | an INSERT that raises answers 500 with error and details and leaves table and queue as they were |
| UserService.ListingIsComplete | user_service/public/index.php:106-114 | a non-admin listing gets 403; for an admin a raising SELECT kills the script with nothing written, and otherwise the answer is 200 with every user exactly once |
| UserService.ShowAuthorised | user_service/public/index.php:117-134 | 403 unless admin or the claimed id loosely equals the requested one; then the uncaught-error answer when the SELECT raises, else 200 with the row or 404; never a write |
| UserService.ItemPathDispatch | user_service/public/index.php:117-118 | GET `/users/<id>` reaches the single-user endpoint with that id |
| UserService.CreatedUserVisibleToItself | user_service/public/index.php:86-131 | after a create, GET `/users/<id>` with X-User-Id `<id>` returns the new row |
| UserService.ArrayPasswordWritesNothing | user_service/public/index.php:84 | a validated create whose password decodes to an array dies in `password_hash` before the INSERT: nothing is written or published |
| UserService.UnknownEndpoint | user_service/public/index.php:136-139 | any other method or path answers 404 `Endpoint not found` |
| UserService.Service.Insert | user_service/public/index.php:86-88 | the row goes under the old counter value, a fresh id, and the counter moves on |
| UserService.Service.Publish | user_service/public/index.php:92-96 | the message is appended to the queue, nothing else changes, and the table stays well formed |
| UserService.Service.Handle | user_service/public/index.php:41-139 | the response and the new table and queue are exactly those of `Serve`, and the table stays well formed |
| ProductService.Dispatch | product_service/public/index.php:79-231 | list and create exactly for GET and POST on `/products`; show, update and delete for GET, PUT and DELETE where `/products/<digits>` matches, with the captured id |
| ProductService.HasRequiredFields | product_service/public/index.php:121 | passing the fields test means a decoded body with name, price and stock_quantity all set |
| ProductService.ProductFrom | product_service/public/index.php:130-135 | the description is the field or null (`?? null`); for a body passing the fields test name, price and stock are not null |
| ProductService.PathOf | product_service/public/index.php:63 | PATH_INFO when present; without it the path is "/", which reaches no endpoint |
| ProductService.Listing | product_service/public/index.php:81-84 | the rows of the products table: each row is a product's under its own id, ids strictly descend (`ORDER BY id DESC`), and on a well-formed table every product has a row |
| ProductService.CreatedResponse | product_service/public/index.php:138-144 | 201 with exactly message, id, name and price: the new id and the name are echoed, the description and stock quantity are not |
| ProductService.UpdatedResponse | product_service/public/index.php:192-201 | 200 whether or not a row changed, with exactly message and id; the message is the success text exactly when `rowCount()` was positive |
| ProductService.DeletedResponse | product_service/public/index.php:217-225 | 200 with the success message exactly when a row was deleted, otherwise 404 `Product not found or already deleted.` |
| ProductService.Decide | product_service/public/index.php:33-231 | OPTIONS gives 204 first, then a lost connection 503; a write is planned only for an admin on a connected, non-failing database; an INSERT only for a create with the required fields, a replacement only for an update of an existing row with them, a removal only for a delete, each of the row the path names |
| ProductService.Apply | product_service/public/index.php:128-225 | a reply changes nothing; a write keeps the table well formed and never lowers the counter; an INSERT uses a fresh id; a DELETE removes that row and answers 200 exactly when it existed |
| ProductService.Serve | product_service/public/index.php:33-241 | the table changes only for an admin on a connected database whose query does not fail |
| ProductService.OptionsShortCircuit | product_service/public/index.php:34-37 | OPTIONS answers 204 with no body whatever the database state, and changes nothing |
| ProductService.UnavailableBeforeRouting | product_service/public/index.php:53-60 | without a connection every non-OPTIONS request answers 503 before routing or role checks |
| ProductService.NonAdminNeverWrites | product_service/public/index.php:104-211 | a non-admin never changes the table, and its create, update and delete requests answer 403 |
| ProductService.ReadsNeverWrite | product_service/public/index.php:79-102 | GET requests never change the table |
| ProductService.ServeFrame | product_service/public/index.php:128-225 | every request keeps the table well formed and leaves every row other than the one it names as it was |
| ProductService.CreateAddsOneRow | product_service/public/index.php:128-144 | a valid admin create adds exactly one row under a fresh id and answers 201 with message, id, name and price |
| ProductService.CreateRejected | product_service/public/index.php:113-126 | invalid JSON answers 400 `Invalid JSON payload`; an empty name or a missing price or stock_quantity answers 400; no write |
| ProductService.UpdateCheckOrder | product_service/public/index.php:149-201 | update checks run in the order JSON (400), existence (404), fields (400); a successful update replaces only that row and answers 200 either way, saying whether a column changed |
| ProductService.DeleteTwice | product_service/public/index.php:214-225 | deleting an existing id answers 200 and removes only it; deleting it again answers 404 and changes nothing |
| ProductService.ListingDescending | product_service/public/index.php:79-85 | the listing answers 200 with every row exactly once, ids strictly descending |
| Ordering.OrderBy | product_service/public/index.php:81 | `ORDER BY id`: exactly the keys in 1..n, strictly ascending or strictly descending |
| ProductService.ShowRow | product_service/public/index.php:87-102 | GET on one id answers 200 with the row, or 404 `Product not found` |
| ProductService.UnknownEndpoint | product_service/public/index.php:227-231 | past the preflight and the connection check, any other method or path answers 404 `Endpoint not found.` and changes nothing, whatever the role and the body |
| ProductService.ItemPathDispatch | product_service/public/index.php:87-204 | `/products/<id>` reaches show, update or delete with that id for GET, PUT or DELETE |
| ProductService.CreatedRowVisible | product_service/public/index.php:87-144 | a row an admin creates is what a later GET on `/products/<id>` returns to any caller |
| ProductService.Store.Insert | product_service/public/index.php:128-136 | the row goes under a fresh id, the old counter value, and the counter moves on |
| ProductService.Store.Update | product_service/public/index.php:182-192 | the row is replaced when it exists; `rowCount() > 0` exactly when it existed and a column changed |
| ProductService.Store.Delete | product_service/public/index.php:214-217 | the row is removed; `rowCount() > 0` exactly when it existed |
| ProductService.Store.Handle | product_service/public/index.php:33-241 | the response and the new table are exactly those of `Serve`, and the table stays well formed |
| Notification.WellFormedIffEmail | notification_service/src/consumer.php:32 | `$data && isset($data['email'])` holds exactly when the email is set |
| Notification.WellFormed | notification_service/src/consumer.php:32 | a well-formed message decoded and holds a non-null email |
| Notification.Decide | notification_service/src/consumer.php:31-37 | a notice exactly for a well-formed body, to its non-null email, greeting `name` when set and `user_id` otherwise |
| Notification.Tags | notification_service/src/consumer.php:38 | one acknowledged tag per message, in delivery order |
| Notification.Notices | notification_service/src/consumer.php:32-34 | at most one notice per message, and every notice has an address |
| Notification.NoticesCount | notification_service/src/consumer.php:42-46 | the number of notices equals the number of well-formed messages |
| Notification.NoticesFromMessages | notification_service/src/consumer.php:32-34 | every notice comes from a delivered message that decides to it |
| Notification.Consumer.OnMessage | notification_service/src/consumer.php:29-39 | the message is acknowledged whatever its body, and a notice is added exactly for a well-formed one |
| Notification.Consumer.Drain | notification_service/src/consumer.php:44-46 | after the loop every message is acknowledged once, in order, and the notices are those of the well-formed messages |
| Notification.Consumer.Run | notification_service/src/consumer.php:20-55 | the durable queue is declared on connection; a connection failure or loss exits with 1 after 5 seconds; a normal end exits with 0 |
| Pipeline.QueueDeclarationsAgree | notification_service/src/consumer.php:24-25 | both sides declare `user_created_queue` with the same durable, non-exclusive, non-auto-delete arguments, and the event is routed to it persistently |
| Pipeline.PublishedUserIsGreeted | user_service/public/index.php:93-95 | the event of a successful create makes the consumer greet the new user by name at the sign-up email |
| Pipeline.ServeKeepsQueueNotifiable | user_service/public/index.php:92-97 | no request ever queues a message the consumer would only warn about |
| Pipeline.Received | api_gateway/public/index.php:96 | the value a backend reads for a header is that of a line `Name: value` sent, and there is none exactly when no line carries that name |
| Pipeline.ForwardedIdentity | api_gateway/public/index.php:81-88 | whatever Content-Type and Accept the client sends, the backend reads the role derived from the token, and an id exactly when the gateway forwards one |
| Pipeline.OnlyAdminTokenWritesProducts | api_gateway/public/index.php:84 | with the role the gateway forwards, only the admin token can change the products table |
| Pipeline.ViewRightsThroughGateway | api_gateway/public/index.php:84-88 | with the forwarded headers the admin token may view every user, the user token exactly user 101, and anyone else only user 0 |
| Pipeline.ItemPathThroughGateway | api_gateway/public/index.php:62-67 | `/api/<collection>/<id>` goes to that backend as `/<collection>/<id>` |
| Pipeline.ProductFetchThroughGateway | product_service/public/index.php:87-89 | `GET /api/products/<id>` through the gateway fetches row `<id>` |
| Pipeline.UserFetchThroughGateway | user_service/public/index.php:117-118 | `GET /api/users/<id>` through the gateway asks for user `<id>` |

## Left out

- JSON encoding and decoding are library calls. Bodies and messages are carried in decoded form, and `json_encode` and `json_decode` are taken to be inverse.
- Monolog logging, the CORS and Content-Type `header()` calls, `getallheaders`, `getenv`, `$_SERVER` and Dotenv are left out. Their values are parameters.
- The curl transfer is the function `transport` passed to `Gateway.Handle`. Timeouts, DNS and connection refusals are only seen as its error string.
- The web server's mapping of the target URL onto the backend's REQUEST_URI and PATH_INFO is left out, because it depends on how the services are deployed. The cross-service lemmas hand the gateway's rewritten path straight to the backend dispatchers. With the default `http://user_service_app/index.php`, a server that passes the whole URL path on would give the user service REQUEST_URI `/index.php/users`: `$path === '/users'` then fails, and POST and GET `/api/users` would answer 404 `Endpoint not found`, while GET `/api/users/<id>` still matches because its pattern is not anchored.
- `password_hash` is opaque cryptography, and the password is not stored. Only its TypeError on an array password is modelled.
- UserService.Decide: PHP's answer to an uncaught TypeError or PDOException depends on its `display_errors` setting; the model answers `Http.UncaughtError`, a 500 with no JSON body. A name or email that decodes to an array is bound by PDO as sent; what the driver makes of it is not modelled.
- The `created_at` column is not modelled.
- ProductService.ProductFrom: price and stock_quantity are stored and echoed as sent. The `(float)` and `(int)` casts are not applied because floating point is out of scope. For the same reason, whether an UPDATE "changed" a column is decided on the values as sent.
- UserService.LooselyEqual: an X-User-Id with whitespace, a sign, a decimal point or an exponent is treated as never equal. PHP 8 would compare such numeric strings by value.
- UserService.Listing: `SELECT ... FROM users` has no ORDER BY, so the database's order is unspecified. The model lists users by ascending id.
- ProductService.Decide: a PDOException is modelled as one flag meaning "the first query of the request raises". An UPDATE that fails after its existence check has passed is not a separate case. It also answers 500 with nothing written.
- The product service's `catch (\Throwable)` (500 `An unexpected error occurred.`) is left out, because nothing on the modelled paths raises a non-PDO error.
- An exception thrown by `basic_publish` is not caught by the user service: the inserted row stays and no 201 is sent. The model treats publishing as infallible once the broker connected, so `UserService.Serve` always answers 201 after an INSERT.
- The user service connects to the broker and declares the queue before connecting to the database. This ordering, and a failure of the declaration itself, are folded into the `brokerUp` flag.
- Concurrency between requests is left out. For example, a row deleted between the UPDATE's existence check and the UPDATE itself.
- Integer widths are not modelled: ids and digit strings are unbounded, with no `(int)` overflow.
- The `sleep(5)` and the process exit are recorded as the `Exit` value. The supervisor's restart is left out.
