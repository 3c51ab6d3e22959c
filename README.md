# Hotel App: a Dafny model of its booking and sign-in core

This project models the core of the Hotel App, which has three parts:

- **HotelServer**, a Spring Boot REST server;
- **hotel-web**, a Next.js client for customers and administrators;
- **HotelWeb**, an Angular client. Only its login form and its browser-storage service are modelled.

The server models cover these parts:

- the entities and their DTO projections;
- an in-memory repository keyed by generated ids, with insertion order standing in for `findAll`;
- the admin reservation and room services and the customer booking and room services;
- sign-up and the seeded administrator account;
- JWT generation and validity, and the logout token blacklist;
- the auth, admin-rooms and customer-room controllers, as HTTP status plus body;
- the CORS filter. It is a class that writes headers on a response object.

The client models cover these parts:

- the `fetch` wrapper in `lib/api.ts`, as the request each call sends and the way a reply is handled;
- the two React auth providers and their route guard;
- the mock login route;
- the admin reservations, rooms and "new room" pages;
- the customer and admin dashboards;
- the Angular storage service and login component.

Pure code is written as functions and lemmas. Page components, providers and services that keep state are classes. Each of their methods is one event handler or effect; its `modifies` clause names the fields it changes, and its `ensures` gives the whole new state. The server's repositories belong to a `Database` class whose `Valid()` says every reservation's user and room exist.

Inputs and collaborators become parameters. These include:

- the reply a request gets, as an `Outcome`, and the browser storage's contents;
- the clock, in milliseconds;
- the password encoder, a function;
- Spring Security's authentication verdict;
- the `UserDetails` username, a function of the user.

Behaviours of the code worth noting:

- Logging in through `lib/api.ts` and the local auth provider never writes to storage.
- Deleting a room patches the page's own list; it does not fetch the list again.
- A reservation status change is a `PATCH` to `/admin/reservation/{id}/status`.
- The client registers at `/auth/register`. The server maps sign-up to `/api/auth/signup`.
- The client's logout sends no body. The server's logout reads a `LogoutRequest` body.
- The admin dashboard calls `getAllReservations()` without a page index, so the URL ends in `/undefined`.
- A room without a `description` makes the admin rooms search throw a `TypeError`. The server's room DTO has no description.
- The user-exists message has no space after "Email".

## Model

| member | source | states |
|---|---|---|
| Entities.GetRoomDto | HotelServer/src/main/java/com/hms/HotelServer/entity/Room.java:21-31 | the DTO carries the room's id, and the room's fields read back from it give the room |
| Entities.GetReservationDto | HotelServer/src/main/java/com/hms/HotelServer/entity/Reservation.java:35-52 | the DTO carries the reservation's id and fields, and the name of its user and the name and type of its room |
| Entities.GetUserDto | HotelServer/src/main/java/com/hms/HotelServer/services/auth/AuthServiceImpl.java:53-54 | the user DTO copies the id, email, name and role |
| Entities.RoomDtoInjective | HotelServer/src/main/java/com/hms/HotelServer/entity/Room.java:21-31 | two rooms with the same id and the same DTO are the same room |
| Entities.ReservationDtoInjective | HotelServer/src/main/java/com/hms/HotelServer/entity/Reservation.java:35-52 | two reservations with the same id and the same DTO are the same reservation |
| Repositories.EmptyTable | HotelServer/src/main/java/com/hms/HotelServer/services/auth/AuthServiceImpl.java:23-39 | an empty table is well formed and has no rows |
| Repositories.Rows | HotelServer/src/main/java/com/hms/HotelServer/services/admin/reservation/ReservationServiceImp.java:29-31 | `findAll` lists each stored (id, row) pair once, in insertion order, and nothing else |
| Repositories.FindById | HotelServer/src/main/java/com/hms/HotelServer/services/admin/reservation/ReservationServiceImp.java:45-46 | `findById` returns the row stored under the id, or nothing when the id is unknown |
| Repositories.Insert | HotelServer/src/main/java/com/hms/HotelServer/services/customer/booking/BookingServiceImpl.java:46-47 | `save` of a new entity stores it under a fresh id, appends it to `findAll` and keeps every other row |
| Repositories.Update | HotelServer/src/main/java/com/hms/HotelServer/services/admin/reservation/ReservationServiceImp.java:54-59 | `save` of an existing entity replaces its row and keeps the order and every other row |
| Repositories.Database.constructor | HotelServer/src/main/java/com/hms/HotelServer/services/auth/AuthServiceImpl.java:23-39 | a fresh database is empty and consistent |
| ReservationService.ReservationPage | HotelServer/src/main/java/com/hms/HotelServer/services/admin/reservation/ReservationServiceImp.java:29-40 | fails exactly for a negative page; otherwise echoes the page number and the total pages, and its i-th entry is the linked DTO of row page*4+i |
| ReservationService.StoredRowsResolve | HotelServer/src/main/java/com/hms/HotelServer/services/admin/reservation/ReservationServiceImp.java:28-42 | every stored reservation's user and room exist in a consistent database |
| ReservationService.GetAllReservations | HotelServer/src/main/java/com/hms/HotelServer/services/admin/reservation/ReservationServiceImp.java:28-42 | fails exactly for a negative page; echoes the page number; the total pages are ceil(reservations/4) |
| ReservationService.EveryReservationListed | HotelServer/src/main/java/com/hms/HotelServer/services/admin/reservation/ReservationServiceImp.java:28-42 | the k-th stored reservation appears at place k%4 of page k/4, as its linked DTO |
| ReservationService.StatusFor | HotelServer/src/main/java/com/hms/HotelServer/services/admin/reservation/ReservationServiceImp.java:49-53 | exactly the text "Approve" approves; every other text rejects |
| ReservationService.ApprovalIsExact | HotelServer/src/main/java/com/hms/HotelServer/services/admin/reservation/ReservationServiceImp.java:49-53 | "APPROVED" and "approve" reject; only "Approve" approves |
| ReservationService.ChangeReservationStatus | HotelServer/src/main/java/com/hms/HotelServer/services/admin/reservation/ReservationServiceImp.java:44-63 | true exactly for a known id; such a reservation gets the new status and its room becomes unavailable, and nothing else changes; an unknown id changes nothing |
| BookingService.WrapLong | HotelServer/src/main/java/com/hms/HotelServer/services/customer/booking/BookingServiceImpl.java:43-44 | the result is the Java `long` congruent to the input modulo 2^64; an input already in range is kept |
| BookingService.StayPrice | HotelServer/src/main/java/com/hms/HotelServer/services/customer/booking/BookingServiceImpl.java:43-44 | nightly price times the day count as a Java `long`; `StayPriceMeaning` and `BackwardStayIsSaved` state its value |
| BookingService.StayPriceMeaning | HotelServer/src/main/java/com/hms/HotelServer/services/customer/booking/BookingServiceImpl.java:43-44 | the price is nightly price times the day count, wrapped to a `long`; when that product is in range it is the exact product |
| BookingService.NewReservation | HotelServer/src/main/java/com/hms/HotelServer/services/customer/booking/BookingServiceImpl.java:36-44 | a new reservation is PENDING, links the request's user and room, and copies the request's dates and the stay price |
| BookingService.PostReservation | HotelServer/src/main/java/com/hms/HotelServer/services/customer/booking/BookingServiceImpl.java:30-50 | true exactly when both the user and the room exist; then the new reservation is appended to the table; otherwise nothing changes |
| BookingService.BackwardStayIsSaved | HotelServer/src/main/java/com/hms/HotelServer/services/customer/booking/BookingServiceImpl.java:43-47 | a check-out before check-in is accepted and priced at zero or less |
| BookingService.OfUser | HotelServer/src/main/java/com/hms/HotelServer/services/customer/booking/BookingServiceImpl.java:55 | every entry is a stored reservation row (id and record) of the user, and every stored reservation of the user is listed |
| BookingService.GetAllReservationByUserId | HotelServer/src/main/java/com/hms/HotelServer/services/customer/booking/BookingServiceImpl.java:53-67 | fails exactly for a negative page; otherwise the i-th listed DTO is the linked DTO of the user's (4·page+i)-th stored reservation, so it belongs to the user, at most 4 are listed and the page count is ceil(own reservations/4) |
| BookingService.EveryOwnReservationListed | HotelServer/src/main/java/com/hms/HotelServer/services/customer/booking/BookingServiceImpl.java:53-67 | the user's k-th reservation appears at place k%4 of page k/4 |
| RoomService.AvailableRooms | HotelServer/src/main/java/com/hms/HotelServer/services/customer/room/RoomServiceImpl.java:21 | `findByAvailable(true)`: exactly the available rooms, in storage order |
| RoomService.GetAvailableRooms | HotelServer/src/main/java/com/hms/HotelServer/services/customer/room/RoomServiceImpl.java:19-30 | fails exactly for a negative page; echoes the page number; the total pages are ceil(available rooms/6) |
| RoomService.OnlyAvailableListed | HotelServer/src/main/java/com/hms/HotelServer/services/customer/room/RoomServiceImpl.java:19-30 | every listed room DTO is an available stored room |
| RoomService.EveryAvailableRoomListed | HotelServer/src/main/java/com/hms/HotelServer/services/customer/room/RoomServiceImpl.java:19-30 | the k-th available room appears at place k%6 of page k/6 |
| AuthService.FirstWithEmail | HotelServer/src/main/java/com/hms/HotelServer/services/auth/AuthServiceImpl.java:44 | the first entry whose email is the given one, or nothing exactly when no entry has that email |
| AuthService.FindFirstByEmail | HotelServer/src/main/java/com/hms/HotelServer/services/auth/AuthServiceImpl.java:44 | found exactly when some stored user has that email; the result is that stored user with its id |
| AuthService.CreateUser | HotelServer/src/main/java/com/hms/HotelServer/services/auth/AuthServiceImpl.java:43-55 | an email already stored refuses with "User Already Present With Email" plus the email and changes nothing; otherwise a CUSTOMER with the encoded password is appended and its DTO returned |
| AuthService.SignupTakesTheEmail | HotelServer/src/main/java/com/hms/HotelServer/services/auth/AuthServiceImpl.java:43-55 | a second sign-up with the same email is refused |
| AuthService.Seeded | HotelServer/src/main/java/com/hms/HotelServer/services/auth/AuthServiceImpl.java:23-39 | after seeding an ADMIN exists; a table that already has one is unchanged; otherwise exactly the admin account is appended |
| AuthService.SeedingIdempotent | HotelServer/src/main/java/com/hms/HotelServer/services/auth/AuthServiceImpl.java:23-39 | seeding twice is the same as seeding once |
| AuthService.SeedingKeepsUsers | HotelServer/src/main/java/com/hms/HotelServer/services/auth/AuthServiceImpl.java:23-39 | seeding keeps every stored user |
| AuthService.CreateAnAdminAccount | HotelServer/src/main/java/com/hms/HotelServer/services/auth/AuthServiceImpl.java:23-39 | the users table becomes its seeded form and the database stays consistent |
| Blacklist.TokenBlacklist.constructor | HotelServer/src/main/java/com/hms/HotelServer/util/TokenBlacklist.java:10 | the blacklist starts empty |
| Blacklist.TokenBlacklist.AddToBlackList | HotelServer/src/main/java/com/hms/HotelServer/util/TokenBlacklist.java:16-18 | the token is added and nothing else; afterwards both lookups report it; adding twice is the same as once |
| Blacklist.TokenBlacklist.LookupsAgree | HotelServer/src/main/java/com/hms/HotelServer/util/TokenBlacklist.java:12-22 | `isBlacklisted` and `isBlackListed` agree on every token |
| JwtUtil.GenerateToken | HotelServer/src/main/java/com/hms/HotelServer/util/jwtUtil.java:26-35 | the subject is the username; the issue and expiry times are the milliseconds truncated to seconds, with expiry 24 hours after its base |
| JwtUtil.IsTokenExpired | HotelServer/src/main/java/com/hms/HotelServer/util/jwtUtil.java:59-61 | the expiry, in whole seconds, is before now; `TokenLifetime` says when a generated token expires |
| JwtUtil.TokenLifetime | HotelServer/src/main/java/com/hms/HotelServer/util/jwtUtil.java:59-61 | a generated token is not expired up to 24 hours less 999 ms after its expiry base, and is expired after 24 hours |
| JwtUtil.IsTokenValid | HotelServer/src/main/java/com/hms/HotelServer/util/jwtUtil.java:37-46 | as written: parsing fails exactly for an unparseable token; a token whose subject (the username) is on the blacklist is invalid; otherwise valid exactly when the subject is the user's name and the token has not expired |
| JwtUtil.LogoutDoesNotRevoke | HotelServer/src/main/java/com/hms/HotelServer/util/jwtUtil.java:37-46 | blacklisting a token whose text differs from the subject leaves the as-written verdict unchanged |
| JwtUtil.LoggedOutTokenStillAccepted | HotelServer/src/main/java/com/hms/HotelServer/controller/auth/AuthController.java:77-83 | counterexample: a token that has been logged out is still accepted by the as-written check |
| JwtUtil.IsTokenValidByToken | HotelServer/src/main/java/com/hms/HotelServer/util/jwtUtil.java:37-46 | corrected: parsing fails exactly for an unparseable token; a blacklisted token is never valid; otherwise valid exactly when the subject is the user's name and the token has not expired |
| JwtUtil.LogoutRevokes | HotelServer/src/main/java/com/hms/HotelServer/controller/auth/AuthController.java:77-83 | after logout puts a token on the blacklist, the corrected check refuses it |
| JwtUtil.ChecksAgreeWhenNothingListed | HotelServer/src/main/java/com/hms/HotelServer/util/jwtUtil.java:37-46 | when neither the token nor its subject is blacklisted, the as-written and corrected checks agree |
| AuthController.SignupResponse | HotelServer/src/main/java/com/hms/HotelServer/controller/auth/AuthController.java:42-52 | a created user gives 200 with its DTO, an existing email gives 406 "User Already Exists!", and any other failure gives 400 "User Not Created. Please try again later" |
| AuthController.SignupUser | HotelServer/src/main/java/com/hms/HotelServer/controller/auth/AuthController.java:42-52 | the response is the sign-up response of the service's outcome, and the users table changes as `createUser` says |
| AuthController.CreateAuthenticationToken | HotelServer/src/main/java/com/hms/HotelServer/controller/auth/AuthController.java:54-75 | bad credentials become "Incorrect username or password"; an unknown email throws "User not found"; a 200 sets the token, id and role together, exactly when the username's second lookup finds a user, with that user's role |
| AuthController.LoginByEmailFillsResponse | HotelServer/src/main/java/com/hms/HotelServer/controller/auth/AuthController.java:54-75 | when the username is the email, a login fills all three fields with the first user of that email and a token for that email |
| AuthController.LogoutUser | HotelServer/src/main/java/com/hms/HotelServer/controller/auth/AuthController.java:77-83 | the token joins the blacklist and the answer is 200 "Logout Successful!" |
| RoomsController.PostRoom | HotelServer/src/main/java/com/hms/HotelServer/controller/admin/RoomsController.java:20-28 | 200 with no body when the room was created, else 400; non-admins are refused |
| RoomsController.GetAllRooms | HotelServer/src/main/java/com/hms/HotelServer/controller/admin/RoomsController.java:30-34 | 200 with the service's page for administrators; non-admins are refused |
| RoomsController.GetRoomById | HotelServer/src/main/java/com/hms/HotelServer/controller/admin/RoomsController.java:36-45 | 200 with the room, 404 with the not-found message, 500 "Something went Wrong!" for any other failure; non-admins are refused |
| RoomsController.UpdateRoom | HotelServer/src/main/java/com/hms/HotelServer/controller/admin/RoomsController.java:47-55 | 200 with no body when the update succeeded, else 404; non-admins are refused |
| RoomsController.DeleteRoom | HotelServer/src/main/java/com/hms/HotelServer/controller/admin/RoomsController.java:57-66 | 200 with no body on success, 404 with no body when the room is unknown, any other exception propagates; non-admins are refused |
| RoomsController.NonAdminRefusedEverywhere | HotelServer/src/main/java/com/hms/HotelServer/controller/admin/RoomsController.java:14 | without the ADMIN authority every endpoint answers AccessDenied |
| RoomsController.LookupMatchesCustomerController | HotelServer/src/main/java/com/hms/HotelServer/controller/admin/RoomsController.java:36-45 | for an administrator the admin lookup answers as the customer lookup does |
| RoomController.GetAvailableRooms | HotelServer/src/main/java/com/hms/HotelServer/controller/customer/RoomController.java:23-26 | 200 with the page for a page index of at least 0; a negative one propagates the exception `PageRequest.of` throws |
| RoomController.GetRoomById | HotelServer/src/main/java/com/hms/HotelServer/controller/customer/RoomController.java:27-36 | 200 exactly for a returned room, 404 with the message exactly for a not-found, 500 "Something went Wrong!" exactly for any other exception |
| CorsFilter.HttpServletResponse.constructor | HotelServer/src/main/java/com/hms/HotelServer/configs/SimpleCorsFilter.java:22-25 | the response the filter receives starts with no headers and the given status |
| CorsFilter.HttpServletResponse.SetHeader | HotelServer/src/main/java/com/hms/HotelServer/configs/SimpleCorsFilter.java:27-38 | `setHeader` sets or replaces one header and keeps the others |
| CorsFilter.FilterChain.constructor | HotelServer/src/main/java/com/hms/HotelServer/configs/SimpleCorsFilter.java:45 | the chain starts uninvoked |
| CorsFilter.FilterChain.DoFilter | HotelServer/src/main/java/com/hms/HotelServer/configs/SimpleCorsFilter.java:45 | `chain.doFilter` records one more invocation |
| CorsFilter.CorsHeaders | HotelServer/src/main/java/com/hms/HotelServer/configs/SimpleCorsFilter.java:27-38 | the five CORS headers with their fixed values; the allowed origin is the request's Origin, or * when it has none |
| CorsFilter.DoFilter | HotelServer/src/main/java/com/hms/HotelServer/configs/SimpleCorsFilter.java:22-47 | the response gains exactly the CORS headers; an OPTIONS request in any letter case gets status 200 and is not passed on; any other request is passed on once with its status unchanged |
| CorsFilter.EqualsIgnoreCase | HotelServer/src/main/java/com/hms/HotelServer/configs/SimpleCorsFilter.java:42 | `equalsIgnoreCase`: same length and, place by place, equal characters or characters equal after upper- then lower-casing |
| CorsFilter.IsPreflight | HotelServer/src/main/java/com/hms/HotelServer/configs/SimpleCorsFilter.java:42 | the method equals "OPTIONS" ignoring case; `PreflightSpellings`, `NotPreflight` and `PreflightLetters` say which methods are preflights |
| CorsFilter.PreflightSpellings | HotelServer/src/main/java/com/hms/HotelServer/configs/SimpleCorsFilter.java:42-46 | "OPTIONS", "options" and the spellings with dotless i, long s and dotted capital I are preflights |
| CorsFilter.NotPreflight | HotelServer/src/main/java/com/hms/HotelServer/configs/SimpleCorsFilter.java:42-46 | "OPTION" and "GET" are not preflights |
| CorsFilter.PreflightLetters | HotelServer/src/main/java/com/hms/HotelServer/configs/SimpleCorsFilter.java:42-46 | a preflight verb has seven characters, each a letter of OPTIONS in either case or a non-ASCII letter that case conversion folds onto one |
| Api.BaseUrl | hotel-web/lib/api.ts:2-3 | the environment's URL when set and non-empty, else the default localhost URL |
| Api.QueryPairs | hotel-web/lib/api.ts:54-56 | at most the three keys checkIn, checkOut and capacity, in that order; no filters, no pairs; capacity carries the price's decimal text |
| Api.QueryPairsSendTruthy | hotel-web/lib/api.ts:54-56 | each of the three filters is sent exactly when its value is truthy |
| Api.QueryParams.constructor | hotel-web/lib/api.ts:53 | a new `URLSearchParams` is empty |
| Api.QueryParams.Append | hotel-web/lib/api.ts:54-56 | `append` adds one pair at the end |
| Api.BuildAvailableRoomsQuery | hotel-web/lib/api.ts:53-56 | the query built by the three conditional appends holds exactly the truthy parameters |
| Api.PageText | hotel-web/lib/api.ts:93-101 | a page index prints as its decimal text, a missing one as "undefined"; see `ReservationsListingPath` |
| Api.Path | hotel-web/lib/api.ts:15-169 | the path after the base URL that each API function fetches; `UserBookingsPath`, `StatusUpdateRequest`, `ReservationsListingPath` and `RoomsListingPath` state its cases |
| Api.MethodOf | hotel-web/lib/api.ts:15-169 | the HTTP method each API function passes to `fetch`, GET when none; see `StatusUpdateRequest` and `RoomsListingPath` |
| Api.BodyOf | hotel-web/lib/api.ts:15-169 | the object each API function sends as its body; `BodilessCalls` and `RequestFor` say which calls have one |
| Api.RequestFor | hotel-web/lib/api.ts:15-169 | every call sends credentials "include", no Authorization header, a URL under the base URL, and a JSON content type exactly when it has a body |
| Api.HandleResponse | hotel-web/lib/api.ts:6-12 | an ok reply with JSON gives its data, an ok reply without JSON fails to parse, and a non-ok reply throws the body's own non-empty message, else the default message |
| Api.UserBookingsPath | hotel-web/lib/api.ts:82-90 | the bookings URL keeps the literal `{userId}` and appends the page; different pages give different URLs |
| Api.StatusUpdateRequest | hotel-web/lib/api.ts:103-114 | a status change is a PATCH to /admin/reservation/{id}/status with body {status} |
| Api.ReservationsListingPath | hotel-web/lib/api.ts:93-101 | the reservations listing GETs /admin/reservations/ plus the page, and plus "undefined" when no page is given |
| Api.RoomsListingPath | hotel-web/lib/api.ts:116-143 | listing rooms GETs /admin/rooms, the same URL that creating a room POSTs to |
| Api.BodilessCalls | hotel-web/lib/api.ts:39-45 | logout and room deletion send no body and no content type |
| RouteGuard.Decide | hotel-web/components/ui/authProvider.tsx:59-76 | the guard as a decision table over the /admin, /dashboard and /auth zones; `RedirectsFollowDecision` ties it to the effect's pushes |
| RouteGuard.ZonesDisjoint | hotel-web/components/authProvider.tsx:65-82 | no path is in two of the /admin, /dashboard and /auth zones |
| RouteGuard.Redirects | hotel-web/components/authProvider.tsx:65-82 | one run of the guard pushes at most one route, and none while loading |
| RouteGuard.RedirectsFollowDecision | hotel-web/components/ui/authProvider.tsx:59-76 | the guard pushes exactly the target of its decision table |
| RouteGuard.AdminZoneNeedsAdmin | hotel-web/components/authProvider.tsx:69-71 | on an /admin path only the administrator stays; anyone else goes to the login page |
| RouteGuard.AuthPageSendsHome | hotel-web/components/authProvider.tsx:79-81 | a signed-in user on an /auth page goes to the home of their role |
| LocalAuthProvider.StoredUser | hotel-web/components/authProvider.tsx:39-52 | a user with the stored id and role when the token, id and role keys are all filled, else none; `LoadUserFromLocalStorage` sets it |
| LocalAuthProvider.AuthProvider.constructor | hotel-web/components/authProvider.tsx:29-33 | the provider starts with no user, loading, and no navigation |
| LocalAuthProvider.AuthProvider.LoadUserFromLocalStorage | hotel-web/components/authProvider.tsx:37-59 | the user is built from the token, id and role keys when all three are filled; a storage error clears it; loading ends on every path |
| LocalAuthProvider.AuthProvider.RunGuard | hotel-web/components/authProvider.tsx:65-82 | the guard appends its redirects for the role "ADMIN" |
| LocalAuthProvider.AuthProvider.Login | hotel-web/components/authProvider.tsx:84-100 | success sets the user from the reply and goes to the role's home; failure rethrows and changes nothing |
| LocalAuthProvider.AuthProvider.Register | hotel-web/components/authProvider.tsx:102-111 | registration then login; success sets the user and goes to /dashboard; either failure rethrows and changes nothing |
| LocalAuthProvider.AuthProvider.Logout | hotel-web/components/authProvider.tsx:113-122 | success clears the user and goes to /; a failure is swallowed and changes nothing |
| SessionAuthProvider.AuthProvider.constructor | hotel-web/components/ui/authProvider.tsx:25-29 | the provider starts with no user, loading, and no navigation |
| SessionAuthProvider.AuthProvider.LoadUserFromSession | hotel-web/components/ui/authProvider.tsx:33-53 | the user of an ok session probe with a JSON body, otherwise none; loading ends |
| SessionAuthProvider.AuthProvider.RunGuard | hotel-web/components/ui/authProvider.tsx:59-76 | the guard appends its redirects for the role "admin" |
| SessionAuthProvider.AuthProvider.Login | hotel-web/components/ui/authProvider.tsx:78-100 | a network failure, a non-JSON body and a non-ok reply each throw, the last with its message or "Login failed", and keep the user; an ok reply sets its user and goes to the role's home |
| SessionAuthProvider.AuthProvider.Register | hotel-web/components/ui/authProvider.tsx:102-124 | a failure throws its message or "Registration failed" and changes nothing; success sets the user and goes to /dashboard |
| SessionAuthProvider.AuthProvider.Logout | hotel-web/components/ui/authProvider.tsx:126-138 | any response clears the user and goes to /; only a rejected fetch keeps the user |
| SessionAuthProvider.AdminSignInScenario | hotel-web/app/api/auth/login/route.ts:20-28 | signing in with the mock admin credentials leaves the admin user and exactly one navigation, to /admin |
| MockLoginRoute.Post | hotel-web/app/api/auth/login/route.ts:3-51 | the route handler: unreadable JSON is a 500, a missing field a 400, the two listed pairs a 200 with their user, anything else a 401; the three lemmas below state its table |
| MockLoginRoute.AcceptedExactlyListedPairs | hotel-web/app/api/auth/login/route.ts:20-43 | 200 exactly for the two listed email/password pairs, each with its own user; every other answer carries a message |
| MockLoginRoute.MissingFieldIsBadRequest | hotel-web/app/api/auth/login/route.ts:12-17 | a missing or empty field is a 400 "Email and password are required" |
| MockLoginRoute.StatusesOfTheTable | hotel-web/app/api/auth/login/route.ts:3-51 | every answer is 200, 400, 401 or 500, and 401 exactly for filled but unknown credentials |
| UserStorage.EncodeUser | HotelWeb/src/app/auth/services/storage/user-storage.service.ts:26-31 | `JSON.stringify({id, role})`; `UserRoundTrip` reads it back |
| UserStorage.DecodeUser | HotelWeb/src/app/auth/services/storage/user-storage.service.ts:47 | `JSON.parse` of text this service wrote, `None` for other text; `UserRoundTrip` shows it inverts `EncodeUser` |
| UserStorage.GetToken | HotelWeb/src/app/auth/services/storage/user-storage.service.ts:33-39 | the stored token, or '' when there is none or no browser; see `SignOut` and `SaveToken` |
| UserStorage.GetUser | HotelWeb/src/app/auth/services/storage/user-storage.service.ts:41-50 | no user without storage or the key; a user this service wrote; other text is kept uninterpreted, as admitted under Left out; see `NoStoredUser` and `SavedUserReadsBack` |
| UserStorage.GetUserId | HotelWeb/src/app/auth/services/storage/user-storage.service.ts:52-58 | '' without a user, else the stored id; see `SavedUserReadsBack` |
| UserStorage.GetUserRole | HotelWeb/src/app/auth/services/storage/user-storage.service.ts:60-66 | '' without a user, else the stored role; see `SavedUserReadsBack` |
| UserStorage.IsAdminLoggedIn | HotelWeb/src/app/auth/services/storage/user-storage.service.ts:68-74 | whether the stored role is ADMIN; the token test is a no-op (see `TokenDoesNotMatter` and `RolePredicates`) |
| UserStorage.IsCustomerLoggedIn | HotelWeb/src/app/auth/services/storage/user-storage.service.ts:76-82 | whether the stored role is CUSTOMER; see `TokenDoesNotMatter` and `RolePredicates` |
| UserStorage.UserRoundTrip | HotelWeb/src/app/auth/services/storage/user-storage.service.ts:26-50 | reading back the JSON a saved user was written as gives that user |
| UserStorage.UnescapeEscape | HotelWeb/src/app/auth/services/storage/user-storage.service.ts:26-50 | the string reader undoes the string writer, and leaves the text after the closing quote |
| UserStorage.RolePredicates | HotelWeb/src/app/auth/services/storage/user-storage.service.ts:68-82 | `isAdminLoggedIn` holds exactly for the role ADMIN and `isCustomerLoggedIn` exactly for CUSTOMER, never both |
| UserStorage.TokenDoesNotMatter | HotelWeb/src/app/auth/services/storage/user-storage.service.ts:68-82 | whether a token is stored does not change either role predicate |
| UserStorage.NoStoredUser | HotelWeb/src/app/auth/services/storage/user-storage.service.ts:41-66 | with no stored user, or outside a browser, there is no user and the id and role read as '' |
| UserStorage.SavedUserReadsBack | HotelWeb/src/app/auth/services/storage/user-storage.service.ts:41-66 | after saving a user in a browser, its id and role read back |
| UserStorage.UserStorageService.constructor | HotelWeb/src/app/auth/services/storage/user-storage.service.ts:12-17 | the service starts with the browser's storage, or with none outside a browser |
| UserStorage.UserStorageService.SaveToken | HotelWeb/src/app/auth/services/storage/user-storage.service.ts:19-24 | in a browser the token key is removed, then set, and reads back; outside a browser nothing happens |
| UserStorage.UserStorageService.SaveUser | HotelWeb/src/app/auth/services/storage/user-storage.service.ts:26-31 | in a browser the user key is removed, then set to the user's JSON, and its id and role read back; outside a browser nothing happens |
| UserStorage.UserStorageService.SignOut | HotelWeb/src/app/auth/services/storage/user-storage.service.ts:84-89 | both keys are removed; afterwards the token reads '' and there is no user |
| LoginComponent.IsEmailAddress | HotelWeb/src/app/auth/components/login/login.component.ts:44 | Angular's email pattern: length limits, a dot-atom local part, `@` and a domain of labels; see `EmailShape`, `EmailHasOneAt` and `MalformedAddressesAreNotEmail` |
| LoginComponent.DotAtomHasNoAt | HotelWeb/src/app/auth/components/login/login.component.ts:44 | a local part allowed by the pattern has no `@` |
| LoginComponent.DomainHasNoAt | HotelWeb/src/app/auth/components/login/login.component.ts:44 | a domain allowed by the pattern has no `@` |
| LoginComponent.NoAtInDomain | HotelWeb/src/app/auth/components/login/login.component.ts:44 | no `@` follows the start of a valid domain |
| LoginComponent.EmailShape | HotelWeb/src/app/auth/components/login/login.component.ts:44 | every dot-atom of at most 64 characters, `@` and a domain, 254 characters at most in all, is a valid address |
| LoginComponent.EmailHasOneAt | HotelWeb/src/app/auth/components/login/login.component.ts:44 | a valid address holds exactly one `@` |
| LoginComponent.MalformedAddressesAreNotEmail | HotelWeb/src/app/auth/components/login/login.component.ts:44 | "@example.com", "admin" and "a..b@c" are refused |
| LoginComponent.FormValid | HotelWeb/src/app/auth/components/login/login.component.ts:43-50 | `loginForm.valid`: both fields filled and the email valid; `SubmitForm` sends exactly valid forms |
| LoginComponent.NavigationByRole | HotelWeb/src/app/auth/components/login/login.component.ts:55-66 | after saving the reply, ADMIN goes to /admin/dashboard, CUSTOMER to /customer/rooms, any other role nowhere, and nowhere outside a browser |
| LoginComponent.LoginComponent.constructor | HotelWeb/src/app/auth/components/login/login.component.ts:34-47 | the component starts with no navigation, no message and no request |
| LoginComponent.LoginComponent.SaveAndNavigate | HotelWeb/src/app/auth/components/login/login.component.ts:54-67 | saves the user, then the token, in a browser only, and navigates by the role read back from storage |
| LoginComponent.LoginComponent.NavigateByRole | HotelWeb/src/app/auth/components/login/login.component.ts:62-66 | the admin test first, then the customer test, each read from storage, decide the one navigation |
| LoginComponent.LoginComponent.SubmitForm | HotelWeb/src/app/auth/components/login/login.component.ts:43-75 | an invalid form does nothing; a valid one is sent; a reply with an id saves the user and token and navigates by role; an error shows "Bad credentials" and stores nothing |
| AdminReservationsFilter.FilterReservationsMembers | hotel-web/app/admin/reservations/page.tsx:60-83 | a row is shown exactly when it is in the page's content and passes the status filter and the search |
| AdminReservationsFilter.FilterReservationsKeepsOrder | hotel-web/app/admin/reservations/page.tsx:60-83 | the shown rows keep the page's order |
| AdminReservationsFilter.SearchIgnoresQueryCase | hotel-web/app/admin/reservations/page.tsx:72-79 | a query passes the same rows as its lower-case form |
| AdminReservationsFilter.StatusPasses | hotel-web/app/admin/reservations/page.tsx:65-69 | the status filter's test: "all" passes every row, another value the rows of that status; used by `FilterReservationsMembers` |
| AdminReservationsFilter.SearchPasses | hotel-web/app/admin/reservations/page.tsx:72-79 | the search test: a blank query passes, else the lowercased query occurs in the lowercased room name or id; see `SearchIgnoresQueryCase` |
| AdminReservationsFilter.FilterReservations | hotel-web/app/admin/reservations/page.tsx:60-83 | the status filter, then the search when the query is not blank; `FilterReservationsMembers` and `FilterReservationsKeepsOrder` say which rows and in which order |
| AdminReservationsFilter.NoFilterShowsAll | hotel-web/app/admin/reservations/page.tsx:60-83 | status "all" with a blank search shows the whole page |
| AdminReservationsPage.ReservationsPage.constructor | hotel-web/app/admin/reservations/page.tsx:29-37 | the page mounts on page 0, loading, with no filters and nothing shown |
| AdminReservationsPage.ReservationsPage.ApplyFilters | hotel-web/app/admin/reservations/page.tsx:60-83 | the shown rows become the filtered content of the data |
| AdminReservationsPage.ReservationsPage.FetchReservations | hotel-web/app/admin/reservations/page.tsx:40-58 | requests the current page; success replaces the data, failure keeps it and shows an error; loading ends |
| AdminReservationsPage.ReservationsPage.SetSearchQuery | hotel-web/app/admin/reservations/page.tsx:72-79 | sets the query and refilters |
| AdminReservationsPage.ReservationsPage.SetStatusFilter | hotel-web/app/admin/reservations/page.tsx:65-69 | sets the status filter and refilters |
| AdminReservationsPage.StatusChangeCalls | hotel-web/app/admin/reservations/page.tsx:89-93 | the update call first, and the refetch of the current page only when the update succeeds |
| AdminReservationsPage.ReservationsPage.HandleStatusChange | hotel-web/app/admin/reservations/page.tsx:85-108 | sends the update; only on success refetches the same page and reports the new status; any failure shows an error |
| AdminReservationsPage.ReservationsPage.Refetched | hotel-web/app/admin/reservations/page.tsx:93-106 | a refetch that arrives replaces the data and reports the new status; one that fails keeps the data and shows the error |
| AdminReservationsPage.ReservationsPage.Receive | hotel-web/app/admin/reservations/page.tsx:60-83 | new data replaces the old and the shown rows follow from it and the filters; nothing else changes |
| AdminReservationsPage.ReservationsPage.HandlePreviousPage | hotel-web/app/admin/reservations/page.tsx:110-114 | moves back one page unless the data marks the first page |
| AdminReservationsPage.ReservationsPage.HandleNextPage | hotel-web/app/admin/reservations/page.tsx:116-120 | moves on one page unless the data marks the last page |
| AdminRoomsFilter.BlankQueryShowsAll | hotel-web/app/admin/rooms/page.tsx:50-51 | a query of white space only shows every room |
| AdminRoomsFilter.SearchRoomsResult | hotel-web/app/admin/rooms/page.tsx:52-60 | a search that completes shows, in order, exactly the rooms whose lowercased name or description contains the lowercased query |
| AdminRoomsFilter.SearchRoomsThrows | hotel-web/app/admin/rooms/page.tsx:55-59 | the search throws exactly when some room misses the query by name and has no description |
| AdminRoomsFilter.RoomMatchIgnoresQueryCase | hotel-web/app/admin/rooms/page.tsx:52-59 | a query decides each room as its lower-case form does |
| AdminRoomsFilter.RoomMatches | hotel-web/app/admin/rooms/page.tsx:55-59 | the search callback: a name match, else the description's verdict, else the TypeError of a missing description; see `SearchRoomsThrows` |
| AdminRoomsFilter.SearchRooms | hotel-web/app/admin/rooms/page.tsx:52-60 | `rooms.filter` with that callback, stopping at the first throw; `SearchRoomsResult` and `SearchRoomsThrows` give its outcome |
| AdminRoomsFilter.FilterRooms | hotel-web/app/admin/rooms/page.tsx:49-62 | the filtering effect: a blank query shows every room, any other runs the search; see `BlankQueryShowsAll` |
| AdminRoomsFilter.WithoutRoom | hotel-web/app/admin/rooms/page.tsx:64-81 | after a delete, the rooms without that id remain, in order |
| AdminRoomsPage.RoomsPage.constructor | hotel-web/app/admin/rooms/page.tsx:22-27 | the page starts with no rooms, loading, nothing requested |
| AdminRoomsPage.RoomsPage.ApplyFilters | hotel-web/app/admin/rooms/page.tsx:49-62 | the shown rooms become the filtered rooms; when the search throws the page crashes and the shown rooms stay as they were |
| AdminRoomsPage.RoomsPage.FetchRooms | hotel-web/app/admin/rooms/page.tsx:29-47 | one request for all rooms; success sets them, failure keeps the empty list and shows an error; loading ends; the page crashes exactly when it had crashed or the search over the new rooms throws |
| AdminRoomsPage.RoomsPage.SetSearchQuery | hotel-web/app/admin/rooms/page.tsx:49-62 | sets the query and refilters; the page crashes exactly when it had crashed or the search with the new query throws |
| AdminRoomsPage.RoomsPage.HandleDeleteRoom | hotel-web/app/admin/rooms/page.tsx:64-81 | nothing changes without confirmation, not even the shown rooms; a successful delete removes exactly the rooms with that id and refilters; a failed one shows an error and keeps them |
| NewRoomPage.Payload | hotel-web/app/admin/rooms/new/page.tsx:40-44 | the trimmed name, the parsed price and the trimmed type; `ValidationOrder` says an accepted form sends it |
| NewRoomPage.Validate | hotel-web/app/admin/rooms/new/page.tsx:29-38 | the three checks in order, the first failure winning; `ValidationOrder` states the outcome of each |
| NewRoomPage.ValidationOrder | hotel-web/app/admin/rooms/new/page.tsx:30-38 | a blank name, then a blank type, then an empty or non-positive price is refused with its message; a form is accepted exactly when none applies |
| NewRoomPage.UnparseablePriceIsAccepted | hotel-web/app/admin/rooms/new/page.tsx:36-44 | a price starting with a letter passes the check and is sent as NaN |
| NewRoomPage.NewRoom.constructor | hotel-web/app/admin/rooms/new/page.tsx:14-22 | the form starts with no toast, no request and no navigation |
| NewRoomPage.NewRoom.HandleSubmit | hotel-web/app/admin/rooms/new/page.tsx:24-68 | a refused form shows its message and sends nothing; an accepted one posts the payload, and only on success shows a toast and replaces the route with /admin/rooms |
| NewRoomPage.NewRoom.Submit | hotel-web/app/admin/rooms/new/page.tsx:24-68 | the state a submission leaves follows from the checks' outcome and the reply to the post |
| CustomerDashboard.TotalBookings | hotel-web/app/dashboard/page.tsx:92 | `totalElements`, or 0 without data |
| CustomerDashboard.ConfirmedBookings | hotel-web/app/dashboard/page.tsx:93-95 | the APPROVED rows of the page, or 0 without data; see `CountsFitThePage` |
| CustomerDashboard.PendingBookings | hotel-web/app/dashboard/page.tsx:96-98 | the PENDING rows of the page, or 0 without data; see `CountsFitThePage` |
| CustomerDashboard.TotalSpent | hotel-web/app/dashboard/page.tsx:99-103 | the page's price total, or 0 without data; see `TotalPriceAppend` |
| CustomerDashboard.IsUpcoming | hotel-web/app/dashboard/page.tsx:107-110 | approved and checking in after now; `UpcomingBooking` picks the earliest such booking |
| CustomerDashboard.CountsFitThePage | hotel-web/app/dashboard/page.tsx:92-103 | confirmed plus pending bookings never exceed the rows on the page |
| CustomerDashboard.Earliest | hotel-web/app/dashboard/page.tsx:106-113 | the first row with the earliest check-in, which a stable sort puts first |
| CustomerDashboard.UpcomingBooking | hotel-web/app/dashboard/page.tsx:106-113 | an approved booking on the page checking in after now, with the earliest such check-in; none exactly when the page has no such booking |
| CustomerDashboard.Recent | hotel-web/app/dashboard/page.tsx:285 | the first three bookings of the page (all when fewer), in order; none without data |
| CustomerDashboard.Dashboard.constructor | hotel-web/app/dashboard/page.tsx:33-37 | the dashboard starts loading, with no data |
| CustomerDashboard.Dashboard.FetchRecentBookings | hotel-web/app/dashboard/page.tsx:40-59 | with a user, requests page 0; success sets the data, failure shows an error; loading then ends; with no user nothing happens |
| CustomerDashboard.NoUserKeepsLoading | hotel-web/app/dashboard/page.tsx:56-59 | without a signed-in user the dashboard stays loading and requests nothing |
| AdminDashboard.PercentageChange | hotel-web/app/admin/dashboard/page.tsx:30-33 | 100 when there is no previous value, else the relative change in percent, in exact arithmetic |
| AdminDashboard.MockedRevenueChange | hotel-web/app/admin/dashboard/page.tsx:88-90 | with the previous revenue mocked as 0.8 of the current, the change is 25% in exact arithmetic (the page shows it rounded to one decimal), and 100 when the current is 0 |
| AdminDashboard.TotalRevenue | hotel-web/app/admin/dashboard/page.tsx:65-68 | the price total over every reservation, whatever its status; see `TotalPriceAppend` |
| AdminDashboard.ConfirmedBookings | hotel-web/app/admin/dashboard/page.tsx:69-71 | the reservations with status APPROVED; see `OccupiedAtMostConfirmed` |
| AdminDashboard.OccupiedRooms | hotel-web/app/admin/dashboard/page.tsx:72-77 | how many reservations occupy a room now; see `OccupiedAtMostConfirmed` |
| AdminDashboard.ActiveGuests | hotel-web/app/admin/dashboard/page.tsx:78-85 | the guests of the occupying reservations; see `GuestsAtLeastOccupied` |
| AdminDashboard.AnyOccupies | hotel-web/app/admin/dashboard/page.tsx:342-349 | some reservation for the room occupies it now; `OccupiedBadge` states it |
| AdminDashboard.Occupying | hotel-web/app/admin/dashboard/page.tsx:65-85 | exactly the approved reservations whose stay spans now, in order |
| AdminDashboard.OccupiedAtMostConfirmed | hotel-web/app/admin/dashboard/page.tsx:65-85 | occupied rooms never exceed confirmed bookings |
| AdminDashboard.GuestsAtLeastOccupied | hotel-web/app/admin/dashboard/page.tsx:65-85 | when every reservation has a guest, active guests are at least the occupied rooms |
| AdminDashboard.OccupiedBadge | hotel-web/app/admin/dashboard/page.tsx:342-349 | a room is badged occupied exactly when some approved reservation for it spans now |
| AdminDashboard.FirstFive | hotel-web/app/admin/dashboard/page.tsx:282 | the first five entries (all when fewer), in order; the rooms list at line 342 takes its first five the same way |
| AdminDashboard.Dashboard.constructor | hotel-web/app/admin/dashboard/page.tsx:35-39 | the dashboard starts loading with empty lists |
| AdminDashboard.Dashboard.FetchDashboardData | hotel-web/app/admin/dashboard/page.tsx:41-62 | both listings are requested; the lists are set only when both succeed, and a failure shows an error; loading ends |
| BookingStats.TotalPrice | hotel-web/app/dashboard/page.tsx:100-103 | `reduce` of the prices, added from the left; see `TotalPriceAppend` |
| BookingStats.TotalGuests | hotel-web/app/admin/dashboard/page.tsx:85 | `reduce` of the guest counts; see `GuestsAtLeastBookings` |
| BookingStats.TotalPriceAppend | hotel-web/app/dashboard/page.tsx:100-103 | the running price total of two lists is the sum of their totals |
| BookingStats.GuestsAtLeastBookings | hotel-web/app/admin/dashboard/page.tsx:65-85 | bookings of at least one guest each total at least as many guests as bookings |
| BookingStats.WithStatus | hotel-web/app/dashboard/page.tsx:94-99 | exactly the rows with that status, in order |
| BookingStats.TwoStatusesFit | hotel-web/app/dashboard/page.tsx:94-99 | rows of two different statuses together are at most all rows |
| Paging.PageOf | HotelServer/src/main/java/com/hms/HotelServer/services/admin/reservation/ReservationServiceImp.java:29-36 | a page of a query result: the rows from page*size on, at most size of them |
| Paging.TotalPages | HotelServer/src/main/java/com/hms/HotelServer/services/admin/reservation/ReservationServiceImp.java:38-39 | `getTotalPages()`; `TotalPagesIsCeiling` proves it is the ceiling |
| Paging.TotalPagesIsCeiling | HotelServer/src/main/java/com/hms/HotelServer/services/admin/reservation/ReservationServiceImp.java:38-39 | the page count is the least number of pages that hold every row |
| Paging.PageNonEmptyIff | HotelServer/src/main/java/com/hms/HotelServer/services/admin/reservation/ReservationServiceImp.java:29-36 | a page has rows exactly when its index is below the page count |
| Paging.RowOnItsPage | HotelServer/src/main/java/com/hms/HotelServer/services/admin/reservation/ReservationServiceImp.java:29-36 | row k is at place k%size of page k/size |
| Filtering.Filter | hotel-web/app/admin/reservations/page.tsx:65-69 | `Array.filter`: exactly the rows that pass, as a subsequence of the input |
| Filtering.FilterAll | hotel-web/app/admin/reservations/page.tsx:65-69 | a filter every row passes keeps the whole list |
| Filtering.DisjointFiltersFit | hotel-web/app/dashboard/page.tsx:94-99 | two filters no row passes together keep at most all rows |
| Filtering.StricterFilterKeepsFewer | hotel-web/app/admin/dashboard/page.tsx:65-85 | a stricter filter keeps no more rows |
| Filtering.Take | hotel-web/app/admin/dashboard/page.tsx:282 | `slice(0, n)`: the first n rows, or all when fewer |
| Text.ToLower | hotel-web/app/admin/reservations/page.tsx:72-79 | `toLowerCase` character by character with `LowerChar`; lowering twice is lowering once, and white space is kept (see `Text.ToLowerIdempotent`); only the blocks `LowerChar` covers are folded, as admitted under Left out |
| Text.ToLowerIdempotent | hotel-web/app/admin/reservations/page.tsx:72-79 | lowering a lowered text changes nothing, and a text is all white space exactly when its lower-case form is |
| Text.LowerChar | hotel-web/app/admin/reservations/page.tsx:72-79 | an ASCII capital becomes its lower-case letter and a lower-case ASCII letter is kept; the Latin-1, Latin Extended-A, Greek (capital sigma to σ) and Cyrillic capitals are lowered by Unicode's mapping, every other character is kept |
| Text.LowerCharIdempotent | hotel-web/app/admin/reservations/page.tsx:72-79 | a lowered character is already lower case |
| Text.LowerCharKeepsSpace | hotel-web/app/admin/rooms/new/page.tsx:30-38 | a character is white space exactly when its lower case is |
| Text.LowerCharExamples | hotel-web/app/admin/rooms/page.tsx:55-58 | É lowers to é, Ł to ł, Ω to ω, Σ to σ and Ж to ж, so a query "étoile" finds "Suite Étoile"; İ is kept |
| Text.StartsWith | hotel-web/components/ui/authProvider.tsx:63-74 | `startsWith`: the prefix is the text's first characters; see `StartsWithConcat` |
| Text.Includes | hotel-web/app/admin/reservations/page.tsx:76-77 | `includes`: the text occurs at some offset, as `IncludesIffOccurs` proves |
| Text.StartsWithConcat | hotel-web/components/ui/authProvider.tsx:63-74 | a text starts with each of its prefixes |
| Text.IncludesIffOccurs | hotel-web/app/admin/reservations/page.tsx:76-77 | `includes` holds exactly when the query occurs at some offset |
| Text.TrimStart | hotel-web/app/admin/rooms/new/page.tsx:30-38 | the text after the white space `LeadingSpace` counts |
| Text.TrimEnd | hotel-web/app/admin/rooms/new/page.tsx:30-38 | the text before the white space `TrailingSpace` counts |
| Text.Trim | hotel-web/app/admin/rooms/new/page.tsx:30-38 | `trim()`: `TrimStart`, then `TrimEnd`; see `TrimEmptyIffAllSpace` and `TrimShape` |
| Text.LeadingSpace | hotel-web/app/admin/rooms/new/page.tsx:30-38 | counts the white space `trimStart` drops: all of it is white space and the next character is not |
| Text.TrailingSpace | hotel-web/app/admin/rooms/new/page.tsx:30-38 | counts the white space `trimEnd` drops: all of it is white space and the character before it is not |
| Text.TrimEmptyIffAllSpace | hotel-web/app/admin/rooms/new/page.tsx:30-38 | a trimmed text is empty exactly when it is all white space |
| Text.TrimShape | hotel-web/app/admin/rooms/new/page.tsx:30-38 | the trimmed text neither starts nor ends with white space |
| Text.NatToDecimal | hotel-web/lib/api.ts:84 | the decimal text of a number has only digits and no leading zero |
| Text.IntToDecimal | hotel-web/lib/api.ts:84 | a template literal's text of an integer, with a minus sign for negatives |
| Text.LeadingDigits | HotelWeb/src/app/auth/services/storage/user-storage.service.ts:41-50 | the length of the run of digits a text starts with |
| Text.DecimalRoundTrip | HotelWeb/src/app/auth/services/storage/user-storage.service.ts:41-50 | reading a number's decimal text gives the number back |
| Text.IntDecimalInjective | hotel-web/lib/api.ts:84 | different integers print differently |
| JsNumber.ParseFloat | hotel-web/app/admin/rooms/new/page.tsx:36-42 | `parseFloat`: leading white space skipped, a sign, then "Infinity" or the longest decimal literal, else NaN; see the lemmas below |
| JsNumber.DigitsParse | hotel-web/app/admin/rooms/new/page.tsx:36 | a run of digits is an unsigned literal for the number it spells |
| JsNumber.WholeNumberParses | hotel-web/app/admin/rooms/new/page.tsx:36 | `parseFloat` of a run of digits is the number it spells, and with a leading minus its negation |
| JsNumber.DecimalParses | hotel-web/app/admin/rooms/new/page.tsx:36 | `parseFloat(String(n))` is n |
| JsNumber.NoDigitsIsNaN | hotel-web/app/admin/rooms/new/page.tsx:36 | an unsigned literal that starts with no digit, point or Infinity is NaN |
| JsNumber.LetterStartIsNaN | hotel-web/app/admin/rooms/new/page.tsx:36 | `parseFloat` of a text starting with a lower-case letter is NaN |
| JsNumber.AtMostZeroMeansValue | hotel-web/app/admin/rooms/new/page.tsx:36 | the test `x <= 0` on a finite number agrees with its value |
| JsNumber.NaNPassesPositivityCheck | hotel-web/app/admin/rooms/new/page.tsx:36 | NaN is never at most zero |

## Left out

- Rendering: JSX markup, icons, formatting of currency and dates, and toasts' visual form. Only their content is modelled.
- Network transport, `async` scheduling and interleaving of effects. Each effect or handler runs to completion on a reply given as a parameter. Races between overlapping fetches are not modelled.
- Percent-encoding in `URLSearchParams.toString()`. Query values are sent as they are, without escaping.
- `JsNumber.ParseFloat`: decimal literals are exact rationals. Rounding to binary64 and the rules on very long digit strings are not modelled.
- `Text.LowerChar`: `toLowerCase` is modelled for ASCII, Latin-1, Latin Extended-A, basic Greek and basic Cyrillic. Capitals in other blocks keep their case. Capital sigma always lowers to σ (U+03C3); the word-final ς (U+03C2) that `toLowerCase` gives at the end of a word is not produced. Characters beyond the Basic Multilingual Plane and UTF-16 code units are not modelled.
- `Text.ToLower`: lowers one character at a time, so the length never changes. JavaScript lengthens "İ" (U+0130) to "i" plus a combining dot; the model keeps "İ".
- `FilterReservationsMembers` (`AdminReservationsFilter.FilterReservationsMembers`): the search ignores case only as far as `Text.LowerChar` folds it.
- `SearchRoomsResult` (`AdminRoomsFilter.SearchRoomsResult`): the name and description matches ignore case only as far as `Text.LowerChar` folds it.
- `SearchRoomsThrows` (`AdminRoomsFilter.SearchRoomsThrows`): whether the name matches, and so whether the description is read, uses the same partial fold.
- `UserStorage.GetUser`: stored text that `saveUser` did not write is not interpreted. `JSON.parse` would throw on malformed text, and would read `id` and `role` from any other valid JSON. Both kinds of text become `Foreign`, and the readers then give `None`.
- `RolePredicates` (`UserStorage.RolePredicates`): exact only for text `saveUser` wrote, or no text. Foreign JSON with `"role":"ADMIN"` makes `isAdminLoggedIn` true in the program and `None` in the model.
- `UserStorage.Escape`: escapes only `"` and `\`. `JSON.stringify` also escapes control characters and lone surrogates, which the server's role names do not contain.
- `AdminDashboard.PercentageChange`: computed in exact reals, not binary64 doubles. The dashboard's figures (`totalRevenue * 0.8` and the other mocked periods) would round.
- `AdminDashboard.MockedRevenueChange`: 25 holds in exact arithmetic. In doubles, a revenue of 1 gives 24.999999999999993, which the page shows as "25.0" through `toFixed(1)`. The rounding to text is not modelled.
- `MockLoginRoute.RequestBody`: a field is a string or absent. A truthy field that is not a string, such as `"email": 1`, passes the presence check and then gets 401 in the route; it cannot be written here.
- Client arithmetic in general: prices, guests and counts are integers, and sums cannot overflow or round.
- `JSON.stringify` of request bodies. A body is its member list, not its text.
- Date parsing: `new Date(...)` of check-in and check-out strings. Dates are integers (milliseconds) in the client and `int` day numbers on the server.
- The shape of the server's JSON replies compared with what the client reads. For example, the admin dashboard reads `.data` from a response `lib/api.ts` already unwrapped. The model takes the reply the page expects as its parameter.
- Error messages that are not strings. A thrown value is modelled by its message.
- BCrypt hashing and its random salt. The password encoder is a function parameter.
- JWT signing, the secret key and token parsing. A parsed token is an `Option<Claims>`. jjwt's own expiry check during parsing is folded into a failed parse.
- The `UserDetails` of the user service: User.java and UserServiceImpl's `loadUserByUsername` are not part of this model. `AuthController.CreateAuthenticationToken` takes the username as a function of the user.
- `AuthService.CreateAnAdminAccount`: `findByUserRole` throws when two administrators exist. The model treats it as answering whether one exists.
- `AuthService.FindFirstByEmail`: whether email lookups ignore letter case depends on the database collation. The model compares exactly.
- `Repositories.Rows`: `findAll` and derived queries have no defined order in the source. The model lists rows in insertion order.
- Spring Security's filter chain, `SecurityContextHolder` and the `@PreAuthorize` machinery. The admin gate is a check that the authorities include "ADMIN".
- The request body of `logoutUser`: the model takes the token it carries.
- `System.out` logging in the CORS filter, the services and the controllers.
- The admin rooms service (`RoomsService` and its implementation), beyond the success flag or outcome each controller endpoint receives.
- Database transactions and concurrent requests.
- `BookingService.StayPrice`: the day count comes from `ChronoUnit.DAYS.between`. The model takes dates as day numbers and their difference as the count.
- The mock session and logout routes under `app/api/auth`, except the login route.
- The Angular register component, the room pages and the app shell.

## Findings

| source | as written | input that shows it | evidently intended | confidence | as-written member | corrected member |
|---|---|---|---|---|---|---|
| HotelServer/src/main/java/com/hms/HotelServer/util/jwtUtil.java:37-46 | `isTokenValid` looks up the token's subject (the username) in the blacklist. `logoutUser` (controller/auth/AuthController.java:77-83) adds the token text. | A user logs out; their still-unexpired token is then checked, and the blacklist holds only that token, never their username. | A logged-out token is refused: the blacklist lookup uses the token itself. | not executed | JwtUtil.IsTokenValid, JwtUtil.LoggedOutTokenStillAccepted | JwtUtil.IsTokenValidByToken, JwtUtil.LogoutRevokes |
