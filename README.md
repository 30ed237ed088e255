# A hotel booking application, modelled in Dafny

This project models the core of a Next.js hotel booking application. It has
three roles: clients book rooms, providers list hotels, and admins approve
hotels and oversee bookings. It covers:

- **The client-side stores.** The hotel, booking, user and auth contexts, with
  their reducers, queries and the provider methods that `dispatch` into them.
  - `HotelContext`, `BookingContext` and `UserContext` are classes whose
    fields are the reducer state.
  - `AuthContext` also holds the in-memory access token and the
    `fetchWithAuth` wrapper, which refreshes once after a 401.
- **The booking status picker and the booking confirmation dialog.**
  - The picker's transition table, including the reopening edges.
  - The dialog's payment status derivation, the nights count, and the booking
    it creates.
- **The API routes.** They read and rewrite one JSON file (`MockData`),
  keeping a backup of the previous contents.
  - Hotel and booking listing with their filters.
  - Hotel, booking and user creation.
  - Sign-in, refresh-token rotation and sign-out over a `refreshToken` cookie.
  - Password-reset tokens, and the upload file name.
  - The HS256 tokens of `lib/jwt.ts` (`Jwt`).
  - Request bodies are untyped JSON records (`Json`), so that object spread,
    `||` defaults and `===` on possibly missing fields keep their JavaScript
    meaning.
- **The forms and list views.**
  - The zod schemas of the hotel, hotel-creation and user dialogs.
  - The amenity and image list editor (`HotelMediaEditor`), which both hotel
    dialogs contain with the same code.
  - The filtered and paginated booking and user tables (`Pagination` holds
    the arithmetic they share).
  - The featured hotels, the provider dashboard, and the booked-hotel dialog.
  - The bar chart, the home page slider and search box, the sidebar link
    highlighting, and the sign-in form's redirect.

The model's conventions:

- Each source file is one module.
- State that the source changes in place (a React context, a dialog's
  fields, the JSON file) is a class whose methods say exactly what the new
  state is. Each method is tied to a pure function, such as a reducer case,
  a filter or a schema parse, and the lemmas are proved about that function.
- The generic JavaScript behaviour the code relies on lives in small
  modules:
  - `Seqs` holds `filter`, `find`, `findIndex`, sums and `slice`.
  - `Strings` holds `trim`, `toLowerCase`, `includes`, `split` and `join`,
    template rendering of numbers, and hex.
  - `Numbers` holds `Math.ceil` of a quotient and JavaScript's `%`.
  - `Wrappers` holds `Option`, `Result` and spread of one field.

## Where the code and the design description differ

The model follows the code in every case below.

- **Hotel lifecycle.** The system's design describes a guarded hotel
  lifecycle: only the owner submits, only an admin approves or rejects, and
  only from SUBMITTED. The code has no such guard.
  - `submitHotel`, `approveHotel` and `rejectHotel` set their status from
    any status.
  - `POST /api/hotels` stores whatever truthy status the body carries, so a
    hotel can be created APPROVED.
  - The `PATCH` handlers that would check roles and ownership are not part
    of this model.
- **Booking lifecycle.** The design describes a booking lifecycle without
  reopening. The picker's table offers `pending` again from `confirmed`,
  `completed`, `cancelled` and `no-show`. `cancelBooking`, `confirmBooking`
  and `completeBooking` apply from any status.
- **Booking creation.** The design rejects a check-out that is not after the
  check-in. The confirmation dialog computes zero or negative nights and
  sends the booking anyway. `POST /api/bookings` validates nothing.
- **Payment status.** The design derives the payment status from the payment
  method at creation. The code agrees: cash gives `pending`, anything else
  `paid`. No payment transition is checked anywhere in the code that
  the model covers.

## Model

| member | source | states |
|---|---|---|
| Types.ParseUserRole | app/types/index.ts:1 | a text is a role exactly when it is "client", "provider" or "admin", and then it names that role |
| Types.ParseUserStatus | app/types/index.ts:2 | a text is a user status exactly when it is "active", "inactive" or "banned" |
| Types.ParseHotelStatus | app/types/index.ts:4 | a text is a hotel status exactly when it is one of DRAFT, SUBMITTED, APPROVED, REJECTED, PENDING |
| Types.ParseBookingStatus | app/types/index.ts:6 | a text is a booking status exactly when it is one of pending, confirmed, cancelled, completed, no-show |
| Types.ParsePaymentStatus | app/types/index.ts:8 | a text is a payment status exactly when it is one of pending, paid, refunded, failed |
| Types.NamesReadBack | app/types/index.ts:1-8 | every status name reads back as the status it names, so no two statuses share a name |
| HotelContext.MergeHotelFieldsAbsent | app/contexts/HotelContext.tsx:105 | merging an empty updates object keeps the hotel; a status-only object changes the status and nothing else |
| HotelContext.MergeHotelIdempotent | app/contexts/HotelContext.tsx:105 | merging the same updates twice equals merging them once |
| HotelContext.InitialState | app/contexts/HotelContext.tsx:81-86 | the store starts with nothing selected and no filter set |
| HotelContext.ReplaceHotel | app/contexts/HotelContext.tsx:57-59 | same length and ids in the same order; exactly the entries with the payload's id become the payload, the rest are kept |
| HotelContext.ReduceAddHotel | app/contexts/HotelContext.tsx:52-53 | ADD_HOTEL keeps every earlier hotel, appends exactly the payload at the end and changes no other part of the state |
| HotelContext.ReduceUpdateHotel | app/contexts/HotelContext.tsx:54-64 | UPDATE_HOTEL replaces only the hotels with the payload's id; the selection becomes the payload only when its id matches |
| HotelContext.ReduceDeleteHotel | app/contexts/HotelContext.tsx:65-69 | DELETE_HOTEL keeps, in order, exactly the hotels whose id differs, and changes nothing else |
| HotelContext.ReduceSetFilters | app/contexts/HotelContext.tsx:72-73 | SET_FILTERS takes each key the payload has and keeps every filter key it does not have |
| HotelContext.ReduceSetHotelsIgnored | app/contexts/HotelContext.tsx:76-77 | SET_HOTELS has no case, so the state is returned unchanged |
| HotelContext.HotelById | app/contexts/HotelContext.tsx:103 | the first hotel in the list with the id; nothing is found exactly when no hotel has the id |
| HotelContext.FilteredHotels | app/contexts/HotelContext.tsx:126-148 | an order-preserving subsequence holding exactly the hotels that meet every set filter (status unless ALL, case-insensitive query, minimum rating) |
| HotelContext.FilteredHotelsUnfiltered | app/contexts/HotelContext.tsx:126-148 | with no filter set (or only ALL, or an empty query) every hotel is listed in order |
| HotelContext.HotelsByOwner | app/contexts/HotelContext.tsx:166 | an order-preserving subsequence holding exactly the owner's hotels |
| HotelContext.RoomTypesByHotel | app/contexts/HotelContext.tsx:150-152 | an order-preserving subsequence holding exactly the hotel's room types |
| HotelContext.HotelProvider.constructor | app/contexts/HotelContext.tsx:81-89 | the provider's state is the initial state built from the seed data |
| HotelContext.HotelProvider.Dispatch | app/contexts/HotelContext.tsx:50-79 | the new state is the reducer applied to the old state and the action |
| HotelContext.HotelProvider.CreateHotel | app/contexts/HotelContext.tsx:91-100 | the created hotel is the input with a `hotel_<now>` id, the timestamp and status DRAFT whatever the input said; it is appended through ADD_HOTEL |
| HotelContext.HotelProvider.UpdateHotel | app/contexts/HotelContext.tsx:102-108 | an unknown id changes nothing; otherwise the first hotel with the id, merged with the updates, goes through UPDATE_HOTEL |
| HotelContext.HotelProvider.SetHotelStatus | app/contexts/HotelContext.tsx:110-120 | the status is overwritten from any current status; an unknown id changes nothing |
| HotelContext.HotelProvider.SubmitHotel | app/contexts/HotelContext.tsx:118-120 | the hotel's status becomes SUBMITTED from any status; an unknown id changes nothing |
| HotelContext.HotelProvider.ApproveHotel | app/contexts/HotelContext.tsx:110-112 | the hotel's status becomes APPROVED from any status; an unknown id changes nothing |
| HotelContext.HotelProvider.RejectHotel | app/contexts/HotelContext.tsx:114-116 | the hotel's status becomes REJECTED from any status; an unknown id changes nothing |
| HotelContext.HotelProvider.DeleteHotel | app/contexts/HotelContext.tsx:160 | the state is the DELETE_HOTEL reduction of the old state |
| HotelContext.HotelProvider.SetSelectedHotel | app/contexts/HotelContext.tsx:164 | only the selection changes |
| HotelContext.HotelProvider.SetFilters | app/contexts/HotelContext.tsx:122-124 | the state is the SET_FILTERS reduction of the old state |
| HotelContext.HotelProvider.AddRoomType | app/contexts/HotelContext.tsx:169-172 | the room type with an `rt_<now>` id is appended and nothing else changes |
| BookingContext.MergeBookingFieldsAbsent | app/contexts/BookingContext.tsx:106 | merging an empty updates object keeps the booking; a status-only object changes the status and nothing else |
| BookingContext.InitialState | app/contexts/BookingContext.tsx:79-83 | the store starts with nothing selected and no filter set |
| BookingContext.ReplaceBooking | app/contexts/BookingContext.tsx:53-55 | same length and ids in the same order; exactly the entries with the payload's id become the payload |
| BookingContext.ReduceAddBooking | app/contexts/BookingContext.tsx:47-48 | ADD_BOOKING keeps every earlier booking, appends exactly the payload at the end and changes nothing else |
| BookingContext.ReduceUpdateBooking | app/contexts/BookingContext.tsx:50-60 | UPDATE_BOOKING replaces only matching ids; the selection becomes the payload only when its id matches |
| BookingContext.ReduceDeleteBooking | app/contexts/BookingContext.tsx:62-66 | DELETE_BOOKING keeps, in order, exactly the bookings whose id differs, and changes nothing else |
| BookingContext.BookingById | app/contexts/BookingContext.tsx:104 | the first booking in the list with the id; nothing is found exactly when no booking has the id |
| BookingContext.BookingsByCustomer | app/contexts/BookingContext.tsx:166-169 | an order-preserving subsequence holding exactly the customer's bookings |
| BookingContext.BookingsByHotel | app/contexts/BookingContext.tsx:171-174 | an order-preserving subsequence holding exactly the hotel's bookings |
| BookingContext.FilteredBookings | app/contexts/BookingContext.tsx:176-190 | an order-preserving subsequence holding exactly the bookings that meet every set filter (status, customer, hotel), together |
| BookingContext.BookingProvider.constructor | app/contexts/BookingContext.tsx:79-86 | the provider's state is the initial state built from the seed data |
| BookingContext.BookingProvider.Dispatch | app/contexts/BookingContext.tsx:45-77 | the new state is the reducer applied to the old state and the action |
| BookingContext.BookingProvider.CreateBooking | app/contexts/BookingContext.tsx:88-100 | every given field is copied; id `booking_<now>`, the timestamp and status pending are forced; the booking is appended through ADD_BOOKING |
| BookingContext.BookingProvider.UpdateBooking | app/contexts/BookingContext.tsx:102-107 | an unknown id changes nothing; otherwise the first booking with the id, merged with the updates, goes through UPDATE_BOOKING |
| BookingContext.BookingProvider.SetBookingStatus | app/contexts/BookingContext.tsx:137-156 | the status is overwritten from any current status; an unknown id changes nothing |
| BookingContext.BookingProvider.CancelBooking | app/contexts/BookingContext.tsx:137-142 | the booking's status becomes cancelled from any status |
| BookingContext.BookingProvider.ConfirmBooking | app/contexts/BookingContext.tsx:144-149 | the booking's status becomes confirmed from any status |
| BookingContext.BookingProvider.CompleteBooking | app/contexts/BookingContext.tsx:151-156 | the booking's status becomes completed from any status |
| BookingContext.BookingProvider.SetSelectedBooking | app/contexts/BookingContext.tsx:158-160 | only the selection changes |
| BookingContext.BookingProvider.SetFilters | app/contexts/BookingContext.tsx:162-164 | only the filters change: the payload's keys over the old filters |
| UserContext.MergeUserProperties | app/contexts/UserContext.tsx:65 | an empty updates object keeps the user; merging the same updates twice equals merging once |
| UserContext.ReplaceUser | app/contexts/UserContext.tsx:34-40 | UPDATE_USER keeps length and id order and replaces exactly the entries with the payload's id |
| UserContext.ReduceAddDeleteUser | app/contexts/UserContext.tsx:32-45 | ADD_USER appends exactly the payload; DELETE_USER keeps, in order, exactly the users whose id differs |
| UserContext.UserById | app/contexts/UserContext.tsx:73-75 | the first user with the id, or nothing exactly when no user has it |
| UserContext.UserProvider.constructor | app/contexts/UserContext.tsx:51-56 | the store starts with the seed users |
| UserContext.UserProvider.AddUser | app/contexts/UserContext.tsx:58-60 | the user is appended at the end |
| UserContext.UserProvider.UpdateUser | app/contexts/UserContext.tsx:62-67 | an unknown id changes nothing; otherwise the first user with the id, merged with the updates, goes through UPDATE_USER |
| UserContext.UserProvider.DeleteUser | app/contexts/UserContext.tsx:69-71 | the state is the DELETE_USER reduction of the old state |
| AuthContext.ReduceCases | app/contexts/AuthContext.tsx:36-69 | LOGIN_START sets loading and clears the error only; success, failure and logout set the four fields as their cases say; CLEAR_ERROR clears only the error; an unknown action changes nothing |
| AuthContext.ConsistentFromInitial | app/contexts/AuthContext.tsx:36-76 | from the initial state, any run of actions whose success payloads are users keeps "signed in" equal to "a user is held" |
| AuthContext.ConsistentPreserved | app/contexts/AuthContext.tsx:36-69 | every such run of actions preserves that invariant from any state that has it |
| AuthContext.MissingUserBreaksConsistency | app/contexts/AuthContext.tsx:40-47 | a success without a user breaks the invariant, so its payload condition cannot be dropped |
| AuthContext.TokenOrNull | app/contexts/AuthContext.tsx:120 | `accessToken \|\| null` keeps a non-empty token and never keeps an empty one |
| AuthContext.AuthorizationHeader | app/contexts/AuthContext.tsx:178-180 | a request carries `Bearer <token>` exactly when a non-empty token is held |
| AuthContext.RejectionMessage | app/contexts/AuthContext.tsx:115-116 | the failure message is the server's message when it has one, and is never empty |
| AuthContext.LoginStateSettles | app/contexts/AuthContext.tsx:106-127 | a login attempt always ends with loading off; it signs in exactly on an ok reply, and otherwise leaves no user and an error |
| AuthContext.AuthProvider.constructor | app/contexts/AuthContext.tsx:71-80 | the initial state and no access token |
| AuthContext.AuthProvider.Dispatch | app/contexts/AuthContext.tsx:36-69 | the state is reduced by the action and the token is untouched |
| AuthContext.AuthProvider.Login | app/contexts/AuthContext.tsx:106-127 | succeeds exactly on an ok reply, returning its user; only an ok reply replaces the token |
| AuthContext.AuthProvider.Refresh | app/contexts/AuthContext.tsx:163-174 | only an ok reply changes anything: the token, and a LOGIN_SUCCESS with the reply's user |
| AuthContext.AuthProvider.Logout | app/contexts/AuthContext.tsx:152-160 | whatever the server answers, the token is dropped and the session is signed out |
| AuthContext.AuthProvider.ClearError | app/contexts/AuthContext.tsx:192-194 | only the error is cleared |
| AuthContext.AuthProvider.FetchWithAuth | app/contexts/AuthContext.tsx:177-190 | one or two requests: a non-401 answer is returned as is; on 401 one refresh is tried; a failed refresh returns the first answer; a successful one retries once with the new token |
| BookingStatusSelector.Transitions | components/modals/BookingStatusSelector.tsx:19-25 | no status offers itself or no-show; every status except pending offers pending back; one to three distinct targets |
| BookingStatusSelector.TransitionTable | components/modals/BookingStatusSelector.tsx:19-25 | the table row by row, including the reopening edges cancelled→pending and completed→pending |
| BookingStatusSelector.AvailableStatuses | components/modals/BookingStatusSelector.tsx:17-35 | a null booking renders nothing; a known status offers its row; a text that names no status offers nothing |
| BookingConfirmModal.PaymentStatusFor | components/modals/BookingConfirmModal.tsx:54-55 | cash gives pending and exactly the other method gives paid |
| BookingConfirmModal.Nights | components/modals/BookingConfirmModal.tsx:98-102 | the smallest whole number of days covering the stay (integer ceiling); a zero or negative stay gives zero or fewer nights |
| BookingConfirmModal.BookingRequest | components/modals/BookingConfirmModal.tsx:57-70 | status pending, no rooms, the anonymous customer, the passed price, counts and dates unchanged, and the payment status derived from the method |
| BookingConfirmModal.ConfirmDialog.constructor | components/modals/BookingConfirmModal.tsx:42-45 | cash, not loading, idle, no message |
| BookingConfirmModal.ConfirmDialog.SetPaymentMethod | components/modals/BookingConfirmModal.tsx:42 | only the payment method changes |
| BookingConfirmModal.ConfirmDialog.HandleConfirmBooking | components/modals/BookingConfirmModal.tsx:47-96 | the booking enters the store before the POST; success on an ok reply, error with the message otherwise; loading is off afterwards; the button stays disabled exactly after a success |
| MockData.JsonFile.Commit | app/api/hotels/route.ts:51-52 | the backup holds the previous contents and the data file the new ones |
| HotelsRoute.GetHotels | app/api/hotels/route.ts:19-24 | `total` is the length; an order-preserving subsequence of exactly the hotels of the owner (when given) with the status (unless absent or ALL) |
| HotelsRoute.ListingJson | app/api/hotels/route.ts:24 | the reply body has exactly the keys `data` and `total`; `total` is the count given, and `data` holds the records one for one, in order |
| HotelsRoute.GetHotelsUnfiltered | app/api/hotels/route.ts:19-22 | without parameters every hotel is listed in file order |
| HotelsRoute.HotelIdDigits | app/api/hotels/route.ts:41 | the generated id is `hotel_` followed by decimal digits whose value is the clock reading |
| HotelsRoute.HotelIdInjective | app/api/hotels/route.ts:41 | two hotels created at different milliseconds get different ids |
| HotelsRoute.NewHotelRecord | app/api/hotels/route.ts:40-45 | the body's keys plus `_id`, `status`, `createdAt`; a body `_id` replaces the generated id; status is the body's when truthy, else DRAFT; createdAt always generated; other fields copied |
| HotelsRoute.PostHotelKeepsRequestedStatus | app/api/hotels/route.ts:43 | a hotel can be created APPROVED: a truthy status in the body is stored as sent |
| HotelsRoute.PostHotel | app/api/hotels/route.ts:32-54 | exactly one hotel is appended after the earlier ones, the backup is the previous store, and the reply is 201 with the new hotel |
| BookingsRoute.ProviderHotelIds | app/api/bookings/route.ts:24 | a value is among the ids exactly when some hotel owned by the provider has that `_id` |
| BookingsRoute.GetBookings | app/api/bookings/route.ts:19-33 | `total` is the length; an order-preserving subsequence of exactly the bookings on a hotel the provider owns (when given) with the status (unless absent or ALL) |
| BookingsRoute.GetBookingsNoHotels | app/api/bookings/route.ts:22-26 | a provider who owns no hotel gets an empty list |
| BookingsRoute.BookingIdDigits | app/api/bookings/route.ts:49 | the generated id is `booking_` followed by decimal digits whose value is the clock reading |
| BookingsRoute.BookingIdInjective | app/api/bookings/route.ts:49 | two bookings created at different milliseconds get different ids |
| BookingsRoute.NewBookingRecord | app/api/bookings/route.ts:48-53 | the body's keys plus `_id`, `createdAt`, `updatedAt`; a body `_id` wins; both time stamps always generated; nothing validated |
| BookingsRoute.PostBooking | app/api/bookings/route.ts:40-61 | exactly one booking is appended after the earlier ones, the backup is the previous store, and the reply is 201 with the new booking |
| UsersRoute.UserIdDigits | app/api/users/route.ts:18 | the generated id is `user_` followed by decimal digits whose value is the clock reading |
| UsersRoute.UserIdInjective | app/api/users/route.ts:18 | two users created at different milliseconds get different ids |
| UsersRoute.NewUserRecord | app/api/users/route.ts:19-35 | the stored user has exactly the twelve copied fields, `_id`, `createdAt`, and `address` only when the body has one; every other body field, its own `_id` included, is dropped; `_id` is the generated id |
| UsersRoute.NewUserRecordFields | app/api/users/route.ts:21-32 | each copied field is the body's value when that is truthy, else the field's default |
| UsersRoute.PostUserKeepsRequestedRole | app/api/users/route.ts:26 | a body asking for the admin role gets an admin account: the route does not restrict roles |
| UsersRoute.NewUserDefaults | app/api/users/route.ts:21-32 | a body without the fields gets role client, status active, age 0, id card `000000000000`, two-factor off and an empty e-mail |
| UsersRoute.PostUser | app/api/users/route.ts:13-41 | the backup holds the previous store, exactly one user is appended after the earlier ones, and the reply is `{ success: true, data }` with that user |
| AuthTokens.NumberOr | app/api/auth/login/route.ts:9-10 | a set, non-zero number is used; a missing, non-numeric or zero setting leaves the default |
| AuthTokens.ConfigFrom | app/api/auth/login/route.ts:9-11 | without settings: 900 s access tokens, 604800 s refresh tokens, secret `dev_secret`; production exactly when `NODE_ENV` is `production` |
| AuthTokens.AccessClaims | app/api/auth/login/route.ts:26 | the claims are only `sub`, `role`, `username`, copied from the user's `_id`, `role`, `username` |
| AuthTokens.RefreshClaims | app/api/auth/login/route.ts:27 | the claims are only `sub` (the user's `_id`) and `type: "refresh"` |
| AuthTokens.AccessToken | app/api/auth/login/route.ts:26 | with a base64 encoder and round-tripping codec, the token verifies under the secret to the access claims plus `iat` and `exp` at every moment up to its `exp` second |
| AuthTokens.RefreshToken | app/api/auth/login/route.ts:27 | with a base64 encoder and round-tripping codec, the token verifies under the secret to the refresh claims plus `iat` and `exp` at every moment up to its `exp` second |
| AuthTokens.ValidUntilExpiry | lib/jwt.ts:11-36 | a signed token verifies to its signed claims at every moment up to its `exp` second |
| AuthTokens.SafeUser | app/api/auth/login/route.ts:39 | neither `password` nor `refreshToken` is present, and every other field of the user is kept unchanged |
| AuthTokens.RefreshCookie | app/api/auth/login/route.ts:37 | for a token without `;`, the cookie splits at `;` into exactly `refreshToken=<token>`, ` HttpOnly`, ` Path=/`, ` Max-Age=<refresh lifetime>`, ` SameSite=Strict`, then ` Secure` in production only |
| AuthTokens.ClearedCookie | app/api/auth/logout/route.ts:39 | the cookie splits at `;` into exactly `refreshToken=` with an empty value, ` HttpOnly`, ` Path=/`, ` Max-Age=0`, ` SameSite=Strict`, then ` Secure` in production only |
| AuthTokens.SplitCookie | app/api/auth/login/route.ts:37 | a cookie built from a value and a max-age without `;` splits at `;` into exactly its attributes |
| AuthTokens.UpdateFirst | app/api/auth/login/route.ts:29-31 | same length; only the first user passing the test is replaced, by `f` of itself; when none passes the list is unchanged |
| AuthTokens.UpdateFirstOnlyRefreshToken | app/api/auth/login/route.ts:31 | storing a refresh token leaves every field but `refreshToken` of every user as it was |
| AuthTokens.UpdateFirstStores | app/api/auth/login/route.ts:29-31 | when some user passes the test, a user at or before it passes it too and now carries the token |
| Jwt.UrlSafe | lib/jwt.ts:3-9 | the result has no `=`, `+` or `/`, no `.` when the input had none, only base64url characters when the input was base64, and is no longer than the input |
| Jwt.Restore | lib/jwt.ts:32 | same length; each `-` becomes `+`, each `_` becomes `/`, and every other character is kept |
| Jwt.RestoreUrlSafe | lib/jwt.ts:32 | restoring a URL-safe text gives back the base64 text except for its padding |
| Jwt.Seconds | lib/jwt.ts:13 | the whole seconds `s` with `s * 1000 <= ms < s * 1000 + 1000` |
| Jwt.SignedBody | lib/jwt.ts:14 | the payload's keys plus `iat` and `exp`; `iat` is the current second, `exp` that plus the lifetime; other claims are kept |
| Jwt.Signature | lib/jwt.ts:18-19 | the signature text has no `=`, `+` or `/` |
| Jwt.ExpiryOf | lib/jwt.ts:35 | a numeric `exp` of an object payload is compared as it is, `exp: true` as 1, and anything else (missing, falsy, or neither a number nor `true`) skips the check |
| Jwt.Verify | lib/jwt.ts:23-36 | refused for its format exactly when it does not split into three parts; for its signature exactly when the third part is not the HMAC of the first two; as malformed exactly when the body does not parse or parses to null; as expired exactly when `exp` is non-zero and the current second is past it; otherwise accepted with the parsed body |
| Jwt.Sign | lib/jwt.ts:11-20 | a signed token splits at `.` into exactly the encoded header, the encoded claims and their signature |
| Jwt.TokenParts | lib/jwt.ts:15-20 | two base64url texts and the signature of their join, joined by dots, split back into those three |
| Jwt.SignIsTokenText | lib/jwt.ts:11-20 | a signed token holds only base64url characters and dots |
| Jwt.SignThenVerify | lib/jwt.ts:11-36 | a token verifies under its secret, with exactly the claims it was signed with, until its `exp` second has passed |
| Jwt.SignThenVerifyLate | lib/jwt.ts:35 | after its `exp` second the token is rejected as expired, unless `exp` is 0 |
| Jwt.VerifyOtherSecret | lib/jwt.ts:29-31 | under a secret whose HMAC differs, the token is rejected for its signature |
| LoginRoute.Login | app/api/auth/login/route.ts:21-31 | rejected exactly when no user has both credentials under `===`; otherwise the first such user is signed in with tokens signed for them, and the first stored user with their `_id` gets the new refresh token |
| LoginRoute.AcceptedReply | app/api/auth/login/route.ts:37-43 | status 200 with the refresh cookie; the body has exactly `accessToken` and `user`, and the user has no `password` or `refreshToken` |
| LoginRoute.LoginChangesOnlyRefreshToken | app/api/auth/login/route.ts:29-32 | signing in keeps the number of users and changes no field but `refreshToken` of any user |
| LoginRoute.LoginStoresRefreshToken | app/api/auth/login/route.ts:29-31 | with string ids, some stored user with the signed-in user's `_id` now holds the new refresh token |
| LoginRoute.StoredById | app/api/auth/login/route.ts:29-31 | after the update, a record with the user's `_id` carries the token |
| LoginRoute.StoredCredentialsSignIn | app/api/auth/login/route.ts:21-24 | sending a stored user's user name and password signs in a user with exactly those credentials, so an account registered with empty credentials lets in anyone sending two empty strings |
| LoginRoute.PostLogin | app/api/auth/login/route.ts:13-43 | unknown credentials get 401 and the store is untouched; otherwise the backup is the previous store, the users are updated as `Login` says and the reply is the accepted reply |
| Cookies.Lookup | app/api/auth/refresh/route.ts:16 | no value exactly when no entry has the key; otherwise the value of an entry with that key after which no entry has it |
| Cookies.Entry | app/api/auth/refresh/route.ts:17-18 | the name of an entry never contains `=`: the value keeps every `=` after the first |
| Cookies.Entries | app/api/auth/refresh/route.ts:16 | one entry per `;`-separated piece, none with `=` in its name |
| Cookies.Cookie | app/api/auth/refresh/route.ts:25 | `cookies.refreshToken` is defined exactly when the parsed header has that name, and then it is its value |
| Cookies.FromEntriesLast | app/api/auth/refresh/route.ts:16 | the last entry's value is the one the object keeps for its name |
| Cookies.FromEntries | app/api/auth/refresh/route.ts:16 | the object holds, for every key, the value of its last entry: a later entry replaces an earlier one |
| Cookies.ParseCookies | app/api/auth/refresh/route.ts:14-20 | a missing or empty header gives no cookies, and no cookie name contains `=` |
| Cookies.EntryOfPair | app/api/auth/refresh/route.ts:17-18 | a `name=value` piece without blanks and without `=` in the name reads back as that pair |
| Cookies.SingleCookie | app/api/auth/refresh/route.ts:14-20 | a header holding one cookie yields exactly that cookie |
| Cookies.LastCookieWins | app/api/auth/refresh/route.ts:14-20 | when a name is sent twice, the routes read the value sent last |
| RefreshRoute.PresentedToken | app/api/auth/refresh/route.ts:24-27 | a token is presented exactly when the `refreshToken` cookie is there and not empty, and it is that cookie's value |
| RefreshRoute.Refresh | app/api/auth/refresh/route.ts:22-49 | no usable cookie is `NoToken`, and otherwise the decision is the one on the presented token |
| RefreshRoute.Decide | app/api/auth/refresh/route.ts:29-49 | a token that fails verification is refused; a verified one nobody holds under its subject is unknown; otherwise the first user holding it is rotated to a fresh refresh token and a new access token, stored for the first user with that `_id` |
| RefreshRoute.ResultReply | app/api/auth/refresh/route.ts:27-61 | 200 exactly on rotation, with the new refresh cookie and a body of exactly `accessToken` and the user without password or refresh token; a missing cookie is 401 "No refresh token", a bad or unknown token 401 "Invalid refresh token", never with a cookie |
| RefreshRoute.PostRefresh | app/api/auth/refresh/route.ts:22-61 | the reply follows the decision; the store and backup are written only on rotation, and then with the rotated users |
| RefreshRoute.RotatedTokenIsRetired | app/api/auth/refresh/route.ts:41-49 | with unique user ids, a rotated token cannot be rotated a second time |
| RefreshRoute.Retired | app/api/auth/refresh/route.ts:41-49 | after the update nobody holds the presented token under that subject |
| RefreshRoute.RefreshCookieEcho | app/api/auth/refresh/route.ts:14-26 | the refresh token, sent back as the only cookie, is read back unchanged and is not empty |
| RefreshRoute.RefreshTokenNonEmpty | app/api/auth/refresh/route.ts:45 | a signed refresh token is never empty |
| RefreshRoute.TokenCookie | app/api/auth/refresh/route.ts:14-20 | a `refreshToken=<token>` header parses back to the token, since tokens hold no blank or `;` |
| RefreshRoute.RefreshTokenVerifies | app/api/auth/refresh/route.ts:31 | until it expires, a refresh token verifies and its subject is its user's `_id` |
| RefreshRoute.LoginThenRefresh | app/api/auth/refresh/route.ts:22-49 | the refresh token a sign-in issues and stores is accepted by the refresh route before it expires |
| RefreshRoute.StoredTokenRotates | app/api/auth/refresh/route.ts:41-49 | a freshly stored refresh token presented as the cookie leads to rotation |
| RefreshRoute.HeldAfterSignIn | app/api/auth/refresh/route.ts:41 | after storing a fresh refresh token, some stored user holds it under the token's subject |
| RefreshRoute.AcceptsHeldToken | app/api/auth/refresh/route.ts:41-42 | a verified token held by a stored user under its subject is rotated |
| LogoutRoute.Logout | app/api/auth/logout/route.ts:18-33 | no usable cookie does nothing; otherwise the first user holding the token has exactly `refreshToken` removed and no other user changes, or nobody holds it |
| LogoutRoute.Revoke | app/api/auth/logout/route.ts:28-33 | the store half: unknown when nobody holds the token, else only the first holder loses it |
| LogoutRoute.LogoutReply | app/api/auth/logout/route.ts:21-41 | always 200; without a token the message, otherwise `{ ok: true }` with the cleared cookie |
| LogoutRoute.PostLogout | app/api/auth/logout/route.ts:16-41 | the reply follows the decision, and the store and backup are written only when a holder was found |
| LogoutRoute.LogoutOnlyRemovesToken | app/api/auth/logout/route.ts:31-32 | logout changes no field of any user except the removed `refreshToken` |
| LogoutRoute.LogoutRevokesEverywhere | app/api/auth/logout/route.ts:28-32 | with unique tokens nobody holds the presented token after logout |
| LogoutRoute.LogoutTwice | app/api/auth/logout/route.ts:28-36 | a second logout with the same cookie finds no holder and writes nothing |
| LogoutRoute.LogoutThenRefresh | app/api/auth/logout/route.ts:28-32 | a logged-out refresh token can no longer be exchanged at the refresh route |
| ForgotRoute.ResetExpires | app/api/auth/forgot/route.ts:26 | the expiry is the current second plus one hour: later than now, and at most an hour later |
| ForgotRoute.WithReset | app/api/auth/forgot/route.ts:28 | the user's keys plus `resetToken` and `resetExpires` with the given values; other fields unchanged |
| ForgotRoute.Forgot | app/api/auth/forgot/route.ts:11-28 | a falsy email is refused; no account exactly when no user has it as email or username; otherwise the first such user gets the hex token and the expiry and nobody else changes |
| ForgotRoute.ForgotReply | app/api/auth/forgot/route.ts:12-34 | 400 exactly for a missing email, else 200; no cookie; an issued token is sent back in the body |
| ForgotRoute.PostForgot | app/api/auth/forgot/route.ts:9-34 | the reply follows the decision, and the store and backup are written only when a token was issued |
| ForgotRoute.ResetTokenIsHex | app/api/auth/forgot/route.ts:25 | the reset token is 40 lower-case hexadecimal characters |
| ForgotRoute.StatusHidesAccountBodyDoesNot | app/api/auth/forgot/route.ts:12-34 | the same request gets the same status whatever accounts are stored, but a request that found an account gets a token in the body and one that found none does not |
| ForgotRoute.UsernameFindsAccount | app/api/auth/forgot/route.ts:19 | a username is accepted in place of an e-mail address: the first user with that username receives the token |
| UploadRoute.SanitizeChar | app/api/upload/route.ts:20 | kept characters stay; any other becomes one `_` per UTF-16 code unit |
| UploadRoute.Sanitize | app/api/upload/route.ts:20 | every character of the result is a kept one or `_`, its length is the UTF-16 length of the name, and a clean name is unchanged |
| UploadRoute.SanitizeBmp | app/api/upload/route.ts:20 | without surrogate pairs, character `i` of the result is character `i` of the name or `_` |
| UploadRoute.SanitizeIdempotent | app/api/upload/route.ts:20 | sanitising twice is sanitising once |
| UploadRoute.SanitizeNoSeparators | app/api/upload/route.ts:20 | the sanitised name has no `/` or `\` |
| UploadRoute.FileName | app/api/upload/route.ts:20 | the stored name is the clock reading, `_`, then exactly the sanitised file name |
| UploadRoute.PublicUrl | app/api/upload/route.ts:24 | the URL is `/images/hotels/` followed by exactly the file name |
| UploadRoute.FileNameStaysInDirectory | app/api/upload/route.ts:20-21 | the stored name is one path component: no separator, and neither `.` nor `..` |
| UploadRoute.Upload | app/api/upload/route.ts:7-23 | no entry or an empty text field is refused; a non-empty text field fails; a file is stored under the generated name with its content |
| UploadRoute.UploadReply | app/api/upload/route.ts:10-29 | 400 for no file, 500 for a failure, 200 with the public URL for a stored file |
| UploadRoute.UrlNamesStoredFile | app/api/upload/route.ts:20-26 | the URL sent back names the file written, under `/images/hotels/` |
| Pagination.TotalPages | components/sheets/BookingSheet.tsx:147 | the page count is the least number of pages that holds every item: zero only for an empty list |
| Pagination.SliceIndex | components/sheets/BookingSheet.tsx:150 | an index is read as `slice` reads it: one inside `0..length` as it is, a negative one counted from the end and clamped at 0, one past the end clamped to the length |
| Pagination.Slice | components/sheets/BookingSheet.tsx:150 | for indices inside the list `slice` is the Dafny slice, past the end it stops at the end, and it is never longer than `end - start` |
| Pagination.SliceClamped | components/sheets/BookingSheet.tsx:150 | for any bounds, negative ones included, the items between the two indices as `slice` reads them, or nothing when the end is not after the start |
| Pagination.Page | components/sheets/BookingSheet.tsx:148-150 | at most a page of items; an existing page is the slice from `(page - 1) * size`, cut at the end of the list |
| Pagination.PageOutOfRange | components/sheets/BookingSheet.tsx:148-150 | page 0 and every page starting past the end show nothing |
| Pagination.PageAt | components/sheets/BookingSheet.tsx:148-150 | page `k` is the items between the first `(k - 1) * size` and the first `k * size` |
| Pagination.FirstPagesPrefix | components/sheets/BookingSheet.tsx:147-150 | pages `1..k` read in order are the first `k * size` items |
| Pagination.PagesPartition | components/sheets/BookingSheet.tsx:147-150 | pages `1..totalPages` read in order give back every item exactly once, in order |
| Pagination.WindowSlotsInRange | components/sheets/BookingSheet.tsx:305-317 | the range check on the page numbers never drops a slot |
| Pagination.Window | components/sheets/BookingSheet.tsx:305-317 | exactly `min(5, totalPages)` consecutive page numbers, all between 1 and the page count, including the current page whenever it exists |
| Pagination.Previous | components/sheets/BookingSheet.tsx:296 | never below page 1; one page back from any later page, and page 1 from page 1 or below |
| Pagination.Next | components/sheets/BookingSheet.tsx:341 | never past the last page; one page on from any earlier page, and the last page from the last page or beyond |
| Pagination.StepsStayInRange | components/sheets/BookingSheet.tsx:296-341 | from a page that exists, both buttons land on a page that exists |
| BookingSheet.CustomerOf | components/sheets/BookingSheet.tsx:118-120 | a customer is found exactly when some user has the id, and it is the last user with that id, as a `Map` built from the list keeps it |
| BookingSheet.HotelOf | components/sheets/BookingSheet.tsx:114-116 | a hotel is found exactly when some hotel has the id, and it is the last hotel with that id, as a `Map` built from the list keeps it |
| BookingSheet.FilteredBookings | components/sheets/BookingSheet.tsx:122-145 | an order-preserving subsequence of exactly the bookings that match the lower-cased query (when given) in id, customer name or hotel name and have the status (unless ALL) |
| BookingSheet.UnfilteredListsAll | components/sheets/BookingSheet.tsx:122-145 | an empty query and status ALL list every booking in order |
| BookingSheet.SearchIgnoresCase | components/sheets/BookingSheet.tsx:126-127 | a query and its lower-case form find the same bookings |
| BookingSheet.DeleteOffered | components/sheets/BookingSheet.tsx:257 | the delete button is shown exactly when a handler is given and the booking is pending |
| BookingSheet.BookingTable.constructor | components/sheets/BookingSheet.tsx:100-102 | page 1, empty query, status ALL |
| BookingSheet.BookingTable.Shown | components/sheets/BookingSheet.tsx:147-150 | at most ten bookings; for every page from 1 on, the filtered bookings from position `(page - 1) * 10` up to `page * 10`, cut at the end of the list; nothing on page 0 |
| BookingSheet.BookingTable.SetSearch | components/sheets/BookingSheet.tsx:159-162 | the query is set and the table returns to page 1; the status filter is kept |
| BookingSheet.BookingTable.SetStatus | components/sheets/BookingSheet.tsx:165-168 | the status filter is set and the table returns to page 1; the query is kept |
| BookingSheet.BookingTable.GoPrevious | components/sheets/BookingSheet.tsx:296 | the page becomes the previous one, never below 1; the filters are kept |
| BookingSheet.BookingTable.GoNext | components/sheets/BookingSheet.tsx:341 | the page becomes the next one, never past the page count of the filtered list; the filters are kept |
| BookingSheet.BookingTable.GoTo | components/sheets/BookingSheet.tsx:322 | a page link sets the page; the filters are kept |
| BookingSheet.FirstPageAfterFilterChange | components/sheets/BookingSheet.tsx:159-168 | after a filter change the page shown is the first ten matching bookings |
| UserSheet.FilteredUsers | components/sheets/UserSheet.tsx:87-101 | an order-preserving subsequence of exactly the users matching the search, the role and the status |
| UserSheet.EmptyQueryMatchesEveryone | components/sheets/UserSheet.tsx:89-93 | the empty query matches every user |
| UserSheet.UnfilteredListsAll | components/sheets/UserSheet.tsx:87-101 | an empty query with role and status ALL lists every user in order |
| UserSheet.UserTable.constructor | components/sheets/UserSheet.tsx:47-51 | page 1, ten rows, empty query, role and status ALL |
| UserSheet.UserTable.Shown | components/sheets/UserSheet.tsx:104-107 | at most a page of users; for every page from 1 on, the matching users from position `(page - 1) * pageSize` up to `page * pageSize`, cut at the end of the list; nothing on page 0 |
| UserSheet.UserTable.SetSearch | components/sheets/UserSheet.tsx:110-111 | the query is set and the table returns to page 1; the other filters and the page size are kept |
| UserSheet.UserTable.SetRole | components/sheets/UserSheet.tsx:183-185 | the role filter is set and the table returns to page 1; the rest is kept |
| UserSheet.UserTable.SetStatus | components/sheets/UserSheet.tsx:200-202 | the status filter is set and the table returns to page 1; the rest is kept |
| UserSheet.UserTable.SetPageSize | components/sheets/UserSheet.tsx:216-226 | one of the offered sizes 5, 10, 20 is set and the table returns to page 1; the filters are kept |
| UserSheet.UserTable.GoPrevious | components/sheets/UserSheet.tsx:306 | the page becomes the previous one, never below 1 |
| UserSheet.UserTable.GoNext | components/sheets/UserSheet.tsx:351 | the page becomes the next one, never past the page count of the filtered list |
| UserSheet.UserTable.GoTo | components/sheets/UserSheet.tsx:332 | a page link sets the page |
| HomeHotelList.ApprovedHotels | components/home/HotelList.tsx:13-15 | an order-preserving subsequence of the context's filtered hotels; a hotel is listed exactly when those filters let it through and it is APPROVED |
| HomeHotelList.FeaturedHotels | components/home/HotelList.tsx:12-17 | the first six approved hotels, in filtered order: each approved and filtered, exactly min(6, approved count) of them, all of them when there are at most six |
| ProviderDashboard.HotelCount | components/dashboards/provider/ProviderDashboard.tsx:46-48 | the count is the number of times the status occurs among the hotels' statuses, so never more than the hotels listed |
| ProviderDashboard.StatusCountsBounded | components/dashboards/provider/ProviderDashboard.tsx:44-49 | the draft, submitted and approved counts together never exceed the hotels listed |
| ProviderDashboard.Stats | components/dashboards/provider/ProviderDashboard.tsx:44-51 | totals are the list lengths; the draft, submitted and approved counts and the pending count are the multiplicities of those statuses among the hotels' and bookings' statuses; the three hotel counts fit in the total; the pending count is zero exactly when no booking is pending |
| ProviderDashboard.Recent | components/dashboards/provider/ProviderDashboard.tsx:130 | the first `min(5, length)` entries: a list of five or fewer is shown whole |
| ProviderDashboard.BookingLabel | components/dashboards/provider/ProviderDashboard.tsx:160 | `Booking #` followed by the id's last four characters, or the whole of a shorter id |
| ProviderDashboard.Dashboard.constructor | components/dashboards/provider/ProviderDashboard.tsx:13-15 | no hotels, no bookings, and the spinner on |
| ProviderDashboard.Dashboard.FetchData | components/dashboards/provider/ProviderDashboard.tsx:18-41 | without a user id nothing is requested or changed; otherwise the hotels then the bookings are requested (the second not after a throw), each list is replaced only by a body (`data \|\| []`), and loading ends |
| BookedHotelDetailModal.CustomerName | components/modals/BookedHotelDetailModal.tsx:105-108 | the full name of the first user with the id; "N/A" when none has it or the name is empty; never empty |
| BookedHotelDetailModal.Totals | components/modals/BookedHotelDetailModal.tsx:117-121 | the booking count is the length; confirmed fit in it, all confirmed exactly when every booking is; no bookings, no revenue |
| BookedHotelDetailModal.RevenueCountsEveryBooking | components/modals/BookedHotelDetailModal.tsx:119-121 | one more booking adds its price to the revenue whatever its status, and counts as confirmed only when it is |
| BookedHotelDetailModal.RevenueNonNegative | components/modals/BookedHotelDetailModal.tsx:121 | non-negative prices give non-negative revenue |
| BookedHotelDetailModal.BookingStatusLabel | components/modals/BookedHotelDetailModal.tsx:60-71 | any status other than the four known ones is shown as written |
| BookedHotelDetailModal.PaymentStatusLabel | components/modals/BookedHotelDetailModal.tsx:90-101 | any payment status other than the four known ones is shown as written |
| BookedHotelDetailModal.NoShowShownRaw | components/modals/BookedHotelDetailModal.tsx:60-71 | the stored status `no-show` has no label and appears raw |
| BookedHotelDetailModal.PaymentStatusesLabelled | components/modals/BookedHotelDetailModal.tsx:90-101 | every stored payment status gets a label other than its raw name |
| BookedHotelDetailModal.BookingStatusBadge | components/modals/BookedHotelDetailModal.tsx:45-56 | an unknown booking status gets the muted style |
| BookedHotelDetailModal.PaymentStatusBadge | components/modals/BookedHotelDetailModal.tsx:75-86 | an unknown payment status gets the muted style |
| BookedHotelDetailModal.Rendered | components/modals/BookedHotelDetailModal.tsx:43 | nothing is rendered exactly when there is no hotel; otherwise the hotel and a summary over all its bookings |
| BarChartCard.Insert | components/charts/BarChartCard.tsx:54 | one insertion step of the stable descending sort: the same items plus one, with the same sum |
| BarChartCard.InsertKeepsOrder | components/charts/BarChartCard.tsx:54 | inserting into a non-increasing list keeps it non-increasing |
| BarChartCard.SortedData | components/charts/BarChartCard.tsx:54 | a permutation of the data (same multiset) in non-increasing order, with the same sum |
| BarChartCard.SortedDataIdempotent | components/charts/BarChartCard.tsx:54 | sorting already ordered data returns it unchanged |
| BarChartCard.Total | components/charts/BarChartCard.tsx:55 | the sum over the sorted copy equals the sum over the data as given |
| BarChartCard.BarColor | components/charts/BarChartCard.tsx:63-66 | a non-empty own colour wins; otherwise the palette entry at the position modulo six |
| BarChartCard.Chart | components/charts/BarChartCard.tsx:57-70 | labels, values and colours line up with the sorted items, one per item, values non-increasing |
| BarChartCard.PaletteRepeats | components/charts/BarChartCard.tsx:38-46 | uncoloured bars six places apart share a colour |
| BarChartCard.TickLabel | components/charts/BarChartCard.tsx:118 | names of up to fifteen characters are shown whole; longer ones as their first fifteen characters and "..." |
| BarChartCard.TickLabelShort | components/charts/BarChartCard.tsx:118 | a label is at most eighteen characters and begins like its name |
| BarChartCard.ShowsNoData | components/charts/BarChartCard.tsx:153 | the placeholder appears exactly when the data is empty |
| HeroSlider.NextSlide | components/home/HeroSlider.tsx:52 | a valid slide index stays valid; it moves one on and wraps from the last slide to the first, i.e. `(i + 1) % 3` |
| HeroSlider.PrevSlide | components/home/HeroSlider.tsx:58 | a valid slide index stays valid; it moves one back and wraps from the first slide to the last, i.e. `(i + 2) % 3` |
| HeroSlider.ArrowsInverse | components/home/HeroSlider.tsx:57-63 | the two arrows undo each other, and three forward steps return to the start |
| HeroSlider.SearchParams | components/home/HeroSlider.tsx:66-71 | a subsequence of location, check-in, check-out, guests in that order, with no empty value |
| HeroSlider.SearchParamsInSteps | components/home/HeroSlider.tsx:68-71 | the parameters are the four conditional appends performed one after another |
| HeroSlider.ParamPresent | components/home/HeroSlider.tsx:68-71 | each parameter is sent exactly when its field is filled in |
| HeroSlider.DefaultSearch | components/home/HeroSlider.tsx:44-48 | the untouched form sends only `guests=2` |
| HeroSlider.QueryString | components/home/HeroSlider.tsx:73 | empty without parameters; when names and encoded values hold no `&`, the query splits back at `&` into exactly one `name=value` piece per parameter |
| HeroSlider.Hero.constructor | components/home/HeroSlider.tsx:44-48 | the first slide, empty fields and two guests |
| HeroSlider.Hero.Next | components/home/HeroSlider.tsx:50-53 | the index moves forward round the three slides; the form is untouched |
| HeroSlider.Hero.Prev | components/home/HeroSlider.tsx:57-59 | the index moves back round the three slides; the form is untouched |
| HeroSlider.Hero.GoTo | components/home/HeroSlider.tsx:184 | a dot selects its own slide; the form is untouched |
| HeroSlider.Hero.Search | components/home/HeroSlider.tsx:64-74 | the appended parameters are the specified ones and the address is `/hotels?` followed by their query |
| NavLayouts.IsActive | components/layouts/provider/ProviderLayout.tsx:47-49 | the root link is active only on the root; another link on its own path or below `href/`, which implies it is a prefix of the path |
| NavLayouts.AtMostOneActive | components/layouts/provider/ProviderLayout.tsx:47-49 | for separated links, at most one link is active on any path |
| NavLayouts.OneSideActive | components/layouts/provider/ProviderLayout.tsx:47-49 | with separated links, an active link makes every other one inactive |
| NavLayouts.SeparatedByFirstLetter | components/layouts/provider/ProviderLayout.tsx:19-24 | links under `root/` that differ in the next character are separated |
| NavLayouts.ProviderNavSeparated | components/layouts/provider/ProviderLayout.tsx:19-24 | the four provider links are separated |
| NavLayouts.AdminNavSeparated | components/layouts/admin/AdminLayout.tsx:21-27 | the five admin links are separated |
| NavLayouts.ProviderAtMostOneActive | components/layouts/provider/ProviderLayout.tsx:45-49 | at most one provider link is highlighted on any path |
| NavLayouts.AdminAtMostOneActive | components/layouts/admin/AdminLayout.tsx:48-52 | at most one admin link is highlighted on any path |
| NavLayouts.HotelsLinkScope | components/layouts/provider/ProviderLayout.tsx:47-49 | every path below `/provider/hotels/` highlights Hotels, a path that only continues the same word does not, and the dashboard link is off on every page below the root |
| NavLayouts.AdminLogout | components/layouts/admin/AdminLayout.tsx:34-37 | the admin is signed out (no token, no user, not authenticated) and sent to `/admin/authAdmin` |
| LoginForm.RouteFor | components/forms/auth/LoginForm.tsx:31-37 | providers go to `/provider`, admins to `/admin`, clients to `/` |
| LoginForm.RoutesDistinct | components/forms/auth/LoginForm.tsx:31-37 | two roles share a page exactly when they are the same role |
| LoginForm.Navigation | components/forms/auth/LoginForm.tsx:28-37 | there is a navigation exactly when the sign-in succeeded with a user, and it goes to that user's role page |
| LoginForm.Submit | components/forms/auth/LoginForm.tsx:23-38 | the context ends in the sign-in state from a cleared error and the server's reply; navigation as above, none on failure |
| LoginForm.FailedSignInStays | components/forms/auth/LoginForm.tsx:28 | a failed sign-in leaves an error to show and never navigates |
| HotelMediaEditor.AddedAmenity | components/modals/EditHotelModal.tsx:95-101 | the trimmed input is appended when it is not blank and not listed; otherwise the list is unchanged |
| HotelMediaEditor.RemoveAll | components/modals/EditHotelModal.tsx:104-105 | an order-preserving subsequence holding exactly the other items, each as many times as it was listed |
| HotelMediaEditor.AddKeepsDistinct | components/modals/EditHotelModal.tsx:96 | adding keeps the amenity list free of repetitions |
| HotelMediaEditor.RemoveKeepsDistinct | components/modals/EditHotelModal.tsx:105 | removing keeps a list free of repetitions |
| HotelMediaEditor.RemoveAbsent | components/modals/EditHotelModal.tsx:105 | removing an unlisted item changes nothing |
| HotelMediaEditor.AddThenRemove | components/modals/EditHotelModal.tsx:95-108 | removing the amenity just added restores the list |
| HotelMediaEditor.ImageCandidate | components/modals/EditHotelModal.tsx:147 | an explicit URL is taken as given, else the trimmed input box |
| HotelMediaEditor.AddedImage | components/modals/EditHotelModal.tsx:146-157 | a non-blank candidate that parses as a URL is appended; anything else leaves the list |
| HotelMediaEditor.BlankUrlIgnored | components/modals/EditHotelModal.tsx:147-148 | a URL box of white space adds nothing |
| HotelMediaEditor.TrimAllSpace | components/modals/EditHotelModal.tsx:147 | white space trims to the empty string |
| HotelMediaEditor.ImageMayRepeat | components/modals/EditHotelModal.tsx:151 | the same image URL can be added twice |
| HotelMediaEditor.MediaEditor.constructor | components/modals/EditHotelModal.tsx:58-60 | the given lists with empty input boxes |
| HotelMediaEditor.MediaEditor.AddAmenity | components/modals/EditHotelModal.tsx:95-102 | the list becomes the added list; the box is cleared exactly when something was added; images untouched |
| HotelMediaEditor.MediaEditor.RemoveAmenity | components/modals/EditHotelModal.tsx:104-108 | the amenity is removed everywhere; nothing else changes |
| HotelMediaEditor.MediaEditor.AddImageByUrl | components/modals/EditHotelModal.tsx:146-157 | the images become the added list; the URL box is cleared exactly when an image was added; amenities untouched |
| HotelMediaEditor.MediaEditor.RemoveImage | components/modals/EditHotelModal.tsx:159-161 | the image is removed everywhere; nothing else changes |
| EditHotelModal.ParseHotelForm | components/modals/EditHotelModal.tsx:33-40 | accepted exactly when name and address are non-empty, the rating is 1 to 5 and the status one of four, yielding the values; otherwise the errors name exactly the failing fields |
| EditHotelModal.LoadedHotelValid | components/modals/EditHotelModal.tsx:78-85 | a loaded hotel passes exactly when its name and address are non-empty, its rating is 1 to 5 and it is not PENDING |
| EditHotelModal.DefaultsRefused | components/modals/EditHotelModal.tsx:72-74 | the default form fails on name, address and rating only |
| EditHotelModal.Strings | components/modals/EditHotelModal.tsx:169 | one JSON string per item, in order |
| EditHotelModal.DataRecord | components/modals/EditHotelModal.tsx:169 | only schema keys are written: name, address, rating and status always, with their values; description and amenities exactly when present |
| EditHotelModal.PatchBody | components/modals/EditHotelModal.tsx:169 | the data's keys plus amenities and images, which come from the dialog's lists; other fields copied |
| EditHotelModal.PatchUrl | components/modals/EditHotelModal.tsx:166 | `/api/hotels/` and the hotel's id, or `undefined` without a hotel |
| EditHotelModal.SubmitRequest | components/modals/EditHotelModal.tsx:163-172 | a request is sent exactly when the schema accepts the form, to the patch URL with the patch body |
| EditHotelModal.SentStatusEditable | components/modals/EditHotelModal.tsx:38 | a sent body has a non-empty name and one of the four editable statuses |
| EditHotelModal.EditHotelDialog.constructor | components/modals/EditHotelModal.tsx:58-75 | the default form, which is also what a reset restores, with empty lists |
| EditHotelModal.EditHotelDialog.Load | components/modals/EditHotelModal.tsx:77-93 | an open dialog on a hotel holds its values and lists, and those values become the defaults; anything else restores the current defaults with empty lists; input boxes untouched |
| ProviderCreateHotelModal.ParseCreateForm | components/modals/ProviderCreateHotelModal.tsx:17-26 | accepted exactly when name and address are non-empty, the rating is 1 to 5, rooms at least one and both times set, yielding the values; otherwise the errors name exactly the failing fields, each of the six, and nothing else |
| ProviderCreateHotelModal.DefaultsMeetNumericRules | components/modals/ProviderCreateHotelModal.tsx:58-63 | the defaults fail on name and address only |
| ProviderCreateHotelModal.DefaultsWithNameAccepted | components/modals/ProviderCreateHotelModal.tsx:58-63 | the defaults plus a name and an address are accepted |
| ProviderCreateHotelModal.DataRecord | components/modals/ProviderCreateHotelModal.tsx:98 | only schema keys are written: name, address, rating, room count, check-in and check-out times always, with their values; description and amenities exactly when present |
| ProviderCreateHotelModal.CreateBody | components/modals/ProviderCreateHotelModal.tsx:87-93 | the data's keys plus amenities, images, the owner and status DRAFT, which override the data; other fields copied |
| ProviderCreateHotelModal.CreateHotelDialog.constructor | components/modals/ProviderCreateHotelModal.tsx:43-63 | the default form, a fresh editor with empty lists, not submitting |
| ProviderCreateHotelModal.CreateHotelDialog.Submit | components/modals/ProviderCreateHotelModal.tsx:81-115 | the form goes through `handleSubmit` (line 182): a form the schema refuses sends nothing and changes nothing; for an accepted form, without a user id nothing is sent, else the create body of exactly the parsed values is sent, and a created hotel resets the form and amenities but not the images; not submitting afterwards |
| EditUserModal.IdentityIssues | components/modals/EditUserModal.tsx:28-31 | each identity field is reported exactly when its rule fails |
| EditUserModal.ProfileIssues | components/modals/EditUserModal.tsx:32-40 | each profile field is reported exactly when its rule fails |
| EditUserModal.FieldIssues | components/modals/EditUserModal.tsx:27-42 | no issue exactly when every field rule passes; the confirmation is never a field issue |
| EditUserModal.MismatchIssue | components/modals/EditUserModal.tsx:34-46 | the password confirmation is reported exactly when the passwords differ and the role is inside the enum |
| EditUserModal.ParseUserForm | components/modals/EditUserModal.tsx:27-46 | accepted exactly when every field passes and the passwords agree, yielding the values; otherwise the errors are the failing fields plus `confirmPassword` exactly when the passwords differ and the role is valid |
| EditUserModal.OnlyInvalidRoleHidesMismatch | components/modals/EditUserModal.tsx:34-46 | different passwords are always refused, with every failing field reported, and the mismatch is missing from the errors exactly when the role is outside the enum |
| EditUserModal.MismatchReportedWithBlankFields | components/modals/EditUserModal.tsx:27-46 | a blank form with two different six-letter passwords reports the blank fields and `confirmPassword` together, and not the password |
| EditUserModal.DefaultsRefused | components/modals/EditUserModal.tsx:74-87 | the defaults fail on name, phone, user name, password, gender and birthday but not on role or age |
| EditUserModal.LoadedFormNeedsPassword | components/modals/EditUserModal.tsx:94-109 | a loaded user cannot be saved as is: the password is reported |
| EditUserModal.NewPasswordSaves | components/modals/EditUserModal.tsx:94-109 | for valid details, typing one new password of six or more characters twice is accepted |
| EditUserModal.EditUserDialog.constructor | components/modals/EditUserModal.tsx:63-88 | the default form, not submitting |
| EditUserModal.EditUserDialog.Load | components/modals/EditUserModal.tsx:94-112 | a user's fields are loaded with both password boxes empty; no user resets the form |
| EditUserModal.EditUserDialog.Submit | components/modals/EditUserModal.tsx:114-123 | only a form the schema accepts is saved, with its values, and only then does the dialog close |
| Json.Or | app/api/hotels/route.ts:43 | a truthy value is kept; undefined, null, false, 0 and "" give the fallback |
| Json.OptionalField | app/api/auth/login/route.ts:39 | the key is written exactly when the value is defined, and nothing else is |
| Json.Without | app/api/auth/login/route.ts:39 | exactly the other keys remain, each with its value |
| Json.Spread | app/api/hotels/route.ts:40-45 | the keys of the id, the body and the server fields; a body `_id` replaces the id; server fields win over the body; other body fields copied |
| Json.StrictEqualsString | app/api/auth/login/route.ts:21 | comparing with `===` against a string is equality with that string |
| Numbers.CeilDiv | components/sheets/BookingSheet.tsx:147 | the least integer not below the exact quotient |
| Numbers.CeilDivUnique | components/sheets/BookingSheet.tsx:147 | that integer is unique, so the definition is the rounded-up quotient and nothing else |
| Numbers.JsRem | components/home/HeroSlider.tsx:52 | for a non-negative dividend the usual remainder below the divisor; for a negative one minus the remainder of its absolute value, so zero or negative |
| Strings.ToLower | components/sheets/UserSheet.tsx:90-93 | same length, each character lower-cased on its own |
| Strings.ToLowerIdempotent | components/sheets/UserSheet.tsx:90-93 | lower-casing twice is lower-casing once |
| Strings.ContainsWitness | components/sheets/UserSheet.tsx:90-93 | `includes` holds exactly when the query occurs at some position |
| Strings.Trim | components/modals/EditHotelModal.tsx:96 | the input with a run of white space cut from each end: neither end of the result is white space, and a string without white space is unchanged |
| Strings.TrimStart | components/modals/EditHotelModal.tsx:96 | a suffix of the input not starting with white space, before which only white space stands |
| Strings.TrimEnd | components/modals/EditHotelModal.tsx:96 | a prefix of the input not ending in white space, after which only white space follows |
| Strings.Split | app/api/auth/logout/route.ts:10-11 | one piece more than there are separators, and no piece holds the separator |
| Strings.JoinSplit | app/api/auth/logout/route.ts:11-12 | joining the pieces with the separator gives back the string |
| Strings.SplitJoin | app/api/auth/logout/route.ts:11-12 | pieces without the separator come back from a split of their join |
| Strings.SplitConcat | app/api/auth/logout/route.ts:10 | splitting around one separator splits each side apart |
| Strings.Hex | app/api/auth/forgot/route.ts:25 | two characters per byte, all lower-case hex digits, the pair at `2i` being byte `i`'s high and low nibble |
| Strings.HexByte | app/api/auth/forgot/route.ts:25 | two hexadecimal digits whose values, high one first, make up the byte |
| Strings.HexDigit | app/api/auth/forgot/route.ts:25 | a lower-case hexadecimal digit whose value is the nibble |
| Seqs.Filter | components/sheets/UserSheet.tsx:87-101 | an order-preserving subsequence holding exactly the elements that pass |
| Seqs.FilterMultiset | components/sheets/UserSheet.tsx:87-101 | each element that passes is kept as many times as it occurs, every other one is dropped |
| Seqs.FilterCountsKey | components/dashboards/provider/ProviderDashboard.tsx:46-48 | filtering on one key value keeps as many elements as that value occurs among the keys |
| Seqs.FilterAppend | components/sheets/UserSheet.tsx:87-101 | filtering a concatenation is the concatenation of the filtered parts |
| Seqs.FilterTwice | app/api/hotels/route.ts:19-22 | two filters in a row equal one filter on both conditions |
| Seqs.FindIndex | app/api/auth/login/route.ts:29 | the first index that passes, or none exactly when no element passes |
| Seqs.Find | app/api/auth/login/route.ts:21 | the first element that passes, or none exactly when no element passes |
| Seqs.Take | components/home/HotelList.tsx:16 | a prefix of the requested length, or the whole of a shorter sequence |
| Seqs.FindLast | app/api/auth/refresh/route.ts:16 | the last element that passes, or none exactly when no element passes |
| Seqs.FilterNoDuplicates | components/modals/EditHotelModal.tsx:105 | filtering a list without repetitions gives a list without repetitions |
| Strings.NatToString | app/api/hotels/route.ts:41 | at least one character, all decimal digits, whose value is the number, with no leading zero |
| Strings.NatToStringInjective | app/api/hotels/route.ts:41 | different numbers render as different texts |
| Strings.LowerChar | components/sheets/UserSheet.tsx:90 | never an upper-case ASCII letter; upper-case ASCII letters become their lower-case letter and all else is unchanged |
| Strings.SplitAtFirst | app/api/auth/logout/route.ts:11 | the first piece of `a=b` is `a` when `a` holds no `=`: the key is what precedes the first separator |

## Left out

- **I/O.** The JSON file is the class `MockData.JsonFile`, holding its contents and its backup. Reading and writing `app/data/mockData.json`, `mkdirSync`, and saving an uploaded file to disk are not modelled.
- **Server failures.** A body that does not parse as JSON, a failed file read, and any other exception that a route's `catch` turns into a 500 are not modelled. Each route receives its already parsed body as a `Json.Record`.
- **Non-object bodies.** A request body that is not a JSON object is not modelled.
- **Inherited keys.** Keys inherited from `Object.prototype` in a record look-up are not modelled.
- **The clock.** `Date.now()` and `new Date().toISOString()` are parameters: whole milliseconds, and an ISO text the model does not interpret.
- **Randomness.** `crypto.randomBytes(20)` is a parameter: the byte sequence the forgot route turns into hex.
- **Crypto and encoding.** Base64, HMAC-SHA256, UTF-8, `JSON.stringify` and `JSON.parse` are the fields of `Jwt.Codec`. The round-trip lemmas take the laws they need (decode after encode, a base64 alphabet without `.`) as preconditions.
- **URLs.** `URLSearchParams` value encoding and `new URL` validation are function parameters (`encode`, `parses`).
- **E-mail check.** zod's e-mail rule is a parameter (`isEmail`).
- **Network replies.** Every `fetch` reply the client code awaits is a parameter of the method that awaits it, such as `LoginReply`, `RefreshReply`, `Fetched`, a `created` flag or a `SaveReply`. Headers, status codes beyond ok/401, and response bodies the code ignores are not modelled.
- **Concurrency.**
  - Requests run one at a time; concurrent requests racing on the JSON file (last write wins) are not modelled.
  - The upload batching in `handleFiles` is not modelled. Its promise callbacks share a counter, in `components/modals/EditHotelModal.tsx:110-138` and `components/modals/ProviderCreateHotelModal.tsx:118-146`.
  - React's asynchronous state updates are taken to apply in program order.
- **Rendering.** JSX, toasts, `alert`, `console`, `setTimeout` delays, open/close flags of dialogs, and the chart libraries' drawing are not modelled.
- **The slider timer.** The five-second timer is modelled only through the tick it performs, `Hero.Next`.
- **Authorisation and payments outside this model.** The `PATCH` handlers for `/api/hotels/[id]` and `/api/bookings/[id]`, which would hold any role or ownership checks, are not part of this model. Neither is the `PaymentStatusSelector` the booking table imports. No role guard is modelled, because none exists in the code modelled here.
- **BookingConfirmModal.Nights:** takes the two dates as whole milliseconds. The dialog builds them with `new Date(...)` from the booking's date texts (`components/modals/BookingConfirmModal.tsx:98-102`), and a text that does not parse gives `NaN` nights there. Date parsing is not modelled.
- **NavLayouts.AdminLogout:** signs out and then navigates. `components/layouts/admin/AdminLayout.tsx:34-37` calls the asynchronous `logout()` without awaiting it and navigates straight away, so the navigation can happen before the sign-out request and the state reset finish. That ordering is not modelled.
- **Jwt.ExpiryOf:** an `exp` that is a string, an array or an object skips the expiry check. In `lib/jwt.ts:35` such a truthy `exp` is converted to a number by `now > payload.exp`. A string is read as a number after its surrounding white space is dropped: a numeric text compares as its number, and a blank text such as `"  "` compares as 0, so the token is expired at once. An array is first joined into text and then read the same way: `[]` compares as 0 and expires at once, and a one-element array such as `[5]` compares as its element's text does. Any other text, an array of two or more elements (its text holds a comma) and a plain object compare as `NaN`, so the token never expires. Type coercion is not modelled. Tokens that `Jwt.Sign` produces always carry a numeric `exp`.
- **Session hydration and registration.** `AuthProvider`'s on-mount effect, which restores a session through the refresh route (`app/contexts/AuthContext.tsx:83-104`), and its `register` method (`app/contexts/AuthContext.tsx:129-150`) are not modelled. Both only await a request and dispatch actions that `AuthContext.Reduce` already models; `register` dispatches `LOGIN_SUCCESS` with the created user without storing an access token.
- **Floating point.** JavaScript numbers are modelled as unbounded integers. Fractional prices, ratings or ages and floating-point rounding are not modelled. `Math.ceil` of a quotient is integer ceiling division (`Numbers.CeilDiv`) over whole milliseconds.
- **Strings.** Strings are sequences of characters.
  - String lengths in the schemas count characters, not UTF-16 code units.
  - The upload route's sanitising counts UTF-16 code units explicitly, since its regular expression does.
- **Strings.LowerChar:** lower-cases only the ASCII letters. The full Unicode case mapping of `toLowerCase` is not modelled.
- **Json.StrictEquals:** treats two arrays or objects as never equal, because object identity is not modelled. That matches JavaScript wherever the two sides are different values, but not where the source compares a value with itself.
- **LoginRoute.Login:** `app/api/auth/login/route.ts:29` compares the signed-in user's own `_id` with itself, so in JavaScript an object or array `_id` still matches that user's row and receives the refresh token. With such an `_id`, `LoginRoute.Login` and the `AuthTokens.UpdateFirst` it calls find no row and store nothing; `LoginRoute.LoginStoresRefreshToken` therefore assumes string ids. The refresh route's look-up at `app/api/auth/refresh/route.ts:48` is not affected: its user has already matched the token's `sub` at line 41, so its `_id` is a primitive value or absent.
- **Sort stability.** `BarChartCard.SortedData` is an insertion sort that places equal values in input order, as the stable `Array.prototype.sort` does. The stability is not stated as a separate property.
- **Unused form field.**
  - `addAmenity` also copies the list into the form field `amenities` (`setValue`).
  - `EditHotelModal.PatchBody` and `ProviderCreateHotelModal.CreateBody` replace that field with the dialog's own list, so its value is not tracked.
  - `EditHotelModal.ValuesOf` therefore leaves `amenities` unset.
- **Unreachable `SET_HOTELS`.** `SET_HOTELS` has no reducer case. `HotelContext.Reduce` returns the state unchanged for it. No provider method sends it.
- **BookedHotelDetailModal.BookingStatusLabel:** states only the fallback for statuses without a label. The Vietnamese label texts of the four known statuses are in the body, not the contract.
- **BookedHotelDetailModal.PaymentStatusLabel:** likewise states only the fallback. That each stored payment status gets a label of its own is the lemma `PaymentStatusesLabelled`.
- **BookedHotelDetailModal.BookingStatusBadge:** states only the muted style for unknown statuses. The colour classes of the known statuses are not restated.
- **BookedHotelDetailModal.PaymentStatusBadge:** likewise states only the muted style for unknown statuses.
- **Id generators.**
  - `HotelsRoute.HotelId`, `BookingsRoute.BookingId` and `UsersRoute.UserId` carry no `ensures` of their own.
  - Their format and injectivity are the lemmas `HotelIdDigits`/`HotelIdInjective`, and the same pairs for bookings and users.
  - The record builders take the generated id as a parameter.
