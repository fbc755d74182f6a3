# Hotel management backend: validation, authentication and ownership rules

This project models the decision logic of an Express/MongoDB hotel-booking
backend, and proves properties about that logic. The parts modelled are:

- the input validators;
- the authentication middleware (`protect`, `authorizeRoles`);
- the accommodation, message, wishlist and user routes, over an in-memory document store;
- the error responder;
- the logger's level filter and line format.

Each collection of the store is a class (`Models.UserCollection`,
`Models.AccommodationCollection`, `Models.MessageCollection`,
`Models.WishlistCollection`). It holds its documents as a sequence in natural
(insertion) order, together with a counter that hands out fresh ids. Its
`Valid()` invariant says that ids are unique and below the counter.

The store operations are modelled as follows:

- `findOne` and `findById` are the first match;
- `find` is a filter;
- `remove`, `findOneAndDelete` and `findByIdAndDelete` remove one position;
- `.sort({ createdAt: 1 })` is an ordering by that key.

A route handler that changes the store is a method over the collection it
uses. The read-only queries `MessageRoutes.GetById`,
`MessageRoutes.Conversation` and `WishlistRoutes.List` are functions over the
collection's sequence of documents. Every handler returns a `Models.Reply`,
which is one of three outcomes:

- `Respond(status, body)`: the handler answers itself;
- `Reject(status, message)`: the handler answers with an error status and `{ message }`;
- `Forward(err)`: the handler calls `next(err)`, and the error responder later
  decides the answer.

Every method that changes the store states its complete new state: the
documents and the id counter. Every error path leaves the store unchanged.

Not everything in the source is modelled directly. The following become
parameters of the members that use them:

- token verification and signing (`jsonwebtoken`);
- password hashing and comparison (`bcryptjs`);
- `Number(...)`;
- `new Date(...)`;
- the creation timestamp;
- `NODE_ENV`, `LOG_LEVEL` and the log timestamp.

Two places where the code does not match its own design are handled as
follows:

- **The validation result (an abstraction of the design, not the code as
  written).** The routes destructure `{ error, value }` from their validator
  and read `error.details[0].message`. The validators in
  `src/utils/validator.js`, however, return an array of message strings, so
  as written both `error` and `value` are always undefined. The route
  handlers instead take their validation step as an abstract `Result`: the
  error message, or the validated body. That is the behaviour the routes are
  designed for; what the code as written does instead is listed under
  "## Left out". The step is not connected to the `Validator` module.
- **The status field (modelled as the code is written).** The middleware and the wishlist routes throw errors
  that carry a `status` field. The error responder reads only `statusCode`.
  Such an error is therefore answered with 500, whatever its `status` says.
  `ErrorMiddleware.StatusFieldIsIgnored` proves this.

## Model

| member | source | states |
|---|---|---|
| Validator.IsValidEmailMeaning | src/utils/validator.js:1-5 | `isValidEmail` is false for every non-string; on strings it is true iff the string is `A@B.C` with A, B, C non-empty and free of whitespace and `@` |
| Validator.EmailTextIsShape | src/utils/validator.js:3-4 | splitting at the first `@` accepts exactly the strings of the pattern's language |
| Validator.EmailTextHasShape | src/utils/validator.js:3-4 | every accepted string has the `A@B.C` shape |
| Validator.ShapeIsEmailText | src/utils/validator.js:3-4 | every string of the `A@B.C` shape is accepted |
| Validator.EmailCharsAroundDot | src/utils/validator.js:3 | a run of `[^\s@]` containing a dot is the two runs on either side of it |
| Validator.ValidEmailHasOneAt | src/utils/validator.js:1-5 | an accepted e-mail address contains exactly one `@` |
| Validator.ScanPasswordMeaning | src/utils/validator.js:9-10 | the one-pass match succeeds iff there is no line terminator and a lower-case letter, an upper-case letter and a digit each occur |
| Validator.IsStrongPasswordMeaning | src/utils/validator.js:7-11 | `isStrongPassword` is true iff the value is a string of length at least 8, with no line terminator, and at least one `[a-z]`, one `[A-Z]` and one `[0-9]` |
| Validator.Collect | src/utils/validator.js:19-28 | the collected list is no longer than the list of checks, and is empty iff no check failed |
| Validator.CheckPositionsSource | src/utils/validator.js:19-28 | every collected message is the message of a failed check at its recorded position |
| Validator.CheckPositionsIncrease | src/utils/validator.js:19-28 | the recorded positions strictly increase: messages come in check order, at most one per check |
| Validator.CollectMembers | src/utils/validator.js:19-28 | a message is in the list iff some check emitted it |
| Validator.ValidateUser | src/utils/validator.js:13-29 | the error list built step by step equals `UserErrors(data)` |
| Validator.ValidateAccommodation | src/utils/validator.js:31-50 | the error list built step by step equals `AccommodationErrors(data)` |
| Validator.ValidateBooking | src/utils/validator.js:52-72 | the error list built step by step equals `BookingErrors(data, parseDate)` |
| Validator.ValidateReview | src/utils/validator.js:74-93 | the error list built step by step equals `ReviewErrors(data)` |
| Validator.ValidateMessage | src/utils/validator.js:95-111 | the error list built step by step equals `MessageErrors(data)` |
| ValidatorProperties.FalsyDataIsRequired | src/utils/validator.js:15-18 | for falsy data each validator returns exactly its "... data is required" message, and no other check runs |
| ValidatorProperties.ErrorCountBounds | src/utils/validator.js:14-110 | at most 3 messages for user, booking and message data; at most 4 for accommodation and review data |
| ValidatorProperties.UserAccepted | src/utils/validator.js:19-28 | `validateUser` returns `[]` iff the data is truthy, the email is truthy and valid, the password is truthy and strong, and the username is falsy or a string |
| ValidatorProperties.AccommodationAccepted | src/utils/validator.js:37-49 | no error iff name and location are non-empty strings, pricePerNight is a positive number and maxGuests is a positive integer |
| ValidatorProperties.BookingDateErrors | src/utils/validator.js:64-70 | "startDate must be before endDate" iff both dates parse and start >= end; "Valid startDate..." iff a date does not parse; never both |
| ValidatorProperties.ReviewRatingAccepted | src/utils/validator.js:86-88 | the rating passes iff it is a number r with 1 <= r <= 5 |
| ValidatorProperties.MessageContentRejected | src/utils/validator.js:107-109 | the content error appears iff the content is falsy, not a string, or only whitespace |
| Strings.TrimStart | src/utils/validator.js:107 | only leading whitespace is removed, and the result does not start with whitespace |
| Strings.TrimEnd | src/utils/validator.js:107 | only trailing whitespace is removed, and the result does not end with whitespace |
| Strings.TrimEmptyIffBlank | src/utils/validator.js:107 | `trim()` gives `''` iff every character is whitespace |
| Strings.Split | src/middleware/authMiddleware.js:13 | `split` on one character gives at least one part, and no part contains the separator |
| Strings.JoinSplit | src/middleware/authMiddleware.js:13 | joining the split parts with the separator gives back the string |
| Strings.SplitJoin | src/middleware/authMiddleware.js:13 | splitting the join of separator-free parts gives back the parts |
| Strings.SplitWithoutSeparator | src/middleware/authMiddleware.js:13 | a string without the separator splits into itself alone |
| Strings.SplitAtFirstSeparator | src/middleware/authMiddleware.js:13 | the first separator ends the first part, and the rest splits on its own |
| Strings.SplitFirstPart | src/middleware/authMiddleware.js:13 | the first part is the text up to the first separator |
| Strings.TakeUntil | src/middleware/authMiddleware.js:13 | the longest separator-free prefix, followed by the separator, if anything follows |
| AuthMiddleware.BearerSplit | src/middleware/authMiddleware.js:13 | after the "Bearer " prefix `split(' ')[1]` always exists, and is the text after the prefix up to the next space |
| AuthMiddleware.BearerToken | src/middleware/authMiddleware.js:7-13 | a token is read iff the header is present and starts with exactly "Bearer "; it is the text after the prefix up to the next space |
| AuthMiddleware.BearerTokenExamples | src/middleware/authMiddleware.js:8-13 | "Bearer  x" gives the empty token, "Bearer abc def" gives "abc", "bearer abc" and "Bearer" give none |
| AuthMiddleware.Protect | src/middleware/authMiddleware.js:5-26 | missing or malformed header: a status-401 error and no user attached; verification failure: that error is passed on; unknown id: a status-401 error and no user; otherwise the stored user, without the password, is attached and `next()` is called with no error |
| AuthMiddleware.AuthorizeRoles | src/middleware/authMiddleware.js:28-42 | no user: a status-401 error; a role not listed: a status-403 error; otherwise proceed |
| AuthMiddleware.AuthorizeRolesDecision | src/middleware/authMiddleware.js:30-39 | without a user the answer does not depend on the roles; the status is 403 iff the user's role is not listed |
| AccommodationRoutes.ListAll | src/routes/accommodationRoutes.js:10-18 | 200 with every stored accommodation |
| AccommodationRoutes.BuildQuery | src/routes/accommodationRoutes.js:23-26 | the city pattern is set iff given; `$gte` is present iff minPrice is given and `$lte` iff maxPrice is given, each holding its parsed bound; the second bound does not overwrite the first |
| AccommodationRoutes.Search | src/routes/accommodationRoutes.js:21-33 | 200 with exactly the stored accommodations whose city contains the pattern, ignoring case, and whose price satisfies every bound given; the results are the store filtered by that condition, so they keep store order (`Collections.FilterAppend`) |
| AccommodationRoutes.Create | src/routes/accommodationRoutes.js:36-49 | 400 with the validation message and no change; otherwise one document with a fresh id is appended, its owner is the caller whatever the body says, and 201 |
| AccommodationRoutes.GetById | src/routes/accommodationRoutes.js:52-63 | 200 with the document with that id iff one exists, otherwise 404 "Accommodation not found" |
| AccommodationRoutes.Merge | src/routes/accommodationRoutes.js:79 | the body's fields replace or extend the document's; the id, the owner and the other fields stay |
| AccommodationRoutes.Update | src/routes/accommodationRoutes.js:66-86 | 404 for a missing id whoever asks, then 403 for a non-owner, then 400 for an invalid body, all with no change; otherwise only that document is replaced by the merge, 200 |
| AccommodationRoutes.Delete | src/routes/accommodationRoutes.js:89-104 | 404 for a missing id, then 403 for a non-owner, with no change; otherwise exactly that document is removed, no document with that id remains, 204 |
| MessageRoutes.Send | src/routes/messageRoutes.js:10-30 | 400 with no change when the recipient or the content is missing; otherwise one message is appended with the caller as sender, 201 |
| MessageRoutes.GetById | src/routes/messageRoutes.js:35-48 | 200 iff a message with that id has the caller as sender or recipient; otherwise the same 404 as for a missing id |
| MessageRoutes.Conversation | src/routes/messageRoutes.js:53-68 | exactly the messages from me to the other user and from the other user to me, with their multiplicities, in non-decreasing `createdAt` order |
| MessageRoutes.Delete | src/routes/messageRoutes.js:73-89 | succeeds iff a message with that id was sent by the caller; then exactly that message is removed, 200 "Message removed"; otherwise 404 and no change |
| Collections.FilterSame | src/routes/accommodationRoutes.js:27 | the store query and the search condition it was built from select the same documents, in the same order |
| Collections.FilterAppend | src/routes/wishlistRoutes.js:11 | `find` keeps store order: the filter of a concatenation is the concatenation of the filters |
| WishlistRoutes.List | src/routes/wishlistRoutes.js:9-17 | 200 with exactly the items whose user is the caller, as the store filtered by that condition, so in store order |
| WishlistRoutes.AppendKeepsPairsUnique | src/routes/wishlistRoutes.js:28-34 | appending an unsaved (user, accommodation) pair keeps pairs unique |
| WishlistRoutes.RemoveKeepsPairsUnique | src/routes/wishlistRoutes.js:45 | removing an item keeps pairs unique |
| WishlistRoutes.Add | src/routes/wishlistRoutes.js:20-40 | missing accommodation or an already saved pair: a status-400 error and no change; otherwise a new item for the caller, 201; unique pairs are preserved |
| WishlistRoutes.Delete | src/routes/wishlistRoutes.js:43-56 | succeeds iff an item with that id belongs to the caller; then exactly it is removed, 200; otherwise a status-404 error and no change |
| UserRoutes.Register | src/routes/userRoutes.js:20-51 | 400 with the validation message, or 400 "User already exists" for a taken email, with no change; otherwise exactly one user with the given name and email is added, storing `hash(password)`, and 201 with id, name, email and token only |
| UserRoutes.Login | src/routes/userRoutes.js:56-80 | 400 when email or password is empty, before any lookup; the same 401 "Invalid credentials" for an unknown email and for a wrong password; otherwise 200 with id, name, email and token only |
| UserRoutes.GetMe | src/routes/userRoutes.js:85-95 | 200 with the caller's record without its password, or 404 when it no longer exists |
| UserRoutes.HashPassword | src/routes/userRoutes.js:106-110 | the password is replaced by its hash iff a non-empty one is given; the other fields are untouched |
| UserRoutes.ApplyUpdate | src/routes/userRoutes.js:106-114 | each given field of the user schema (name, email, password, role) replaces the stored one, so the role changes iff the update gives one; the id stays |
| UserRoutes.UpdateMe | src/routes/userRoutes.js:100-119 | 400 with the validation message and no change; otherwise only the caller's record changes, by every given field including a role, with the password hashed, and it is returned without the password, or null when it is gone |
| UserRoutes.DeleteMe | src/routes/userRoutes.js:124-131 | only the caller's record is removed, if present; always 200 "User deleted successfully" |
| BookingRoutes.BookingInput | src/routes/bookingRoutes.js:10 | the booking input is the body with `userId` set to the caller's id, overriding the body's; every other field stays |
| Models.ProfileOf | src/middleware/authMiddleware.js:15 | `.select('-password')`: every field of the user except the password |
| Models.StatusError | src/middleware/authMiddleware.js:9-10 | a thrown error carries its message and `status`, and no `statusCode` |
| Models.UserCollection.IndexOf | src/middleware/authMiddleware.js:15 | `findById`: the position of the user with that id, or none iff there is no such user |
| Models.UserCollection.IndexOfEmail | src/routes/userRoutes.js:29 | `findOne({ email })`: the first user with that email, or none iff there is none |
| Models.AccommodationCollection.IndexOf | src/routes/accommodationRoutes.js:54 | `findById`: the position of the accommodation with that id, or none iff there is none |
| ErrorMiddleware.ErrorHandler | src/middleware/errorMiddleware.js:3-17 | status is `statusCode` if truthy, else 500; message is `message` if non-empty, else "Internal Server Error"; the stack is included iff NODE_ENV is "development" |
| ErrorMiddleware.StatusFieldIsIgnored | src/middleware/errorMiddleware.js:4 | an error carrying only `status`, as thrown at authMiddleware.js:9-10, is answered with 500 |
| Logger.LevelsStrictlyOrdered | src/utils/logger.js:3-8 | the table holds exactly error = 0, warn = 1, info = 2, debug = 3 |
| Logger.CurrentLevel | src/utils/logger.js:10 | LOG_LEVEL lower-cased, or "info" when unset or empty |
| Logger.CurrentLevelExamples | src/utils/logger.js:10 | unset and empty give "info"; "DEBUG" gives "debug" |
| Logger.ShouldLogMonotone | src/utils/logger.js:12-14 | if a level is logged, every lower level is logged too |
| Logger.ThresholdExtremes | src/utils/logger.js:12-14 | "error" is logged under every recognised threshold; under an unrecognised one nothing is logged |
| Logger.FormatMessage | src/utils/logger.js:16-19 | the line is the timestamp, " [", the upper-cased level, "] " and the message |
| Logger.Emit | src/utils/logger.js:21-42 | a logger method writes a line iff `shouldLog` holds for its own level, and the line is the formatted message |
| Strings.ToUpper | src/utils/logger.js:18 | same length; no lower-case ASCII letter remains; each character agrees with the input up to case |
| Strings.ToLower | src/utils/logger.js:10 | same length; no upper-case ASCII letter remains; each character agrees with the input up to case |
| JsValues.TypeOf | src/utils/validator.js:2 | `typeof` is "string" exactly for strings and "number" exactly for numbers |

## Left out

- Token signing and verification, and password hashing and comparison, are
  uninterpreted function parameters. Signature, expiry (the 30-day `expiresIn`)
  and the default secret are not modelled. Nothing is proved about tampering.
- `Number(...)` and `new Date(...)` are parameters (`toNumber`, `parseDate`).
  Numbers are finite reals, so NaN and Infinity are not modelled; for example,
  NaN passing the `pricePerNight <= 0` check is not captured.
- Mongoose schema casting and schema validation are not modelled. This
  includes `runValidators` on the profile update, and the schema's default
  role, which is the `defaultRole` of the user collection.
- The route validation step is an abstract `Result`, as described above. The
  `{ partial: true }` option and `error.details[0]` are not modelled further.
  The code as written behaves differently, because destructuring the
  validators' array gives `error === undefined` and `value === undefined`
  (`src/routes/userRoutes.js:22` and `:102`,
  `src/routes/accommodationRoutes.js:38` and `:75`). That behaviour is not
  modelled:
  - none of the 400 validation branches can fire;
  - register throws a TypeError at `const { name, email, password } = value`
    (`src/routes/userRoutes.js:26`), which goes to `next(err)` and is
    answered with 500;
  - accommodation create saves `{ owner }` alone;
  - accommodation update and PUT `/me` change nothing.
- UserRoutes.ApplyUpdate: the update carries the fields of the user schema
  (name, email, password, role). Other keys in the body are not modelled:
  Mongoose's strict mode drops them. An `_id` key is not modelled either.
- Ids in request bodies, such as `recipientId` and `accommodation`, are
  `Option<Id>`, where None stands for missing or falsy. Body strings, such as
  `content` and the login fields, are strings, where "" stands for missing or
  falsy. Non-string values in those fields are not modelled. A malformed id,
  which the store would reject with a cast error, is not modelled either.
- AccommodationRoutes.Merge: an `owner` key in an update body is not applied.
  The body's other fields are merged, but the owner stays as stored. What
  Mongoose would do with an `owner` value from the body is not modelled.
- AccommodationRoutes.CityMatches: `$regex` with `$options: 'i'` is modelled as
  a case-insensitive literal substring. Regular-expression metacharacters in
  the city parameter are not interpreted.
- Strings.ToUpper and Strings.ToLower map ASCII letters only. Unicode case
  mapping is not modelled. String lengths count one character per UTF-16
  code unit, but surrogate pairs are not modelled.
- Console output is not modelled: every `logger.*` call in the routes and the
  error responder's log line (`src/middleware/errorMiddleware.js:8`). `Logger.Emit`
  gives the line that would be written.
- Models.StatusError: the stack text of an error is "" (stack traces are not modelled).
- The async scheduling of the handlers and races between concurrent requests
  are not modelled. Each handler runs atomically on the store.
- `src/database/database.js` is not modelled: it is connection I/O and `process.exit`.
- `src/routes/reviewRoutes.js` is not modelled. Apart from `BookingRoutes.BookingInput`,
  `src/routes/bookingRoutes.js` is not modelled either. Both delegate to
  controllers that are not part of this model.
- The default-export import of the authentication middleware in
  `src/routes/accommodationRoutes.js:3` is a module-loading problem, and is not
  modelled. Those routes take the caller id that `protect` would attach.
- `Models.Message.createdAt` is the `now` parameter given to `MessageRoutes.Send`.
  The store's clock is not modelled.
