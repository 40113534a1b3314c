# lalon-server in Dafny

A model of the core of lalon-server, an Express and Mongoose back end for an
e-commerce shop (products, categories, banners, users and authentication).
The model covers the sequential logic under the HTTP glue:

- the string and number helpers: Bangladeshi phone normalisation, Cloudinary
  public-ID extraction, expiry parsing, `pick`, the category slug, SKU
  composition and the upload file filter;
- the zod request schemas, as parse functions that return the list of issue
  messages in the order zod reports them;
- the service operations of the product, category, banner, user and auth
  modules, over collections held as `map<Id, Record>` in classes whose
  methods update them;
- the auth middleware's token extraction, check chain and role policy, the
  token blacklist, and the error handlers that map errors to status codes
  and envelopes.

Each module follows one source file. `Api` holds the shared outcome, error
and ObjectId definitions, `Text` the string helpers, `Zod` the zod field
semantics the schemas are written in, and `Store` the counting lemmas for
batch lookups.

Where the model needs something the code delegates (bcrypt, `jwt.sign`,
`jwt.verify`, Cloudinary uploads, `Date.now`, `Math.random`, the id MongoDB
gives a new document, zod's e-mail regular expression), it takes it as a
parameter.

## Model

| member | source | states |
|---|---|---|
| Phone.StripNonDigits | src/shared/normalizePhoneNumber.ts:3 | the stripped text holds only decimal digits and is no longer than the input |
| Phone.Normalize | src/shared/normalizePhoneNumber.ts:1-15 | the result always starts with "+880" and every character after the prefix is a decimal digit |
| Phone.NoPlusAfterStrip | src/shared/normalizePhoneNumber.ts:3-12 | the stripped text never starts with "+880", so the test on line 10 always holds when reached and the result is one of three prefix rewrites of the digits |
| Phone.LeadingZero | src/shared/normalizePhoneNumber.ts:6-7 | a leading "0" is replaced by "+880" |
| Phone.LeadingCountryCode | src/shared/normalizePhoneNumber.ts:8-9 | a leading "880" becomes "+880" and is not duplicated |
| Phone.NormalizeIdempotent | src/shared/normalizePhoneNumber.ts:1-15 | normalising a normalised number changes nothing, for every input string |
| Phone.NormalizeOnlyDigits | src/shared/normalizePhoneNumber.ts:3 | the result depends only on the digits of the input |
| Phone.AcceptedLengths | src/modules/auth/auth.schemas.ts:4 | a number bdPhoneRegex accepts is 11, 13 or 14 characters long |
| Phone.NormalizeZeroSubscriber | src/shared/normalizePhoneNumber.ts:6-7 | "01" followed by an operator digit 3-9 and eight digits becomes "+8801" followed by the same nine |
| Phone.NormalizeCodeSubscriber | src/shared/normalizePhoneNumber.ts:8-9 | "8801" followed by the nine subscriber characters becomes "+8801" followed by them |
| Phone.NormalizePlusSubscriber | src/shared/normalizePhoneNumber.ts:3-9 | "+8801" followed by the nine subscriber characters is returned unchanged |
| Phone.AcceptedNormalForm | src/shared/normalizePhoneNumber.ts:1-15 | every number bdPhoneRegex accepts normalises to 14 characters: "+8801", an operator digit 3-9 and eight digits, itself accepted by the pattern |
| Phone.Example | src/shared/normalizePhoneNumber.ts:6-7 | "01712345678" is accepted and becomes "+8801712345678" |
| Pick.Picked | src/shared/pick.ts:10-19 | a key is in the result iff the object exists, has it and it is listed; each value is the object's own |
| Pick.PickKeys | src/shared/pick.ts:10-16 | the loop over the keys builds exactly that result |
| Pick.NoObject | src/shared/pick.ts:12 | a null or undefined object gives the empty object |
| Pick.PickIdempotent | src/shared/pick.ts:10-16 | picking the result again with the same keys changes nothing |
| Pick.KeyOrderIrrelevant | src/shared/pick.ts:10-16 | two key lists with the same members give the same result, whatever their order or repetition |
| Expiry.UnitMillis | src/shared/parseExpiry.ts:19-24 | a unit has a multiplier exactly when it is one of s, m, h, d |
| Expiry.ParseExpiry | src/shared/parseExpiry.ts:1-26 | falsy input gives the ten-minute default; a non-empty string gives milliseconds exactly when it matches the pattern |
| Expiry.NumberIsSeconds | src/shared/parseExpiry.ts:7-9 | a non-zero number n gives n * 1000 |
| Expiry.NeverUnsupportedUnit | src/shared/parseExpiry.ts:11-24 | the "Unsupported time unit" error is never thrown, because the pattern fixes the unit |
| Expiry.DigitsWithUnit | src/shared/parseExpiry.ts:11-23 | digits followed by a unit give the decimal value times the unit's multiplier |
| Expiry.MinuteIsSixtySeconds | src/shared/parseExpiry.ts:20-21 | "60n s" and "n m" give the same duration |
| Expiry.DayIsTwentyFourHours | src/shared/parseExpiry.ts:22-23 | "24n h" and "n d" give the same duration |
| Expiry.Monotone | src/shared/parseExpiry.ts:16-23 | for one unit the result is non-negative and grows with the number |
| Expiry.RejectedExamples | src/shared/parseExpiry.ts:11-14 | "10 m", "1w" and "10M" throw the format error |
| Expiry.FalsyDefault | src/shared/parseExpiry.ts:2-5 | the empty string and the number 0 give 600000 |
| PublicId.FileName | src/shared/extractCloudinaryPublicId.ts:5 | the file name holds neither '.' nor '/' |
| PublicId.ExtractPublicId | src/shared/extractCloudinaryPublicId.ts:1-8 | the result is the file name when the folder is empty, and folder + "/" + file name otherwise |
| PublicId.FileNameIsStem | src/shared/extractCloudinaryPublicId.ts:3-5 | the file name is the last segment up to its first '.', or the whole segment when it has none |
| PublicId.ShortUrl | src/shared/extractCloudinaryPublicId.ts:4-7 | a URL of at most eight '/'-segments yields just the file name |
| PublicId.NoDotInLastSegment | src/shared/extractCloudinaryPublicId.ts:5-7 | the last '/'-segment of the result is the file name and holds no '.' |
| PublicId.UrlRoundTrip | src/shared/extractCloudinaryPublicId.ts:1-8 | seven prefix segments, a folder and "name.ext" give back "folder/name" |
| PublicId.Example | src/shared/extractCloudinaryPublicId.ts:1-8 | a delivery URL ending in "products/abc.jpg" yields "products/abc" |
| AuthSchemas.PhoneField | src/modules/auth/auth.schemas.ts:12-19 | the phone field's result is well formed: it fails iff it reports an issue |
| AuthSchemas.PhoneAccepted | src/modules/auth/auth.schemas.ts:12-19 | the phone passes iff it is undefined, null, "" or matches bdPhoneRegex |
| AuthSchemas.AcceptedPhoneLength | src/modules/auth/auth.schemas.ts:4 | an accepted non-empty phone is 11, 13 or 14 characters long |
| AuthSchemas.SignupFields | src/modules/auth/auth.schemas.ts:8-24 | the signup schema has five well-formed fields in declaration order |
| AuthSchemas.SignupParse | src/modules/auth/auth.schemas.ts:7-28 | the parse result is well formed: it succeeds iff it reports no issue |
| AuthSchemas.HasContact | src/modules/auth/auth.schemas.ts:25-28 | a non-empty email or phone satisfies the refine; absent, null or empty ones do not |
| AuthSchemas.LoginFields | src/modules/auth/auth.schemas.ts:32-48 | the login schema has three well-formed fields in declaration order |
| AuthSchemas.LoginParse | src/modules/auth/auth.schemas.ts:31-52 | the parse result is well formed; the same contact refine as signup (lines 49-52) |
| AuthSchemas.SignupAccepts | src/modules/auth/auth.schemas.ts:7-28 | signup succeeds iff both names are non-empty strings, the email is absent or valid, the phone passes, the password has at least 8 characters and an email or phone is truthy |
| AuthSchemas.PasswordField | src/modules/auth/auth.schemas.ts:20-23 | both password checks pass iff the password is a string of at least 8 characters |
| AuthSchemas.LoginAccepts | src/modules/auth/auth.schemas.ts:31-52 | login succeeds iff the email is absent or valid, the phone passes, the password has at least 8 characters and an email or phone is truthy |
| AuthSchemas.NoContactRejected | src/modules/auth/auth.schemas.ts:25-28 | neither email nor phone truthy: both schemas fail |
| AuthSchemas.ShortPasswordRejected | src/modules/auth/auth.schemas.ts:20-23 | a password under 8 characters fails both schemas |
| AuthSchemas.EmptyNameRejected | src/modules/auth/auth.schemas.ts:9-10 | signup rejects an empty firstName or lastName |
| AuthSchemas.OnlyContactMessage | src/modules/auth/auth.schemas.ts:25-27 | with only the contact rule broken, the one issue is "Either email or phone must be provided" |
| AuthSchemas.EmptyPasswordMessages | src/modules/auth/auth.schemas.ts:20-23 | an empty password reports both its messages, in declaration order |
| AuthGate.ExtractToken | src/middlewares/auth.ts:9-16 | a truthy accessToken cookie wins; otherwise a token exists iff the header starts with "Bearer " |
| AuthGate.BearerToken | src/middlewares/auth.ts:12-13 | "Bearer t", with t free of spaces, yields t |
| AuthGate.BearerTokenFollowed | src/middlewares/auth.ts:13 | only the text between the first and second space is taken |
| AuthGate.BareBearer | src/middlewares/auth.ts:12-13 | a bare "Bearer " header yields the empty token |
| AuthGate.OtherScheme | src/middlewares/auth.ts:12-15 | a header in any other scheme yields no token |
| AuthGate.Check | src/middlewares/auth.ts:23-63 | the chain passes only for a non-empty, non-blacklisted token that verifies to claims whose id is a stored user |
| AuthGate.Catch | src/middlewares/auth.ts:68-82 | a jwt library error becomes 401 "Invalid token" (the expired branch is shadowed by its superclass); any other error passes on unchanged |
| AuthGate.Request.constructor | src/middlewares/auth.ts:9-11 | a request holds its cookie and header and no user yet |
| AuthGate.Authenticate | src/middlewares/auth.ts:18-84 | on a pass, next() is called with no error and req.user is set to the claims; on a rejection, next receives the caught error and req.user is unchanged |
| AuthGate.MissingTokenFirst | src/middlewares/auth.ts:23-28 | no token or an empty one gives 401 "Token is missing", whatever else holds |
| AuthGate.BlacklistBeforeVerify | src/middlewares/auth.ts:31-37 | a blacklisted token gives 401 "Token is blacklisted" before it is verified |
| AuthGate.RolePolicy | src/middlewares/auth.ts:55-63 | for a verified token of a stored user, the gate passes iff no role is required or the claimed role is present and required; otherwise 403 |
| AuthGate.InvalidTokenAnswered500 | src/middlewares/auth.ts:40 | a token jwt.verify rejects ends as a plain Error and a 500 from the global handler |
| AuthGate.InvalidTokenAnswered401Intended | src/middlewares/auth.ts:71-72 | with the intended verification the same token is answered 401 "Invalid token" |
| AuthUtils.GenerateToken | src/modules/auth/auth.utils.ts:49-67 | a missing secret or expiry throws the config error; success iff both are set and signing succeeds, returning the signed token; every failure is a plain Error |
| AuthUtils.VerifyToken | src/modules/auth/auth.utils.ts:70-79 | success iff a secret is set and jwt.verify accepts, returning its claims; a rejected token gives a plain Error "Invalid or expired token" |
| AuthUtils.VerifyTokenIntended | src/modules/auth/auth.utils.ts:74-78 | the same, except that a rejected token keeps the library's jwt error |
| AuthUtils.VerificationsAgreeOnSuccess | src/modules/auth/auth.utils.ts:70-79 | the two verifications succeed on the same tokens with the same claims |
| AuthUtils.TokenBlacklist.constructor | src/modules/auth/auth.utils.ts:82-91 | the blacklist starts empty |
| AuthUtils.TokenBlacklist.Add | src/modules/auth/auth.utils.ts:82-84 | an empty token fails the required validator, a listed one the unique index, and any other token is added; nothing else changes |
| AuthUtils.TokenBlacklist.Contains | src/modules/auth/auth.utils.ts:87-91 | a token is reported iff it is listed |
| AuthUtils.BlacklistThenCheck | src/modules/auth/auth.utils.ts:82-91 | after blacklisting a token it is reported, and every other token's status is unchanged |
| Errors.FieldMessages | src/errors/handleMongooseError.ts:13-16 | one entry per field error, in order, with its path and message |
| Errors.KeyMessages | src/errors/handleMongooseError.ts:30-33 | one entry per duplicated key reading "key must be unique." |
| Errors.WithFallback | src/errors/handleMongooseError.ts:49 | the messages are never empty, and non-empty errors are kept as they are |
| Errors.HandleMongooseError | src/errors/handleMongooseError.ts:4-51 | errorMessages is never empty and the status is 400, 404, 409 or 500 |
| Errors.HandleClientError | src/errors/handleClientError.ts:4-41 | errorMessages is never empty |
| Errors.ClientMatchesMongoose | src/errors/handleClientError.ts:4-41 | the two handlers give the same result for every error |
| Errors.ValidationErrorEntries | src/errors/handleMongooseError.ts:10-16 | a validation error gives 400 "Validation failed." and one entry per field error, in order |
| Errors.CastErrorEntry | src/errors/handleMongooseError.ts:22-25 | a cast error gives 400 "Invalid value for path." with one entry for the path |
| Errors.DuplicateEntries | src/errors/handleMongooseError.ts:27-33 | code 11000 gives 409 and "key must be unique." for each key |
| Errors.CodeBeforeName | src/errors/handleMongooseError.ts:27-43 | a MongoServerError with code 11000 is a 409; without the code it is 500 "Database server error." |
| Errors.OtherStatuses | src/errors/handleMongooseError.ts:35-49 | DocumentNotFoundError gives 404; an error no branch matches gives 500 with the fallback entry |
| Errors.GlobalErrorHandler | src/middlewares/globalErrorHandler.ts:12-77 | success is always false, and the stack is included exactly in the "development" environment |
| Errors.ApiErrorEnvelope | src/middlewares/globalErrorHandler.ts:44-55 | an ApiError keeps its status (500 when nullish) and message; there is one entry, at the URL, iff the message is non-empty |
| Errors.OtherErrorsAre500 | src/middlewares/globalErrorHandler.ts:57-67 | any other error gives 500 with its own message or "An unexpected error occurred", and one entry at the URL |
| Errors.ValidationGoesThroughMongooseHandler | src/middlewares/globalErrorHandler.ts:30-35 | a Mongoose validation error is answered exactly as handleMongooseError classifies it |
| Errors.CastErrorIs500 | src/middlewares/globalErrorHandler.ts:57-67 | a cast error reaching the handler is not routed to handleMongooseError and gives 500 with its own message |
| CategorySchemas.TitleChecksPass | src/modules/categories/categories.schemas.ts:5-9 | the title checks pass iff the text has 3 to 50 characters |
| CategorySchemas.ValueChecksPass | src/modules/categories/categories.schemas.ts:10-16 | the value checks pass iff the text has 3 to 50 characters from [a-z0-9_] |
| CategorySchemas.CategoryFields | src/modules/categories/categories.schemas.ts:4-19 | four well-formed fields in declaration order |
| CategorySchemas.CategoryParse | src/modules/categories/categories.schemas.ts:4-19 | the parse result is well formed |
| CategorySchemas.CategoryUpdateParse | src/modules/categories/categories.schemas.ts:22-24 | the parse result is well formed |
| CategorySchemas.CategoryAccepts | src/modules/categories/categories.schemas.ts:4-19 | a create body passes iff its title and value pass; logo and thumbnail may be anything |
| CategorySchemas.CategoryUpdateAccepts | src/modules/categories/categories.schemas.ts:22-24 | an update body passes iff its title is absent or passes and its value passes |
| CategorySchemas.EmptyBody | src/modules/categories/categories.schemas.ts:22-24 | the update schema accepts {} and the create schema does not |
| CategorySchemas.CreateBodyUpdates | src/modules/categories/categories.schemas.ts:22 | every body the create schema accepts, the update schema accepts |
| CategorySchemas.ValueNotTrimmedBeforeCheck | src/modules/categories/categories.schemas.ts:10-15 | the pattern sees the untrimmed text: a value with a leading space fails |
| Categories.KeepSlugChars | src/modules/categories/categories.services.ts:55 | only [a-z0-9_] characters remain, and text made of them is unchanged |
| Categories.Slug | src/modules/categories/categories.services.ts:52-55 | the slug holds only [a-z0-9_] |
| Categories.UnderscoresNoWhitespace | src/modules/categories/categories.services.ts:54 | text without whitespace has nothing replaced |
| Categories.SlugOfSlugChars | src/modules/categories/categories.services.ts:52-55 | text of slug characters is its own slug |
| Categories.SlugIdempotent | src/modules/categories/categories.services.ts:52-55 | the slug of a slug is itself |
| Categories.SlugMatchesValuePattern | src/modules/categories/categories.services.ts:52-55 | a non-empty slug matches the value pattern of the schema |
| Categories.SlugAroundSpace | src/modules/categories/categories.services.ts:52-55 | the slug of word + " " + rest is the word's slug, "_" and the rest's slug |
| Categories.SlugOfLower | src/modules/categories/categories.services.ts:53 | lowercasing first does not change the slug |
| Categories.SlugOfWord | src/modules/categories/categories.services.ts:52-55 | a word of ASCII letters and digits slugs to its lowercase form |
| Categories.SlugOfCapitalised | src/modules/categories/categories.services.ts:52-55 | a capital followed by lower-case letters slugs to its lower-case form |
| Categories.RunningShoes | src/modules/categories/categories.services.ts:52-55 | "Running Shoes" gives "running_shoes" |
| Categories.SpacedDash | src/modules/categories/categories.services.ts:54-55 | underscores are made before other characters are dropped: "A - B" gives "a__b" |
| Categories.SlugOfSymbols | src/modules/categories/categories.services.ts:52-55 | a title with no letter, digit, underscore or whitespace has the empty slug |
| Categories.CreateOutcome | src/modules/categories/categories.services.ts:14-117 | a created category has the trimmed title, its slug as value (matching the pattern), and neither is stored already |
| Categories.CreateNeedsBothImages | src/modules/categories/categories.services.ts:39-49 | creation needs both files; a valid body missing one gets 400 |
| Categories.CreateValidatesFirst | src/modules/categories/categories.services.ts:25-36 | an invalid body gets 400 with its messages joined by "," |
| Categories.CreateConflict | src/modules/categories/categories.services.ts:58-77 | a stored category with the same title or generated value gives 409 |
| Categories.CreateEmptySlug | src/modules/categories/categories.services.ts:52-115 | a 3-to-50-symbol title with an empty slug passes the schema but fails the required value on save: 500 |
| Categories.CreateKeepsKeysUnique | src/modules/categories/categories.services.ts:58-107 | creating keeps titles and values unique |
| Categories.ImageField | src/modules/categories/categories.models.ts:17-22 | an absent image keeps the stored one, null unsets it, a string is stored, a boolean as "true"/"false"; arrays and objects fail to cast, and the field fails exactly when the String cast does |
| Categories.NewImage | src/modules/categories/categories.services.ts:188-227 | a non-empty uploaded URL replaces the image; otherwise the body's value stands |
| Categories.Updated | src/modules/categories/categories.services.ts:146-234 | the update writes the trimmed title when one is given and keeps the stored one otherwise; it fails exactly when an image without an upload fails to cast; an upload replaces its image, otherwise the cast body value or the stored one is kept |
| Categories.UpdateOutcome | src/modules/categories/categories.services.ts:120-249 | an update succeeds only for a valid body and a stored id, returns the record the update data makes, and clashes with no other category |
| Categories.UpdateMissing | src/modules/categories/categories.services.ts:151-159 | a well-formed id that is not stored gives 404 |
| Categories.UpdateOwnTitle | src/modules/categories/categories.services.ts:162-166 | re-sending a category's own title is no conflict |
| Categories.UpdateTitleConflict | src/modules/categories/categories.services.ts:162-178 | another category with the title gives 409 |
| Categories.UpdateValueRule | src/modules/categories/categories.services.ts:146-185 | the value is recomputed from a given title, and otherwise taken from the body or kept |
| Categories.UpdateEmptyBody | src/modules/categories/categories.services.ts:131-234 | the empty body is accepted and changes nothing |
| Categories.UpdateKeepsKeysUnique | src/modules/categories/categories.services.ts:161-234 | updating keeps titles and values unique |
| Categories.BatchDeleteSucceeds | src/modules/categories/categories.services.ts:335-362 | the batch delete succeeds iff the list is non-empty, every id is well formed and stored, and none is repeated; an empty list gives 400 |
| Categories.RepeatedIdRejected | src/modules/categories/categories.services.ts:345-353 | listing a stored id twice gives 404 |
| Categories.DeleteNeedsTarget | src/modules/categories/categories.services.ts:384-386 | neither an id nor an ids array gives 400 "Invalid request" |
| Categories.DeleteRemovesStored | src/modules/categories/categories.services.ts:297-394 | a successful delete removes a non-empty set of stored ids and keeps titles and values unique |
| Categories.DeleteOutcome | src/modules/categories/categories.services.ts:297-394 | a non-empty id succeeds exactly when well formed and stored, and a well-formed unknown one gives 404; a single delete reports the fixed message, a batch "<n> categories deleted successfully"; neither an id nor ids gives 400 "Invalid request" |
| Categories.BuildUpdate | src/modules/categories/categories.services.ts:146-227 | the update data built field by field applies to exactly the updated record |
| Categories.CategoryStore.constructor | src/modules/categories/categories.services.ts:14-117 | the store starts empty and valid |
| Categories.CategoryStore.Create | src/modules/categories/categories.services.ts:14-117 | returns the create outcome, stores the new category under the fresh id only on success, and keeps the store valid |
| Categories.CategoryStore.Update | src/modules/categories/categories.services.ts:120-249 | returns the update outcome, writes the record only on success, and keeps the store valid |
| Categories.CategoryStore.UpdateDecision | src/modules/categories/categories.services.ts:120-249 | reads the collection only; its result is the update outcome: 404 for a missing category, the title conflict, the slug and image steps |
| Categories.CategoryStore.Delete | src/modules/categories/categories.services.ts:297-394 | returns the delete outcome, removes the targets only on success, and keeps the store valid |
| Uploads.ExtName | src/middlewares/multer.middleware.ts:23 | the extension is empty or a '.' followed by no further '.', holds no '/', and ends the name |
| Uploads.ExtNameOfStem | src/middlewares/multer.middleware.ts:23 | a name of a stem without dots or slashes, one dot and an extension has exactly that dot and extension as its extension |
| Uploads.LowerExtNameOfStem | src/middlewares/multer.middleware.ts:23 | the lower-cased extension of stem.ext is "." and the lower-cased ext |
| Uploads.Accepts | src/middlewares/multer.middleware.ts:21-31 | an accepted file has a MIME type of at least three characters and an extension of at least four |
| Uploads.PassingLength | src/middlewares/multer.middleware.ts:22 | text that passes has at least three characters, four when it starts with a dot |
| Uploads.AcceptsIgnoresMimeCase | src/middlewares/multer.middleware.ts:24 | the MIME type is taken lower-cased, so its case never changes the verdict |
| Uploads.AcceptsStem | src/middlewares/multer.middleware.ts:21-31 | stem.ext is accepted exactly when the lower-cased MIME type and "." + the lower-cased ext both pass |
| Uploads.StemAccepted | src/middlewares/multer.middleware.ts:21-31 | an extension whose lower-cased form starts with a word is accepted with any passing MIME type |
| Uploads.PngFileAccepted | src/middlewares/multer.middleware.ts:21-31 | "<stem>.png" is accepted with any passing MIME type |
| Uploads.UpperPngPasses | src/middlewares/multer.middleware.ts:22-24 | "IMAGE/PNG" passes once lower-cased |
| Uploads.StoredName | src/middlewares/multer.middleware.ts:15-17 | the stored name is the clock reading in decimal, a '-' and the original name; the digits before the first '-' read back as the clock reading |
| Uploads.WordInsidePasses | src/middlewares/multer.middleware.ts:22 | the pattern is unanchored: any text containing one of the seven words passes |
| Uploads.NoLowerCaseFails | src/middlewares/multer.middleware.ts:22 | text without lower-case letters never passes, because every word is lower case |
| Uploads.StoredNameInjective | src/middlewares/multer.middleware.ts:15-17 | two stored names are equal only for the same clock reading and original name |
| Uploads.Receive | src/middlewares/multer.middleware.ts:21-37 | a file is stored iff the filter accepts it and it is within the limit, under the timestamped name; a filter refusal gives "Only images and videos are allowed" |
| Uploads.SizeLimit | src/middlewares/multer.middleware.ts:37 | an accepted file is stored iff it has at most 52428800 bytes |
| Uploads.UpperCaseMimeTypeAccepted | src/middlewares/multer.middleware.ts:22-24 | the MIME type arrives lower-cased: a ".png" file sent as "IMAGE/PNG" is accepted |
| Uploads.UpperCaseExtensionAccepted | src/middlewares/multer.middleware.ts:23 | the extension is lower-cased: "<stem>.JPG" has extension ".JPG" and is accepted with any passing MIME type |
| Uploads.LongerExtensionAccepted | src/middlewares/multer.middleware.ts:22-23 | an extension that merely contains a word is accepted: "<stem>.jpgx" with any passing MIME type |
| Uploads.DotFileRefused | src/middlewares/multer.middleware.ts:23 | ".png" has no extension and is refused |
| Uploads.QuickTimeRefused | src/middlewares/multer.middleware.ts:22-24 | "video/quicktime" contains none of the words, so any file sent with it is refused |
| Uploads.QuickTimeAcceptedIntended | src/middlewares/multer.middleware.ts:22-24 | the intended filter admits a ".mov" file of a QuickTime type, accepts everything the written one does, and differs from it only on QuickTime types |
| Uploads.QuickTimeTypeIntended | src/middlewares/multer.middleware.ts:22-24 | a ".mov" file sent as "video/quicktime" is accepted by the intended filter and refused by the written one |
| ProductSchemas.ProductFields | src/modules/product/product.schemas.ts:4-51 | the product schema has thirteen fields in declaration order, each parsed well formed |
| ProductSchemas.ProductParse | src/modules/product/product.schemas.ts:4-51 | the create parse is well formed: issues exactly when it fails |
| ProductSchemas.ProductUpdateParse | src/modules/product/product.schemas.ts:55-57 | the update parse is well formed |
| ProductSchemas.StringChecks | src/modules/product/product.schemas.ts:5-50 | the string checks of name (1..255), quantity and sku (1..50), description (at most 1000) and category (at least 1) pass exactly in those ranges |
| ProductSchemas.NumberChecks | src/modules/product/product.schemas.ts:12-36 | discount passes exactly in 0..100, finalPrice exactly above 0, stock exactly at 0 or more |
| ProductSchemas.NameField | src/modules/product/product.schemas.ts:5-8 | the name field succeeds exactly when absence is admitted or it is a string of 1 to 255 characters |
| ProductSchemas.QuantityField | src/modules/product/product.schemas.ts:23-26 | the quantity field succeeds exactly when absence is admitted or it is a string of 1 to 50 characters |
| ProductSchemas.CategoryField | src/modules/product/product.schemas.ts:50 | the category field succeeds exactly when absence is admitted or it is a non-empty string |
| ProductSchemas.OptionalFields | src/modules/product/product.schemas.ts:12-44 | each optional field succeeds exactly when absent or in its range |
| ProductSchemas.FieldsSucceed | src/modules/product/product.schemas.ts:4-51 | for either presence, the object succeeds exactly when the three main fields and the optional ones are acceptable |
| ProductSchemas.ProductAccepts | src/modules/product/product.schemas.ts:4-51 | a create body is accepted exactly when name, quantity and category are given and in range and the optional fields are acceptable |
| ProductSchemas.ProductUpdateAccepts | src/modules/product/product.schemas.ts:55-57 | an update body is accepted exactly when every field it holds is acceptable |
| ProductSchemas.EmptyProductBody | src/modules/product/product.schemas.ts:55-57 | the empty body passes the update schema and fails the create schema |
| ProductSchemas.PriceUnconstrained | src/modules/product/product.schemas.ts:10 | the price, whatever its value, never changes either verdict |
| ProductSchemas.CreateBodyUpdatesProduct | src/modules/product/product.schemas.ts:55 | every accepted create body is an accepted update body |
| Sku.Code | src/modules/product/product.utils.ts:32-33 | the code is the first n characters (all of them when fewer), upper-cased |
| Sku.PadStart | src/modules/product/product.utils.ts:8-10 | the padded string has length max(len, n), ends with the original and is padded in front with the fill character |
| Sku.LeadingZeros | src/modules/product/product.utils.ts:8-10 | zeros in front of a numeral keep it a numeral of the same value |
| Sku.OldNumber | src/modules/product/product.utils.ts:8 | the old random number is the floor of draw * 10000, at most 9999 |
| Sku.SkuOld | src/modules/product/product.utils.ts:5-13 | the old SKU starts with the upper-cased codes of at most four characters of category and name, each followed by a dash, and has at most 14 characters |
| Sku.SkuOldSuffix | src/modules/product/product.utils.ts:5-13 | an old SKU ends in a dash and exactly four digits that read back as the random number |
| Sku.Suffix | src/modules/product/product.utils.ts:36 | the random number is the floor of 1000 + draw * 9000, from 1000 to 9999 |
| Sku.Base36 | src/modules/product/product.utils.ts:34 | the base-36 numeral is non-empty and made of base-36 digits |
| Sku.Base36RoundTrip | src/modules/product/product.utils.ts:34 | reading the base-36 numeral back gives the number |
| Sku.Stamp | src/modules/product/product.utils.ts:34 | the stamp has at most four base-36 digits |
| Sku.FullStamp | src/modules/product/product.utils.ts:34 | from 46656 milliseconds on the stamp has exactly four digits |
| Sku.ComposeSuffix | src/modules/product/product.utils.ts:36-37 | a SKU has the length of its parts plus seven and ends in a dash and four digits reading back as the draw's number |
| Sku.Compose | src/modules/product/product.utils.ts:37-43 | the SKU starts with the upper-cased codes of at most three characters and the stamp, each followed by a dash, and is seven characters longer than those parts |
| Sku.RetryKeepsStem | src/modules/product/product.utils.ts:41-44 | a retry changes only the last four characters |
| Sku.FirstFree | src/modules/product/product.utils.ts:40-47 | the loop's answer exists exactly when some draw gives a free SKU, is free, and comes from the first such draw |
| Sku.GenerateSku | src/modules/product/product.utils.ts:31-48 | the loop returns the SKU of the first draw no stored product holds |
| Casts.WholeNumberText | src/modules/product/product.models.ts:34-37 | a whole number below 1e21 in size has its decimal text, with a minus sign when negative; other numbers are not cast |
| Casts.StringCast | src/modules/categories/categories.models.ts:17-22 | a string is itself, a boolean "true" or "false", a whole number its text; null, arrays and objects do not cast |
| Casts.StringsCast | src/modules/product/product.models.ts:34-37 | an array casts exactly when every element does, to the list of the elements' casts, of the same length |
| Casts.StringsCastOfStrings | src/modules/product/product.models.ts:34-37 | an array of strings casts to those strings |
| Casts.StringListCast | src/modules/product/product.models.ts:34-37 | an array casts element by element; any other castable value becomes a one-element list |
| Products.FinalPrice | src/modules/product/product.services.ts:76-79 | the final price is the price times (100 - discount) / 100, and the price itself without a discount |
| Products.FinalPriceBounds | src/modules/product/product.services.ts:76-79 | a discount in 0..100 on a price at or above 0 gives a final price between 0 and the price |
| Products.FinalPriceMonotone | src/modules/product/product.services.ts:76-79 | a larger discount never gives a larger final price |
| Products.NewProduct | src/modules/product/product.services.ts:75-92 | the record holds the body's name, category and quantity, the computed price, SKU and images; its final price lies between 0 and the price; stock defaults to 0, isActive to true, the two flags to false |
| Products.PriceNumber | src/modules/product/product.services.ts:200 | a JSON number is stored as itself; only numbers and strings cast |
| Products.ImagesCast | src/modules/product/product.models.ts:34-37 | an absent value keeps the list; an array is cast element by element as strings; a string, boolean or whole number becomes a one-element list; null and objects fail |
| Products.CreateChecked | src/modules/product/product.services.ts:49-117 | a created product has the uploaded images, the body's name and category, a known category, no namesake in it, the first free SKU, and the discounted final price |
| Products.FirstSaved | src/modules/product/product.services.ts:49-96 | the record of the first save: the body's name and category, a well-formed known category with no namesake, the first free SKU, the discounted final price, and the body's cast images |
| Products.FirstSaveKeepsConsistent | src/modules/product/product.services.ts:49-96 | storing the first-saved record keeps SKUs unique and names unique per category |
| Products.FailedUploadBlocksRetry | src/modules/product/product.services.ts:62-111 | after an upload failed behind the first save, the same body is refused 409, whatever is uploaded |
| Products.CreateOutcome | src/modules/product/product.services.ts:19-126 | create succeeds only for an accepted body with at least one upload, and then it is the checked steps |
| Products.CreateCheckOrder | src/modules/product/product.services.ts:31-73 | invalid body 400, then no image 400, then unknown category 404, then a same-named product 409 |
| Products.CreatePriceBounds | src/modules/product/product.services.ts:76-79 | a created product's final price lies between 0 and its price |
| Products.CreateKeepsConsistent | src/modules/product/product.services.ts:62-111 | creating keeps SKUs unique and names unique per category |
| Products.Repriced | src/modules/product/product.services.ts:192-207 | repricing changes only the final price, and nothing when neither price nor discount is sent |
| Products.Assigned | src/modules/product/product.services.ts:210 | the assign succeeds exactly when price and images cast; the SKU stays, images, name and category follow the body |
| Products.Applied | src/modules/product/product.services.ts:192-236 | the saved product keeps its SKU and has the kept images followed by the new uploads |
| Products.AppliedFinalPrice | src/modules/product/product.services.ts:192-210 | the final price is the body's when sent, recomputed from the sent price or discount with the stored one as fallback, else kept |
| Products.UpdateChecked | src/modules/product/product.services.ts:160-242 | a successful update is the applied product, in its old or a known category, with no other product of the same name there |
| Products.UpdateOutcome | src/modules/product/product.services.ts:129-251 | invalid body 400, a sku in the body 400, otherwise the checked steps |
| Products.UpdateWithoutNameConflicts | src/modules/product/product.services.ts:179-189 | without a name in the body, any other product of the category gives 409 |
| Products.OtherInCategory | src/modules/product/product.services.ts:179-189 | with a name, a match is a namesake in the category; without one, the dropped filter key matches any other product of the category |
| Products.UpdateKeepsConsistent | src/modules/product/product.services.ts:160-236 | updating keeps SKUs unique and names unique per category |
| Products.UpdateReplacesImages | src/modules/product/product.services.ts:210-230 | a body with an images array replaces the stored list by its cast before the uploads are appended |
| Products.ImagesOnlyBodyAccepted | src/modules/product/product.services.ts:160-210 | a body holding only an images array is accepted by the schema |
| Products.AppliedImagesOnly | src/modules/product/product.services.ts:192-230 | a body holding only images changes nothing but the image list |
| Products.UpdateCanEmptyImages | src/modules/product/product.services.ts:210-230 | `{"images": []}` without uploads leaves a stored product with no image |
| Products.UpdateThenDeleteEmpties | src/modules/product/product.services.ts:210-230 | an images array naming one URL twice is stored as it is, and deleting that URL leaves no image |
| Products.GetOutcome | src/modules/product/product.services.ts:342-376 | found exactly for a well-formed stored id, returning the stored product; a malformed id gives 404 |
| Products.BatchDeleteAllOrNothing | src/modules/product/product.services.ts:408-440 | a batch delete succeeds exactly for a non-empty list of distinct, well-formed, stored ids; empty 400; missing 404 |
| Products.DeleteKeepsConsistent | src/modules/product/product.services.ts:379-463 | a delete removes only stored products, at least one, and keeps the store consistent |
| Products.DeleteOutcome | src/modules/product/product.services.ts:379-463 | a non-empty id succeeds exactly when well formed and stored, and a well-formed unknown one gives 404 "Product not found"; a single delete answers "Product deleted successfully", a batch "<n> categories deleted successfully" (sic); neither an id nor ids gives 400 "Invalid request" |
| Products.Without | src/modules/product/product.services.ts:501 | the filtered list holds exactly the other images and is no longer |
| Products.WithoutSingle | src/modules/product/product.services.ts:501 | removing a URL that occurs once removes exactly one image |
| Products.DeleteImageOutcome | src/modules/product/product.services.ts:466-519 | as written: success only for a stored image URL of a stored product, leaving the other images |
| Products.DuplicateImageEmptiesProduct | src/modules/product/product.services.ts:493-501 | a product whose two images are one URL is left with none |
| Products.DeleteImageIntended | src/modules/product/product.services.ts:493-501 | the intended guard: success leaves the other images and never an empty list |
| Products.DeleteImageAgreesOnDistinct | src/modules/product/product.services.ts:493-501 | with distinct images the intended and written guards agree |
| Products.ConditionFor | src/modules/product/product.services.ts:267-293 | falsy values add nothing; name and sku are pattern matches, the flags compare with true, a category only as an ObjectId, other keys equality |
| Products.Conditions | src/modules/product/product.services.ts:266-294 | there are no more conditions than entries |
| Products.ConditionsFromEntries | src/modules/product/product.services.ts:266-294 | a condition is present exactly when some entry yields it |
| Products.QueryOf | src/modules/product/product.services.ts:296-297 | the query matches everything exactly when there is no condition |
| Products.EverythingWhenNoCondition | src/modules/product/product.services.ts:266-297 | the listing matches everything exactly when no entry yields a condition |
| Products.FilterQuery | src/modules/product/product.services.ts:263-297 | the loop builds the query of the entries' conditions |
| Products.ProductStore.constructor | src/modules/product/product.services.ts:19-126 | an empty, consistent collection |
| Products.ProductStore.Create | src/modules/product/product.services.ts:19-126 | the create outcome; the product is stored under the fresh id on success and nothing changes otherwise; consistency kept |
| Products.ProductStore.Prepare | src/modules/product/product.services.ts:49-96 | reads the collection only; its outcome is the checked create's outcome: the category, name and SKU checks in order, then the record with the uploaded images |
| Products.ProductStore.CreateAccepted | src/modules/product/product.services.ts:49-117 | the checked create steps, with the same store effect |
| Products.ProductStore.CreateUploadFails | src/modules/product/product.services.ts:49-126 | when the upload throws after the first save: the first-saved record stays stored under the fresh id and the answer is 500; a failed check stores nothing; consistency kept |
| Products.ProductStore.Update | src/modules/product/product.services.ts:129-251 | the update outcome; the product replaced on success and nothing changed otherwise; consistency kept |
| Products.ProductStore.UpdateAccepted | src/modules/product/product.services.ts:160-242 | the checked update steps, with the same store effect |
| Products.ProductStore.UpdateDecision | src/modules/product/product.services.ts:160-242 | reads the collection only; its result is the checked update: the id, category and name checks, the repricing and the appended images |
| Products.ProductStore.Delete | src/modules/product/product.services.ts:379-463 | the delete outcome; the targets removed on success, all or none; consistency kept |
| Products.ProductStore.DeleteImage | src/modules/product/product.services.ts:466-519 | the image delete as written: the outcome of the written guard, and on success only that product's images change, to the list without every copy of the URL |
| Products.ProductStore.DeleteImageKeepingOne | src/modules/product/product.services.ts:466-519 | the image delete with the intended guard: only that product's images change on success, and a product that had an image still has one |
| Banners.IntToDecimal | src/modules/banners/banners.services.ts:23 | an integer is written as its decimal numeral, with a minus sign when negative |
| Banners.NextOrderUnique | src/modules/banners/banners.services.ts:18-19 | the next order is determined by the collection |
| Banners.NextOrderFresh | src/modules/banners/banners.services.ts:18-26 | the next order is above every stored order, so a new banner keeps orders unique |
| Banners.NewBanner | src/modules/banners/banners.services.ts:22-26 | a new banner has the given order, is titled "Banner #" and its order, has no image and is active |
| Banners.BannerUpdateParse | src/modules/banners/banners.schemas.ts:4-13 | the update body is accepted exactly when order is absent or a number and isActive absent or a boolean |
| Banners.UpdatedBanner | src/modules/banners/banners.services.ts:64-67 | the update succeeds exactly when the image is absent or a string; title and order stay; image and isActive follow the body or stay |
| Banners.UpdateOutcome | src/modules/banners/banners.services.ts:41-79 | as written: success returns the banner as stored before; invalid body 400; unknown id 404 |
| Banners.UpdateReturnsStale | src/modules/banners/banners.services.ts:64-69 | an update that changes the image returns the old image |
| Banners.UpdateIntended | src/modules/banners/banners.services.ts:64-69 | the intended update fails exactly when the written one does, and otherwise returns the updated banner |
| Banners.UpdateKeepsOrders | src/modules/banners/banners.services.ts:64-67 | an update keeps the orders unique |
| Banners.GetOutcome | src/modules/banners/banners.services.ts:101-129 | found exactly for a well-formed stored id; a malformed id gives 400 |
| Banners.BatchOutcome | src/modules/banners/banners.services.ts:169-207 | a batch succeeds exactly for distinct, well-formed, stored ids, reporting their count; otherwise 404 |
| Banners.DeleteOutcome | src/modules/banners/banners.services.ts:132-218 | a given id deletes exactly a stored banner; an empty list 400; a list goes to the batch rule; neither 400 |
| Banners.DeleteSingleOutcome | src/modules/banners/banners.services.ts:221-255 | succeeds exactly for a well-formed stored id; a missing id 400 |
| Banners.DeleteMultipleOutcome | src/modules/banners/banners.services.ts:258-306 | a missing or empty list 400; otherwise the batch rule |
| Banners.BatchDeletesAgree | src/modules/banners/banners.services.ts:160-298 | the two batch deletes accept the same lists and answer them alike |
| Banners.UploadImagesOutcome | src/modules/banners/banners.services.ts:310-344 | 400 without files; otherwise the upload URL of each file, in order |
| Banners.BannerStore.constructor | src/modules/banners/banners.services.ts:15-38 | an empty collection with unique orders |
| Banners.BannerStore.LastBanner | src/modules/banners/banners.services.ts:18 | a banner of the largest order; none exactly for an empty collection |
| Banners.BannerStore.Create | src/modules/banners/banners.services.ts:15-38 | the new banner gets the next order, above every stored one, and is stored under the fresh id; orders stay unique |
| Banners.BannerStore.Update | src/modules/banners/banners.services.ts:41-79 | the update as written: the banner stored updated on success and nothing changed otherwise, and the reply is the banner as it was before |
| Banners.BannerStore.UpdateReturningNew | src/modules/banners/banners.services.ts:41-79 | the intended update: the same store effect, replying with the banner as stored after the update |
| Banners.BannerStore.Delete | src/modules/banners/banners.services.ts:132-218 | the delete outcome; the targets removed on success, all or none |
| Banners.BannerStore.DeleteSingle | src/modules/banners/banners.services.ts:221-255 | the single delete outcome; that banner removed on success |
| Banners.BannerStore.DeleteMultiple | src/modules/banners/banners.services.ts:258-306 | the multiple delete outcome; the listed banners removed on success |
| UserSchemas.PhoneField | src/modules/user/user.schemas.ts:14-20 | the phone field is parsed well formed |
| UserSchemas.UserFields | src/modules/user/user.schemas.ts:4-30 | the user schema has eleven fields in declaration order, each parsed well formed |
| UserSchemas.UserParse | src/modules/user/user.schemas.ts:4-30 | an accepted body has both misspelt names in range, a password of 8 or more and acceptable optional fields |
| UserSchemas.UpdateUserParse | src/modules/user/user.schemas.ts:33 | the partial schema accepts every body the full schema accepts |
| UserSchemas.PhoneAccepted | src/modules/user/user.schemas.ts:14-20 | a phone passes exactly when absent, null, or digits only (the empty string included) |
| UserSchemas.RoleAccepted | src/modules/user/user.schemas.ts:23 | a role passes exactly when absent or one of USER, ADMIN, SELLER |
| UserSchemas.NameChecksPass | src/modules/user/user.schemas.ts:5-12 | both name checks pass exactly for 1 to 150 characters |
| UserSchemas.NameFields | src/modules/user/user.schemas.ts:5-12 | the misspelt keys `firstame` and `lastame` succeed exactly when absence is admitted or they hold 1 to 150 characters |
| UserSchemas.PasswordField | src/modules/user/user.schemas.ts:26-28 | the password succeeds exactly when absence is admitted or it has 8 or more characters |
| UserSchemas.OptionalFields | src/modules/user/user.schemas.ts:13-30 | the optional fields all succeed exactly when each holds an acceptable value |
| UserSchemas.FieldsSucceed | src/modules/user/user.schemas.ts:4-30 | for either presence, the object succeeds exactly when the required and optional fields are acceptable |
| UserSchemas.UserAccepts | src/modules/user/user.schemas.ts:4-30 | the user schema accepts exactly both misspelt names in range, a password of 8 or more, and acceptable optional fields |
| UserSchemas.UpdateUserAccepts | src/modules/user/user.schemas.ts:33 | the update schema accepts exactly the bodies whose every present field is acceptable |
| UserSchemas.EmptyUserBody | src/modules/user/user.schemas.ts:33 | the empty body passes the update schema and fails the full one |
| UserSchemas.NameKeysUnchecked | src/modules/user/user.schemas.ts:5-12 | the values under `firstName` and `lastName` never change either verdict |
| UserSchemas.PlusPhoneRefused | src/modules/user/user.schemas.ts:14-20 | a phone starting with '+' is refused by both schemas |
| UserSchemas.LongFirstNameMessage | src/modules/user/user.schemas.ts:5-8 | a 151-character first name is refused with the message that quotes 255 |
| Users.StoreWithoutClash | src/modules/user/user.services.ts:184-187 | writing a user that clashes with nobody keeps emails and phones unique |
| Users.GetOneOutcome | src/modules/user/user.services.ts:14-32 | found exactly for a well-formed stored id, returned without password and refresh token; unknown 404, malformed 500 |
| Users.ConditionFor | src/modules/user/user.services.ts:49-73 | only the key `fullname` becomes a pattern match |
| Users.Conditions | src/modules/user/user.services.ts:49-63 | one condition per filter entry |
| Users.ConditionPerEntry | src/modules/user/user.services.ts:49-73 | every filter entry gives exactly one condition, in place |
| Users.QueryOf | src/modules/user/user.services.ts:72-73 | the query matches everything exactly when there is no condition |
| Users.FilterShape | src/modules/user/user.services.ts:49-73 | the listing matches every user exactly when no filter is given; each entry is a pattern match on fullname or an equality |
| Users.FilterQuery | src/modules/user/user.services.ts:49-73 | the loop builds the query of the entries' conditions |
| Users.SortOf | src/modules/user/user.services.ts:79-83 | descending exactly when both options are given and the order is not "asc"; by sortBy when both are given, else by createdAt |
| Users.AllowlistedData | src/modules/user/user.services.ts:133-149 | the loop keeps exactly the allowlisted keys of the body |
| Users.StringSet | src/modules/user/user.services.ts:184-187 | absent keeps, null unsets, a string is stored; anything else fails to cast |
| Users.NameSet | src/modules/user/user.services.ts:184-187 | absent keeps; a stored name is the lower-cased, trimmed string and not blank |
| Users.Applied | src/modules/user/user.services.ts:184-187 | the update never touches password or refresh token; email, phone and avatar follow the body or stay |
| Users.AppliedNothing | src/modules/user/user.services.ts:184-187 | a body without allowlisted keys leaves the user as it is |
| Users.WithNormalizedPhone | src/modules/user/user.services.ts:166-168 | a truthy phone is replaced by its normalised form; every other key is unchanged |
| Users.WithAvatar | src/modules/user/user.services.ts:171-180 | the avatar is the uploaded URL when there is one and the body's otherwise; every other key is unchanged |
| Users.Prepared | src/modules/user/user.services.ts:166-181 | a truthy phone is normalised, an uploaded URL replaces the avatar, no other key changes |
| Users.UpdateAccepted | src/modules/user/user.services.ts:152-197 | a successful update clashes with nobody, keeps password and refresh token, sends no email or phone over registered ones, stores the normalised phone and the uploaded avatar |
| Users.UpdateOutcome | src/modules/user/user.services.ts:105-197 | malformed id 500, unknown 404, invalid body 400 with the joined issues, otherwise the accepted steps on the allowlisted body |
| Users.NotFoundBeforeValidation | src/modules/user/user.services.ts:115-130 | a missing user gives 404 whatever the body |
| Users.OnlyAllowlistedKeys | src/modules/user/user.services.ts:133-149 | changing a key outside the allowlist never changes the outcome of a valid body |
| Users.EmailLocked | src/modules/user/user.services.ts:152-157 | a registered email with a non-empty email in the body gives 403 |
| Users.PhoneLocked | src/modules/user/user.services.ts:158-163 | a registered phone with a non-empty phone in the body gives 403 |
| Users.PhoneClearable | src/modules/user/user.services.ts:158-168 | a null or empty phone passes the lock and changes a registered phone |
| Users.PhoneNormalised | src/modules/user/user.services.ts:166-168 | a phone sent in a successful update is stored in its "+880" form |
| Users.AvatarRule | src/modules/user/user.services.ts:171-181 | the avatar is the uploaded URL when there is one, else the body's, else the stored one |
| Users.UpdateKeepsInvariants | src/modules/user/user.services.ts:184-187 | a successful update keeps emails and phones unique and never touches password or refresh token |
| Users.UserStore.constructor | src/modules/user/user.services.ts:105-197 | an empty collection with unique contacts |
| Users.UserStore.Update | src/modules/user/user.services.ts:105-197 | the update outcome without password and token; the user replaced on success and nothing changed otherwise |
| Users.UserStore.UpdateFound | src/modules/user/user.services.ts:115-197 | the accepted update steps, with the same store effect |
| Users.UserStore.UpdateDecision | src/modules/user/user.services.ts:115-197 | reads the collection only; its result is the accepted update: the locked email and phone, the normalised phone, the uploaded avatar, the contact clash |
| AuthServices.NormalizedPhone | src/modules/auth/auth.services.ts:26 | a normalised phone exists exactly for a truthy string phone and has the "+880" form |
| AuthServices.AcceptedSignupShaped | src/modules/auth/auth.services.ts:13-23 | an accepted signup body has string names and password, and an email or a phone |
| AuthServices.NewUser | src/modules/auth/auth.services.ts:45-49 | a new user exists exactly when both names are non-blank after trimming; it holds the password hash, role USER, the given email and no token, address or avatar |
| AuthServices.NewUserPhone | src/modules/auth/auth.services.ts:26-49 | the stored phone is the normalised phone sent, "" when "" was sent, none otherwise |
| AuthServices.SaveHook | src/modules/user/user.model.ts:69-74 | a present phone is replaced by its "+880" form, which normalising again leaves unchanged; an absent or empty one is kept |
| AuthServices.SignupChecked | src/modules/auth/auth.services.ts:26-55 | a signup stores the new user without a clash; 409 exactly when the lookup finds a user; any other failure is 500 |
| AuthServices.SignupDuplicate | src/modules/auth/auth.services.ts:29-39 | the duplicate check holds exactly when a contact is given and the login lookup of the body finds a user |
| AuthServices.SignupOutcome | src/modules/auth/auth.services.ts:10-65 | an invalid body gives 400 with the joined issues; an accepted one goes through the checked steps |
| AuthServices.SignupDecision | src/modules/auth/auth.services.ts:10-55 | reads the collection only; its result is the signup outcome |
| AuthServices.SignupAccepted | src/modules/auth/auth.services.ts:23-55 | reads the collection only; for a well-shaped body its result is the checked signup steps |
| AuthServices.SignupConflict | src/modules/auth/auth.services.ts:29-39 | with an email, 409 exactly when the email is taken; without, exactly when the normalised phone is |
| AuthServices.TakenPhoneWithEmailIs500 | src/modules/auth/auth.services.ts:29-49 | a free email with a taken phone breaks the unique index and gives 500, not 409 |
| AuthServices.BlankNameIs500 | src/modules/auth/auth.services.ts:45-63 | a name of spaces passes the schema and gives 500 |
| AuthServices.SignupStores | src/modules/auth/auth.services.ts:42-55 | the new user holds the hash, role USER and the normalised phone, and storing it keeps contacts unique |
| AuthServices.AcceptedLoginLookup | src/modules/auth/auth.services.ts:83-92 | an accepted login looks up by email when one is given, else by the normalised phone |
| AuthServices.LoginLookup | src/modules/auth/auth.services.ts:90-92 | by email exactly when a non-empty email string is sent; otherwise by a phone already in normal form |
| AuthServices.FoundUnique | src/modules/auth/auth.services.ts:90-96 | with unique contacts the user found is determined |
| AuthServices.LoginOutcome | src/modules/auth/auth.services.ts:68-169 | invalid body 400; success only for the found user with a matching password; the stored refresh token is the signed token of its id, email and role |
| AuthServices.CredentialsIndistinguishable | src/modules/auth/auth.services.ts:98-112 | an unknown user and a wrong password give the same 401, and only they do |
| AuthServices.UnconfiguredLoginIs500 | src/modules/auth/auth.services.ts:116-135 | a missing secret or expiry fails a login past the password with 500 |
| AuthServices.LoginKeepsContacts | src/modules/auth/auth.services.ts:138 | storing the refresh token keeps contacts unique |
| AuthServices.SanitizedAsWritten | src/modules/auth/auth.services.ts:143-152 | as written no `address` key is ever returned |
| AuthServices.AddressShadowsAvatar | src/modules/auth/auth.services.ts:150-151 | a user with an avatar and a different address gets the address as avatar |
| AuthServices.Sanitized | src/modules/auth/auth.services.ts:143-152 | intended: avatar and address each under its own key when set, the other fields copied |
| AuthServices.SanitizedAgreeWithoutAddress | src/modules/auth/auth.services.ts:143-152 | without an address the written and intended objects agree |
| AuthServices.Signup | src/modules/auth/auth.services.ts:10-65 | the signup outcome without password; the user stored under the fresh id on success and nothing changed otherwise |
| AuthServices.Login | src/modules/auth/auth.services.ts:68-169 | the login outcome for some lookup result, answered with the user object as written (a set address under `avatar`); the refresh token stored on success |

## Left out

- Cloudinary uploads and deletes, and removing the files multer stored locally (`deleteLocalFiles` in src/modules/product/product.utils.ts, src/shared/deleteLocalFiles.ts): network and file-system I/O. An upload enters as the URL it returned; only the product create also models an upload that throws (`Products.ProductStore.CreateUploadFails`). Elsewhere an upload runs before any write, so its failure is a 500 that changes nothing, and it is not modelled. Deleting a user's old avatar before the update is not modelled.
- Products.ProductStore.CreateAccepted: a successful create is stored once, with its uploaded images; the source saves it first with the body's images and then again after the upload (src/modules/product/product.services.ts:96-111). The intermediate state is observable only when the upload throws, which `Products.ProductStore.CreateUploadFails` models: the record of the first save stays stored and the answer is 500. Concurrent requests that could read the record between the two saves are not modelled.
- The multer disk-storage callbacks (creating the destination directory and the callback plumbing): file-system I/O. Only the stored file name is modelled (`Uploads.StoredName`).
- bcrypt hashing and comparison, `jwt.sign` and `jwt.verify`: cryptographic library calls. Each enters as a function parameter.
- `Date.now`, `Math.random` and the ObjectId MongoDB gives a new document: they enter as parameters (`now`, `draws`, `freshId`).
- Sku.GenerateSku: the source loops until a free SKU is drawn, with no bound. The model takes a finite sequence of draws and requires that one of them is free.
- `User.findOne` in login enters as the id it returned (`AuthServices.FoundBy`). With unique contacts that id is determined (`AuthServices.FoundUnique`).
- AuthServices.LoginOutcome: the access and refresh tokens are signed from the same claims, so one signing result stands for both.
- zod's e-mail regular expression is a parameter (`isEmail`). The `handleZodError` conversion used by the global handler is also a parameter.
- Mongoose internals: the query engine, `$regex` matching, population and Decimal128 casting. Collections are maps and the listing queries are condition values. Unique indexes are invariants that the services keep. The name check at src/modules/product/product.services.ts:179 filters on `name: parseBody.data.name`, which is undefined when no name is sent; Mongoose drops undefined filter keys, so the query matches any other product of the category, and `Products.UpdateWithoutNameConflicts` rests on that behaviour.
- Listing reads (`getAllProduct`, `getAllCategory`, `getAllBanners`, `getBannerImages`, and the find, skip, limit and count of `getAllUser`): reads with no decision logic beyond the filter and sort mapping, which is modelled. The pagination helper is not part of this model, and neither is the sort of `getAllProduct`.
- Products.PriceNumber: prices are reals. A string price casts only when it is made of decimal digits. Signs, fractions, exponents and floating-point rounding of `Number` and of `finalPrice` are not modelled.
- Products.ConditionFor: the `parseFloat` of the price filter is a parameter over reals, not JavaScript's float parse.
- Products.ImagesCast: only whole numbers below 1e21 in size are cast to text; other numbers, a null `images` value (which Mongoose stores as null) and a null array element are treated as cast failures.
- Categories.ImageField: the number cast covers whole numbers below 1e21 in size only; other numbers are treated as cast failures.
- Users.NameSet: a `firstName` or `lastName` that is not a string is treated as a cast failure.
- Banners.UpdatedBanner: an image value that is not a string is treated as a cast failure.
- Expiry.ParseExpiry: numbers are exact reals. A NaN argument (falsy in JavaScript, so it gets the default), infinities, and the double-precision rounding of `parseInt` and of the multiplication for digit strings beyond 2^53 are not modelled.
- Api.IsObjectId: ObjectIds are 24 hexadecimal characters. The 12-byte string form is not modelled.
- Users.UniqueContacts: an email or phone set to null is modelled as missing. A sparse unique index does index an explicit null, so a second null would be a duplicate key; the model does not capture that.
- `googleId` and `otp` are validated by the user schema but are not stored in the modelled user record, since no core operation reads them.
- Text.ToLower, Text.ToUpper and Categories.Slug work on ASCII letters only. JavaScript's Unicode case mapping is not modelled. The length bounds of the zod schemas (`.min`, `.max`) count characters of the model's strings, whereas JavaScript counts UTF-16 code units, so text outside the Basic Multilingual Plane is measured differently.
- Uploads.Accepts: the MIME type is the type and subtype as busboy hands them to multer, already lower-cased; parameters of the Content-Type header and busboy's parsing of it are not modelled.
- Uploads.ExtName: a name ending in '/' (where `path.extname` drops the trailing slash) is not modelled.
- The 7-day blacklist TTL (the expiry that the database enforces): time-based deletion is not modelled, so a blacklisted token stays blacklisted.
- Console logging, the rate limiter, CORS, controllers, routes and startup code: framework glue with no decision logic.
- Concurrency: the check-then-act uniqueness races and the parallel deletes are not modelled. Each operation runs alone against the store.

## Findings

| source | as written | input that shows it | evidently intended | confidence | as-written member | corrected member |
|---|---|---|---|---|---|---|
| src/modules/auth/auth.utils.ts:74-78 | `verifyToken` turns every jwt failure into a plain `Error`, so the `auth` catch block, which tests for jwt error classes, passes it on and the global handler answers 500 | a well-formed request whose bearer token has a bad signature or has expired | a rejected token is answered 401 "Invalid token" | not executed | AuthGate.InvalidTokenAnswered500 | AuthGate.InvalidTokenAnswered401Intended |
| src/modules/product/product.services.ts:493-501 | the guard refuses only a list of exactly one image, and the filter removes every copy of the URL | a product whose images are `[u, u]`, asked to delete `u` | the product always keeps at least one image | not executed | Products.DuplicateImageEmptiesProduct | Products.DeleteImageIntended |
| src/modules/banners/banners.services.ts:64-69 | `findByIdAndUpdate` is called without `{ new: true }`, so the banner returned is the one before the update | a stored banner updated with a different `image` | the reply shows the banner as updated | not executed | Banners.UpdateReturnsStale | Banners.UpdateIntended |
| src/modules/auth/auth.services.ts:150-151 | the address is spread under the key `avatar` | a user with an avatar and a different, non-empty address logging in | avatar and address each under its own key | not executed | AuthServices.AddressShadowsAvatar | AuthServices.Sanitized |
| src/middlewares/multer.middleware.ts:22-24 | the MIME type must contain one of the seven words, and QuickTime's registered type contains none of them | a file "<stem>.mov" uploaded as "video/quicktime" (`Uploads.QuickTimeTypeIntended`) | `mov` files, which the pattern lists, are accepted | not executed | Uploads.QuickTimeRefused | Uploads.QuickTimeAcceptedIntended |
