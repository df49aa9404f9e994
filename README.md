# Grocery backend core in Dafny

A model of the rule-bearing core of a grocery e-commerce REST backend. The
backend is written in JavaScript on Express, Mongoose (MongoDB) and Redis.
Each Dafny module follows one source file, or one document model with the
service and repository built on it:

- one-time passcodes (`OtpCodes`, `OtpService`) and the Redis reconnect back-off (`RedisConfig`);
- users:
  - the current user model (`UserSecurity`) and the earlier one (`LegacyUser`);
  - the user repository and service (`UserAccounts`);
  - the authentication and authorisation middleware (`Auth`);
  - the Joi validators (`UserValidation`);
- the category tree (`Categories`) and inventory documents with their service (`Inventory`);
- carts (`Carts`), wishlists (`Wishlists`) and addresses (`Addresses`);
- reviews and the rating statistics (`Reviews`), stores (`Stores`) and notifications (`Notifications`);
- shipping (`Shipping`), suppliers (`Suppliers`, `SupplierService`) and warehouses (`Warehouses`, `WarehouseService`);
- promotions (`Promotions`);
- payments: the Razorpay provider (`Razorpay`), the provider registry (`ProviderFactory`) and the payment service (`PaymentService`).

How the model is built:

- A MongoDB collection is a sequence of records in natural order, and `findOne` is the first match.
- A document whose methods assign fields and then call `save()` is a class. Its fields are the document's paths, and each method ensures that the new state is a specification function of the old one.
- Services and repositories that update a collection are classes holding that collection.
- Pure computations (validators, totals, statistics, back-off, discounts) are functions. The properties the source promises are proved about them as lemmas.
- Errors are `AppError(status, message)` for the backend's HTTP errors, or `Thrown(message)` for a plain or runtime error. Results are `Ok` or `Fail`.
- Money, ratings and percentages are `real`.
- The clock is an explicit `now` in milliseconds.
- These are parameters:
  - random bytes;
  - bcrypt, SHA-256, HMAC-SHA256 (RFC 2104 over FIPS 180-4), JWT and slugify;
  - the answers of remote services (Razorpay, the product service);
  - generated ids.

Where a source function does not do what its callers and its schema evidently
intend, the model keeps the function as written, shows the difference in a
lemma, and uses a corrected definition elsewhere. These cases are listed
under "## Findings".

## Model

| member | source | states |
|---|---|---|
| OtpCodes.DigitOf | src/utils/otp.js:15 | each random byte becomes the decimal digit `byte % 10` |
| OtpCodes.GenerateOtp | src/utils/otp.js:8-19 | the code has one decimal digit per drawn byte, digit i being byte i modulo 10 |
| OtpCodes.PreimagesClosedForm | src/utils/otp.js:15 | counts the byte values below n that map to a digit: n/10, plus one for the low digits of the last decade |
| OtpCodes.DigitBias | src/utils/otp.js:10-16 | the byte-to-digit reduction is biased: digits 0-5 each come from 26 byte values, digits 6-9 from 25 |
| OtpCodes.HexEncode | src/utils/otp.js:27 | hex output has two lower-case base16 digits per byte |
| OtpCodes.HexRoundTrip | src/utils/otp.js:27 | decoding the hex text of a token gives back the random bytes |
| OtpCodes.TokenShape | src/utils/otp.js:26-28 | generateToken returns 2·n lower-case hex digits that decode to the n drawn bytes |
| OtpService.KeyInjective | src/services/OTPService.js:146-148 | `otp:<type>:<identifier>` keys of colon-free types never collide |
| OtpService.VerifyAbsentChangesNothing | src/services/OTPService.js:44-51 | verifying a missing or expired key fails with 400 "OTP expired or not found" and changes nothing |
| OtpService.VerifyWrongCodeKeepsRecord | src/services/OTPService.js:53-66 | a wrong code within the limit returns false and stores attempts+1, the record kept |
| OtpService.VerifyPreservesBound | src/services/OTPService.js:53-61 | the stored attempts counter stays within 0..MAX_ATTEMPTS |
| OtpService.ThreeWrongThenRightFails | src/services/OTPService.js:54-58 | three wrong codes then the right one: false, false, false, then 400 "Maximum attempts exceeded" with the key deleted |
| OtpService.MatchConsumesCode | src/services/OTPService.js:64-70 | a matching code returns true and deletes the record, so repeating it reports not found |
| OtpService.AnsweredWithinBudget | src/services/OTPService.js:53-70 | over any sequence of guesses, at most MAX_ATTEMPTS minus the used attempts get a true/false answer |
| OtpService.AtMostThreeGuesses | src/services/OTPService.js:18-70 | a freshly stored code answers at most three verifications, whatever is guessed |
| OtpService.TtlRightAfterGenerate | src/services/OTPService.js:99-106 | right after generation the key's TTL is 600 seconds |
| OtpService.OtpStore.constructor | src/services/OTPService.js:6-10 | the store starts empty, which satisfies its invariant |
| OtpService.OtpStore.GenerateAndStore | src/services/OTPService.js:18-35 | a six-digit code, digit i being byte i modulo 10, is returned and stored with attempts 0 under the key, overwriting any earlier record; a store failure gives 500 "Failed to generate OTP" with the store unchanged |
| OtpService.OtpStore.Verify | src/services/OTPService.js:44-75 | the store and result follow the verification step (not-found, attempt count, limit, compare, delete); a store failure gives 500 |
| OtpService.OtpStore.HasValid | src/services/OTPService.js:83-91 | true exactly when the key exists and has not expired |
| OtpService.OtpStore.RemainingTime | src/services/OTPService.js:99-106 | the key's TTL in seconds, -2 for a missing key, never negative for a live one |
| OtpService.OtpStore.RemainingAttempts | src/services/OTPService.js:114-122 | 3 − attempts for a live key, 3 for a missing one, always within 0..3 |
| OtpService.OtpStore.Delete | src/services/OTPService.js:130-137 | removes exactly that key; a store failure gives 500 "Failed to delete OTP" and changes nothing |
| RedisConfig.RetryDelay | src/config/redis.config.js:9-12 | the reconnect delay is 50 ms per retry, never above 2000 ms |
| RedisConfig.RetryDelayMonotone | src/config/redis.config.js:9-12 | the delay never decreases as the retry count grows |
| RedisConfig.RetryDelayLinearThenFlat | src/config/redis.config.js:9-12 | linear up to the 40th retry, flat at 2000 ms from there |
| RedisConfig.TotalBackoffClosedForm | src/config/redis.config.js:9-12 | the total wait over n retries is 25·n·(n+1) up to 40, then 41000 + 2000·(n−40) |
| RedisConfig.SharedSettings | src/config/redis.config.js:3-61 | all environments share retries 3, the timeouts, keep-alive and no offline queue; only test uses db 1; only production uses TLS |
| RedisConfig.PrefixesSeparateEnvironments | src/config/redis.config.js:4-56 | no environment's key prefix is a prefix of another's |
| Auth.SecondField | src/middlewares/authenticate.js:16 | `split(' ')[1]` is the text between the first and second space, and undefined when there is no space |
| Auth.SecondFieldOf | src/middlewares/authenticate.js:16 | the second field of `a b rest` is b for space-free a and b |
| Auth.BearerToken | src/middlewares/authenticate.js:11-17 | a token is taken only from a header that starts with "Bearer", and never contains a space |
| Auth.BearerRoundTrip | src/middlewares/authenticate.js:12-17 | "Bearer t" yields t for every space-free t |
| Auth.SecondsOf | src/middlewares/authenticate.js:36-39 | `parseInt(ms / 1000, 10)` truncates milliseconds toward zero into whole seconds |
| Auth.Authenticate | src/middlewares/authenticate.js:8-53 | every failure is a 401; no token gives "Please log in"; success means a decodable token of an existing user not issued before the password change |
| Auth.PasswordChangeCutoff | src/middlewares/authenticate.js:35-45 | a token issued in the second of the password change or later passes; an earlier one gets "User recently changed password" |
| Auth.NoChangeFieldAdmitsEveryToken | src/middlewares/authenticate.js:26-49 | without passwordChangedAt, any decodable token of an existing user passes, and only those |
| Auth.Authorize | src/middlewares/authorize.js:8-33 | 401 without a user, everyone for an empty role list, 403 for a role outside the list, otherwise the user passes |
| Auth.AuthorizeDependsOnRoleOnly | src/middlewares/authorize.js:17-26 | two users with the same role get the same decision |
| Auth.Guard | src/middlewares/authenticate.js:8-53 | a request passes the chained guards only when authentication succeeds and the role is allowed |
| Auth.GuardFailsOnlyForbiddenAfterAuthentication | src/middlewares/authorize.js:12-26 | after a successful authentication the only possible failure is 403 |
| UserAccounts.WithoutToken | src/repositories/UserRepository.js:56-60 | after `$pull` an entry is in the list exactly when it was before and its token differs, and the list never grows |
| UserAccounts.WithoutTokenExact | src/repositories/UserRepository.js:56-60 | `$pull` is the filter on the other tokens: each remaining entry stays in order, as often as it was stored |
| UserAccounts.WithoutAbsentToken | src/repositories/UserRepository.js:56-60 | pulling a token that is not held leaves the list unchanged |
| UserAccounts.ApplyChange | src/repositories/UserRepository.js:17-60 | no field update of the repository ever changes a user's id or e-mail |
| UserAccounts.Update | src/repositories/UserRepository.js:17-60 | findByIdAndUpdate changes the document with that id and no other; a missing id changes nothing |
| UserAccounts.IndexOfId | src/services/UserService.js:112 | findById finds the first user with that id, or reports that none has it |
| UserAccounts.IndexOfEmail | src/repositories/UserRepository.js:9-15 | findByEmail finds the first user with that address, or reports that none has it |
| UserAccounts.SameIdsSameIndex | src/repositories/UserRepository.js:17-60 | a lookup by id depends on the ids alone |
| UserAccounts.SameEmailsSameIndex | src/repositories/UserRepository.js:9-15 | a lookup by e-mail depends on the e-mails alone |
| UserAccounts.UpdateKeepsShape | src/repositories/UserRepository.js:17-60 | every field update keeps ids and e-mails unique and lower-cased, and every lookup finds the same position as before |
| UserAccounts.VerifyEmailEffect | src/repositories/UserRepository.js:24-32 | verifyEmail marks the user verified and active and clears the one-time token, leaving the password, tokens and lock-out alone |
| UserAccounts.ResetPasswordEffect | src/repositories/UserRepository.js:41-48 | resetPassword stores the new hash, clears the reset token and stamps lastResetAt, leaving the refresh tokens alone |
| UserAccounts.IndexOfVerification | src/services/UserService.js:96-99 | the user found holds that token digest with an expiry strictly ahead of now; none is found exactly when no user does |
| UserAccounts.Sanitized | src/services/UserService.js:30-33 | the returned user has no password, verification token or expiry, and is otherwise the user |
| UserAccounts.RegisterHidesSecrets | src/services/UserService.js:12-36 | a registration of a new address appends one pending user with the lower-cased e-mail, the hash and the token's digest and expiry, and hands back that user without the three secrets, with the raw token |
| UserAccounts.RegisterKeepsEmailsUnique | src/services/UserService.js:12-36 | registration keeps the collection's e-mails unique and lower-cased whatever case the caller used |
| UserAccounts.RegisterRejectsAnyCase | src/services/UserService.js:14-17 | a second registration of the same address in any letter case fails with 400 "Email already registered" |
| UserAccounts.LoginHidesWhichCredentialFailed | src/services/UserService.js:40-55 | with a boolean password check, an unknown e-mail and a wrong password give the same 401 "Invalid email or password" |
| UserAccounts.LockedRefusedEvenWithRightPassword | src/services/UserService.js:45-48 | a locked account is refused with 401 even with the right password, and nothing is stored |
| UserAccounts.LoginSuccessEffect | src/services/UserService.js:62-81 | a successful login appends one refresh token valid for seven days, clears the lock-out, stamps lastLogin, and changes no other user |
| UserAccounts.WrongPasswordsNeverCount | src/services/UserService.js:51-55 | as written, any number of wrong passwords leaves the stored users unchanged, since comparePassword throws before incLoginAttempts |
| UserAccounts.WrongPasswordsLockWithBooleanCompare | src/services/UserService.js:51-55 | with a boolean comparison, n wrong passwords from a clean account change only that user's lock-out state, by n failures |
| UserAccounts.OneFailedLogin | src/services/UserService.js:51-55 | one wrong password, with a boolean comparison, counts exactly one failure against that user only |
| UserAccounts.FiveWrongPasswordsLockWithBooleanCompare | src/services/UserService.js:51-55 | five wrong passwords in a row lock a clean account |
| UserAccounts.RefreshTokenIsSingleUse | src/services/UserService.js:109-144 | after a successful rotation the old refresh token is refused with 401 "Invalid refresh token" at any later time |
| UserAccounts.RefreshRotates | src/services/UserService.js:131-138 | a successful refresh removes the presented token, appends exactly the new seven-day one, and changes no other user |
| UserAccounts.LogoutRemovesOnlyThatToken | src/services/UserService.js:146-149 | logout replaces that user's tokens by the pulled list, which keeps every other entry as often as stored, and changes nothing else |
| UserAccounts.UserRepository.constructor | src/repositories/UserRepository.js:5-7 | a new repository starts empty and well formed |
| UserAccounts.UserRepository.FindByEmail | src/repositories/UserRepository.js:9-15 | a user is found exactly when one holds the lower-cased address, and it is the first such |
| UserAccounts.UserRepository.FindById | src/services/UserService.js:112 | a user is found exactly when one holds that id |
| UserAccounts.UserRepository.Create | src/services/UserService.js:20 | create appends the user, or fails with a duplicate-key error and changes nothing when the address is taken |
| UserAccounts.UserRepository.UpdateById | src/repositories/UserRepository.js:17-60 | the stored users become Update of the old ones; the result is the updated document, or null for a missing id |
| UserAccounts.UserRepository.CreateVerificationToken | src/repositories/UserRepository.js:17-22 | the user's verification token and expiry are set |
| UserAccounts.UserRepository.VerifyEmail | src/repositories/UserRepository.js:24-32 | the user is marked verified as VerifyEmailEffect states |
| UserAccounts.UserRepository.ResetPassword | src/repositories/UserRepository.js:41-48 | the password is replaced as ResetPasswordEffect states |
| UserAccounts.UserRepository.AddRefreshToken | src/repositories/UserRepository.js:50-54 | the entry is appended to that user's refresh tokens |
| UserAccounts.UserRepository.RemoveRefreshToken | src/repositories/UserRepository.js:56-60 | entries with that token are pulled from that user's refresh tokens |
| UserAccounts.UserService.constructor | src/services/UserService.js:8-10 | the service is bound to the given repository and to the chosen user model's password comparison |
| UserAccounts.UserService.Register | src/services/UserService.js:12-36 | result and new collection are those of RegisterSpec: 400 for a taken address, else the new user with password and verification token blanked, and the raw token |
| UserAccounts.UserService.Login | src/services/UserService.js:38-88 | result and new collection are those of LoginSpec, checking user, lock, password and verification in the source's order |
| UserAccounts.UserService.VerifyEmail | src/services/UserService.js:90-107 | result and new collection are those of VerifyEmailSpec: 400 for an unknown or expired digest |
| UserAccounts.UserService.Refresh | src/services/UserService.js:109-144 | result and new collection are those of RefreshSpec, where every failure reads as 401 "Invalid refresh token" |
| UserAccounts.UserService.Logout | src/services/UserService.js:146-149 | the token is pulled from that user and the answer is "Logged out successfully", even for a missing user |
| UserSecurity.IncAttempts | src/models/user/user.model.js:473-490 | an expired lock restarts the count at 1; otherwise the count goes up by one and the fifth failure sets a two-hour lock |
| UserSecurity.ResetAttempts | src/models/user/user.model.js:493-498 | after a reset the count is 0 and the account is unlocked at every time |
| UserSecurity.FailuresLockAfterFive | src/models/user/user.model.js:484-487 | from a clean account, n failures leave n attempts; the fifth sets the lock and later ones do not extend it |
| UserSecurity.FiveFailuresLock | src/models/user/user.model.js:468-490 | five failures lock the account and four do not |
| UserSecurity.ExpiredLockRestartsCount | src/models/user/user.model.js:474-480 | once the lock has passed, the next failure gives count 1 and no lock |
| UserSecurity.PushHistory | src/models/user/user.model.js:397-404 | the new entry comes last, and the history never grows past five |
| UserSecurity.HistoryKeepsLastFive | src/models/user/user.model.js:397-404 | after any series of password changes, the history is exactly the last min(n, 5) changes, oldest first |
| UserSecurity.ComparePassword | src/models/user/user.model.js:420-437 | the result is Ok(true) exactly for a present, matching password and is never Ok(false); a missing password throws "not selected" |
| UserSecurity.Serialize | src/models/user/user.model.js:305-324 | the output keeps every field of the document except password, refreshTokens, emailVerification and passwordReset, with the same values |
| UserSecurity.SerializeIdempotent | src/models/user/user.model.js:305-324 | serialising twice gives the same document, which never holds the password or the refresh tokens |
| UserSecurity.AccountDoc.constructor | src/models/user/user.model.js:252-290 | a new document has no failed attempts, no lock, an empty history and a password marked modified |
| UserSecurity.AccountDoc.SetPassword | src/models/user/user.model.js:390 | assigning the password marks it modified and leaves the lock-out and the history alone |
| UserSecurity.AccountDoc.Save | src/models/user/user.model.js:388-411 | a modified password is replaced by its hash, pushed onto the history and stamped; an unmodified one changes nothing |
| UserSecurity.AccountDoc.Locked | src/models/user/user.model.js:468-470 | locked exactly when lockUntil is set and later than now |
| UserSecurity.AccountDoc.IncLoginAttempts | src/models/user/user.model.js:473-490 | the lock-out state becomes IncAttempts of the old one, and the password is untouched |
| UserSecurity.AccountDoc.ResetLoginAttempts | src/models/user/user.model.js:493-498 | the count becomes 0 and the lock is cleared |
| UserSecurity.AccountDoc.UpdateLastLogin | src/models/user/user.model.js:501-512 | lastLogin and the IP are stamped and the login count goes up by one |
| UserSecurity.AccountDoc.CreatePasswordResetToken | src/models/user/user.model.js:440-451 | the raw token is returned, and its digest is stored with a ten-minute expiry |
| UserSecurity.AccountDoc.CreateEmailVerificationToken | src/models/user/user.model.js:454-465 | the raw token is returned, and its digest is stored with a 24-hour expiry |
| LegacyUser.TotalItemsAppend | src/models/user.model.js:420 | the item count of two concatenated carts is the sum of their counts |
| LegacyUser.TotalItemsAtLeastLines | src/models/user.model.js:250-254 | with every quantity at least 1, the total is at least the number of lines |
| LegacyUser.ComparePassword | src/models/user.model.js:427-433 | bcrypt's verdict is returned as a boolean; only a missing hash throws "Password comparison failed" |
| LegacyUser.MismatchIsFalseNotThrown | src/models/user.model.js:427-433 | a mismatch reads Ok(false) here and is thrown by the current model |
| LegacyUser.LegacyUserDoc.constructor | src/models/user.model.js:243-270 | a new document has an empty cart with count 0 and no failed logins |
| LegacyUser.LegacyUserDoc.AddCartLine | src/models/user.model.js:250-254 | a line is added exactly when its quantity is at least 1, and marks the cart modified |
| LegacyUser.LegacyUserDoc.Save | src/models/user.model.js:403-424 | the password is re-hashed only when modified; the cart count is recomputed and stamped only when the items changed, and is never below the number of lines |
| LegacyUser.LegacyUserDoc.IncLoginAttempts | src/models/user.model.js:469-486 | the same lock-out rule as the current model |
| UserValidation.ValidatePassword | src/validations/user.validation.js:32-40 | a password is accepted only when it matches the pattern; a missing one is "required" and a short one "at least 8 characters" |
| UserValidation.PasswordAcceptedIffPattern | src/validations/user.validation.js:32-40 | acceptance holds exactly for the pattern; a long enough password off the pattern gets the pattern message |
| UserValidation.PasswordExamples | src/validations/user.validation.js:34 | "Secret1!" passes, while a missing capital or a space fails on the pattern |
| UserValidation.ValidatePhone | src/validations/user.validation.js:42-46 | a phone is accepted exactly when missing or matching the pattern, and is kept as given |
| UserValidation.PhoneLengthBounds | src/validations/user.validation.js:43 | an accepted phone has 10 to 16 characters, only the first may be '+', and 16 only with the '+' |
| UserValidation.PhoneSinglePlus | src/validations/user.validation.js:43 | a phone with a '+' after the first character is refused |
| UserValidation.ValidateName | src/validations/user.validation.js:4-22 | a name is accepted exactly when present with 2 to 30 characters, with the field's own messages for too long and too short |
| UserValidation.ThirtyCharacterNameAccepted | src/validations/user.validation.js:6 | a name of exactly 30 characters passes, despite the "less than 30" message |
| UserValidation.FirstInvalidAddress | src/validations/user.validation.js:48-62 | the reported address is the first invalid one; none is reported exactly when all are valid |
| UserValidation.ValidateCurrency | src/validations/user.validation.js:69 | a currency is accepted exactly when missing or three characters long, and is stored without lower-case letters |
| UserValidation.CurrencyKeepsUpperCase | src/validations/user.validation.js:69 | a three-letter currency already in upper case is stored as given |
| UserValidation.ValidateLogin | src/validations/user.validation.js:74-88 | login input is accepted exactly for a non-empty well-formed e-mail and a non-empty password; a missing e-mail is reported first |
| UserValidation.LoginAcceptsWeakPassword | src/validations/user.validation.js:83-87 | the login schema accepts a password that the registration schema refuses |
| Categories.IndexOf | src/repositories/CategoryRepository.js:21 | findById finds the first record with that id, or reports that none has it |
| Categories.SlugOwner | src/repositories/CategoryRepository.js:29-31 | the record found already uses the slug and is not the excepted one; none is found exactly when no other record uses it |
| Categories.UnderParent | src/repositories/CategoryRepository.js:22-23 | a placed child keeps its identity and records the parent's ancestors followed by the parent, one level deeper |
| Categories.ApplyPatch | src/repositories/CategoryRepository.js:77-81 | the `$set` never changes the id, the ancestors or the level |
| Categories.ChildCount | src/repositories/CategoryRepository.js:105 | the count is zero exactly when no record names the category as parent |
| Categories.ProductCount | src/repositories/CategoryRepository.js:111 | the count is zero exactly when no product belongs to the category |
| Categories.WithParent | src/repositories/CategoryRepository.js:50-60 | find by parent yields exactly the stored records with that parent |
| Categories.ChildCountIsWithParent | src/services/CategoryService.js:148-151 | the subcategory count equals the number of records findByParent returns |
| Categories.WithIdIn | src/repositories/CategoryRepository.js:133-135 | the `$in` query yields exactly the stored records whose id is listed, none twice more than stored |
| Categories.SortByLevel | src/repositories/CategoryRepository.js:135 | `.sort('level')` orders by level and is a permutation of its input |
| Categories.PathSpec | src/repositories/CategoryRepository.js:127-138 | 404 exactly for an unknown id; otherwise the path holds exactly the stored ancestors and the category itself, ordered by level |
| Categories.StatisticsSpec | src/services/CategoryService.js:142-159 | 404 exactly for an unknown id; otherwise the level is the category's, each count is zero exactly when nothing refers to it, and the path is the category path |
| Categories.CreateUnderParent | src/repositories/CategoryRepository.js:15-27 | a child created under an existing parent is appended with the parent's ancestors plus the parent, one level deeper |
| Categories.SameIndexAfterAppend | src/repositories/CategoryRepository.js:21 | appending a record does not move an existing record's lookup |
| Categories.AbsentAfterAppend | src/repositories/CategoryRepository.js:21 | an absent id stays absent after appending a record with another id |
| Categories.CreateMissingParentLeavesRootRecord | src/repositories/CategoryRepository.js:17-22 | a missing parent throws after the insert, and a root-level record with no ancestors stays behind |
| Categories.CreateKeepsWellFormed | src/repositories/CategoryRepository.js:15-34 | creation keeps ids and slugs unique and levels within 0..5 |
| Categories.UpdateKeepsWellFormed | src/repositories/CategoryRepository.js:76-96 | the update as written keeps ids and slugs unique and levels within 0..5 |
| Categories.UpdateCorrectedKeepsWellFormed | src/repositories/CategoryRepository.js:76-96 | the corrected update keeps ids and slugs unique and levels within 0..5 |
| Categories.DeleteRemovesOnlyThatRecord | src/repositories/CategoryRepository.js:116-119 | a successful delete removes exactly the record with that id and keeps every other |
| Categories.RemoveAtKeepsOthers | src/repositories/CategoryRepository.js:116 | cutting one record out keeps every record with another id |
| Categories.RemoveAtDropsId | src/repositories/CategoryRepository.js:116 | with unique ids, no record with the removed id remains |
| Categories.DeleteReportsChildrenFirst | src/repositories/CategoryRepository.js:104-108 | a category with a child is refused with 400 "Cannot delete category with subcategories", whatever its products, and nothing changes |
| Categories.RootCategoriesExact | src/repositories/CategoryRepository.js:58-60 | findRootCategories yields exactly the stored records without a parent |
| Categories.MoveToRootKeepsStaleAncestors | src/services/CategoryService.js:129-134 | as written, moving a category to the root nulls its parent but keeps its old ancestors and level |
| Categories.MoveToRootExample | src/repositories/CategoryRepository.js:87-93 | a child moved to the root as written is no longer placed consistently with its parent field |
| Categories.MoveOntoItselfAccepted | src/services/CategoryService.js:116-127 | as written, a category can be made its own parent and then lists itself among its ancestors |
| Categories.CorrectedMoveKeepsAcyclic | src/services/CategoryService.js:110-135 | with the corrected move, a collection with unique ids in which no climb through parent fields returns to its start keeps that property, whatever the outcome of the move |
| Categories.CorrectedMovePlacesRecord | src/repositories/CategoryRepository.js:87-93 | with the corrected move, a moved category is never its own parent or ancestor, and is placed consistently with its new parent (a root at level 0, otherwise one level below its parent with the parent's ancestors and the parent) |
| Categories.ReparentKeepsAcyclic | src/repositories/CategoryRepository.js:87-93 | re-parenting one category under a parent whose chain of parents does not reach it creates no parent cycle |
| Categories.NoCycleThroughReparented | src/repositories/CategoryRepository.js:87-93 | after such a re-parenting, no cycle of parent links passes through the re-parented category |
| Categories.ClimbLength | src/services/CategoryService.js:116-127 | in a collection with unique ids, a climb through parent fields that repeats no category is no longer than the collection |
| Categories.ClimbInChain | src/services/CategoryService.js:116-127 | every category reached by climbing parent fields from a start lies on the bounded parent chain the corrected guard inspects |
| Categories.StaleAncestorsAdmitCycleAsWritten | src/services/CategoryService.js:116-127 | as written, on the tree x, a, b under a, c under b, moving a under x and then x under c are both accepted and leave the cycle x, c, b, a, x; the corrected move refuses the second move with 400 |
| Categories.ServiceWritesThenThrowsAsWritten | src/services/CategoryService.js:81-93 | as written, create, update and moveCategory never return a category: whenever the repository write succeeds the service throws "category.updateProductCount is not a function", and the collection is the one the write left |
| Categories.CreateStoredButThrowsAsWritten | src/services/CategoryService.js:15-26 | as written, creating a category with a fresh slug stores it and still throws |
| Categories.CategoryRepository.constructor | src/repositories/CategoryRepository.js:6-8 | a new repository is empty and well formed |
| Categories.CategoryRepository.FindById | src/repositories/CategoryRepository.js:21 | a record is found exactly when one has the id, and it is the first such |
| Categories.CategoryRepository.FindBySlug | src/repositories/CategoryRepository.js:41-43 | a record is found exactly when one has the slug |
| Categories.CategoryRepository.FindRootCategories | src/repositories/CategoryRepository.js:58-60 | exactly the stored records without a parent |
| Categories.CategoryRepository.FindByParent | src/repositories/CategoryRepository.js:50-52 | exactly the stored records with that parent |
| Categories.CategoryRepository.Create | src/repositories/CategoryRepository.js:15-34 | result and new collection are those of CreateSpec, and the collection stays well formed |
| Categories.CategoryRepository.Update | src/repositories/CategoryRepository.js:76-96 | result and new collection are those of the corrected update, and the collection stays well formed |
| Categories.CategoryRepository.Delete | src/repositories/CategoryRepository.js:103-120 | result and new collection are those of DeleteSpec: children first, then products, then existence |
| Categories.CategoryRepository.GetCategoryPath | src/repositories/CategoryRepository.js:127-138 | the answer is PathSpec's, sorted by level |
| Categories.CategoryService.constructor | src/services/CategoryService.js:6-8 | the service is bound to the given repository |
| Categories.CategoryService.Create | src/services/CategoryService.js:15-26 | the slug is always derived from the name, and the outcome is the repository's create, without the undefined updateProductCount call that follows it (see Findings) |
| Categories.CategoryService.Update | src/services/CategoryService.js:81-93 | a new slug is derived only when a truthy name is given, and the outcome is the corrected update, without the undefined updateProductCount call that follows it (see Findings) |
| Categories.CategoryService.GetBySlug | src/services/CategoryService.js:33-39 | a stored category with that slug, or 404 "Category not found" exactly when none has it |
| Categories.CategoryService.MoveCategory | src/services/CategoryService.js:110-135 | result and new collection are those of the corrected move, which refuses a new parent that is the category, lists it among its ancestors, or reaches it by climbing parent fields |
| Categories.CategoryService.GetStatistics | src/services/CategoryService.js:142-159 | the answer is StatisticsSpec's |
| Inventory.Moved | src/models/inventory/inventory.model.js:187-193 | 'in' adds, 'out' subtracts but never below 0, 'adjustment' sets the amount clamped at 0, and transfer and return leave the quantity unchanged |
| Inventory.InThenOutRestores | src/models/inventory/inventory.model.js:187-190 | receiving n units and then shipping n units restores any non-negative quantity |
| Inventory.AdjustmentOverrides | src/models/inventory/inventory.model.js:191-192 | an adjustment's result does not depend on the previous quantity |
| Inventory.StockAlertFor | src/models/inventory/inventory.model.js:212-222 | at most one new, unacknowledged stock alert; it is critical exactly at or under the critical threshold, and none is added above both thresholds |
| Inventory.FilterDropsStockAlerts | src/models/inventory/inventory.model.js:208-210 | the filter leaves no low- or critical-stock alert |
| Inventory.AlertsAfterShape | src/models/inventory/inventory.model.js:204-223 | after the check, every other alert is kept and exactly one stock alert remains at or under a threshold, none above both |
| Inventory.AlertsAfterIdempotent | src/models/inventory/inventory.model.js:204-223 | checking twice at one instant gives the same alerts as checking once |
| Inventory.InventoryDoc.constructor | src/models/inventory/inventory.model.js:22-60 | a new document has zero stock, thresholds 10, 5 and 20, and no movements or alerts |
| Inventory.InventoryDoc.CheckStockAlerts | src/models/inventory/inventory.model.js:204-223 | the alerts become AlertsAfter of the old ones at the available stock, and nothing else changes |
| Inventory.InventoryDoc.UpdateStock | src/models/inventory/inventory.model.js:178-201 | the movement is logged, the quantity moved, `available` refreshed and alerts checked; the save succeeds exactly when the schema minimums hold |
| Inventory.IndexOfItem | src/services/InventoryService.js:45 | findById finds an item with that id, or reports that none has it |
| Inventory.IndexOfPair | src/services/InventoryService.js:27-30 | findByProductAndWarehouse finds an item with that pair, or reports that none has it |
| Inventory.ApplyItemPatch | src/services/InventoryService.js:64-70 | an update never changes the item's id |
| Inventory.CreateGuardsInOrder | src/services/InventoryService.js:13-41 | an unknown product is reported before an unknown warehouse; a created item records its creator and is appended |
| Inventory.CreateKeepsPairsUnique | src/services/InventoryService.js:27-33 | creation keeps (product, warehouse) pairs unique |
| Inventory.UpdateWithoutMoveNeverDuplicate | src/services/InventoryService.js:50-62 | an update that changes neither product nor warehouse succeeds exactly for a stored id |
| Inventory.UpdateKeepsPairsUnique | src/services/InventoryService.js:44-73 | an accepted update keeps (product, warehouse) pairs unique, the item itself excepted from the check |
| Inventory.UpdateDeleteNeverApplyAsWritten | src/services/InventoryService.js:64-81 | as written, update and delete never change the collection: each call that passes the guards throws, exactly where the corrected one succeeds |
| Inventory.DeleteRemovesOnlyThatItem | src/services/InventoryService.js:75-83 | the corrected delete removes exactly the item with that id and keeps ids unique |
| Inventory.CutItem | src/services/InventoryService.js:81 | cutting one item out leaves exactly the items with other ids |
| Inventory.CutItemUnique | src/services/InventoryService.js:81 | cutting one item out keeps ids unique |
| Inventory.Dispatch | src/services/InventoryService.js:93-113 | search wins over status, status over batch number, batch number over a complete expiry range; all items exactly when none applies |
| Inventory.HalfRangeIgnored | src/services/InventoryService.js:103 | an expiry range with only a start falls through to all items |
| Inventory.Run | src/services/InventoryService.js:93-113 | an item is returned exactly when it is stored and the dispatched lookup selects it, and the unfiltered lookup returns all of them |
| Inventory.RunWithoutSearch | src/services/InventoryService.js:99-109 | the lookups other than the text search do not depend on how text matching is done |
| Inventory.SearchAsWrittenThrows | src/services/InventoryService.js:97-98 | as written, a query with a search fails exactly when the search is truthy, with "this.inventoryRepository.searchInventory is not a function"; any other query returns what the corrected dispatch returns |
| Inventory.InventoryService.constructor | src/services/InventoryService.js:7-11 | a new service has no items and the given products and warehouses |
| Inventory.InventoryService.CreateInventoryItem | src/services/InventoryService.js:13-42 | result and new collection are those of CreateSpec, and ids and pairs stay unique |
| Inventory.InventoryService.UpdateInventoryItem | src/services/InventoryService.js:44-73 | result and new collection are those of the corrected update |
| Inventory.InventoryService.DeleteInventoryItem | src/services/InventoryService.js:75-83 | result and new collection are those of the corrected delete |
| Inventory.InventoryService.GetInventoryItem | src/services/InventoryService.js:85-91 | a stored item with that id, or 404 exactly when none has it |
| Inventory.InventoryService.UpdateStock | src/services/InventoryService.js:115-128 | 404 for an unknown id; otherwise only that item's quantity and updatedBy change |
| Inventory.InventoryService.UpdateStatus | src/services/InventoryService.js:130-143 | 404 for an unknown id; otherwise only that item's status and updatedBy change |
| Inventory.InventoryService.GetAllInventoryItems | src/services/InventoryService.js:93-113 | an item is returned exactly when it is stored and the dispatched lookup selects it, with the text search supplied (see Findings) |
| Inventory.InventoryService.GetWarehouseInventory | src/services/InventoryService.js:153-160 | 404 exactly for an unknown warehouse; otherwise exactly that warehouse's items |
| Inventory.InventoryService.GetProductInventory | src/services/InventoryService.js:162-169 | 404 exactly for an unknown product; otherwise exactly that product's items |
| Inventory.InventoryService.FindByLocation | src/services/InventoryService.js:171-178 | 404 exactly for an unknown warehouse; otherwise exactly the items at that location in it |
| Carts.SubtotalConcat | src/models/cart/cart.model.js:96 | the subtotal of two runs of lines is the sum of their subtotals |
| Carts.SubtotalSingle | src/models/cart/cart.model.js:96 | a single line's subtotal is its price times its quantity |
| Carts.SubtotalReplace | src/models/cart/cart.model.js:96 | replacing one line moves the subtotal by exactly the difference of the two line totals |
| Carts.SubtotalNonNegative | src/models/cart/cart.model.js:14-23 | with every quantity at least 1 and every price at least 0, the subtotal is never negative |
| Carts.TotalsFormula | src/models/cart/cart.model.js:95-100 | the total is 110% of the subtotal plus shipping minus discount, the tax is a tenth of the subtotal, and it is never negative for well-formed lines |
| Carts.TotalMayBeNegative | src/models/cart/cart.model.js:98 | the total is not clamped: a discount of 5 on an empty cart gives -5 |
| Carts.SubtotalAfterPush | src/repositories/cart/cart.repository.js:54-60 | pushing a line raises the subtotal by that line's total |
| Carts.CartDoc.constructor | src/models/cart/cart.model.js:38-74 | a new cart for the given user and creator is active, in USD, empty, with zero totals, and expires 30 days after creation |
| Carts.CartDoc.CalculateTotals | src/models/cart/cart.model.js:95-100 | the stored subtotal, tax and total become TotalsOf the lines and charges, and nothing else changes |
| Carts.CartDoc.Save | src/models/cart/cart.model.js:3-107 | a save succeeds exactly when the user and creator are present and the lines meet the schema minimums (quantity at least 1, price at least 0); it then re-totals the cart and stamps lastUpdated; a refused save changes nothing |
| Carts.IndexOfCart | src/repositories/cart/cart.repository.js:47 | findById finds the first cart with that id, or reports that none has it |
| Carts.IndexOfItem | src/services/cart/cart.service.js:60 | the first line with that id, or a report that none has it |
| Carts.IndexOfActive | src/repositories/cart/cart.repository.js:21-31 | the first active cart of the user, or a report that the user has none |
| Carts.SetQuantity | src/repositories/cart/cart.repository.js:70-76 | the positional `$set` gives the first line with that id the new quantity and leaves every other line alone |
| Carts.RemoveAfterAddRestores | src/repositories/cart/cart.repository.js:54-68 | pulling a freshly pushed line, whose id no other line has, gives the old lines back |
| Carts.SetQuantitySubtotal | src/repositories/cart/cart.repository.js:70-76 | a quantity change moves the subtotal by the difference of the old and new line totals |
| Carts.LineDifference | src/models/cart/cart.model.js:96 | that difference is the price times the change in quantity |
| Carts.UpdateCartFrame | src/repositories/cart/cart.repository.js:46-84 | an update of one cart leaves every other cart as it was and keeps ids unique |
| Carts.AddItemSucceedsIff | src/services/cart/cart.service.js:33-50 | addItem succeeds exactly when the product is known, has the stock, and the cart exists |
| Carts.AddItemStoresCurrentPriceAndRetotals | src/services/cart/cart.service.js:43-49 | a successful addItem appends the line at the product's current price and re-totals the stored cart, while the returned cart keeps the old total |
| Carts.AddItemKeepsIds | src/services/cart/cart.service.js:33-50 | addItem keeps every cart in place and ids unique |
| Carts.IndexOfOwnId | src/repositories/cart/cart.repository.js:47 | with unique ids, a cart's own id finds it |
| Carts.SameIdsSameIndex | src/repositories/cart/cart.repository.js:47 | collections with the same ids in the same places find every id in the same place |
| Carts.UpdateQuantityRetotals | src/services/cart/cart.service.js:58-78 | a successful quantity change re-totals the stored cart by the difference of the old and new line totals, and only when the product has the stock |
| Carts.LineErrors | src/services/cart/cart.service.js:107-120 | at most two messages per line; an unknown product gives only "Product … not found"; none exactly when the product exists, has the stock and has the line's price |
| Carts.NoErrorsIffAllLinesValid | src/services/cart/cart.service.js:103-127 | no errors exactly when every line is valid |
| Carts.ErrorsBounded | src/services/cart/cart.service.js:103-127 | at most two errors per line |
| Carts.CartRepository.constructor | src/repositories/cart/cart.repository.js:5-7 | a new repository is empty |
| Carts.CartRepository.FindById | src/repositories/cart/cart.repository.js:47 | null exactly for an unknown id, else the stored cart |
| Carts.CartRepository.FindActiveByUser | src/repositories/cart/cart.repository.js:21-32 | null exactly when the user has no active cart, else the first one |
| Carts.CartRepository.FindByUser | src/repositories/cart/cart.repository.js:9-20 | exactly the stored carts of the user |
| Carts.CartRepository.FindByStatus | src/repositories/cart/cart.repository.js:33-44 | exactly the stored carts with that status |
| Carts.CartRepository.FindAbandonedCarts | src/repositories/cart/cart.repository.js:86-94 | exactly the active carts last touched before `days` days ago |
| Carts.CartRepository.Create | src/repositories/BaseRepository.js:6-9 | the outcome is CreateSpec's: a cart without user or creator, or with a line below the schema minimums, is refused with "Cart validation failed" and nothing stored; otherwise it is stored re-totalled and stamped by the save hook |
| Carts.CreateStoresRetotalledCart | src/models/cart/cart.model.js:95-107 | a create succeeds exactly when the cart is saveable; the stored and returned cart then has subtotal the sum of price times quantity, tax a tenth of it, total subtotal plus tax plus shipping minus discount, and ids stay unique; a refusal stores nothing |
| Carts.CreateTotalsExample | src/models/cart/cart.model.js:95-100 | creating a cart with one line of 2 at 5 stores subtotal 10, tax 1 and total 11 |
| Carts.RetotalAfterCreateChangesNothing | src/services/cart/cart.service.js:11-15 | re-totalling the cart just created stores exactly what the create already stored |
| Carts.CartRepository.AddItem | src/repositories/cart/cart.repository.js:54-60 | the outcome is AddItemSpec's: the line pushed onto that cart, null for an unknown cart |
| Carts.CartRepository.RemoveItem | src/repositories/cart/cart.repository.js:62-68 | the outcome is RemoveItemSpec's: every line with that id pulled |
| Carts.CartRepository.UpdateItemQuantity | src/repositories/cart/cart.repository.js:70-76 | the outcome is UpdateItemQuantitySpec's: null unless the cart holds the line |
| Carts.CartRepository.ClearCart | src/repositories/cart/cart.repository.js:78-84 | the outcome is ClearCartSpec's: the cart's lines emptied |
| Carts.CartRepository.UpdateStatus | src/repositories/cart/cart.repository.js:46-52 | the outcome is UpdateStatusSpec's |
| Carts.CartRepository.WriteTotals | src/services/cart/cart.service.js:95-100 | the outcome is WriteTotalsSpec's: the totals and lastUpdated written to that cart |
| Carts.CartService.constructor | src/services/cart/cart.service.js:6-9 | the service is bound to the given repository |
| Carts.CartService.CalculateTotals | src/services/cart/cart.service.js:90-101 | the totals computed from the given cart's lines are written to the stored cart |
| Carts.CartService.Create | src/services/cart/cart.service.js:11-15 | the outcome is CreateSpec's: an unsaveable cart is refused with nothing stored, and the re-totalling after a successful save writes back what the save stored |
| Carts.CartService.AddItem | src/services/cart/cart.service.js:33-50 | the outcome is ServiceAddItemSpec's |
| Carts.CartService.RemoveItem | src/services/cart/cart.service.js:52-56 | the pull followed by the re-totalling; an unknown cart fails reading `items` of null |
| Carts.CartService.UpdateItemQuantity | src/services/cart/cart.service.js:58-78 | the outcome is ServiceUpdateQuantitySpec's |
| Carts.CartService.ClearCart | src/services/cart/cart.service.js:80-84 | the clear followed by the re-totalling; an unknown cart fails reading `items` of null |
| Carts.CartService.ValidateCart | src/services/cart/cart.service.js:103-127 | the errors are ValidationErrors of the lines, and the cart is valid exactly when every line is |
| Wishlists.IndexOfProduct | src/models/wishlist/wishlist.model.js:132-134 | the first item for the product, or a report that no item has it |
| Wishlists.AddItemNeverDuplicates | src/models/wishlist/wishlist.model.js:123-150 | addItem succeeds exactly for a known product not yet listed; it then appends one item with that product and the product's store, keeps the earlier items, and never creates a duplicate product |
| Wishlists.RemoveAfterAddRestores | src/models/wishlist/wishlist.model.js:123-161 | removing a product just added gives the old item list back |
| Wishlists.UpdateItemTouchesOnlyMatch | src/models/wishlist/wishlist.model.js:164-175 | updateItem changes only the item for that product, keeps every item's id, product and store, and keeps products unique |
| Wishlists.IndexOfShare | src/models/wishlist/wishlist.model.js:212-214 | the share of that user, or a report that the user has none |
| Wishlists.ShareKeepsUsersUnique | src/models/wishlist/wishlist.model.js:211-228 | after shareWith the user holds exactly one share, with the new permission and time, other users' shares are kept, and users stay unique |
| Wishlists.UnshareRemovesOnlyThatUser | src/models/wishlist/wishlist.model.js:231-237 | unshareWith removes exactly that user's shares and keeps every other |
| Wishlists.HitsExactlyFiring | src/models/wishlist/wishlist.model.js:240-262 | checkPriceAlerts reports one alert per enabled item whose product's price is at or below the target, and none for any other item |
| Wishlists.DocMoveToCart | src/models/wishlist/wishlist.model.js:178-208 | the document's moveToCart always throws: "Item not found in wishlist" exactly when no item has the product, otherwise because the cart document has no addItem |
| Wishlists.WishlistDoc.constructor | src/models/wishlist/wishlist.model.js:34-101 | a new wishlist has no items and no shares |
| Wishlists.WishlistDoc.AddItem | src/models/wishlist/wishlist.model.js:123-150 | the items become AddItemSpec of the old ones and lastUpdated the current time; a refused add changes nothing |
| Wishlists.WishlistDoc.RemoveItem | src/models/wishlist/wishlist.model.js:153-161 | every item for the product goes and lastUpdated is stamped |
| Wishlists.WishlistDoc.UpdateItem | src/models/wishlist/wishlist.model.js:164-175 | the matching item is merged with the updates; lastUpdated is stamped only when an item matched |
| Wishlists.WishlistDoc.ShareWith | src/models/wishlist/wishlist.model.js:211-228 | the shares become ShareSpec of the old ones and nothing else changes |
| Wishlists.WishlistDoc.UnshareWith | src/models/wishlist/wishlist.model.js:231-237 | the shares become UnshareSpec of the old ones and nothing else changes |
| Wishlists.WishlistDoc.CheckPriceAlerts | src/models/wishlist/wishlist.model.js:240-262 | the loop returns the firing alerts in item order and stamps lastChecked on every enabled item, leaving the rest unchanged |
| Wishlists.IndexOfList | src/repositories/BaseRepository.js:11-13 | findById finds the wishlist with that id, or reports that none has it |
| Wishlists.IndexOfWishItem | src/services/wishlist/wishlist.service.js:78 | the first item with that id, or a report that none has it |
| Wishlists.ClearDefaults | src/repositories/wishlist/wishlist.repository.js:72-75 | every wishlist of the user loses isDefault and every other wishlist is unchanged |
| Wishlists.ClearOtherDefaults | src/models/wishlist/wishlist.model.js:111-120 | the save hook clears isDefault on the user's other wishlists and leaves the saved one and other users' lists unchanged |
| Wishlists.SaveDefaultIsOnlyDefault | src/models/wishlist/wishlist.model.js:110-120 | saving a default wishlist leaves it its user's only default and keeps ids unique |
| Wishlists.SetDefaultOwnListIsOnlyDefault | src/repositories/wishlist/wishlist.repository.js:70-83 | setDefault on one of the user's own lists leaves exactly that list default among theirs |
| Wishlists.ClearThenMark | src/repositories/wishlist/wishlist.repository.js:70-83 | clearing a user's defaults and then marking one of their lists leaves it their only default |
| Wishlists.SameListIds | src/repositories/wishlist/wishlist.repository.js:72-75 | clearing defaults keeps every id in place and ids unique |
| Wishlists.OnlyDefaultCount | src/models/wishlist/wishlist.model.js:110-120 | a list that is its user's only default makes the user's default count exactly 1 |
| Wishlists.SetDefaultForeignListExample | src/repositories/wishlist/wishlist.repository.js:70-83 | setDefault checks no ownership: marking another user's list leaves that owner with two defaults |
| Wishlists.WishlistRepository.constructor | src/repositories/wishlist/wishlist.repository.js:4-7 | the collection starts empty |
| Wishlists.WishlistRepository.FindById | src/repositories/BaseRepository.js:11-13 | null exactly for an unknown id, else the stored wishlist |
| Wishlists.WishlistRepository.FindByUser | src/repositories/wishlist/wishlist.repository.js:9-19 | exactly the user's wishlists |
| Wishlists.WishlistRepository.FindDefaultByUser | src/repositories/wishlist/wishlist.repository.js:21-31 | a stored default wishlist of the user, and null exactly when the user has none |
| Wishlists.WishlistRepository.FindPublic | src/repositories/wishlist/wishlist.repository.js:33-44 | exactly the public wishlists |
| Wishlists.WishlistRepository.Search | src/repositories/wishlist/wishlist.repository.js:85-93 | exactly the public wishlists whose name or description matches the query |
| Wishlists.WishlistRepository.Save | src/models/wishlist/wishlist.model.js:110-120 | the hook, then the write, keeping ids unique |
| Wishlists.WishlistRepository.UpdateMany | src/repositories/wishlist/wishlist.repository.js:72-75 | every wishlist of the user loses isDefault, ids staying unique |
| Wishlists.WishlistRepository.Update | src/repositories/BaseRepository.js:23-28 | findByIdAndUpdate: null for an unknown id, otherwise the patched wishlist, stored in place |
| Wishlists.WishlistRepository.AddItem | src/repositories/wishlist/wishlist.repository.js:46-52 | the item is pushed onto that wishlist only; null for an unknown id |
| Wishlists.WishlistRepository.RemoveItem | src/repositories/wishlist/wishlist.repository.js:54-60 | every item with that id leaves that wishlist only; null for an unknown id |
| Wishlists.WishlistRepository.UpdateVisibility | src/repositories/wishlist/wishlist.repository.js:62-68 | isPublic of that wishlist takes the new value |
| Wishlists.WishlistRepository.SetDefault | src/repositories/wishlist/wishlist.repository.js:70-83 | all of the user's defaults are cleared, then the given wishlist is marked |
| Wishlists.VisibilityChangesOnlyIsPublic | src/repositories/wishlist/wishlist.repository.js:62-68 | updateVisibility changes isPublic of the matching wishlist and nothing else |
| Wishlists.MoveToCartAsWrittenNeverMoves | src/services/wishlist/wishlist.service.js:76-77 | as written, moveToCart always throws (the service has no findById) and changes neither wishlists nor carts |
| Wishlists.ActiveOrNewCartFacts | src/services/wishlist/wishlist.service.js:84-91 | corrected (the cart created with the user as creator), the user gets a cart exactly when they have an active one or a user id to create one under; it is then their active cart, stored as returned, with unique ids; a failure stores nothing |
| Wishlists.NewCartWithoutCreatorRefused | src/services/wishlist/wishlist.service.js:86-91 | as written, the cart is created without createdBy, so the lookup succeeds exactly when the user already has an active cart and otherwise fails with "Cart validation failed", storing nothing |
| Wishlists.MoveToCartMovesOneLine | src/services/wishlist/wishlist.service.js:76-104 | corrected (no undefined findById, cart created with the user as creator), a move succeeds exactly when the item is listed, the user has an active cart or an id to create one under, and the product is known with stock for one unit; it then pulls the item and appends one quantity-1 line at the product's price to the active cart; a failure leaves the wishlists untouched |
| Wishlists.AddAllKeepsIds | src/services/wishlist/wishlist.service.js:119-125 | moving items never adds, drops or reorders carts |
| Wishlists.AllMovableSnoc | src/services/wishlist/wishlist.service.js:119-125 | every item is movable exactly when all but the last are and the last is |
| Wishlists.AddAllOkIffMovable | src/services/wishlist/wishlist.service.js:119-125 | the loop succeeds exactly when every item's product is known with stock for one unit |
| Wishlists.AddAllLastStep | src/services/wishlist/wishlist.service.js:119-125 | after a successful prefix the whole loop succeeds exactly when the last item is movable |
| Wishlists.AddAllAppendsLines | src/services/wishlist/wishlist.service.js:119-125 | after a successful loop the cart holds its old lines followed by one quantity-1 line per item, in item order |
| Wishlists.AddAllLastLine | src/services/wishlist/wishlist.service.js:119-125 | moving a movable last item appends exactly its line |
| Wishlists.AddAllPrefixStep | src/services/wishlist/wishlist.service.js:119-125 | after a successful prefix the next item's cart addItem decides the next outcome and state |
| Wishlists.AddAllStopsAtFailure | src/services/wishlist/wishlist.service.js:119-125 | once an item fails, the later items are not tried |
| Wishlists.MoveAllEmptiesList | src/services/wishlist/wishlist.service.js:106-131 | corrected (cart created with the user as creator), a successful moveAllToCart empties the wishlist, every item was movable, and the cart ends with one line per item in order |
| Wishlists.UpdateToDefaultAsWrittenThrows | src/services/wishlist/wishlist.service.js:24-34 | as written, an update setting isDefault always throws and changes nothing |
| Wishlists.UpdateCorrectedLeavesOneDefault | src/services/wishlist/wishlist.service.js:24-34 | corrected, an update setting isDefault leaves that list its owner's only default |
| Wishlists.IndexOfOwnList | src/repositories/BaseRepository.js:11-13 | with unique ids, a wishlist's own id finds it |
| Wishlists.CreateDefaultAsWrittenThrows | src/services/wishlist/wishlist.service.js:13-22 | as written, creating a default wishlist always throws and saves nothing; other wishlists are saved as intended |
| Wishlists.CreateDefaultIsOnlyDefault | src/services/wishlist/wishlist.service.js:13-22 | corrected, a created default wishlist is its user's only default and ids stay unique |
| Wishlists.WishlistService.constructor | src/services/wishlist/wishlist.service.js:7-11 | the service is bound to the wishlist repository and the cart service |
| Wishlists.WishlistService.Create | src/services/wishlist/wishlist.service.js:13-22 | the collection becomes CreateSpec of the old one: the user's defaults cleared first for a default list, then the save |
| Wishlists.WishlistService.Update | src/services/wishlist/wishlist.service.js:24-34 | the outcome is UpdateCorrected: an unknown id with isDefault fails, otherwise the owner's defaults are cleared first |
| Wishlists.WishlistService.AddItem | src/services/wishlist/wishlist.service.js:48-58 | an unknown product fails with "Product not found" and changes nothing; otherwise the item, with its product's store, is pushed |
| Wishlists.WishlistService.ClearWishlist | src/services/wishlist/wishlist.service.js:133-135 | the wishlist's items become empty |
| Wishlists.WishlistService.ActiveOrNew | src/services/wishlist/wishlist.service.js:84-91 | the outcome and new carts are ActiveOrNewCart's: the user's active cart, or one created with the user as creator, or a validation failure that stores nothing |
| Wishlists.WishlistService.MoveToCart | src/services/wishlist/wishlist.service.js:76-104 | the outcome and both collections are MoveToCartSpec of the old ones |
| Wishlists.WishlistService.AddAll | src/services/wishlist/wishlist.service.js:119-125 | the loop's outcome and carts are AddAllSpec of the old carts |
| Wishlists.WishlistService.MoveAllToCart | src/services/wishlist/wishlist.service.js:106-131 | the outcome and both collections are MoveAllToCartSpec of the old ones |
| Reviews.HelpfulnessScore | src/models/review/review.model.js:188-192 | the helpfulness score is a percentage in 0..100, 0 exactly when nobody found the review helpful and 100 exactly when every vote was helpful |
| Reviews.ShareBounds | src/models/review/review.model.js:191 | a part of a positive whole is a share in 0..1, 0 only for none and 1 only for all |
| Reviews.AddVoteKeepsTally | src/models/review/review.model.js:195-218 | a vote is accepted exactly from a user who has not voted; it then adds one voter, keeps the earlier voters, and raises exactly one counter by one (helpful for a helpful vote) |
| Reviews.SecondVoteRejected | src/models/review/review.model.js:202-205 | a second vote by the same user is refused with "User has already voted on this review" |
| Reviews.ThreeFlagsFromOneUserFlag | src/models/review/review.model.js:221-231 | flags are not checked per user: three flags by one user flag the review, and the first two leave its status alone |
| Reviews.ReviewDoc.constructor | src/models/review/review.model.js:1-185 | a new review has no votes, no flags and is pending |
| Reviews.ReviewDoc.Score | src/models/review/review.model.js:188-192 | the document's helpfulness score lies in 0..100 |
| Reviews.ReviewDoc.AddVote | src/models/review/review.model.js:202-218 | the votes become AddVoteSpec of the old ones; a refused vote changes nothing; flags and status are untouched |
| Reviews.ReviewDoc.FlagReview | src/models/review/review.model.js:221-231 | flags and status become FlagSpec of the old ones; votes are untouched |
| Reviews.SumBounds | src/models/review/review.model.js:245 | with every overall rating in 1..5 the sum lies between the count and five times the count |
| Reviews.MeanBounds | src/models/review/review.model.js:246 | a mean of values in 1..5 lies in 1..5 |
| Reviews.ApprovedOf | src/models/review/review.model.js:240-243 | exactly the approved reviews of the product |
| Reviews.Mean | src/models/review/review.model.js:245-246 | the average is NaN exactly when there is nothing to average |
| Reviews.MeanWithinStars | src/models/review/review.model.js:245-246 | the average of a non-empty list rated in 1..5 lies in 1..5 |
| Reviews.SavedWith | src/models/review/review.model.js:234-257 | the collection once the review is saved holds it and otherwise only stored reviews |
| Reviews.FirstApprovalMissedAsWritten | src/models/review/review.model.js:234-257 | as written, approving a product's first review gives it a NaN average over zero reviews, where the corrected hook gives 5 over one |
| Reviews.CorrectedHookCountsTheSavedReview | src/models/review/review.model.js:234-257 | corrected, the approved review being saved is always counted and the average stays within 1..5 |
| Reviews.RatingDistribution | src/services/review/review.service.js:74-84 | the loop's buckets equal Distribution of the reviews |
| Reviews.DistributionCounts | src/services/review/review.service.js:74-84 | with whole-star ratings the buckets are exactly 1..5 and each holds the number of reviews with that rating |
| Reviews.BucketsAddUp | src/services/review/review.service.js:74-84 | with whole-star ratings the five buckets add up to the number of reviews |
| Reviews.HalfStarMakesNaN | src/services/review/review.service.js:80 | a rating of 4.5 leaves a NaN bucket under the key 4.5 |
| Reviews.DistributionNaNStays | src/services/review/review.service.js:80 | a key other than 1..5 only ever holds NaN |
| Reviews.ReviewStats | src/services/review/review.service.js:60-72 | the total is the number of reviews, the average of no reviews is 0, and the verified and helpful counts never exceed the total |
| Reviews.StatsAverageWithinStars | src/services/review/review.service.js:62-63 | the average of a non-empty list rated in 1..5 lies in 1..5 |
| Reviews.StatsCounts | src/services/review/review.service.js:69-70 | verifiedReviews counts the verified reviews and helpfulReviews the reviews with at least one helpful vote |
| Stores.OperatingStatus | src/models/store/store.model.js:325-340 | any status other than active is reported as stored; an active store reaches isOpen, whose `toLocaleLowerCase` call on a Date throws |
| Stores.KeyAt | src/models/store/store.model.js:359 | the key position read for offset i is `(day + i) % 7` |
| Stores.GetNextOpeningTime | src/models/store/store.model.js:343-372 | the early return and the loop over the next seven days give NextOpeningCorrected: today's opening while it is still ahead, else the first later day with an opening |
| Stores.FirstOpenFromNone | src/models/store/store.model.js:358-371 | the loop from offset i finds nothing exactly when no key position it reads has an opening time |
| Stores.KeyReached | src/models/store/store.model.js:358-359 | each key position is read by exactly one offset in 1..7 |
| Stores.NextOpeningNoneIff | src/models/store/store.model.js:343-372 | null is returned exactly when none of the seven days has an opening time |
| Stores.FirstOpenFromIsFirst | src/models/store/store.model.js:358-371 | a found opening is the first day in offset order with an opening, dated that many days ahead, with that day's opening time |
| Stores.WeekdayOfKey | src/models/store/store.model.js:147-154 | the key at position k (monday first) is weekday (k + 1) % 7 in getDay numbering |
| Stores.KeyOfWeekday | src/models/store/store.model.js:147-154 | the key position of a getDay weekday, the inverse of WeekdayOfKey |
| Stores.CorrectedOpeningMatchesWeekday | src/models/store/store.model.js:343-372 | corrected, the opening time returned is the one of the weekday of the date returned |
| Stores.KeyShift | src/models/store/store.model.js:359 | shifting by i days commutes with moving from weekdays to key positions |
| Stores.SundayReadsMondayAsWritten | src/models/store/store.model.js:345-349 | as written, on a Sunday at 08:00 with only Sunday hours from 09:00 the lookup reads monday's entry for today and reports six days ahead, where the corrected lookup reports today |
| Stores.StoreStats | src/services/store/store.service.js:54-71 | "Store not found" exactly for an unknown store id, otherwise the review statistics of its reviews |
| Notifications.ReadChannels | src/models/notification/notification.model.js:132-136 | the channel map keeps the channel count and reads every channel in place |
| Notifications.MarkAsReadEffect | src/models/notification/notification.model.js:129-139 | markAsRead sets the status read and readAt now, turns every delivered channel into read stamped now, keeps every other channel, and changes nothing else |
| Notifications.MarkAsReadIdempotent | src/models/notification/notification.model.js:129-139 | marking as read twice at the same instant is the same as once |
| Notifications.ChannelIndex | src/models/notification/notification.model.js:150 | the first channel of that type, or -1 when there is none |
| Notifications.UpdateDeliveryFirstChannelOnly | src/models/notification/notification.model.js:149-183 | with no channel of the type nothing changes; otherwise only the first such channel takes the status, one more attempt is counted, and the overall status moves only for delivered and read |
| Notifications.TrackSpec | src/models/notification/notification.model.js:186-197 | 'open' and 'click' each raise their own counter by one; any other interaction changes nothing |
| Notifications.CreateSpec | src/models/notification/notification.model.js:200-209 | a created notification always expires: a given expiresAt is kept, a missing one becomes 30 days from now |
| Notifications.NotificationDoc.constructor | src/models/notification/notification.model.js:200-209 | the document's state is CreateSpec of the given fields |
| Notifications.NotificationDoc.MarkAsRead | src/models/notification/notification.model.js:129-139 | the state becomes MarkAsReadSpec of the old one |
| Notifications.NotificationDoc.Archive | src/models/notification/notification.model.js:142-146 | the state becomes archived, stamped now, and nothing else changes |
| Notifications.NotificationDoc.UpdateDeliveryStatus | src/models/notification/notification.model.js:149-183 | the state becomes UpdateDeliverySpec of the old one |
| Notifications.NotificationDoc.TrackInteraction | src/models/notification/notification.model.js:186-197 | the state becomes TrackSpec of the old one |
| Notifications.UnreadExact | src/models/notification/notification.model.js:212-218 | the unread list holds exactly the user's pending, sent or delivered, unexpired notifications, each as often as stored, newest first |
| Notifications.ReadLeavesUnread | src/models/notification/notification.model.js:129-146 | a notification read or archived is off the unread list |
| Shipping.SaveOutcome | src/models/shipping/shipping.model.js:34-37 | a save succeeds exactly for a shipment within both status enums with a non-negative cost, and then returns it |
| Shipping.UpdateStatusEffect | src/models/shipping/shipping.model.js:225-240 | updateStatus writes the argument to both status paths, appends exactly one history entry, stamps actualDelivery only on 'delivered', and changes nothing else |
| Shipping.UpdateStatusSavesIff | src/models/shipping/shipping.model.js:136-145 | as written, the save after updateStatus succeeds exactly for the four values the two enums share |
| Shipping.ShippedNeverSavesAsWritten | src/models/shipping/shipping.model.js:225-239 | as written, a move to 'shipped' or to 'in_transit' can never be saved |
| Shipping.TrackingFor | src/models/shipping/shipping.model.js:136-145 | every top-level status has a tracking status from the tracking enum |
| Shipping.CorrectedStatusAlwaysSaves | src/models/shipping/shipping.model.js:225-240 | corrected, every top-level status can be saved, and the shared values are written unchanged to both paths |
| Shipping.CostLinearInWeight | src/models/shipping/shipping.model.js:243-252 | the cost is 10 plus 2 per weight unit: it rises by 2 per unit, is at least 10 for a non-negative weight, and passes the min-0 check exactly from weight -5 up |
| Shipping.TrackingNumber | src/models/shipping/shipping.model.js:263-265 | the tracking number starts with the upper-cased carrier and a dash |
| Shipping.LabelEffect | src/models/shipping/shipping.model.js:255-271 | a label is refused exactly when the shipment has a number; otherwise it gets a number starting with the upper-cased carrier, status 'processing' and tracking status 'label_created', and nothing else changes |
| Shipping.LabelOnlyOnce | src/models/shipping/shipping.model.js:258-260 | a second label request always fails with "Shipping label already exists" |
| Shipping.LabelSaves | src/models/shipping/shipping.model.js:255-271 | a fresh label always passes the save when the cost does |
| Shipping.ShippingDoc.constructor | src/models/shipping/shipping.model.js:274-281 | createShipping's new document has its cost calculated |
| Shipping.ShippingDoc.UpdateStatus | src/models/shipping/shipping.model.js:225-240 | corrected, a top-level status gives UpdateStatusCorrected, any other string the update as written; the result is the save's outcome |
| Shipping.ShippingDoc.CalculateShippingCost | src/models/shipping/shipping.model.js:243-252 | the state becomes CostSpec of the old one and the result is the save's outcome |
| Shipping.ShippingDoc.GenerateShippingLabel | src/models/shipping/shipping.model.js:255-271 | a refused label changes nothing; otherwise the state becomes the labelled shipment and the result is the save's outcome |
| Shipping.ByTrackingNumber | src/models/shipping/shipping.model.js:284-286 | a shipment is found exactly when one stored shipment has that number, and the one found has it |
| Shipping.ActiveShipmentsExact | src/models/shipping/shipping.model.js:289-293 | the active list holds exactly the pending, processing and shipped shipments, each as often as stored, newest first |
| Shipping.LabelKeepsActiveDeliveryEnds | src/models/shipping/shipping.model.js:255-293 | a labelled shipment is active and a delivered one is not |
| Suppliers.CodePrefix | src/models/supplier/supplier.model.js:607 | the prefix is the upper-cased type cut to its first three characters, or the whole type when shorter |
| Suppliers.GeneratedCode | src/models/supplier/supplier.model.js:607-610 | a generated code starts with the prefix and a dash |
| Suppliers.CodeHook | src/models/supplier/supplier.model.js:605-613 | the hook's own rule: a new supplier without a code gets a generated one; any other supplier keeps its code (as written it is never reached for a code-less supplier, see Findings) |
| Suppliers.CodeHookNeverGeneratesAsWritten | src/models/supplier/supplier.model.js:15-22 | as written, a new supplier without a code is refused with "Path `code` is required" because validation runs before the hook; any accepted supplier is saved unchanged |
| Suppliers.CorrectedFirstSaveHasCode | src/models/supplier/supplier.model.js:605-613 | with the hook run before validation, a first save succeeds exactly when the supplier is otherwise saveable, and the saved supplier then has a truthy code, the given one or the generated one, with nothing else changed |
| Suppliers.GeneratedCodeShape | src/models/supplier/supplier.model.js:605-611 | for a type of three or more letters the code starts with its first three letters upper-cased and a dash |
| Suppliers.SetRating | src/models/supplier/supplier.model.js:646 | the named sub-rating becomes the score and every other rating, the overall one included, is kept |
| Suppliers.SumBounds | src/models/supplier/supplier.model.js:629 | values in [lo, hi] sum to between length times lo and length times hi |
| Suppliers.Round1Bounds | src/models/supplier/supplier.model.js:630 | rounding to one decimal moves a value by at most 0.05 and keeps it within whole-number bounds |
| Suppliers.StatsHookEffect | src/models/supplier/supplier.model.js:616-634 | after the statistics hook the average order value times the order count is the total value (when there are orders), the sub-ratings are kept, and with sub-ratings in [1, 5] the overall rating is within 0.05 of their mean and in [1, 5] |
| Suppliers.CreditUtilizationMeaning | src/models/supplier/supplier.model.js:594-602 | utilisation is 0 for a zero limit; for a positive limit it is the balance's percentage of the limit, 100 exactly at the limit, within 0..100 for a balance within it, and negative exactly when the supplier is overdue |
| Suppliers.ImpactScore | src/models/supplier/supplier.model.js:665-669 | a factor scores at most 3, and 0 exactly when it has no impact |
| Suppliers.RiskScoreBounds | src/models/supplier/supplier.model.js:661-670 | the risk score is at least 1 per factor with an impact and at most 3 per factor |
| Suppliers.LevelRank | src/models/supplier/supplier.model.js:439 | the four levels are ranked low to critical |
| Suppliers.LevelMonotone | src/models/supplier/supplier.model.js:672-680 | a higher score never gives a lower level, and 'critical' exactly above 9 |
| Suppliers.FewFactorsNotCritical | src/models/supplier/supplier.model.js:660-680 | three factors or fewer can never be critical |
| Suppliers.AssessRiskEffect | src/models/supplier/supplier.model.js:660-686 | assessRisk stamps the assessment now and the next review 90 days later, sets a level no lower than any smaller score gives and critical exactly above 9, and changes nothing else |
| Suppliers.CeilDays | src/models/supplier/supplier.model.js:699 | the days until expiry is the number of started days: one day's worth of ms below it is short of the span and it reaches the span |
| Suppliers.ExpiringDocuments | src/models/supplier/supplier.model.js:693-702 | one entry per document expiring within the next 30 days |
| Suppliers.ExpiringCertifications | src/models/supplier/supplier.model.js:704-713 | one entry per certification expiring within the next 30 days |
| Suppliers.ExpiringDocumentsWithinWindow | src/models/supplier/supplier.model.js:691-702 | every reported entry comes from a stored document and expires within 30 days, at most 30 started days ahead |
| Suppliers.ExpiringDocumentsComplete | src/models/supplier/supplier.model.js:693-702 | every document expiring within 30 days is reported |
| Suppliers.SaveOutcome | src/models/supplier/supplier.model.js:258-289 | a save succeeds exactly for ratings within [1, 5] and audit entries that all name a performer |
| Suppliers.RatingUpdateNeverSavesAsWritten | src/models/supplier/supplier.model.js:637-657 | as written, no rating update is ever saved: the audit entry's performedBy is null, which the schema's required performer refuses |
| Suppliers.UpdateRatingCorrectedEffect | src/models/supplier/supplier.model.js:637-657 | corrected, an unknown type and a score outside [1, 5] are refused with their messages; otherwise exactly that sub-rating becomes the score, one audit entry naming the performer is appended, and a saveable supplier stays saveable |
| Suppliers.SupplierDoc.constructor | src/models/supplier/supplier.model.js:605-613 | a new supplier is the corrected first save of the given one: the code hook runs before the required-code validation |
| Suppliers.SupplierDoc.StatisticsHook | src/models/supplier/supplier.model.js:616-634 | statistics and ratings become StatsHookSpec of the old ones and nothing else changes |
| Suppliers.SupplierDoc.UpdateRating | src/models/supplier/supplier.model.js:637-657 | corrected, with the caller as performer: a refused update changes nothing; otherwise the state is the updated supplier and the result its save |
| Suppliers.SupplierDoc.AssessRisk | src/models/supplier/supplier.model.js:660-686 | the forEach and the thresholds give AssessRiskSpec of the old state; the result is the save's outcome |
| Suppliers.SupplierDoc.ScanDocuments | src/models/supplier/supplier.model.js:693-702 | the documents loop yields ExpiringDocuments |
| Suppliers.SupplierDoc.CheckDocumentExpiryAsWritten | src/models/supplier/supplier.model.js:704 | as written, the read of `this.certifications` fails, whatever the documents |
| Suppliers.SupplierDoc.CheckDocumentExpiry | src/models/supplier/supplier.model.js:689-716 | corrected, the expiring documents followed by the expiring certifications |
| SupplierService.IndexOfId | src/services/SupplierService.js:26-29 | findById finds the supplier with that id, or reports that none has it |
| SupplierService.IndexOfEmail | src/repositories/SupplierRepository.js:9-11 | findByEmail finds a supplier with that email, or reports that none has it |
| SupplierService.ApplyPatch | src/services/SupplierService.js:39-45 | the update keeps the supplier's id |
| SupplierService.UpdateDeleteNeverApplyAsWritten | src/services/SupplierService.js:39-56 | as written, update and delete never reach the collection, since the repository has neither findByIdAndUpdate nor findByIdAndDelete; the corrected ones succeed exactly where these throw that error |
| SupplierService.CreateKeepsEmailsUnique | src/services/SupplierService.js:9-23 | creation succeeds exactly for an email not in use, and keeps emails unique |
| SupplierService.SameEmailSkipsCheck | src/services/SupplierService.js:31-37 | an update of a known supplier that keeps its email, or carries none, is never refused |
| SupplierService.UpdateKeepsEmailsUnique | src/services/SupplierService.js:25-48 | an update keeps emails unique when a given email is non-empty |
| SupplierService.DeleteRemovesOnlyThatSupplier | src/services/SupplierService.js:50-58 | a deletion removes exactly the supplier with that id and keeps ids unique |
| SupplierService.CutRec | src/services/SupplierService.js:56 | cutting one record out removes exactly the records with its id |
| SupplierService.CutRecUnique | src/services/SupplierService.js:56 | cutting one record out keeps ids unique |
| SupplierService.Dispatch | src/services/SupplierService.js:68-81 | a search wins over a status; every supplier exactly when neither is given |
| SupplierService.Run | src/services/SupplierService.js:72-78 | a lookup returns exactly the suppliers it selects, and all of them for no filter |
| SupplierService.SupplierService.constructor | src/services/SupplierService.js:5-7 | the service starts over an empty collection |
| SupplierService.SupplierService.CreateSupplier | src/services/SupplierService.js:9-23 | the outcome and collection are CreateSpec of the old collection |
| SupplierService.SupplierService.UpdateSupplier | src/services/SupplierService.js:25-48 | the outcome and collection are UpdateSpec, the update with the repository's update supplied |
| SupplierService.SupplierService.DeleteSupplier | src/services/SupplierService.js:50-58 | the outcome and collection are DeleteSpec, the delete with the repository's delete supplied |
| SupplierService.SupplierService.GetSupplier | src/services/SupplierService.js:60-66 | the supplier with that id, and 404 exactly when there is none |
| SupplierService.SupplierService.GetAllSuppliers | src/services/SupplierService.js:68-81 | the suppliers of the dispatched lookup |
| SupplierService.SupplierService.UpdateSupplierStatus | src/services/SupplierService.js:83-96 | 404 for an unknown id with no change; otherwise only that supplier's status and updatedBy are written |
| SupplierService.SupplierService.GetActiveSuppliers | src/services/SupplierService.js:98-100 | exactly the active suppliers |
| Warehouses.AvailableCapacityMeaning | src/models/warehouse/warehouse.model.js:332-337 | the used amount plus the available amount is the total, in the total's unit whatever the used unit, and an overfull warehouse reports a negative amount |
| Warehouses.LocationIsFirstSuitableZone | src/models/warehouse/warehouse.model.js:345-378 | only the first suitable zone counts: no location exactly when no zone suits or that zone is full; a location names that zone and has an 'A' plus one digit aisle |
| Warehouses.FullFirstZoneHidesLaterOnes | src/models/warehouse/warehouse.model.js:364-369 | a full first suitable zone gives null even when a later suitable zone has room |
| Warehouses.NamedTemperatureIgnoredAsWritten | src/models/warehouse/warehouse.model.js:349-354 | as written, a named temperature never rules a zone out: a frozen product goes into a 15 to 25 degree zone |
| Warehouses.CorrectedLocationHoldsTemperature | src/models/warehouse/warehouse.model.js:345-378 | corrected, a returned location is in a zone with room whose bounds hold the temperature in degrees, 0 included; a product at -18 goes to the freezer zone |
| WarehouseService.IndexOfId | src/services/WarehouseService.js:26-29 | findById finds the warehouse with that id, or reports that none has it |
| WarehouseService.IndexOfCode | src/repositories/WarehouseRepository.js:9-11 | findByCode finds a warehouse whose stored code is the upper-cased query, or reports that none has it |
| WarehouseService.ApplyPatch | src/services/WarehouseService.js:39-45 | the update keeps the warehouse's id |
| WarehouseService.UpdateDeleteNeverApplyAsWritten | src/services/WarehouseService.js:39-56 | as written, update and delete never reach the collection, since the repository has neither findByIdAndUpdate nor findByIdAndDelete; the corrected ones succeed exactly where these throw that error |
| WarehouseService.CreateKeepsCodesUnique | src/services/WarehouseService.js:9-23 | creation succeeds exactly when no stored code equals the upper-cased one, and keeps codes unique |
| WarehouseService.SameCodeSkipsCheck | src/services/WarehouseService.js:31-37 | an update that sends the stored code as it is, or no code, is never refused for the code |
| WarehouseService.OwnCodeInLowerCaseRefused | src/services/WarehouseService.js:32-36 | sending a warehouse's own code in lower case finds the warehouse itself and is refused with 400 |
| WarehouseService.StoredCodesStayUpper | src/models/warehouse/warehouse.model.js:11-17 | creation and update store upper-cased codes only |
| WarehouseService.UpperTwice | src/models/warehouse/warehouse.model.js:15 | upper-casing twice is upper-casing once |
| WarehouseService.UpdateKeepsCodesUnique | src/services/WarehouseService.js:25-48 | an update keeps codes unique when a given code is non-empty |
| WarehouseService.DeleteRemovesOnlyThatWarehouse | src/services/WarehouseService.js:50-58 | a deletion removes exactly the warehouse with that id and keeps ids unique |
| WarehouseService.CutRec | src/services/WarehouseService.js:56 | cutting one record out removes exactly the records with its id |
| WarehouseService.CutRecUnique | src/services/WarehouseService.js:56 | cutting one record out keeps ids unique |
| WarehouseService.Dispatch | src/services/WarehouseService.js:68-87 | the lookup follows the precedence search, status, type, feature, then minimum capacity with a unit; every warehouse exactly when none applies |
| WarehouseService.CapacityNeedsUnit | src/services/WarehouseService.js:80 | a minimum capacity without a unit is ignored |
| WarehouseService.Run | src/services/WarehouseService.js:72-84 | a lookup returns exactly the warehouses it selects, and all of them for no filter |
| WarehouseService.WarehouseService.constructor | src/services/WarehouseService.js:5-7 | the service starts over an empty collection |
| WarehouseService.WarehouseService.CreateWarehouse | src/services/WarehouseService.js:9-23 | the outcome and collection are CreateSpec of the old collection |
| WarehouseService.WarehouseService.UpdateWarehouse | src/services/WarehouseService.js:25-48 | the outcome and collection are UpdateSpec, the update with the repository's update supplied |
| WarehouseService.WarehouseService.DeleteWarehouse | src/services/WarehouseService.js:50-58 | the outcome and collection are DeleteSpec, the delete with the repository's delete supplied |
| WarehouseService.WarehouseService.GetWarehouse | src/services/WarehouseService.js:60-66 | the warehouse with that id, and 404 exactly when there is none |
| WarehouseService.WarehouseService.GetAllWarehouses | src/services/WarehouseService.js:68-87 | the warehouses of the dispatched lookup |
| WarehouseService.WarehouseService.UpdateWarehouseStatus | src/services/WarehouseService.js:89-102 | 404 for an unknown id with no change; otherwise only that warehouse's status and updatedBy are written |
| WarehouseService.WarehouseService.GetActiveWarehouses | src/services/WarehouseService.js:104-106 | exactly the active warehouses |
| WarehouseService.WarehouseService.GetWarehousesByType | src/services/WarehouseService.js:108-110 | exactly the warehouses of that type |
| WarehouseService.WarehouseService.GetWarehousesByFeature | src/services/WarehouseService.js:112-114 | exactly the warehouses with that feature |
| Promotions.ValidityWindow | src/models/promotion/promotion.model.js:185-193 | a valid promotion is active and inside its window; one that used up a non-zero limit of uses is never valid; an active promotion inside its window without a limit (or with limit 0) always is |
| Promotions.CapBounds | src/models/promotion/promotion.model.js:240-242 | the cap never raises a discount, keeps it at or below a set non-zero maximum, yields either the discount or the maximum, and keeps a non-negative discount non-negative |
| Promotions.DiscountBounds | src/models/promotion/promotion.model.js:221-245 | with the applicability awaited and non-negative amounts, the discount is never negative, is 0 for an inapplicable promotion or an unknown type, stays at or below a set cap, and is at most the subtotal (a percentage up to 100), the fixed value or the shipping for its type |
| Promotions.ProductNonNegative | src/models/promotion/promotion.model.js:228 | a product of non-negative amounts is non-negative |
| Promotions.ApplicabilityIgnoredAsWritten | src/models/promotion/promotion.model.js:221-245 | as written, the negated Promise never stops the computation: the result agrees with the corrected one on applicable promotions, does not depend on the status, and an expired 50-off promotion still gives 50 where the corrected one gives 0 |
| Promotions.ApplicableUpwardInSubtotal | src/models/promotion/promotion.model.js:196-218 | raising the subtotal never makes an applicable promotion inapplicable |
| Promotions.GroupListExcludesMissingGroup | src/models/promotion/promotion.model.js:203-207 | a customer without a group never qualifies for a promotion restricted to groups, and gets no discount |
| Addresses.ClearDefaults | src/models/address/address.model.js:132-136 | every address of the user and type loses isDefault and every other address is unchanged |
| Addresses.SetAsDefaultEffect | src/models/address/address.model.js:131-140 | corrected, the address becomes the only default of its user and type, other addresses keep everything but that flag, addresses of other users or types are untouched, and one default per user and type is preserved |
| Addresses.RepeatedSetAsDefaultClearsAsWritten | src/models/address/address.model.js:131-140 | as written, setting the default address again leaves its user and type with no default and getDefaultAddress returns null; on a non-default address it behaves as intended |
| Addresses.DefaultAddress | src/models/address/address.model.js:155-162 | an address is returned exactly when an active default of the user and type exists, it is such an address of the collection, and with one default per user and type it is that one |
| Addresses.DefaultAfterSetAsDefault | src/models/address/address.model.js:131-162 | once an active address is made the default, getDefaultAddress returns it |
| Addresses.ArchiveRemovesDefault | src/models/address/address.model.js:143-162 | archiving the default address leaves its user and type without one; archive and verify keep one default per pair |
| Addresses.TypeFilter | src/models/address/address.model.js:167-169 | the type filter applies exactly for a non-empty type |
| Addresses.UserAddressesExact | src/models/address/address.model.js:165-176 | the list holds exactly the user's active addresses of the type (any type when none is given), each as often as stored, defaults first and newest first within each group |
| Addresses.EmptyTypeIsNoFilter | src/models/address/address.model.js:167-169 | an empty type string lists the same addresses as no type |
| Addresses.AddressCollection.constructor | src/models/address/address.model.js:1-130 | the collection holds the given addresses |
| Addresses.AddressCollection.SetAsDefault | src/models/address/address.model.js:131-140 | corrected, the collection becomes SetAsDefaultSpec of the old one and the saved address is the new default |
| Addresses.AddressCollection.Verify | src/models/address/address.model.js:143-146 | the collection becomes VerifySpec of the old one, which marks that address verified, and the saved address is returned |
| Addresses.AddressCollection.Archive | src/models/address/address.model.js:149-152 | the collection becomes ArchiveSpec of the old one, which marks that address archived, and the saved address is returned |
| Addresses.AddressCollection.GetDefaultAddress | src/models/address/address.model.js:155-162 | the result is DefaultAddress of the collection |
| Addresses.AddressCollection.GetUserAddresses | src/models/address/address.model.js:165-176 | the result is UserAddresses of the collection |
| Razorpay.PaiseRoundTrip | src/services/payment/providers/razorpay.provider.js:14-74 | converting rupees to paise and back, or paise to rupees and back, gives the amount back |
| Razorpay.CreateAmounts | src/services/payment/providers/razorpay.provider.js:14-30 | Razorpay is asked for the order total in paise with the order number as receipt, and the total is reported back in rupees, both in INR |
| Razorpay.SignedMessage | src/services/payment/providers/razorpay.provider.js:32-50 | the signed message is the order id, a '\|' and the payment id |
| Razorpay.SignedMessageInjective | src/services/payment/providers/razorpay.provider.js:32-50 | for order ids without a '\|' the message determines both ids, so a signature binds both |
| Razorpay.VerifyPayment | src/services/payment/providers/razorpay.provider.js:32-50 | verification succeeds exactly when the signature equals the hex HMAC digest of the message, and then reports the payment id, the signature and 'completed'; otherwise "Invalid signature" |
| Razorpay.AcceptedSignatureShape | src/services/payment/providers/razorpay.provider.js:32-50 | an accepted signature has two characters per digest byte, no upper-case letter, and decodes to the digest |
| Razorpay.RefundAndFetchAgree | src/services/payment/providers/razorpay.provider.js:52-74 | a refund requested in paise and fetched back reads as the rupee amount that was asked for |
| ProviderFactory.Lookup | src/services/payment/providers/provider.factory.js:8-14 | a registered name yields its own class; nothing is found exactly for a name neither registered nor inherited from Object.prototype |
| ProviderFactory.GetProviderSpec | src/services/payment/providers/provider.factory.js:8-14 | getProvider fails with "Payment provider '<name>' not supported" exactly when the lookup finds nothing, otherwise builds the provider with the configuration |
| ProviderFactory.RegisterEffect | src/services/payment/providers/provider.factory.js:16-21 | registration succeeds exactly for a name neither registered nor inherited, then adds that name only; a refused one changes nothing; entries are never removed |
| ProviderFactory.RegisterTwiceRefused | src/services/payment/providers/provider.factory.js:16-21 | a second registration of the same name is refused with "already registered" |
| ProviderFactory.Registry.constructor | src/services/payment/providers/provider.factory.js:4-6 | only Razorpay is registered at first |
| ProviderFactory.Registry.GetProvider | src/services/payment/providers/provider.factory.js:8-14 | the result is GetProviderSpec of the registry |
| ProviderFactory.Registry.RegisterProvider | src/services/payment/providers/provider.factory.js:16-21 | the outcome and registry are RegisterSpec of the old registry |
| ProviderFactory.RazorpayAlwaysAvailable | src/services/payment/providers/provider.factory.js:4-21 | Razorpay stays available whatever is registered after it, and 'stripe' is not supported at first |
| PaymentService.PaymentIndex | src/repositories/BaseRepository.js:11-13 | findById finds the payment with that id, or reports that none has it |
| PaymentService.OrderIndex | src/services/payment/payment.service.js:12-15 | the order with that id, or a report that none has it |
| PaymentService.SetOrderStatus | src/services/payment/payment.service.js:71 | only the order with that id takes the status; an unknown id changes nothing |
| PaymentService.CreatedPaymentNotRefundable | src/services/payment/payment.service.js:11-46 | a created payment has status 'created', the provider's amount and order id and no provider payment id, is appended to the payments with the orders untouched, and cannot be refunded before it is verified |
| PaymentService.CreateRecordsOrderTotal | src/services/payment/payment.service.js:11-46 | a payment created through Razorpay records the order's total in INR, and Razorpay was asked for that amount in paise |
| PaymentService.RefundEffect | src/services/payment/payment.service.js:98-133 | the refund checks run in order (unknown payment, not completed, amount too large); a refund that passes them and the provider marks only that payment refunded with the amount and time, and the order is marked refunded exactly for a full refund |
| PaymentService.SecondRefundRejected | src/services/payment/payment.service.js:104-106 | after a refund, full or partial, a second refund is refused |
| PaymentService.VerifyEffect | src/services/payment/payment.service.js:48-74 | corrected, a verification the provider accepts records its ids and status on that payment only and marks the order paid; with status 'completed' the payment becomes completed whatever it was before, a refunded one included |
| PaymentService.RazorpayVerification | src/services/payment/payment.service.js:48-74 | with Razorpay, verification succeeds exactly when the signature is the expected HMAC digest; a failed one changes nothing |
| PaymentService.ProviderIdLostAsWritten | src/repositories/payment/payment.repository.js:41-51 | as written, verification stores only the status, so getPaymentDetails never consults the provider for a verified payment, where the corrected verification makes it do so |
| PaymentService.PaymentService.constructor | src/services/payment/payment.service.js:6-9 | no payments, and the given orders |
| PaymentService.PaymentService.CreatePayment | src/services/payment/payment.service.js:11-46 | the outcome and stores are CreateSpec of the old ones |
| PaymentService.PaymentService.VerifyPayment | src/services/payment/payment.service.js:48-74 | corrected, the outcome and stores are VerifySpec of the old ones |
| PaymentService.PaymentService.GetPaymentDetails | src/services/payment/payment.service.js:76-96 | the result is DetailsSpec of the stores: the stored payment with that id, with the provider's details exactly when its provider payment id is set |
| PaymentService.PaymentService.ProcessRefund | src/services/payment/payment.service.js:98-133 | the outcome and stores are RefundSpec of the old ones |

## Left out

- HTTP routing, controllers, request validation middleware other than the Joi schemas of `validations/user.validation.js`, logging and the database and Redis connections: outside the rules modelled here.
- Mongoose schema validation in general: only the constraints a modelled rule depends on are stated (category level 0 to 5; a cart's `user` and `createdBy` and its lines' quantity of at least 1 and price of at least 0; the shipping and supplier `Saveable` checks); other `required` and `enum` validators, among them a cart line's `product` and `store`, are not modelled.
- Populate calls and projections: a lookup returns the stored record.
- The order of records that a sort leaves tied is not fixed by MongoDB: the model's sort is stable, and the ordering lemmas state only the sort key order.
- JavaScript floating point: amounts, paise conversions and rating averages are exact `real`s, so rounding in `amount * 100` or in an average is not modelled.
- Concurrency between requests and partial failure halfway through a multi-step service call are not modelled: each call runs to completion on the state it starts from.
- The rate limiter and the JWT, bcrypt, SHA-256 and HMAC computations themselves: they are parameters.
- UserService in the source is wired to the current user model (`models/user/user.model.js`). Which model the service uses is the parameter `wiring` of `UserAccounts.UserService.constructor`, so the boolean comparison of `models/user.model.js` can be compared with the throwing one.
- Category: the schema has no `ancestors` field, so a strict schema would drop the ancestors the repository writes. `getCategoryPath`, the cycle check of `moveCategory` and the placement of a child would then read `undefined` ancestors. The model keeps them, as the repository and service code assume.
- Category: `updateProductCount`, which the service calls after create and update, is not defined on the model; the as-written throw is a finding, and the service members model the calls without it.
- Inventory:
  - the schema has no `warehouse` or top-level `quantity` path, which the service and repository use; they are modelled as the code reads and writes them, on one record;
  - the repository's `searchInventory` is not defined (a finding); in the corrected dispatch the text search is the parameter predicate `matchesSearch`;
  - the repository filters on paths the schema does not have at that level: a top-level `batchNumber` (repositories/InventoryRepository.js:62-64) and `expiryDate` (repositories/InventoryRepository.js:66-73), which the schema keeps only inside `batches[]`; `location.rack` (repositories/InventoryRepository.js:25-32), where the location has warehouse, zone, aisle, shelf and bin; and the service writes `createdBy` and `updatedBy`, which the schema lacks. These are modelled as the code reads and writes them, on one record, so the model does not capture that such filters are dropped or match nothing against the stored documents.
- Wishlist: an item's options are spread after the product and store. Options that carry a `product` or `store` key could therefore override them; the model's options are only notes, priority and price alert.
- Cart: `findAbandonedCarts` compares update times in milliseconds against `now` minus the given number of days; dates are plain integers.
- Reviews: the product-average NaN that the as-written hook produces is the `NaN` case of `Reviews.Number`; that a product's Number path would refuse it on save is not modelled. `findByStore` queries the path `store`, which the review schema does not have; the stores' statistics take the list the query returns as a parameter.
- Notifications:
  - `markAsRead` spreads the previous read state into the new one, and only the fields it sets are modelled;
  - the status enum that `updateDeliveryStatus` writes is not checked;
  - the static `getRecentNotifications` (models/notification/notification.model.js:221-229) is not modelled: it is a sorted, limited query with no rule of its own.
- Stores: `isOpen` calls `toLocaleLowerCase` on a Date, which does not exist, so `getOperatingStatus` on an active store is modelled as that thrown error. The weekday and the time-of-day string are parameters.
- Shipping:
  - the package weight is taken to be present in `calculateShippingCost`;
  - the last six digits of `Date.now()` in a tracking number and its random suffix are parameters.
- Suppliers:
  - the contact e-mail, stored at `contact.primary.email`, is a top-level field of the record, as the service and repository read and write it;
  - the e-mail uniqueness pre-save hook (models/supplier/supplier.model.js:747-755, 400 "Email already in use") is not modelled; that the required-code validator runs before the code hook is a finding;
  - the statics `findByCategory`, `findPreferred` and `findNeedingReview` are plain queries and not modelled;
  - the `fullBillingAddress` virtual is string formatting and not modelled.
- Warehouses:
  - the schema nests `type`, `features` and `capacity` under `details` and has no `createdBy` or `updatedBy` path, while the repository queries `type`, `features` and `capacity.total` at the top level and the service writes `createdBy` and `updatedBy`; these are modelled as the code reads and writes them, on one record, so the model does not capture that such queries match nothing against the stored documents;
  - `isOpen` and `getCapacityUtilization` are not modelled;
  - inventory quantities are taken to be at least 0;
  - the capacity query reads the stored zone utilisation;
  - `code` is taken to be upper-cased by the schema setter on queries as on writes.
- Payments:
  - Razorpay's answers are parameters, and the provider is built with an empty configuration;
  - the sparse unique index on `providerPaymentId` is not modelled;
  - `repositories/order/order.repository.js` is not part of this model: its lookup is a search by id and `updateStatus` a status write;
  - `verifyPayment` does not check the payment's current status, and the model keeps that;
  - constructing an inherited registry entry such as `constructor` is not modelled: the provider built is recorded by the entry's name;
  - the service's `getPaymentHistory` and `getPaymentByOrder` are plain queries and not modelled.
- Promotions: product eligibility compares `item.product.toString()` with the stored ids; identifiers are compared as strings, without ObjectId casting.
- Case mapping is ASCII-only: `Lower` and `Upper` map A to Z and leave every other character alone, where JavaScript's toLowerCase and toUpperCase map all of Unicode. So e-mail lookups (`UserAccounts.UserRepository.FindByEmail`, `UserAccounts.RegisterRejectsAnyCase`), the currency upper-casing, warehouse and supplier codes and tracking-number prefixes treat a non-ASCII letter and its other case as different.
- `trim` setters are not modelled: a warehouse `code` or other trimmed path is stored and compared as given.
- OTP: the store's `fault` input stands for any Redis failure; the TTL Redis reports is rounded to whole seconds as Redis does.

## Findings

| source | as written | input that shows it | evidently intended | confidence | as-written member | corrected member |
|---|---|---|---|---|---|---|
| src/services/UserService.js:51-55 | the wired `comparePassword` throws on a mismatch, so the branch that counts failed logins is never reached | five logins with a wrong password for an unlocked user | each wrong password increments the counter, and the fifth locks the account for two hours | not executed | UserAccounts.WrongPasswordsNeverCount | UserAccounts.FiveWrongPasswordsLockWithBooleanCompare |
| src/services/CategoryService.js:116-127 | the cycle guard looks for the category among the new parent's ancestors, so a category may be moved under itself | moveCategory(c, c) for any existing category c | a category cannot become its own parent or ancestor | not executed | Categories.MoveOntoItselfAccepted | Categories.CorrectedMoveKeepsAcyclic |
| src/repositories/CategoryRepository.js:87-93 | moving to the root nulls the parent but keeps the old ancestors and level | a level-1 category moved to the root | a root category has no ancestors and level 0 | not executed | Categories.MoveToRootKeepsStaleAncestors | Categories.CorrectedMovePlacesRecord |
| src/models/promotion/promotion.model.js:221-245 | `isApplicable` is async, so `!this.isApplicable(order)` negates a Promise and is always false | an expired fixed 50-off promotion on a 100 subtotal gives 50 | an inapplicable promotion gives 0 | not executed | Promotions.ApplicabilityIgnoredAsWritten | Promotions.DiscountBounds |
| src/models/shipping/shipping.model.js:225-239 | updateStatus writes one value to `status` and to `tracking.status`, whose enums differ: 'shipped' fails the second and 'in_transit' the first, so neither save succeeds | updateStatus('shipped') on any valid shipment | every shipment status can be saved, with the matching tracking status | not executed | Shipping.ShippedNeverSavesAsWritten | Shipping.CorrectedStatusAlwaysSaves |
| src/services/wishlist/wishlist.service.js:24-34 | update with isDefault, moveToCart and moveAllToCart call `this.findById`, which the service does not define | update(id, {isDefault: true}) or moveToCart on any list | the list is looked up through the repository | not executed | Wishlists.UpdateToDefaultAsWrittenThrows | Wishlists.UpdateCorrectedLeavesOneDefault |
| src/services/wishlist/wishlist.service.js:76-77 | moveToCart calls the undefined `this.findById` before anything else | moveToCart on any wishlist and item | the item moves into the user's active cart and leaves the list | not executed | Wishlists.MoveToCartAsWrittenNeverMoves | Wishlists.MoveToCartMovesOneLine |
| src/services/wishlist/wishlist.service.js:13-22 | creating a default wishlist calls `this.repository.updateMany`, which the repository does not define | create({isDefault: true, ...}) | the user's other defaults are cleared and the new list saved as the only default | not executed | Wishlists.CreateDefaultAsWrittenThrows | Wishlists.CreateDefaultIsOnlyDefault |
| src/models/review/review.model.js:234-257 | the pre-save hook averages the product's approved reviews before the review being approved is saved | approving the first review of a product | the new approval counts in the product's average and count | not executed | Reviews.FirstApprovalMissedAsWritten | Reviews.CorrectedHookCountsTheSavedReview |
| src/models/store/store.model.js:345-349 | the weekday index is shifted by one, so each date reads the next day's hours | a Sunday 08:00 with only Sunday hours from 09:00 | each date reads its own weekday's hours | not executed | Stores.SundayReadsMondayAsWritten | Stores.CorrectedOpeningMatchesWeekday |
| src/services/InventoryService.js:64-81 | update and delete call `findByIdAndUpdate` and `findByIdAndDelete`, which the base repository does not define | updating or deleting any existing item | the record is updated or removed | not executed | Inventory.UpdateDeleteNeverApplyAsWritten | Inventory.DeleteRemovesOnlyThatItem |
| src/services/SupplierService.js:39-56 | the same two undefined repository calls | updating or deleting any existing supplier | the record is updated or removed | not executed | SupplierService.UpdateDeleteNeverApplyAsWritten | SupplierService.DeleteRemovesOnlyThatSupplier |
| src/services/WarehouseService.js:39-56 | the same two undefined repository calls | updating or deleting any existing warehouse | the record is updated or removed | not executed | WarehouseService.UpdateDeleteNeverApplyAsWritten | WarehouseService.DeleteRemovesOnlyThatWarehouse |
| src/models/supplier/supplier.model.js:637-657 | the audit entry is pushed with `performedBy: null`, which the schema requires | any updateRating call | the rating update is saved | not executed | Suppliers.RatingUpdateNeverSavesAsWritten | Suppliers.UpdateRatingCorrectedEffect |
| src/models/supplier/supplier.model.js:704 | checkDocumentExpiry iterates `this.certifications`, while the schema keeps them under capabilities | any supplier | expiring certifications are reported with the documents | not executed | Suppliers.SupplierDoc.CheckDocumentExpiryAsWritten | Suppliers.SupplierDoc.CheckDocumentExpiry |
| src/models/warehouse/warehouse.model.js:349-354 | a named storage temperature is compared with numeric zone bounds, which is never true | a 'frozen' product and a zone from 15 to 25 degrees | only zones that hold the product's temperature are chosen | not executed | Warehouses.NamedTemperatureIgnoredAsWritten | Warehouses.CorrectedLocationHoldsTemperature |
| src/models/address/address.model.js:131-140 | on an address that is already the default, updateMany clears the flag and assigning true again is no change, so save writes nothing | setAsDefault on the current default address | the address stays the default | not executed | Addresses.RepeatedSetAsDefaultClearsAsWritten | Addresses.SetAsDefaultEffect |
| src/repositories/payment/payment.repository.js:41-51 | updatePaymentDetails reads `paymentId` and `signature` and writes `razorpayPaymentId` and `razorpaySignature`, none of which exist | verifying any created payment | the provider's payment id and signature are stored | not executed | PaymentService.ProviderIdLostAsWritten | PaymentService.VerifyEffect |
| src/services/CategoryService.js:123-127 | the cycle guard trusts the new parent's stored ancestors, which a move does not update for the moved category's descendants | on the tree x, a, b under a, c under b: move a under x, then x under c | no move creates a cycle of parent links | not executed | Categories.StaleAncestorsAdmitCycleAsWritten | Categories.CorrectedMoveKeepsAcyclic |
| src/services/CategoryService.js:15-26 | create calls `category.updateProductCount()`, which the category model does not define, after the repository has stored the category | create({name: "Fruit"}) with a fresh slug | the stored category is returned | not executed | Categories.CreateStoredButThrowsAsWritten | Categories.CategoryService.Create |
| src/services/CategoryService.js:81-93 | update, and moveCategory through it, call the undefined `category.updateProductCount()` after the repository has written | update(id, {name: "Greens"}) for any stored category | the updated category is returned | not executed | Categories.ServiceWritesThenThrowsAsWritten | Categories.CategoryService.Update |
| src/services/InventoryService.js:97-98 | a query with a search calls `searchInventory`, which the inventory repository does not define | getAllInventoryItems({search: "milk"}) | the stored items matching the text are returned | not executed | Inventory.SearchAsWrittenThrows | Inventory.InventoryService.GetAllInventoryItems |
| src/services/wishlist/wishlist.service.js:86-91 | the cart for a user without an active one is created without the required `createdBy`, so validation refuses it | moveToCart or moveAllToCart for a user with no active cart | a cart is created for the user and receives the items | not executed | Wishlists.NewCartWithoutCreatorRefused | Wishlists.ActiveOrNewCartFacts |
| src/models/supplier/supplier.model.js:15-22 | `code` is required, and validation runs before the pre-save hook that would generate it, so the hook never fills in a code | creating a supplier without a code | a new supplier without a code gets a generated one | not executed | Suppliers.CodeHookNeverGeneratesAsWritten | Suppliers.CorrectedFirstSaveHasCode |
