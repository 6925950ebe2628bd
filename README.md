# netmedika, modelled in Dafny

netmedika is a pharmacy app. It has a React Native front end and a FastAPI back end. This project models the parts of both that carry logic, and proves properties of that model.

On the front end, the model covers:
- the delivery-address book, where a non-empty book always has exactly one default address;
- the validation presets of the shared text input;
- the registration form and its payload;
- the product detail screen, whose quantity is clamped to the stock;
- the prescription upload dialog, which keeps at most five images after a gallery or document pick;
- the two security switches of the settings screen;
- the HTTP client's URL, header, body and error-message logic.

On the back end, the model covers:
- the request and response schemas of authentication;
- token issue and resolution;
- the register, login, refresh, logout, profile and change-password endpoints over a users table;
- the order and prescription endpoints, with the document check and pharmacy matching behind them.

The files:

- `common.dfy` (module `Common`): `Option`/`Result`, JavaScript `trim` and whitespace, decimal rendering
- `address_book.dfy` (module `Addresses`): `frontend/app/addresses/index.tsx`
- `custom_input.dfy` (module `CustomInput`): `frontend/components/CustomInput.tsx`
- `register_form.dfy` (module `RegisterScreen`): `frontend/app/register.tsx`
- `product_detail.dfy` (module `ProductDetail`): `frontend/app/order-history.tsx` (a product detail screen)
- `prescription_upload.dfy` (module `PrescriptionUpload`): `frontend/components/PrescriptionUploadModal.tsx`
- `settings.dfy` (module `Settings`): `frontend/app/settings/index.tsx`
- `api_client.dfy` (module `ApiClient`): `frontend/config/apiConfig.ts`
- `crypto.dfy` (module `Crypto`): bcrypt and PyJWT as the back end uses them
- `auth_schema.dfy` (module `AuthSchema`): `api/schemas/auth_schema.py`
- `users.dfy` (module `Users`): the users table of `api/models/auth_model.py` and its lookups
- `auth_tokens.dfy` (module `AuthTokens`): `api/utils/auth_utils.py`
- `accounts.dfy` (module `Accounts`): `api/routes/auth_route.py`, `api/routes/profile_route.py`
- `orders.dfy` (module `Orders`): `api/routes/order_route.py`, `api/utils/doc_verify.py`

Where the source changes state in place, the model does too:
- the address book, the quantity selector, the image list, the settings flags and the users table are fields of classes, updated by methods;
- each method's postcondition gives the new state as a function of the old one, and lemmas about those functions prove the invariants.

Everything the code only computes is modelled as functions.

The clock, UUIDs, random salts, device answers, picker results and the network are inputs. So are database failures, given as the text of the exception.

## Model

| member | source | states |
|---|---|---|
| Common.LeadingBlanks | frontend/app/addresses/index.tsx:48 | counts the blanks `trim()` drops at the start: all blank, and followed by a non-blank or the end |
| Common.TrailingBlanks | frontend/app/addresses/index.tsx:49 | counts the blanks `trim()` drops at the end: all blank, and preceded by a non-blank or the start |
| Common.Trim | frontend/app/addresses/index.tsx:48-49 | `trim()` gives the infix of the input after its leading blanks; it neither starts nor ends with a blank, and everything around it is blank |
| Common.TrimEmptyIffBlank | frontend/app/addresses/index.tsx:36-44 | `!s.trim()` holds exactly when every character of `s` is JavaScript whitespace |
| Common.TrimNoOuterBlank | frontend/app/register.tsx:39 | a string without a blank at either end is unchanged by `trim()` |
| Common.TrimIdempotent | frontend/app/addresses/index.tsx:48-49 | trimming a trimmed value changes nothing |
| Common.NatToString | frontend/components/PrescriptionUploadModal.tsx:138 | the rendering of a count is non-empty decimal digits without a leading zero |
| Common.IntToString | frontend/app/order-history.tsx:129 | an integer renders non-empty, with a minus sign exactly when negative |
| Common.NatToStringRoundTrip | frontend/app/order-history.tsx:86 | reading the rendered digits back gives the number |
| Common.NatToStringInjective | frontend/components/PrescriptionUploadModal.tsx:138 | distinct counts render as distinct text |
| Addresses.AddErrorTrims | frontend/app/addresses/index.tsx:36-44 | the validation is the handler's own `!newLabel.trim()` then `!newAddress.trim()` test |
| Addresses.NewEntry | frontend/app/addresses/index.tsx:46-51 | the new entry carries the clock id, is the default iff the book was empty, and has trimmed label and address, empty only for blank input |
| Addresses.Removed | frontend/app/addresses/index.tsx:76-82 | the survivors are as many as the filter keeps and carry exactly the other ids; if the deleted entry was the default, the first survivor becomes the default; otherwise the result is the filter's |
| Addresses.FilterIds | frontend/app/addresses/index.tsx:76 | the ids left after filtering are exactly the other ids |
| Addresses.AddError | frontend/app/addresses/index.tsx:36-44 | the label is checked first: 'Please enter an address label' iff the label is blank, 'Please enter an address' iff the label is not blank and the address is, no error iff neither is blank |
| Addresses.Filter | frontend/app/addresses/index.tsx:76 | the result holds exactly the entries whose id differs from the deleted one |
| Addresses.FilterConcat | frontend/app/addresses/index.tsx:76 | filtering distributes over concatenation, so survivors keep their order |
| Addresses.FilterKeepsUniqueIds | frontend/app/addresses/index.tsx:76 | filtering keeps ids unique |
| Addresses.FilterAbsent | frontend/app/addresses/index.tsx:76 | deleting an id that is not present changes nothing |
| Addresses.FilterPresent | frontend/app/addresses/index.tsx:76-80 | with unique ids, `find` returns the deleted entry and the default count drops by its own flag only |
| Addresses.FirstWithId | frontend/app/addresses/index.tsx:80 | `find` succeeds iff some entry has the id, and returns an entry with that id |
| Addresses.WithDefault | frontend/app/addresses/index.tsx:89-96 | set-default keeps every entry's id, label and address in place and flags exactly the entries with the chosen id |
| Addresses.WithDefaultCount | frontend/app/addresses/index.tsx:89-96 | with unique ids, set-default leaves one default if the id is present and none otherwise |
| Addresses.AddKeepsWellFormed | frontend/app/addresses/index.tsx:46-53 | appending the new entry, which is the default iff the book was empty, keeps ids unique and exactly one default |
| Addresses.AppendKeepsWellFormed | frontend/app/addresses/index.tsx:50-53 | appending an entry with a new id, flagged default exactly when the book is empty, keeps the invariant |
| Addresses.AppendKeepsUniqueIds | frontend/app/addresses/index.tsx:47-53 | appending an entry with a new id keeps ids unique |
| Addresses.RemovedKeepsWellFormed | frontend/app/addresses/index.tsx:76-82 | confirmed delete keeps ids unique and, when entries remain, exactly one default (the first survivor is promoted if the default was deleted) |
| Addresses.PromoteFirstKeepsWellFormed | frontend/app/addresses/index.tsx:80-82 | flagging the first survivor of a book without a default leaves exactly that one default |
| Addresses.RemoveNonDefaultIsFilter | frontend/app/addresses/index.tsx:80-82 | deleting a non-default entry only filters; no flag changes |
| Addresses.RemovedShape | frontend/app/addresses/index.tsx:76-82 | delete changes at most the first survivor's flag and keeps every survivor's data in order |
| Addresses.SetDefaultKeepsWellFormed | frontend/app/addresses/index.tsx:89-96 | choosing a present entry as default leaves it the only default |
| Addresses.SetDefaultAbsentClears | frontend/app/addresses/index.tsx:89-96 | choosing an id that is not present clears every default |
| Addresses.StepKeepsWellFormed | frontend/app/addresses/index.tsx:35-96 | every action the screen offers (add with a fresh id, cancel or confirm a delete, set default on a shown button) keeps the invariant |
| Addresses.RunKeepsWellFormed | frontend/app/addresses/index.tsx:35-96 | any sequence of such actions keeps the invariant |
| Addresses.FromEmptyExactlyOneDefault | frontend/app/addresses/index.tsx:28-50 | from the initial empty book, a non-empty book always has exactly one default |
| Addresses.AddressBookScreen.constructor | frontend/app/addresses/index.tsx:28-33 | the book starts empty, the form closed and both inputs empty |
| Addresses.AddressBookScreen.OpenForm | frontend/app/addresses/index.tsx:173 | 'Add New Address' opens the form |
| Addresses.AddressBookScreen.TypeLabel | frontend/app/addresses/index.tsx:188 | typing sets the label input |
| Addresses.AddressBookScreen.TypeAddress | frontend/app/addresses/index.tsx:198 | typing sets the address input |
| Addresses.AddressBookScreen.CancelForm | frontend/app/addresses/index.tsx:207-214 | 'Cancel' closes the form and clears both inputs |
| Addresses.AddressBookScreen.HandleAddAddress | frontend/app/addresses/index.tsx:35-61 | a blank label or address is refused with the message `AddError` gives and changes nothing; otherwise the new entry is appended, the form closed and the inputs cleared |
| Addresses.AddressBookScreen.HandleDeleteAddress | frontend/app/addresses/index.tsx:63-87 | 'Cancel' keeps the book; 'Delete' stores the filtered list and then flags its first entry in place when the deleted entry was the default |
| Addresses.AddressBookScreen.HandleSetDefault | frontend/app/addresses/index.tsx:89-96 | the book keeps its entries, and exactly those with the chosen id are default |
| CustomInput.EmailCheckMatchesRegex | frontend/components/CustomInput.tsx:24 | the e-mail check accepts exactly the strings `/^[^\s@]+@[^\s@]+\.[^\s@]+$/` matches |
| CustomInput.DefaultRules | frontend/components/CustomInput.tsx:19-41 | 'email': 'Email is required' and 'Invalid email address'; 'password': 'Password is required' and at least 8 characters; 'username': 'Username is required' and at least 3 characters; 'required': 'This field is required'; only 'email' has the pattern, only 'password' and 'username' a minimum length; no type gives no rules |
| CustomInput.FieldRules | frontend/components/CustomInput.tsx:55 | the caller's `validate` is added to the preset and every preset rule is kept |
| CustomInput.Failures | frontend/components/CustomInput.tsx:19-41 | no rule fails exactly when the value is accepted |
| CustomInput.MergeKeepsPreset | frontend/components/CustomInput.tsx:55 | with a caller rule, a value is accepted iff the preset accepts it and the caller rule passes |
| CustomInput.PresetMeaning | frontend/components/CustomInput.tsx:19-41 | email accepts valid addresses, password at least 8 characters, username at least 3, required any non-empty value, no type everything |
| CustomInput.EmailExamples | frontend/components/CustomInput.tsx:21-25 | an empty e-mail gets only 'Email is required', "a@b" only 'Invalid email address', "a@b.com" nothing |
| RegisterScreen.ConfirmRuleMeaning | frontend/app/register.tsx:98-102 | the confirm rule passes exactly on the password's value, else says 'Passwords must match'; the field keeps the password preset |
| RegisterScreen.FormAcceptedMeaning | frontend/app/register.tsx:67-103 | the form submits iff username ≥ 3 characters, a valid e-mail, password ≥ 8 characters and a matching confirmation |
| RegisterScreen.BuildPayload | frontend/app/register.tsx:38-42 | the payload carries the password as typed and the username as fullname; its e-mail is the typed one trimmed, empty only for a blank entry |
| RegisterScreen.AcceptedPayload | frontend/app/register.tsx:38-42 | for a submitted form the payload is the typed e-mail, the password and the username as fullname, and meets the server's lower bounds |
| RegisterScreen.LongUsernameAcceptedThenRefused | frontend/app/register.tsx:67-73 | a form the screen accepts with a username over 100 characters is refused by the server's 100-character limit |
| RegisterScreen.AfterSubmit | frontend/app/register.tsx:43-48 | success replaces the route with '/login'; a failure alerts its message, or 'Registration failed' when it is missing or empty |
| AuthSchema.ParseRole | api/schemas/auth_schema.py:8-11 | exactly the three wire values read as roles |
| AuthSchema.RoleRoundTrip | api/schemas/auth_schema.py:8-11 | each role reads back from its wire value and vice versa |
| AuthSchema.CheckLength | api/schemas/auth_schema.py:15-17 | no error iff the length is within the bounds, a too-short error iff below, a too-long error iff above |
| AuthSchema.ParseRegister | api/schemas/auth_schema.py:14-18 | accepted iff fullname has 2..100 characters, password 8..255 and any given role is valid; fields copied; an omitted role means customer, a null role none |
| AuthSchema.ParseLogin | api/schemas/auth_schema.py:31-33 | accepted iff the password has 8..255 characters |
| AuthSchema.ParseChangePassword | api/schemas/auth_schema.py:130-132 | accepted iff both passwords have 8..255 characters; one or two errors otherwise |
| AuthSchema.MakeTokenResponse | api/schemas/auth_schema.py:44-48 | `token_type` is "bearer" unless given; the other fields are copied |
| AuthSchema.MakeAuthResponse | api/schemas/auth_schema.py:88-93 | `token_type` is "bearer" unless given; the other fields are copied |
| ProductDetail.Clamp | frontend/app/order-history.tsx:39 | the result is at least 1, at most the stock when there is stock, the requested value when in range, and 1 or the stock at the edges |
| ProductDetail.QuantityStaysInRange | frontend/app/order-history.tsx:10-40 | any sequence of presses keeps the quantity within 1..stock |
| ProductDetail.StepAtTheEdges | frontend/app/order-history.tsx:39 | '−' at 1 stays at 1, '+' at the stock stays at the stock, otherwise a press moves by one |
| ProductDetail.CartAmountBounds | frontend/app/order-history.tsx:216 | the button amount lies between one unit's price and the whole stock's, and grows by the price per unit |
| ProductDetail.DiscountBadge | frontend/app/order-history.tsx:84-88 | the "N% OFF" badge shows iff the discount is positive |
| ProductDetail.OriginalPriceTag | frontend/app/order-history.tsx:115-117 | the original price shows iff it exceeds the price |
| ProductDetail.StockLabel | frontend/app/order-history.tsx:129 | "In Stock" iff the stock is at least 20, else "Only N left" |
| ProductDetail.LabelAndIconDisagreeOnlyAt20 | frontend/app/order-history.tsx:123-129 | label and icon colour agree except at exactly 20 items |
| ProductDetail.SampleProductDisplay | frontend/app/order-history.tsx:14-36 | the sample shows "10% OFF", the original 550, "In Stock" with the success icon, and 500 for one unit |
| ProductDetail.ProductDetailScreen.constructor | frontend/app/order-history.tsx:10-11 | for any product, quantity starts at 1, not favourite, within the screen's invariant |
| ProductDetail.ProductDetailScreen.UpdateQuantity | frontend/app/order-history.tsx:38-40 | the quantity becomes the clamped sum and stays within 1..stock |
| ProductDetail.ProductDetailScreen.ToggleFavorite | frontend/app/order-history.tsx:65 | the heart flips the favourite flag only |
| PrescriptionUpload.AppendCapped | frontend/components/PrescriptionUploadModal.tsx:92 | the result is the first min(5, total) elements of old followed by picked |
| PrescriptionUpload.AppendCappedKeepsOldFirst | frontend/components/PrescriptionUploadModal.tsx:92-114 | images already chosen take precedence, a list over five is cut to its first five, and a pick that fits is appended whole |
| PrescriptionUpload.RemoveAt | frontend/components/PrescriptionUploadModal.tsx:121-123 | an index in range removes exactly that position; any other index changes nothing |
| PrescriptionUpload.RemoveAtMeaning | frontend/components/PrescriptionUploadModal.tsx:121-123 | removal keeps every other image in order |
| PrescriptionUpload.CameraPassesTheCap | frontend/components/PrescriptionUploadModal.tsx:65-93 | a photo can be a sixth image, and the next gallery pick cuts the list back to five |
| PrescriptionUpload.UploadPrompt | frontend/components/PrescriptionUploadModal.tsx:135-141 | the question says "Upload N image?" for one and "images?" otherwise |
| PrescriptionUpload.UploadPromptExamples | frontend/components/PrescriptionUploadModal.tsx:138 | "Upload 1 image?" and "Upload 3 images?" |
| PrescriptionUpload.UploadModal.constructor | frontend/components/PrescriptionUploadModal.tsx:22-23 | no images, not uploading |
| PrescriptionUpload.UploadModal.TakePhoto | frontend/components/PrescriptionUploadModal.tsx:53-76 | denial alerts and changes nothing; a capture appends its URI without a cap; a cancel changes nothing; an exception alerts 'Failed to take photo' |
| PrescriptionUpload.UploadModal.PickFromGallery | frontend/components/PrescriptionUploadModal.tsx:78-102 | denial alerts and changes nothing; a pick appends and caps at five; an exception alerts 'Failed to select images' |
| PrescriptionUpload.UploadModal.PickDocument | frontend/components/PrescriptionUploadModal.tsx:104-119 | assets are appended and capped at five; anything else, errors included, changes nothing silently |
| PrescriptionUpload.UploadModal.RemoveImage | frontend/components/PrescriptionUploadModal.tsx:121-123 | the list loses exactly the given position |
| PrescriptionUpload.UploadModal.HandleUpload | frontend/components/PrescriptionUploadModal.tsx:125-141 | an empty list gives only the 'No Images' warning; otherwise the count question |
| PrescriptionUpload.UploadModal.ConfirmUpload | frontend/components/PrescriptionUploadModal.tsx:142-175 | the upload ends with `uploading` off and the success alert, never the unreachable 'Upload Failed' one; the list is kept |
| PrescriptionUpload.UploadModal.AcknowledgeSuccess | frontend/components/PrescriptionUploadModal.tsx:161-165 | the list is emptied, the dialog asks to close and the success callback runs if given |
| PrescriptionUpload.UploadModal.HandleClose | frontend/components/PrescriptionUploadModal.tsx:179-196 | an empty list closes at once; otherwise the discard question, nothing changed |
| PrescriptionUpload.UploadModal.ConfirmDiscard | frontend/components/PrescriptionUploadModal.tsx:188-191 | the list is emptied and the dialog asks to close |
| Settings.TwoFactorAfter | frontend/app/settings/index.tsx:80-123 | no event sets the two-factor flag; cancel, a failed setup, disable and switching off clear it |
| Settings.BiometricSetupNotice | frontend/app/settings/index.tsx:127-159 | 'Incompatible Device' iff no hardware, 'No Biometrics Found' iff hardware but not enrolled, the error alert iff one of the calls actually made throws, nothing else |
| Settings.BiometricSetupAfter | frontend/app/settings/index.tsx:125-160 | the flag changes only after both checks pass, and turns on only after a successful authentication |
| Settings.BiometricSetupMeaning | frontend/app/settings/index.tsx:125-160 | from off, on iff hardware, enrolment and authentication all succeed; from on, off iff both checks pass; an alert never comes with a change |
| Settings.BiometricAfter | frontend/app/settings/index.tsx:162-168 | switching off clears the flag with no checks; events of the other switch leave it |
| Settings.TwoFactorNeverEnabled | frontend/app/settings/index.tsx:12-123 | from the initial state, no sequence of events turns two-factor on |
| Settings.BiometricNeedsSuccessfulSetup | frontend/app/settings/index.tsx:125-168 | if fingerprint login ends on having started off, some event was a fully successful setup |
| Settings.SettingsScreen.constructor | frontend/app/settings/index.tsx:12-13 | both flags start off |
| Settings.SettingsScreen.TwoFactorSetup | frontend/app/settings/index.tsx:71-115 | asks to enable when off and to disable when on |
| Settings.SettingsScreen.CancelEnable | frontend/app/settings/index.tsx:80 | 'Cancel' on the enable question clears the flag |
| Settings.SettingsScreen.ConfirmEnable | frontend/app/settings/index.tsx:83-94 | opens '/setup-2fa'; if that throws, alerts 'Failed to set up 2FA' and clears the flag |
| Settings.SettingsScreen.ConfirmDisable | frontend/app/settings/index.tsx:108-111 | 'Disable' clears the flag |
| Settings.SettingsScreen.TwoFactorToggle | frontend/app/settings/index.tsx:117-123 | on asks the setup question; off clears the flag |
| Settings.SettingsScreen.BiometricSetup | frontend/app/settings/index.tsx:125-160 | the flag and the alert follow the checks in order, as `BiometricSetupMeaning` states |
| Settings.SettingsScreen.BiometricToggle | frontend/app/settings/index.tsx:162-168 | on runs the setup; off clears the flag |
| ApiClient.BaseUrl | frontend/config/apiConfig.ts:2 | the environment's base URL unless unset or empty, then 'http://localhost:8000' |
| ApiClient.EndpointShapes | frontend/config/apiConfig.ts:15-34 | every path starts with '/api/v1/', and a detail path is its list path, '/', the id |
| ApiClient.BuildApiUrl | frontend/config/apiConfig.ts:36 | the URL is the base immediately followed by the path |
| ApiClient.AuthHeaders | frontend/config/apiConfig.ts:38-39 | exactly the two JSON headers for an absent or empty token; with a token, those plus 'Authorization: Bearer ' + token |
| ApiClient.MergeHeaders | frontend/config/apiConfig.ts:60 | caller headers win over default and authorization headers; no header is lost |
| ApiClient.Member | frontend/config/apiConfig.ts:74 | a member is found only on an object that has it |
| ApiClient.ErrorMessage | frontend/config/apiConfig.ts:74 | the truthy `detail`, else the truthy `message`, as a string; else the status text; else 'Request failed' |
| ApiClient.Settle | frontend/config/apiConfig.ts:58-83 | an abort rejects with 'Request timed out' and other failures with their message; unparseable text rejects with the parser's message; otherwise an OK response resolves to its data (null for empty text) and any other rejects with the error message; it resolves iff an OK response's text parses |
| ApiClient.FetchJson | frontend/config/apiConfig.ts:42-83 | the URL from the base and endpoint; method GET and a 30000 ms timer by default; merged headers; a body iff not null or undefined; the promise settles as `Settle` gives |
| ApiClient.ToJsString | frontend/config/apiConfig.ts:75 | `String(v)`: a string is itself, an object "[object Object]", null "null", an empty list "", a one-item list its item's text ("" for null) |
| ApiClient.ApiGet | frontend/config/apiConfig.ts:85 | a GET of the built URL with the token's headers, no body and the default timeout, settling as `Settle` gives |
| ApiClient.ApiPost | frontend/config/apiConfig.ts:86 | a POST of the built URL with the token's headers, the body unless it is null and the default timeout, settling as `Settle` gives |
| ApiClient.ApiPut | frontend/config/apiConfig.ts:87 | a PUT of the built URL with the token's headers, the body unless it is null and the default timeout, settling as `Settle` gives |
| ApiClient.ApiDelete | frontend/config/apiConfig.ts:88 | a DELETE of the built URL with the token's headers, no body and the default timeout, settling as `Settle` gives |
| ApiClient.StringDetailShown | frontend/config/apiConfig.ts:73-76 | an error whose `detail` is a non-empty string shows that string |
| ApiClient.ValidationDetailShownAsObjectText | frontend/config/apiConfig.ts:73-76 | a `detail` that is a list of objects shows "[object Object]" once per entry |
| ApiClient.ObjectListText | frontend/config/apiConfig.ts:75 | `String` of a list of objects is "[object Object]" per entry, joined by commas |
| Crypto.Utf8Char | api/utils/auth_utils.py:19 | `encode('utf-8')` of one character is one to four bytes |
| Crypto.Utf8Encode | api/utils/auth_utils.py:19 | the encoding of a string has between one and four bytes per character |
| Crypto.Utf8CharRoundTrip | api/utils/auth_utils.py:19 | decoding a character's bytes gives the character back, and the lead byte announces the sequence length |
| Crypto.Utf8CharInjective | api/utils/auth_utils.py:19 | distinct characters have distinct encodings |
| Crypto.Utf8EncodeConcat | api/utils/auth_utils.py:19 | the encoding of a concatenation is the concatenation of the encodings |
| Crypto.Utf8EncodeInjective | api/utils/auth_utils.py:19-24 | distinct strings have distinct encodings, so comparing encoded passwords compares the passwords |
| Crypto.AsciiEncodesBytewise | api/utils/auth_utils.py:19 | an ASCII string encodes to one byte per character, each equal to the character's code |
| Crypto.BcryptKey | api/utils/auth_utils.py:16-24 | bcrypt reads the first 72 bytes of the UTF-8 encoding: the whole encoding when it fits, exactly 72 bytes of it otherwise |
| Crypto.HashVerifies | api/utils/auth_utils.py:16-24 | a hash verifies its own password whatever the salt; it verifies another password iff the two agree on their first 72 encoded bytes, that is iff the passwords are equal when both fit in 72 bytes |
| Crypto.BytesAfter72Ignored | api/utils/auth_utils.py:16-24 | once a password's first 72 encoded bytes are fixed, whatever follows them does not change whether it verifies |
| Crypto.LongPasswordsShareAHash | api/utils/auth_utils.py:16-24 | two different 73-character passwords verify against each other's hash |
| Crypto.Decode | api/utils/auth_utils.py:41 | a payload comes only from a token signed with those claims, and expiry only from a signed token with `exp` |
| Crypto.EncodeDecode | api/utils/auth_utils.py:33-41 | an encoded token decodes to its claims before `exp` and as expired from `exp` on |
| Users.FindByEmail | api/routes/auth_route.py:19-73 | the lookup succeeds iff some row has the e-mail, and returns such a row |
| Users.FindById | api/utils/auth_utils.py:59 | the lookup succeeds iff some row has the id, and returns such a row |
| Users.LookupsFindTheRow | api/models/auth_model.py:19-21 | with unique ids and e-mails, each lookup returns the one matching row |
| Users.Authenticate | api/routes/auth_route.py:73-79 | login succeeds iff the e-mail is stored and its hash verifies the password |
| Users.WithPasswordHash | api/routes/profile_route.py:63 | only the hash of rows with that id changes |
| Users.AppendKeepsWellFormed | api/routes/auth_route.py:26-35 | storing a user with a new e-mail and id keeps both unique, and the user is found by each |
| Users.WithPasswordHashKeepsKeys | api/routes/profile_route.py:63 | a hash change keeps the table's ids and e-mails |
| Users.WithPasswordHashLookup | api/routes/profile_route.py:63 | after a hash change, an e-mail finds the same row, with the new hash iff it is that user's |
| Users.WithPasswordHashOtherEmail | api/routes/profile_route.py:63 | changing the hash of rows that do not carry an e-mail leaves that e-mail's lookup as it was |
| AuthTokens.CreateToken | api/utils/auth_utils.py:26-35 | the token signs the caller's claims plus `exp`, which is now plus the lifetime, or plus 15 minutes when the lifetime is absent or zero |
| AuthTokens.ZeroLifetimeIsDefault | api/utils/auth_utils.py:29-32 | a zero lifetime gives the same token as none |
| AuthTokens.GetCurrentUser | api/utils/auth_utils.py:38-65 | 401 'Token has expired' iff expired; 401 'Invalid authentication credentials' for an invalid token or no subject; 401 'User not found' iff the token decodes with a subject that names no stored user; the subject's user iff it names one |
| AuthTokens.IssuedTokenResolves | api/utils/auth_utils.py:26-65 | a token issued for a stored user resolves to that user until `exp` and is refused as expired from then on |
| AuthTokens.RefreshTokenResolvesToo | api/utils/auth_utils.py:38-65 | the token type is not checked, so a refresh token resolves like an access token |
| Accounts.RefreshError | api/routes/auth_route.py:117-169 | 401 'Refresh token has expired', 401 'Invalid refresh token', 401 'Invalid token type' iff `type` is not "refresh", 401 'User not found' iff a refresh token's subject names no stored user, and otherwise 500 'Token refresh failed: ' with the `timedelta` type error |
| Accounts.RefreshErrorOnIssuedTokens | api/routes/auth_route.py:127-151 | an access token is refused for its type; a valid refresh token of a stored user still ends in the 500 |
| Accounts.NewUser | api/routes/auth_route.py:26-31 | the stored row has the request's name and e-mail, the customer role whatever was asked, and a hash that verifies a password iff bcrypt reads the same bytes from it as from the request's |
| Accounts.RegisterThenLogin | api/routes/auth_route.py:26-79 | right after registering, the e-mail logs in as the new user with that password, and with another password iff it agrees with it on the first 72 encoded bytes (never, when both fit in 72 bytes) |
| Accounts.ChangePasswordThenLogin | api/routes/profile_route.py:56-66 | after a change, the new password logs in; a password that differs from it in its first 72 encoded bytes does not, and so no different password does when both fit in 72 bytes |
| Accounts.ChangePasswordKeepsOtherLogins | api/routes/profile_route.py:63 | a change leaves every other account's login as it was |
| Accounts.AccountService.constructor | api/models/auth_model.py:16-27 | the table starts empty |
| Accounts.AccountService.Register | api/routes/auth_route.py:15-65 | a taken e-mail gives 400 and stores nothing; a failure gives 500 'Registration failed: …' and stores nothing; otherwise one customer row with the hash only is appended, and both tokens are returned with "bearer" |
| Accounts.AccountService.Login | api/routes/auth_route.py:68-114 | one 401 'Invalid email or password' for an unknown e-mail and a wrong password; a failure gives 500 'Login failed: …'; otherwise the user with an access token and a refresh token of ACCESS_TOKEN_EXPIRE_DAYS days |
| Accounts.AccountService.Refresh | api/routes/auth_route.py:117-169 | always the error `RefreshError` gives |
| Accounts.AccountService.Logout | api/routes/auth_route.py:172-184 | a missing token gives 401 'Authorization token required'; token errors pass through; otherwise "User <email> logged out successfully" |
| Accounts.AccountService.GetProfile | api/routes/profile_route.py:24-34 | a missing token gives the same 401; token errors pass through; otherwise the user's public fields |
| Accounts.AccountService.ChangePassword | api/routes/profile_route.py:37-75 | missing token first, then token errors, then 401 'Current password is incorrect', then 500 'Password change failed: …', each with the table unchanged; otherwise only that user's hash becomes the new password's |
| Orders.StatusValuesDistinct | api/models/order_model.py:10-25 | distinct statuses have distinct wire values |
| Orders.Upper | api/routes/order_route.py:22 | on ASCII input (here the UUID's lower-case hex digits) `upper()` maps each character, upper-casing a-z and keeping the length |
| Orders.OrderId | api/routes/order_route.py:22 | 16 characters: "ORD_" and the upper-cased first twelve UUID digits |
| Orders.OrderIdInjective | api/routes/order_route.py:22 | two ids are equal iff the UUIDs' first twelve digits are |
| Orders.CreateOrder | api/routes/order_route.py:12-52 | a pending order needing a prescription, with pending prescription status, the request's user, medications and address unchanged; a failure gives 500 'Failed to create order: …' |
| Orders.VerifyDocument | api/utils/doc_verify.py:6-38 | valid iff the content type is JPEG, PNG or PDF, else the fixed reason |
| Orders.FindMatchingPharmacies | api/utils/doc_verify.py:40-62 | always ph_001 then ph_002, both with all items |
| Orders.MatchingIgnoresItsArguments | api/utils/doc_verify.py:40-62 | the result does not depend on the medications or the location |
| Orders.NotifyPharmacies | api/utils/doc_verify.py:64-71 | one notification per pharmacy, in list order, naming it and the order |
| Orders.UploadPrescription | api/routes/order_route.py:54-127 | an accepted document answers 'verified'/'valid' with 2 matched pharmacies, next step 'payment', and notifies both; a refused one answers 'rejected'/'invalid' with the reason and notifies no one; a failure gives 500 'Failed to process prescription: …' |
| Orders.GetOrder | api/routes/order_route.py:129-155 | the fixed sample order under the requested id |
| Orders.GetUserOrders | api/routes/order_route.py:157-174 | zero orders and an empty list for every user and page |

## Left out

- Rendering and styling: layouts, colours, icons, the alert component's appearance and the loading modal.
- Network I/O: the real `fetch` and the race between the abort timer and the response. `FetchJson` takes the transport's outcome as an input.
- `JSON.parse` and `JSON.stringify`. A response body arrives already parsed, or with the parser's error message; a request body is the JSON value to be serialised.
- Device integrations: the camera, the gallery, the document picker, their permission prompts, and `expo-local-authentication`. Their answers are inputs.
- The Appwrite upload, which is commented out in `PrescriptionUploadModal.tsx`. The dialog's upload is a two-second wait that cannot fail, so its catch branch and the 'Upload Failed' alert are unreachable and are kept only as a constant.
- The `uploading` flag while the wait runs. The model only shows it off again afterwards.
- bcrypt's cipher and the JWT signature. A hash records the bytes bcrypt reads and the salt; a signed token records its claims. The configured bcrypt rounds are not modelled.
- Crypto.HashVerifies: follows bcrypt releases before 5.0, which read only the first 72 bytes of the UTF-8 encoding; the repository pins no bcrypt version, and 5.0's `ValueError` on longer passwords (a 500 from register and change-password) is not modelled. A NUL character is treated like any other.
- `profile_route.py` hashes with the environment's round count. The model does not capture that a set BCRYPT_ROUNDS makes `gensalt` fail with a 500.
- The clock, `uuid4` and `Date.now()` are inputs. Address ids are assumed fresh, as the screen assumes.
- Database sessions. Commit and rollback are modelled as a failure input at commit: the table is unchanged and the 500 message is built from the failure's text.
- Accounts.AccountService.Register: a failure after `db.commit()` is not modelled. That covers `db.refresh`, `create_token` with an unset secret key, and `from_orm`. In the source the row then stays stored while the answer is the 500 'Registration failed: …', since `rollback` cannot undo the commit. The model's failure input always leaves the table unchanged.
- The users table is a sequence of rows, looked up first-match as `query().filter().first()` does.
- The e-mail syntax check behind `EmailStr`: any string is taken as an e-mail.
- `UserResponse`'s `created_at` and `updated_at` timestamps.
- `helpers/user_utils.py` is not part of this model. `profile_route.py` imports `get_current_user` from it, and its code is not shown. The model assumes it behaves like `get_current_user` in `api/utils/auth_utils.py`.
- Environment settings that are not integers. The token lifetimes are taken as already-converted integers.
- Accounts.AccountService.Refresh: the success tail of refresh is not modelled, because `timedelta` receives the setting as raw text and always raises before a token is made.
- AuthTokens.GetCurrentUser: a subject claim that is not text is treated as naming no user; the database's UUID conversion of the id is not modelled.
- The form library's rule order, its first-error-only reporting and its re-validation timing. A field is judged by whether every rule accepts it.
- Orders.Upper: models `str.upper` on ASCII only. Python also upper-cases non-ASCII letters and can lengthen a string ('ß' gives 'SS'); the order id only ever applies it to hex digits.
- JavaScript numbers are integers here: no fractions, no NaN. `NatToString` and `IntToString` do not model the exponent form (such as `1e+21`) that `String` gives from 10^21 upwards. String lengths count characters, not UTF-16 code units.
- React's asynchronous state updates and stale closures. Each handler reads the state as it was when it ran.
- The heart icon's colours, the warnings list and the other static product text.
- `addToCart`, which only writes a log line; there is no cart state.
- Change-password navigation on the settings screen (`handleChangePassword`), which only asks and opens another screen.
- `forgot-password.tsx`: its submit handler is commented out.
- The float prices and distances. A pharmacy's distance is kept in tenths of a kilometre.
- `api/main.py`, which only wires routers and CORS.
- `frontend/scripts/convert-icons.js`, which converts images.
