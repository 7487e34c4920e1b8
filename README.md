# Cobquecura associates app: form controllers

This project models, in Dafny, the form logic of three screens of the Cobquecura
associates mobile app. The rest of the app is screen markup and styling.

- **Profile** (`profile.dfy`, class `Profile.ProfileScreen`). The user edits their own and
  their business partner's record under per-field length limits. They can change their
  password behind a four-rule strength check, pick a birth date that is stored year first,
  and toggle business categories. The update is sent in two steps: the user record first,
  then the partner record with the categories, only if the first replied 200.
- **Promotion** (`promotion.dfy`, class `Promotion.PromotionForm`). The promotion form
  refuses a too-long title, an out-of-range percentage or a bad quantity instead of
  truncating them. It keeps the start/end date pair ordered, caps the images at six,
  and shows one date picker at a time. On submit it lists every missing required field
  before the create call, whose payload is built from the form and the first usable
  branch.
- **Login** (`login.dfy`, class `Login.LoginScreen`). The e-mail shape check runs on the
  trimmed, lower-cased address. After the credential call, two checks on the returned
  account (status `active`, a role named `associated`) decide whether the app moves on.
  A service error message is mapped before it is shown.

Each screen is a class. Its React state hooks are fields, and each event handler it
models is a method whose `modifies` names exactly the state it may set. A remote call
does not run: its outcome is a parameter of the handler (a `Reply` status or thrown
error, a `created` flag, a `LoginReply`). Each class keeps a ghost log of the calls it has issued
(`CallLog.Log`, oldest first). That log lets a contract say "no call was made" or "the
second call follows only a 200 reply".

The regular expressions are hand-written predicates, each with a lemma showing it
accepts exactly what the pattern matches. Shared string helpers live in `strings.dfy`.
These are the JavaScript `trim`, ASCII `toLowerCase`, `split('-')`, `join`, and
`Number(text)` on integer texts. `scenarios.dfy` drives the screens through a few user
sessions and checks the outcome from the handlers' contracts alone.

Every user-visible text is a constructor of a `Message` datatype. Its `Text` function
gives the exact Spanish string the app shows, so contracts compare messages rather than
long string literals.

## Model

| member | source | states |
|---|---|---|
| Profile.ValidatePassword | Cobquecura_asociados_SDK52/src/screens/ProfileScreen.tsx:279-286 | each of the four rules is listed exactly when the password breaks it (all are checked, none short-circuits), in the fixed order length, upper case, digit, special, so at most four |
| Profile.ValidateAcceptsStrong | Cobquecura_asociados_SDK52/src/screens/ProfileScreen.tsx:279-286 | the list is empty exactly when the password is strong (8+ characters with an upper-case letter, a digit and one of the special characters) |
| Profile.ShortLowerCasePassword | Cobquecura_asociados_SDK52/src/screens/ProfileScreen.tsx:279-286 | a password of fewer than 8 lower-case letters (such as `abc`) gets all four messages, in order |
| Profile.StrongPassword | Cobquecura_asociados_SDK52/src/screens/ProfileScreen.tsx:279-286 | `Abcdefg1!` gets no message |
| Profile.ProfileScreen.HandleNewPasswordChange | Cobquecura_asociados_SDK52/src/screens/ProfileScreen.tsx:288-293 | the new password is stored, its rule list is the validator's, and the valid flag holds exactly when the password is strong |
| Profile.ProfileScreen.HandleChangePassword | Cobquecura_asociados_SDK52/src/screens/ProfileScreen.tsx:94-128 | no call and only an error (the rule list, a missing confirmation or a mismatch, checked in that order) unless the flag is set and the confirmation is non-empty and equal; otherwise exactly one change call carrying a strong new password and the current one, after which the three fields are empty and the section closed whatever the reply; success only on a 200 |
| Profile.ProfileScreen.HandleCancelChangePassword | Cobquecura_asociados_SDK52/src/screens/ProfileScreen.tsx:130-137 | the three password fields, the rule list and the valid flag are reset and the section closes |
| Profile.ProfileScreen.HandleInputChange | Cobquecura_asociados_SDK52/src/screens/ProfileScreen.tsx:139-157 | an edit over its field's limit (names 30, city and address 50, business type and contact 25) leaves the form unchanged and shows the 30- or 50-character message; any other edit changes that field only |
| Profile.Set | Cobquecura_asociados_SDK52/src/screens/ProfileScreen.tsx:153-156 | the spread update changes the named field to the value and keeps every other field |
| Profile.FormatDateSwaps | Cobquecura_asociados_SDK52/src/screens/ProfileScreen.tsx:165-168 | on a dash-free `a-b-c` the formatter returns `c-b-a` |
| Profile.FormatDateInvolution | Cobquecura_asociados_SDK52/src/screens/ProfileScreen.tsx:165-168 | on any text of exactly three dash-separated parts, formatting twice gives the text back |
| Profile.PickedDateIsYearFirst | Cobquecura_asociados_SDK52/src/screens/ProfileScreen.tsx:180-182 | the text stored for a picked day is `year-month-day`, unpadded |
| Profile.ProfileScreen.HandleDateChange | Cobquecura_asociados_SDK52/src/screens/ProfileScreen.tsx:170-185 | a picked day later than today is refused with an error and the form unchanged; any other picked day sets only the birth date, year first; with no day nothing changes; the picker closes except on iOS |
| Profile.PhoneMatchesPattern | Cobquecura_asociados_SDK52/src/screens/ProfileScreen.tsx:205-207 | the phone check accepts exactly an optional `+` followed by 7 to 15 decimal digits |
| Profile.ProfileScreen.HandleUpdate | Cobquecura_asociados_SDK52/src/screens/ProfileScreen.tsx:203-252 | a non-empty phone failing the check stops the update with an error and no call; otherwise the calls issued are exactly those of the update sequence and loading and editing end off |
| Profile.ProfileScreen.SendUpdate | Cobquecura_asociados_SDK52/src/screens/ProfileScreen.tsx:212-251 | the log grows by exactly the update sequence's calls; success is shown exactly when the notice is a success, otherwise the notice's error; loading and editing end off |
| Profile.UpdateCallsOrder | Cobquecura_asociados_SDK52/src/screens/ProfileScreen.tsx:221-234 | the user update always goes first; the partner update (partner fields and selected categories) follows exactly when the user update replied 200; the category refresh follows exactly when both did |
| Profile.UpdateNoticeCases | Cobquecura_asociados_SDK52/src/screens/ProfileScreen.tsx:224-247 | success is reported exactly when both updates replied 200; the partner-specific failure exactly when the user update succeeded and the partner update replied another status |
| Profile.UserPayloadImage | Cobquecura_asociados_SDK52/src/screens/ProfileScreen.tsx:214-218 | the image is sent as null exactly when it starts with `http`, and unchanged otherwise |
| Profile.PayloadsCarryForm | Cobquecura_asociados_SDK52/src/screens/ProfileScreen.tsx:214-230 | the user body and the partner body together carry every form field once (user id kept in the user body, address, contact and business type only in the partner body), the partner body carries the selected categories, and only an `http` image is dropped |
| Profile.RemoveAllCounts | Cobquecura_asociados_SDK52/src/screens/ProfileScreen.tsx:257 | filtering drops every occurrence of the id and keeps every occurrence of every other id |
| Profile.RemoveAllAppend | Cobquecura_asociados_SDK52/src/screens/ProfileScreen.tsx:257 | filtering keeps the order: it distributes over concatenation |
| Profile.RemoveAllAbsent | Cobquecura_asociados_SDK52/src/screens/ProfileScreen.tsx:257 | filtering out an id that is absent leaves the list as it was |
| Profile.ToggleCategory | Cobquecura_asociados_SDK52/src/screens/ProfileScreen.tsx:254-262 | the id ends present exactly when it was absent; an absent id is appended at the end; a present id is filtered out; no other id is added or lost |
| Profile.ToggleTwice | Cobquecura_asociados_SDK52/src/screens/ProfileScreen.tsx:254-262 | toggling an absent id twice restores the list; toggling a present id twice moves it to the end, so a list holding it once keeps the same elements |
| Profile.ProfileScreen.HandleCategoryChange | Cobquecura_asociados_SDK52/src/screens/ProfileScreen.tsx:254-262 | the selection becomes the toggle of the old selection |
| Profile.ProfileScreen.HandleCountryChange | Cobquecura_asociados_SDK52/src/screens/ProfileScreen.tsx:263-269 | an empty country is refused with an error and the form unchanged; any other sets the country only |
| Profile.ProfileScreen.ShowErrorModal | Cobquecura_asociados_SDK52/src/screens/ProfileScreen.tsx:295-298 | the error modal is visible with the given message |
| Profile.ProfileScreen.ShowSuccessModal | Cobquecura_asociados_SDK52/src/screens/ProfileScreen.tsx:299-302 | the success modal is visible with the given message |
| Profile.SeedForm | Cobquecura_asociados_SDK52/src/screens/ProfileScreen.tsx:58-74 | the form is seeded from the stored user and partner, the image being the API address followed by the stored image path |
| Profile.SeededImageNotResent | Cobquecura_asociados_SDK52/src/screens/ProfileScreen.tsx:68 | with an `http` API address, a seeded form saved without a new image sends no image in the user update (read with line 217) |
| Profile.SeedInjective | Cobquecura_asociados_SDK52/src/screens/ProfileScreen.tsx:58-74 | the seed loses no store field: two seeds for one API address are equal only when the user and partner records are |
| Profile.ProfileScreen.ResetFormData | Cobquecura_asociados_SDK52/src/screens/ProfileScreen.tsx:304-323 | the form is rebuilt from the store's user and partner records as they are at that moment (given as parameters), not those at mount |
| Profile.ProfileScreen.CancelEdit | Cobquecura_asociados_SDK52/src/screens/ProfileScreen.tsx:324-327 | edit mode ends and every unsaved edit is replaced by the store's current records |
| Profile.ProfileScreen.StartEdit | Cobquecura_asociados_SDK52/src/screens/ProfileScreen.tsx:424 | the edit button enters edit mode |
| Profile.ProfileScreen.TogglePasswordSection | Cobquecura_asociados_SDK52/src/screens/ProfileScreen.tsx:438 | the key button flips the password section open or closed |
| Profile.ProfileScreen.OpenDatePicker | Cobquecura_asociados_SDK52/src/screens/ProfileScreen.tsx:503 | the birth-date field opens the date picker |
| Profile.ProfileScreen.constructor | Cobquecura_asociados_SDK52/src/screens/ProfileScreen.tsx:41-91 | the initial state: the seeded form, the store's categories, empty password fields, no flag set, no call made |
| Promotion.PromotionForm.HandleTitleChange | Cobquecura_asociados_SDK52/src/components/PromotionForm.tsx:204-210 | a title of at most 45 characters is stored; a longer one leaves the title unchanged and shows an error |
| Profile.ProfileScreen.SetCurrentPassword | Cobquecura_asociados_SDK52/src/screens/ProfileScreen.tsx:360 | the current-password field holds the typed text and the screen invariant is kept |
| Profile.ProfileScreen.SetConfirmPassword | Cobquecura_asociados_SDK52/src/screens/ProfileScreen.tsx:387 | the confirmation field holds the typed text and the screen invariant is kept |
| Promotion.PromotionForm.HandleDescriptionChange | Cobquecura_asociados_SDK52/src/components/PromotionForm.tsx:216 | the description is stored as typed |
| Promotion.PromotionForm.HandlePercentageChange | Cobquecura_asociados_SDK52/src/components/PromotionForm.tsx:224-231 | the parsed value is stored exactly when it is a number in [0, 99] (blank text reads as 0); otherwise the percentage is unchanged and an error shown |
| Promotion.PromotionForm.HandleQuantityChange | Cobquecura_asociados_SDK52/src/components/PromotionForm.tsx:239-254 | empty text clears the quantity; text over 8 characters is refused; otherwise the parsed value is stored exactly when it is a positive number, and refused with an error otherwise |
| Strings.ParseNumber | Cobquecura_asociados_SDK52/src/components/PromotionForm.tsx:225 | surrounding whitespace is ignored, blank text is 0, a run of digits is its decimal value, a `+` or `-` before one is its value or its negation, and any other text is not a number |
| Strings.ParseNatToString | Cobquecura_asociados_SDK52/src/components/PromotionForm.tsx:225 | the text of a natural number parses back to that number |
| Promotion.PromotionForm.HandleImagesCompressed | Cobquecura_asociados_SDK52/src/components/PromotionForm.tsx:50-57 | at most six images are stored as given; more than six empties the list and shows an error; the list never exceeds six |
| Promotion.PromotionForm.HandleSelectCategories | Cobquecura_asociados_SDK52/src/components/PromotionForm.tsx:58-61 | the selection is replaced |
| Promotion.PromotionForm.HandleStartDateChange | Cobquecura_asociados_SDK52/src/components/PromotionForm.tsx:121-134 | a picked start date is stored and always clears the end date; no date changes neither; the start/end order is kept; the picker stays open only on iOS with a date |
| Promotion.PromotionForm.HandleEndDateChange | Cobquecura_asociados_SDK52/src/components/PromotionForm.tsx:136-158 | an end date at or before the start is refused with an error and the stored end kept; a later one is stored; the order is kept |
| Promotion.PromotionForm.ConfirmStartDate | Cobquecura_asociados_SDK52/src/components/PromotionForm.tsx:160-166 | the start picker closes |
| Promotion.PromotionForm.ConfirmEndDate | Cobquecura_asociados_SDK52/src/components/PromotionForm.tsx:168-179 | a stored end at or before the start is replaced by the start with an error, otherwise kept; afterwards the end is never before the start and the picker is closed |
| Promotion.PromotionForm.ShowDatePicker | Cobquecura_asociados_SDK52/src/components/PromotionForm.tsx:181-189 | exactly one picker is open, the start picker exactly for `init` |
| Promotion.PromotionForm.ShowErrorModal | Cobquecura_asociados_SDK52/src/components/PromotionForm.tsx:191-194 | the modal is visible with the given message |
| Promotion.FindBranch | Cobquecura_asociados_SDK52/src/components/PromotionForm.tsx:66-68 | the position of the first branch whose status is `active` or `inactive`, and none exactly when no branch has such a status |
| Promotion.TargetBranch | Cobquecura_asociados_SDK52/src/components/PromotionForm.tsx:66-74 | a branch is used only with a non-zero user id, and it is the first selectable branch of the list, with a non-zero id; when that branch has id 0 none is used |
| Promotion.MissingFields | Cobquecura_asociados_SDK52/src/components/PromotionForm.tsx:75-89 | each required field is listed exactly when it is missing (a percentage of 0 is present), in the order title, percentage, start, end, categories, so at most five; the list is empty exactly when the gate lets the form through |
| Promotion.PromotionForm.HandleSubmit | Cobquecura_asociados_SDK52/src/components/PromotionForm.tsx:63-119 | without a user id or usable branch: an error, no call, loading left on; with a field missing: no call and an error listing every missing field; otherwise one create call whose payload is the form's fields plus the branch, partner and branch-status ids, followed by a promotions refresh and success when it succeeded, or an error when it failed |
| Promotion.PromotionForm.SubmitFor | Cobquecura_asociados_SDK52/src/components/PromotionForm.tsx:75-118 | for a found branch: with a field missing, no call and an error listing every missing field; otherwise the create call with that branch's payload, a refresh and success when it succeeded, an error when it failed; loading ends off |
| Promotion.PromotionForm.Create | Cobquecura_asociados_SDK52/src/components/PromotionForm.tsx:90-118 | the create call is logged with the form's payload; on success the refresh is logged and success shown, on failure an error; loading ends off |
| Promotion.PromotionForm.constructor | Cobquecura_asociados_SDK52/src/components/PromotionForm.tsx:30-45 | the initial state: every field empty, no picker or modal open, no call made, dates ordered and fields in range |
| Login.EmailMatchesPattern | Cobquecura_asociados_SDK52/src/screens/LoginScreen.tsx:36-39 | the check accepts exactly a non-empty run without whitespace or `@`, an `@`, a non-empty such run, a `.` and another non-empty such run |
| Login.InnerDot | Cobquecura_asociados_SDK52/src/screens/LoginScreen.tsx:37 | the domain holds a `.` with at least one character on each side |
| Login.NormalizedShape | Cobquecura_asociados_SDK52/src/screens/LoginScreen.tsx:42 | the normalised address neither starts nor ends with whitespace and has no upper-case letter |
| Login.NormalizeIdempotent | Cobquecura_asociados_SDK52/src/screens/LoginScreen.tsx:42 | normalising twice is normalising once |
| Strings.TrimIdempotent | Cobquecura_asociados_SDK52/src/screens/LoginScreen.tsx:42 | trimming twice is trimming once |
| Strings.ToLower | Cobquecura_asociados_SDK52/src/screens/LoginScreen.tsx:42 | same length, each ASCII upper-case letter becomes its lower-case letter, every other character unchanged |
| Login.LoginErrorText | Cobquecura_asociados_SDK52/src/screens/LoginScreen.tsx:93-94 | `Password inválido` becomes `Contraseña inválida`; any other message passes unchanged |
| Login.LoginScreen.HandleLogin | Cobquecura_asociados_SDK52/src/screens/LoginScreen.tsx:41-100 | an address that fails the check after normalising gives an error, no call, and leaves loading and the fields alone; otherwise one login call with the normalised address, and loading ends off; an inactive account or one without `associated` gets its message and keeps the fields; only an active associate schedules the move on, clearing both fields and the error; a failed call clears both fields and shows the mapped message |
| Login.LoginScreen.constructor | Cobquecura_asociados_SDK52/src/screens/LoginScreen.tsx:22-30 | the initial state: empty email and password, no error, no modal, not loading, nothing scheduled, no call made |
| Login.LoginScreen.SetEmail | Cobquecura_asociados_SDK52/src/screens/LoginScreen.tsx:114 | the email field holds the typed text |
| Login.LoginScreen.SetPassword | Cobquecura_asociados_SDK52/src/screens/LoginScreen.tsx:123 | the password field holds the typed text |
| Login.LoginScreen.ApplyReply | Cobquecura_asociados_SDK52/src/screens/LoginScreen.tsx:64-95 | the outcome of the credential call: the status check before the role check, both fields cleared on entry and again on a failed call, the error cleared only on entry, the mapped message on a failed call |
| Strings.SplitJoin | Cobquecura_asociados_SDK52/src/screens/ProfileScreen.tsx:166 | splitting the dash-join of dash-free parts gives the parts back |
| Strings.Any | Cobquecura_asociados_SDK52/src/screens/ProfileScreen.tsx:282-284 | a character class test holds exactly when some character is in the class |

## Left out

- JavaScript `Date`: promotion dates are day numbers, and the birth date is a calendar day
  compared by year, month and day. Time zones, times of day and `toISOString` are not
  modelled.
- Strings.ParseNumber: `Number(text)` is modelled only on optionally signed decimal
  integers and blank text. Decimals, exponents, hexadecimal and `Infinity` are read as
  not a number.
- Strings.ToLower: only ASCII letters are lowered.
- Profile.ValidatePassword, Profile.ProfileScreen.HandleInputChange,
  Promotion.PromotionForm.HandleTitleChange, Promotion.PromotionForm.HandleQuantityChange:
  lengths count characters, while JavaScript counts UTF-16 code units. A text with
  characters outside the Basic Multilingual Plane (an emoji) is longer in the app than
  in the model, so the app can refuse or flag a text the model accepts.
- The `setTimeout` delay before navigation is only a flag (`navigationScheduled`). The
  navigation and the hiding of the welcome modal are not modelled.
- Profile.ProfileScreen.HandleDateChange: "today" is a parameter, not the clock.
- The iOS and other-platform branches are one handler with an `isIos` constant.
- The mount effects are not modelled: loading data, fetching categories, re-seeding the
  selection from the store, and re-parsing the birth date into the picker's date.
- Image compression is not modelled: the handler receives the compressed list.
- `confirmDate`, `handleImageCompressed`, `handleSaveCategories` and `handleLogout` of the
  profile screen are not part of this model. They are not among its validation rules.
- Redux actions, selectors and the store are not part of this model. The outcomes of
  the remote calls are handler parameters, and a thrown error is a `Threw` reply. The
  store's records at cancel time are parameters of `CancelEdit`.
- Profile.ProfileScreen.constructor: the user and partner records the screen holds are
  those at mount. The user id in the password-change call and the category refresh,
  and the seed of the form, come from them. Later changes of the store are seen only
  by `CancelEdit`.
- Promotion.PromotionForm.constructor: the user id and the branch list the form holds are
  those at mount, while the screen reads them from the store on every render. So
  `HandleSubmit` does not see a store change made after mount.
- The `onClose` handlers of the error and success modals are not modelled: those of
  the profile screen (ProfileScreen.tsx lines 334 and 339), of the promotion form
  (PromotionForm.tsx lines 356 and 361, the second one also calling the form's
  `onClose`) and of the login screen (LoginScreen.tsx lines 160 and 165). Each only
  hides its modal. In the model a visible flag, once set, stays set.
- Login.LoginScreen.HandleLogin: a credential reply without a user, status or roles
  (which would throw inside `try`) is not modelled as a separate case.
- Profile.ProfileScreen.HandleChangePassword: the valid flag is not reset after a change,
  as in the screen. So the invariant `Valid` allows an empty new password while the flag
  is set.
- Modal texts are constructors of a `Message` datatype. `Text` gives their exact strings,
  but the contracts compare constructors. The handlers set the two modal fields directly,
  as `showErrorModal`/`showSuccessModal` do.
- Profile.ProfileScreen.HandleInputChange: the business type and contact fields are
  limited to 25 characters but their message says 30. This is modelled as written
  (`TooLongMessage`).
- React's batched `setState` is not modelled: the handlers run one at a time on a single
  state.
