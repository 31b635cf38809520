# Book-sharing site forms, modelled in Dafny

The site has three form pages:

- the sign-up page (`Signup`);
- the page where a parent or teacher asks for books for a child (`RequestBooks`);
- the page where a donor offers books for pickup (`DonateBooks`).

Each page is a React component. Its state is a `formData` record, an `errors` map from field name to message, and a busy (`isSubmitting`) flag. The request and donation pages add a done (`isSubmitted`) flag, and the sign-up page a meter score. It has three handlers:

- `handleInputChange` stores an edited value. It also blanks the error stored under the input's `name` (the genre boxes of the request page have none).
- `validateForm` builds a fresh error map, one check per required field. It stores the map and reports whether the map is empty.
- `handleSubmit` sends the form only when validation passes. The request and donation pages also schedule a reset of the form.

The sign-up page also scores the password for a strength meter.

The Dafny project models this client-side logic:

- `JsText`: the JavaScript whitespace set, `trim`, and "blank" (what `!s.trim()` tests).
- `EmailPattern`: the regular expression `\S+@\S+\.\S+` that all three pages test, as an explicit predicate plus a recursive matcher proved equal to it.
- `FormState`: values of a form entry, error entries, and the two error-map steps every page shares: recording a message, and blanking a message on input.
- `PasswordStrength`: the five-criterion password score and its label.
- `Signup`, `RequestBooks`, `DonateBooks`: each page's data record, field enumeration, messages and per-field checks, plus a class holding the component's state. That class has one method per handler.

Each page's validation is specified two ways:

- `ExpectedErrors(d)` maps each field to its check's message.
- `IsValid(d)` is an independent statement of what a complete form looks like.

Each `ValidateForm` method builds its map imperatively, one check at a time in the page's own order. It is proved to yield exactly `ExpectedErrors`, and to report success exactly when `IsValid` holds.

## Model

| member | source | states |
|---|---|---|
| JsText.Trim | src/pages/Signup.js:83 | definition of `s.trim()` (drop leading, then trailing whitespace); its properties are in `TrimEmptyIffBlank` and `TrimIdempotent` |
| JsText.TrimStartSpec | src/pages/Signup.js:83 | the leading-whitespace strip keeps the suffix starting at the first non-whitespace character |
| JsText.TrimEndSpec | src/pages/Signup.js:83 | the trailing-whitespace strip keeps the prefix ending at the last non-whitespace character |
| JsText.TrimEmptyIffBlank | src/pages/Signup.js:83 | `s.trim()` is empty (falsy) exactly when every character of `s` is whitespace |
| JsText.TrimIdempotent | src/pages/Signup.js:83 | trimming twice is trimming once; a non-empty trimmed string starts and ends with non-whitespace |
| EmailPattern.DotAfter | src/pages/Signup.js:88 | the `\S+\.\S+` tail after an `@` exists exactly when the explicit predicate says so |
| EmailPattern.AtFrom | src/pages/Signup.js:88 | scanning from position i finds a match of `\S+@\S+\.\S+` exactly when one with its `@` at or after i exists |
| EmailPattern.MatchesEmail | src/pages/Signup.js:88 | the email test accepts exactly the strings containing a non-whitespace run, `@`, a non-whitespace run, `.`, a non-whitespace run |
| EmailPattern.MatchNeedsAt | src/pages/Signup.js:88 | an accepted address has an `@` that is not its first or last character and is at least five characters long |
| EmailPattern.EmailAccepted | src/pages/RequestBooks.js:94 | `ann@example.org` passes, and so does an address with surrounding spaces (the pattern is unanchored) |
| EmailPattern.EmailRejected | src/pages/DonateBooks.js:68 | the empty string and an address without a dot after the `@` are refused |
| EmailPattern.EmailSpaceBeforeAt | src/pages/Signup.js:88 | whitespace right before the `@` makes the address fail |
| FormState.Record | src/pages/Signup.js:83 | a check's message is stored under its field; no message leaves the map as it was |
| FormState.RecordAt | src/pages/Signup.js:83-84 | recording adds at most the checked key and changes no other entry |
| FormState.HasError | src/pages/Signup.js:72 | definition of the truthiness test `errors[name]`: the key is present and holds a message; used by `ClearError` and `ClearErrorOnlyRemoves` |
| FormState.ClearError | src/pages/Signup.js:71-77 | after an edit the field has no truthy error, the key set is kept, other entries are unchanged, and a map without that error is left alone |
| FormState.ClearErrorIdempotent | src/pages/DonateBooks.js:53-59 | clearing the same field twice is clearing it once |
| FormState.ClearErrorOnlyRemoves | src/pages/RequestBooks.js:77-83 | an error is shown after an edit exactly when it was shown before and belongs to another field |
| PasswordStrength.EveryCharHasAClass | src/pages/Signup.js:34-37 | every character is a lower-case letter, an upper-case letter, a digit or "other" |
| PasswordStrength.Contains | src/pages/Signup.js:34-37 | a character-class test holds exactly when some character of the password is in the class |
| PasswordStrength.Strength | src/pages/Signup.js:31-39 | reference definition of the score: the number of criteria in the list the password meets; its properties are in `ScoreIsCount`, `StrengthRange`, `StrengthZeroIffEmpty` and `StrengthMonotone` |
| PasswordStrength.CalculatePasswordStrength | src/pages/Signup.js:31-39 | the score computed step by step is the number of criteria the password meets, between 0 and 5 |
| PasswordStrength.ScoreIsCount | src/pages/Signup.js:32-38 | the score is the sum of the five 0/1 criteria: length at least 8, a lower-case letter, an upper-case letter, a digit, another character |
| PasswordStrength.CountMetBounded | src/pages/Signup.js:32-38 | a list of criteria is met at most as many times as it has entries |
| PasswordStrength.StrengthRange | src/pages/Signup.js:31-39 | the score lies in 0..5 and is 5 exactly when every criterion is met |
| PasswordStrength.StrengthZeroIffEmpty | src/pages/Signup.js:22 | the score is 0 exactly for the empty password, so the meter's initial 0 agrees with the initial password |
| PasswordStrength.StrengthMonotone | src/pages/Signup.js:31-39 | typing more characters never lowers the score |
| PasswordStrength.StrengthExamples | src/pages/Signup.js:31-39 | `abc` scores 1 and `Abcdef1!` scores 5 |
| PasswordStrength.StrengthText | src/pages/Signup.js:41-57 | the label is empty exactly outside 0..5 (and then so is the colour); it is "Very Weak" exactly for 0 and 1, "Weak" exactly for 2, "Fair" exactly for 3, "Good" exactly for 4 and "Strong" exactly for 5 |
| PasswordStrength.EveryScoreHasALabel | src/pages/Signup.js:41-57 | every reachable score has a non-empty label, and scores 1 to 5 have pairwise different labels |
| Signup.Initial | src/pages/Signup.js:5-16 | definition of the blank form; its properties are in `InitialIsInvalid` and the constructor |
| Signup.IsCheckbox | src/pages/Signup.js:420 | definition: the terms and newsletter fields are the page's two checkbox inputs (lines 420 and 442); used by `SetField` |
| Signup.SetField | src/pages/Signup.js:61-64 | a checkbox field takes `checked` and any other field takes the input's value; every other field is unchanged |
| Signup.FieldError | src/pages/Signup.js:83-114 | definition of each field's check and its message; its meaning is in `FieldErrorMeansBroken`, `EmailRequiredBeforeFormat` and `RequiredBeforeFormat` |
| Signup.MessageText | src/pages/Signup.js:83-113 | every validation message is a non-empty (truthy) string |
| Signup.ExpectedErrorsKeys | src/pages/Signup.js:116-117 | a field is a key of the error map exactly when its check fails |
| Signup.ExpectedErrorsUnique | src/pages/Signup.js:80-118 | any map whose keys are the failing fields, each holding its check's message, is the error map |
| Signup.FieldErrorMeansBroken | src/pages/Signup.js:83-114 | per field: names and phone fail exactly when blank; email when blank or not address-shaped; password when shorter than 8; confirmation when empty or different; user type when unset; terms when unticked; organization and newsletter never |
| Signup.ValidIffNoErrors | src/pages/Signup.js:116-117 | the error map is empty exactly when the form satisfies the independent validity predicate |
| Signup.EmailRequiredBeforeFormat | src/pages/Signup.js:86-90 | a blank email gets "required" and never "invalid"; a non-blank email gets "invalid" exactly when it is not address-shaped |
| Signup.RequiredBeforeFormat | src/pages/Signup.js:92-102 | an empty password gets "Password is required" and a non-empty one shorter than 8 the length message; an empty confirmation gets "Please confirm your password" and a non-empty one that differs from the password "Passwords do not match" |
| Signup.MismatchedConfirmation | src/pages/Signup.js:98-102 | example: password `Abc12345` with confirmation `Abc12346` passes the password check, gets "Passwords do not match", and makes the form invalid; the general rule is in `FieldErrorMeansBroken` |
| Signup.OptionalFieldsNeverBlock | src/pages/Signup.js:13-15 | editing organization or the newsletter box changes no check and no verdict |
| Signup.InitialIsInvalid | src/pages/Signup.js:5-16 | the blank form is invalid (the terms box starts unticked) and its password scores 0 |
| Signup.RequestBody | src/pages/Signup.js:131-139 | definition of the sign-up request body; its meaning is in `RequestBodyCarriesExactly` |
| Signup.RequestBodyCarriesExactly | src/pages/Signup.js:131-139 | two forms give the same sign-up request exactly when they agree on the seven sent fields; confirmation, terms and newsletter are not sent |
| Signup.RunChecksAt | src/pages/Signup.js:83-114 | running the eight checks in the page's order records, for each field, exactly its own check's message |
| Signup.CheckOrderIrrelevant | src/pages/Signup.js:80-118 | the map built check by check in the page's order equals the per-field error map |
| Signup.CheckField | src/pages/Signup.js:83-114 | one `if` block of `validateForm`: the field's message is added when its check fails, nothing otherwise |
| Signup.SignupPage.Valid | src/pages/Signup.js:67-69 | the meter invariant: the stored score is the score of the current password, set up at line 22 and kept by `HandleInputChange` |
| Signup.SignupPage.constructor | src/pages/Signup.js:5-22 | blank form, no errors, not submitting, meter at 0 (consistent with the empty password) |
| Signup.SignupPage.HandleInputChange | src/pages/Signup.js:59-78 | the form takes the edit, the meter is re-scored exactly when the password changed, and the field's error is blanked |
| Signup.SignupPage.ValidateForm | src/pages/Signup.js:80-118 | earlier errors are replaced by exactly the per-field error map, and the result is true exactly when the form is valid; the meter invariant is kept |
| Signup.SignupPage.HandleSubmit | src/pages/Signup.js:120-150 | a request is sent exactly when the form is valid, and it carries the projected body; the busy flag ends lowered after a send; the meter invariant is kept |
| RequestBooks.Initial | src/pages/RequestBooks.js:4-22 | definition of the blank request, also restored by the reset at lines 135-153; its values are in `InitialValues` |
| RequestBooks.InitialValues | src/pages/RequestBooks.js:4-22 | the blank request has empty strings, no genres and 5 books |
| RequestBooks.RemoveAll | src/pages/RequestBooks.js:68 | the filtered list has no copy of the genre, is no longer than the original and holds only its elements |
| RequestBooks.RemoveAllAppend | src/pages/RequestBooks.js:68 | filtering a concatenation filters each part |
| RequestBooks.RemoveAllSingle | src/pages/RequestBooks.js:68 | filtering a one-element list drops it exactly when it is the genre |
| RequestBooks.RemoveAllCounts | src/pages/RequestBooks.js:68 | filtering removes every copy of the genre and keeps the count of every other genre |
| RequestBooks.RemoveAllAbsent | src/pages/RequestBooks.js:68 | filtering out an absent genre leaves the list unchanged |
| RequestBooks.ToggleGenre | src/pages/RequestBooks.js:63-69 | ticking appends the genre at the end and keeps the rest; unticking removes every copy and keeps every other genre's count |
| RequestBooks.TickKeepsDuplicates | src/pages/RequestBooks.js:67 | ticking adds one more copy even when the genre is already listed |
| RequestBooks.UntickUndoesTick | src/pages/RequestBooks.js:63-69 | ticking an unlisted genre and unticking it restores the list |
| RequestBooks.UntickIdempotent | src/pages/RequestBooks.js:68 | unticking twice is unticking once |
| RequestBooks.SetText | src/pages/RequestBooks.js:70-75 | the named input takes the typed string and every other field is unchanged |
| RequestBooks.Change | src/pages/RequestBooks.js:60-75 | the two kinds of change event: a named input with its value, or a genre box (lines 302-306) with its genre and tick state |
| RequestBooks.Possible | src/pages/RequestBooks.js:302-306 | definition: a named input never targets the genre list, which only the unnamed genre boxes change |
| RequestBooks.Apply | src/pages/RequestBooks.js:60-76 | a genre box changes only the genre list; a named input leaves the genre list alone |
| RequestBooks.FieldError | src/pages/RequestBooks.js:89-103 | definition of each field's check and its message; its meaning is in `FieldErrorMeansBroken` and `EmailRequiredBeforeFormat` |
| RequestBooks.MessageText | src/pages/RequestBooks.js:89-103 | every validation message is a non-empty string |
| RequestBooks.ExpectedErrorsKeys | src/pages/RequestBooks.js:105-106 | a field is a key of the error map exactly when its check fails |
| RequestBooks.ExpectedErrorsUnique | src/pages/RequestBooks.js:86-107 | any map whose keys are the failing fields, each holding its check's message, is the error map |
| RequestBooks.TrimmedFieldErrors | src/pages/RequestBooks.js:89-103 | each of the seven trimmed fields fails exactly when blank |
| RequestBooks.FieldErrorMeansBroken | src/pages/RequestBooks.js:89-103 | per field: trimmed fields fail when blank; age and reading level only when empty; email when blank or not address-shaped; genres when none is ticked; the six fields without a check never fail |
| RequestBooks.ValidIffNoErrors | src/pages/RequestBooks.js:105-106 | the error map is empty exactly when the request satisfies the independent validity predicate |
| RequestBooks.EmailRequiredBeforeFormat | src/pages/RequestBooks.js:92-96 | a blank email gets "required" and never "invalid"; a non-blank email gets "invalid" exactly when it is not address-shaped |
| RequestBooks.AgeNotTrimmed | src/pages/RequestBooks.js:90 | the age is not trimmed: a single space passes its check |
| RequestBooks.OptionalFieldsIrrelevant | src/pages/RequestBooks.js:12-21 | editing interests, number of books, school, teacher, special requests or urgency changes no check and no verdict |
| RequestBooks.InitialIsInvalid | src/pages/RequestBooks.js:4-22 | the blank request is invalid and asks for at least one genre |
| RequestBooks.RunChecksAt | src/pages/RequestBooks.js:89-103 | running the eleven checks in the page's order records, for each field, exactly its own check's message |
| RequestBooks.CheckOrderIrrelevant | src/pages/RequestBooks.js:86-107 | the map built check by check in the page's order equals the per-field error map |
| RequestBooks.CheckField | src/pages/RequestBooks.js:89-103 | one `if` of `validateForm`: the field's message is added when its check fails, nothing otherwise |
| RequestBooks.RequestPage.constructor | src/pages/RequestBooks.js:4-26 | blank request, no errors, neither submitting nor submitted, no reset pending |
| RequestBooks.RequestPage.HandleInputChange | src/pages/RequestBooks.js:60-84 | the form takes the change; a named input's error is blanked, and a genre box (which has no name) leaves the errors alone |
| RequestBooks.RequestPage.ValidateForm | src/pages/RequestBooks.js:86-107 | earlier errors are replaced by exactly the per-field error map; the result is true exactly when the request is valid |
| RequestBooks.RequestPage.HandleSubmit | src/pages/RequestBooks.js:109-156 | the whole form is sent exactly when valid; after a send the busy flag is lowered, "submitted" is raised only if the server accepted, and one reset is scheduled whatever the server answered |
| RequestBooks.RequestPage.RunScheduledReset | src/pages/RequestBooks.js:134-155 | a scheduled reset restores the blank request and lowers "submitted" |
| DonateBooks.Initial | src/pages/DonateBooks.js:4-20 | definition of the blank donation, also restored by the reset at lines 111-127; its values are in `InitialValues` |
| DonateBooks.InitialValues | src/pages/DonateBooks.js:4-20 | the blank donation has empty strings and quantity 1 |
| DonateBooks.SetText | src/pages/DonateBooks.js:48-51 | the named input takes the typed string and every other field is unchanged |
| DonateBooks.FieldError | src/pages/DonateBooks.js:65-79 | definition of each field's check and its message; its meaning is in `FieldErrorMeansBroken` and `EmailRequiredBeforeFormat` |
| DonateBooks.MessageText | src/pages/DonateBooks.js:65-79 | every validation message is a non-empty string |
| DonateBooks.ExpectedErrorsKeys | src/pages/DonateBooks.js:81-82 | a field is a key of the error map exactly when its check fails |
| DonateBooks.ExpectedErrorsUnique | src/pages/DonateBooks.js:62-83 | any map whose keys are the failing fields, each holding its check's message, is the error map |
| DonateBooks.TrimmedFieldErrors | src/pages/DonateBooks.js:65-79 | each trimmed field fails exactly when blank |
| DonateBooks.FieldErrorMeansBroken | src/pages/DonateBooks.js:65-79 | per field: trimmed fields fail when blank; genre and condition only when empty; email when blank or not address-shaped; the four fields without a check never fail |
| DonateBooks.ValidIffNoErrors | src/pages/DonateBooks.js:81-82 | the error map is empty exactly when the donation satisfies the independent validity predicate |
| DonateBooks.EmailRequiredBeforeFormat | src/pages/DonateBooks.js:66-70 | a blank email gets "required" and never "invalid"; a non-blank email gets "invalid" exactly when it is not address-shaped |
| DonateBooks.EmptyNameBlocks | src/pages/DonateBooks.js:65 | an empty donor name records "Name is required" and makes the donation invalid |
| DonateBooks.OptionalFieldsIrrelevant | src/pages/DonateBooks.js:12-19 | editing quantity, description, pickup time or notes changes no check and no verdict |
| DonateBooks.InitialIsInvalid | src/pages/DonateBooks.js:4-20 | the blank donation is invalid and asks for a book title |
| DonateBooks.RunChecksAt | src/pages/DonateBooks.js:65-79 | running the eleven checks in the page's order records, for each field, exactly its own check's message |
| DonateBooks.CheckOrderIrrelevant | src/pages/DonateBooks.js:62-83 | the map built check by check in the page's order equals the per-field error map |
| DonateBooks.CheckField | src/pages/DonateBooks.js:65-79 | one `if` of `validateForm`: the field's message is added when its check fails, nothing otherwise |
| DonateBooks.DonatePage.constructor | src/pages/DonateBooks.js:4-24 | blank donation, no errors, neither submitting nor submitted, no reset pending |
| DonateBooks.DonatePage.HandleInputChange | src/pages/DonateBooks.js:46-60 | the form takes the typed value and that field's error is blanked |
| DonateBooks.DonatePage.ValidateForm | src/pages/DonateBooks.js:62-83 | earlier errors are replaced by exactly the per-field error map; the result is true exactly when the donation is valid |
| DonateBooks.DonatePage.HandleSubmit | src/pages/DonateBooks.js:85-130 | the whole form is sent exactly when valid; after a send the busy flag is lowered, "submitted" is raised only if the server accepted, and one reset is scheduled whatever the server answered |
| DonateBooks.DonatePage.RunScheduledReset | src/pages/DonateBooks.js:110-129 | a scheduled reset restores the blank donation and lowers "submitted" |

## Left out

- Network and browser effects are not modelled:
  - The `fetch` call, JSON encoding and `alert` messages are left out. A send is the method's returned value. The server's verdict is the `serverAccepts` parameter, whose error message is not modelled.
  - The reset timer is left out. A scheduled reset is a counter of pending resets plus `RunScheduledReset`. An edit made while a reset is pending is wiped by that reset, as in the page. The three-second delay itself is not modelled.
  - Sign-up has no server parameter. Its outcome only chooses an alert, which is not modelled.
- React's asynchronous state updates are not modelled. Each handler is atomic, and the `prev =>` updater and the closed-over `errors` read the same state.
- Presentation is not modelled: the show/hide password toggles, option lists, colours and markup. `PasswordStrength.StrengthText` returns the exact colour classes, but its contract says only whether the colour is empty.
- The other pages and the app shell (home, about, routing, particle background) are not part of this model.
- String lengths count characters, while JavaScript counts UTF-16 code units. The password length test differs for characters outside the Basic Multilingual Plane.
- The regular-expression engine is not modelled. `EmailPattern.EmailShaped` states by hand what `\S+@\S+\.\S+` matches. That includes the dot the pattern requires after the `@`, so `ann@example` is refused.
- RequestBooks.SetText: requires that the target is not the genre list. No named input on the page writes that field, because genre boxes go through `ToggleGenre`.
- RequestBooks.RequestPage.HandleInputChange: the genre boxes have no `name`, so ticking one never clears the "select at least one genre" message. The model keeps this behaviour of the code.
- The browser's clean-up of input values is not modelled. A `type="email"` input strips surrounding whitespace, and a `type="number"` input gives "" or a numeral. The handlers accept any string, so `EmailPattern.EmailAccepted` and `RequestBooks.AgeNotTrimmed` describe values `validateForm` is given, some of which a user cannot type.
- Numeric inputs hold a number initially and the typed string after an edit. The model keeps this as two `Value` shapes, and no check reads those fields.
- Signup.SignupPage.HandleSubmit: does not model the server's reply. The model returns the request body, and the alert that follows a reply is left out.
