# IP whitelist console: form validation and list paging, modelled in Dafny

This project models the two pieces of real logic in the administrative console's pages.

- **Login form field validation** (`src/pages/Authentication/Login.js`). The form keeps a record from field name to field state: value, validity, helper text, touched mark, label, and a `pattern` or `minLength`. On each keystroke:
  - `handleInput` writes the value and the touched mark into the field in place;
  - `formValidation` recomputes validity and helper text by the rule for that field name;
  - the reducer merges the field back into the record;
  - an effect recomputes whether the submit button is disabled.

  The e-mail rule is the anchored regular expression `^\w+([\.-]?\w+)*@\w+([\.-]?\w+)*(\.\w{2,3})+$`. It is written twice: once structurally, one ghost predicate per sub-expression, and once as a hand-written recognizer. The two are proved to accept the same strings.
- **List query and pagination controller** (`src/pages/Dashboard/index.js`, `src/pages/AuditLog.js`). Each page keeps these state cells: `params` (`orderBy`, `sortBy`, `pageOffset`, `page`), `dataList`, `paginationInfo`, and the last navigation target. The audit-log page also keeps `isLoading` and `isSetData`.
  - A pagination click replaces the page number.
  - A settled request is an input `Outcome`. On success the items and the renamed page metadata are stored and the page navigates to `'?' + setHttpParams(params)`. On failure nothing changes on the dashboard. On the audit-log page a failure produces a toast message with a fallback.

Module layout:

- `JsValues`: the JavaScript values the pages pass around.
- `EmailPattern`: the regular expression and its recognizer.
- `Login`: field state, the reducer, one keystroke as a function, and the `LoginForm` class.
- `ListQuery`: request parameters, page metadata, fetch outcome, and the record copies both list pages make.
- `Dashboard`: the `DashboardPage` class.
- `AuditLog`: query-string defaults, the error message, and the `AuditLogPage` class.

Behaviour of the code that a reader may not expect:

- A failed request keeps the previous list and pagination information. The code clears nothing on failure.
- An identifier that is not a field of the form makes `handleInput` throw at `Login.js:64`, because `formInput[id]` is `undefined`. The model treats this as a failure that changes nothing. The switch's default branch can only be reached for a record with other keys, or for an identifier naming an inherited object property (see "## Left out"). The pure `Login.Edit` states what happens then: the value and touched mark are stored and the field is merged without validation.
- The navigation target drops `location.pathname`. The conditional operator takes the whole `pathname + urlParams` as its condition.
- The audit-log parameters read from the query string are strings, and the defaults are the numbers `10` and `1`. A parameter present with an empty value is kept as the empty string.
- The default page size is `2` on the dashboard and `10` on the audit log.

## Model

| member | source | states |
|---|---|---|
| `EmailPattern.IsEmailIffMatchesRegex` | src/pages/Authentication/Login.js:18 | the hand-written recognizer accepts a string exactly when the anchored e-mail expression matches all of it |
| `EmailPattern.RegexMatchIsEmail` | src/pages/Authentication/Login.js:18 | every string the expression matches is accepted by the recognizer |
| `EmailPattern.EmailMatchesRegex` | src/pages/Authentication/Login.js:18 | every string the recognizer accepts is matched by the expression |
| `EmailPattern.DottedIffSegmented` | src/pages/Authentication/Login.js:18 | `\w+([\.-]?\w+)*` matches exactly the non-empty runs of word characters and separators that start and end with a word character and have no two separators in a row |
| `EmailPattern.AppendGroups` | src/pages/Authentication/Login.js:18 | appending any number of `[\.-]?\w+` groups to such a run keeps that shape |
| `EmailPattern.TailIsGroups` | src/pages/Authentication/Login.js:18 | every tail of such a run that follows a word character splits into `[\.-]?\w+` groups |
| `EmailPattern.SegmentedThenTopLevels` | src/pages/Authentication/Login.js:18 | a run of that shape followed by `(\.\w{2,3})+` ends in `.` and two or three word characters after a run of that shape |
| `EmailPattern.DomainSplits` | src/pages/Authentication/Login.js:18 | a domain accepted by the recognizer splits into a `\w+([\.-]?\w+)*` part and a `(\.\w{2,3})+` part |
| `EmailPattern.AcceptsShortAddress` | src/pages/Authentication/Login.js:18 | `"a@b.co"` is accepted and matched |
| `EmailPattern.RejectsAddressWithoutAt` | src/pages/Authentication/Login.js:18 | `"bad-email"` is rejected and not matched |
| `EmailPattern.IsEmail` | src/pages/Authentication/Login.js:44 | a string the e-mail rule accepts holds exactly one `@`, so its split into local part and domain is unique |
| `EmailPattern.MatchesEmailRegex` | src/pages/Authentication/Login.js:18 | any string the expression matches has at least six characters and does not start with `@` |
| `Login.Merge` | src/pages/Authentication/Login.js:14 | the reducer keeps every key of both records and takes the new record's value where both have one |
| `Login.InitialForm` | src/pages/Authentication/Login.js:15-32 | the record starts with exactly the `email` and `password` fields, each with value `""`, neither valid nor touched, with helper text `""` and no error shown; it is well formed |
| `Login.Touch` | src/pages/Authentication/Login.js:63-65 | the field holds the new value and is marked touched; validity, helper text, label, pattern and minLength are kept |
| `Login.Validate` | src/pages/Authentication/Login.js:42-53 | for `email` and `password` the helper text is empty exactly when the field is valid and is the field's message otherwise; the e-mail field is valid exactly when its value matches the expression, the password field exactly when it has at least 6 characters; any other identifier leaves the field unchanged; value, touched mark, label and rule are kept |
| `Login.Edit` | src/pages/Authentication/Login.js:41-67 | a keystroke in a field of the record stores the value and the touched mark, keeps label, pattern and minLength, keeps the key set and every other field; an identifier that is not a field fails with nothing changed |
| `Login.EmailValidity` | src/pages/Authentication/Login.js:43-46 | the e-mail field is valid exactly when its whole value matches the expression; its helper text is `""` when valid and `'Invalid email address'` otherwise |
| `Login.PasswordValidity` | src/pages/Authentication/Login.js:47-50 | the password field is valid exactly when its value has at least 6 characters; its helper text is `""` when valid and `'Password is required (min. length is 6)'` otherwise |
| `Login.HelperTextIffInvalid` | src/pages/Authentication/Login.js:43-50 | after validating the e-mail or password field, its helper text is empty exactly when it is valid, and otherwise is that field's message |
| `Login.OtherFieldIsNotValidated` | src/pages/Authentication/Login.js:51-58 | a field with another name gets the value and the touched mark and is merged back, with its validity and helper text unchanged |
| `Login.EditKeepsWellFormed` | src/pages/Authentication/Login.js:41-67 | a keystroke keeps the form's invariant: the two fields with their rule parameters and labels, the validity of a touched field equal to its rule, and a helper text present exactly when the field shows an error |
| `Login.ErrorShownIffHelperText` | src/pages/Authentication/Login.js:78-87 | in a well-formed form the inline error (`touched && !isValid`) shows exactly when the field has a helper text, and that text is the field's message |
| `Login.EmailExamples` | src/pages/Authentication/Login.js:43-46 | `"a@b.co"` is a valid e-mail with empty helper text; `"bad-email"` is invalid with `'Invalid email address'` |
| `Login.PasswordExamples` | src/pages/Authentication/Login.js:47-50 | `"12345"` is an invalid password with `'Password is required (min. length is 6)'`; `"123456"` is valid with empty helper text |
| `Login.LoginForm.constructor` | src/pages/Authentication/Login.js:10-33 | the form starts with the initial record, which is well formed, and with the submit button disabled |
| `Login.LoginForm.DisableButtonEffect` | src/pages/Authentication/Login.js:37-39 | the button's disabled state is recomputed by `checkDisableButton` from the whole record |
| `Login.LoginForm.FormValidation` | src/pages/Authentication/Login.js:41-59 | the edited field's validity and helper text are recomputed in place and the field is merged back into the record, then the button state is recomputed |
| `Login.Mount` | src/pages/Authentication/Login.js:10-39 | after the first render the form holds the initial record, is well formed, and the effect has set the button's disabled state to `checkDisableButton` of that record |
| `Login.LoginForm.HandleInput` | src/pages/Authentication/Login.js:62-67 | the record after the keystroke is the one `Edit` gives, the form stays well formed and the button state is recomputed; an unknown identifier changes nothing |
| `ListQuery.InitialPaginationInfo` | src/pages/Dashboard/index.js:26-34 | both pages start with `""` in each of the six server fields and a `pageLimit` of 3 (the same record at src/pages/AuditLog.js:34-42) |
| `ListQuery.ApplyMeta` | src/pages/Dashboard/index.js:57-65 | the new pagination record holds the server's `from`, `to`, `total`, `current_page`, `per_page` and `last_page` under camelCase names, so reading them back gives the metadata unchanged, and `pageLimit` is kept |
| `ListQuery.ApplyMetaLastWins` | src/pages/Dashboard/index.js:57-65 | after two responses only the later response's metadata is visible |
| `ListQuery.WithPage` | src/pages/Dashboard/index.js:80-85 | a pagination click sets `page` and keeps `orderBy`, `sortBy` and `pageOffset` |
| `ListQuery.WithSamePage` | src/pages/Dashboard/index.js:80-85 | clicking the page already shown gives equal parameters |
| `ListQuery.WithPageLastWins` | src/pages/Dashboard/index.js:80-85 | of two clicks in a row only the second matters |
| `ListQuery.NavigationTarget` | src/pages/Dashboard/index.js:40-43 | whenever `pathname + urlParams` is non-empty the target is `'?' + urlParams`, so a non-empty pathname never appears in it; the target is `''` exactly when the pathname and `urlParams` are both empty |
| `ListQuery.NavigationTargetIgnoresPathname` | src/pages/Dashboard/index.js:40-43 | two non-empty pathnames give the same target for the same parameters |
| `Dashboard.InitialParams` | src/pages/Dashboard/index.js:15-20 | the dashboard starts sorted by `id` in descending order, two items per page, on page 1 |
| `Dashboard.DashboardPage.constructor` | src/pages/Dashboard/index.js:15-34 | params start as `{orderBy:'DESC', sortBy:'id', pageOffset:2, page:1}` whatever the URL; the list is empty; the pagination record holds empty-string placeholders and `pageLimit` 3; nothing has been navigated |
| `Dashboard.DashboardPage.ChangeUrl` | src/pages/Dashboard/index.js:40-43 | the page navigates to the target built from `setHttpParams(params)`, which is `'?' + setHttpParams(params)` when the pathname is non-empty |
| `Dashboard.DashboardPage.GetDataList` | src/pages/Dashboard/index.js:51-74 | success stores `response.data`, the renamed metadata with `pageLimit` kept, and navigates; failure changes neither list, pagination record nor URL; the params keep their fixed sort and size |
| `Dashboard.DashboardPage.PaginationCallback` | src/pages/Dashboard/index.js:80-85 | only the page number changes |
| `Dashboard.Mount` | src/pages/Dashboard/index.js:15-49 | after mounting and the first request, success shows the response and navigates for the initial params, and failure leaves the placeholders and no navigation |
| `AuditLog.Get` | src/pages/AuditLog.js:19-25 | `get` returns a string when some pair has the name and `null` exactly when none has |
| `AuditLog.GetIsFirstMatch` | src/pages/AuditLog.js:19-25 | the string returned is the value of the first pair with that name |
| `AuditLog.InitialParams` | src/pages/AuditLog.js:21-26 | each of `orderBy`, `sortBy`, `pageOffset`, `page` is the query-string value when the name is present, even as `""`, and otherwise `'DESC'`, `'id'`, `10`, `1` |
| `AuditLog.EmptyQueryGivesDefaults` | src/pages/AuditLog.js:21-26 | an empty query string gives exactly the defaults |
| `AuditLog.EmptyPageIsKept` | src/pages/AuditLog.js:25 | `?page=` gives the page `""`, not the default |
| `AuditLog.ServerError` | src/pages/AuditLog.js:81 | `error?.response?.data?.error` is undefined when the error, its response or the response's data is missing, and is the `error` field whenever the chain is complete |
| `AuditLog.ErrorMessage` | src/pages/AuditLog.js:81 | stated on the error chain itself: the toast shows `error.response.data.error` whenever the chain is complete and that field is neither null nor undefined, and the fallback `SOMETHING_WENT_WRONG` exactly when a link is missing or the field is null or undefined |
| `AuditLog.ErrorMessageExamples` | src/pages/AuditLog.js:79-83 | a body `{error:"Server unavailable"}` shows that text; a missing `error` field or a missing response shows the fallback |
| `AuditLog.AuditLogPage.constructor` | src/pages/AuditLog.js:19-42 | params come from the query string; `isLoading` starts true and `isSetData` false; the list is empty and the pagination record holds placeholders and `pageLimit` 3 |
| `AuditLog.AuditLogPage.ChangeUrl` | src/pages/AuditLog.js:48-51 | the page navigates to the target built from `setHttpParams(params)`, which is `'?' + setHttpParams(params)` when the pathname is non-empty |
| `AuditLog.AuditLogPage.StartLoading` | src/pages/AuditLog.js:60 | `getDataList` first sets `isLoading` |
| `AuditLog.AuditLogPage.Settle` | src/pages/AuditLog.js:61-83 | both paths clear `isLoading`; success stores the data and renamed metadata, sets `isSetData` and navigates; failure yields the toast message and changes neither list, pagination record, `isSetData` nor URL; `isSetData` is never reset |
| `AuditLog.AuditLogPage.GetDataList` | src/pages/AuditLog.js:59-84 | the whole request cycle: loading on, then the settled outcome as in `Settle`, ending with `isLoading` false |
| `AuditLog.AuditLogPage.PaginationCallback` | src/pages/AuditLog.js:90-95 | only the page number changes |
| `AuditLog.AuditLogPage.LoaderCallback` | src/pages/AuditLog.js:98-100 | `isLoading` takes the given value and nothing else changes |
| `AuditLog.Mount` | src/pages/AuditLog.js:19-57 | after mounting and the first request, the params are those of the query string and loading is off; success shows the response, sets `isSetData` and navigates; failure gives the toast and leaves the placeholders |

## Left out

- `checkDisableButton` and `setHttpParams` (src/utility/utils) are not part of this model. They are functions passed to the page constructors. No property of the URL encoding is claimed, including any round trip through the query string.
- The text of `SOMETHING_WENT_WRONG` (src/config/constants) is not part of this model. The fallback is the symbolic message `SomethingWentWrong`.
- `getAllIp` and the HTTP layer are outside the model. The settled result of a request is an input `Outcome`, and a successful body always has `data` and `meta`. A body without `meta` is not modelled. Its success handler first runs `setDataList(response.data)` (src/pages/Dashboard/index.js:55, src/pages/AuditLog.js:64) and then throws reading `response.meta.from`, taking the failure path with the new list already stored. On the audit-log page that leaves `isSetData` false beside a non-empty list, a state `AuditLogPage.Valid()` excludes.
- The effect on `params` that re-runs `getDataList` after every change is not enforced by the model. A click is modelled as `PaginationCallback` followed by `GetDataList` with the new request's outcome. Clicking the same page still fetches again, because `setParams` gives a new object.
- Asynchrony is not modelled: responses arriving out of order, and handlers that read `params` or `paginationInfo` from the render that started the request. Each request settles before the next event.
- Parsing `location.search` with `URLSearchParams` (splitting and percent-decoding) is not modelled. The query is the list of decoded name/value pairs.
- Identifiers that name inherited object properties (such as `"constructor"` or `"toString"`) are treated like any other identifier that is not a field of the form. In the code `formInput[id]` is then a function, lines 64-65 of `Login.js` write to it without throwing, the switch's default branch runs, and the function is merged into the record under that name.
- Matching time is not modelled: the e-mail rule is described by which strings it accepts. A backtracking engine can take exponential time on the nested `([\.-]?\w+)*`, for example on 30 `a` characters followed by `!` (not executed).
- Rendering is left out: the JSX, the react-bootstrap markup, the layouts, `Datatable`, `PaginationComponent`, `LoaderComponent` and the toast container. So are the commented-out render blocks of the audit-log page, `console.log`, logout, and the dashboard's add-IP form, which has no handlers.
- Login submission is left out: `Login.js` has no submit handler, so there is no payload to model.
- JavaScript numbers are modelled as integers. Server values are passed through unchanged, so nothing depends on this.
- String length is counted in characters, not in UTF-16 code units. A password with characters outside the Basic Multilingual Plane is shorter here than in the browser.
