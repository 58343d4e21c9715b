# SubsManager input handling, modelled in Dafny

SubsManager is a React Native client for tracking paid subscriptions. Its
screens are mostly layout, HTTP calls and navigation. This project models the
deterministic input handling those screens contain, and proves what that
handling promises:

- **Registration form** (`Register`, `Phone`, `Email`): the phone formatter
  (digits only, at most ten, grouped 3-3-4 with dashes), the e-mail pattern
  and its three-state flag (valid / invalid / nothing typed), the reset after
  a successful registration, and the ordered checks in front of the request.
- **Login form** (`Login`): the same e-mail flag, the ordered checks, and the
  mapping of a refused login to its message.
- **E-mail verification** (`Verify`): the six-cell code and a one-cell update
  of it, the focus moves between cells, the saturating countdown and its
  `m:ss` text, the re-send guard, and the length check on the code.
- **Settings** (`Settings`): edit mode over the loaded profile, the password
  checks, the merge of a saved copy, and the password error line.
- **Subscription dates** (`Dates`, `EditSubscription`, `SubscriptionCreate`):
  a picked date written as `Y-MM-DD`, a `Y-M-D` text shown as `D/M/Y`, the
  pickers' handlers, the creation form the screen starts from, every edit on
  it, and the payload it sends.
- **Catalogue search** (`StaticSubs`): the case-insensitive search and the
  single expanded platform.
- **Home** (`Home`): the greeting for the hour, the first name, and when the
  empty-plans prompt shows.
- **Statistics** (`Statistics`): the trend icon and word for a change, the
  default of 0, error classification, and how a fetch settles the screen.

Screens whose state the source updates field by field are classes with
`modifies` frames: the registration and login forms and the settings screen.
The one in-place array write is also modelled this way, in
`Verify.HandleCodeChange`. The other screens are functions that return the
new record. `Text` models the JavaScript string primitives the screens rely
on: `replace(/\D/g, '')`, `slice`, `split`, `join`, `padStart`, `String(n)`,
`includes` and `toLowerCase`. `Email` models the regular expression.

Anything that comes from outside the screen is a parameter. This covers the
backend's answer (a `Reply` datatype per screen), whether a token is stored
(`hasToken`), the clock's hour, today's date, and a picked date.

## Model

| member | source | states |
|---|---|---|
| Phone.KeptDigits | app/register.tsx:26-27 | The digits kept are at most ten, and all are ASCII digits. |
| Phone.GroupsAlwaysMatch | app/register.tsx:28-29 | The three-group pattern always matches the kept digits, so the `!match` branch returning '' is unreachable. |
| Phone.NonEmpty | app/register.tsx:31 | `filter(Boolean)` leaves no empty group. |
| Phone.FormatIsLayout | app/register.tsx:25-34 | The formatted number is the kept digits laid out 3, dash, 3, dash, rest; empty groups leave no dash. |
| Phone.FormatShape | app/register.tsx:25-34 | The formatted number holds only digits and dashes and is at most 12 characters, the field's maxLength. Dashes sit only at 3 and 7. There is a dash at 3 exactly when more than 3 digits are kept, and at 7 exactly when more than 6. There is no leading, trailing or doubled dash. |
| Phone.StripDashesOfFormat | app/register.tsx:93 | Removing the dashes from the formatted number gives back the first min(10, number of digits) digits of the input, in order; so does keeping its digits. |
| Phone.FormatIdempotent | app/register.tsx:25-34 | Formatting an already formatted number changes nothing. |
| Phone.FormatEmpty | app/register.tsx:25-34 | The empty text formats to the empty text. |
| Email.ValidateEmailSound | app/register.tsx:46-49 | A text the check accepts matches `^[^\s@]+@[^\s@]+\.[^\s@]+$`. |
| Email.ValidateEmailComplete | app/register.tsx:46-49 | A text matching the pattern is accepted. |
| Email.ValidateEmailMatchesPattern | app/register.tsx:46-49 | Accepted exactly when the text matches the pattern. The check is: no whitespace, exactly one '@', something before it, and after it a '.' with text on both sides. The login screen's copy at app/login.tsx:26-29 is the same check. |
| Email.EmailFlag | app/register.tsx:51-58 | The flag is null exactly for the empty text. It is "valid" exactly for a non-empty text matching the pattern. |
| Register.FailureText | app/register.tsx:116 | The backend's non-empty message is shown; otherwise the fallback. The toast is never empty. |
| Register.RegisterCheck | app/register.tsx:70-86 | 'fill all fields' exactly when a field is empty or the terms are unticked. 'enter a valid e-mail' exactly when all are filled and the flag is not "valid". No refusal exactly when all are filled and the flag is "valid". |
| Register.SentEmailMatchesPattern | app/register.tsx:51-86 | With the flag the handler keeps, a request goes out exactly when every field is filled, the terms are ticked and the e-mail matches the pattern. |
| Register.RegisterForm.constructor | app/register.tsx:14-22 | Every field starts empty, the terms unticked, the flag null. The phone field is empty, which is what the formatter makes of an empty text (`Phone.FormatEmpty`). |
| Register.RegisterForm.HandleEmailChange | app/register.tsx:51-58 | Stores the text and the flag for it. |
| Register.RegisterForm.HandlePhoneChange | app/register.tsx:36-39 | Stores the formatted text, so the field always holds a formatter output. |
| Register.RegisterForm.ResetForm | app/register.tsx:60-67 | Empties name, e-mail, phone, password and gender and unticks the terms. The e-mail flag is not touched. |
| Register.RegisterForm.HandleRegister | app/register.tsx:69-121 | A refused submit changes nothing and sends nothing. A sent request carries the phone without dashes, which is 1 to 10 digits, and an e-mail that matches the pattern. An accepted request resets the form and shows 'Kayıt işleminiz tamamlandı!'. A refused request shows the backend's message or the fallback and leaves the form as it was. |
| Login.LoginCheck | app/login.tsx:41-57 | An empty e-mail or password is refused before the flag is looked at. A flag that is false or null is refused next. Otherwise nothing is refused. |
| Login.LoginErrorMessage | app/login.tsx:77-88 | 'Bad credentials' maps to 'E-posta adresi veya şifre hatalı.' and every other failure to 'Giriş yapılamadı.', both ways. |
| Login.SentEmailMatchesPattern | app/login.tsx:31-57 | With the flag the handler keeps, a request goes out exactly when both fields are filled and the e-mail matches the pattern. |
| Login.LoginForm.constructor | app/login.tsx:20-24 | Empty fields and a null flag, with the flag consistent with the e-mail. |
| Login.LoginForm.HandleEmailChange | app/login.tsx:31-38 | Stores the text and the flag for it. |
| Login.LoginForm.SetPassword | app/login.tsx:128 | Stores the password text. |
| Login.LoginForm.HandleLogin | app/login.tsx:40-92 | A refused submit returns the refusal's toast. A sent request carries an e-mail matching the pattern and yields the token with 'Giriş yapıldı!' or the mapped message. The form is not changed. |
| Verify.InitialCode | app/verify.tsx:12 | Six cells, all empty. |
| Verify.HandleCodeChange | app/verify.tsx:50-58 | A fresh array of the same length, with cell `index` set to the text and every other cell unchanged, and the focus move for the change. |
| Verify.FocusAfterChange | app/verify.tsx:55-57 | Focus moves to index+1 exactly when the text is one character and index < 5, so never past the last cell. |
| Verify.FocusAfterKey | app/verify.tsx:60-64 | Focus moves to index-1 exactly on Backspace in an empty cell with index > 0. |
| Verify.Tick | app/verify.tsx:38-44 | The countdown never goes negative and never rises. It drops by one while positive. |
| Verify.TicksSaturate | app/verify.tsx:36-48 | n ticks from t give t-n while n < t, and 0 after. |
| Verify.CountdownLength | app/verify.tsx:14-44 | From 900, 900 ticks reach 0 and no fewer do. |
| Verify.TimerText | app/verify.tsx:144 | A running countdown shows 'Kod m:ss içinde sona erecek' with `Verify.Clock` of the remaining seconds. A countdown at or below 0 shows 'Kodun süresi doldu'. |
| Verify.ClockReadsBack | app/verify.tsx:144 | The `m:ss` text splits at its colon into a minutes numeral and two seconds digits. They read back as the whole minutes and the seconds below 60 of the countdown, so minutes * 60 + seconds is the countdown. |
| Verify.MessageOr | app/verify.tsx:85 | A non-empty backend message wins; otherwise the fallback. |
| Verify.ResendCode | app/verify.tsx:66-90 | Nothing happens while the countdown runs. A successful re-send restarts it at 900 and shows 'Yeni doğrulama kodu gönderildi.'. A failed one keeps it and shows the message or 'Kod gönderilemedi.'. |
| Verify.VerifyCode | app/verify.tsx:92-127 | Refused exactly when the joined code is not 6 characters. Otherwise the joined code is the token sent, and the result follows the backend's answer: 'E-posta adresiniz doğrulandı!' on success, the message or 'Doğrulama başarısız.' on failure. |
| Verify.ConcatLength | app/verify.tsx:93 | Joined one-character-at-most cells are as long as the number of cells exactly when none is empty. |
| Verify.CompleteIffAllFilled | app/verify.tsx:93-101 | With cells of at most one character (maxLength 1), the length check passes exactly when all six cells are filled. |
| Settings.Draft | app/settings.tsx:153-165 | The copy carries exactly the profile's six fields and no password. |
| Settings.Merge | app/settings.tsx:107-112 | The saved profile takes name, phone and gender from the copy and userId, e-mail and payment plans from the previous profile. |
| Settings.MergeDraft | app/settings.tsx:107-112 | Saving an untouched copy gives the profile back. |
| Settings.PasswordCheck | app/settings.tsx:91-99 | 'both passwords' exactly when one password is given without the other. 'at least 6' exactly when both are given and the new one is shorter than 6. No error otherwise. |
| Settings.GenderLabel | app/settings.tsx:172-174 | 'ERKEK' reads 'Erkek' and everything else 'Kadın', both ways. |
| Settings.SaveErrorText | app/settings.tsx:124-143 | A wrong old password has its own text. Otherwise the backend's non-empty `hata` is shown, or the generic text. |
| Settings.SettingsScreen.constructor | app/settings.tsx:25-31 | No profile, an empty copy, not editing, no error. |
| Settings.SettingsScreen.ProfileLoaded | app/settings.tsx:37-51 | The fetched profile is stored. |
| Settings.SettingsScreen.Edit | app/settings.tsx:153-165 | Without a profile nothing changes. Otherwise the copy is the profile's six fields and edit mode starts. |
| Settings.SettingsScreen.Cancel | app/settings.tsx:147-151 | The copy is reset to the profile, edit mode ends and the error clears. |
| Settings.SettingsScreen.ChangeFullName | app/settings.tsx:217 | Only the copy's name changes. |
| Settings.SettingsScreen.ChangePhoneNumber | app/settings.tsx:237 | Only the copy's phone changes. |
| Settings.SettingsScreen.SelectGender | app/settings.tsx:258 | Only the copy's gender changes, to one of the two button values. |
| Settings.SettingsScreen.ChangeOldPassword | app/settings.tsx:284-287 | Only the copy's old password changes, and the error clears. |
| Settings.SettingsScreen.ChangeNewPassword | app/settings.tsx:311-314 | Only the copy's new password changes, and the error clears. |
| Settings.SettingsScreen.Save | app/settings.tsx:83-145 | Without a token nothing changes. A failed password check sets that error and sends nothing. A successful save merges, keeping userId, e-mail and payment plans, leaves edit mode and clears the error. A failure sets the error only for a wrong old password. Throughout, edit mode keeps the copy's userId, e-mail and payment plans equal to the profile's. |
| Dates.FormatDateLength | app/editsubscription.tsx:48-53 | The backend text is never shorter than seven characters, so never empty. |
| Dates.Pad2Small | app/editsubscription.tsx:50-51 | A padded month or day is two digits with the same value. |
| Dates.FormatDateSplits | app/editsubscription.tsx:48-53 | The text splits at its dashes into exactly the year numeral, the padded month and the padded day. |
| Dates.FormatDateReadsBack | app/editsubscription.tsx:48-53 | The text splits at its dashes into exactly the year, a two-digit month and a two-digit day. They read back as the year, the 0-based month plus 1, and the day. The formatDate at app/subscriptioncreate.tsx:13-18 is the same template. |
| Dates.FormatDateLayout | app/editsubscription.tsx:48-53 | With a four-digit year the text is ten characters, with dashes at 4 and 7 and digits elsewhere. |
| Dates.DisplayReverses | app/editsubscription.tsx:43-46 | `A-B-C` with dash-free parts is shown as `C/B/A`. |
| Dates.DisplayOfFormatDate | app/editsubscription.tsx:43-53 | Displaying a backend date gives pad2(day) / pad2(month+1) / year. |
| EditSubscription.HandleStartDateChange | app/editsubscription.tsx:55-63 | The start picker closes. No date leaves the form unchanged. A date changes only the start date, to its backend text. |
| EditSubscription.HandleEndDateChange | app/editsubscription.tsx:65-73 | The end picker closes. No date leaves the form unchanged. A date changes only the end date, to its backend text. |
| EditSubscription.DateLabel | app/editsubscription.tsx:263 | No date shows 'Seçin'. |
| EditSubscription.StartDateShown | app/editsubscription.tsx:263 | After a start date is picked, its button shows pad2(day)/pad2(month+1)/year. |
| EditSubscription.EndDateShown | app/editsubscription.tsx:276 | After an end date is picked, its button shows pad2(day)/pad2(month+1)/year. |
| EditSubscription.DateHandlersCommute | app/editsubscription.tsx:55-73 | Picking the two dates in either order gives the same screen. |
| EditSubscription.OtherLabelKept | app/editsubscription.tsx:55-73 | Each handler leaves the other date's button text unchanged. |
| SubscriptionCreate.CurrencyCode | app/subscriptioncreate.tsx:148-160 | The two currency buttons write 'TRY' and 'USD', one each. |
| SubscriptionCreate.FrequencyCode | app/subscriptioncreate.tsx:178-190 | The two frequency buttons write 'AYLIK' and 'YILLIK', one each. |
| SubscriptionCreate.InitialScreen | app/subscriptioncreate.tsx:20-32 | Currency 'TRY' and frequency 'AYLIK'. Name, amount, end date and card fields are empty. The start date is today's formatDate. Both pickers are closed. |
| SubscriptionCreate.HandleBitisDateChange | app/subscriptioncreate.tsx:34-39 | The end picker closes. No date leaves the form unchanged. A date changes only the end date. |
| SubscriptionCreate.HandleBaslangicDateChange | app/subscriptioncreate.tsx:41-46 | The start picker closes. No date leaves the form unchanged. A date changes only the start date. |
| SubscriptionCreate.StepKeepsChoices | app/subscriptioncreate.tsx:122-258 | No edit on the screen takes the currency outside 'TRY'/'USD' or the frequency outside 'AYLIK'/'YILLIK'. |
| SubscriptionCreate.RunKeepsChoices | app/subscriptioncreate.tsx:122-258 | The same holds over any sequence of edits. |
| SubscriptionCreate.ChoicesAlwaysValid | app/subscriptioncreate.tsx:20-258 | From the mounted form, any sequence of edits keeps the currency 'TRY' or 'USD' and the frequency 'AYLIK' or 'YILLIK'. |
| SubscriptionCreate.StepKeepsStartDate | app/subscriptioncreate.tsx:41-46 | No edit empties the start date. |
| SubscriptionCreate.RunKeepsStartDate | app/subscriptioncreate.tsx:41-46 | Nor does any sequence of edits. |
| SubscriptionCreate.DateFieldText | app/subscriptioncreate.tsx:207 | A set date shows itself; an empty one shows 'YYYY-AA-GG'. |
| SubscriptionCreate.StartDateAlwaysSet | app/subscriptioncreate.tsx:20-46 | From the mounted form the start date stays set through any edits, so its field never shows the placeholder. |
| SubscriptionCreate.SubmitPayload | app/subscriptioncreate.tsx:48-69 | Without a token nothing is sent. Otherwise every field passes through, the amount goes as the parsed number, and odemeTarihi equals baslangicTarihi. |
| SubscriptionCreate.PaymentDateIsPickedDate | app/subscriptioncreate.tsx:41-62 | After a start date is picked, the payment date sent reads back as that year, month (from 1) and day. |
| SubscriptionCreate.FirstPaymentIsToday | app/subscriptioncreate.tsx:13-62 | Sent on the mounted form, the payment date reads back as today. |
| StaticSubs.FilterSubscriptions | app/staticsubs.tsx:66-68 | No longer than the catalogue, and every listed platform matches the query. |
| StaticSubs.FilterCounts | app/staticsubs.tsx:66-68 | A matching platform is listed as many times as the catalogue holds it; one that does not match, never. |
| StaticSubs.FilterIsSubsequence | app/staticsubs.tsx:66-68 | The list is an order-preserving subsequence of the catalogue. |
| StaticSubs.FilterMembership | app/staticsubs.tsx:66-68 | A platform is listed exactly when it is in the catalogue and its lower-cased name includes the lower-cased query. |
| StaticSubs.MatchesQueryIff | app/staticsubs.tsx:67 | A name matches exactly when the lower-cased query occurs at some position of the lower-cased name. |
| StaticSubs.EmptyQueryKeepsAll | app/staticsubs.tsx:67 | An empty query lists the whole catalogue. |
| StaticSubs.FilterIgnoresCase | app/staticsubs.tsx:67 | A query and its lower-case form list the same platforms. |
| StaticSubs.ToggleExpanded | app/staticsubs.tsx:95-97 | Tapping the expanded platform collapses it to none. Tapping any other expands that one. |
| StaticSubs.ToggleSingleExpanded | app/staticsubs.tsx:95-97 | After a tap a platform is expanded exactly when it is the tapped one and was not expanded before. |
| StaticSubs.ToggleTwice | app/staticsubs.tsx:95-97 | Two taps on the same header restore an expanded header and otherwise leave none expanded. |
| Home.Greeting | app/home.tsx:53-58 | 'Günaydın' exactly for hours 5..11, 'İyi Günler' exactly for 12..17, 'İyi Akşamlar' exactly for the rest. |
| Home.GreetingPartition | app/home.tsx:53-58 | Each hour of the day falls in exactly one of the three cases. |
| Home.FirstName | app/home.tsx:100 | A prefix of the full name with no space, followed by a space or by nothing. |
| Home.FirstNameOfFullName | app/home.tsx:100 | 'name rest' is greeted as 'name'. |
| Home.FirstNameOfSingleName | app/home.tsx:100 | A name without a space is greeted in full. |
| Home.ShowEmptyState | app/home.tsx:105 | The prompt shows exactly for a loaded profile whose plan list came and is empty, while the options menu is closed. |
| Home.EmptyStateHidden | app/home.tsx:26 | An open menu, or no profile, hides the prompt. |
| Statistics.ChangeOrZero | app/statistics.tsx:94-95 | No statistics, or no value for the period, gives 0. Otherwise the period's value. |
| Statistics.TrendIcon | app/statistics.tsx:64-68 | trending-up/#4CAF50 exactly for a positive change, trending-down/#FF3B30 exactly for a negative one, minus/#71727A exactly for zero. |
| Statistics.TrendWord | app/statistics.tsx:128 | 'artış' exactly for a positive change, 'azalış' exactly for a negative one, 'değişim yok' exactly for zero; the yearly line at 151 is the same expression. |
| Statistics.WordAgreesWithIcon | app/statistics.tsx:96-128 | For every sign the icon and the word agree. |
| Statistics.MissingChangeIsFlat | app/statistics.tsx:94-97 | A missing change shows the grey icon and 'değişim yok'. |
| Statistics.ClassifyError | app/statistics.tsx:46-50 | 'no statistics' exactly for status 404 or a message including 'bulunamadı'. The generic text exactly otherwise. |
| Statistics.NotFoundAnywhere | app/statistics.tsx:46 | A message with 'bulunamadı' anywhere in it is read as 'no statistics', whatever the status. |
| Statistics.InitialScreen | app/statistics.tsx:19-21 | Mounts loading, with no statistics and no error. |
| Statistics.FetchStatistics | app/statistics.tsx:28-54 | Loading ends on every path, including the early return without a token. A success stores the figures and clears the error. A failure sets the classified error and keeps the figures. |
| Statistics.Render | app/statistics.tsx:70-97 | The loading text exactly while loading. The error line exactly when not loading and an error is set. |
| Statistics.FirstFetchSettles | app/statistics.tsx:24-97 | After the first fetch the screen shows the figures on success and the classified error on failure. |

## Left out

- HTTP requests, AsyncStorage, navigation, toasts and `setTimeout` redirects are outside the model. Their results enter as parameters (`Reply`, `hasToken`), and each outcome carries the text of the toast it shows: the success messages, the refusals, the backend failures and the re-send notice.
- The `setInterval` timers of app/verify.tsx:36-48 and line 80 are timer concurrency. Only the reducer they apply is modelled (`Verify.Tick`, `Verify.Ticks`).
- Focus itself, which is `inputRefs`' `focus()`, is outside the model. The model returns the index that would be focused.
- Rendering, styling and the `Animated` loops of app/home.tsx:27-49 are outside the model.
- JavaScript `Date` is outside the model: `new Date()`, `getHours`, `getFullYear`/`getMonth`/`getDate`, time zones and picker bounds. The hour, today's date and a picked date are integer parameters (`Dates.PickedDate`).
- `Number(...)` at app/editsubscription.tsx:88 and `parseFloat` at app/subscriptioncreate.tsx:60 are floating-point parsing. `SubscriptionCreate.SubmitPayload` takes the parsed amount as a `real` parameter. The edit screen's `handleSave` (app/editsubscription.tsx:75-125) is HTTP only and is not modelled.
- The edit screen's initial `formData` (app/editsubscription.tsx:31-41) is outside the model. Its values are untyped navigation parameters, and the model starts from a given `EditForm`.
- `Intl.NumberFormat` currency formatting (app/statistics.tsx:56-62) is a foreign library and is outside the model.
- `getLogoPath` is an asset lookup and is outside the model.
- app/notifications.tsx, app/index.tsx, app/_layout.tsx and the components hold no input logic; they are not part of this model.
- app/(tabs)/staticsubsadd.tsx, the screen that adds a ready-made package, is outside the scope of this model and is not modelled. It has its own date formatting and picker handler (lines 35-58), ordered submit checks that end with the four-digit card check (lines 74-91), and a digit filter on the card field (line 235).
- The plain setters `setName`, `setPassword`, `setGender` and `setAcceptTerms` of the registration screen are outside the model. Each stores its value and nothing else, and `Register.RegisterForm` takes the fields as they stand.
- StaticSubs.MatchesQuery: `toLowerCase` is modelled for ASCII letters only, because full Unicode case mapping (for example Turkish 'İ') is not stated here.
- Email.NoWhitespace: `\s` is the ECMAScript whitespace set as `Text.IsJsWhitespace` lists it, with today's Unicode space separators. A space separator added by a later Unicode version is not covered.
- Settings.PasswordCheck: lengths are counted in characters, not in JavaScript's UTF-16 code units. The two differ only for characters outside the Basic Multilingual Plane.
- Verify.FocusAfterChange, Verify.VerifyCode, Verify.ConcatLength and Verify.CompleteIffAllFilled: `text.length === 1` (app/verify.tsx:55) and `verificationCode.length !== 6` (app/verify.tsx:94) are counted in characters, not UTF-16 code units. A character outside the Basic Multilingual Plane has length 2 in JavaScript, so it would neither move the focus nor fill a cell as the model says.
- Settings.Draft: after a successful save the source's profile object also carries the typed passwords, which come along in the spread at app/settings.tsx:107-112. `handleCancel` copies them back into the edited copy, and the next `handleEdit` drops them again. The model drops them at once. The difference is never shown, because the password fields render only in edit mode, which always starts with `handleEdit`.
- Settings.SettingsScreen.Cancel and Settings.SettingsScreen.Save require edit mode, because their buttons are rendered only in edit mode (app/settings.tsx:191-204). A non-null profile is also required, matching `profile!` and the render guard at app/settings.tsx:176-182.
- Register.RegisterForm.ResetForm keeps the e-mail flag as the source does: `resetForm` does not clear `isEmailValid`. The emptied e-mail field is refused by the first check anyway, and the class invariant ties the flag to the e-mail only while the e-mail is non-empty.
- Statistics.ChangeOrZero: a `NaN` change is not modelled, because reals have none. `|| 0` would turn it into 0, like a missing value.
- Home.ShowEmptyState: the plan list is represented only by its length, because the screen reads nothing else of it.
