# Campus Lost & Found: the app's decision logic in Dafny

The app (Android, Kotlin, Firebase) lets students of a campus report lost
and found items, browse and search them, contact the reporter on WhatsApp,
and follow a feed of global notifications. Most of it is UI and Firebase
SDK calls. This project models the logic in between and proves its
properties:

- **Notifications** (`notifications.dfy`): the per-device read state of the
  notification feed. A notification is read when its timestamp is at or
  before the stored `lastSeen` watermark, or when its id is in the stored
  read-id set. Also covered: the cached copy of the list, `markAsRead`,
  `markAllAsRead` and the unread count.
- **WhatsApp** (`whatsapp.dfy`): normalising and validating Indonesian phone
  numbers.
- **Auth** (`auth.dfy`):
  - the email, password and phone validators of the login and register forms;
  - the form setters and the gates in front of the authentication back end;
  - the mapping from back-end errors to Indonesian messages.
- **AddReport** (`add_report.dfy`): the report form.
  - its setters and the 500-character description cap;
  - `validateForm` and the error priority;
  - the item that `submitReport` builds.
- **Home** (`home.dfy`): the home list, with its type filter and
  case-insensitive search.
- **Repository** (`repository.dfy`):
  - the ownership checks and the partial-update patch;
  - the client-side filter and sort used by the fallback listeners;
  - the 30-second per-device rate limit and the 7-day expiry of global
    notifications;
  - the fields `addItem` forces.
- **Items** (`items.dfy`): the item record, its defaults, category names and
  the relative-time labels.
- **Images** (`images.dfy`): the data-URL helpers and the JPEG quality loop.

`optional.dfy` and `text.dfy` hold the Kotlin standard-library behaviour
the app relies on:
- `Option`;
- regex-based digit stripping;
- `startsWith`, `substring`, `take`, `contains`, `indexOf` and
  `lastIndexOf`;
- `isBlank`, with Kotlin's exact whitespace set;
- ASCII `lowercase`.

The modelling choices:
- **Classes and functions.** Where the source updates state in place, the
  model is a class whose methods change its fields:
  - `NotificationViewModel`, `AuthViewModel`, `AddReportViewModel`,
    `HomeViewModel`;
  - `LostFoundRepository`, whose fields stand for the Firestore collections
    and the device preference `last_notif_ts`.

  The validators and the filters are pure functions, as they are in the
  source. The patch builder fills a mutable map by conditional inserts, so
  it is a method (`Repository.BuildUpdates`) proved equal to the function
  `Repository.UpdatePatch`.
- **Environment as parameters.** These all come in as parameters: the clock
  (`System.currentTimeMillis()`), what Firebase answers (sign-in,
  listeners, writes, new document ids) and what the image conversion
  produced.
- **Time.** Timestamps are milliseconds.

Where the code and its documentation disagree, the model follows the code:
- **`markAllAsRead`** sets `read = true` on every item, including items newer
  than the new `lastSeen`. `Notifications.AllReadVersusReconcile` proves
  when the two readings agree: exactly when no item is newer than `now`.
  Any newer item shows as read now and as unread after the next snapshot.
- **`lastSeen`** is overwritten with `now` unconditionally. Nothing keeps
  it from moving backwards if the clock does.
- **The email pattern's top-level-domain class** is `[A-Z|a-z]`, which
  admits '|'. It is modelled as written: `Auth.EmailBarInTopLevelDomain`
  shows that "a@b.c|" is accepted.
- **The "+62" branches** of `formatPhoneNumber` and
  `isValidIndonesianPhoneNumber` are dead, because '+' is stripped first.
  `WhatsApp.PlusBranchesUnreachable` proves it.

## Model

Paths below are relative to `app/src/main/java/com/campus/lostfound/` in the
table's source column, written out in full.

| member | source | states |
|---|---|---|
| Text.DigitsOnly | app/src/main/java/com/campus/lostfound/util/WhatsAppUtil.kt:17 | deleting every non-digit leaves only digits and never lengthens the text |
| Text.Utf16Length | app/src/main/java/com/campus/lostfound/ui/viewmodel/AuthViewModel.kt:161 | Kotlin's `length`: between the number of characters and twice it, and exactly it when no character is supplementary |
| Text.Utf16Take | app/src/main/java/com/campus/lostfound/ui/viewmodel/AddReportViewModel.kt:58 | Kotlin's `take(n)`: a prefix within n code units, the whole text when it fits, and the next character would not fit |
| WhatsApp.FormatPhoneNumber | app/src/main/java/com/campus/lostfound/util/WhatsAppUtil.kt:15-39 | the formatted number consists of digits only |
| WhatsApp.IsValidIndonesianPhoneNumber | app/src/main/java/com/campus/lostfound/util/WhatsAppUtil.kt:45-52 | an accepted number is "0" with 10-13 digits or "62" with 11-14 digits once cleaned |
| WhatsApp.PlusBranchesUnreachable | app/src/main/java/com/campus/lostfound/util/WhatsAppUtil.kt:27-29 | a cleaned number never starts with "+62", so the "+62" branches are dead |
| WhatsApp.FormatIgnoresNonDigits | app/src/main/java/com/campus/lostfound/util/WhatsAppUtil.kt:17 | formatting and validity depend only on the digits of the input |
| WhatsApp.FormatLeadingZero | app/src/main/java/com/campus/lostfound/util/WhatsAppUtil.kt:21-23 | a cleaned number starting with "0" becomes "62" followed by the rest |
| WhatsApp.FormatLeading62 | app/src/main/java/com/campus/lostfound/util/WhatsAppUtil.kt:24-26 | a cleaned number starting with "62" is returned as it is |
| WhatsApp.FormatOtherPrefix | app/src/main/java/com/campus/lostfound/util/WhatsAppUtil.kt:30-38 | any other number gets "62" in front exactly when it has 10 to 12 digits, and is otherwise returned cleaned |
| WhatsApp.ValidityCharacterised | app/src/main/java/com/campus/lostfound/util/WhatsAppUtil.kt:45-52 | valid iff the cleaned number is "0" and 10-13 digits, or "62" and 11-14 digits |
| WhatsApp.FormatIdempotent | app/src/main/java/com/campus/lostfound/util/WhatsAppUtil.kt:15-39 | formatting a formatted number changes nothing |
| WhatsApp.FormatKeepsValidity | app/src/main/java/com/campus/lostfound/util/WhatsAppUtil.kt:15-52 | a valid number formats to a valid number starting with "62" |
| WhatsApp.NoDigitsInvalid | app/src/main/java/com/campus/lostfound/util/WhatsAppUtil.kt:45-52 | input without digits is invalid and formats to "" |
| WhatsApp.FormatExample | app/src/main/java/com/campus/lostfound/util/WhatsAppUtil.kt:11 | 08123456789 formats to 628123456789 and is valid |
| WhatsApp.FormatDashedExample | app/src/main/java/com/campus/lostfound/util/WhatsAppUtil.kt:12 | 0812-3456-7890 formats to 6281234567890 |
| Items.DisplayNameInjective | app/src/main/java/com/campus/lostfound/data/model/LostFoundItem.kt:42-47 | distinct categories have distinct display names (Elektronik, Aksesoris, Dokumen, Lainnya) |
| Items.DisplayName | app/src/main/java/com/campus/lostfound/data/model/LostFoundItem.kt:42-47 | every label is a non-blank word starting with a letter |
| Items.CategoryFromName | app/src/main/java/com/campus/lostfound/data/model/LostFoundItem.kt:42-47 | a name is parsed only into the category that carries that name |
| Items.CategoryNameRoundTrip | app/src/main/java/com/campus/lostfound/data/model/LostFoundItem.kt:42-47 | a category stored under its enum name reads back as the same category |
| Items.DefaultItem | app/src/main/java/com/campus/lostfound/data/model/LostFoundItem.kt:7-21 | a default item is LOST, OTHER, not completed, with empty strings, created now |
| Items.FilterByType | app/src/main/java/com/campus/lostfound/ui/viewmodel/HomeViewModel.kt:41 | every result has the type; each item of the type is kept as often as it occurs and every other item is dropped (multiset); order is kept (subsequence) |
| Items.FilterByOptionalType | app/src/main/java/com/campus/lostfound/ui/viewmodel/HomeViewModel.kt:40-44 | no type keeps everything; a type keeps every occurrence of the items of that type and nothing else (multiset), in order |
| Items.TimeAgoOf | app/src/main/java/com/campus/lostfound/data/model/LostFoundItem.kt:26-34 | each bucket is chosen exactly on its range (a negative age is "just now"); the count is 1-59 minutes, 1-23 hours, 1-6 days or at least 1 week, and is the whole number of units in the age |
| Items.TimeAgoUnitMonotone | app/src/main/java/com/campus/lostfound/data/model/LostFoundItem.kt:28-34 | a larger age never selects a smaller unit |
| Items.GetTimeAgo | app/src/main/java/com/campus/lostfound/data/model/LostFoundItem.kt:23-35 | "Baru saja" exactly when the item is less than a minute old; otherwise the label starts with its count |
| Items.GetTimeAgoExample | app/src/main/java/com/campus/lostfound/data/model/LostFoundItem.kt:30 | 150 s after creation the label is "2 menit lalu" |
| Images.ExtractBase64 | app/src/main/java/com/campus/lostfound/util/ImageConverter.kt:76-82 | without a comma the input is returned; with one, the text after the first comma |
| Images.IsBase64Image | app/src/main/java/com/campus/lostfound/util/ImageConverter.kt:69-71 | every JPEG data URL the converter builds is recognised, and "" is not |
| Images.JpegDataUrl | app/src/main/java/com/campus/lostfound/util/ImageConverter.kt:40 | the data URL is the JPEG prefix followed by the payload |
| Images.ExtractAfterWrap | app/src/main/java/com/campus/lostfound/util/ImageConverter.kt:69-82 | a comma-free payload wrapped in the data URL is recognised as an image and extracted unchanged |
| Images.Base64RoundTrip | app/src/main/java/com/campus/lostfound/util/ImageConverter.kt:37-40 | every Base64 payload survives wrapping and extraction |
| Images.UriToBase64 | app/src/main/java/com/campus/lostfound/util/ImageConverter.kt:16-44 | the result is the JPEG data URL of the encoded image, or "" when the stream or bitmap is missing or anything threw |
| Images.CompressBitmap | app/src/main/java/com/campus/lostfound/util/ImageConverter.kt:49-64 | quality starts at 90 and drops by 10 per round, never below 30 (at most 6 rounds); it stops at the first size within the limit or at 30; every earlier size was over the limit; the input bitmap is returned |
| Notifications.Reconcile | app/src/main/java/com/campus/lostfound/ui/viewmodel/NotificationViewModel.kt:49-52 | one output per input, in order, with only `read` recomputed: read iff timestamp <= lastSeen or id in the read set |
| Notifications.ReconcileIdempotent | app/src/main/java/com/campus/lostfound/ui/viewmodel/NotificationViewModel.kt:119-121 | reconciling twice is reconciling once |
| Notifications.ReconcileIgnoresIncomingFlags | app/src/main/java/com/campus/lostfound/ui/viewmodel/NotificationViewModel.kt:119-121 | the incoming `read` flags have no influence on the result |
| Notifications.ReconcileMonotone | app/src/main/java/com/campus/lostfound/ui/viewmodel/NotificationViewModel.kt:85-90 | a later watermark or more read ids never make a read item unread |
| Notifications.MarkRead | app/src/main/java/com/campus/lostfound/ui/viewmodel/NotificationViewModel.kt:145-147 | items with the id become read, all others are unchanged, same length and order |
| Notifications.AllRead | app/src/main/java/com/campus/lostfound/ui/viewmodel/NotificationViewModel.kt:159 | every item becomes read, nothing else changes |
| Notifications.MarkReadKeepsReconciled | app/src/main/java/com/campus/lostfound/ui/viewmodel/NotificationViewModel.kt:135-150 | marking an id read equals reconciling against the read set extended by that id |
| Notifications.AllReadVersusReconcile | app/src/main/java/com/campus/lostfound/ui/viewmodel/NotificationViewModel.kt:153-163 | marking all read agrees with reconciling against the new state exactly when no item is newer than `now` |
| Notifications.CountUnread | app/src/main/java/com/campus/lostfound/ui/viewmodel/NotificationViewModel.kt:165-167 | the count is the number of indices whose item is unread; hence at most the length, 0 iff all are read, the length iff none is |
| Notifications.AllReadHasNoUnread | app/src/main/java/com/campus/lostfound/ui/viewmodel/NotificationViewModel.kt:159-166 | after marking all read the unread count is 0 |
| Notifications.NotificationViewModel.UnreadCount | app/src/main/java/com/campus/lostfound/ui/viewmodel/NotificationViewModel.kt:165-167 | the number of unread items in the list; 0 iff all are read |
| Notifications.SnapshotItems | app/src/main/java/com/campus/lostfound/ui/viewmodel/NotificationViewModel.kt:108-116 | one item per converted document, with the document id, in document order: the document at index i lands at the number of converted documents before it; documents that fail conversion are dropped |
| Notifications.CachedItems | app/src/main/java/com/campus/lostfound/ui/viewmodel/NotificationViewModel.kt:44-47 | one item per accepted object entry, in array order (an accepted entry at index i lands at the number of accepted entries before it), repeats kept; other entries are skipped |
| Notifications.ParseCachedEntries | app/src/main/java/com/campus/lostfound/ui/viewmodel/NotificationViewModel.kt:43-47 | the index loop produces the list of accepted cached entries |
| Notifications.CacheRoundTrip | app/src/main/java/com/campus/lostfound/ui/viewmodel/NotificationViewModel.kt:38-67 | a saved list loads back unchanged |
| Notifications.NotificationViewModel.LastSeen | app/src/main/java/com/campus/lostfound/ui/viewmodel/NotificationViewModel.kt:69-71 | the watermark is 0 when nothing is stored |
| Notifications.NotificationViewModel.ReadIdSet | app/src/main/java/com/campus/lostfound/ui/viewmodel/NotificationViewModel.kt:77-79 | the read-id set is empty when nothing is stored |
| Notifications.NotificationViewModel.constructor | app/src/main/java/com/campus/lostfound/ui/viewmodel/NotificationViewModel.kt:32-36 | the cache is loaded and reconciled, then the listener is attached |
| Notifications.NotificationViewModel.LoadCachedNotifications | app/src/main/java/com/campus/lostfound/ui/viewmodel/NotificationViewModel.kt:38-57 | a cached array gives the reconciled accepted entries; a blank or malformed cache leaves the list |
| Notifications.NotificationViewModel.LoadNotifications | app/src/main/java/com/campus/lostfound/ui/viewmodel/NotificationViewModel.kt:92-133 | loading starts with no error; a failure to attach stops loading with the exception's message |
| Notifications.NotificationViewModel.OnSnapshot | app/src/main/java/com/campus/lostfound/ui/viewmodel/NotificationViewModel.kt:100-127 | an error keeps the list and cache and sets the message; a snapshot publishes and caches the reconciled items |
| Notifications.NotificationViewModel.MarkAsRead | app/src/main/java/com/campus/lostfound/ui/viewmodel/NotificationViewModel.kt:135-151 | the id joins the read set (stored set untouched if already there), the matching items become read, and the same list is cached |
| Notifications.NotificationViewModel.MarkAllAsRead | app/src/main/java/com/campus/lostfound/ui/viewmodel/NotificationViewModel.kt:153-163 | lastSeen becomes now, the read set empty, every item read, the list cached, the unread count 0 |
| Auth.EmailRecogniserMatchesRegex | app/src/main/java/com/campus/lostfound/ui/viewmodel/AuthViewModel.kt:152 | splitting at the first '@' and the last '.' accepts exactly the strings of the email pattern |
| Auth.ValidateEmail | app/src/main/java/com/campus/lostfound/ui/viewmodel/AuthViewModel.kt:149-156 | blank input gets "Email harus diisi"; otherwise "Format email tidak valid" iff the pattern fails; no error iff non-blank and matching |
| Auth.EmailBarInTopLevelDomain | app/src/main/java/com/campus/lostfound/ui/viewmodel/AuthViewModel.kt:152 | "a@b.c\|" passes, since the class `[A-Z\|a-z]` admits '\|' |
| Auth.EmailShortTopLevelDomain | app/src/main/java/com/campus/lostfound/ui/viewmodel/AuthViewModel.kt:152 | "a@b.c" is refused: the top-level domain needs two characters |
| Auth.ValidatePassword | app/src/main/java/com/campus/lostfound/ui/viewmodel/AuthViewModel.kt:158-164 | empty gives "harus diisi", 1-5 UTF-16 code units "minimal 6 karakter", 6 or more units no error |
| Auth.PasswordCountsUtf16Units | app/src/main/java/com/campus/lostfound/ui/viewmodel/AuthViewModel.kt:161 | three emoji are six code units and pass the length check |
| Auth.KeepDigitsAndPlus | app/src/main/java/com/campus/lostfound/ui/viewmodel/AuthViewModel.kt:169 | only digits and '+' remain, never longer than the input (its value is fixed by the three lemmas below) |
| Auth.KeepDigitsAndPlusAppend | app/src/main/java/com/campus/lostfound/ui/viewmodel/AuthViewModel.kt:169 | cleaning a concatenation cleans each part |
| Auth.KeepDigitsAndPlusOfKept | app/src/main/java/com/campus/lostfound/ui/viewmodel/AuthViewModel.kt:169 | digits and '+' signs are all kept, in place |
| Auth.KeepDigitsAndPlusOfDropped | app/src/main/java/com/campus/lostfound/ui/viewmodel/AuthViewModel.kt:169 | every other character is deleted |
| Auth.KeepThenDigitsOnly | app/src/main/java/com/campus/lostfound/ui/viewmodel/AuthViewModel.kt:169 | keeping '+' as well loses and adds no digit |
| Auth.KeepWithoutPlus | app/src/main/java/com/campus/lostfound/ui/viewmodel/AuthViewModel.kt:169 | without '+' in the input the phone cleaning equals the digit cleaning |
| Auth.ValidatePhoneNumber | app/src/main/java/com/campus/lostfound/ui/viewmodel/AuthViewModel.kt:166-176 | blank is no error; otherwise "terlalu pendek" iff fewer than 10 kept characters, "Format nomor telepon tidak valid" for 10 or more that miss the pattern, and no error iff "+62", "62" or "0" is followed by 9-12 digits |
| Auth.AcceptedPhoneIsWhatsAppValid | app/src/main/java/com/campus/lostfound/ui/viewmodel/AuthViewModel.kt:166-176 | a non-blank phone the form accepts is a valid WhatsApp number |
| Auth.PhoneValidatorsAgreeWithoutPlus | app/src/main/java/com/campus/lostfound/ui/viewmodel/AuthViewModel.kt:166-176 | for input without '+', the form accepts a phone iff WhatsApp validation does |
| Auth.FirstMatchingRule | app/src/main/java/com/campus/lostfound/ui/viewmodel/AuthViewModel.kt:337-378 | the index found is a matching branch with no earlier branch matching; none found means no branch matches |
| Auth.GetReadableError | app/src/main/java/com/campus/lostfound/ui/viewmodel/AuthViewModel.kt:333-388 | the message is one of the branch messages, the login message, or "Terjadi kesalahan: " followed by at most 100 UTF-16 code units |
| Auth.ReadableErrorFirstMatch | app/src/main/java/com/campus/lostfound/ui/viewmodel/AuthViewModel.kt:337-378 | the first branch in source order whose substrings occur decides the message |
| Auth.ReadableErrorFallback | app/src/main/java/com/campus/lostfound/ui/viewmodel/AuthViewModel.kt:379-386 | with no branch matching, "login" in any case gives the login message, else the prefix plus the longest prefix of the message within 100 UTF-16 code units |
| Auth.ReadableErrorWrongPassword | app/src/main/java/com/campus/lostfound/ui/viewmodel/AuthViewModel.kt:339-342 | any message containing "wrong-password" reports a wrong password |
| Auth.ReadableErrorNullMessage | app/src/main/java/com/campus/lostfound/ui/viewmodel/AuthViewModel.kt:334 | a null message gives "Terjadi kesalahan: " alone |
| Auth.AfterAuthCall | app/src/main/java/com/campus/lostfound/ui/viewmodel/AuthViewModel.kt:194-211 | loading ends; success sets the user and success flag with no error; failure keeps user and flag and sets the readable error |
| Auth.RegisterCheck | app/src/main/java/com/campus/lostfound/ui/viewmodel/AuthViewModel.kt:217-224 | "Nama harus diisi" iff the name is blank, "Kata sandi tidak cocok" iff the confirmation differs, the email and password validators' messages, and the phone validator's message only for a non-blank phone |
| Auth.RegisterGate | app/src/main/java/com/campus/lostfound/ui/viewmodel/AuthViewModel.kt:215-237 | registration goes through iff name non-blank, email matching, password of 6+, confirmation equal, phone blank or valid |
| Auth.RegisteredPhoneIsWhatsAppValid | app/src/main/java/com/campus/lostfound/ui/viewmodel/AuthViewModel.kt:224 | a registered non-blank phone is a valid WhatsApp number |
| Auth.AuthViewModel.constructor | app/src/main/java/com/campus/lostfound/ui/viewmodel/AuthViewModel.kt:15-53 | auth state and both forms start at their defaults |
| Auth.AuthViewModel.SetLoginEmail | app/src/main/java/com/campus/lostfound/ui/viewmodel/AuthViewModel.kt:96-101 | only the email and its validation error change |
| Auth.AuthViewModel.SetLoginPassword | app/src/main/java/com/campus/lostfound/ui/viewmodel/AuthViewModel.kt:103-108 | only the password and its error ("Password required" iff empty) change |
| Auth.AuthViewModel.SetRegisterName | app/src/main/java/com/campus/lostfound/ui/viewmodel/AuthViewModel.kt:111-116 | only the name and its error ("Name is required" iff blank) change |
| Auth.AuthViewModel.SetRegisterEmail | app/src/main/java/com/campus/lostfound/ui/viewmodel/AuthViewModel.kt:118-123 | only the email and its validation error change |
| Auth.AuthViewModel.SetRegisterPassword | app/src/main/java/com/campus/lostfound/ui/viewmodel/AuthViewModel.kt:125-130 | only the password and its error change; the confirmation error is not recomputed |
| Auth.AuthViewModel.SetRegisterConfirmPassword | app/src/main/java/com/campus/lostfound/ui/viewmodel/AuthViewModel.kt:132-139 | the confirmation error is set iff the confirmation differs from the current password |
| Auth.AuthViewModel.SetRegisterPhone | app/src/main/java/com/campus/lostfound/ui/viewmodel/AuthViewModel.kt:141-146 | only the phone and its validation error change |
| Auth.AuthViewModel.Login | app/src/main/java/com/campus/lostfound/ui/viewmodel/AuthViewModel.kt:179-212 | credentials are sent iff email and password validate; otherwise both errors are written and the auth state is untouched |
| Auth.AuthViewModel.Register | app/src/main/java/com/campus/lostfound/ui/viewmodel/AuthViewModel.kt:215-266 | the registration is sent iff every field is acceptable, a blank phone as ""; otherwise all five errors are written and the auth state is untouched |
| Auth.AuthViewModel.ClearError | app/src/main/java/com/campus/lostfound/ui/viewmodel/AuthViewModel.kt:323-325 | only the error is cleared |
| Auth.AuthViewModel.ClearSuccess | app/src/main/java/com/campus/lostfound/ui/viewmodel/AuthViewModel.kt:328-330 | only the success flag is cleared |
| AddReport.ValidateForm | app/src/main/java/com/campus/lostfound/ui/viewmodel/AddReportViewModel.kt:72-79 | a form that passes is stored with a valid number in the "62" form |
| AddReport.ValidateFormCharacterised | app/src/main/java/com/campus/lostfound/ui/viewmodel/AddReportViewModel.kt:72-79 | the form is valid iff name and location are non-blank and the number is a valid Indonesian number (the digit check is implied) |
| AddReport.SubmitErrorMessage | app/src/main/java/com/campus/lostfound/ui/viewmodel/AddReportViewModel.kt:82-91 | the first failing check in the order name, location, missing number, format decides the message; the catch-all message is never chosen |
| AddReport.BuildItem | app/src/main/java/com/campus/lostfound/ui/viewmodel/AddReportViewModel.kt:100-109 | the default item with the form's fields and the formatted number |
| AddReport.BuiltItemHasWhatsAppNumber | app/src/main/java/com/campus/lostfound/ui/viewmodel/AddReportViewModel.kt:100-109 | a valid form yields a stored number that starts with "62" and is valid |
| AddReport.AddReportViewModel.constructor | app/src/main/java/com/campus/lostfound/ui/viewmodel/AddReportViewModel.kt:19-37 | the state starts at the defaults |
| AddReport.AddReportViewModel.SetItemType | app/src/main/java/com/campus/lostfound/ui/viewmodel/AddReportViewModel.kt:40-42 | only the type changes |
| AddReport.AddReportViewModel.SetItemName | app/src/main/java/com/campus/lostfound/ui/viewmodel/AddReportViewModel.kt:44-46 | only the name changes |
| AddReport.AddReportViewModel.SetCategory | app/src/main/java/com/campus/lostfound/ui/viewmodel/AddReportViewModel.kt:48-50 | only the category changes |
| AddReport.AddReportViewModel.SetLocation | app/src/main/java/com/campus/lostfound/ui/viewmodel/AddReportViewModel.kt:52-54 | only the location changes |
| AddReport.AddReportViewModel.SetDescription | app/src/main/java/com/campus/lostfound/ui/viewmodel/AddReportViewModel.kt:56-60 | only the description changes, to a prefix of the input within 500 UTF-16 code units (the input itself when it fits) |
| AddReport.AddReportViewModel.SetWhatsAppNumber | app/src/main/java/com/campus/lostfound/ui/viewmodel/AddReportViewModel.kt:62-66 | only the number changes, stored as typed |
| AddReport.AddReportViewModel.SetImageUri | app/src/main/java/com/campus/lostfound/ui/viewmodel/AddReportViewModel.kt:68-70 | only the image changes |
| AddReport.AddReportViewModel.SubmitReport | app/src/main/java/com/campus/lostfound/ui/viewmodel/AddReportViewModel.kt:81-136 | an item is sent iff the form validates; invalid sets only the error; success ends not loading and successful with the callback run; failure ends not loading with the message or "Gagal mengirim laporan" |
| AddReport.AddReportViewModel.ResetState | app/src/main/java/com/campus/lostfound/ui/viewmodel/AddReportViewModel.kt:138-140 | the state returns to the defaults |
| Home.FilterByQuery | app/src/main/java/com/campus/lostfound/ui/viewmodel/HomeViewModel.kt:50-54 | an item is kept iff the query occurs in its lower-cased name, location or description; every kept item keeps all its occurrences (multiset); order is kept |
| Home.FilteredItems | app/src/main/java/com/campus/lostfound/ui/viewmodel/HomeViewModel.kt:39-55 | the result is a subsequence; a blank query leaves the type-filtered list; otherwise every occurrence of an item passing the type and the search is kept and nothing else (multiset) |
| Home.FilteredItemsIgnoreCase | app/src/main/java/com/campus/lostfound/ui/viewmodel/HomeViewModel.kt:49-54 | queries differing only in letter case give the same list |
| Home.FilteredItemsNoCriteria | app/src/main/java/com/campus/lostfound/ui/viewmodel/HomeViewModel.kt:40-47 | no type and a blank query show every item |
| Home.SearchNarrowsTypeFilter | app/src/main/java/com/campus/lostfound/ui/viewmodel/HomeViewModel.kt:39-55 | the search result is a subsequence of the type-filtered list |
| Home.HomeViewModel.Filtered | app/src/main/java/com/campus/lostfound/ui/viewmodel/HomeViewModel.kt:35-60 | the shown list is FilteredItems of the current items, filter and query, so a subsequence of the loaded items |
| Home.HomeViewModel.constructor | app/src/main/java/com/campus/lostfound/ui/viewmodel/HomeViewModel.kt:21-64 | no filter, empty query and list, loading with a listener for all types |
| Home.HomeViewModel.LoadItems | app/src/main/java/com/campus/lostfound/ui/viewmodel/HomeViewModel.kt:66-72 | loading starts with a listener for the selected filter |
| Home.HomeViewModel.OnItemsEmitted | app/src/main/java/com/campus/lostfound/ui/viewmodel/HomeViewModel.kt:73-76 | the emitted list replaces the items and loading stops |
| Home.HomeViewModel.OnLoadFailed | app/src/main/java/com/campus/lostfound/ui/viewmodel/HomeViewModel.kt:77-81 | loading stops |
| Home.HomeViewModel.SetFilter | app/src/main/java/com/campus/lostfound/ui/viewmodel/HomeViewModel.kt:85-88 | the filter changes and loading restarts with it |
| Home.HomeViewModel.SetSearchQuery | app/src/main/java/com/campus/lostfound/ui/viewmodel/HomeViewModel.kt:90-92 | only the query changes |
| Repository.SortByCreatedAtDesc | app/src/main/java/com/campus/lostfound/data/repository/LostFoundRepository.kt:106-108 | the result is newest first and a permutation of the input |
| Repository.SortIsStable | app/src/main/java/com/campus/lostfound/data/repository/LostFoundRepository.kt:106-108 | items created at the same moment keep their relative order |
| Repository.SortOfSorted | app/src/main/java/com/campus/lostfound/data/repository/LostFoundRepository.kt:175-177 | a list already newest first is left unchanged |
| Repository.AllItemsReaction | app/src/main/java/com/campus/lostfound/data/repository/LostFoundRepository.kt:79-139 | index errors switch to the fallback query; sign-in and other errors send an empty list; a snapshot sends the type-filtered documents |
| Repository.AllItemsFallback | app/src/main/java/com/campus/lostfound/data/repository/LostFoundRepository.kt:89-115 | an error sends an empty list; a snapshot sends exactly the items of the type, newest first |
| Repository.UserItemsReaction | app/src/main/java/com/campus/lostfound/data/repository/LostFoundRepository.kt:159-196 | index errors switch to the fallback; other errors send an empty list; a snapshot is sent as it is |
| Repository.UserItemsFallback | app/src/main/java/com/campus/lostfound/data/repository/LostFoundRepository.kt:166-183 | a snapshot is sorted newest first without dropping anything; an error sends an empty list |
| Repository.HistoryReaction | app/src/main/java/com/campus/lostfound/data/repository/LostFoundRepository.kt:216-229 | every error sends an empty list; a snapshot is sent as it is |
| Repository.FallbackAgreesOnOrderedSnapshot | app/src/main/java/com/campus/lostfound/data/repository/LostFoundRepository.kt:99-110 | on documents already newest first, the fallback sends the same list as the main query |
| Repository.ReportNotification | app/src/main/java/com/campus/lostfound/data/repository/LostFoundRepository.kt:267-278 | the notification expires 7 days (604 800 000 ms) after now and carries the item id and kind |
| Repository.RateLimitOpen | app/src/main/java/com/campus/lostfound/data/repository/LostFoundRepository.kt:262-266 | with nothing stored the gate opens at 30 000 ms (the default 0); otherwise exactly 30 000 ms after the stored time |
| Repository.RateLimitStaysOpen | app/src/main/java/com/campus/lostfound/data/repository/LostFoundRepository.kt:262-266 | an open gate stays open as time passes until the next write |
| Repository.WrittenTimesSpaced | app/src/main/java/com/campus/lostfound/data/repository/LostFoundRepository.kt:262-290 | over any run of attempts, each completed before the next begins, each written notification is at least 30 000 ms after the previous one (the first after the stored time, 0 by default) |
| Repository.FailedWriteKeepsGateOpen | app/src/main/java/com/campus/lostfound/data/repository/LostFoundRepository.kt:280-288 | a failed write does not close the gate for a later attempt |
| Repository.ImageUrlFor | app/src/main/java/com/campus/lostfound/data/repository/LostFoundRepository.kt:240-246 | no image gives ""; otherwise a data URL or "" |
| Repository.StoredItemBelongsToCaller | app/src/main/java/com/campus/lostfound/data/repository/LostFoundRepository.kt:236-252 | whatever the caller passed, the stored item is owned by the signed-in user, open, without storage path, with blank or data-URL image text, and every other field as given |
| Repository.FieldNameInjective | app/src/main/java/com/campus/lostfound/data/repository/LostFoundRepository.kt:432-447 | the six field keys `updateItem` writes (itemName, category, location, description, whatsappNumber, imageUrl) are distinct, so distinct fields never overwrite each other |
| Repository.UpdatePatch | app/src/main/java/com/campus/lostfound/data/repository/LostFoundRepository.kt:430-450 | a key exactly for each argument given, the image only when conversion gave text |
| Repository.UpdatePatchValues | app/src/main/java/com/campus/lostfound/data/repository/LostFoundRepository.kt:432-448 | each written key carries its argument: the category as its enum name, the number formatted, the image as a data URL |
| Repository.BuildUpdates | app/src/main/java/com/campus/lostfound/data/repository/LostFoundRepository.kt:430-450 | the conditional inserts build that patch |
| Repository.ApplyPatch | app/src/main/java/com/campus/lostfound/data/repository/LostFoundRepository.kt:452-454 | an empty patch changes nothing; id, owner, type, completion, time and storage path are never patched |
| Repository.PatchRoundTrip | app/src/main/java/com/campus/lostfound/data/repository/LostFoundRepository.kt:430-456 | applying the patch sets exactly the given fields, category and formatted number included |
| Repository.EmptyPatch | app/src/main/java/com/campus/lostfound/data/repository/LostFoundRepository.kt:443-452 | with no argument (or a failed image) the patch is empty |
| Repository.LostFoundRepository.constructor | app/src/main/java/com/campus/lostfound/data/repository/LostFoundRepository.kt:26-28 | the items and the stored time start as given; the history and the notification collection start empty |
| Repository.LostFoundRepository.Notify | app/src/main/java/com/campus/lostfound/data/repository/LostFoundRepository.kt:260-291 | the notification is appended and the time stored exactly when the gate is open and the write succeeds |
| Repository.LostFoundRepository.AddItem | app/src/main/java/com/campus/lostfound/data/repository/LostFoundRepository.kt:234-300 | for a fresh document id: sign-in failure changes nothing; otherwise the forced item is stored under the new id, a rate-limited "NEW_REPORT" notification follows, and the id is returned |
| Repository.LostFoundRepository.DeleteItem | app/src/main/java/com/campus/lostfound/data/repository/LostFoundRepository.kt:302-331 | a missing item fails "tidak ditemukan", another user's fails with the delete-permission error; success iff owned, and only that item is removed |
| Repository.LostFoundRepository.MarkAsCompleted | app/src/main/java/com/campus/lostfound/data/repository/LostFoundRepository.kt:333-394 | success iff owned (missing gets the permission error); then archived as completed in the owner's history, notified under the rate limit, and removed from the items |
| Repository.LostFoundRepository.UpdateItem | app/src/main/java/com/campus/lostfound/data/repository/LostFoundRepository.kt:410-463 | success iff owned (missing gets the permission error); an empty patch writes nothing, otherwise the item gets the patch |

## Left out

- Compose screens and navigation are not modelled. The step wizard and the
  changed-fields diff in the screens only call the validators and
  `updateItem`, which are modelled.
- `loginWithGoogle`, `logout`, `sendPasswordReset`, `observeAuthState` and
  `loadCurrentUser` are not modelled. They are back-end calls and coroutine
  plumbing, including the 300 ms debounce.
- `getItemById` and `getCurrentUserId` are not modelled. They are a plain
  read and an anonymous sign-in.
- `openWhatsApp` is not modelled: it starts an intent.
- Coroutines are not modelled: every operation is atomic. Firebase is
  modelled by the outcome it reports, passed in as a parameter.
- Regexes are hand-written recognisers, not a general regex engine.
- Text.Utf16Take: when the n-th code unit is the first half of a surrogate
  pair, Kotlin's `take(n)` keeps that half on its own, which a Dafny `string`
  (Unicode scalar values) cannot hold; the model stops one unit earlier.
- AddReport.AddReportViewModel.SetDescription and Auth.GetReadableError
  inherit that one-unit difference from Text.Utf16Take.
- Repository.LostFoundRepository.Notify: the write and the stored time are
  one atomic step. In the source the time is stored in an un-awaited
  `addOnSuccessListener`, so two attempts made before the first callback
  runs both pass the gate and both write.
- Repository.WrittenTimesSpaced: holds for that atomic step only; with the
  un-awaited success listener, notifications closer than 30 000 ms apart are
  possible.
- Unicode case mapping is not modelled: `lowercase()` and `ignoreCase` are
  ASCII only. Kotlin maps every letter.
- Timestamps are unbounded integers, so `Long` overflow is not modelled.
  No realistic clock value comes near it.
- `NotificationItem` and its JSON form (`toJsonObject`, `fromJsonObject`)
  are not part of this model. A cache entry is an object the parser
  accepts or rejects, and a notification is written as an accepted object.
- Notifications.NotificationViewModel.LoadCachedNotifications: an exception
  thrown while reading the preferences is not modelled. A malformed cache
  is modelled, as leaving the list unchanged.
- Repository.LostFoundRepository.AddItem: does not model a failure of the
  item write itself or of the image conversion throwing. Only a sign-in
  failure produces `Failure`.
- Repository.LostFoundRepository.MarkAsCompleted and
  Repository.LostFoundRepository.DeleteItem: do not model Firestore read,
  write or delete failures after sign-in.
- Repository.LostFoundRepository.UpdateItem: does not model Firestore read
  or write failures after sign-in.
- Repository.ReportNotification: leaves out the body text, which embeds a
  date formatted with `SimpleDateFormat`, and the server timestamp.
- Repository.UpdatePatch: the map is keyed by the enumeration `Field`; `FieldName` gives the
  Firestore key of each field.
- Repository.ApplyPatch: models the effect of Firestore's `update` on the
  stored fields, not the server's field-path semantics.
- Images.CompressBitmap: JPEG encoding is a function from quality to byte
  size. Bitmap decoding and Base64 encoding are left out.
- Home.HomeViewModel.LoadItems: the running listener is represented by the
  filter it was started with. Its emissions arrive through `OnItemsEmitted`.
- The first-run `lastSeen` initialisation in `MainActivity` is not
  modelled. It writes to a different preference store ("notif_prefs") than
  the one the view-model reads ("prefs"), so the stored watermark defaults
  to 0.
- `SettingsRepository`, `ImagePicker`, `MyFirebaseService` and the FCM
  topic subscription are not modelled. They are platform wrappers.
