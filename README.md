# Therapy Notes front end, modelled in Dafny

This project models the browser-side core of a small practice-management app for
therapists. There are two generations of the app:

- the React pages under `src/pages/`, with their shared storage helpers in `src/utils/store.ts`
  and `src/utils/sitePreferences.ts`;
- the plain scripts `js/auth.js`, `js/dashboard.js`, `src/auth.ts` and `src/dashboard.ts`.

Every page keeps its data in the browser's local storage, as JSON under fixed keys. The model
reads and writes that storage through one class, `Store.LocalStorage`. Its `items` map holds
either a JSON document or text that `JSON.parse` rejects. Each write takes a `written` flag:
`false` stands for a write the browser refused, for example because the quota was exceeded.

The modules follow the source files:

| module | file | models |
|---|---|---|
| `Common` | `common.dfy` | JavaScript string and list built-ins the pages use: `trim`, ASCII `toLowerCase`, `includes`, `indexOf`, `split`, `parseInt`, `padStart`, `String(n)`, `%` on negatives, `filter` and `filter(...).length`, `find`/`findIndex`, a stable `sort` by a numeric key, `slice(0, n)` |
| `Store` | `store.dfy` | `src/utils/store.ts`: the record shapes, `safeParse`, the getters and setters per key, `generateClientId`, the 12/24-hour time conversions, `timeAgo`, and the two delete helpers |
| `SitePreferences` | `site_preferences.dfy` | `src/utils/sitePreferences.ts`: hex colour normalisation, hex/RGB conversion, colour mixing, the accent palette and the theme mode |
| `Auth` | `auth.dfy` | `src/auth.ts`: the password-strength meter, the email/password/name/ID validators, and the login and register submit handlers |
| `LegacyAuth` | `legacy_auth.dfy` | `js/auth.js`, the script ancestor of `src/auth.ts`, proved to agree with it |
| `LoginPage` | `login.dfy` | `src/pages/Login.tsx`: its own strength meter and its laxer login and register handlers |
| `Calendar` | `calendar.dfy` | `src/pages/Calendar.tsx`: the month grid, month navigation, the per-day index of appointments, today's list, and creating and deleting appointments |
| `Insights` | `insights.dfy` | `src/pages/Insights.tsx`: the monthly earnings table (add, edit, delete, set the total), the per-day chart, the age summary and age bands, and the month's counters |
| `ClientProfile` | `client_profile.dfy` | `src/pages/ClientProfile.tsx`: `persist` and the handlers built on it, the session history, the press-and-hold age counter, and the session-count handlers (`incrementSession`, `decrementSession`, `startSessionChange`, `stopSessionChange`), which the page defines but no element calls |
| `ClientsPage` | `clients_page.dfy` | `src/pages/Clients.tsx`: search, add/edit, and delete with a tombstone |
| `Dashboard` | `dashboard.dfy` | `src/pages/Dashboard.tsx`: the overview's selectors, boxes and count labels |
| `DashboardScript` | `dashboard_script.dfy` | `src/dashboard.ts`: raw `JSON.parse` reads, the three overview boxes, the stat cards, the current-page highlight, and the add-client form |
| `LegacyDashboard` | `legacy_dashboard.dfy` | `js/dashboard.js`, the script ancestor of `src/dashboard.ts`: the login redirect, the client list with filter tabs and search, the add form, and the profile view whose listeners pile up |

Where a handler changes state in place, the model is a class. This applies to local storage,
the calendar, insights, profile and roster pages, and the clients script. A method for each
handler states the handler's whole new state. Selectors and helpers are functions. Each is
paired with a lemma or a reference definition: round trips, invariants the handlers preserve,
or membership, multiplicity and order of a filtered and sorted list.

Timestamps are integers in milliseconds. The local calendar day of an instant
(`new Date(t).getFullYear()/getMonth()/getDate()`) depends on the time zone, so it is a
function parameter `dateOf`. Random ids and `Date.now()` are parameters too. Amounts are
integers; the pages do not depend on fractional values.

## Model

| member | source | states |
|---|---|---|
| Common.TrimStartSpec | src/pages/Calendar.tsx:131 | `trimStart` removes exactly the leading white space: what is dropped is all white space, and the rest is a suffix that is empty or starts with a non-space |
| Common.TrimEndSpec | src/pages/Calendar.tsx:131 | `trimEnd` removes exactly the trailing white space |
| Common.TrimEmptyIffBlank | src/pages/Calendar.tsx:131-134 | `trim(s)` is empty exactly when every character of `s` is white space |
| Common.TrimIsInfix | src/auth.ts:120-126 | the trimmed text is a contiguous slice of the input, never longer |
| Common.ContainsEmpty | src/pages/Clients.tsx:31 | every string `includes` the empty string, so an empty query keeps everyone |
| Common.IndexOf | src/utils/store.ts:232-239 | `indexOf(c)` is the first position holding `c`, or none when `c` does not occur |
| Common.IndexOfAt | src/utils/store.ts:232-239 | a character at a position with no earlier occurrence is found there |
| Common.BeforeFirst | src/pages/Calendar.tsx:144 | the part before the first separator is a prefix free of the separator |
| Common.SecondField | src/pages/Calendar.tsx:144 | the second field of `split(':')` contains no separator |
| Common.DigitChar | src/pages/Calendar.tsx:105-106 | a digit value 0..9 is written as a digit character |
| Common.DigitValue | src/pages/Insights.tsx:166 | a digit character maps to its value 0..9, inverse of `DigitChar` |
| Common.NatToDecimal | src/pages/Dashboard.tsx:138 | `String(n)` for a natural number: non-empty digits, one digit exactly below 10, and no leading zero otherwise |
| Common.DecimalRoundTrip | src/pages/Insights.tsx:166 | reading back the decimal text of `n` gives `n` |
| Common.Zeros | src/pages/Calendar.tsx:105-106 | the padding is `k` zero characters |
| Common.LeadingZerosDoNotCount | src/pages/Calendar.tsx:151-153 | leading zeros do not change a decimal value |
| Common.PadZeros | src/pages/Calendar.tsx:105-106 | `padStart(n, '0')` has length `n`, or the input's length when that is longer |
| Common.PaddedDecimalValue | src/pages/Calendar.tsx:105-106 | a zero-padded numeral reads back as its number |
| Common.DigitPrefix | src/pages/Insights.tsx:166 | the leading digits are the longest all-digit prefix |
| Common.ParseIntOfDigits | src/pages/Calendar.tsx:151-153 | `parseInt` of a non-empty all-digit text is its decimal value |
| Common.DigitPrefixOf | src/pages/Calendar.tsx:151-153 | digits followed by a non-digit: `parseInt` reads only the digits |
| Common.JsRem | src/pages/Calendar.tsx:68 | JavaScript `%` truncates toward zero: the remainder lies strictly between `-b` and `b`, equals Dafny's for a non-negative dividend and is never positive for a negative one |
| Common.Filter | src/pages/Dashboard.tsx:29-30 | `filter` never returns more elements than it was given |
| Common.FilterMembers | src/pages/Dashboard.tsx:29-30 | an element is kept exactly when it is in the list and satisfies the predicate |
| Common.FilterConcat | src/pages/Clients.tsx:28-36 | filtering a concatenation filters each part |
| Common.FilterKeepsAll | src/pages/Clients.tsx:28-36 | a predicate true everywhere keeps the list unchanged |
| Common.FilterMultiplicity | src/pages/Clients.tsx:101 | every kept element is kept as often as it occurs |
| Common.FilterCount | src/pages/Insights.tsx:52-79 | `filter(p).length` is the number of elements that pass `p`, counted one by one |
| Common.FindFirst | src/pages/Clients.tsx:86 | `find`/`findIndex`: the first position satisfying the predicate, or none when none does |
| Common.InsertBySpec | src/pages/Dashboard.tsx:31 | inserting into a sorted list keeps it sorted and adds exactly that element |
| Common.SortBySpec | src/pages/Dashboard.tsx:29-31 | `sort((a, b) => key(a) - key(b))` yields an ascending permutation of the input |
| Common.FilterSortSpec | src/pages/Dashboard.tsx:29-31 | filter then sort: exactly the satisfying elements, each as often as it occurs, in ascending order |
| Common.Take | src/pages/Dashboard.tsx:150 | `slice(0, n)` is the prefix of length `min(n, length)` |
| Common.TakeSortedSpec | src/dashboard.ts:274 | the first `n` of a sorted list are sorted, come from the list, and no element left out has a smaller key than one kept |
| Store.SafeParseOutcomes | src/utils/store.ts:133-144 | nothing stored or "" reads as the fallback and keeps storage; corrupt text reads as the fallback and removes the key; a document reads as itself |
| Store.ReadIsIdempotent | src/utils/store.ts:133-144 | a read touches only its own key, and reading twice gives what reading once gave |
| Store.SaveThenLoad | src/utils/store.ts:146-152 | `getClients` after `saveClients(x)` returns `x`, and the other lists are unchanged |
| Store.EmptyStorageDefaults | src/utils/store.ts:94-102 | empty storage gives the default settings, no user, and empty lists |
| Store.WithoutAppointmentSpec | src/utils/store.ts:268-271 | the delete drops exactly the entries with that id, keeps the order, and is the identity for an absent id |
| Store.WithoutDeletedClientSpec | src/utils/store.ts:263-266 | the same for the tombstone list |
| Store.LocalStorage.constructor | src/utils/store.ts:105-122 | the storage starts with the given items |
| Store.LocalStorage.GetClients | src/utils/store.ts:146-148 | returns the stored clients or `[]`, clearing a corrupt entry |
| Store.LocalStorage.SaveClients | src/utils/store.ts:150-152 | a successful write stores the list so that it reads back as given; a failed write changes nothing |
| Store.LocalStorage.GetDeletedClients | src/utils/store.ts:154-156 | returns the stored tombstones or `[]`, clearing a corrupt entry |
| Store.LocalStorage.SaveDeletedClients | src/utils/store.ts:158-160 | a successful write reads back as given; a failed one changes nothing |
| Store.LocalStorage.GetAppointments | src/utils/store.ts:162-164 | returns the stored appointments or `[]`, clearing a corrupt entry |
| Store.LocalStorage.SaveAppointments | src/utils/store.ts:166-168 | a successful write reads back as given; a failed one changes nothing |
| Store.LocalStorage.GetSessions | src/utils/store.ts:170-172 | returns the stored sessions or `[]`, clearing a corrupt entry |
| Store.LocalStorage.SaveSessions | src/utils/store.ts:174-176 | a successful write stores the list under its key; a failed one changes nothing |
| Store.LocalStorage.GetEarnings | src/utils/store.ts:178-180 | returns the stored earnings or `[]`, clearing a corrupt entry |
| Store.LocalStorage.SaveEarnings | src/utils/store.ts:182-184 | a successful write reads back as given; a failed one changes nothing |
| Store.LocalStorage.GetUserData | src/utils/store.ts:186-188 | returns the stored user or none, clearing a corrupt entry |
| Store.LocalStorage.SaveUserData | src/utils/store.ts:190-192 | a successful write reads back as the user |
| Store.LocalStorage.GetSiteSettings | src/utils/store.ts:194-196 | returns the stored settings or the defaults, clearing a corrupt entry |
| Store.LocalStorage.SaveSiteSettings | src/utils/store.ts:198-200 | a successful write reads back as given |
| Store.LocalStorage.GetRoster | src/pages/Clients.tsx:24-26 | the roster page's read of the clients key, in its own client shape |
| Store.LocalStorage.SaveRoster | src/pages/Clients.tsx:80 | the roster page's write; reads back as given |
| Store.LocalStorage.GetTombstones | src/pages/Clients.tsx:91 | the roster page's read of the tombstones, in its own shape |
| Store.LocalStorage.SaveTombstones | src/pages/Clients.tsx:99 | the roster page's write of the tombstones; reads back as given |
| Store.LocalStorage.SetItem | js/dashboard.js:162 | a bare `setItem` of a JSON document, or no change when it fails |
| Store.LocalStorage.GenerateClientId | src/utils/store.ts:37-47 | the id is `NextClientId` of both stored lists, and both reads clear corrupt entries |
| Store.LocalStorage.DeleteAppointment | src/utils/store.ts:268-271 | the list is read (clearing corrupt text) and, when the write goes through, the appointments key holds the old list without that id; no other key changes |
| Store.LocalStorage.DeleteDeletedClient | src/utils/store.ts:263-266 | the tombstones are read (clearing corrupt text) and, when the write goes through, their key holds the old list without that id; no other key changes |
| Store.ClientIdDigits | src/utils/store.ts:41-43 | the captured group of `CL-(\d+)` is a non-empty run of digits |
| Store.AllClientIds | src/utils/store.ts:38-40 | the ids of the active list followed by those of the deleted list |
| Store.MaxClientNumber | src/utils/store.ts:44 | `Math.max(...numbers, 0)`: an upper bound reached by some id, or 0 |
| Store.FormatClientIdNumber | src/utils/store.ts:45-46 | a formatted id `CL-nnn` reads back as its number |
| Store.MaxClientNumberIs | src/utils/store.ts:44 | the maximum is the bound that some id reaches |
| Store.NextClientIdIsMaxPlusOne | src/utils/store.ts:37-47 | the new id is "CL-" and one more than the largest number in either list, padded to three digits |
| Store.NextClientIdIsFresh | src/utils/store.ts:37-47 | the new id differs from every active and deleted client's id |
| Store.FormatSmallClientId | src/utils/store.ts:45-46 | numbers below 10 are padded with two zeros |
| Store.FirstClientId | src/utils/store.ts:37-47 | no ids at all give "CL-001" |
| Store.NoGapFilling | src/utils/store.ts:37-47 | CL-001 and CL-003 give CL-004: gaps are not reused |
| Store.ClientIdNumberExamples | src/utils/store.ts:41-43 | the pattern is unanchored ("xCL-12" counts 12), and "CL-" alone counts 0 |
| Store.MatchTime | src/utils/store.ts:241-254 | a match of the 12-hour pattern captures non-empty hour and minute digits |
| Store.FormatTimeDisplay | src/utils/store.ts:256-260 | 24-hour mode or empty text shows the stored text; 12-hour mode converts it |
| Store.TwoDigitsCanonical | src/utils/store.ts:232-239 | a two-digit numeral is the zero-padded numeral of its value |
| Store.Format24To12OfClock | src/utils/store.ts:232-239 | "HH:MM" becomes hour % 12 (12 for 0), padded, the minutes, and AM or PM |
| Store.MatchOfClock | src/utils/store.ts:241-254 | the pattern matches "hh:mm AM/PM" with those groups |
| Store.MeridiemOfSuffix | src/utils/store.ts:247-250 | " AM"/" PM" are captured as the suffix |
| Store.BackTo24 | src/utils/store.ts:250-252 | 12 PM stays 12, other PM hours gain 12, and 12 AM becomes 0: the inverse of the 12-hour display hour |
| Store.Format24To12RoundTrip | src/utils/store.ts:232-254 | converting a padded 24-hour "HH:MM" to 12-hour text and back gives it back |
| Store.AgoBucket | src/utils/store.ts:203-214 | the bucket is "just now" under a minute, minutes under an hour, hours under a day, days under a week, and the date otherwise; each count is the floor, within its unit's range |
| Store.TimeAgoPlural | src/utils/store.ts:203-214 | the unit is singular for exactly one ("1 hour ago"), plural otherwise; under a minute reads "Just now" |
| SitePreferences.Clamp | src/utils/sitePreferences.ts:3-5 | the result lies in `[min, max]` and is the value when the value does |
| SitePreferences.HexValue | src/utils/sitePreferences.ts:19-27 | a hex digit's value is 0..15 |
| SitePreferences.HexChar | src/utils/sitePreferences.ts:29-32 | a value 0..15 is written as a lower-case hex digit |
| SitePreferences.NormalizeHex | src/utils/sitePreferences.ts:7-17 | after trimming, `#abc` doubles each digit, `#aabbcc` is kept, anything else is rejected; the result is a six-digit colour |
| SitePreferences.NormalizeLowerColor | src/utils/sitePreferences.ts:7-17 | a lower-case six-digit colour is its own normal form |
| SitePreferences.ColorIsNormalizable | src/utils/sitePreferences.ts:7-17 | every six-digit colour is accepted |
| SitePreferences.NormalizeHexTwice | src/utils/sitePreferences.ts:7-17 | normalising a normal form changes nothing but case |
| SitePreferences.HexPairValue | src/utils/sitePreferences.ts:19-27 | a pair of hex digits reads as a channel 0..255 |
| SitePreferences.HexToRgb | src/utils/sitePreferences.ts:19-27 | the three channels of the normalised colour, each 0..255, or nothing for a non-colour |
| SitePreferences.HexNumeral | src/utils/sitePreferences.ts:29-32 | `toString(16)`: lower-case hex digits reading back as the number |
| SitePreferences.ChannelHex | src/utils/sitePreferences.ts:29-32 | a clamped channel is written as exactly two lower-case hex digits |
| SitePreferences.RgbToHex | src/utils/sitePreferences.ts:29-32 | the written colour is `#` and six lower-case hex digits |
| SitePreferences.RgbToHexRoundTrip | src/utils/sitePreferences.ts:19-32 | reading back a written colour gives the clamped channels |
| SitePreferences.HexToRgbRoundTrip | src/utils/sitePreferences.ts:19-32 | writing back a read colour gives its normalised text in lower case |
| SitePreferences.WrittenColor | src/utils/sitePreferences.ts:19-32 | for six-digit input, the channels written back are the input in lower case |
| SitePreferences.MixChannelBetween | src/utils/sitePreferences.ts:34-41 | a channel mixed by a fraction in [0, 1] lies between the two ends |
| SitePreferences.MixChannelEnds | src/utils/sitePreferences.ts:34-41 | mixing by 0 keeps the channel; mixing by 1 reaches the target |
| SitePreferences.RoundBetween | src/utils/sitePreferences.ts:37-39 | `Math.round` of a quotient between two integers stays between them |
| SitePreferences.MixColor | src/utils/sitePreferences.ts:34-41 | text that is not a colour comes back unchanged; a colour gives a six-digit colour |
| SitePreferences.MixColorBetween | src/utils/sitePreferences.ts:34-41 | each mixed channel lies between the colour's own and the target's |
| SitePreferences.AccentPalette | src/utils/sitePreferences.ts:50-67 | the accent (or the default when not a colour) and its darker, lighter and softer mixes are all six-digit colours |
| SitePreferences.ResolveThemeMode | src/utils/sitePreferences.ts:43-48 | light and dark are kept; "system" follows the dark-scheme preference |
| Auth.Score | src/auth.ts:69-93 | the score is at most 6, and at most 4 for a password shorter than 8 |
| Auth.CheckPasswordStrength | src/auth.ts:69-93 | the strength is empty exactly for the empty password, and otherwise weak up to 2 points, medium up to 4, strong above |
| Auth.StrongNeedsLengthAndVariety | src/auth.ts:69-93 | a password shorter than 8 is never strong; a strong one has at least three of upper case, lower case, digit and punctuation |
| Auth.AppendNeverWeakens | src/auth.ts:69-93 | appending characters never lowers the score or the strength |
| Auth.AlphanumericHasNoSpecial | src/auth.ts:87 | letters and digits never earn the punctuation point |
| Auth.ShortLowerIsWeak | src/auth.ts:69-93 | "abc" is weak |
| Auth.MixedEightIsMedium | src/auth.ts:69-93 | "Abcdef12" is medium |
| Auth.DemoPasswordIsStrong | src/auth.ts:69-93 | the demo password is strong |
| Auth.ValidateEmailIsPattern | src/auth.ts:111-114 | reading the address from its first '@' accepts exactly what `^[^\s@]+@[^\s@]+\.[^\s@]+$` accepts |
| Auth.ValidEmailMatches | src/auth.ts:111-114 | an accepted address matches the pattern |
| Auth.MatchIsValid | src/auth.ts:111-114 | an address matching the pattern is accepted |
| Auth.ValidEmailShape | src/auth.ts:111-114 | an accepted address has no white space and exactly one '@', with text before it |
| Auth.DemoEmailIsValid | src/auth.ts:111-114 | the demo address is accepted |
| Auth.InvalidEmailExamples | src/auth.ts:111-114 | a missing dot, a second '@' and a space are each rejected |
| Auth.EmailErrorMatchesValidator | src/auth.ts:155-208 | the email field shows no message exactly when the address is accepted |
| Auth.FieldErrorsMatchValidators | src/auth.ts:214-316 | each of the password, name, ID and confirm fields shows no message exactly when its validator accepts it |
| Auth.SubmitLogin | src/auth.ts:155-208 | both fields set their messages; the user record is written exactly when both pass, named by `LoginName` |
| Auth.DemoLogin | src/auth.ts:194 | the demo pair is accepted and named "Dr. Demo Therapist" |
| Auth.OtherLoginName | src/auth.ts:194 | any other accepted sign-in is named "Dr. " and the address's part before '@' |
| Auth.SubmitRegister | src/auth.ts:214-316 | every field is checked, the terms box must be ticked, and the record is written exactly when all pass |
| LegacyAuth.CheckPasswordStrength | js/auth.js:59-83 | the script's meter gives the same strength as the module's specification |
| LegacyAuth.SubmitLogin | js/auth.js:134-179 | valid exactly when the address is accepted and the password is at least 8 long, with the same field messages |
| LegacyAuth.SubmitRegister | js/auth.js:185-281 | valid exactly when every field check passes and the terms are ticked |
| LoginPage.GetPasswordStrength | src/pages/Login.tsx:48-60 | the page's meter gives the same strength as the login script's |
| LoginPage.LoginAttempt | src/pages/Login.tsx:62-75 | an empty field is the only rejection; the record holds the address, the name `split('@')[0]` (the whole address without '@', otherwise exactly the text before the first '@'), the registration time and no ID |
| LoginPage.RegisterAttempt | src/pages/Login.tsx:77-97 | accepted exactly when no field is empty, the password has the minimum length and matches the confirmation; the first failure is reported in the order empty field, short password, mismatch; the record holds the entered name, email, ID and the registration time |
| LoginPage.HandleLogin | src/pages/Login.tsx:62-75 | on success only the user key changes, to the record (a refused write changes nothing); on failure storage is unchanged |
| LoginPage.HandleRegister | src/pages/Login.tsx:77-97 | reports the first failure only, leaving storage unchanged; on success only the user key changes, to the record |
| LoginPage.PageAcceptsMoreThanScript | src/pages/Login.tsx:62-75 | every sign-in the script accepts, the page's handler accepts; "a@b" with password "y", which also passes the browser's `type="email"` check, is one only the page accepts |
| LoginPage.ScriptRegistrationIsPageRegistration | src/pages/Login.tsx:77-97 | every registration the script accepts, the page accepts; a one-letter name is one only the page accepts |
| Calendar.DaysInMonth | src/pages/Insights.tsx:7-9 | months have 28..31 days: 31 for the seven long months, 30 for the four short ones, 29 in February exactly in a leap year |
| Calendar.Weekday | src/pages/Calendar.tsx:56 | `getDay()` is 0..6 |
| Calendar.EpochIsThursday | src/pages/Calendar.tsx:56 | the numbering agrees with JavaScript's: 1 January 1970 is a Thursday |
| Calendar.YearLength | src/pages/Calendar.tsx:55 | a year has 366 days exactly when it is a leap year |
| Calendar.MonthsFillYear | src/pages/Calendar.tsx:55 | the months of a year add up to its length |
| Calendar.MonthAfter | src/pages/Calendar.tsx:92-94 | `nextMonth` goes to the first of the following month, carrying the year |
| Calendar.MonthBefore | src/pages/Calendar.tsx:88-90 | `prevMonth` goes to the first of the previous month, carrying the year |
| Calendar.PrevNextInverse | src/pages/Calendar.tsx:88-94 | one month forward then back, or back then forward, returns to the month |
| Calendar.NextMonthDayNumber | src/pages/Calendar.tsx:54-55 | the next month starts as many days later as this month is long |
| Calendar.NextMonthWeekday | src/pages/Calendar.tsx:54-56 | the next month starts on the weekday after this month's last day |
| Calendar.FullWeeks | src/pages/Calendar.tsx:68-70 | the padded length is the first multiple of 7 at or after the filled length |
| Calendar.CalendarDays | src/pages/Calendar.tsx:51-72 | the grid is leading blanks for the first's weekday, then every day of the month in order, then blanks up to whole weeks |
| Calendar.OnDay | src/pages/Calendar.tsx:75-82 | a day's appointments are exactly those whose start falls on that day |
| Calendar.OnDayAppend | src/pages/Calendar.tsx:77-82 | one more appointment joins only its own day's list, at the end |
| Calendar.FindBucket | src/pages/Calendar.tsx:80 | `map.has(key)`: the position of the day's bucket, or none when there is none |
| Calendar.AddToIndex | src/pages/Calendar.tsx:80-81 | a new day gets a new bucket at the end; a known day gets the appointment pushed onto its bucket |
| Calendar.AddToIndexLookup | src/pages/Calendar.tsx:80-81 | after adding, that day's list ends with the appointment and other days are unchanged |
| Calendar.AddToIndexKeeps | src/pages/Calendar.tsx:77-82 | adding the next appointment keeps the index of the longer prefix |
| Calendar.SortedIndexLookup | src/pages/Calendar.tsx:84 | sorting every bucket gives, for every day, that day's appointments by start time |
| Calendar.GroupByDay | src/pages/Calendar.tsx:77-82 | the loop's result indexes all appointments by day |
| Calendar.SortBuckets | src/pages/Calendar.tsx:84 | the loop sorts each bucket by start time, keeping the keys |
| Calendar.AppointmentsByDate | src/pages/Calendar.tsx:75-86 | one non-empty sorted bucket per day with appointments, every appointment in its day's bucket, and each day's lookup equal to that day's appointments by time |
| Calendar.TodayAppts | src/pages/Calendar.tsx:168-171 | today's list is exactly the appointments on today's date, each as often as stored, by start time |
| Calendar.SelectedDayAppts | src/pages/Calendar.tsx:177-180 | nothing without a selection or for a day with no bucket; otherwise that day's bucket |
| Calendar.DurationOf | src/pages/Calendar.tsx:153 | `parseInt(d, 10) \|\| 60`: the parsed value unless it fails or is 0, which give 60 |
| Calendar.CreateSession | src/pages/Calendar.tsx:129-160 | the name, date and time are checked in that order, each with its own message; on success the appointment with the trimmed name, parsed age and duration is appended |
| Calendar.CalendarPage.constructor | src/pages/Calendar.tsx:45-48 | mounting reads the appointments and then the clients; the page holds both lists, and storage ends with each of the two keys cleared when its text was corrupt |
| Calendar.CalendarPage.PrevMonth | src/pages/Calendar.tsx:88-90 | the shown month moves one back; the list and selection are unchanged |
| Calendar.CalendarPage.NextMonth | src/pages/Calendar.tsx:92-94 | the shown month moves one forward; the list and selection are unchanged |
| Calendar.CalendarPage.GoToToday | src/pages/Calendar.tsx:96-98 | the shown month becomes today's; nothing else changes |
| Calendar.CalendarPage.OpenNewSession | src/pages/Calendar.tsx:100-113 | the selection is cleared, so the selected-day list is empty |
| Calendar.CalendarPage.OpenNewSessionOnDay | src/pages/Calendar.tsx:115-127 | the clicked day becomes the selection, so the selected-day list is that day's bucket |
| Calendar.CalendarPage.HandleCreateSession | src/pages/Calendar.tsx:129-160 | a rejected form changes nothing but the message; an accepted one appends and saves |
| Calendar.CalendarPage.DeleteAppointment | src/pages/Calendar.tsx:162-166 | the list loses the entries with that id and is saved |
| Insights.FindSlot | src/pages/Insights.tsx:172-174 | `findIndex` for a day of the month: the first matching position, or none when none matches |
| Insights.SlotCountZero | src/pages/Insights.tsx:172-174 | a slot holds no entry exactly when no entry matches it |
| Insights.UniqueSlotCount | src/pages/Insights.tsx:172-196 | with one entry per slot, an occupied slot holds exactly one |
| Insights.UpdateSlot | src/pages/Insights.tsx:97-102 | the `map` changes exactly the entries of the slot, stamping them, and keeps every other entry |
| Insights.MonthEarningsMembers | src/pages/Insights.tsx:63 | the month's entries are exactly the entries dated in that month |
| Insights.MonthTotalStep | src/pages/Insights.tsx:64 | one more entry adds its amount to its own month's total only |
| Insights.AdjustSlotTotal | src/pages/Insights.tsx:97-102 | adjusting a slot by `delta` moves its month's total by `delta` per entry in the slot |
| Insights.AdjustSlotOtherMonths | src/pages/Insights.tsx:97-102 | adjusting one slot leaves every other month's total alone |
| Insights.UpdateSlotKeepsUnique | src/pages/Insights.tsx:216-221 | changing amounts keeps at most one entry per slot |
| Insights.NaNDayPassesCheck | src/pages/Insights.tsx:164-167 | the day check as written lets ".5" through, though `parseInt` reads no day from it |
| Insights.EarnDay | src/pages/Insights.tsx:164-167 | the corrected day: accepted exactly when the field parses to a day of the month |
| Insights.EarnDayIsStricter | src/pages/Insights.tsx:164-167 | the corrected check accepts nothing the written one refuses, only days in range, and not ".5" |
| Insights.AddEarning | src/pages/Insights.tsx:163-202 | the handler with the corrected day check `EarnDay` of the Findings table (on ".5" it returns nothing, where the source stores a `NaN` day): nothing without a valid day or an amount; when the slot is occupied, its first entry (and no other) takes the new amount and time and keeps its id and date; otherwise a new entry is appended |
| Insights.AddAtSlot | src/pages/Insights.tsx:177-184 | replacing the found entry keeps the slot's count, and its entry carries the new amount |
| Insights.AddEarningKeepsUnique | src/pages/Insights.tsx:163-202 | adding keeps at most one entry per slot |
| Insights.SaveEdit | src/pages/Insights.tsx:212-227 | nothing without a day being edited or with an empty amount; otherwise every entry of that day gets the amount |
| Insights.DeleteDayMembers | src/pages/Insights.tsx:229-237 | that day's entries go; every other entry stays, as often as it occurred |
| Insights.DeleteDayKeepsUnique | src/pages/Insights.tsx:229-237 | deleting keeps at most one entry per slot |
| Insights.DeleteDayAvoids | src/pages/Insights.tsx:229-237 | deleting creates no entry in a slot that had none |
| Insights.SaveTotal | src/pages/Insights.tsx:87-122 | nothing for an empty or negative total; a month without entries gains a day-1 entry; otherwise the list keeps its length |
| Insights.SaveTotalSetsTotal | src/pages/Insights.tsx:87-122 | with one entry per slot, saving a total makes it the month's total, keeps other months' totals, and keeps one entry per slot |
| Insights.AdjustSingleSlot | src/pages/Insights.tsx:97-102 | adjusting a one-entry slot moves its month's total by exactly `delta` |
| Insights.TotalOnNewFirstDay | src/pages/Insights.tsx:105-118 | in an empty month the appended day-1 entry carries the whole total and keeps slots unique |
| Insights.DaySums | src/pages/Insights.tsx:240-245 | bar `d - 1` holds the sum of the amounts entered for day `d` |
| Insights.EarningsByDay | src/pages/Insights.tsx:240-245 | the loop's chart equals the per-day sums |
| Insights.DaySumsTotal | src/pages/Insights.tsx:240-245 | when every entry's day is in the month, the bars add up to the entries' total |
| Insights.DaySumsStep | src/pages/Insights.tsx:241-244 | one more entry adds its amount to its own day's bar only |
| Insights.ClientsAdded | src/pages/Insights.tsx:40-43 | the clients added this month are exactly those created in the month, each as often as it is stored |
| Insights.MonthAppointments | src/pages/Insights.tsx:67-70 | the month's appointments are exactly those starting in the month, each as often as it is stored |
| Insights.Ages | src/pages/Insights.tsx:126-128 | the counted ages are the ages of the clients with a non-zero age (`c.age &&` drops 0), one per such client and in their order |
| Insights.AgeDistribution | src/pages/Insights.tsx:125-133 | zeros for no ages; otherwise the least age, the greatest, and the rounded mean |
| Insights.AgeDistributionBounds | src/pages/Insights.tsx:125-133 | the least and greatest are among the ages, and the average lies between them |
| Insights.SortedEnds | src/pages/Insights.tsx:130-132 | after sorting, the first and last ages are the least and greatest |
| Insights.RoundedMean | src/pages/Insights.tsx:131 | `Math.round(s / n)` is within one half of the mean and between any bounds on the ages |
| Insights.FindBand | src/pages/Insights.tsx:151 | `ranges.find`: the first band holding the age, or none |
| Insights.BandOf | src/pages/Insights.tsx:140-151 | an age's band is one of the seven |
| Insights.FoundBand | src/pages/Insights.tsx:151 | the first band holding the age is the one found |
| Insights.BandTable | src/pages/Insights.tsx:140-148 | the bands are 0-10, then decades up to 51-60, then 60-150 |
| Insights.BandsCoverAges | src/pages/Insights.tsx:140-153 | every age 0..150 has a band, named by its decade; 60 falls in "51-60" because the first match wins; other ages have none |
| Insights.BandCountStep | src/pages/Insights.tsx:150-153 | one more age adds one to its own band's count only |
| Insights.WithCounts | src/pages/Insights.tsx:140-148 | the seven bands carry the given counts |
| Insights.CountedMembers | src/pages/Insights.tsx:155 | the kept ranges are exactly those with a count |
| Insights.AgeRangeDistribution | src/pages/Insights.tsx:135-156 | the method's ranges are the bands with a non-zero count of the ages falling first in them |
| Insights.KeepCounted | src/pages/Insights.tsx:155 | the loop keeps exactly the counted ranges, in order |
| Insights.TallyAges | src/pages/Insights.tsx:150-153 | the loop's counts are the per-band counts |
| Insights.Tallies | src/pages/Insights.tsx:150-153 | there are seven counts |
| Insights.TalliesTotal | src/pages/Insights.tsx:150-153 | the counts add up to the number of ages from 0 to 150 |
| Insights.TalliesStep | src/pages/Insights.tsx:150-153 | one more age bumps its band's tally, if it has one |
| Insights.StatusCountIsFilter | src/pages/Insights.tsx:52-53 | `filter(c => c.status === s).length` is the count of clients with status `s` |
| Insights.StatusesPartition | src/pages/Insights.tsx:52-54 | active and completed clients add up to the total |
| Insights.Metrics | src/pages/Insights.tsx:40-79 | each month counter is a count: clients created in the month, of those the active and the completed ones, tombstones dated in the month, appointments in the month and those of them after now, and follow-ups of the added clients; active plus completed is the total, sessions are scheduled plus follow-ups, and the earnings total is that of the month's entries |
| Insights.InsightsPage.constructor | src/pages/Insights.tsx:30-35 | mounting reads the clients, the tombstones, the appointments and the earnings in that order; the page holds all four lists, and storage ends with each of the four keys cleared when its text was corrupt |
| Insights.InsightsPage.Apply | src/pages/Insights.tsx:198-199 | replaces and saves the list, or does nothing |
| Insights.InsightsPage.HandleAddEarning | src/pages/Insights.tsx:163-202 | the list becomes `AddEarning`'s result with the month's length and is saved under the earnings key when it changed and the write goes through; the selected month is kept, and so is one entry per slot |
| Insights.InsightsPage.HandleSaveEdit | src/pages/Insights.tsx:212-227 | the list becomes `SaveEdit`'s result and is saved when it changed; the selected month is kept, and so is one entry per slot |
| Insights.InsightsPage.HandleDeleteDay | src/pages/Insights.tsx:229-237 | the list loses that day's entries and is saved; the selected month is kept, and so is one entry per slot |
| Insights.InsightsPage.HandleSaveTotalEarnings | src/pages/Insights.tsx:87-122 | the list becomes `SaveTotal`'s result and is saved when it changed; the selected month is kept; the month's total becomes the new total |
| ClientProfile.MergeKeepsIdentity | src/pages/ClientProfile.tsx:99 | `{...stored, ...updated}` keeps the id, contact details and creation time; an empty patch and a repeated patch change nothing more |
| ClientProfile.FindClient | src/pages/ClientProfile.tsx:97 | `findIndex`: the first client with the id, or none |
| ClientProfile.PersistSpec | src/pages/ClientProfile.tsx:94-103 | `persist` does nothing without a client or when its id is gone; otherwise it stores the merge at that position and the page shows it |
| ClientProfile.PersistKeepsFound | src/pages/ClientProfile.tsx:94-103 | after a `persist` that found its client, the client is found again at the same position, holding the merge |
| ClientProfile.WithoutRecordSpec | src/pages/ClientProfile.tsx:150 | a record delete drops exactly that id, keeps the others as often as they occur, in order |
| ClientProfile.TypedAge | src/pages/ClientProfile.tsx:329 | `Math.max(0, parseInt(v) \|\| 0)`: the parsed age when non-negative, 0 otherwise |
| ClientProfile.HistoryView | src/pages/ClientProfile.tsx:467-472 | the history is listed newest first, entry `i` numbered `length - i` |
| ClientProfile.HistoryViewNumbersEachRecord | src/pages/ClientProfile.tsx:467-472 | every record appears under its own position number |
| ClientProfile.HeldHistoryKeepsEveryTick | src/pages/ClientProfile.tsx:194-213 | with each tick building on the last, the history gains every tick's record in order |
| ClientProfile.StaleHoldLosesRecords | src/pages/ClientProfile.tsx:194-213 | as written, a hold of two or more ticks keeps only one new record |
| ClientProfile.TwoTicksKeepOneRecord | src/pages/ClientProfile.tsx:194-213 | two ticks from an empty history store one record instead of two |
| ClientProfile.ProfilePage.constructor | src/pages/ClientProfile.tsx:19-38 | no client and empty fields |
| ClientProfile.ProfilePage.Open | src/pages/ClientProfile.tsx:43-60 | the fields show the first stored client with the id and the time format comes from the settings; with no such client the page's client is unchanged and only the roster read touches storage |
| ClientProfile.ProfilePage.Persist | src/pages/ClientProfile.tsx:94-103 | storage and the page's client become `persist`'s effect |
| ClientProfile.ProfilePage.HandleSaveProfile | src/pages/ClientProfile.tsx:105-108 | persists the five profile fields and leaves edit mode |
| ClientProfile.ProfilePage.HandleSaveAll | src/pages/ClientProfile.tsx:110-113 | persists the profile fields and both notes and leaves edit mode |
| ClientProfile.ProfilePage.HandleSaveComplaints | src/pages/ClientProfile.tsx:115-117 | persists the chief complaints only |
| ClientProfile.ProfilePage.HandleSaveHopi | src/pages/ClientProfile.tsx:119-121 | persists the history of present illness only |
| ClientProfile.ProfilePage.HandleSaveSession | src/pages/ClientProfile.tsx:123-146 | appends one record to the history, persists it with both notes, and clears the form |
| ClientProfile.ProfilePage.DeleteSessionRecord | src/pages/ClientProfile.tsx:148-152 | persists the history without that record |
| ClientProfile.ProfilePage.IncrementSession | src/pages/ClientProfile.tsx:154-158 | the count goes up by one and is persisted; the handler is defined but no element of the page calls it |
| ClientProfile.ProfilePage.DecrementSession | src/pages/ClientProfile.tsx:160-164 | the count goes down by one but never below 0, and is persisted; the handler is defined but no element of the page calls it |
| ClientProfile.ProfilePage.StartAgeChange | src/pages/ClientProfile.tsx:167-175 | steps the age (never below 0) and persists the age the handler saw |
| ClientProfile.ProfilePage.AgeTick | src/pages/ClientProfile.tsx:172-174 | one tick steps the age, never below 0 |
| ClientProfile.ProfilePage.StopAgeChange | src/pages/ClientProfile.tsx:177-184 | persists the shown age |
| ClientProfile.ProfilePage.TypeAge | src/pages/ClientProfile.tsx:329 | in edit mode the age becomes the typed age; otherwise it is unchanged |
| ClientProfile.ProfilePage.StartSessionChange | src/pages/ClientProfile.tsx:186-193 | the count moves by `delta`, never below 0, and is persisted; the handler is defined but no element of the page calls it |
| ClientProfile.ProfilePage.SessionTickAsWritten | src/pages/ClientProfile.tsx:194-213 | a tick as written: the record is appended to the history of the client captured when the hold began; the handler is defined but no element of the page calls it |
| ClientProfile.ProfilePage.HoldTwoTicksAsWritten | src/pages/ClientProfile.tsx:194-213 | two ticks of one hold, run through the as-written tick: the page's client and its stored entry end with the captured history plus the second record only, which is `HeldHistoryAsWritten`; the handler is defined but no element of the page calls it |
| ClientProfile.ProfilePage.SessionTick | src/pages/ClientProfile.tsx:194-213 | the corrected tick: the record is appended to the page's current client, so consecutive ticks accumulate; the handler is defined but no element of the page calls it |
| ClientsPage.SearchSpec | src/pages/Clients.tsx:28-36 | the search keeps exactly the matching clients, as often and in the order stored; an empty query keeps everyone |
| ClientsPage.EditClients | src/pages/Clients.tsx:60-67 | every client with the edited id takes the form's five fields; the others are kept |
| ClientsPage.AddClient | src/pages/Clients.tsx:68-81 | the new client goes in front of the unchanged roster |
| ClientsPage.WithoutClientSpec | src/pages/Clients.tsx:101 | the delete drops every client with that id and keeps the others, as often and in order |
| ClientsPage.RosterPage.constructor | src/pages/Clients.tsx:24-26 | mounting loads the roster, clearing a corrupt entry |
| ClientsPage.RosterPage.OpenAdd | src/pages/Clients.tsx:38-46 | an empty form for a new client |
| ClientsPage.RosterPage.OpenEdit | src/pages/Clients.tsx:48-56 | the form shows the client, a missing phone or condition as "" |
| ClientsPage.RosterPage.HandleSubmit | src/pages/Clients.tsx:58-83 | edits the client being edited or adds a new one at the front, saves, and closes the form |
| ClientsPage.RosterPage.HandleDelete | src/pages/Clients.tsx:85-104 | an unknown id or a declined confirmation changes nothing; otherwise a tombstone goes in front of the stored ones and every client with that id leaves |
| ClientsPage.DeleteFilesTombstone | src/pages/Clients.tsx:85-104 | the tombstone read back first names the deleted client, the older ones follow, and the roster shrinks |
| ClientsPage.WithoutClientCount | src/pages/Clients.tsx:101 | deleting an id that occurs drops at least one client |
| Dashboard.CountLabelPlural | src/pages/Dashboard.tsx:138 | the label is singular exactly for one item |
| Dashboard.UpcomingAppointmentsSpec | src/pages/Dashboard.tsx:29-31 | the upcoming appointments are exactly the future ones, as often as stored, soonest first |
| Dashboard.UpcomingSessionsSpec | src/pages/Dashboard.tsx:33-35 | the upcoming sessions are exactly the future ones, soonest first |
| Dashboard.CompletedClientsSpec | src/pages/Dashboard.tsx:38-40 | the completed box holds exactly the completed clients, newest first |
| Dashboard.OverviewSpec | src/pages/Dashboard.tsx:29-281 | each box shows at most five items, the labels count whole lists, completed cases counts the tombstones, and the appointments box shows future appointments soonest first |
| DashboardScript.RawReadVersusSafeParse | src/dashboard.ts:196-217 | the script's raw `JSON.parse` throws exactly where `safeParse` falls back on corrupt text, and otherwise reads the same document |
| DashboardScript.RecentlyDeletedSpec | src/dashboard.ts:254-281 | the box shows up to five tombstones, newest first, none older than one left out |
| DashboardScript.SoonestAppointmentsSpec | src/dashboard.ts:283-316 | the box shows up to five future appointments, soonest first, none later than one left out |
| DashboardScript.NewestSessionsSpec | src/dashboard.ts:318-346 | the box shows up to five sessions, newest first, none older than one left out |
| DashboardScript.BoxLabels | src/dashboard.ts:261-297 | the deleted and sessions labels count whole lists; the appointments label counts only the (at most five) shown |
| DashboardScript.LabelsDiffer | src/dashboard.ts:297 | labels of different counts differ |
| DashboardScript.StatsSpec | src/dashboard.ts:175-190 | the cards show the client count, three sessions per client, and 0 completed |
| DashboardScript.LastSegment | src/dashboard.ts:152 | the part after the last '/': a suffix without '/' |
| DashboardScript.CurrentPageSpec | src/dashboard.ts:151-169 | the highlighted page is one of four names: clients, insights and settings exactly for their files; anything else is the dashboard |
| DashboardScript.HandleAddClient | src/dashboard.ts:462-495 | a missing required field or a corrupt roster changes nothing; otherwise the new client is appended and saved, with the success or quota message |
| DashboardScript.AddAppendsOne | src/dashboard.ts:476-488 | after the write the roster has one more client, keeps the old ones in front, and the other lists are unchanged |
| LegacyDashboard.LandingSpec | js/dashboard.js:5-13 | no user goes to login; unreadable text breaks the page; otherwise the stored clients are listed |
| LegacyDashboard.FilterClientsSpec | js/dashboard.js:210-217 | "active" and "completed" keep exactly those clients; any other tab keeps the list |
| LegacyDashboard.SearchViewSpec | js/dashboard.js:182-188 | the view is the clients whose name contains the term, filtered by the tab |
| LegacyDashboard.SessionStepFloor | js/dashboard.js:305-309 | a click never takes the count below 0 |
| LegacyDashboard.SessionStepsClosedForm | js/dashboard.js:300-314 | `n` piled-up listeners add `n`, or subtract `n` down to 0 |
| LegacyDashboard.TwoViewsOneClick | js/dashboard.js:300-314 | after two profile views one click counts twice |
| LegacyDashboard.CurrentIndex | js/dashboard.js:252 | the first client with the current id, or none |
| LegacyDashboard.CurrentIndexAfterUpdate | js/dashboard.js:291-292 | changing a client's fields but not its id keeps it current |
| LegacyDashboard.ClientsScript.constructor | js/dashboard.js:84-104 | the page starts on the "all" tab with no client open |
| LegacyDashboard.ClientsScript.ChooseFilter | js/dashboard.js:171-178 | the tab changes; nothing else does |
| LegacyDashboard.ClientsScript.Submit | js/dashboard.js:131-167 | rejected exactly when both email and phone are empty; otherwise the client is pushed, and it stays pushed if the write fails |
| LegacyDashboard.ClientsScript.ShowProfile | js/dashboard.js:251-282 | a known id opens and adds one more set of listeners; an unknown id changes nothing |
| LegacyDashboard.ClientsScript.ClickStatus | js/dashboard.js:286-297 | the current client takes the status and the list is written |
| LegacyDashboard.ClientsScript.ClickSessionAsWritten | js/dashboard.js:300-314 | each of the piled-up listeners steps the count once: the count moves by the number of views |
| LegacyDashboard.ClientsScript.ClickSession | js/dashboard.js:305-309 | the corrected click steps the count once |
| LegacyDashboard.ClientsScript.ClickSave | js/dashboard.js:317-333 | the current client takes the six fields, and one alert shows per profile view |
| LegacyDashboard.Mount | js/dashboard.js:5-13 | the clients page is built exactly when the landing is the client list |

## Left out

- Rendering and the DOM are not modelled. This covers markup, CSS classes, modals, focus and
  scrolling. The handlers are modelled by their effect on the page's state and on storage.
- Exceptions from `localStorage.setItem` are not modelled except as the `written` flag.
  The flag does not model a throw that stops a handler halfway.
- Time zones, `toLocaleDateString`, `toLocaleTimeString`, `toISOString` and `new Date(text)`
  are parameters, such as `dateOf`, `localeDate` and an ISO string. `Date.now()`,
  `crypto.randomUUID()` and `Math.random()` are parameters too.
- Floating point is not modelled. Amounts, ages and durations are integers, and `parseFloat`
  arrives as an already parsed `Option<int>`. Only the rounding that changes the result is
  written out: `Math.round` in the mean age and in colour mixing.
- Timers (`setInterval`/`clearInterval`) are not modelled. One tick is a method, and a hold is
  a sequence of ticks.
- A stored list of the wrong JSON shape reads as the fallback. Item fields of the wrong type
  are not modelled.
- Settings, Sidebar, App, DashboardLayout and the webpack configuration are not part of this
  model. They only call the helpers modelled here.
- `formatDateTime` (`src/utils/store.ts:216-229`, `src/dashboard.ts:237-252`) is not modelled.
  It only formats locale text.
- `src/dashboard.ts`'s edit of the user name on blur, its user-data load, its settings form
  and its logout are not modelled. They only copy fields into storage.
- `js/dashboard.js`'s fixed stat cards (68-82), nav-link page switching and logout are not
  modelled. They are markup and navigation.
- DashboardScript.CurrentPageSpec: property lookups of names such as "toString" on the
  page-name table are not modelled. The file name is compared with the three names directly.
- LegacyDashboard.ClientsScript.ClickStatus: the piled-up status listeners each write the
  same status. The model writes once, which leaves the same state.
- Native form validation (`required`, `type="email"`) is not modelled. The page handlers are
  modelled from the submit event on, so LoginPage.PageAcceptsMoreThanScript speaks of the
  handler; its witness "a@b" also passes the browser's email check.
- DashboardScript.HandleAddClient: the re-reads after the save (`updateStats` and
  `renderClientsList`) are not modelled. They only read the clients key, which was parsed or
  written just before, and render it.
- LegacyDashboard.ClientsScript.ClickSave: the model counts the alerts rather than showing them.
- Auth.CheckPasswordStrength and the validators: only ASCII letters, digits and the listed
  punctuation are distinguished. `\s` is modelled as the white-space set of the JavaScript
  standard (`Common.IsSpace`): the ASCII white space and the Unicode space separators, line and
  paragraph separators, no-break spaces and U+FEFF.
- ClientsPage.SearchSpec: case folding is ASCII only (`Common.ToLower` maps A-Z). JavaScript's
  `toLowerCase` folds all of Unicode, so the query "émile" finds "Émile" there and not here.
- LegacyDashboard.SearchViewSpec: the same ASCII-only case folding as the roster search.
- Auth.Score: lengths are counted in Unicode code points. JavaScript's `.length` counts UTF-16
  code units, so a character outside the Basic Multilingual Plane (an emoji) counts 2 there and
  1 here. The same holds for Auth.CheckPasswordStrength, LegacyAuth.CheckPasswordStrength,
  LoginPage.GetPasswordStrength and the password, name and ID length checks of the validators.
- LoginPage.RegisterAttempt: the minimum password length is counted in code points, so
  "😀😀😀😀" (JavaScript length 8) is too short here and long enough in the source.

## Findings

| source | as written | input that shows it | evidently intended | confidence | as-written member | corrected member |
|---|---|---|---|---|---|---|
| src/pages/Insights.tsx:164-167 | `parseInt(earnDay, 10)` gives `NaN` for text such as ".5", and the check `day < 1 \|\| day > maxDaysInMonth` is false for `NaN`, so an entry with day `NaN` is stored | earnDay ".5" (a number field accepts it) | only days 1..days-in-month are stored | not executed | Insights.NaNDayPassesCheck | Insights.EarnDay |
| src/pages/ClientProfile.tsx:194-213 | the interval callback appends to `client.sessionHistory` of the `client` captured when the hold began, so each tick overwrites the previous tick's record; the defect is latent, because no element of the page calls `startSessionChange` | two ticks of one hold from an empty history, given a caller of `startSessionChange` (the page has none) | every tick's record is kept | not executed | ClientProfile.StaleHoldLosesRecords | ClientProfile.HeldHistoryKeepsEveryTick |
| js/dashboard.js:300-314 | `removeEventListener('click', null)` removes nothing, so every profile view adds another session listener and one click steps the count once per view | open a profile twice, click "+" once: the count rises by 2 | one click steps the count once | not executed | LegacyDashboard.ClientsScript.ClickSessionAsWritten | LegacyDashboard.ClientsScript.ClickSession |
