# Agriculture office registry — verified model of the page logic

This project models the self-contained logic of a registry web application
for an agriculture office. The office registers farmers and fisherfolk,
lists and pages them, runs events where attendance is taken by scanning QR
codes, and shows a dashboard. The database, camera, spreadsheet, date and
network libraries are abstract inputs. What is left is sequential logic
over strings, integers, sequences and maps. It is modelled in Dafny and
the properties the code promises are proved.

Modules, in dependency order:

- `Wrappers`: `Option`.
- `JsText`: the JavaScript string operations the pages rely on, with their
  JavaScript meaning. These are `trim` (over the full `\s` set),
  ASCII `toLowerCase`/`toUpperCase`, `includes`, `split` on a set of
  separator characters, `parseInt` of a digit run, `slice` with clamping,
  and the UTF-16 `length`.
- `Directory`: the registrant row (`mockRecords` entries). It is shared by
  the events and records pages.
- `ScanResolver`: `findMember` of the events page. It tries the leftmost
  `\b\d{1,5}\b` token as an id, then an exact name match on the trimmed,
  lowercased text.
- `EventTime`: `parseEndDate` and `isEventDone`.
- `EventsPage`: the class `EventsPage`, holding `items` and
  `attendeesByEvent`, with `recordAttendance`, the export rows and `onAdd`.
  The class `ScanSession` is one event dialog's decode callback and its
  `lastAddedIdRef`.
- `Records`: the records page's filter, `ceil(n/10)` pagination and the
  class `RecordsPage`, with the `currentPage` state machine.
- `Registration`: the registration form. It has `validateForm` as nine
  ordered checks building a fresh error dictionary, plus `handleSubmit` and
  `handleChange`, in the class `RegistrationForm`.
- `Dashboard`: the statistics and notifications computed from the fetched
  `farmers` rows.
- `TopNav`: the WMO weather-code labels, the weather icon, the page title
  and the theme toggle.
- `Login`: the login page. `handleSubmit` is split at its `await` into
  `BeginSubmit` and `FinishSubmit` of the class `LoginPage`. It also holds
  `displayError` and the alert variant.

Inputs the program reads that are not modelled as computation:

- Each reading of the clock is a parameter: `now`, or `parseNow` and
  `checkNow` where `isEventDone` reads it twice.
- `new Date(dateStr)` is a `DateInput`: invalid, or the millisecond instant
  of local midnight of the day.
- The capture timestamp of an attendance entry is a string parameter.
- `toLocaleString` and `toLocaleDateString` are function parameters.
- The registrant directory is a sequence parameter.
- The fetched dashboard rows are a `FetchOutcome`.
- The weather response is a `WeatherAnswer`.
- The sign-in or sign-up call is an `AuthOutcome`.

Choices of the code the model keeps:

- `isEventDone` compares `end < now`: at the end instant an event is still
  open, and one millisecond later it is done (`SampleEventClosesAtThree`).
- `isEventDone` reads the clock twice. `parseEndDate` takes `new Date()`
  for an invalid date, and the comparison then takes `Date.now()`. An event
  with an invalid date is done exactly when the clock has advanced between
  the two readings (`InvalidDateDoneIffClockAdvanced`).
- `parseEndDate` takes `parts[1]`, the text between the first and second
  separator.
- The Drizzle list holds 56 and the Rain list holds 66.
- `onAdd` takes the first event's id plus one. This does not keep ids
  unique (see Findings).

## Model

| member | source | states |
|---|---|---|
| JsText.TrimStart | app/events/page.tsx:119 | the result is a suffix of the input; every dropped character is `\s`; the result does not start with `\s` |
| JsText.TrimEnd | app/events/page.tsx:119 | the result is a prefix of the input; every dropped character is `\s`; the result does not end with `\s` |
| JsText.Trim | app/events/page.tsx:119 | the result is a contiguous cut of the input between runs of `\s`, and it neither starts nor ends with `\s` |
| JsText.TrimEmptyIffAllSpace | components/registration-form.tsx:69 | `s.trim()` is empty exactly when every character of `s` is `\s` |
| JsText.TrimEmptyIffBlank | components/registration-form.tsx:69 | `!s.trim()` holds exactly when `s` is blank |
| JsText.BlankIffAllSpace | components/registration-form.tsx:69 | blank means every character is `\s` |
| JsText.ToLower | app/events/page.tsx:119 | same length, and each character is lowered one by one |
| JsText.ToUpper | app/events/page.tsx:290 | same length, and each character is raised one by one |
| JsText.Includes | app/records/page.tsx:48-51 | true exactly when the needle occurs at some index of the haystack |
| JsText.FirstCharMissingExcludes | app/login/page.tsx:70 | a haystack lacking the needle's first character does not include the needle |
| JsText.OccursAtShift | app/records/page.tsx:48-51 | an occurrence at index i+1 is an occurrence at i in the haystack without its first character |
| JsText.Split | app/events/page.tsx:283 | split returns at least one field, and no field contains a separator |
| JsText.SplitNoSeparator | app/events/page.tsx:283-284 | a text without separators splits into itself alone |
| JsText.SplitAtFirstSeparator | app/events/page.tsx:283-284 | splitting at the first separator gives the text before it, then the split of the rest |
| JsText.DigitValue | app/events/page.tsx:122 | a decimal digit's value is at most 9 |
| JsText.Pow10 | app/events/page.tsx:122 | a power of ten is at least 1 |
| JsText.DigitsValue | app/events/page.tsx:122 | `parseInt` of n digits is below 10^n |
| JsText.SliceIndex | app/dashboard/page.tsx:78 | a slice bound is clamped into 0..length |
| JsText.Slice | app/dashboard/page.tsx:78 | `slice(start, end)` with ordered non-negative bounds is the clamped sub-sequence, never longer than the input |
| JsText.Utf16Length | app/login/page.tsx:30 | the UTF-16 length lies between the number of code points and twice it, and equals it when every code point is in the BMP |
| ScanResolver.DigitRunEnd | app/events/page.tsx:120 | the run of digits from i ends at the first non-digit or at the end |
| ScanResolver.TokenEndsAtRunEnd | app/events/page.tsx:120 | a `\b\d{1,5}\b` token takes the whole digit run it starts |
| ScanResolver.TokenFrom | app/events/page.tsx:120 | the result is a token starting at or after i with no token starting before it, or there is no token from i |
| ScanResolver.FirstIdToken | app/events/page.tsx:120 | `text.match(/\b(\d{1,5})\b/)` gives the leftmost token, or none when there is no token anywhere |
| ScanResolver.FirstIdTokenUnique | app/events/page.tsx:120 | the leftmost token is unique, and it is the one the match returns |
| ScanResolver.NoTokenBeforeFirstDigit | app/events/page.tsx:120 | no token starts before the first digit |
| ScanResolver.FirstIndex | app/events/page.tsx:123 | `findIndex` gives the first satisfying index, or none exactly when nothing satisfies |
| ScanResolver.IdLookupFindsFirst | app/events/page.tsx:123 | `find(r => r.id === id)` gives the first registrant with that id, and none exactly when no registrant has it |
| ScanResolver.NameLookupFindsFirst | app/events/page.tsx:126 | the name lookup gives the first registrant whose lowercased name is the normalized text, and none exactly when there is no such registrant |
| ScanResolver.Normalize | app/events/page.tsx:119 | `text.trim().toLowerCase()` is no longer than the text and has no upper-case letter left |
| ScanResolver.FindMember | app/events/page.tsx:118-128 | the member found is always in the directory |
| ScanResolver.FindMemberResolves | app/events/page.tsx:118-128 | when the first token's value is some registrant's id, the result is the first such registrant; otherwise it is the first name match, or none |
| ScanResolver.FindMemberById | app/events/page.tsx:120-124 | the id path wins over any name match |
| ScanResolver.FindMemberByName | app/events/page.tsx:119-127 | when the first token names no registrant, the result is the name lookup on the trimmed, lowercased text |
| ScanResolver.DigitTextIsItsOwnToken | app/events/page.tsx:120 | a text of one to five digits is its own leftmost token |
| ScanResolver.IdInsidePunctuationResolves | app/events/page.tsx:120-124 | "ID:42!!" resolves to registrant 42 |
| ScanResolver.GluedAndLongRunsAreNotTokens | app/events/page.tsx:120 | "ID42" and "123456" have no token |
| ScanResolver.NameMatchIgnoresCaseAndSpaces | app/events/page.tsx:119-126 | "  juan DELA cruz " finds "Juan Dela Cruz" |
| EventTime.EndFieldAfterSeparator | app/events/page.tsx:283-284 | with a separator, `parts[1]` is the first field of the text after the first separator |
| EventTime.EndFieldWithoutSeparator | app/events/page.tsx:283-284 | without a separator, `parts[0]` is the whole text |
| EventTime.EndPartFields | app/events/page.tsx:283-284 | the end part is the trimmed field after the first separator, or the trimmed whole text |
| EventTime.SkipSpaces | app/events/page.tsx:285 | `\s*` consumes the longest run of spaces |
| EventTime.MatchAt | app/events/page.tsx:285 | a match at i starts with a digit at i, and its hour and minutes are at most 99 |
| EventTime.MatchIndexFrom | app/events/page.tsx:285 | the leftmost match index from i, with no match before it; none when no index matches |
| EventTime.FirstClockMatch | app/events/page.tsx:285 | the hour and minute groups read at most two digits each |
| EventTime.ShapeIsGreedy | app/events/page.tsx:285 | any way the expression `(\d{1,2})(?::(\d{2}))?\s*(AM\|PM)` matches at i gives the groups `MatchAt` computes |
| EventTime.MatchAtIsRegexMatch | app/events/page.tsx:285 | `MatchAt` succeeds exactly when the expression matches at i, and then yields that match's groups |
| EventTime.NoClockMatchIffNoShape | app/events/page.tsx:285 | `end.match` finds nothing exactly when the expression matches at no index |
| EventTime.ClockMatchIsLeftmost | app/events/page.tsx:285 | `end.match` yields the groups of the match at the first index where the expression matches |
| EventTime.ClockHour | app/events/page.tsx:291-292 | on hours 1..12 the 24-hour hour is in 0..23, below 12 for AM and at least 12 for PM |
| EventTime.ClockHourIsBijective | app/events/page.tsx:291-292 | on hours 1..12 the AM/PM conversion lands in 0..23, is injective, and gives back every 24-hour hour |
| EventTime.TwelveHour | app/events/page.tsx:291-292 | the 12-hour reading of a 24-hour hour is in 1..12 |
| EventTime.ClockOffset | app/events/page.tsx:288-293 | the `h` adjustments and `setHours(h, min, 0, 0)` give the offset defined by the 12-to-24-hour conversion |
| EventTime.ParseEndDate | app/events/page.tsx:281-298 | the end instant is now for an invalid date; otherwise it is the day's midnight plus the matched clock time, or 23:59 |
| EventTime.EndInstant | app/events/page.tsx:281-298 | an invalid date ends at the clock reading; a valid date ends no earlier than its midnight |
| EventTime.EndOffsetWithinDay | app/events/page.tsx:287-296 | no match gives 23:59; a match of 1..12 o'clock with minutes up to 59 ends within the day |
| EventTime.IsEventDone | app/events/page.tsx:300-303 | done when the end instant, computed with the first clock reading, lies strictly before the second reading |
| EventTime.DoneStaysDone | app/events/page.tsx:300-303 | a done event stays done as the second clock reading advances |
| EventTime.DoneIffPastEnd | app/events/page.tsx:300-303 | with a valid date, done exactly when midnight plus the end offset is strictly before now, whatever the first reading; open at the end instant itself |
| EventTime.InvalidDateDoneIffClockAdvanced | app/events/page.tsx:286-303 | an event with an unparseable date is done exactly when the second clock reading is later than the first; open when both are equal |
| EventTime.SampleEventClosesAtThree | app/events/page.tsx:281-303 | the sample event ends at 15:00; it is open at 14:59 and at 15:00 and done at 15:00 plus 1 ms |
| EventsPage.EntryFor | app/events/page.tsx:342-350 | the new roster entry copies the member's id, name, type, barangay, contact number and crop type, and carries the capture instant |
| EventsPage.WithAttendance | app/events/page.tsx:336-352 | a member already listed leaves the whole map unchanged; otherwise exactly one entry is prepended. Other events are untouched, the member is listed afterwards, and unique ids stay unique |
| EventsPage.RecordIsIdempotent | app/events/page.tsx:339-341 | recording the same member again, at any instant, changes nothing |
| EventsPage.ExportRows | app/events/page.tsx:356-368 | one row per attendee in roster order, with the attendee's fields and the event's title, date, time and venue on every row |
| EventsPage.NextEventId | app/events/page.tsx:329 | `(items[0]?.id ?? 0) + 1`: 1 for an empty list, otherwise above the first event's id (and only that one) |
| EventsPage.MaxEventId | app/events/page.tsx:329 | (reference for the corrected allocation) an upper bound of every id, 0 for none |
| EventsPage.FreshEventId | app/events/page.tsx:329 | (corrected allocation) an id of at least 1 above every current id |
| EventsPage.OnAddCollidesOnInitialEvents | app/events/page.tsx:328-331 | adding to the initial list (lines 55-96) gives id 2, which the second initial event already has, so ids are no longer unique |
| EventsPage.FreshIdKeepsIdsUnique | app/events/page.tsx:328-331 | prepending with the corrected id keeps ids unique |
| EventsPage.EventsPage.constructor | app/events/page.tsx:277-279 | the page starts with the four initial events and no rosters |
| EventsPage.EventsPage.RecordAttendance | app/events/page.tsx:336-352 | the roster map becomes `WithAttendance` of the old one; the events are unchanged; roster ids stay unique |
| EventsPage.EventsPage.ExportAttendees | app/events/page.tsx:355-368 | as many rows as the event's roster; an empty roster gives no rows |
| EventsPage.EventsPage.OnAdd | app/events/page.tsx:328-331 | the new event, with id first-id + 1 (or 1), goes in front; rosters untouched |
| EventsPage.EventsPage.OnAddFresh | app/events/page.tsx:328-331 | the corrected `onAdd`: the new event, with a fresh id, goes in front and ids stay unique |
| EventsPage.ScanSession.constructor | app/events/page.tsx:112-116 | no text, member or last id before the first scan |
| EventsPage.ScanSession.OnDecode | app/events/page.tsx:138-146 | shows the text and the member's name; records only for an open event, a found member and an id different from the last added one, and then sets the last id; otherwise nothing changes |
| EventsPage.BareIdResolves | app/events/page.tsx:120-124 | a text that is one registrant's id resolves to that registrant |
| EventsPage.SevenAndNineResolve | app/events/page.tsx:120-124 | "7" and "9" resolve to registrants 7 and 9 |
| EventsPage.TwoRegistrantsRoster | app/events/page.tsx:351 | two registrants recorded in turn are listed most recent first |
| EventsPage.ScanSevenSevenNine | app/events/page.tsx:138-146 | scans 7, 7, 9 leave the roster 9, 7: the repeat is suppressed |
| Records.Matches | app/records/page.tsx:46-52 | with an empty query and both filters at "All", every record matches |
| Records.Filter | app/records/page.tsx:44-54 | an order-preserving sublist holding exactly the records that match the type, status and search conditions |
| Records.IncludesEmpty | app/records/page.tsx:48-51 | every text includes the empty query |
| Records.NoFilterKeepsAll | app/records/page.tsx:44-54 | an empty query with both filters at "All" keeps every record, in order |
| Records.TotalPages | app/records/page.tsx:57 | `ceil(n/10)`: 0 exactly for no records, and otherwise the least page count covering n |
| Records.Page | app/records/page.tsx:58-61 | page p (from 1) holds at most ten items, and its k-th item is item (p-1)*10+k of the list |
| Records.PageIsWindow | app/records/page.tsx:58-61 | page p holds at most ten items, starting at item (p-1)*10, and is empty past the end |
| Records.PagesUpToIsPrefix | app/records/page.tsx:58-61 | the first k pages together are the first min(10k, n) items |
| Records.AllPagesRebuildList | app/records/page.tsx:57-61 | all pages in order rebuild the filtered list |
| Records.RecordsPage.constructor | app/records/page.tsx:34-40 | empty query, both filters "All", page 1, and every record listed |
| Records.RecordsPage.ShownCount | app/records/page.tsx:159 | the shown count is at most the filtered count and at most ten |
| Records.RecordsPage.SetSearchQuery | app/records/page.tsx:106-108 | the new query and page 1; filters kept |
| Records.RecordsPage.SetFilterType | app/records/page.tsx:119-121 | the new type filter and page 1; other inputs kept |
| Records.RecordsPage.SetFilterStatus | app/records/page.tsx:140-142 | the new status filter and page 1; other inputs kept |
| Records.RecordsPage.Previous | app/records/page.tsx:283 | `max(p - 1, 1)`: never below page 1 |
| Records.RecordsPage.Next | app/records/page.tsx:291 | `min(p + 1, totalPages)`: never past the last page |
| Records.RecordsPage.HandleDeleteRecord | app/records/page.tsx:71-74 | only logs the id and changes nothing |
| Registration.SetChangesOnlyThatField | components/registration-form.tsx:109 | the set field has the new value and every other field is unchanged |
| Registration.CheckAt | components/registration-form.tsx:69-95 | each of the nine checks is on a required field |
| Registration.ErrorsAfterStep | components/registration-form.tsx:69-95 | one more check extends the dictionary by that check's step |
| Registration.RequiredErrors | components/registration-form.tsx:67-95 | the error dictionary holds exactly the required fields that fail their check, each with its non-empty message |
| Registration.ChainIsRequiredErrors | components/registration-form.tsx:67-95 | the nine conditional insertions in source order build `RequiredErrors` |
| Registration.CheckAtPosition | components/registration-form.tsx:69-95 | a required field is checked at its position |
| Registration.PositionOfCheckAt | components/registration-form.tsx:69-95 | the k-th check's field has position k |
| Registration.ErrorsAfterContents | components/registration-form.tsx:67-95 | after k checks, a field has an error exactly when it is among the first k and fails, and its value is its message |
| Registration.AllChecksGiveRequiredErrors | components/registration-form.tsx:67-95 | after all nine checks the dictionary holds exactly the failing required fields with their messages |
| Registration.OptionalFieldsNeverFail | components/registration-form.tsx:66-96 | no optional field ever gets an error |
| Registration.NoErrorsIffAllChecksPass | components/registration-form.tsx:98 | the dictionary is empty exactly when every required check passes |
| Registration.WhitespaceAgePassesWhitespaceNameFails | components/registration-form.tsx:69-74 | a whitespace-only age passes; the same full name fails |
| Registration.InitialFormErrors | components/registration-form.tsx:41-95 | the untouched form is flagged on every required field except type |
| Registration.TrimsToEmpty | components/registration-form.tsx:69 | `!s.trim()` is true exactly for blank text |
| Registration.Check | components/registration-form.tsx:69-95 | one `if`: the field's error is added exactly when its check fails (trimmed or exact, by field) |
| Registration.CollectErrors | components/registration-form.tsx:67-96 | the fresh dictionary is exactly the failing required fields with their messages |
| Registration.RegistrationForm.constructor | components/registration-form.tsx:41-64 | the initial data and no errors |
| Registration.RegistrationForm.Validate | components/registration-form.tsx:66-99 | the errors are replaced wholesale by the fresh dictionary; true exactly when it is empty |
| Registration.RegistrationForm.HandleSubmit | components/registration-form.tsx:101-106 | validates, and hands on the current data exactly when there are no errors |
| Registration.RegistrationForm.HandleChange | components/registration-form.tsx:108-114 | sets only the named field; blanks its error only when it had a non-empty one; other errors kept |
| Dashboard.CountStatus | app/dashboard/page.tsx:60 | at most the row count; 0 exactly when no row has the status, the total exactly when all do |
| Dashboard.CountType | app/dashboard/page.tsx:62-63 | at most the row count; 0 exactly when no row has the type, the total exactly when all do |
| Dashboard.CountTypeAppend | app/dashboard/page.tsx:62-63 | counting over two batches adds the counts |
| Dashboard.DistinctTypesBounded | app/dashboard/page.tsx:62-63 | counts of two different types add up to at most the total |
| Dashboard.Percentage | app/dashboard/page.tsx:71-74 | 0 for a zero total; within 0..100 for a part of a positive total |
| Dashboard.PercentagesComplement | app/dashboard/page.tsx:71-72 | the shares of a part and of the rest sum to 100 |
| Dashboard.ComputeStats | app/dashboard/page.tsx:59-75 | total and counts as defined; active + inactive = total; farmers + fisherfolk ≤ total; all zero for no rows; active and inactive shares sum to 100 otherwise |
| Dashboard.NotificationsFrom | app/dashboard/page.tsx:79-84 | one notification per row in order, with consecutive ids, the registration message, the formatted date and type success |
| Dashboard.Notifications | app/dashboard/page.tsx:78-84 | min(5, n) notifications with ids 1..k built from the first rows |
| Dashboard.AfterFetch | app/dashboard/page.tsx:46-91 | loading ends; no client or a query error keeps the zero stats and no notifications; fetched rows give their stats |
| TopNav.Classify | components/top-nav.tsx:62-68 | a condition found holds the code in its list |
| TopNav.MapWeatherCode | components/top-nav.tsx:61-70 | the label is that of a list holding the code, or "Weather" for a code in no list |
| TopNav.WeatherListsDisjoint | components/top-nav.tsx:62-68 | no code is in two lists |
| TopNav.ClassifyNoneIffUnlisted | components/top-nav.tsx:62-69 | the chain of tests finds nothing exactly for unlisted codes |
| TopNav.ClassifyMatchesTable | components/top-nav.tsx:62-68 | the chain of tests gives condition c exactly for the codes in c's list |
| TopNav.LabelsDistinct | components/top-nav.tsx:62-69 | listed labels differ from each other and from "Weather" |
| TopNav.WeatherLabelOfAnyList | components/top-nav.tsx:61-70 | a code in a list gets that list's label |
| TopNav.UnlistedIsWeather | components/top-nav.tsx:69 | "Weather" exactly for unlisted codes |
| TopNav.AfterWeatherFetch | components/top-nav.tsx:36-48 | a reading gets its code's label; a missing reading keeps the state; an error gives the 30°, code 1, "Cloudy" fallback |
| TopNav.WeatherFetchKeepsLabelled | components/top-nav.tsx:41-47 | every reading on display carries its own code's label, the fallback included |
| TopNav.WeatherIcon | components/top-nav.tsx:80-85 | no reading shows Cloud; Sun exactly for code 0 |
| TopNav.RainIconIffRainLabel | components/top-nav.tsx:61-85 | CloudRain exactly for the codes labelled "Rain" |
| TopNav.PageTitle | components/top-nav.tsx:91-101 | the title is always one of the five titles |
| TopNav.FirstSegmentDecides | components/top-nav.tsx:92 | only the first path segment decides the title |
| TopNav.SegmentTitle | components/top-nav.tsx:92-100 | a known segment gets its title; an unknown or empty one gets "Dashboard" |
| TopNav.NextTheme | components/top-nav.tsx:138 | "light" exactly after "dark", "dark" otherwise |
| TopNav.ToggleTwiceRestores | components/top-nav.tsx:138 | two toggles from a named theme restore it |
| Login.GuardMessage | app/login/page.tsx:25-33 | no message exactly when both fields are filled and the password has at least 6 UTF-16 units; the fill-in message exactly when a field is empty |
| Login.EmptyPasswordIsMissingField | app/login/page.tsx:25-33 | an empty password gives the fill-in message, not the length message |
| Login.ShortPasswordReported | app/login/page.tsx:30-33 | a filled-in password under 6 units gives the length message |
| Login.DisplayError | app/login/page.tsx:52 | the local message unless it is null or empty, else the context error |
| Login.AlertFor | app/login/page.tsx:69-70 | no alert for no message; the default variant exactly when the message contains "Check your email" |
| Login.ConfirmationIsDefaultAlert | app/login/page.tsx:40-70 | the sign-up confirmation shows as a default alert |
| Login.GuardMessagesAreDestructive | app/login/page.tsx:26-70 | both guard messages show as destructive alerts |
| Login.LoginPage.constructor | app/login/page.tsx:15-19 | empty fields, not loading, sign-in mode, no message, no navigation |
| Login.LoginPage.SetSignUp | app/login/page.tsx:111-121 | the mode links set the mode |
| Login.LoginPage.BeginSubmit | app/login/page.tsx:22-35 | the message is cleared; the auth call follows exactly when the guard passes, with loading raised; otherwise the guard's message and loading unchanged |
| Login.LoginPage.FinishSubmit | app/login/page.tsx:37-49 | sign-up success shows the confirmation; sign-in success goes to /dashboard; failure shows the error's message or "Authentication failed"; loading ends in every case |

## Left out

- Camera scanner lifecycle (`app/events/page.tsx:130-166` outside the decode callback): the dynamic import, `start`, `stop`, `destroy` and the mount flag are device I/O. Only the decode step is modelled.
- Spreadsheet file and download (`XLSX`, `Blob`, anchor click): foreign libraries and DOM. Only the rows handed to the sheet are modelled.
- Browser date handling: `new Date(dateStr)` is an abstract `DateInput`, and the date and time formatters are function parameters. Time zones, daylight saving and the Date range limit are not modelled. `setHours` is modelled as a linear offset from midnight.
- Character case: `toLowerCase` and `toUpperCase` are ASCII-only here. Non-ASCII case mapping is not modelled.
- `mockRecords` comes from a module that is not part of this model, so the directory is a sequence parameter.
- Dashboard percentages are exact rationals, not IEEE doubles. The `|| 0` fallbacks are subsumed by treating `null` data as no rows.
- The database query, weather fetch, geolocation and one-second clock interval are asynchronous I/O. Their results are inputs (`FetchOutcome`, `WeatherAnswer`), and the clock is not modelled.
- The sign-in and sign-up calls are an abstract `AuthOutcome`. The auth context and router are not modelled; only the pushed route is recorded.
- TopNav.PageTitle: `titles[segment]` on a JavaScript object also finds inherited keys such as `constructor`. The model looks up the five own keys only.
- Records.RecordsPage.Previous: requires the controls to be shown, because the button exists only when `totalPages > 1`.
- Records.RecordsPage.Next: requires the controls to be shown, for the same reason.
- Registration.CollectErrors: the nine `if` statements are written as nine calls of one `Check` method, each performing that field's test in source order.
- Components other than the six pages (the sidebar, layout, charts, notifications panel, record modal, settings and registration wrapper pages, the database wrappers, and mock accounts) have no logic of their own to model, or only UI state.

## Findings

| source | as written | input that shows it | evidently intended | confidence | as-written member | corrected member |
|---|---|---|---|---|---|---|
| app/events/page.tsx:329 | `onAdd` gives the new event the id of the first current event plus one | the initial list (ids 1, 2, 3, 4): the new event gets id 2, which the second initial event already has | an id above every current id, so events stay distinguishable by id | high (not executed) | EventsPage.OnAddCollidesOnInitialEvents | EventsPage.FreshIdKeepsIdsUnique |
