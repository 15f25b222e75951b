# Planner core: event store, timeline geometry, repeat picker, session context

A Dafny model of the local, sequential logic of a planner mobile app. Four pieces are modelled:

- the device-local event store, which keys each event by its start date and start instant;
- the daily timeline, which turns times of day into pixel offsets and formats hour labels and time ranges;
- the repeat-rule picker (매일 daily, 매주 weekly, 매월 monthly), which holds ticked weekdays and marked dates;
- the session context, which builds the signed-in user record, records errors, and picks the screen shown after sign-in.

Modules and files:

- `Wrappers.dfy`: Option, Result and Outcome.
- `Decimal.dfy`: integer to decimal text, `padStart`, and reading digits back.
- `Text.dfy`: `startsWith`, `split(c)[0]` and string `<`.
- `EventTypes.dfy`: the event record.
- `Storage.dfy`: the event store.
- `Timeline.dfy`: the timeline.
- `RepeatOptionSelector.dfy`: the picker.
- `FirebaseAuthContext.dfy`: the session context.

Design of the model:

- The device key-value store is a `map<string, EventItem>` field of the class `Storage.EventStore`.
  Turning an event into JSON and back is treated as the identity.
  `saveEvent`, `updateEvent` and `deleteEvent` are methods that change this map.
  Each method takes a flag for whether the storage call succeeds; a failed call is caught by the source and changes nothing.
- `loadEventsForDate` is the function `Storage.LoadEventsForDate`.
  It takes the map and the key listing that `getAllKeys()` returned, in the store's own order.
  A listing of None stands for a storage call that rejected; the result is then empty.
  A listed key with no value by the time it is read decodes as `EmptyObject`, the `{}` of `JSON.parse(value || '{}')`.
- A JavaScript `Date` becomes a `Timestamp` with five independent fields:
  the ISO calendar date (UTC), the ISO time of day, the epoch milliseconds, the local hour and the local minute.
  Time zones are not modelled. `WellFormed` says the ISO date has the usual ten characters and no 'T'; that holds for the years 0000 to 9999.
- The picker (`RepeatOptionSelector.Selector`) and the session context (`FirebaseAuthContext.AuthContext`) are classes.
  Their fields are the React state variables, and their methods are the handlers.
  Each state update the source computes as an expression is also a function, and the lemmas are about those functions.
- Authentication and database results are inputs of the methods: the account, the profile document, success or an error.
  Navigation is the `Route` a method returns. A rethrown error is the `thrown` value a method returns.

Behaviour the proofs make explicit:

- Two events with the same start instant get the same key, so the later save replaces the earlier one (`SameStartOverwrites`, `SameStartLosesEarlier`).
- `updateEvent` after the start moved writes a new key and leaves the old record in place (`UpdateOrphansOldRecord`).
- `deleteEvent` removes `"event-" + <full ISO text>`. That key has a 'T' right after the date. No key `saveEvent` writes holds a 'T', because the date part is cut at the first 'T' and the millisecond part is digits with an optional '-'. This holds for every start, including years past 9999. So, on a store written by `saveEvent`, a delete removes nothing (`DeleteKeyIsNeverEventKey`, `DeleteIsNoOp`, `EventStore.DeleteEvent`).
- A date prefix shorter than ten characters, such as `2024-05`, loads events of every matching day (`ShortDatePrefixMatches`).
- Ticking and then unticking a weekday restores the list. Unticking and then re-ticking a weekday restores the set of days but moves that day to the end, so the list comes back unchanged only if that day was last (`ToggleDayTwicePresent`, `ToggleDayReorders`).
- The post-login route is decided from the profile document's `displayName`, not from the built user record. A user whose profile has no name but whose account has one gets a named user record and is still sent to the name screen (`RouteIgnoresAccountName`).
- `updateUserEmail` checks only the service account, not the context user. With no context user it leaves a user record holding only the e-mail (`WithEmail`).
- The picker emits `dates` as strings (components/RepeatOptionSelector.tsx:9), while `EventItem.repeatOption.dates` is a list of numbers (types/event.ts:22). The model keeps the two types apart: `Selection.dates` is a set of strings, `RepeatOption.dates` a sequence of integers. The conversion happens in the add-event screen; that screen is not part of this model.

## Model

| member | source | states |
|---|---|---|
| `Decimal.NatToString` | components/Timeline.tsx:96-106 | the decimal text of a non-negative integer is at least one character, all digits, one digit exactly below ten, at most two below 100, and has no leading zero unless the number is 0 |
| `Decimal.ValueOfNatToString` | components/Timeline.tsx:96-106 | reading the decimal text of n back gives n |
| `Decimal.NatToStringInjective` | hooks/storage.ts:8 | different numbers have different decimal texts |
| `Decimal.IntToString` | hooks/storage.ts:8 | the text of `getTime()` starts with '-' exactly for negative values; the rest is digits |
| `Decimal.PadStart` | components/Timeline.tsx:99-101 | `padStart`: a text already long enough is unchanged; otherwise the result has the requested width, ends with the text and is filled in front |
| `Decimal.TwoDigits` | components/Timeline.tsx:99-101 | a number below 100, padded to two characters, is its tens digit followed by its units digit |
| `Decimal.ValueOfTwoDigits` | components/Timeline.tsx:99-101 | a padded minute is all digits and reads back as the minute |
| `Text.HasPrefix` | hooks/storage.ts:21 | `startsWith(p)` holds exactly when the text is `p` followed by the rest of the text |
| `Text.HasPrefixTrans` | hooks/storage.ts:21 | a text that starts with `p` starts with every prefix of `p` |
| `Text.LexLess` | components/Timeline.tsx:49 | string `<` is irreflexive: a string is never less than itself |
| `Text.CountNoDup` | hooks/storage.ts:20 | in a listing without repetitions, a listed key occurs exactly once and an unlisted one never |
| `Text.BeforeFirst` | hooks/storage.ts:7 | `split(c)[0]` holds no `c`, is a prefix of the text, and is followed by `c` whenever it is shorter than the text |
| `Text.BeforeFirstOfJoin` | hooks/storage.ts:7 | splitting `a + c + b` at the first `c` gives `a` when `a` holds no `c` |
| `EventTypes.IsoString` | hooks/storage.ts:44 | `toISOString()` is the date, then 'T' at the position after the date, then exactly the time |
| `EventTypes.RepeatTypeName` | types/event.ts:20 | daily is written 매일, weekly 매주 and monthly 매월, and no kind shares another's name |
| `Storage.DateKey` | hooks/storage.ts:7 | `toISOString().split('T')[0]` is a prefix of the ISO text without 'T', and is the ISO calendar date when that date holds no 'T' |
| `Storage.EventKey` | hooks/storage.ts:8 | a save key starts with `"event-"` and the date part and holds no 'T'; for a well-formed start it holds the date at 6..16, '-' at 16 and the milliseconds from 17 on |
| `Storage.DeleteKey` | hooks/storage.ts:44 | a delete key starts with `"event-"` and the ISO date, and has 'T' right after the date |
| `Decimal.IntToStringChars` | hooks/storage.ts:8 | the text of `getTime()` holds nothing but digits and '-' |
| `Storage.Lookup` | hooks/storage.ts:22-23 | the parsed value of a key is a record exactly when the key has a value, and then it is the stored event |
| `Storage.Saved` | hooks/storage.ts:8-10 | a save sets exactly the event's key to the event and keeps every other entry; it keeps every record under its own key |
| `Storage.Removed` | hooks/storage.ts:44 | a removal drops exactly that key and keeps every other entry |
| `Storage.MatchingKeys` | hooks/storage.ts:21 | the filtered keys are the listed keys that start with the prefix, in listing order, each as often as it is listed, and no others |
| `Storage.LookupAll` | hooks/storage.ts:22-23 | value i is the parsed value of key i: the stored event, or the empty object for a key with no value |
| `Storage.LoadEventsForDate` | hooks/storage.ts:18-29 | a rejected storage call yields the empty list; otherwise there are no more results than listed keys |
| `Storage.CountLookupAll` | hooks/storage.ts:22-23 | on a store written by saves, a record is read once for each time its key is listed |
| `Storage.LoadExactlyOnce` | hooks/storage.ts:18-25 | on a store written by saves and a full key listing, loading a date returns each record of that date exactly once |
| `Storage.LoadMembership` | hooks/storage.ts:20-23 | a value is loaded for a date exactly when it is the parsed value of some listed key starting with `"event-" + date` |
| `Storage.SavedKeyHasDatePrefix` | hooks/storage.ts:8 | an event key starts with `"event-"` followed by any prefix of its date |
| `Storage.SaveThenLoad` | hooks/storage.ts:5-30 | after saving an event, loading its calendar date returns that event |
| `Storage.KeyPrefixIffSameDate` | hooks/storage.ts:7-21 | for a ten-character date, an event key starts with `"event-" + date` exactly when the event is on that date |
| `Storage.LoadIsolation` | hooks/storage.ts:18-25 | loading a ten-character date from a store written by saves returns only records of that date, and no empty objects |
| `Storage.LoadComplete` | hooks/storage.ts:18-25 | every stored record of a date is returned when that date is loaded |
| `Storage.ShortDatePrefixMatches` | hooks/storage.ts:21 | a shorter date prefix also returns the records of every date it begins |
| `Storage.MissingValueIsEmptyObject` | hooks/storage.ts:23 | a listed key without a value is read as an empty object, not as an error |
| `Storage.SameStartOverwrites` | hooks/storage.ts:8-10 | saving two events with the same start has the effect of saving only the second |
| `Storage.SameStartLosesEarlier` | hooks/storage.ts:8-10 | the first of two different events with the same start is then stored nowhere |
| `Storage.NotStoredElsewhere` | hooks/storage.ts:8 | in a store written by saves, an event can only be stored under its own key |
| `Storage.IntToStringInjective` | hooks/storage.ts:8 | different millisecond values give different key suffixes |
| `Storage.EventKeyInjective` | hooks/storage.ts:7-8 | equal keys of well-formed starts mean the same date and the same milliseconds |
| `Storage.UpdateOrphansOldRecord` | hooks/storage.ts:33-35 | after an update that moved the start, both the old and the new record are stored |
| `Storage.DeleteKeyIsNeverEventKey` | hooks/storage.ts:42-44 | for any two starts, the key a delete removes differs from the key a save writes (line 8): one holds a 'T', the other none |
| `Storage.DeleteIsNoOp` | hooks/storage.ts:42-47 | on a store written by saves, a delete leaves the store unchanged |
| `Storage.EventStore.constructor` | hooks/storage.ts:1 | an empty store, with every record under its own key |
| `Storage.EventStore.SaveEvent` | hooks/storage.ts:5-15 | the new store is the old one with the event saved, or unchanged when the write fails |
| `Storage.EventStore.UpdateEvent` | hooks/storage.ts:33-39 | exactly the effect of `SaveEvent` |
| `Storage.EventStore.DeleteEvent` | hooks/storage.ts:42-48 | the new store is the old one without the ISO-text key, or unchanged when the call fails; either way it equals the old store |
| `Timeline.MinutesOfDay` | components/Timeline.tsx:72-73 | minutes since midnight lie in [0, 1440) and split back into the hour and the minute |
| `Timeline.Offset` | components/Timeline.tsx:74 | an offset lies in the column and inside the block of its hour |
| `Timeline.OffsetMonotone` | components/Timeline.tsx:72-74 | one time is above another exactly when it is earlier in the day |
| `Timeline.CurrentTimeOffset` | components/Timeline.tsx:26-32 | the current-time offset is where an event starting now is drawn; it lies in [0, 1439] and inside the block of the current hour |
| `Timeline.CurrentTimeOffsetBounds` | components/Timeline.tsx:26-31 | 00:00 gives 0 and 23:59 gives 1439 |
| `Timeline.EventTop` | components/Timeline.tsx:72-74 | an event's top is the offset of its start, e.g. 09:00 is 540 |
| `Timeline.EventHeight` | components/Timeline.tsx:73-75 | top plus height is the offset of the end, e.g. 09:00 to 10:30 is 90; the height is zero or negative exactly when the end is not later in the day |
| `Timeline.EventColor` | components/Timeline.tsx:85 | the category colour when it is present and non-empty, otherwise `#e0e0e0`; never empty |
| `Timeline.ClockText` | components/Timeline.tsx:96-106 | `H:MM` has one or two hour digits, a colon and two minute digits; four characters exactly before ten o'clock |
| `Timeline.ClockTextShape` | components/Timeline.tsx:96-100 | joining hour digits, ':' and two minute digits has the clock-text shape |
| `Timeline.ParseClockOfJoin` | components/Timeline.tsx:96-100 | reading `hh:mm` gives the values of `hh` and `mm` |
| `Timeline.ParseClockText` | components/Timeline.tsx:96-100 | reading a clock text gives back the hour and the minute |
| `Timeline.ClockTextOnly` | components/Timeline.tsx:96-106 | a clock text holds only digits and ':' |
| `Timeline.ParseTimeTextOfJoin` | components/Timeline.tsx:95-106 | reading `a ~ b` gives the readings of `a` and `b` |
| `Timeline.TimeTextRoundTrip` | components/Timeline.tsx:95-106 | an event's `H:MM ~ H:MM` text reads back as its start and end hours and minutes |
| `Timeline.TimeTextInjective` | components/Timeline.tsx:95-106 | two events show the same time text only when their hours and minutes agree |
| `Timeline.EventTimeText` | components/Timeline.tsx:95-106 | the time line is 11 to 13 characters: 11 exactly when both hours are below ten, 13 exactly when neither is |
| `Timeline.RenderEvents` | components/Timeline.tsx:67-116 | one box per event, in order, spanning from the offset of its start to the offset of its end; its colour is the event colour (never empty), and it shows the event's title, location, memo and `H:MM ~ H:MM` text |
| `Timeline.TimeLabel` | components/Timeline.tsx:45-46 | label h has five characters: two digits that read as h, then `:00` |
| `Timeline.TimeLabelDigits` | components/Timeline.tsx:46 | label h is the tens digit, the units digit, then `:00`, on both branches |
| `Timeline.TimeLabels` | components/Timeline.tsx:44-56 | there are exactly 24 labels, label h for hour h |
| `Timeline.TimeLabelLess` | components/Timeline.tsx:45-46 | the label of an earlier hour is a smaller string |
| `Timeline.TimeLabelsIncreasing` | components/Timeline.tsx:45-49 | the 24 labels are strictly increasing, and so pairwise distinct as React keys |
| `Timeline.HourLines` | components/Timeline.tsx:58-65 | there are exactly 24 hour lines, line i keyed `line-i` |
| `Timeline.HourLineTop` | components/Timeline.tsx:62 | the top of line i is the start of the i-th 60-pixel block |
| `Timeline.HourLinesAlign` | components/Timeline.tsx:59-62 | line i is at i * 60, which is the offset of i:00; the line keys are distinct |
| `Timeline.IndicatorLineTop` | components/Timeline.tsx:136-143 | the midpoint of the 2-pixel current-time line is at the offset |
| `Timeline.IndicatorCircleTop` | components/Timeline.tsx:144-151 | the centre of the 12-pixel current-time circle is at the offset |
| `Timeline.IndicatorCentred` | components/Timeline.tsx:14-15 | line and circle share their centre, the offset; their tops are offset - 1 and offset - 6 |
| `RepeatOptionSelector.RemoveAll` | components/RepeatOptionSelector.tsx:25 | the filter drops every occurrence of the day, keeps every other day as often as before, and keeps their order |
| `RepeatOptionSelector.RemoveAllAbsent` | components/RepeatOptionSelector.tsx:25 | filtering out an absent day changes nothing |
| `RepeatOptionSelector.RemoveAllConcat` | components/RepeatOptionSelector.tsx:25 | filtering a concatenation filters each part |
| `RepeatOptionSelector.RemoveAllNoDup` | components/RepeatOptionSelector.tsx:25 | filtering keeps a list free of repetitions |
| `RepeatOptionSelector.ToggledDays` | components/RepeatOptionSelector.tsx:22-28 | the toggled day changes membership and no other day does; an absent day is appended at the end; a present day is removed, the rest keeping counts and order |
| `RepeatOptionSelector.ToggleDayKeepsNoDup` | components/RepeatOptionSelector.tsx:24-26 | toggling keeps a list free of repetitions |
| `RepeatOptionSelector.ToggleDayTwiceAbsent` | components/RepeatOptionSelector.tsx:24-26 | ticking then unticking a day restores the list |
| `RepeatOptionSelector.ToggleDayTwicePresent` | components/RepeatOptionSelector.tsx:24-26 | unticking then ticking a day restores the set of days, moves the day to the end, and restores the list exactly when the day was last |
| `RepeatOptionSelector.ToggleDayReorders` | components/RepeatOptionSelector.tsx:24-26 | with 월, 화 ticked, unticking and re-ticking 월 gives 화, 월 |
| `RepeatOptionSelector.ToggledDates` | components/RepeatOptionSelector.tsx:30-40 | exactly the tapped date changes membership; a newly marked date gets the selected mark; every other date keeps its mark |
| `RepeatOptionSelector.ToggleDateTwice` | components/RepeatOptionSelector.tsx:32-38 | tapping a date twice restores the set of dates, and the whole map when every mark is the usual one |
| `RepeatOptionSelector.WeekdayCells` | components/RepeatOptionSelector.tsx:69-91 | seven boxes 월 … 일 in order, each highlighted exactly when its day is ticked |
| `RepeatOptionSelector.RenderContent` | components/RepeatOptionSelector.tsx:93-104 | 매일 shows the daily text, 매주 the weekday grid, 매월 the calendar with the marked dates, any other option nothing |
| `RepeatOptionSelector.OptionButtons` | components/RepeatOptionSelector.tsx:109-132 | three buttons 매일, 매주, 매월, each checked exactly when it is the selected option |
| `RepeatOptionSelector.OptionsAreRepeatKinds` | components/RepeatOptionSelector.tsx:109 | the three option captions are, in order, the names of the event's three repeat kinds (types/event.ts:20) |
| `RepeatOptionSelector.OneButtonChecked` | components/RepeatOptionSelector.tsx:114-118 | at most one button is checked, and one is exactly when the option is one of the three |
| `RepeatOptionSelector.Selector.constructor` | components/RepeatOptionSelector.tsx:13-15 | the initial state is 매일, no days, no dates |
| `RepeatOptionSelector.Selector.HandleOptionSelect` | components/RepeatOptionSelector.tsx:18-20 | only the option changes |
| `RepeatOptionSelector.Selector.ToggleDay` | components/RepeatOptionSelector.tsx:22-28 | the days become the toggled list; option and dates unchanged; no repetitions |
| `RepeatOptionSelector.Selector.ToggleDate` | components/RepeatOptionSelector.tsx:30-40 | the dates become the toggled map; option and days unchanged; every mark the usual one |
| `RepeatOptionSelector.Selector.Content` | components/RepeatOptionSelector.tsx:93-104 | for the state's option: the daily text, the weekday grid highlighting the ticked days, the calendar with the marked dates, or nothing |
| `RepeatOptionSelector.Selector.Payload` | components/RepeatOptionSelector.tsx:43-49 | the payload is the option, the ticked days in their order, and the set of marked dates |
| `RepeatOptionSelector.Selector.PayloadMatchesContent` | components/RepeatOptionSelector.tsx:43-91 | the weekday boxes highlighted and the calendar dates marked are those the payload reports |
| `FirebaseAuthContext.RoutePath` | contexts/FirebaseAuthContext.tsx:69-75 | each route is one of the three screen paths |
| `FirebaseAuthContext.OrElse` | contexts/FirebaseAuthContext.tsx:62 | `a ?? b` is `a` when it is present, `b` otherwise |
| `FirebaseAuthContext.BuildUser` | contexts/FirebaseAuthContext.tsx:61-66 | e-mail and uid come from the account; the name from the profile, falling back to the account's; survey done only when the profile says true (the same record as at lines 119-124) |
| `FirebaseAuthContext.PostLoginRoute` | contexts/FirebaseAuthContext.tsx:69-75 | without a non-empty profile name, the name screen whatever the survey state; with a name and the survey not done, the survey; otherwise home (the same order as at lines 127-133) |
| `FirebaseAuthContext.RouteAgreesWithUser` | contexts/FirebaseAuthContext.tsx:61-75 | with a profile name, the route goes home exactly when the built user has done the survey, and to the survey exactly when not |
| `FirebaseAuthContext.RouteIgnoresAccountName` | contexts/FirebaseAuthContext.tsx:62-70 | an account name without a profile name gives a named user record, yet the route is the name screen |
| `FirebaseAuthContext.NewProfile` | contexts/FirebaseAuthContext.tsx:149-155 | the profile written on sign-up has no name and the survey not done, so it routes to the name screen |
| `FirebaseAuthContext.SignedUpUser` | contexts/FirebaseAuthContext.tsx:157-162 | the user set on sign-up has no name, the survey not done, and the account's e-mail and uid |
| `FirebaseAuthContext.SignUpThenSignIn` | contexts/FirebaseAuthContext.tsx:149-162 | signing in on the freshly written profile routes to the name screen and rebuilds the sign-up user record |
| `FirebaseAuthContext.ErrorMessage` | contexts/FirebaseAuthContext.tsx:95 | the message when it is non-empty, otherwise the fixed Korean text; never empty |
| `FirebaseAuthContext.ErrorCode` | contexts/FirebaseAuthContext.tsx:94 | the code when it is non-empty, otherwise `UNKNOWN` |
| `FirebaseAuthContext.ErrorLogLine` | contexts/FirebaseAuthContext.tsx:96 | the logged line starts with the code in brackets and ends with the message |
| `FirebaseAuthContext.WithDisplayName` | contexts/FirebaseAuthContext.tsx:193-196 | only the name changes in the user record |
| `FirebaseAuthContext.WithEmail` | contexts/FirebaseAuthContext.tsx:215-218 | only the e-mail changes in the user record; a null user becomes a record holding only the e-mail |
| `FirebaseAuthContext.AuthContext.constructor` | contexts/FirebaseAuthContext.tsx:41-44 | no user, loading, no error, not a first login |
| `FirebaseAuthContext.AuthContext.SetIsLoading` | contexts/FirebaseAuthContext.tsx:42 | the flag takes the value, which is appended to the log of values given to it |
| `FirebaseAuthContext.AuthContext.OnAuthStateChanged` | contexts/FirebaseAuthContext.tsx:47-87 | loading is set true then false on every path; no account or a failed profile read clears the user; a missing profile changes nothing; a profile sets the built user, the first-login flag and the route |
| `FirebaseAuthContext.AuthContext.HandleError` | contexts/FirebaseAuthContext.tsx:93-98 | `error` becomes the error's message or the default text; the logged line carries the code or `UNKNOWN` |
| `FirebaseAuthContext.AuthContext.ClearError` | contexts/FirebaseAuthContext.tsx:101 | `error` becomes null, nothing else changes |
| `FirebaseAuthContext.AuthContext.SignIn` | contexts/FirebaseAuthContext.tsx:104-137 | the error is cleared; success sets the built user and yields the route; failure records the message and keeps the user |
| `FirebaseAuthContext.AuthContext.SignUp` | contexts/FirebaseAuthContext.tsx:140-166 | the error is cleared; success writes the new profile and sets the signed-up user; failure records the message |
| `FirebaseAuthContext.AuthContext.SignOut` | contexts/FirebaseAuthContext.tsx:169-176 | success clears the user; failure records the message |
| `FirebaseAuthContext.AuthContext.UpdateDisplayName` | contexts/FirebaseAuthContext.tsx:179-200 | without an account or a context user, the "no signed-in user" message; on success only the name changes; errors are recorded, not rethrown |
| `FirebaseAuthContext.AuthContext.UpdateUserEmail` | contexts/FirebaseAuthContext.tsx:203-223 | without an account, the "no signed-in user" error; on success only the e-mail changes; every error is recorded and rethrown |
| `FirebaseAuthContext.AuthContext.SendPasswordReset` | contexts/FirebaseAuthContext.tsx:226-233 | a failure is recorded and rethrown; nothing else changes |
| `FirebaseAuthContext.AuthContext.DeleteAccount` | contexts/FirebaseAuthContext.tsx:236-265 | without an account, the "no signed-in user" error; success clears the user; every error is recorded and rethrown |

## Left out

- The device key-value store, the authentication service and the profile database are not modelled. Their results are inputs.
- Each storage write's failure is one flag per call: whatever makes `setItem` or `removeItem` reject is not modelled.
- JSON encoding is taken as the identity. The source writes dates as ISO text and does not parse them back on load.
- Time zones: the key's date is the UTC date, while the timeline reads the local hour and minute. The model keeps them as unrelated fields.
- An invalid `Date` is not modelled: its `toISOString()` throws, and its geometry is `NaN`.
- The order of `getAllKeys()` is an input. The order of `Object.keys` over the marked dates is not modelled: `Selector.Payload` gives the dates as a set.
- Asynchronous interleavings are not modelled: pending saves and loads, and state updaters that see a newer state.
- The one-minute timer that refreshes the current-time offset is not modelled.
- Styles, fonts, icons and the `Ionicons`/`Calendar` widgets are not modelled. What is drawn is reduced to the data the model's render functions return.
- Console logging is not modelled, except the line `handleError` builds (`ErrorLogLine`).
- The batch delete of `deleteAccount` is not modelled: which documents it removes. Its outcome is one input.
- The context also hands out `setUser` (contexts/FirebaseAuthContext.tsx:26, 282), through which screens replace `user` outright. Those direct writes are not modelled: `AuthContext` changes `user` only through its own methods.
- The listener navigates with `router.replace` (contexts/FirebaseAuthContext.tsx:70-74), and `signIn` navigates with `router.push` (lines 128-132). `Route` names only the target screen. The model does not capture whether the previous screen stays on the history stack.
- `useFirebaseAuth` throws when used outside the provider; that is React plumbing and is not modelled.
- The weekly timeline, the add-event screen and the other screens are not part of this model. The same holds for the toggle button, the progress bar and the layouts.
