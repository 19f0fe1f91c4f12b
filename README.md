# Exit Strategy: the sequential rules behind the screens

Exit Strategy is a small mobile app that fakes an incoming phone call so its
user can leave a conversation. Almost all of it is markup. This project models
the small rules that sit under the markup, and proves what they promise:

- **Contacts** (`contacts.dfy`): the contact list editor. It holds an ordered
  list of contacts and an add/edit form. Saving rewrites every entry with the
  edited id, or appends a new contact. Deleting filters by id.
- **Schedule** (`schedule.dfy`): the list of scheduled calls, the quick-option
  picker, the `m:ss` label of the chosen offset, and the countdown
  (`{s}s` or `{m}m {s}s`) beside each call.
- **FakeCall** (`fakecall.dfy`): the call overlay. It rings until answered,
  then counts seconds and shows them as `MM:SS`. It is modelled twice: as a
  class with the component's fields, and as a pure state machine (`Step`,
  `Run`) that the class methods are proved against.
- **Home** (`home.dfy`): the escape-delay choice, the custom-minutes field
  with its `max(1, parseInt(v) || 1)` coercion, and the delay the Quick
  Escape button sends.
- **App** (`app.dfy`): the shell. It maps tab ids to screens and holds the
  armed escape timers and the overlay. It shows either the overlay or the
  active screen with the navigation, never both.
- **IdLists** (`idlists.dfy`): `filter(x => x.id !== id)`, shared by contact
  deletion and call cancellation.
- **Text** (`text.dfy`): JavaScript's `toString` for whole numbers,
  `padStart(2, '0')` and `parseInt`. It also holds the decoders for the
  clock and countdown formats, which the formatters are proved against.

Each screen's state is a class. Its fields are the component's state
variables, and its methods are the component's handlers. The list and text
transforms inside the handlers are functions with lemmas. The clock
(`Date.now()`) and clock-derived ids are method parameters. An armed
`setTimeout` is an entry in a multiset of due times, and `Fire` takes the
earliest one. The per-second interval of the answered call is a `Tick`
method, which the shell reaches through `Second`.

Where a fuller design would do more, the model follows the code:

- Arming a second escape timer does not cancel the first. Every timer that
  goes off shows the call.
- The call always shows the fixed caller "Mom" / "+1 (555) 123-4567". It
  takes no contact snapshot at arm time.
- Scheduling has no hours field and no "Please set a time" rejection.
- The schedule screen lists every call as upcoming. No call is ever split out
  as due or past.

## Model

| member | source | states |
|---|---|---|
| Contacts.UpdateById | src/components/screens/ContactsScreen.tsx:69-73 | saving an edit keeps the list length. Each entry keeps its id and position. Entries with the edited id take the form's name, phone, relationship and image. Every other entry is unchanged |
| Contacts.NewContact | src/components/screens/ContactsScreen.tsx:76-80 | an added contact has the given id and the form's fields. Its image is never empty: an empty form image becomes the default image, and a non-empty one is kept |
| Contacts.EditSaveUnchanged | src/components/screens/ContactsScreen.tsx:55-73 | editing a listed contact and saving the form as loaded leaves the list unchanged, when ids are unique |
| Contacts.UpdateKeepsSavable | src/components/screens/ContactsScreen.tsx:69-73 | saving an edit from a form with a name and a phone keeps every contact's name and phone non-empty |
| Contacts.DeleteKeepsSavable | src/components/screens/ContactsScreen.tsx:87-89 | deleting keeps every remaining contact's name and phone non-empty |
| Contacts.DefaultContactsWellFormed | src/components/screens/ContactsScreen.tsx:19-34 | the two starting contacts have names and phones and distinct ids |
| Contacts.AppendFreshKeepsUnique | src/components/screens/ContactsScreen.tsx:76-81 | appending a contact under an id no entry carries keeps ids unique |
| Contacts.ContactsScreen.constructor | src/components/screens/ContactsScreen.tsx:37-45 | the screen starts with the default contacts, the form closed and empty, and no contact being edited |
| Contacts.ContactsScreen.AddNew | src/components/screens/ContactsScreen.tsx:49-53 | "Add New" empties the form, clears the edited contact and opens the form. The list is unchanged |
| Contacts.ContactsScreen.Edit | src/components/screens/ContactsScreen.tsx:55-64 | editing a listed contact loads its fields into the form, records it as the edited contact and opens the form. The list is unchanged |
| Contacts.ContactsScreen.CancelEdit | src/components/screens/ContactsScreen.tsx:100 | cancel closes the form and changes nothing else. The edited contact is not cleared |
| Contacts.ContactsScreen.SetName | src/components/screens/ContactsScreen.tsx:131 | typing a name replaces only the form's name |
| Contacts.ContactsScreen.SetPhone | src/components/screens/ContactsScreen.tsx:141 | typing a phone replaces only the form's phone |
| Contacts.ContactsScreen.SetRelationship | src/components/screens/ContactsScreen.tsx:150 | choosing one of the listed relationships replaces only the form's relationship |
| Contacts.ContactsScreen.Save | src/components/screens/ContactsScreen.tsx:66-85 | save is enabled only with a name and a phone. With an edited contact it updates by id. Otherwise it appends exactly one new contact at the end. The form closes, no contact stays edited, and every contact keeps a name and a phone |
| Contacts.ContactsScreen.Delete | src/components/screens/ContactsScreen.tsx:87-89 | the new list is the old one without the entries carrying the id. Every contact keeps a name and a phone |
| IdLists.WithoutId | src/components/screens/ContactsScreen.tsx:88 | the result holds no entry with the id. Every entry it holds comes from the input. Every input entry with another id survives |
| IdLists.WithoutAbsentId | src/components/screens/ContactsScreen.tsx:88 | removing an id no entry carries is a no-op |
| IdLists.WithoutIdIdempotent | src/components/screens/ScheduleScreen.tsx:45 | removing the same id twice is the same as removing it once |
| IdLists.WithoutIdConcat | src/components/screens/ScheduleScreen.tsx:45 | removal distributes over concatenation, so the survivors keep their relative order |
| IdLists.WithoutIdLength | src/components/screens/ContactsScreen.tsx:88 | exactly the entries carrying the id are removed: the length drops by their count |
| Schedule.RemainingSeconds | src/components/screens/ScheduleScreen.tsx:53 | the seconds left are never negative. They are 0 exactly when the target is less than a second away or past. Otherwise they are the whole seconds in the difference |
| Schedule.NewCall | src/components/screens/ScheduleScreen.tsx:34-39 | a scheduled call carries the given id, is from Mom for "2 minutes", and shows exactly the chosen number of seconds left at the moment it is added |
| Schedule.Countdown | src/components/screens/ScheduleScreen.tsx:52-58 | the countdown ends in `s` and has no minus sign. It has a minutes part exactly when 60 or more seconds are left |
| Schedule.CountdownRoundTrip | src/components/screens/ScheduleScreen.tsx:52-58 | the countdown text decodes back to exactly the seconds left. The decoder accepts `{d}s` only for `d` below 60, and `{m}m {s}s` only for `m` of at least 1 and `s` below 60, with no leading zeros |
| Schedule.CountdownUnique | src/components/screens/ScheduleScreen.tsx:52-58 | a text decodes to the seconds left exactly when it is the countdown. So the minutes are `floor(d/60)` and the seconds `d % 60`, and 65 seconds can only show as `1m 5s`, never as `65s`, `0m 65s` or `1m 05s` |
| Schedule.CountdownZero | src/components/screens/ScheduleScreen.tsx:53-54 | the countdown is `0s` exactly when the target is less than a second away or already past |
| Schedule.RemainingMonotone | src/components/screens/ScheduleScreen.tsx:53 | as the clock advances, the seconds left never grow |
| Schedule.CustomTimeLabelRoundTrip | src/components/screens/ScheduleScreen.tsx:103 | the `m:ss` label decodes to minutes and seconds with `m*60 + ss` equal to the selected time, the seconds below 60 |
| Schedule.CustomTimeLabel | src/components/screens/ScheduleScreen.tsx:103 | the label has at least four characters and its colon is third from the end, so the seconds are always written with exactly two digits. Everything before the colon is the minutes as a plain numeral, with no padding zero (`0:30`, not `00:30`) |
| Schedule.ScheduleScreen.constructor | src/components/screens/ScheduleScreen.tsx:14-24 | the screen starts with one call from Mom due 30 seconds after now, the form closed, and 30 seconds selected |
| Schedule.ScheduleScreen.OpenForm | src/components/screens/ScheduleScreen.tsx:65 | the header button opens the form |
| Schedule.ScheduleScreen.CloseForm | src/components/screens/ScheduleScreen.tsx:113 | the form's cancel button closes it |
| Schedule.ScheduleScreen.SelectQuickTime | src/components/screens/ScheduleScreen.tsx:84 | the offset is set only from the quick options, so it is always 30, 60, 300 or 600 |
| Schedule.ScheduleScreen.ScheduleCall | src/components/screens/ScheduleScreen.tsx:33-42 | scheduling appends exactly one call: due at `now + selectedTime*1000`, caller Mom, duration "2 minutes". Earlier calls are unchanged and the form closes |
| Schedule.ScheduleScreen.Cancel | src/components/screens/ScheduleScreen.tsx:44-46 | cancelling leaves the old list without the calls carrying the id |
| Schedule.ScheduleScreen.TimeLabel | src/components/screens/ScheduleScreen.tsx:103 | the label shown is the `m:ss` label of the selected time, with exactly two seconds digits, and it decodes to the selected minutes and seconds. The minutes never exceed 10 |
| FakeCall.FormatDurationRoundTrip | src/components/screens/FakeCallScreen.tsx:32-36 | the `MM:SS` text decodes to minutes and seconds with `mins*60 + secs` equal to the input, and the seconds are below 60 |
| FakeCall.FormatDuration | src/components/screens/FakeCallScreen.tsx:32-36 | the `MM:SS` text has at least five characters and its colon is third from the end: at least two minute digits and exactly two second digits. The minutes are a plain numeral, or a single zero before one digit in a five-character text (`00:05`, never `000:05`) |
| FakeCall.FormatDurationNotIncoming | src/components/screens/FakeCallScreen.tsx:63 | a formatted duration never equals the ringing status text |
| FakeCall.Step | src/components/screens/FakeCallScreen.tsx:22-40 | after the event the call is answered exactly when it was already answered or the event is an answer tap. A second adds exactly 1 to the duration while answered and nothing while ringing. A ringing call keeps duration 0 |
| FakeCall.Run | src/components/screens/FakeCallScreen.tsx:22-40 | after a run of events the call is answered exactly when it was answered at the start or an answer tap came. A ringing call keeps duration 0 throughout |
| FakeCall.RunAnswered | src/components/screens/FakeCallScreen.tsx:22-30 | once answered, the call stays answered, and its duration grows by the number of seconds that pass |
| FakeCall.RunFromInitial | src/components/screens/FakeCallScreen.tsx:19-40 | from the first state, the call is answered exactly when an answer tap has come. Its duration is the number of seconds after the first tap |
| FakeCall.FakeCallScreen.constructor | src/components/screens/FakeCallScreen.tsx:19-20 | an overlay starts ringing, with duration 0 |
| FakeCall.FakeCallScreen.Answer | src/components/screens/FakeCallScreen.tsx:38-40 | answering steps the state by an answer tap |
| FakeCall.FakeCallScreen.Tick | src/components/screens/FakeCallScreen.tsx:22-30 | one interval second steps the state by a second |
| FakeCall.FakeCallScreen.Status | src/components/screens/FakeCallScreen.tsx:63 | the status is "Incoming call" while ringing. Once answered it is the `MM:SS` text of the duration, which differs from "Incoming call" and decodes to the duration's minutes and seconds |
| FakeCall.FakeCallScreen.Offered | src/components/screens/FakeCallScreen.tsx:84-98 | decline is always offered. Answer is offered exactly while ringing |
| Home.CoerceMinutes | src/components/screens/HomeScreen.tsx:75 | the custom minutes are always at least 1. A parsed value of 1 or more is kept as it is. NaN, 0 and negative values become 1 |
| Home.CoerceMinutesShow | src/components/screens/HomeScreen.tsx:70-75 | typing any whole number of 1 or more keeps it. Numbers above the field's `max="60"` are kept too |
| Home.CoerceMinutesZero | src/components/screens/HomeScreen.tsx:75 | typing `0` gives 1 |
| Home.CoerceMinutesEmpty | src/components/screens/HomeScreen.tsx:75 | clearing the field (NaN) gives 1 |
| Home.EscapeSeconds | src/components/screens/HomeScreen.tsx:30 | with a listed option and at least one custom minute, the delay sent is at least 30 seconds, and at least 60 for Custom |
| Home.HomeScreen.constructor | src/components/screens/HomeScreen.tsx:11-12 | the screen starts with 30 seconds selected and 1 custom minute |
| Home.HomeScreen.SelectOption | src/components/screens/HomeScreen.tsx:51 | the selection is set only from the options, so it is always 30, 300 or 0 |
| Home.HomeScreen.ChangeCustomMinutes | src/components/screens/HomeScreen.tsx:75 | a field change stores the coerced minutes, which stay at least 1 |
| Home.HomeScreen.QuickEscape | src/components/screens/HomeScreen.tsx:30 | the button sends `customMinutes*60` when Custom (0) is selected and the selected option otherwise. It is never below 30 |
| Text.Show | src/components/screens/FakeCallScreen.tsx:35 | a whole number's decimal text is non-empty digits with no leading zero, and it reads back as the number |
| Text.PadStart2 | src/components/screens/FakeCallScreen.tsx:35 | padding gives at least two characters. It only puts zeros in front of the text |
| Text.ParseIntShow | src/components/screens/HomeScreen.tsx:75 | `parseInt` of a whole number's decimal text gives the number back |
| Text.ParseInt | src/components/screens/HomeScreen.tsx:75 | `parseInt` gives NaN unless the text holds a decimal digit 0-9 (a hex read needs the `0` of `0x`), and a negative result only when the text holds a minus sign |
| Text.NumeralShow | src/components/screens/ScheduleScreen.tsx:54-57 | a decimal numeral without leading zeros is exactly the text `toString` writes for its value |
| Text.ParseCountdownCanonical | src/components/screens/ScheduleScreen.tsx:54-57 | the countdown decoder accepts only the texts the countdown writes: what it reads as `n` seconds is `{n}s` below a minute and `{n/60}m {n%60}s` from a minute on |
| App.RenderScreen | src/pages/Index.tsx:27-40 | each tab id maps to the screen filed under it. Any id no screen is filed under falls back to Home |
| App.RenderScreenTabFor | src/pages/Index.tsx:27-40 | every screen is shown under its own tab id ('escape', 'contacts', 'schedule', 'settings') |
| App.NavTabsScreens | src/components/ui/bottom-nav.tsx:8-12 | the three navigation tabs reach three different screens, and none of them is Contacts |
| App.HomeDelayMs | src/pages/Index.tsx:14-21 | what Home sends is never 0, so the 30-second fallback is never taken from there. The timer it arms is `seconds*1000` ms, at least 30000 |
| App.TimerDelayMs | src/pages/Index.tsx:14-21 | a non-zero request arms `seconds*1000` ms, 0 arms 30000 ms, and no non-negative request goes off sooner than a second |
| App.Shell.constructor | src/pages/Index.tsx:11-12 | the shell starts on 'escape' with no call showing and no timer armed |
| App.Shell.SetActiveTab | src/pages/Index.tsx:56 | a navigation tap sets the active tab to one of the three tabs the navigation offers, so the shell never shows Contacts |
| App.Shell.HandleQuickEscape | src/pages/Index.tsx:14-21 | arming adds one timer due after 30000 ms for 0 and after `seconds*1000` ms otherwise. Earlier timers stay armed |
| App.Shell.QuickEscapeFromHome | src/pages/Index.tsx:14-30 | Home's button arms exactly one more timer, `EscapeSeconds(selectedTime, customMinutes)*1000` ms ahead, which is at least 30 seconds |
| App.Shell.Fire | src/pages/Index.tsx:17-19 | the earliest timer goes off and the call shows. If the call already showed, the same overlay stays. Otherwise a fresh overlay rings with duration 0. The tab is unchanged |
| App.Shell.HandleEndCall | src/pages/Index.tsx:23-25 | ending the call hides it. Armed timers and the tab are unchanged |
| App.Shell.Decline | src/components/screens/FakeCallScreen.tsx:42-44 | decline ends the call whether or not it was answered |
| App.Shell.Answer | src/components/screens/FakeCallScreen.tsx:38-40 | the answer button, offered only while ringing, steps the overlay by an answer tap |
| App.Shell.Second | src/components/screens/FakeCallScreen.tsx:22-30 | one second passing steps a mounted overlay by a second |
| App.Shell.Render | src/pages/Index.tsx:42-60 | exactly one of the two is shown: the overlay (with the fixed caller Mom, "+1 (555) 123-4567", the Mom image) when the call shows, or otherwise the active tab's screen with the navigation, which is never Contacts |

## Left out

- Markup, styling, icons and images. An image is a string naming its asset.
- The settings screen (`SettingsScreen.tsx`) and the build configuration
  (`capacitor.config.ts`). Both are toggles or constants with no rules.
- `formatTime` (`toLocaleTimeString`) on the schedule screen. Its output
  depends on the locale.
- The clock is not modelled: `Date.now()` and the ids made from it are
  parameters. Nothing checks that a clock-made id is fresh. Unique ids are
  assumed only where a lemma says so.
- `setTimeout`'s own treatment of the delay is not modelled. Browsers convert
  the delay to a 32-bit integer modulo 2^32, and a negative result counts as
  0. So a custom time above 35791 minutes does not go off after the time
  chosen: up to 71582 minutes it goes off at once, and beyond that it goes
  off after the wrapped delay (71583 minutes after about 12.7 seconds). The
  model keeps the unbounded product.
- JavaScript numbers are unbounded integers here: no floating point.
  Fractional inputs to the formatters do not arise. `parseInt` results
  beyond 2^53 do arise, because nothing limits what is typed into the
  custom-minutes field; they are not modelled. JavaScript rounds such a
  result to the nearest double, while `Text.ParseInt` keeps it exact. A
  custom time that large already overflows the `setTimeout` delay described
  above.
- Timers due at the same time are not ordered by arming order. Their effect
  is the same either way.
- Re-mounting: React drops a screen's state when the user switches tabs or
  the call overlay covers the screen. Each screen class models one mounted
  instance; the overlay's mount and unmount are modelled in the shell.
- Most handlers do not require the mode in which their controls are
  visible, because the handlers do not depend on it:
  - saving, editing and deleting contacts (form open or closed);
  - the custom-minutes field (Custom chosen);
  - `ScheduleScreen.ScheduleCall`, `SelectQuickTime` and `CloseForm` (form
    open);
  - `Shell.SetActiveTab` (navigation shown only while no call shows);
  - `Shell.QuickEscapeFromHome` (Home on screen).
  `Shell.SetActiveTab` does require one of the navigation's own tab ids.
