# Time tracker: the time-entry popup and its shell, in Dafny

A desktop utility for logging time. It puts an icon in the system tray and listens for a global
hotkey. Either one opens a small popup with seven fields: date, hours, description, project,
branch, start commit and end commit. Submitting the popup appends those seven texts as one row
to the columns A..G of a Google Sheets sheet.

This project models the logic behind that workflow:

- `DateLayout` (`dates.dfy`): the Go time layout `01/02/2006`. `Format` is how the popup writes
  today's date. `ParseDate` is how the date validator reads one back. Parsing accepts exactly
  two digits for a month 01..12, `/`, two digits for a day that exists in that month (Gregorian
  leap years), `/`, four digits for the year, and nothing after.
- `Form` (`form.dfy`): the seven entry texts (`Entry`), the row they become (`Row`), the four
  inline validators, and the checks the Submit button makes itself (`SubmitCheck`). Those
  checks skip the date.
- `Popup` (`popup.dfy`): the popup controller. A pure step function on `PopupState` models each
  transition: show, reset, esc, answering the exit confirmation, and what happens after an
  append. The `Popup` class keeps the same state in fields, one per entry widget plus the
  `windowVisible` and `escapeVisible` flags. Each method is proved to perform its step
  function. `RunKeepsSingleConfirm` proves that at most one exit confirmation is ever open.
- `Sheets` (`sheets.dfy`): `AppendRow`. The remote service is a `SheetsService` object. It
  records every request in a ghost log and answers success or failure nondeterministically.
- `Settings` (`settings.dfy`): the configuration record, its default, and the shared
  `Config` object. Saving only appends the record to a ghost log of writes.
- `Hotkey` (`hotkey.dfy`): splitting the configured hotkey on `+`. Joining the pieces with `+`
  gives the hotkey back.
- `Tray` (`tray.dfy`): `main` and the tray menu. `App` models startup, the Add / Configure /
  Exit event loop, hotkey and esc presses, and the configuration form's submit. Every one of
  them drives the one `Popup`.

Inputs from the outside world are parameters:

- `today: Date` stands for `time.Now()`.
- `numeric: string -> bool` stands for "`strconv.ParseFloat` succeeds".
- The success or failure of the remote append and of the config save are nondeterministic
  results of `SheetsService.Append` and `Config.Save`.

Each GUI callback is modelled as one atomic step.

Three facts about the code shape the model:

- `ShowEntryPopup` (ui/popup.go:312-316) does not reset the fields; only `resetPopup`
  (ui/popup.go:73-91) does. Showing only sets `windowVisible`, and only when no exit
  confirmation is open.
- The Submit button (ui/popup.go:205-214) does not look at the date. It checks only hours,
  description and project. The date validator only decorates the widget
  (`SubmitDoesNotCheckDate`).
- The keyboard hook delivers key events only after `hook.Start`/`hook.Process` have run.
  `RegisterHotkey` (ui/hotkey.go:22-25) is the only place that runs them. So the esc handler,
  which `BuildPopup` registers with that same hook, fires only when a hotkey listener was
  started. `App.EscKey` models this.

## Model

| member | source | states |
|---|---|---|
| `DateLayout.DaysIn` | ui/popup.go:176 | a month has 28..31 days; February has 29 exactly in leap years |
| `DateLayout.Format` | ui/popup.go:75 | today's text is `MM/DD/YYYY` with `/` at positions 2 and 5; it is exactly ten characters long when the year has at most four digits, longer otherwise (`FormatThenParse`, `LongYearDoesNotParse`) |
| `DateLayout.ParseDate` | ui/popup.go:176 | only ten-character texts parse, and what parses is a real calendar day with a four-digit year; `ParseDateExact` and the two round-trip lemmas pin it down exactly |
| `DateLayout.FormatThenParse` | ui/popup.go:176 | a formatted calendar day with a four-digit year parses back to the same date |
| `DateLayout.ParseThenFormat` | ui/popup.go:176 | whatever parses is a real calendar day with a year below 10000, and formatting it gives back exactly the parsed text |
| `DateLayout.ParseDateExact` | ui/popup.go:176 | the layout accepts exactly the formatted calendar days with four-digit years, in both directions |
| `DateLayout.LongYearDoesNotParse` | ui/popup.go:75 | today's text for a year of five or more digits is not accepted by the layout it was formatted with |
| `Form.DateValidator` | ui/popup.go:172-180 | the date validator rejects "" as required and accepts exactly the non-empty texts that parse |
| `Form.DateValidatorExact` | ui/popup.go:172-180 | an accepted date text is exactly `MM/DD/YYYY` for a real calendar day |
| `Form.DateValidatorAcceptsExample` | ui/popup.go:172-180 | "01/02/2025" is accepted |
| `Form.DateValidatorAcceptsLeapDay` | ui/popup.go:172-180 | "02/29/2024" is accepted |
| `Form.DateValidatorRejectsCommonLeapDay` | ui/popup.go:172-180 | "02/29/2023" is rejected |
| `Form.DateValidatorRejectsExamples` | ui/popup.go:172-180 | "13/40/2024", "1/02/2025" and "01/02/20255" are rejected as invalid; "" is rejected as required |
| `Form.HoursValidator` | ui/popup.go:181-189 | hours are rejected when empty (as required) or when they do not parse as a number, and accepted otherwise |
| `Form.RequiredValidator` | ui/popup.go:190-201 | description and project are accepted exactly when non-empty |
| `Form.SubmitCheck` | ui/popup.go:205-214 | Submit goes on exactly when hours parse and hours, description and project are non-empty; an unparsable hours value is reported first |
| `Form.SubmitCheckMatchesValidators` | ui/popup.go:181-214 | Submit's checks accept exactly what the hours, description and project validators accept |
| `Form.SubmitCheckIgnoresOptionalAndDate` | ui/popup.go:205-214 | Submit's decision does not depend on the date, branch or commit texts |
| `Form.SubmitDoesNotCheckDate` | ui/popup.go:205-214 | an entry with the rejected date "13/40/2024" still passes Submit's checks |
| `Form.Row` | ui/popup.go:217-225 | the row has seven cells, cell i being the text of the i-th column field (date, hours, description, project, branch, commitStart, commitEnd), and `FromRow` reads it back |
| `Form.RowRoundTrip` | ui/popup.go:217-225 | row and entry determine each other: `FromRow(Row(e)) == e` and `Row(FromRow(r)) == r` |
| `Form.RowInjective` | ui/popup.go:217-225 | different entries give different rows |
| `Form.WithTextKeepsOthers` | ui/popup.go:64-70 | typing into one widget leaves the other six texts alone |
| `Popup.ResetEntry` | ui/popup.go:75-86 | after a reset the date is today formatted `01/02/2006` and every other field is empty |
| `Popup.ResetDateIsValid` | ui/popup.go:75-76 | the date a reset writes passes the date validator |
| `Popup.ResetEntryIsNotSubmittable` | ui/popup.go:78 | a freshly reset entry fails Submit's checks |
| `Popup.ShowStep` | ui/popup.go:312-316 | show makes the popup visible unless an exit confirmation is open; it never touches fields or the guard |
| `Popup.ResetStep` | ui/popup.go:73-91 | reset: today's date, empty fields, popup hidden, guard unchanged |
| `Popup.EscStep` | ui/popup.go:275-276 | esc sets the guard only when the popup is visible and no confirmation is open; fields and visibility are unchanged |
| `Popup.AnswerStep` | ui/popup.go:288-297 | either answer clears the guard; confirm resets and hides; decline keeps fields and visibility |
| `Popup.AfterAppend` | ui/popup.go:246-256 | after a successful append the popup is reset and hidden; after a failed one nothing changes |
| `Popup.ShowIdempotent` | ui/popup.go:312-316 | showing twice is the same as showing once |
| `Popup.ShowWhenVisible` | ui/popup.go:312-316 | showing an already visible popup changes nothing |
| `Popup.EscThenDecline` | ui/popup.go:275-297 | esc followed by decline returns the popup to the state it had before esc |
| `Popup.EscThenConfirm` | ui/popup.go:288-297 | esc followed by confirm leaves the popup as a successful submit would |
| `Popup.Apply` | ui/popup.go:274-316 | one event: only esc raises the guard; a confirmation opens only on esc while the guard is down, one at a time; only an answer closes one |
| `Popup.Run` | ui/popup.go:274-316 | a sequence of events with no answers never gets stuck; `RunKeepsSingleConfirm` proves the single-confirm invariant over it |
| `Popup.StepKeepsGuard` | ui/popup.go:274-303 | every event keeps the guard set exactly while one confirmation is open |
| `Popup.RunKeepsSingleConfirm` | ui/popup.go:274-303 | along any sequence of show, esc, answer and submit events, at most one exit confirmation is open |
| `Popup.Popup.constructor` | ui/popup.go:113-120 | the built popup holds today's date and empty fields, and is hidden with no confirmation open |
| `Popup.Popup.SetText` | ui/popup.go:64-70 | typing replaces one widget's text and changes nothing else |
| `Popup.Popup.Show` | ui/popup.go:306-317 | `ShowEntryPopup` performs `ShowStep` |
| `Popup.Popup.Reset` | ui/popup.go:73-91 | `resetPopup` performs `ResetStep` |
| `Popup.Popup.Esc` | ui/popup.go:274-284 | the esc handler opens a confirmation exactly when `OpensConfirm` holds; at most one stays open |
| `Popup.Popup.Answer` | ui/popup.go:285-299 | the confirmation callback performs `AnswerStep` and closes the one open confirmation |
| `Popup.Popup.Submit` | ui/popup.go:203-263 | refused checks send nothing and change nothing. Otherwise exactly one `AppendRow` of `Row(entry)` with the shared config's ID and sheet name. On success the popup is reset and hidden; on failure it is unchanged |
| `Popup.SubmitExample` | ui/popup.go:216-234 | the documented entry appends exactly one row `["01/02/2025","3.5","Fix bug","repoA","main","abc123","def456"]` to `Sheet1!A:G` with `USER_ENTERED` |
| `Sheets.RangeFor` | sheets/service.go:21 | the range is the sheet name followed by `!A:G`, and `SheetOf` recovers the name |
| `Sheets.RangeRoundTrip` | sheets/service.go:21 | every range of the form `<sheet>!A:G` is `RangeFor` of its sheet |
| `Sheets.RangeForInjective` | sheets/service.go:21 | different sheet names give different ranges |
| `Sheets.PlanAppend` | sheets/service.go:17-30 | an empty ID is refused with `EmptySpreadsheetId`. Otherwise, when a service exists, the request has that ID, the range `<sheet>!A:G`, exactly one row equal to the given values, and `USER_ENTERED`. With no service it is refused with `ServiceUnavailable` |
| `Sheets.SheetsService.Append` | sheets/service.go:26-30 | each remote call records exactly its request |
| `Sheets.AppendRow` | sheets/service.go:10-33 | a refused plan makes no call and returns its error. Otherwise exactly one call is made, with no retry, and its failure is returned as `Remote` |
| `Sheets.AppendRowAsWritten` | sheets/service.go:17-30 | as written, the code dereferences a nil service exactly when the ID is non-empty and no service exists |
| `Sheets.AsWrittenPanicsWithoutService` | sheets/service.go:26 | the corrected plan agrees with the code as written in every case except the nil dereference, which it reports as `ServiceUnavailable` |
| `Settings.Reconfigured` | main.go:140-141 | the configure submit sets the spreadsheet ID and sheet name to the two texts and keeps the hotkey |
| `Settings.ReconfiguredTwice` | main.go:140-141 | a second configure submit overrides the first completely |
| `Settings.Config.constructor` | config/config.go:21-25 | a config object holds the record it was built from (the default record is `Default`) |
| `Settings.Config.Save` | config/config.go:33-40 | a save writes the current record and changes nothing in memory |
| `Hotkey.Keys` | ui/hotkey.go:15 | the key names number one more than the `+` signs, none contains `+`, and joining them with `+` gives the hotkey back |
| `Hotkey.Split` | ui/hotkey.go:15 | splitting always yields at least one piece (`[""]` for the empty string); `SplitCount`, `SplitSeparatorFree`, `JoinSplit` and `SplitJoin` characterise it |
| `Hotkey.SplitCount` | ui/hotkey.go:15 | splitting on `+` gives one more piece than there are `+` characters |
| `Hotkey.SplitSeparatorFree` | ui/hotkey.go:15 | no piece contains `+` |
| `Hotkey.JoinSplit` | ui/hotkey.go:15 | joining the pieces with `+` gives back the original string |
| `Hotkey.SplitJoin` | ui/hotkey.go:15 | splitting a `+`-join of `+`-free pieces gives back the pieces |
| `Hotkey.KeysExample` | ui/hotkey.go:15 | "ctrl+alt+q" becomes ["ctrl","alt","q"] |
| `Tray.Handled` | main.go:93-110 | the loop takes every click up to and including the first Exit and none after it |
| `Tray.TrayEffect` | main.go:93-110 | the tray loop never touches the texts or the guard; the popup ends up visible exactly when it was, or when an Add click before Exit found a service and no confirmation open |
| `Tray.NoServiceNoShow` | main.go:95-102 | without a sheet service no sequence of tray clicks changes the popup |
| `Tray.TrayEffectIsOneShow` | main.go:95-99 | with a service, the tray's effect is one show if an Add click comes before Exit, and nothing otherwise |
| `Tray.ExitEndsLoop` | main.go:105-108 | clicks after Exit are not handled and have no effect |
| `Tray.Listener` | main.go:55-59 | the hotkey listener starts exactly for a non-empty hotkey, with the hotkey's `+`-separated key names |
| `Tray.App.constructor` | main.go:41-59 | Add is enabled exactly when a sheet service exists; the popup starts hidden with today's date; the listener follows `Listener` |
| `Tray.App.AddClicked` | main.go:95-102 | an Add click performs the show step when a service exists, and nothing otherwise |
| `Tray.App.HotkeyPressed` | ui/hotkey.go:15-20 | a hotkey press performs the same show step as Add, without checking for a service |
| `Tray.App.EscKey` | ui/hotkey.go:22-25 | esc reaches the popup's handler only when the keyboard hook was started; at most one confirmation is open |
| `Tray.App.SubmitConfiguration` | main.go:138-148 | the in-memory config takes the two texts before the save, and keeps them whether or not the save succeeds |
| `Tray.App.RunEventLoop` | main.go:93-110 | the loop handles `Handled(clicks)` clicks, stops exactly when one is Exit, and leaves the popup as `TrayEffect` says; it changes nothing of the app but whether the tray runs, so the hotkey listener and the Add item stay as they were |
| `Tray.NoServiceExample` | ui/hotkey.go:17-19 | with no service, Add leaves a hidden popup hidden but the hotkey shows it. A valid submit then reaches the nil dereference in the code as written. The model returns `ServiceUnavailable` and keeps the typed texts unchanged with the popup still visible |
| `Tray.DefaultConfiguration` | config/config.go:21-25 | with the default configuration the hotkey listener registers ctrl, alt and q, and every append is refused as an empty spreadsheet ID |

## Left out

- Theme, layout and window geometry: colours and float32 positions and sizes are presentation only.
- Scheduling and concurrency: `fyne.Do`, the goroutine that closes the result window after one
  second, `hook.Start`/`hook.Process`, `systray.Run` and the signal channel. Each callback is
  one atomic step.
- Windows and dialogs: creating and closing windows, focus, the progress dialog, the success
  and error dialogs and their wording, and `SetValidationError(nil)` in `resetPopup`.
- The Configure click itself only opens the configuration form. Creating its window is toolkit
  work; the form's submit is `App.SubmitConfiguration`.
- `BuildPopup` closing a previously built window is left out: the popup is built once.
- config/oauth.go: the OAuth2 token exchange and token files are I/O and foreign library calls.
  Whether a sheet service exists is a parameter of `App`.
- config/config.go: reading and writing the file, directory creation and JSON. Loading is
  replaced by the record passed to `Config`, and `Default` holds the default record. A save is
  one entry in a ghost log with a nondeterministic outcome. The `log.Fatalf` on an unreadable
  JSON file is not modelled.
- `strconv.ParseFloat`: its syntax and range errors are library-defined. The parameter
  `numeric` stands for it.
- `time.Now`: today is the parameter `today`. Dates have non-negative years only.
- The Sheets HTTP call: a ghost request log plus a nondeterministic success or failure.
- `hook.Register` key matching: how the hook decides that the registered keys are pressed is
  not modelled. A press is an event.
- Sheets.AppendRow: the remote error is the single value `Remote`; the message the library
  returns is not carried.

## Findings

| source | as written | input that shows it | evidently intended | confidence | as-written member | corrected member |
|---|---|---|---|---|---|---|
| sheets/service.go:26 | `AppendRow` guards only the empty spreadsheet ID and then calls `service.Spreadsheets...` on the service pointer. When the service failed to initialise (main.go:41-46) that pointer is nil. The tray disables Add in that case, but the hotkey path (ui/hotkey.go:17-19) still shows the popup, so Submit reaches the nil dereference and the program panics | service initialisation fails; hotkey `ctrl+alt+q`; spreadsheet ID `sheet-1`; press the hotkey; type hours `1`, description `d`, project `p`; press Submit | `AppendRow` returns an error when there is no service, so the failure dialog appears and the fields are kept; this matches the tray's own decision to disable Add without a service | not executed; high | `Sheets.AppendRowAsWritten` | `Sheets.AppendRow` |
