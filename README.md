# clockify-tui core, modelled in Dafny

This project models the logic at the heart of clockify-tui, a terminal client for the Clockify time tracker:

- **Time-string parser and lookups.** `ParseTime` turns `"9a"`, `"3:30p"` or `"4 PM"` into a time on a reference day. `FindProjectById` and `FindEntryById` search a list by id.
- **In-memory cache.** It holds entries, projects and per-project task lists.
- **Time-entry wizard.** Seven steps: date, description, project (with a search filter), task, start/end times, confirm, complete. It has a global key switch, and each step's handler runs after it.
- **Delete-confirmation dialog.**
- **Settings view.** A focus cycle over the API-key field, the workspace field and a save button, plus a pop-up workspace list.
- **Modal overlay compositor.** It draws a modal centred over a base screen and is aware of ANSI escapes.
- **Week table.** It groups entries by project and sums per-weekday durations into a totals row.

How Go concepts map onto the model:

- **Bubble Tea models are values.** Each handler takes and returns a model.
- **Pure specification functions.** Each handler is a function over a datatype. For example, `DateStep.DateSelectStep` specifies `updateDateSelect`.
- **Statement-by-statement methods.** Where the Go code assigns fields one by one, a `method` mirrors it and is proved equal to that function. For example, `DateStep.UpdateDateSelect`.
- **Error globals.** The wizard's package-level time-error strings are an object, `FormModel.Globals`. `Validate` and the handlers write to it through `modifies`.
- **The cache is a class.** Its methods update its fields in place.
- **The overlay's loops and closures** are methods:
  - the padding loop;
  - the row-overwriting loop;
  - the `strings.Builder` loops of `truncateAt` and `skipChars`.

  Each is proved against a recursive function.
- **The week view's loops** are methods proved against functions:
  - the grouping loop;
  - the per-project loop;
  - the per-day loop;
  - the per-entry loop.

Units and representations:

- Dates are integer day numbers; day 0 is a Sunday.
- Clock times are minutes. A parsed time is `date * 1440 + hour * 60 + minute`, with no range check, just as `time.Date` normalises it.
- A text input is its value, its focus flag and its character limit.
- Commands are a datatype.
- `fmt.Sscanf("%d")` is a scanner that reads an optionally signed decimal prefix in the int64 range and leaves the rest unread.

## Model

| member | source | states |
|---|---|---|
| Helpers.FirstProjectIndex | internal/utils/helpers.go:11-18 | the index of the first project with the id, or none exactly when no project has it |
| Helpers.FirstProjectIndexAt | internal/utils/helpers.go:11-18 | any index that holds the id with no earlier match is the one the search finds |
| Helpers.FindProjectById | internal/utils/helpers.go:11-18 | no error iff some project has the id; then the result is the first such project; otherwise the zero project and `ErrSyntax` |
| Helpers.ProjectOrZeroIsFirst | internal/utils/helpers_test.go:33-54 | the project found is the one at the first matching index, and the zero project when none matches |
| Helpers.FindEntryById | internal/utils/helpers.go:20-27 | no error iff some entry has the id; then the result is the first such entry; otherwise the zero entry and `ErrSyntax` |
| Helpers.SkipScanSpace | internal/utils/helpers.go:48-58 | the `%d` verb skips leading blanks, fails on a newline, and never grows the text |
| Helpers.DigitRun | internal/utils/helpers.go:48-58 | the run of leading digits never exceeds the text |
| Helpers.ScanInt | internal/utils/helpers.go:48-58 | a successful `%d` scan yields an int64 value and consumes at least one character |
| Helpers.ScanSigned | internal/utils/helpers.go:48-58 | after the blanks, an optional sign and digits give an int64 value and consume input |
| Helpers.ScanDigitRun | internal/utils/helpers.go:48-58 | the digits read, negated after a minus sign, fit in int64, and what is left is shorter |
| Helpers.ScanDigits | internal/utils/helpers.go:48-58 | `%d` reads exactly the digits before a non-digit and leaves the rest unread, so `"12p"` scans as 12 |
| Helpers.NoLeadingIntegerFails | internal/utils/helpers.go:48-58 | text that does not start with an integer after normalising fails with `Invalid time format: "<stripped>"` |
| Helpers.NormalizeIdempotent | internal/utils/helpers.go:33-34 | lower-casing, trimming and removing spaces a second time changes nothing |
| Helpers.ParseStaged | internal/utils/helpers.go:31-71 | the parse result is fixed by the normalised text, the stripped markers and the scanned clock |
| Helpers.ParseHour | internal/utils/helpers.go:39-65 | digits with an optional `a`/`am`/`p`/`pm` marker parse to that hour converted to 24-hour form |
| Helpers.ParseHourMinute | internal/utils/helpers.go:39-65 | `h:mm` with an optional marker parses to the 24-hour hour plus the minutes |
| Helpers.ParseHourSpaced | internal/utils/helpers.go:33-65 | `"h AM"`/`"h PM"` parse like `"ham"`/`"hpm"`, because case and spaces are normalised away |
| Helpers.ParseClockText | internal/utils/helpers.go:33-65 | `"h:mm AM"`/`"h:mm PM"` parse to the 24-hour hour and the minutes |
| Helpers.ParseKitchen | internal/ui/components/entryform/entryform.go:118-121 | every time the edit form pre-fills with the 12-hour `Kitchen` layout parses back to the same minute of the day |
| Helpers.Example9a | internal/utils/helpers_test.go:63 | `"9a"` is 9:00 |
| Helpers.Example330p | internal/utils/helpers_test.go:64 | `"3:30p"` is 15:30 |
| Helpers.Example12pm | internal/utils/helpers_test.go:65 | `"12pm"` is 12:00 |
| Helpers.Example12am | internal/utils/helpers_test.go:66 | `"12am"` is 0:00 |
| Helpers.Example7 | internal/utils/helpers_test.go:67 | `"7"` is 7:00 |
| Helpers.Example1115 | internal/utils/helpers_test.go:68 | `"11:15"` is 11:15 |
| Helpers.Example4PM | internal/utils/helpers_test.go:69 | `"4 PM"` is 16:00 |
| Helpers.Example13p | internal/utils/helpers.go:61-67 | hours are not range-checked: `"13p"` is 25 hours after midnight |
| Helpers.Example12 | internal/utils/helpers.go:61-65 | without a PM marker hour 12 becomes 0, so a bare `"12"` is midnight |
| Helpers.Example1230 | internal/utils/helpers.go:61-65 | `"12:30"` is 0:30 |
| Helpers.ExampleAbc | internal/utils/helpers_test.go:83-102 | `"abc"` has no leading integer and fails with the format error quoting `abc` |
| Helpers.ExampleEmpty | internal/utils/helpers.go:48-58 | the empty string fails with the format error and never becomes midnight |
| Helpers.HourText | internal/ui/components/entryform/entryform.go:118-121 | the hour text of the Kitchen layout is all digits and reads back as the hour |
| Helpers.MinuteText | internal/ui/components/entryform/entryform.go:118-121 | the minute text is two digits and reads back as the minute |
| Cache.OrEmpty | internal/cache/cache_test.go:50-62 | a nil slice reads as empty and a set one as itself |
| Cache.RemoveAt | internal/cache/cache_test.go:74-86 | removing one element shortens the list by one and keeps the survivors in order |
| Cache.ClockifyCache.constructor | internal/cache/cache.go:30-37 | a new cache holds no entries, no projects and no task lists |
| Cache.ClockifyCache.GetProjectTasks | internal/cache/cache.go:89-98 | a task list is returned exactly for a key that was set, and nil for any other key |
| Cache.ClockifyCache.FreshEntries | internal/cache/cache_test.go:181-207 | entries are served only while non-empty and younger than the expiry window, and then they are what was set |
| Cache.ClockifyCache.FreshProjects | internal/cache/cache_test.go:181-207 | the same freshness rule for projects |
| Cache.ClockifyCache.FreshProjectTasks | internal/cache/cache_test.go:181-207 | the same freshness rule for one project's tasks |
| Cache.ClockifyCache.SetEntries | internal/cache/cache.go:43-55 | getting the entries afterwards returns exactly what was set; they stay fresh for the window; nothing else changes |
| Cache.ClockifyCache.SetProjects | internal/cache/cache.go:61-73 | getting the projects afterwards returns exactly what was set; they stay fresh for the window; nothing else changes |
| Cache.ClockifyCache.SetProjectTasks | internal/cache/cache.go:79-98 | only the given key changes; getting it returns the tasks set |
| Cache.ClockifyCache.AddEntry | internal/cache/cache_test.go:50-62 | the entry is prepended: `[e] + old`, one longer, old order kept from index 1 |
| Cache.ClockifyCache.AddProject | internal/cache/cache_test.go:123-134 | the project is appended at the end, unlike entries |
| Cache.ClockifyCache.UpdateEntry | internal/cache/cache_test.go:64-72 | the first entry with the id is replaced in place and the rest are untouched; with no match nothing changes |
| Cache.ClockifyCache.DeleteEntry | internal/cache/cache_test.go:74-86 | the first entry with the id is removed and the survivors keep their order; with no match nothing changes |
| Cache.ClockifyCache.InvalidateEntries | internal/cache/cache_test.go:88-93 | the next entries get is nil and never fresh; nothing else changes |
| Cache.ClockifyCache.InvalidateProjects | internal/cache/cache_test.go:136-141 | the next projects get is nil and never fresh; nothing else changes |
| Cache.ClockifyCache.InvalidateProjectTasks | internal/cache/cache_test.go:172-177 | only that key's tasks are dropped |
| TextInput.NewInput | internal/ui/components/entryform/entryform.go:64-66 | a new input is empty, unfocused, with the given character limit |
| TextInput.Focus | internal/ui/components/entryform/1_step_dateselect.go:49 | focusing keeps the value |
| TextInput.Blur | internal/ui/components/entryform/2_step_descriptioninput.go:29 | blurring keeps the value |
| TextInput.SetValue | internal/ui/components/entryform/entryform.go:115-121 | the value is the text, cut to the character limit when there is one |
| TextInput.KeyUpdate | internal/ui/components/entryform/2_step_descriptioninput.go:33 | an unfocused input ignores keys; a focused one appends a character within the limit and drops one on backspace; the limit is kept |
| FormModel.Globals.constructor | internal/ui/components/entryform/5_step_timeselect.go:12-15 | both time-error strings start empty |
| FormModel.Feed | internal/ui/components/entryform/2_step_descriptioninput.go:33 | only key messages reach a text input |
| EntryForm.NewForm | internal/ui/components/entryform/entryform.go:62-107 | a form starts on the date screen with cursor 0, not editing, no tasks, empty unfocused inputs, and keeps key, workspace and projects |
| EntryForm.New | internal/ui/components/entryform/entryform.go:62-107 | the constructor builds exactly that form |
| EntryForm.SetProjects | internal/ui/components/entryform/entryform.go:148-151 | only the project list changes |
| EntryForm.GetLines | internal/ui/components/entryform/entryform.go:362-364 | the count of newline characters |
| EntryForm.GetLinesOfJoin | internal/ui/components/entryform/entryform_test.go:234-252 | n lines joined by newlines count n - 1 |
| EntryForm.Prefilled | internal/ui/components/entryform/entryform.go:109-141 | edit mode keeps the entry, its date, its description and its Kitchen times; the first project with the entry's id is selected and the cursor points at it; with no match, selection and cursor stay |
| EntryForm.UpdateEntry | internal/ui/components/entryform/entryform.go:109-141 | the method builds exactly the prefilled form |
| EntryForm.SelectEntryProject | internal/ui/components/entryform/entryform.go:124-130 | the first loop selects the first project with the id, or changes nothing |
| EntryForm.PointCursorAtProject | internal/ui/components/entryform/entryform.go:133-138 | the second loop puts the cursor on the first project with the id, or changes nothing |
| EntryForm.KitchenFits | internal/ui/components/entryform/entryform.go:66-72 | a Kitchen time fits the 8-character limit of the time inputs |
| EntryForm.PrefillParsesBack | internal/ui/components/entryform/entryform.go:118-121 | the pre-filled start and end texts parse back to the entry's start and end minute |
| EntryForm.PrefillValidates | internal/ui/components/entryform/entryform.go:109-141 | an entry that ends after it starts on the same day pre-fills a form that validates |
| EntryForm.Dispatch | internal/ui/components/entryform/entryform.go:310-331 | only the five input steps have handlers; only the time step touches the errors |
| EntryForm.TabStage | internal/ui/components/entryform/entryform.go:168-200 | tab does nothing while searching or on projects with none chosen, swaps time focus on the time step and returns, and otherwise goes on |
| EntryForm.TabForward | internal/ui/components/entryform/entryform.go:176-200 | the step grows only below Confirm; leaving the task step focuses the start time |
| EntryForm.HandleTab | internal/ui/components/entryform/entryform.go:168-200 | the tab case, statement by statement, is the tab stage |
| EntryForm.ShiftTabStage | internal/ui/components/entryform/entryform.go:202-223 | shift+tab is ignored while searching and otherwise steps back above DateSelect; leaving the project step clears both time errors |
| EntryForm.HandleShiftTab | internal/ui/components/entryform/entryform.go:202-223 | the shift+tab case, statement by statement, is the shift+tab stage |
| EntryForm.PickProject | internal/ui/components/entryform/entryform.go:241-253 | a cursor inside the filtered list picks that project, resets tasks and moves to the task step; otherwise nothing changes |
| EntryForm.SelectFilteredProject | internal/ui/components/entryform/entryform.go:241-253 | the method picks exactly that project |
| EntryForm.EnterStage | internal/ui/components/entryform/entryform.go:224-298 | enter per step: the project step always returns and fetches tasks; the time step validates and returns on errors; Confirm moves to Complete and submits; Complete closes the modal |
| EntryForm.HandleEnter | internal/ui/components/entryform/entryform.go:224-298 | the enter case, statement by statement except that the task selection is guarded, is the enter stage |
| EntryForm.GlobalStage | internal/ui/components/entryform/entryform.go:160-307 | esc rebuilds a fresh form and clears errors; loaded tasks are stored with "No Task" after them; other keys pass through |
| EntryForm.Transition | internal/ui/components/entryform/entryform.go:153-335 | the global stage, then the handler of the step reached, unless the global stage returned |
| EntryForm.DispatchStep | internal/ui/components/entryform/entryform.go:310-331 | the dispatch switch, statement by statement |
| EntryForm.Update | internal/ui/components/entryform/entryform.go:153-335 | `Update`, with its writes to the error globals, is the transition |
| EntryFormProps.TabIgnoredWhileSearching | internal/ui/components/entryform/entryform.go:170-173 | tab with the search focused keeps the step, errors and selection, and sends nothing |
| EntryFormProps.DispatchTab | internal/ui/components/entryform/entryform.go:310-331 | no step handler changes the step, errors or selected project on tab |
| EntryFormProps.TabNeedsProject | internal/ui/components/entryform/entryform.go:190-194 | tab on the project step with no project chosen changes nothing |
| EntryFormProps.TabSwapsTimeFocus | internal/ui/components/entryform/entryform.go:178-188 | tab on the time step only swaps focus between start and end |
| EntryFormProps.TabAdvances | internal/ui/components/entryform/entryform.go:198-200 | tab on date, description, task, or on projects with one chosen, advances one step |
| EntryFormProps.TabStopsAtConfirm | internal/ui/components/entryform/entryform.go:198-200 | tab never moves past Confirm |
| EntryFormProps.TabFromTaskFocusesEnd | internal/ui/components/entryform/entryform.go:176-188 | tab from the task step lands on the time step with the end field focused, because the time handler then swaps the focus |
| EntryFormProps.ShiftTabGoesBack | internal/ui/components/entryform/entryform.go:202-223 | shift+tab goes one step back, clears errors when leaving projects, and sends nothing |
| EntryFormProps.ShiftTabIgnoredWhileSearching | internal/ui/components/entryform/entryform.go:204-207 | shift+tab with the search focused changes neither step nor errors |
| EntryFormProps.EscResets | internal/ui/components/entryform/entryform.go:162-167 | esc replaces the form with a new one built from key, workspace and projects, and clears both errors |
| EntryFormProps.EnterOnDateCascades | internal/ui/components/entryform/entryform.go:227-233 | enter on the date step ends on the project step, because the description handler runs next and advances again |
| EntryFormProps.EnterOnProjects | internal/ui/components/entryform/entryform.go:235-256 | with the search focused, enter blurs it and resets the cursor; otherwise it fetches tasks for the selected project even when nothing was picked |
| EntryFormProps.EnterOnTasks | internal/ui/components/entryform/entryform.go:258-280 | enter on the task step selects the task, then falls through to time validation |
| EntryFormProps.TimesAfterTaskPick | internal/ui/components/entryform/5_step_timeselect.go:60-75 | the time handler keeps the selected task and moves on only when validation found no error |
| EntryFormProps.EnterOnTimes | internal/ui/components/entryform/entryform.go:266-280 | enter on the time step validates afresh; errors keep the form as it is; otherwise it moves to Confirm with both times blurred |
| EntryFormProps.EnterOnConfirm | internal/ui/components/entryform/entryform.go:282-291 | enter on Confirm moves to Complete and sends an update in edit mode and a create otherwise |
| EntryFormProps.EnterOnComplete | internal/ui/components/entryform/entryform.go:293-297 | enter on Complete only closes the modal |
| EntryFormProps.TasksArrive | internal/ui/components/entryform/entryform.go:302-307 | loaded tasks are stored with "No Task" appended; the step is unchanged |
| EntryFormProps.DispatchKeepsRange | internal/ui/components/entryform/entryform.go:310-331 | no step handler leaves the seven steps |
| EntryFormProps.GlobalKeepsRange | internal/ui/components/entryform/entryform.go:160-307 | the global switch never leaves the seven steps |
| EntryFormProps.StepStaysInRange | internal/ui/components/entryform/entryform.go:17-25 | every message keeps the step within DateSelect..Complete |
| EntryFormProps.DispatchKeepsLimits | internal/ui/components/entryform/entryform.go:310-331 | no step handler changes the inputs' character limits |
| EntryFormProps.GlobalKeepsLimits | internal/ui/components/entryform/entryform.go:160-307 | the global switch keeps the character limits |
| EntryFormProps.LimitsStay | internal/ui/components/entryform/entryform.go:62-92 | every message keeps the limits set in `New` |
| EntryFormProps.TabThenShiftTab | internal/ui/components/entryform/entryform_test.go:150-166 | from a new form, tab reaches the description and shift+tab goes back to the date |
| EntryFormProps.ShiftTabFromTasks | internal/ui/components/entryform/entryform.go:202-223 | shift+tab from the task step only changes the step back to projects |
| EntryFormProps.DownOnProjects | internal/ui/components/entryform/step_projectselect.go:106-109 | down on the project step moves only the cursor |
| EntryFormProps.TabToTasks | internal/ui/components/entryform/entryform.go:190-200 | tab on projects with one chosen only changes the step to tasks, leaving the cursor where it was |
| EntryFormProps.TaskIndexOutOfRange | internal/ui/components/entryform/4_step_taskselect.go:99-103 | enter, tasks loaded, shift+tab, down, down, tab reach the task step with a cursor past the task list |
| DateStep.DateSelectStep | internal/ui/components/entryform/1_step_dateselect.go:25-54 | `t` sets today; left/`h` and right/`l` move one day only on the date step; enter focuses the description and moves to it; nothing else changes |
| DateStep.UpdateDateSelect | internal/ui/components/entryform/1_step_dateselect.go:25-54 | the handler, statement by statement, always with a nil command |
| DateStep.LeftThenRight | internal/ui/components/entryform/entryform_test.go:126-138 | left then right restores the form |
| DescriptionStep.DescriptionInputStep | internal/ui/components/entryform/2_step_descriptioninput.go:22-36 | enter blurs and advances one step whatever the text; every message reaches the field; nothing else changes |
| DescriptionStep.UpdateDescriptionInput | internal/ui/components/entryform/2_step_descriptioninput.go:22-36 | the handler, statement by statement, with a nil command |
| DescriptionStep.EnterKeepsText | internal/ui/components/entryform/2_step_descriptioninput.go:26-33 | enter keeps the text and leaves the field blurred |
| ProjectStep.KeepMatching | internal/ui/components/entryform/step_projectselect.go:158-164 | the filter never grows the list |
| ProjectStep.FilterProjects | internal/ui/components/entryform/step_projectselect.go:152-165 | the append loop computes the order-preserving filter |
| ProjectStep.KeepMatchingMembers | internal/ui/components/entryform/step_projectselect.go:158-164 | a project is kept iff it is listed and its lower-cased name contains the query |
| ProjectStep.KeepMatchingAll | internal/ui/components/entryform/step_projectselect.go:158-164 | when every project matches, the list comes back unchanged |
| ProjectStep.BlankSearchKeepsAll | internal/ui/components/entryform/step_projectselect.go:152-156 | an empty or blank query returns the project list unchanged |
| ProjectStep.SearchFilters | internal/ui/components/entryform/step_projectselect.go:152-165 | the filtered projects are exactly the listed ones whose lower-cased name contains the trimmed, lower-cased query |
| ProjectStep.SearchIgnoresCase | internal/ui/components/entryform/entryform_test.go:107-119 | queries that agree after lower-casing give the same list |
| ProjectStep.ProjectSelectStep | internal/ui/components/entryform/step_projectselect.go:94-149 | `/` toggles the search focus; enter while searching blurs and resets the cursor; enter otherwise picks `filtered[cursor]` when it exists; other messages reach the search field |
| ProjectStep.MoveOrPick | internal/ui/components/entryform/step_projectselect.go:101-141 | up/`k` and down/`j` move the cursor within bounds; enter picks inside the list and does nothing outside it |
| ProjectStep.UpdateProjectSelect | internal/ui/components/entryform/step_projectselect.go:94-149 | the handler, statement by statement, with a nil command |
| ProjectStep.MoveCursorOrPick | internal/ui/components/entryform/step_projectselect.go:101-141 | the cursor and pick branches, statement by statement |
| ProjectStep.ArrowKeysMoveCursor | internal/ui/components/entryform/step_projectselect.go:101-109 | the arrow keys change only the cursor, by at most one |
| ProjectStep.CursorStaysInList | internal/ui/components/entryform/step_projectselect.go:101-109 | a cursor inside the filtered list stays inside it |
| ProjectStep.SlashTwice | internal/ui/components/entryform/step_projectselect.go:111-118 | pressing `/` twice restores the form |
| TaskStep.SelectTaskAsWritten | internal/ui/components/entryform/4_step_taskselect.go:99-103 | the panic happens exactly when the list is non-empty and the cursor is past its end |
| TaskStep.SelectTask | internal/ui/components/entryform/4_step_taskselect.go:99-103 | the task under the cursor, or the previous selection when there is none |
| TaskStep.SelectTaskAgrees | internal/ui/components/entryform/4_step_taskselect.go:99-103 | wherever the source does not panic, the corrected selection is the source's |
| TaskStep.SelectTaskPanics | internal/ui/components/entryform/4_step_taskselect.go:99-103 | one task plus "No Task" with the cursor at 2 panics |
| TaskStep.TaskSelectStep | internal/ui/components/entryform/4_step_taskselect.go:84-112 | up/`k` and down/`j` move the cursor within bounds; enter selects, focuses the start time and moves to the time step whether or not tasks arrived; every message reaches the task field |
| TaskStep.UpdateTaskInput | internal/ui/components/entryform/4_step_taskselect.go:84-112 | the handler, statement by statement except that the task selection is guarded, with a nil command |
| TaskStep.TaskCursorStaysInList | internal/ui/components/entryform/4_step_taskselect.go:90-98 | a cursor inside the task list stays inside it, and no key but enter changes the step or the selection |
| TimeStep.ValidateTimes | internal/ui/components/entryform/5_step_timeselect.go:86-114 | an unparsable start or end sets its own error; an end not after the start sets the order error; otherwise the errors keep their earlier value |
| TimeStep.Validate | internal/ui/components/entryform/5_step_timeselect.go:86-114 | the writes to the error globals, in order, give those errors |
| TimeStep.CheckVerdict | internal/ui/components/entryform/5_step_timeselect.go:60-75 | a form passes iff both times parse and the end is strictly after the start |
| TimeStep.CheckForgetsStaleErrors | internal/ui/components/entryform/5_step_timeselect.go:62-64 | because both errors are cleared first, every error reported comes from this check |
| TimeStep.EmptyFieldsGetFormatMessage | internal/ui/components/entryform/5_step_timeselect.go:91-108 | an empty field ends with the format message, not "cannot be empty" |
| TimeStep.StartErrorIgnoresEnd | internal/ui/components/entryform/5_step_timeselect.go:99-103 | the start's error does not depend on the end text |
| TimeStep.EqualTimesRejected | internal/ui/components/entryform/5_step_timeselect.go:110-112 | the same time for start and end is rejected |
| TimeStep.MorningToAfternoonPasses | internal/ui/components/entryform/5_step_timeselect.go:86-114 | `"9a"` to `"3:30p"` passes |
| TimeStep.SwapTimeFocus | internal/ui/components/entryform/5_step_timeselect.go:51-59 | the focus moves from one time field to the other and the values stay |
| TimeStep.TimeInputStep | internal/ui/components/entryform/5_step_timeselect.go:47-84 | enter validates afresh and moves to Confirm only with no error; tab swaps focus; other keys keep the step and errors |
| TimeStep.UpdateTimeInput | internal/ui/components/entryform/5_step_timeselect.go:47-84 | the handler with its global writes, statement by statement |
| ConfirmStep.ConfirmLabel | internal/ui/components/entryform/6_step_confirmation.go:24-31 | "Update" exactly in edit mode, "Create" exactly otherwise |
| ConfirmStep.Args | internal/ui/components/entryform/6_step_confirmation.go:53-78 | the request carries key, workspace, project id, task id, description, start, end and date unchanged |
| ConfirmStep.SubmitCmd | internal/ui/components/entryform/6_step_confirmation.go:53-78 | edit mode sends an update of the selected entry; otherwise a create; both with those fields |
| ConfirmStep.ReplyOf | internal/ui/components/entryform/6_step_confirmation.go:82-112 | a client error becomes an error message; a success becomes saved or updated, per the request, carrying the returned entry |
| ConfirmStep.LabelMatchesCommand | internal/ui/components/entryform/6_step_confirmation.go:24-78 | the button label names the request that enter sends |
| ConfirmStep.SavedReplyMatchesMode | internal/ui/components/entryform/6_step_confirmation.go:82-112 | a successful save answers with the message of the form's mode |
| Confirmation.New | internal/ui/components/confirmation/confirmation.go:17-21 | the cursor is on "Delete" and the item type is left empty |
| Confirmation.NewTyped | internal/ui/components/confirmation/confirmation_test.go:9-21 | the two-argument constructor the test calls keeps the item type |
| Confirmation.Flip | internal/ui/components/confirmation/confirmation.go:31-37 | the cursor lands on a button, the other one |
| Confirmation.Step | internal/ui/components/confirmation/confirmation.go:27-64 | toggle keys flip the cursor; enter on "Delete" asks for the item's deletion; enter on "Cancel" closes; the rest changes nothing |
| Confirmation.Update | internal/ui/components/confirmation/confirmation.go:27-64 | the method, statement by statement |
| Confirmation.CursorStaysOnAButton | internal/ui/components/confirmation/confirmation.go:33-37 | after any messages the cursor is 0 or 1 and the item is kept |
| Confirmation.ToggleTwice | internal/ui/components/confirmation/confirmation_test.go:23-36 | two toggles restore the dialog |
| Confirmation.RightThenLeft | internal/ui/components/confirmation/confirmation_test.go:23-36 | right moves to "Cancel" and left back to "Delete" |
| Confirmation.DeletionHasNoType | internal/ui/components/confirmation/confirmation.go:17-21 | the deletion message from `New(id)` never carries a type |
| Confirmation.DeletionCarriesType | internal/ui/components/confirmation/confirmation_test.go:9-21 | a dialog built with a type sends it with the deletion |
| Settings.Feed | internal/ui/views/settings/settings.go:166-175 | only key messages change an input |
| Settings.New | internal/ui/views/settings/settings.go:40-71 | the view starts on the API-key slot, focused iff no key is set, with the configured key and workspace name shown |
| Settings.Cycle | internal/ui/views/settings/settings.go:88-103 | navigation clears `saved` and `err`, keeps the index among the three slots, and changes nothing else |
| Settings.Refocus | internal/ui/views/settings/settings.go:320-336 | focus is on exactly the input of the current slot, and the values stay |
| Settings.Save | internal/ui/views/settings/settings.go:351-359 | saving is shown and the save command carries the configuration and user id |
| Settings.SaveAsWritten | internal/ui/views/settings/settings.go:351-359 | the flag goes unchanged while the save is issued |
| Settings.MoveInList | internal/ui/views/settings/settings.go:124-135 | only the list cursor may change, and only while the list is shown |
| Settings.FeedActive | internal/ui/views/settings/settings.go:166-175 | messages reach the input of the current slot only while the list is hidden |
| Settings.Step | internal/ui/views/settings/settings.go:78-178 | `Update` as written: loaded workspaces, a saved config and an error set their fields and clear `saving`; a fetch uses the typed non-empty key |
| Settings.UpdateFocus | internal/ui/views/settings/settings.go:320-336 | the body of `updateFocus`, statement by statement, on its receiver copy: the slot's field gains focus and the other loses it; the caller drops this copy |
| Settings.IntendedStep | internal/ui/views/settings/settings.go:78-178 | `Update` as intended: it sends what `Step` sends, its view differs from `Step`'s only in the fields' focus and `saving`, and the field values always agree |
| Settings.UpdateActiveInput | internal/ui/views/settings/settings.go:166-175 | the input forwarding, statement by statement |
| Settings.MoveIndex | internal/ui/views/settings/settings.go:88-103 | the index arithmetic, statement by statement |
| Settings.MoveFocus | internal/ui/views/settings/settings.go:88-105 | the navigation branch as written: the index moves as in `Cycle`, and both fields, focus included, stay as they were |
| Settings.MoveListCursor | internal/ui/views/settings/settings.go:124-135 | the list cursor branch, statement by statement |
| Settings.Update | internal/ui/views/settings/settings.go:78-178 | `Update` as written, statement by statement |
| Settings.NavigationWraps | internal/ui/views/settings/settings.go:88-103 | tab/down go one slot forward and shift+tab/up one back, wrapping, and clear `saved` and `err` |
| Settings.TabThenBack | internal/ui/views/settings/settings.go:88-103 | tab then shift+tab returns to the same slot |
| Settings.IndexStaysInRange | internal/ui/views/settings/settings.go:99-103 | every message keeps the index among the three slots |
| Settings.IndexAlwaysInRange | internal/ui/views/settings/settings.go:99-103 | so does any sequence of messages |
| Settings.NavigationKeepsFocusAsWritten | internal/ui/views/settings/settings.go:105 | as written, navigation leaves both fields, focus included, unchanged |
| Settings.NavigationMovesFocus | internal/ui/views/settings/settings.go:105 | as intended, navigation moves the index as written, and afterwards exactly the current slot's input has focus, and values stay |
| Settings.EnterOnWorkspace | internal/ui/views/settings/settings.go:108-114 | enter on the workspace field with a key shows the list and fetches with that key; without one nothing happens |
| Settings.EnterOnSave | internal/ui/views/settings/settings.go:116-117 | as intended, enter on save shows saving and issues the save |
| Settings.EscClosesList | internal/ui/views/settings/settings.go:120-122 | esc hides the list and resets its cursor, keeping the field values |
| Settings.ListCursorStaysInList | internal/ui/views/settings/settings.go:128-135 | `j`/`k` in the list move within it |
| Settings.ListEnterUnreachable | internal/ui/views/settings/settings.go:136-143 | enter never reaches the list branch: the list stays shown and no workspace is taken |
| Settings.ResultsEndSaving | internal/ui/views/settings/settings.go:148-163 | every result message clears `saving` and sends nothing |
| Settings.ListShownKeepsFields | internal/ui/views/settings/settings.go:166-175 | while the list is shown no message changes the fields' text |
| Settings.HiddenListFeedsField | internal/ui/views/settings/settings.go:166-175 | with the list hidden, a typed key reaches the focused API-key field |
| Settings.WorkspaceTypingLostAsWritten | internal/ui/views/settings/settings.go:320-336 | with the value-receiver focus update, typing in the workspace slot is lost |
| Settings.WorkspaceTypingReachesField | internal/ui/views/settings/settings.go:88-105 | as intended, with the focus change kept, typing in the workspace slot reaches the field |
| Settings.SavingNeverShownAsWritten | internal/ui/views/settings/settings.go:351-359 | as written, enter on save issues the save and leaves the view, `saving` included, unchanged |
| Overlay.WidthPlain | internal/utils/overlay.go:17-27 | a line without escapes and of width-one runes is as wide as it is long |
| Overlay.WidthConcat | internal/utils/overlay.go:17-27 | widths add up across escape-free text |
| Overlay.MaxWidth | internal/utils/overlay.go:17-27 | the widest line's width: no line is wider, and some line has that width unless all are empty |
| Overlay.WidthOfModal | internal/utils/overlay.go:17-27 | the loop computes the widest of the newline-separated lines |
| Overlay.TruncateBounds | internal/utils/overlay.go:61-95 | a truncation is a prefix of the text no wider than the limit, and empty for a limit of zero or less |
| Overlay.TruncateFits | internal/utils/overlay.go:61-95 | text narrower than the limit is kept whole |
| Overlay.TruncatePlain | internal/utils/overlay.go:61-95 | plain text is cut to its first `width` characters |
| Overlay.TruncateAt | internal/utils/overlay.go:61-95 | the builder loop, with its running width and escape flag, is the truncation |
| Overlay.Skip | internal/utils/overlay.go:98-134 | skipping zero or fewer columns keeps the text |
| Overlay.SkipPlain | internal/utils/overlay.go:98-134 | on plain text it drops exactly the first `n` characters |
| Overlay.TruncateThenSkip | internal/utils/overlay.go:61-134 | on plain text the truncated head and the skipped tail together are the line |
| Overlay.SkipChars | internal/utils/overlay.go:98-134 | the builder loop, with its skipped count and escape flag, is the skip |
| Overlay.StartOffset | internal/utils/overlay.go:47-58 | the start row or column centres the block and is never negative |
| Overlay.Padded | internal/utils/overlay.go:38-40 | the base lines, then empty lines up to the height |
| Overlay.PadLines | internal/utils/overlay.go:38-40 | the padding loop computes those lines |
| Overlay.RightPart | internal/utils/overlay.go:147-151 | the right part is empty unless the base line reaches past the modal's end column |
| Overlay.Composite | internal/utils/overlay.go:137-161 | overwriting rows keeps the number of lines |
| Overlay.CompositeRow | internal/utils/overlay.go:137-161 | each row after the loop is what the modal lines drawn on it make of it |
| Overlay.OverlayRows | internal/utils/overlay.go:137-161 | the in-place row loop computes the composite |
| Overlay.OverlayRow | internal/utils/overlay.go:143-159 | one row is left part, modal line, right part |
| Overlay.RenderWithModal | internal/utils/overlay.go:33-164 | the whole function, statement by statement |
| Overlay.RenderSplit | internal/utils/overlay.go:163 | splitting the output again gives the composited lines |
| Overlay.RenderLineCount | internal/utils/overlay.go:35-40 | the output has as many lines as the larger of the height and the base |
| Overlay.RenderRow | internal/utils/overlay.go:137-163 | each output row is that row of the composite |
| Overlay.RenderKeepsOtherRows | internal/utils/overlay.go:137-161 | rows outside the modal's rows equal the padded base |
| Overlay.RenderDrawsModalRows | internal/utils/overlay.go:143-159 | a modal row is its base row with the modal line drawn at the start column |
| Overlay.LeftPartWidth | internal/utils/overlay.go:143-157 | the left part is exactly `startCol` wide |
| Overlay.LeftPartPlain | internal/utils/overlay.go:143-157 | on plain text the left part is the head cut or padded with spaces to `startCol` |
| Overlay.RightPartPlain | internal/utils/overlay.go:147-151 | on plain text the right part is the rest of the base line after the modal |
| Overlay.OverlayPlain | internal/utils/overlay.go:143-159 | on plain text a row is the padded head, the modal line and the base tail |
| GoStrings.TrimSpace | internal/utils/helpers.go:33 | the result has no whitespace at either end, and trimmed text is kept |
| GoStrings.ToLower | internal/utils/helpers.go:33 | each character lower-cased, the length kept |
| GoStrings.TrimSpaceToLower | internal/utils/helpers.go:33 | trimming and lower-casing commute |
| GoStrings.RemoveAll | internal/utils/helpers.go:34 | no occurrence of the character survives, and text without it is kept |
| GoStrings.TrimPrefix | internal/ui/views/week/week.go:160-162 | a present prefix is removed exactly once, otherwise the text is kept |
| GoStrings.Repeat | internal/utils/overlay.go:156 | n copies of the character |
| GoStrings.Split | internal/utils/overlay.go:35 | splitting gives at least one piece |
| GoStrings.SplitPiecesLackSep | internal/utils/overlay.go:35 | no piece contains the separator |
| GoStrings.JoinSplit | internal/utils/overlay.go:35-163 | joining the pieces back gives the text |
| GoStrings.SplitJoin | internal/utils/overlay.go:35-163 | splitting joined separator-free lines gives them back |
| Week.StartOfWeek | internal/ui/views/week/week.go:139-140 | the Sunday on or before today |
| Week.Filter | internal/ui/views/week/week.go:188-194 | a project's entries, all from the input |
| Week.GroupsAre | internal/ui/views/week/week.go:188-194 | the keys are exactly the entries' project ids, and each group is the non-empty list of that project's entries in input order |
| Week.FilterAbsent | internal/ui/views/week/week.go:188-194 | a project with no entries has none in its filter |
| Week.GroupEntriesByProject | internal/ui/views/week/week.go:188-194 | the append-into-map loop computes the grouping |
| Week.SumInSplit | internal/ui/views/week/week.go:153-170 | the time of days lo..hi is that of lo..hi-1 plus that of day hi |
| Week.DaysFromSum | internal/ui/views/week/week.go:152-173 | the five weekday durations sum to the week's Monday-to-Friday time |
| Week.DaysFromAt | internal/ui/views/week/week.go:153-170 | column d holds weekday d's time |
| Week.ExcludedEntryAddsNothing | internal/ui/views/week/week.go:157-167 | an entry outside the days, or whose duration fails to parse, adds nothing |
| Week.GroupsSumInIsTotal | internal/ui/views/week/week.go:142-183 | over distinct ids covering every entry, the group sums are the overall sum and the group sizes add up to the entry count |
| Week.ProjectRowParts | internal/ui/views/week/week.go:142-175 | a row's days are the weekday durations and its total the week's |
| Week.ProjectRows | internal/ui/views/week/week.go:142-175 | one row per project id |
| Week.GroupsCover | internal/ui/views/week/week.go:143 | every project with entries has a non-empty group, so `group[0]` exists |
| Week.AddProjectRow | internal/ui/views/week/week.go:142-175 | one pass of the project loop builds the row and credits its days and total to the running totals |
| Week.DayColumns | internal/ui/views/week/week.go:153-170 | the day loop builds the five durations, their sum, and credits each day |
| Week.SumDay | internal/ui/views/week/week.go:157-167 | the entry loop sums one day's durations onto the running total |
| Week.SetTableData | internal/ui/views/week/week.go:136-185 | the method builds the table: a row per project in map order, then the totals row |
| Week.ProjectLoop | internal/ui/views/week/week.go:142-175 | the project loop builds the rows, and the running day and total keys are their column sums |
| Week.TotalsLoop | internal/ui/views/week/week.go:177-183 | the totals row reads back the column sums |
| Week.RowTotalIsSumOfDays | internal/ui/views/week/week.go:152-173 | each project row has five days and its total is their sum |
| Week.TableShape | internal/ui/views/week/week.go:142-184 | one row per distinct project, then a "Totals" row of five days |
| Week.GroupSizes | internal/ui/views/week/week.go:188-194 | every group is non-empty, each is its project's filter, and the group sizes add up to the number of entries |
| Week.RowsAreGroupSums | internal/ui/views/week/week.go:168-183 | each column sum of the rows is the groups' time on that day, and the totals' sum their week |
| Week.RowsCountEveryEntry | internal/ui/views/week/week.go:168-183 | the column sums count every entry's time on that weekday, and the totals count the week |
| Week.TotalsColumnCountsEveryEntry | internal/ui/views/week/week.go:168-183 | each weekday column of the totals row is all entries' time on that day |
| Week.TotalsTotalCountsEveryEntry | internal/ui/views/week/week.go:172-183 | the totals row's total is all entries' Monday-to-Friday time |
| Week.TableLast | internal/ui/views/week/week.go:177-183 | the last row is the column sums of the project rows |
| Week.TableIs | internal/ui/views/week/week.go:136-185 | the table is the project rows followed by their totals row |
| Week.TotalsRowTotalIsSumOfDays | internal/ui/views/week/week.go:177-183 | the totals row's total is the sum of its five days |

## Left out

- **Stubs for I/O and library calls**
  - HTTP, JSON, configuration files and the `internal/api` package are not part of this model. Requests are the `Cmd` values the handlers return. Client results arrive as the `ClientResult` parameter of `ConfirmStep.ReplyOf`.
  - The clock comes in as a parameter: `today` for the form and the week, `now` for the cache.
  - Time zones, daylight saving, seconds and nanoseconds are not modelled. A parsed time is a minute count on the reference day, so `ParseTime` keeping the date's year, month, day and location has no counterpart.
  - Rune width is the parameter `rw` of every overlay member, and one escape rule (ESC up to the next `m`) is skipped by both `Overlay.Width` and `Overlay.VisibleWidth`. The code uses two measures: `runewidth.RuneWidth` (`overlay.go:86`, `overlay.go:125`) measures single runes, while `lipgloss.Width` (`overlay.go:21`, `141`, `147`, `154`) skips every ANSI sequence and measures grapheme clusters. The model does not tell them apart.
  - `time.ParseDuration` of the ISO 8601 designator string, from section 4.4.3.2 of ISO 8601:2004, is the parameter `parse` of the week members. Durations stay integers, and `Duration.String` formatting is not modelled.
  - Go map iteration order in `setTableData` is the parameter `order`. It must list each project with entries exactly once.
- **Concurrency.** The cache's `sync.RWMutex`, the `sync.Once` singleton and the concurrent-access test are left out. The model is one single-threaded object.
- **Text-input widget internals.**
  - Not modelled: cursor position, paste, blink commands, placeholders, and the command the widget returns.
  - Only the value, the focus flag and the character limit are kept. A key message appends one character or deletes the last one.
  - `ToLower` and `TrimSpace` cover ASCII only.
- **Rendering, layout and routing.**
  - Views are not modelled: every `view*` function, the `stepLines` field and styles.
  - Also out: `RenderScrollbar` (floating point), the modal and help components, and `app.go` routing.
  - The week view's `New`, `Update` and `SetSize` plumbing is out too.
- **Stale files.** `step_taskselect.go` uses a field that does not exist, so it stands in for nothing. `7_step_complete.go` does nothing.
- **Cache extensions.**
  - `AddEntry`, `UpdateEntry`, `DeleteEntry`, `AddProject`, the `Invalidate*` methods, the expiry window and the fresh getters are extensions that `cache_test.go` specifies. `cache.go` does not define them.
  - The getters of `cache.go` never read `CachedAt`. Freshness is only checked by `FreshEntries`, `FreshProjects` and `FreshProjectTasks`.
  - An update or delete with no matching id changes nothing, not even the timestamp; no source file says otherwise.
- **Cache.ClockifyCache.GetEntries, Cache.ClockifyCache.GetProjects:** these return the fields unchanged. They need no contract of their own; `SetEntries` and `SetProjects` state the set-then-get round trip.
- **Helpers.ParseTime:** it has no `ensures` of its own. Its behaviour is stated by the `Parse*`, `Example*` and `NoLeadingIntegerFails` lemmas. Those cover every marker form, the Kitchen layout and the failing inputs, but not every string.
- **Settings.SaveConfig:** the `saveConfig` command carries the configuration unchanged. Writing it to disk, and the user lookup, are not modelled.
- **EntryForm.EnterStage, EntryForm.HandleEnter, TaskStep.TaskSelectStep, TaskStep.UpdateTaskInput, EntryFormProps.EnterOnTasks:** enter on the task step takes `tasks[cursor]` only when the cursor is inside the task list, and otherwise keeps the selection. The code (`entryform.go:259-261`, `4_step_taskselect.go:101-103`) checks only that the list is non-empty and panics when the cursor is past its end. The panic is not modelled; `TaskStep.SelectTaskAsWritten` and the first finding below exhibit it.
- **Edge cases kept as the code has them:**
  - An empty time field ends with the format error, not "cannot be empty": `ParseTime("")` fails, and its message overwrites the empty check's (`5_step_timeselect.go:91-108`).
  - Hours and minutes are never range-checked, so `"13p"` is 25 hours after midnight.
  - Enter on the task step moves to the time step whether or not the tasks have loaded (`entryform.go:258-264`).
  - Enter on Confirm sets the step to Complete before the request is sent (`entryform.go:282-291`), so a failed submission does not return to Confirm.
  - The getters of `cache.go` never check the age of what they return; only the fresh getters of this model do.

## Findings

| source | as written | input that shows it | evidently intended | confidence | as-written member | corrected member |
|---|---|---|---|---|---|---|
| internal/ui/components/entryform/4_step_taskselect.go:99-103 | enter indexes `tasks[cursor]` with only a non-empty check, here and in the global enter case at `internal/ui/components/entryform/entryform.go:259-261`; the cursor is left over from the project list | on projects, enter (cursor reset, one task loaded, so two tasks with "No Task"), shift+tab, down, down, tab: the cursor is 2 on the task step, and enter panics | select only when the cursor is inside the list | not executed | TaskStep.SelectTaskAsWritten, TaskStep.SelectTaskPanics, EntryFormProps.TaskIndexOutOfRange | TaskStep.SelectTask, TaskStep.SelectTaskAgrees |
| internal/ui/views/settings/settings.go:320-336 | `updateFocus` has a value receiver, so the focus changes it makes are discarded | a new view with no workspace set; tab to the workspace slot; type a character: the field stays unfocused and empty | the focused input follows the slot | not executed | Settings.Step, Settings.MoveFocus, Settings.NavigationKeepsFocusAsWritten, Settings.WorkspaceTypingLostAsWritten | Settings.IntendedStep, Settings.Refocus, Settings.NavigationMovesFocus, Settings.WorkspaceTypingReachesField |
| internal/ui/components/confirmation/confirmation.go:17-21 | `New(id)` never sets `itemType`, while the test calls a two-argument `New` | `New("x")`, then enter: the deletion message has an empty type | the item type is kept and sent with the deletion | not executed | Confirmation.New, Confirmation.DeletionHasNoType | Confirmation.NewTyped, Confirmation.DeletionCarriesType |
| internal/ui/views/settings/settings.go:351-359 | `saveConfig` sets `saving` on a copy of the model, so the flag is never shown | enter on the save slot: the returned view still has `saving` false | saving is shown until a result arrives | not executed | Settings.Step, Settings.SaveAsWritten, Settings.SavingNeverShownAsWritten | Settings.IntendedStep, Settings.Save, Settings.EnterOnSave |
