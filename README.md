# Kanban planner and project carousel

This project models the planner component of a portfolio site, plus the project carousel of its main page.

The planner is a three-column Kanban board:
- the columns are "Backlog Proyecto" (todo), "En Desarrollo" (doing) and "Finalizado" (done);
- a header shows the share of tasks that are done;
- a creation form adds a task after a simulated progress bar of 20 per tick;
- each card can be moved one column forward;
- a side panel shows the selected task, where the user can post comments and attach files; an attachment lands after a simulated upload bar of 25 per tick.

The carousel rotates through the three projects of the page, both automatically and with "next" and "previous" buttons.

The model is in six modules:
- `Text` (text.dfy): the `!s.trim()` guard, with ECMAScript's whitespace set.
- `Progress` (progress.dfy): the two simulated progress counters.
- `Board` (board.dfy): the board as values. It holds the types, the search by id, the completion percentage, and the pure updates the handlers commit: the move splice, the creation append, and the comment and attachment maps.
- `Planner` (planner.dfy): the component's state as a class `KanbanPlanner` with one method per event handler and per timer callback. Its invariant `Valid` says:
  - the task ids are unique;
  - the detail panel shows the board's own version of its task;
  - each running counter matches the ticks fired so far;
  - a running upload targets a task on the board.

  The module also holds a worked session: create "Fix bug", move it twice, attach "spec.pdf".
- `Carousel` (carousel.dfy): the index arithmetic of the carousel, with JavaScript's `%`.
- `StaleCreation` (findings.dfy): the creation commit as written against the intended one.

Timers are modelled as explicit steps:
- Every call of an interval callback is one method call (`CreateTick`, `UploadTick`).
- The 400 ms settle timeout of the creation flow is `CreateSettle`.
- The random id of a new task is a parameter of `CreateSettle`, required not to be on the board already.

Three behaviours of the code are easy to miss:
- The starting board already holds one task ("1", "Optimización de carga LCP", Alta) in the backlog (src/KanbanPlanner.tsx:27). After creating "Fix bug" and moving it to done, the board is therefore 50% done (`Planner.MoveFixBugToDone`).
- Creation and comments reject whitespace-only text as well as empty text, because the guards trim (src/KanbanPlanner.tsx:52 and 96).
- The upload commit sets the detail panel to the updated target task even if the user has closed the panel meanwhile (src/KanbanPlanner.tsx:128). `UploadTick` states this.

## Model

| member | source | states |
|---|---|---|
| Text.TrimStart | src/KanbanPlanner.tsx:52 | dropping leading whitespace never lengthens the text |
| Text.TrimEnd | src/KanbanPlanner.tsx:52 | dropping trailing whitespace never lengthens the text |
| Text.Trim | src/KanbanPlanner.tsx:52 | `trim()` never lengthens the text, and its result neither starts nor ends with whitespace |
| Text.TrimIsMiddle | src/KanbanPlanner.tsx:52 | `trim()` returns the part of the text between its leading and its trailing whitespace |
| Text.TrimStartDropsLeadingSpace | src/KanbanPlanner.tsx:52 | the left trim leaves the suffix after the leading whitespace, and that suffix does not start with whitespace |
| Text.TrimEndDropsTrailingSpace | src/KanbanPlanner.tsx:52 | the right trim leaves the prefix before the trailing whitespace, and that prefix does not end with whitespace |
| Text.TrimEmptyIffBlank | src/KanbanPlanner.tsx:52 | `s.trim()` is empty exactly when every character of `s` is whitespace (both directions) |
| Text.TrimsToEmpty | src/KanbanPlanner.tsx:96 | the rejection guard of creation and comments holds exactly for blank text |
| Progress.AfterTicks | src/KanbanPlanner.tsx:57-62 | the counter after `k` ticks, one `Tick` (a step added only while below 100) per interval call, is at most `step * k` and never passes 100 by a whole step |
| Progress.TicksNeeded | src/KanbanPlanner.tsx:61 | the number of ticks to finish is the least `n` with `step * n >= 100` |
| Progress.AfterTicksValue | src/KanbanPlanner.tsx:55-63 | the counter is exactly `step * k` up to the finishing tick and stays at its final value afterwards |
| Progress.RunningIff | src/KanbanPlanner.tsx:118-121 | the interval is still running exactly when fewer ticks than needed have fired |
| Progress.CreationFinishesAfterFiveTicks | src/KanbanPlanner.tsx:55-63 | the creation counter goes 0, 20, …, 100, never passes 100 and reaches it exactly from the fifth tick on |
| Progress.UploadFinishesAfterFourTicks | src/KanbanPlanner.tsx:116-121 | the upload counter goes 0, 25, …, 100, never passes 100 and reaches it exactly from the fourth tick on |
| Board.Position | src/KanbanPlanner.tsx:23-31 | the three columns sit at positions 0, 1, 2 in the order todo, doing, done |
| Board.InitialColumns | src/KanbanPlanner.tsx:23-31 | the starting board has the three columns in order |
| Board.FindIndex | src/KanbanPlanner.tsx:84 | `findIndex` gives -1 exactly when nothing matches, else the first matching position |
| Board.Find | src/KanbanPlanner.tsx:47 | `find` gives nothing exactly when nothing matches, else a matching element of the list |
| Board.FindFirst | src/KanbanPlanner.tsx:47 | the element `find` returns is the first match: no earlier element satisfies the test |
| Board.ColumnFound | src/KanbanPlanner.tsx:84 | on a well-shaped board the column search finds each column at its fixed position |
| Board.SamePosition | src/KanbanPlanner.tsx:66-72 | with unique ids, each id lives in exactly one column at exactly one position |
| Board.ColumnUnique | src/KanbanPlanner.tsx:87 | a column of a board with unique ids has unique ids |
| Board.LookupFinds | src/KanbanPlanner.tsx:100 | with unique ids, the search by id returns `t` exactly when `t` is on the board with that id |
| Board.LookupIsOnBoard | src/KanbanPlanner.tsx:126 | a found task is on the board with the searched id, and nothing is found exactly when no task has that id |
| Board.PermutationKeepsUnique | src/KanbanPlanner.tsx:89-90 | rearranging the same tasks cannot create a duplicate id |
| Board.SameTasksSameLookup | src/KanbanPlanner.tsx:89-90 | two boards with the same tasks and unique ids answer every search by id alike |
| Board.TotalTasks | src/KanbanPlanner.tsx:46 | the `reduce` total is the number of tasks on the board |
| Board.TotalOfBoard | src/KanbanPlanner.tsx:46 | the total is the sum of the three column lengths |
| Board.ColumnWithinTotal | src/KanbanPlanner.tsx:46-47 | no column holds more tasks than the total |
| Board.DoneCount | src/KanbanPlanner.tsx:47 | the done count is the length of the third column and never exceeds the total |
| Board.RoundRatio | src/KanbanPlanner.tsx:48 | `Math.round(num / den)` for non-negative values is the integer within one half of the quotient, rounding halves up |
| Board.RoundRatioAtMostHundred | src/KanbanPlanner.tsx:48 | a rounded percentage of a part of a whole is at most 100 |
| Board.CompletionPercent | src/KanbanPlanner.tsx:46-48 | the percentage lies in 0..100, is 0 on an empty board and is otherwise `round(100 * done / total)` |
| Board.OneOfThreeIs33 | src/KanbanPlanner.tsx:48 | one done task out of three shows 33 |
| Board.HalfDoneIs50 | src/KanbanPlanner.tsx:48 | as many done tasks as open ones shows 50 |
| Board.AllDoneIs100 | src/KanbanPlanner.tsx:48 | a non-empty board with every task done shows 100 |
| Board.Moved | src/KanbanPlanner.tsx:81-93 | a move keeps the board's shape, and a move out of done changes nothing |
| Board.MovedColumns | src/KanbanPlanner.tsx:83-91 | the source loses the first task with the id, the next column gains it at its end, and ids, titles and the third column are kept |
| Board.SpliceOnly | src/KanbanPlanner.tsx:87-89 | with unique ids, `findIndex` finds the task's own position and the splice leaves no task with that id |
| Board.MovedKeepsTasks | src/KanbanPlanner.tsx:88-91 | a move keeps the same tasks (as a multiset) and the same total |
| Board.MovedEffect | src/KanbanPlanner.tsx:83-91 | the task leaves its column, the others keep their order, it is appended unchanged to the next column, and the remaining column is untouched |
| Board.MovedKeepsLookup | src/KanbanPlanner.tsx:88-91 | a move keeps ids unique and changes no search by id, so every task keeps its content, priority, comments and attachments |
| Board.AppendToTodo | src/KanbanPlanner.tsx:72 | the creation commit keeps the board's shape |
| Board.AppendToTodoEffect | src/KanbanPlanner.tsx:72 | the backlog gains exactly the new task at its end, doing and done are unchanged, and the total grows by one |
| Board.AppendToTodoKeepsLookup | src/KanbanPlanner.tsx:66-72 | with a fresh id, ids stay unique, the new task is found by its id and every other search is unchanged |
| Board.AppendFresh | src/KanbanPlanner.tsx:72 | the same, for a task list |
| Board.Apply | src/KanbanPlanner.tsx:101 | a comment or attachment edit appends one entry at the end of one list and keeps every other field of the task |
| Board.UpdateTasks | src/KanbanPlanner.tsx:99-105 | mapping a column's tasks keeps its length and the id at every position |
| Board.UpdateBoard | src/KanbanPlanner.tsx:97-107 | mapping the columns keeps every column's id, title and number of tasks, so the board keeps its shape |
| Board.UpdateBoardAllTasks | src/KanbanPlanner.tsx:97-107 | mapping the columns edits the board's task list position by position |
| Board.UpdateBoardInPlace | src/KanbanPlanner.tsx:123-133 | the task with the id is replaced in place by its edited version and every other position is unchanged |
| Board.UpdateTasksOtherFind | src/KanbanPlanner.tsx:97-107 | editing one id leaves the search for every other id unchanged |
| Board.UpdateTasksFind | src/KanbanPlanner.tsx:97-107 | editing the found task keeps ids unique and finds the edited task by its id |
| Board.UpdateBoardLookup | src/KanbanPlanner.tsx:123-133 | after an edit, ids are unique, the id finds the edited task and every other search is unchanged |
| Planner.SelectKeepsConsistent | src/KanbanPlanner.tsx:172 | opening a card that is on the board, or closing the panel, keeps the planner consistent |
| Planner.SettleKeepsConsistent | src/KanbanPlanner.tsx:66-72 | committing a new task with a fresh id keeps the planner consistent, and the task is found by its id |
| Planner.MoveKeepsConsistent | src/KanbanPlanner.tsx:81-93 | a move keeps the planner consistent: the panel and a running upload still find their task unchanged |
| Planner.EditKeepsConsistent | src/KanbanPlanner.tsx:97-133 | a comment or attachment commit, followed by showing the edited task in the panel, keeps the planner consistent |
| Planner.EditKeepsInv | src/KanbanPlanner.tsx:97-133 | the same commit keeps the whole invariant, and the panel then shows the edited version of the task |
| Planner.KanbanPlanner.constructor | src/KanbanPlanner.tsx:23-44 | the planner starts with the initial board, both flows idle, no selection, Media priority and empty inputs |
| Planner.KanbanPlanner.TypeTaskText | src/KanbanPlanner.tsx:216 | the description box stores the typed text and changes nothing else |
| Planner.KanbanPlanner.ChoosePriority | src/KanbanPlanner.tsx:231 | a priority button stores that priority and changes nothing else |
| Planner.KanbanPlanner.TypeComment | src/KanbanPlanner.tsx:311 | the comment box stores the typed text and changes nothing else |
| Planner.KanbanPlanner.SubmitTask | src/KanbanPlanner.tsx:51-56 | a submit is accepted exactly when the text is not blank and no creation is in flight; a rejected submit leaves the running counter alone; an accepted one starts the counter at 0 with the current text and priority |
| Planner.KanbanPlanner.CreateTick | src/KanbanPlanner.tsx:57-63 | a running counter below 100 rises by 20, otherwise nothing changes; the counter never passes 100 and reaches it on the fifth tick |
| Planner.KanbanPlanner.CreateSettle | src/KanbanPlanner.tsx:64-76 | once the counter is at 100, the new task (`Board.NewTask`: the fresh id, the captured text and priority, no comments or attachments) is appended to the backlog, doing and done are unchanged, the text box is cleared and the flow is idle; before that nothing happens |
| Planner.KanbanPlanner.MoveTask | src/KanbanPlanner.tsx:81-93 | the splice and push, as sequence updates, leave the board equal to `Board.Moved` of the old board, and the invariant holds |
| Planner.KanbanPlanner.SelectTask | src/KanbanPlanner.tsx:172 | clicking a card shows that task in the panel |
| Planner.KanbanPlanner.CloseDetail | src/KanbanPlanner.tsx:269-271 | closing the panel clears the selection |
| Planner.KanbanPlanner.CommitEdit | src/KanbanPlanner.tsx:97-107 | the commit maps the board to `Board.UpdateBoard` of the old one, the panel shows the edited task, and the invariant holds |
| Planner.KanbanPlanner.SubmitComment | src/KanbanPlanner.tsx:95-110 | a comment is accepted exactly when it is not blank and a task is selected; the untrimmed text is then appended to that task wherever it sits, the panel shows the updated task and the box is cleared; a rejected comment changes nothing |
| Planner.KanbanPlanner.PickFile | src/KanbanPlanner.tsx:112-117 | a file pick is accepted exactly when there is a file, a selected task and no upload in flight; it starts the upload at 0 for that task |
| Planner.KanbanPlanner.UploadTick | src/KanbanPlanner.tsx:118-137 | with no upload running a tick changes nothing; ticks below 100 only raise the counter by 25; the fourth tick appends the file name to the target's attachments, shows the updated target in the panel and ends the upload |
| Planner.StartFixBug | src/KanbanPlanner.tsx:51-56 | typing "Fix bug", choosing Alta and submitting starts the creation at 0 |
| Planner.RunCreationBar | src/KanbanPlanner.tsx:57-63 | five ticks take the creation bar from 0 to 100 |
| Planner.SettleFixBug | src/KanbanPlanner.tsx:64-76 | the settle step appends "Fix bug" after the starting task in the backlog |
| Planner.MoveFixBugForward | src/KanbanPlanner.tsx:81-93 | the card moves from the backlog to in progress; the starting task stays |
| Planner.MoveFixBugToDone | src/KanbanPlanner.tsx:46-48 | the card moves to done, so half of the board is done (50) |
| Planner.RunUploadBar | src/KanbanPlanner.tsx:118-121 | three upload ticks reach 75 and commit nothing |
| Planner.AttachToFixBug | src/KanbanPlanner.tsx:112-137 | the attachment lands on the fourth tick: the card on the board carries "spec.pdf", the panel shows that card, and the invariant holds |
| Carousel.JsRemainder | src/App.tsx:75 | JavaScript's `%` agrees with the Euclidean remainder on non-negative dividends and has the dividend's sign otherwise |
| Carousel.Next | src/App.tsx:89 | the next index stays in range, is `i + 1` below the last index, and wraps from the last index to 0 |
| Carousel.Prev | src/App.tsx:94 | the previous index stays in range, is `i - 1` above 0, and wraps from 0 to the last index |
| Carousel.PrevAfterNext | src/App.tsx:89-94 | "previous" after "next" returns to the same project |
| Carousel.NextAfterPrev | src/App.tsx:89-94 | "next" after "previous" returns to the same project |
| Carousel.AutoPlay | src/App.tsx:73-78 | the index after any number of auto-play ticks stays in range |
| Carousel.RemainderUnique | src/App.tsx:75 | a quotient-and-remainder split with the remainder in range gives the remainder of `%` |
| Carousel.StepRemainder | src/App.tsx:75 | one more step from `a % n` gives the remainder of `a + 1` |
| Carousel.AutoPlayIsModular | src/App.tsx:73-78 | after `k` auto-play ticks from `i` the carousel shows project `(i + k) % n` |
| Carousel.FullCycle | src/App.tsx:73-78 | after one tick per project the carousel is back at its start |
| Carousel.ThreeProjectTour | src/App.tsx:10-38 | with the page's three projects, auto-play shows 0, 1, 2 and then 0, and "previous" from the first shows the last |
| StaleCreation.CommitAsWritten | src/KanbanPlanner.tsx:72 | the commit as written gives the submit-time board plus the new task, whatever the board holds when the timeout fires |
| StaleCreation.CommitAsWrittenLosesUpload | src/KanbanPlanner.tsx:72 | as written, an attachment committed between submit and settle is lost again |
| StaleCreation.InformeLostExample | src/KanbanPlanner.tsx:72 | concretely, task "1" receives "informe.pdf" during the creation and has no attachment after the commit |
| StaleCreation.CommitAgainstCurrentKeepsUpload | src/KanbanPlanner.tsx:123 | committing against the current board keeps that attachment and every other task, and adds the new task |

## Left out

- The JSX markup, icons, Tailwind classes and the open and close logic of the creation modal are not modelled. The model keeps the detail selection and the two busy flags.
- Wall-clock timing is not modelled: the 100 ms and 150 ms intervals, the 400 ms settle timeout and the 5000 ms auto-play interval become explicit method calls or steps. Which interleavings are possible in real time is therefore not modelled.
- The random base-36 id of a new task is not modelled. It is the `id` parameter of `CreateSettle`, required to be absent from the board. The source does not check this, and a collision is not modelled.
- The file input reset, the scroll lock, clipboard writes and the other DOM effects are not modelled. The file is modelled by its name only.
- The other parts of the site are not modelled: the exchange-rate monitor and its service, the SEO dashboard, and the duplicate presentational app shell. They are static data, floating point or I/O.
- Board.CompletionPercent: does not model binary floating point. It rounds the exact ratio `100 * done / total`, while the source rounds a double. The two can differ when the double product lands just below a half: 29 done of 200 evaluates to 14.499999999999998 and shows 14, where the exact rule gives 15.
- Planner.KanbanPlanner.MoveTask: requires the task to be in the column it is moved from, because the card's button only names tasks drawn in that column. The source's behaviour for an absent task is not modelled: `findIndex` gives -1 and `splice(-1, 1)` removes the column's last task.
- Planner.KanbanPlanner.MoveTask: the source splices the source column's task array in place, and that array is shared with the previous state value. The model reassigns the `columns` sequence, so that aliasing is not modelled.
- Planner.KanbanPlanner.CreateSettle: commits against the board as it is when the timeout fires, not against the board captured at submit time. See "Findings"; the captured-board behaviour is `StaleCreation.CommitAsWritten`.
- Planner.KanbanPlanner.SelectTask: requires the clicked task to be on the board, as every drawn card is. Boards with duplicate ids are excluded by the invariant, so the source's behaviour on them (the last match wins the detail panel) is not modelled.
- Carousel: the auto-play interval being re-armed on every index change is not modelled. Only the index arithmetic over the three projects is.

## Findings

| source | as written | input that shows it | evidently intended | confidence | as-written member | corrected member |
|---|---|---|---|---|---|---|
| src/KanbanPlanner.tsx:72 | the settle timeout appends the new task to the `columns` value its handler captured at submit time | open task "1" and pick "informe.pdf" (the upload finishes after 600 ms); close the panel, open the creation modal and submit a description typed earlier, all within that time. The creation commits at about 900 ms and task "1" loses "informe.pdf" on the board, while the panel still shows it | append to the board as it is when the timeout fires, as the upload commit does with `prevCols` at line 123 | not executed | StaleCreation.CommitAsWrittenLosesUpload | StaleCreation.CommitAgainstCurrentKeepsUpload |
