# Upload workflow of the `Home` page

A Dafny model of the only logic in this repository: the upload workflow of
the `Home` page component (`src/pages/Home.js`). The page lets a user pick a
spreadsheet, uploads it together with a freshly minted correlation id, and
15 seconds after a successful upload asks the server, with the same id,
whether the file has been processed; on success it lists the returned
summaries (email, video url, summary text).

The component's state is six fields: the selected file, the result items,
and four alert flags (no file, wrong type, success, server error). The model
keeps them in an immutable `Home.State`, with one pure transition per
handler. The two handlers that `await` are split at the `await`, so that
other handlers can run while a request is in flight:

- `HandleFileChange` is the picker's change handler.
- `UploadStart` is the upload click up to the request.
- `UploadSettled` is the rest of the upload handler, once the request settles.
- `TimerFires` is the confirmation callback up to its request.
- `ConfirmSettled` is the rest of that callback.

Requests in flight and scheduled callbacks live in three pools on the state
(`posts`, `timers`, `queries`), so several attempts may overlap, as they can
on the page: timers are never cancelled. Network results are the parameter
`Outcome<T> = Ok200(data) | OtherStatus | Threw`. Fresh ids are parameters
too. `Workflow` strings the transitions into runs of events. At run level,
an id generator that never repeats an outstanding id is an assumption (a
click whose id is already pending is not enabled). `HomeView` projects a
state onto what the page shows.

Modules: `Seqs` (removing one element from a pool), `Home` (state and
handlers), `Workflow` (events, runs, invariants), `HomeView` (rendering),
`Scenarios` (concrete walk-throughs, including the races).

Behaviour kept as the code has it, where a reader might expect otherwise:

- After a confirmation answered 200, line 98 lowers the success alert that
  line 90 raised. The page ends with the summaries and no alert, not with a
  success banner.
- A confirmation request that throws ends the callback before any state
  write (there is no `try` around it). The success alert raised by the
  upload stays up and no server-error alert appears.
- A confirmation callback of an older attempt is applied to the page even
  when a newer attempt has started since. It is not discarded.

## Model

| member | source | states |
|---|---|---|
| `Home.IsExcel` | src/pages/Home.js:43-48 | a file is accepted exactly when its declared type equals the xlsx MIME type; nothing else about the file is inspected |
| `Home.IsExcelByTypeAlone` | src/pages/Home.js:43-48 | two files with the same declared type are classified alike, whatever their names: there is no extension check |
| `Home.HideAllAlerts` | src/pages/Home.js:50-55 | afterwards no alert is raised, and the file, the items and all outstanding work are untouched |
| `Home.HandleFileChange` | src/pages/Home.js:29-41 | items are emptied. An accepted file becomes the selected file with no alert raised. A rejected file leaves no file selected and wrong-type as the only alert. No request or timer is added or removed |
| `Home.ReselectIdempotent` | src/pages/Home.js:29-41 | picking the same file twice in a row ends where picking it once does |
| `Home.UploadStart` | src/pages/Home.js:57-76 | with no file selected: no-file is the only alert, no file is selected, items are kept and nothing is sent. With a file selected: exactly one request is added, carrying that file and the minted id, and the page shows what it showed before |
| `Home.UploadSettled` | src/pages/Home.js:77-113 | the settled request leaves the pool and the selected file is cleared on every path. On 200 success is the only alert and exactly one callback is scheduled, carrying the request's own id. Otherwise server-error is the only alert and no callback is scheduled. Items are kept |
| `Home.TimerFires` | src/pages/Home.js:82-86 | the fired callback leaves the timer pool and its confirmation request carries the id it was scheduled with; nothing shown changes |
| `Home.ConfirmSettled` | src/pages/Home.js:84-100 | on 200 items become the returned data in order, no alert is raised and the file is cleared. On another status server-error is the only alert, items are kept and the file is cleared. On an exception nothing shown changes. The settled request leaves the pool in every case |
| `Workflow.InitWf` | src/pages/Home.js:21-27 | the mounted page has no alert raised and no outstanding work |
| `Workflow.UploadStartPending` | src/pages/Home.js:58-76 | a click adds the minted id to the outstanding ids exactly when a file is selected |
| `Workflow.UploadSettledPending` | src/pages/Home.js:77-110 | a 200 hands the attempt's id on to its timer; any other outcome retires the id |
| `Workflow.TimerFiresPending` | src/pages/Home.js:82-86 | a firing timer hands its id on to the confirmation request |
| `Workflow.ConfirmSettledPending` | src/pages/Home.js:84-100 | a settled confirmation retires its id, whatever the outcome |
| `Workflow.HandleFileChangeKeepsWf` | src/pages/Home.js:29-41 | picking a file keeps at most one alert raised and the outstanding ids distinct |
| `Workflow.UploadStartKeepsWf` | src/pages/Home.js:57-76 | a click with a fresh id keeps at most one alert raised and the outstanding ids distinct |
| `Workflow.UploadSettledKeepsWf` | src/pages/Home.js:77-113 | a settled upload keeps at most one alert raised and the outstanding ids distinct |
| `Workflow.TimerFiresKeepsWf` | src/pages/Home.js:82-86 | a firing timer keeps at most one alert raised and the outstanding ids distinct |
| `Workflow.ConfirmSettledKeepsWf` | src/pages/Home.js:84-100 | a settled confirmation keeps at most one alert raised and the outstanding ids distinct |
| `Workflow.ApplyKeepsWf` | src/pages/Home.js:29-113 | every handler keeps at most one alert raised and keeps the outstanding ids distinct |
| `Workflow.ApplyTimers` | src/pages/Home.js:77-101 | a single event adds a timer only when an upload is answered 200, and removes one only when a timer fires |
| `Workflow.Run` | src/pages/Home.js:29-113 | any run of enabled events keeps at most one alert raised and the outstanding ids distinct |
| `Workflow.ReachableAtMostOneAlert` | src/pages/Home.js:21-113 | in every state reachable from mounting, at most one of the four alerts is raised |
| `Workflow.TimerFiresOnce` | src/pages/Home.js:82-86 | once an attempt's callback fires, no timer for that attempt remains, and exactly one confirmation request carries its id |
| `Workflow.FailedUploadSchedulesNothing` | src/pages/Home.js:102-110 | after an upload that is not answered 200, no request or timer carries that attempt's id |
| `Workflow.ConfirmEndsAttempt` | src/pages/Home.js:82-101 | after a confirmation settles, no request or timer carries that attempt's id |
| `Workflow.UploadAttempt` | src/pages/Home.js:57-113 | one upload with a file selected sends that file with the minted id. Afterwards the file is released and items are kept. The callback scheduled carries the minted id, and one is scheduled exactly when the answer is 200. The matching alert is the only one raised |
| `Workflow.SuccessfulAttempt` | src/pages/Home.js:57-101 | a fully successful attempt confirms with the minted id. It ends with the returned data as items, no alert, no file, and the outstanding work as before the click |
| `Workflow.RunTimersBalance` | src/pages/Home.js:77-105 | over any run, timers are created only by uploads answered 200, one each, and are removed only by firing |
| `Workflow.RunItemsFrame` | src/pages/Home.js:31-92 | over any run without a file pick or a confirmation answered 200, the result items are unchanged |
| `HomeView.Render` | src/pages/Home.js:188-223 | the file line appears iff a file is selected and shows its name. Each raised alert is shown as one banner and no other banner is shown. The summaries panel appears iff there is at least one item and lists the items in order |
| `HomeView.AtMostOneBanner` | src/pages/Home.js:193-220 | with mutually exclusive alerts, at most one banner is on screen |
| `Scenarios.HappyPath` | src/pages/Home.js:29-113 | a spreadsheet is selected, uploaded with id "a", and the confirmation for "a" is answered 200 with one row. The page ends showing that row, with no file line and no banner |
| `Scenarios.WrongTypePath` | src/pages/Home.js:29-63 | a text file shows only the wrong-type banner; a following upload click shows only the no-file banner and sends nothing |
| `Scenarios.ExtensionIgnored` | src/pages/Home.js:43-48 | a file named `.txt` with the xlsx type is accepted; a file named `.xlsx` with another type, or with an empty type, is rejected |
| `Scenarios.PickDuringUploadIsLost` | src/pages/Home.js:72-112 | a spreadsheet picked while an upload is in flight is dropped when that upload settles, whatever the answer |
| `Scenarios.FirstAttemptWaiting` | src/pages/Home.js:29-82 | after one spreadsheet is uploaded and answered 200, that attempt's timer is the only outstanding work and success is the only alert |
| `Scenarios.TwoAttemptsWaiting` | src/pages/Home.js:57-101 | a second attempt can be sent and answered 200 before the first one's timer fires. Both timers are then scheduled and success is the only banner |
| `Scenarios.StaleConfirmationOverwrites` | src/pages/Home.js:82-101 | the older attempt's confirmation is answered 200 after the newer upload succeeded. Its request carries the older id. It replaces the items with the older attempt's data and lowers the success alert raised for the newer attempt, whose timer stays scheduled |
| `Scenarios.StaleConfirmationReachable` | src/pages/Home.js:57-101 | the stale overwrite happens on a reachable page: with attempts "a" and "b" both waiting, "a"'s confirmation answered 200 sets the items to its data and lowers all alerts while "b"'s timer is still scheduled |
| `Scenarios.ConfirmThrowLeavesSuccessUp` | src/pages/Home.js:77-101 | when the confirmation request throws, the success banner stays up although no work remains outstanding |

## Left out

- Layout, styling, icons and the component library (`src/pages/Home.js:116-264` beyond the projection in `HomeView.Render`) and all of `src/App.js`: presentation only. Banner texts are not modelled.
- HTTP, the multipart form and the HTTP client: replaced by `Outcome` parameters. Which statuses reach the non-200 branch and which throw depends on the client library's defaults, so only "200 / other status / threw" is distinguished.
- The shape of the confirmation body: `data.data` is taken to be an array of records with `email`, `url` and `summary`. A body without such an array is not modelled.
- The id generator: ids are parameters. Fresh ids are assumed only at run level (`Workflow.Enabled`), not by the handlers.
- Real time: the 15000 ms delay is kept only as the constant `ConfirmDelayMs`. A timer may fire at any point after it is scheduled. The source comment saying 5 seconds is not followed.
- Resetting the file input element (lines 100 and 113) and console logging (lines 91 and 107): they touch no component state.
- A picker closed without a choice: the handler clears the items (line 31), then throws in the file-type check (line 45) on the missing file. `HandleFileChange` takes a file.
- React rendering and batching: handler writes are applied in program order, last write per field wins, and every handler reads the latest state.
