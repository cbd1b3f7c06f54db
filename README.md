# Workflow store

A Dafny model of the workflow state container of a document-processing UI
(`src/stores/workflow.ts`). The store is one object with three fields:

- `logs`: the event log, newest first. `AddLog` inserts at the front, like `unshift`. `ClearLogs` resets it to empty.
- `kanbanData`: the kanban board, with three ordered stages `waiting`, `processing` and `completed`. `SetKanbanData` replaces it wholesale.
- `isProcessing`: a boolean that the workflow driver writes directly. No store operation touches it.

`Workflow.WorkflowStore` is a class whose methods have `modifies` frames for
single fields (`this`logs`, `this`kanbanData`). Their `ensures`
clauses give the whole new state and say that the other fields stay the same.
Pure functions specify what several `addLog` calls do together:

- `Unshift` is one front insertion.
- `Replay` is a run of insertions.
- `Reversed` is an independent reference definition of reversal.

The lemmas link them. Small client methods, in the style of test scenarios,
drive a fresh store and state what it reads back. The clock is not modelled:
`AddLog` takes the timestamp as an opaque string parameter, `now`.

Two differences from the source signature:

- `AddLog(now, message, docId, kind := Info)` has `now` as an extra leading parameter, where the source has `addLog(message, docId, type = 'info')`.
- The event's `type` field is called `kind`, because `type` is a Dafny keyword.

## Model

| member | source | states |
|---|---|---|
| Workflow.Unshift | src/stores/workflow.ts:37 | front insertion: length grows by one, the new event is at index 0, and every old entry keeps its order, one index further back |
| Workflow.Replay | src/stores/workflow.ts:37 | a run of n insertions lengthens the log by n and leaves the previous log intact as its suffix |
| Workflow.Reversed | src/stores/workflow.ts:37 | reference reversal, length preserving |
| Workflow.ReversedAt | src/stores/workflow.ts:37 | element k of the reversal is element n-1-k of the input |
| Workflow.ReplaySnoc | src/stores/workflow.ts:37 | one more insertion after a run equals the longer run (links one `AddLog` step to `Replay`) |
| Workflow.ReplayIsReversed | src/stores/workflow.ts:37 | a run of insertions puts the events, in reverse call order, in front of the old log |
| Workflow.ReplayFromEmptyAt | src/stores/workflow.ts:24-37 | from an empty log, entry k comes from call n-1-k, and the most recent call is at index 0 |
| Workflow.WorkflowStore.constructor | src/stores/workflow.ts:24-30 | initial state: empty log, `isProcessing` false, all three stages empty |
| Workflow.WorkflowStore.SetKanbanData | src/stores/workflow.ts:32-34 | the board equals the supplied snapshot with all three stages in the given order; nothing is checked; `logs` and `isProcessing` are unchanged |
| Workflow.WorkflowStore.AddLog | src/stores/workflow.ts:36-43 | `logs == Unshift(old(logs), e)`, where `e` carries exactly the supplied `now`, message, docId and severity; `kanbanData` and `isProcessing` are unchanged |
| Workflow.WorkflowStore.ClearLogs | src/stores/workflow.ts:45-47 | the log is empty whatever it held; `kanbanData` and `isProcessing` are unchanged |
| Workflow.ReportTo | src/stores/workflow.ts:36-43 | reporting any sequence of events to a store, whatever its log held, puts the events in reverse call order in front of the old log; board and flag are unchanged |
| Workflow.ReportAll | src/stores/workflow.ts:36-43 | reporting any sequence of events to a fresh store yields exactly those events in reverse call order |
| Workflow.IngestionScenario | src/stores/workflow.ts:36-43 | two reports, the first without a severity, read back newest first, and the first has severity `Info` |
| Workflow.DefaultSeverityScenario | src/stores/workflow.ts:36-42 | a report made without a severity is logged with severity `Info`, carrying exactly the supplied timestamp, message and docId |
| Workflow.ClearScenario | src/stores/workflow.ts:45-47 | after any run of reports the log is exactly those reports in reverse call order, and one clear then leaves it empty |
| Workflow.SnapshotScenario | src/stores/workflow.ts:32-34 | with two successive snapshots, only the second is observed |
| Workflow.DuplicateIdScenario | src/stores/workflow.ts:32-34 | a snapshot listing one item in two stages is stored as given, because there is no uniqueness check |
| Workflow.ProcessingFlagScenario | src/stores/workflow.ts:25 | for every sequence of `AddLog`, `SetKanbanData` and `ClearLogs` calls with any arguments, the flag reads back the value last written before them |

## Left out

- Timestamp: `new Date().toLocaleTimeString()` reads the wall clock and locale, so it becomes the caller-supplied string `now`. Its format and monotonicity are not specified.
- Framework machinery: Pinia store registration, the singleton lifecycle and Vue `ref` reactivity with re-render notification are not modelled. The store is an explicitly constructed object.
- Reference aliasing: `setKanbanData` keeps the caller's object by reference. The model uses value datatypes, so later mutation through that alias is not captured. Likewise, `addLog` changes the existing log array in place (`unshift`), while `clearLogs` installs a new array. A consumer holding the log array from before a `clearLogs` sees the inserts made up to that clear, but neither the clear nor any later insert. The `seq` model cannot tell these two apart.
- `isProcessing` transitions: the source has none. The field is written directly, as in `ProcessingFlagScenario`.
- Reading: the store's read path is direct field access, so reads have no separate operation.
