/** The workflow state container: a session-wide store holding a newest-first
    event log, a three-stage kanban board and a processing flag.

    The store is an explicitly constructed object. The wall clock that stamps
    each event is not modelled: the caller passes the timestamp in as an
    opaque string.
 */
module Workflow {

  /** Severity of a workflow event. */
  datatype EventType = Info | Success | Error

  /** The severity an event gets when the caller supplies none. */
  const DefaultSeverity: EventType := Info

  /** One entry of the event log; never changed once inserted. */
  datatype WorkflowEvent = WorkflowEvent(timestamp: string, message: string, kind: EventType, docId: string)

  /** A unit of work on the kanban board. Ids are not required to be unique. */
  datatype KanbanItem = KanbanItem(id: string, docId: string, event: string)

  /** The whole board: three ordered stages, replaced as one snapshot. */
  datatype KanbanData = KanbanData(waiting: seq<KanbanItem>, processing: seq<KanbanItem>, completed: seq<KanbanItem>)

  /** The board a new store starts with. */
  const EmptyBoard: KanbanData := KanbanData([], [], [])

  /** Front insertion, as `unshift` does it: the new event takes index 0 and
      every older entry keeps its relative order, one index further back. */
  function Unshift(log: seq<WorkflowEvent>, e: WorkflowEvent): (r: seq<WorkflowEvent>)
    ensures |r| == |log| + 1
    ensures r[0] == e
    ensures forall i :: 0 <= i < |log| ==> r[i + 1] == log[i]
  {
    [e] + log
  }

  /** The log that results from inserting `events` one after another,
      first element first, into `log`. */
  function Replay(events: seq<WorkflowEvent>, log: seq<WorkflowEvent>): (r: seq<WorkflowEvent>)
    ensures |r| == |events| + |log|
    ensures r[|events|..] == log
    decreases |events|
  {
    if events == [] then log
    else
      Replay(events[1..], Unshift(log, events[0]))
  }

  /** Reference definition of sequence reversal. */
  function Reversed<T>(s: seq<T>): (r: seq<T>)
    ensures |r| == |s|
    decreases |s|
  {
    if s == [] then [] else Reversed(s[1..]) + [s[0]]
  }

  lemma {:induction false} ReversedAt<T>(s: seq<T>, k: nat)
    requires k < |s|
    ensures Reversed(s)[k] == s[|s| - 1 - k]
    decreases |s|
  {
    if k < |s| - 1 {
      ReversedAt(s[1..], k);
    }
  }

  /** Inserting one more event on top of a replayed log is replaying the
      longer sequence. */
  lemma {:induction false} ReplaySnoc(events: seq<WorkflowEvent>, e: WorkflowEvent, log: seq<WorkflowEvent>)
    ensures Replay(events + [e], log) == Unshift(Replay(events, log), e)
    decreases |events|
  {
    if events != [] {
      assert (events + [e])[1..] == events[1..] + [e];
      ReplaySnoc(events[1..], e, Unshift(log, events[0]));
    }
  }

  /** Replaying a sequence of insertions puts the events in reverse call
      order in front of the log that was there before. */
  lemma {:induction false} ReplayIsReversed(events: seq<WorkflowEvent>, log: seq<WorkflowEvent>)
    ensures Replay(events, log) == Reversed(events) + log
    decreases |events|
  {
    if events != [] {
      var e, rest := events[0], events[1..];
      ReplayIsReversed(rest, Unshift(log, e));
      calc {
        Replay(events, log);
        Replay(rest, Unshift(log, e));
        Reversed(rest) + ([e] + log);
        (Reversed(rest) + [e]) + log;
        Reversed(events) + log;
      }
    }
  }

  /** Starting from an empty log, entry k is the (k+1)-th most recent call;
      with k = 0, the most recent call is at index 0. */
  lemma ReplayFromEmptyAt(events: seq<WorkflowEvent>, k: nat)
    requires k < |events|
    ensures Replay(events, [])[k] == events[|events| - 1 - k]
  {
    ReplayIsReversed(events, []);
    ReversedAt(events, k);
  }

  /** The session-wide workflow store. */
  class WorkflowStore {
    /** Event log, newest first. */
    var logs: seq<WorkflowEvent>
    /** Set and cleared directly by the workflow driver; no operation of the
        store touches it. */
    var isProcessing: bool
    /** The latest board snapshot. */
    var kanbanData: KanbanData

    constructor ()
      ensures logs == [] && !isProcessing
      ensures kanbanData == EmptyBoard  // all three stages empty
    {
      logs := [];
      isProcessing := false;
      kanbanData := EmptyBoard;
    }

    /** Replace the board wholesale; no check of item ids across stages. */
    method SetKanbanData(data: KanbanData)
      modifies this`kanbanData
      ensures kanbanData == data  // all three stages, in the order supplied
      ensures logs == old(logs) && isProcessing == old(isProcessing)
    {
      kanbanData := data;
    }

    /** Insert a new event, stamped `now`, at the front of the log. */
    method AddLog(now: string, message: string, docId: string, kind: EventType := DefaultSeverity)
      modifies this`logs
      ensures logs == Unshift(old(logs), WorkflowEvent(now, message, kind, docId))
      ensures kanbanData == old(kanbanData) && isProcessing == old(isProcessing)
    {
      logs := [WorkflowEvent(now, message, kind, docId)] + logs;
    }

    /** Empty the log, whatever it held. */
    method ClearLogs()
      modifies this`logs
      ensures logs == []
      ensures kanbanData == old(kanbanData) && isProcessing == old(isProcessing)
    {
      logs := [];
    }
  }

  /** A driver that reports `events` to `store`, in order: the events end
      up in reverse call order in front of whatever the log held, and the
      board and flag are untouched. */
  method ReportTo(store: WorkflowStore, events: seq<WorkflowEvent>)
    modifies store`logs
    ensures store.logs == Reversed(events) + old(store.logs)
    ensures store.kanbanData == old(store.kanbanData) && store.isProcessing == old(store.isProcessing)
  {
    ghost var log0 := store.logs;
    var i := 0;
    while i < |events|
      invariant 0 <= i <= |events|
      invariant store.logs == Replay(events[..i], log0)
      invariant store.kanbanData == old(store.kanbanData) && store.isProcessing == old(store.isProcessing)
    {
      var e := events[i];
      store.AddLog(e.timestamp, e.message, e.docId, e.kind);
      ReplaySnoc(events[..i], e, log0);
      assert events[..i + 1] == events[..i] + [e];
      i := i + 1;
    }
    assert events[..i] == events;
    ReplayIsReversed(events, log0);
  }

  /** Reporting `events` to a fresh store reads back the events in reverse
      call order. */
  method ReportAll(events: seq<WorkflowEvent>) returns (logs: seq<WorkflowEvent>)
    ensures logs == Replay(events, [])
    ensures logs == Reversed(events)
  {
    var store := new WorkflowStore();
    ReportTo(store, events);
    logs := store.logs;
    ReplayIsReversed(events, []);
    assert Reversed(events) + [] == Reversed(events);
  }

  /** Two reports, the first without a severity: the later one is on top and
      the earlier one got the default severity. */
  method IngestionScenario(t1: string, t2: string) returns (logs: seq<WorkflowEvent>)
    ensures logs == [WorkflowEvent(t2, "Ingestion failed", Error, "doc-1"),
                     WorkflowEvent(t1, "Started ingestion", Info, "doc-1")]
  {
    var store := new WorkflowStore();
    store.AddLog(t1, "Started ingestion", "doc-1");
    store.AddLog(t2, "Ingestion failed", "doc-1", Error);
    logs := store.logs;
  }

  /** A report made without a severity is logged with severity `Info`,
      carrying exactly the supplied timestamp, message and document id. */
  method DefaultSeverityScenario(now: string, message: string, docId: string) returns (e: WorkflowEvent)
    ensures e == WorkflowEvent(now, message, Info, docId)
  {
    var store := new WorkflowStore();
    store.AddLog(now, message, docId);
    e := store.logs[0];
  }

  /** Any number of reports fill the log with all of them, newest first;
      one clear then leaves it empty. */
  method ClearScenario(events: seq<WorkflowEvent>) returns (before: seq<WorkflowEvent>, after: seq<WorkflowEvent>)
    ensures before == Reversed(events)
    ensures after == []
  {
    var store := new WorkflowStore();
    ReportTo(store, events);
    assert Reversed(events) + [] == Reversed(events);
    before := store.logs;
    store.ClearLogs();
    after := store.logs;
  }

  /** Two snapshots in a row: only the second is observed, and item k1 sits
      in `completed` alone. */
  method SnapshotScenario() returns (board: KanbanData)
    ensures board.waiting == [] && board.processing == []
    ensures board.completed == [KanbanItem("k1", "doc-1", "done")]
  {
    var store := new WorkflowStore();
    store.SetKanbanData(KanbanData([], [KanbanItem("k1", "doc-1", "parsing")], []));
    store.SetKanbanData(KanbanData([], [], [KanbanItem("k1", "doc-1", "done")]));
    board := store.kanbanData;
  }

  /** A snapshot that lists one id in two stages is stored as given. */
  method DuplicateIdScenario(item: KanbanItem) returns (board: KanbanData)
    ensures board.waiting == [item] && board.completed == [item] && board.processing == []
  {
    var store := new WorkflowStore();
    store.SetKanbanData(KanbanData([item], [], [item]));
    board := store.kanbanData;
  }

  /** One call of a store operation, with its arguments. */
  datatype StoreOp =
    | AddLogOp(now: string, message: string, docId: string, kind: EventType)
    | SetKanbanDataOp(data: KanbanData)
    | ClearLogsOp

  /** The flag reads back exactly what the driver wrote, whatever sequence
      of log and board operations runs in between. */
  method ProcessingFlagScenario(flag: bool, ops: seq<StoreOp>) returns (observed: bool)
    ensures observed == flag
  {
    var store := new WorkflowStore();
    store.isProcessing := flag;
    var i := 0;
    while i < |ops|
      invariant 0 <= i <= |ops|
      invariant store.isProcessing == flag
    {
      match ops[i] {
        case AddLogOp(now, message, docId, kind) => store.AddLog(now, message, docId, kind);
        case SetKanbanDataOp(data) => store.SetKanbanData(data);
        case ClearLogsOp => store.ClearLogs();
      }
      i := i + 1;
    }
    observed := store.isProcessing;
  }
}
