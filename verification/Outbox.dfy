/** The effect outbox: operations staged behind a commit and released at most once. */
module Outbox {
  import opened Json
  import opened AuditLedger
  import opened ExecutionResults

  datatype Status = Staged | Released | Failed
  {
    function Text(): string { match this case Staged => "staged" case Released => "released" case Failed => "failed" }
  }

  datatype Operation = Operation(
    operationId: string, transactionId: string, operationName: string, arguments: seq<Member>, status: Status,
    stagedAt: int, releasedAt: Option<int>, output: Value, error: Option<FailureDetail>)
  {
    /** The model validator. */
    predicate Valid() {
      && (match status
          case Staged => releasedAt.None? && output.Null? && error.None?
          case Released => releasedAt.Some? && error.None?
          case Failed => releasedAt.Some? && error.Some?)
      && (releasedAt.Some? ==> stagedAt <= releasedAt.value)
    }

    /** The record can be built: its fields of JSON type accept their values, and it validates. */
    predicate Buildable() { IsJson(Obj(arguments)) && IsJson(output) && Valid() }
  }

  datatype Summary = Summary(transactionId: string, released: seq<Operation>, failed: seq<Operation>)

  datatype OutboxError = UnknownOperation | InvalidRecord

  /** What a handler does on the call made after n handler calls: give an output, or raise. */
  type Handler = nat -> Option<Value>

  /** The time of each clock reading. */
  type Clock = nat -> int

  ghost predicate Monotone(clock: Clock) { forall i: nat, j: nat | i <= j :: clock(i) <= clock(j) }

  /** Operations by identifier, with the order in which they were inserted; `calls` lists the
      operations whose handlers were called, and `ticks` counts clock readings. */
  datatype Box = Box(
    order: seq<string>, operations: map<string, Operation>, handlers: map<string, Handler>, calls: seq<string>,
    ticks: nat)

  const EMPTY := Box([], map[], map[], [], 0)

  const RELEASE_FAILURE := FailureDetail("outbox_release_failed", "Staged operation handler raised an exception.")

  // ---------- operations on a box ----------

  function StagedOperation(id: string, transaction: string, name: string, arguments: seq<Member>, now: int): Operation {
    Operation(id, transaction, name, arguments, Staged, now, None, Null, None)
  }

  /** `stage`: the new box, and the record returned or the error raised. */
  function Stage(b: Box, clock: Clock, id: string, transaction: string, name: string, arguments: seq<Member>,
                 h: Handler): (Box, Result<Operation, OutboxError>)
  {
    var op := StagedOperation(id, transaction, name, arguments, clock(b.ticks));
    var read := b.(ticks := b.ticks + 1);
    if !op.Buildable() then (read, Err(InvalidRecord))
    else
      (read.(order := if id in b.operations then b.order else b.order + [id],
             operations := b.operations[id := op], handlers := b.handlers[id := h]), Ok(op))
  }

  /** The record written once the handler has answered. */
  function Answered(op: Operation, answer: Option<Value>, now: int): Operation {
    match answer
    case Some(v) => op.(status := Released, releasedAt := Some(now), output := v, error := None)
    case None => op.(status := Failed, releasedAt := Some(now), output := Null, error := Some(RELEASE_FAILURE))
  }

  /** `release`: the new box, and the record returned or the error raised. A record that cannot
      be built is not stored, although the handler has been called. */
  function Release(b: Box, clock: Clock, id: string): (Box, Result<Operation, OutboxError>) {
    if id !in b.operations || id !in b.handlers then (b, Err(UnknownOperation))
    else if !b.operations[id].status.Staged? then (b, Ok(b.operations[id]))
    else
      var done := Answered(b.operations[id], b.handlers[id](|b.calls|), clock(b.ticks));
      var called := b.(calls := b.calls + [id], ticks := b.ticks + 1);
      if done.Buildable() then (called.(operations := b.operations[id := done]), Ok(done))
      else (called, Err(InvalidRecord))
  }

  /** The operations under the given identifiers that pass a test, in order. */
  function Pick(operations: map<string, Operation>, ids: seq<string>, test: Operation -> bool): seq<Operation> {
    if ids == [] then []
    else
      var n := |ids| - 1;
      Pick(operations, ids[..n], test)
      + (if ids[n] in operations && test(operations[ids[n]]) then [operations[ids[n]]] else [])
  }

  function OfTransaction(transaction: Option<string>): Operation -> bool {
    (op: Operation) => transaction.None? || op.transactionId == transaction.value
  }

  /** `list_operations`. */
  function Listed(b: Box, transaction: Option<string>): seq<Operation> {
    Pick(b.operations, b.order, OfTransaction(transaction))
  }

  function StagedIds(ops: seq<Operation>): seq<string> {
    if ops == [] then []
    else
      var n := |ops| - 1;
      StagedIds(ops[..n]) + (if ops[n].status.Staged? then [ops[n].operationId] else [])
  }

  /** The snapshot `release_all` starts from. */
  function Pending(b: Box, transaction: string): seq<string> { StagedIds(Listed(b, Some(transaction))) }

  /** Releases one operation after another; stops when one release raises. */
  function ReleaseEach(b: Box, clock: Clock, ids: seq<string>, summary: Summary): (Box, Result<Summary, OutboxError>)
    decreases |ids|
  {
    if ids == [] then (b, Ok(summary))
    else
      match Release(b, clock, ids[0])
      case (b', Err(e)) => (b', Err(e))
      case (b', Ok(op)) => ReleaseEach(b', clock, ids[1..], Noted(summary, op))
  }

  function Noted(summary: Summary, op: Operation): Summary {
    if op.status.Released? then summary.(released := summary.released + [op])
    else summary.(failed := summary.failed + [op])
  }

  // ---------- the backend ----------

  class InMemoryOutboxBackend {
    const clock: Clock
    const ledger: InMemoryLedger?
    var order: seq<string>
    var operations: map<string, Operation>
    var handlers: map<string, Handler>
    var calls: seq<string>
    var ticks: nat

    constructor (c: Clock, l: InMemoryLedger?)
      ensures clock == c && ledger == l && State() == EMPTY
    {
      clock, ledger := c, l;
      order, operations, handlers, calls, ticks := [], map[], map[], [], 0;
    }

    ghost function State(): Box
      reads this
    {
      Box(order, operations, handlers, calls, ticks)
    }

    ghost function Events(): seq<LedgerEvent>
      reads this, ledger
    {
      if ledger == null then [] else ledger.events
    }

    method AppendEvent(kind: EventKind, op: Operation)
      modifies ledger
      ensures ledger != null ==> Events() == Appended(old(Events()), EntryFor(kind, op))
    {
      if ledger != null {
        var _ := ledger.Append(EntryFor(kind, op));
      }
    }

    method StageOperation(id: string, transaction: string, name: string, arguments: seq<Member>, h: Handler)
      returns (r: Result<Operation, OutboxError>)
      modifies this, ledger
      ensures (State(), r) == Stage(old(State()), clock, id, transaction, name, arguments, h)
      ensures ledger != null ==>
        Events() == if r.Ok? then Appended(old(Events()), EntryFor(OutboxStaged, r.value)) else old(Events())
    {
      var op := StagedOperation(id, transaction, name, arguments, clock(ticks));
      ticks := ticks + 1;
      if !op.Buildable() { return Err(InvalidRecord); }
      if id !in operations { order := order + [id]; }
      operations := operations[id := op];
      handlers := handlers[id := h];
      AppendEvent(OutboxStaged, op);
      r := Ok(op);
    }

    method ReleaseOperation(id: string) returns (r: Result<Operation, OutboxError>)
      modifies this, ledger
      ensures (State(), r) == Release(old(State()), clock, id)
      ensures ledger != null ==> Events() == if State().operations == old(operations) then old(Events())
                                             else Appended(old(Events()), ReleaseEntry(operations, id))
    {
      if id !in operations || id !in handlers { return Err(UnknownOperation); }
      var op := operations[id];
      if !op.status.Staged? { return Ok(op); }
      var answer := handlers[id](|calls|);
      calls := calls + [id];
      var done := Answered(op, answer, clock(ticks));
      ticks := ticks + 1;
      if !done.Buildable() { return Err(InvalidRecord); }
      operations := operations[id := done];
      assert operations[id] != old(operations)[id];
      AppendEvent(if done.status.Released? then OutboxReleased else OutboxReleaseFailed, done);
      r := Ok(done);
    }

    /** A snapshot in insertion order. */
    method ListOperations(transaction: Option<string>) returns (listed: seq<Operation>)
      ensures listed == Listed(State(), transaction)
    {
      listed := [];
      for i := 0 to |order|
        invariant listed == Pick(operations, order[..i], OfTransaction(transaction))
      {
        assert order[..i + 1][..i] == order[..i];
        if order[i] in operations {
          var op := operations[order[i]];
          if OfTransaction(transaction)(op) { listed := listed + [op]; }
        }
      }
      assert order[..|order|] == order;
    }

    /** A snapshot of the staged operations, then one release at a time. */
    method ReleaseAll(transaction: string) returns (r: Result<Summary, OutboxError>)
      modifies this, ledger
      ensures (State(), r) == ReleaseEach(old(State()), clock, Pending(old(State()), transaction),
                                          Summary(transaction, [], []))
    {
      ghost var before := State();
      var listed := ListOperations(Some(transaction));
      var pending: seq<string> := [];
      for i := 0 to |listed|
        invariant pending == StagedIds(listed[..i])
      {
        assert listed[..i + 1][..i] == listed[..i];
        if listed[i].status.Staged? { pending := pending + [listed[i].operationId]; }
      }
      assert listed[..|listed|] == listed;
      var summary := Summary(transaction, [], []);
      for i := 0 to |pending|
        invariant ReleaseEach(before, clock, pending, Summary(transaction, [], []))
               == ReleaseEach(State(), clock, pending[i..], summary)
      {
        assert pending[i..][0] == pending[i] && pending[i..][1..] == pending[i + 1..];
        var released := ReleaseOperation(pending[i]);
        if released.Err? { return Err(released.error); }
        summary := Noted(summary, released.value);
      }
      r := Ok(summary);
    }
  }

  function EntryFor(kind: EventKind, op: Operation): Entry {
    Entry(op.transactionId, kind, None, Some(op.transactionId),
          OfOperation(op.operationId, op.operationName, op.status.Text()))
  }

  function ReleaseEntry(operations: map<string, Operation>, id: string): Entry
    requires id in operations
  {
    EntryFor(if operations[id].status.Released? then OutboxReleased else OutboxReleaseFailed, operations[id])
  }
}
