/** The append-only in-memory audit ledger. */
module AuditLedger {
  import opened Json
  import opened Contracts
  import opened Policies

  datatype EventKind =
    | ActionReceived | ToolUnknown | ContractRejected | InputRejected | ContractValidated | PolicyEvaluated
    | ApprovalRequired | KeyMissing | IdempotencyReplayed | PreconditionFailed | ExecutionStarted | ExecutionFailed
    | OutputRejected | PostconditionFailed | ExecutionSucceeded
    | CompensationStarted | SkippedReadOnly | IrreversibleEffect | SkippedUncompensatable | MissingCompensator
    | CompensationAttempted | CompensationSucceeded | CompensationFailed | CompensationCompleted
    | OutboxStaged | OutboxReleased | OutboxReleaseFailed

  datatype Details =
    | NoDetails
    | OfTool(toolName: string)
    | OfContract(contractId: string)
    | OfDecision(decisionType: DecisionType, riskLevel: RiskLevel)
    | OfUnknownTool(decisionType: DecisionType)
    | OfPending(decisionId: string)
    | OfReplay(completed: bool)
    | OfToolFailure
    | OfMessage(message: string)
    | OfCompensation(text: string)
    | OfOperation(operationId: string, operationName: string, status: string)

  /** An event before the ledger numbers it. */
  datatype Entry = Entry(
    correlationId: string, kind: EventKind, intentId: Option<string>, transactionId: Option<string>, details: Details)

  datatype LedgerEvent = LedgerEvent(sequenceNumber: nat, entry: Entry)

  function Appended(events: seq<LedgerEvent>, e: Entry): seq<LedgerEvent> {
    events + [LedgerEvent(|events| + 1, e)]
  }

  class InMemoryLedger {
    var events: seq<LedgerEvent>

    constructor ()
      ensures events == []
    {
      events := [];
    }

    method Append(e: Entry) returns (event: LedgerEvent)
      modifies this
      ensures events == Appended(old(events), e) && event == events[|events| - 1]
    {
      event := LedgerEvent(|events| + 1, e);
      events := events + [event];
    }
  }

  // ---------- every run of appends ----------

  /** An append that reaches the store, or one that fails before storing anything. */
  datatype Attempt = Stored(e: Entry) | Lost

  function AppendAll(events: seq<LedgerEvent>, attempts: seq<Attempt>): seq<LedgerEvent>
    decreases |attempts|
  {
    if attempts == [] then events
    else AppendAll(if attempts[0].Stored? then Appended(events, attempts[0].e) else events, attempts[1..])
  }

  predicate Numbered(events: seq<LedgerEvent>) {
    forall i | 0 <= i < |events| :: events[i].sequenceNumber == i + 1
  }

  function StoredEntries(attempts: seq<Attempt>): seq<Entry> {
    if attempts == [] then []
    else (if attempts[0].Stored? then [attempts[0].e] else []) + StoredEntries(attempts[1..])
  }

  /** Whatever appends fail, numbers run 1..n in storage order, an earlier snapshot is a
      prefix of every later one, and exactly the stored entries were added, in order. */
  lemma {:induction false} LedgerRun(events: seq<LedgerEvent>, attempts: seq<Attempt>)
    requires Numbered(events)
    ensures var after := AppendAll(events, attempts);
      && Numbered(after) && events <= after
      && |after| == |events| + |StoredEntries(attempts)|
      && forall i | 0 <= i < |StoredEntries(attempts)| :: after[|events| + i].entry == StoredEntries(attempts)[i]
    decreases |attempts|
  {
    if attempts != [] {
      var next := if attempts[0].Stored? then Appended(events, attempts[0].e) else events;
      LedgerRun(next, attempts[1..]);
      var after := AppendAll(events, attempts);
      var es := StoredEntries(attempts);
      forall i | 0 <= i < |es| ensures after[|events| + i].entry == es[i] {
        if attempts[0].Stored? {
          if i == 0 {
            assert after[|events|] == next[|events|];
          } else {
            assert es[i] == StoredEntries(attempts[1..])[i - 1];
          }
        }
      }
    }
  }

  /** The ledger after several events in a row. */
  function Recorded(events: seq<LedgerEvent>, entries: seq<Entry>): seq<LedgerEvent>
    decreases |entries|
  {
    if entries == [] then events else Recorded(Appended(events, entries[0]), entries[1..])
  }

  lemma {:induction false} RecordedTwice(events: seq<LedgerEvent>, a: seq<Entry>, b: seq<Entry>)
    ensures Recorded(Recorded(events, a), b) == Recorded(events, a + b)
    decreases |a|
  {
    if a == [] {
      assert a + b == b;
    } else {
      assert (a + b)[1..] == a[1..] + b;
      RecordedTwice(Appended(events, a[0]), a[1..], b);
    }
  }
}
