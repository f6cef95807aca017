/** Reverse-order compensation of completed effects. */
module Compensation {
  import opened Json
  import opened Contracts
  import opened AuditLedger
  import opened ExecutionResults

  datatype Status = NotRequired | Compensated | PartiallyCompensated | Failed
  {
    function Text(): string {
      match this
      case NotRequired => "not_required"
      case Compensated => "compensated"
      case PartiallyCompensated => "partially_compensated"
      case Failed => "failed"
    }
  }

  /** A compensator changes the world and returns an output, or raises. */
  datatype Plan<!W> = Plan(
    execution: ExecutionResult, effectType: EffectType, compensator: Option<W -> (W, Option<Value>)>)

  datatype CompensationResult = CompensationResult(
    compensationId: string, executionId: string, transactionId: string, intentId: string, succeeded: bool,
    startedAt: int, completedAt: int, output: Value, error: Option<FailureDetail>)
  {
    /** The model validator. */
    predicate Valid() { startedAt <= completedAt && (succeeded <==> error.None?) }

    /** The result can be built: its output field accepts the output, and it validates. */
    predicate Buildable() { IsJson(output) && Valid() }
  }

  datatype Summary = Summary(status: Status, results: seq<CompensationResult>, uncompensated: seq<ExecutionResult>)

  /** The identifier and clock readings of one attempt. */
  datatype Stamp = Stamp(compensationId: string, startedAt: int, completedAt: int)

  // ---------- one plan ----------

  datatype Class = NotExecuted | ReadsOnly | Lasting | NeedsNothing | Uncovered | Attempted

  /** Which branch of the loop a plan takes. */
  function ClassOf<W>(p: Plan<W>): Class {
    if !p.execution.succeeded then NotExecuted
    else if p.effectType.ReadOnly? then ReadsOnly
    else if p.effectType.Irreversible? then Lasting
    else if p.effectType.Idempotent? then NeedsNothing
    else if p.compensator.None? then Uncovered
    else Attempted
  }

  function EntryFor(e: ExecutionResult, kind: EventKind, details: Details): Entry {
    Entry(e.transactionId, kind, Some(e.intentId), Some(e.transactionId), details)
  }

  const FAILURE := FailureDetail("compensation_failed", "Compensator raised an exception.")

  function ResultFor(e: ExecutionResult, stamp: Stamp, output: Option<Value>): (r: CompensationResult)
    ensures r.Buildable() <==> stamp.startedAt <= stamp.completedAt && (output.None? || IsJson(output.value))
    ensures r.executionId == e.executionId && r.succeeded == output.Some?
  {
    CompensationResult(stamp.compensationId, e.executionId, e.transactionId, e.intentId, output.Some?,
                       stamp.startedAt, stamp.completedAt,
                       if output.Some? then output.value else Null,
                       if output.Some? then None else Some(FAILURE))
  }

  /** What a stretch of the loop does: the world it leaves, what it adds to each list, and
      whether it ended the run by raising. */
  datatype Progress<W> = Progress(
    world: W, results: seq<CompensationResult>, uncompensated: seq<ExecutionResult>, entries: seq<Entry>, raised: bool)

  function Still<W>(w: W, uncompensated: seq<ExecutionResult>, entries: seq<Entry>): Progress<W> {
    Progress(w, [], uncompensated, entries, false)
  }

  /** One attempt. If its result cannot be built it raises, with the world already changed and
      no outcome on record. */
  function AttemptProgress<W>(e: ExecutionResult, w: W, output: Option<Value>, stamp: Stamp): Progress<W> {
    var attempted := EntryFor(e, CompensationAttempted, NoDetails);
    var result := ResultFor(e, stamp, output);
    if !result.Buildable() then Progress(w, [], [], [attempted], true)
    else
      var kind := if output.Some? then CompensationSucceeded else CompensationFailed;
      Progress(w, [result], [], [attempted, EntryFor(e, kind, OfCompensation(stamp.compensationId))], false)
  }

  function Handle<W>(p: Plan<W>, w: W, stamp: Stamp): Progress<W> {
    var e := p.execution;
    match ClassOf(p)
    case NotExecuted => Still(w, [], [])
    case ReadsOnly => Still(w, [], [EntryFor(e, SkippedReadOnly, NoDetails)])
    case Lasting => Still(w, [e], [EntryFor(e, IrreversibleEffect, NoDetails)])
    case NeedsNothing => Still(w, [], [EntryFor(e, SkippedUncompensatable, NoDetails)])
    case Uncovered => Still(w, [e], [EntryFor(e, MissingCompensator, NoDetails)])
    case Attempted =>
      var (w', output) := p.compensator.value(w);
      AttemptProgress(e, w', output, stamp)
  }

  /** One stretch, and then, unless it raised, another. */
  function Then<W>(a: Progress<W>, b: Progress<W>): Progress<W> {
    if a.raised then a
    else Progress(b.world, a.results + b.results, a.uncompensated + b.uncompensated, a.entries + b.entries, b.raised)
  }

  /** The plans handled from the last to the first. */
  function Unwind<W>(plans: seq<Plan<W>>, stamps: seq<Stamp>, w: W): Progress<W>
    requires |stamps| == |plans|
  {
    if plans == [] then Still(w, [], [])
    else
      var n := |plans| - 1;
      var last := Handle(plans[n], w, stamps[n]);
      Then(last, Unwind(plans[..n], stamps[..n], last.world))
  }

  /** `_summarize_status`. */
  function StatusOf(results: seq<CompensationResult>, uncompensated: seq<ExecutionResult>): Status {
    var anySucceeded := exists i | 0 <= i < |results| :: results[i].succeeded;
    var allSucceeded := forall i | 0 <= i < |results| :: results[i].succeeded;
    if results == [] && uncompensated == [] then NotRequired
    else if uncompensated != [] then if anySucceeded then PartiallyCompensated else Failed
    else if allSucceeded then Compensated
    else if anySucceeded then PartiallyCompensated
    else Failed
  }

  function SummaryOf<W>(p: Progress<W>): Summary {
    Summary(StatusOf(p.results, p.uncompensated), p.results, p.uncompensated)
  }

  /** What `compensate` returns; `None` when it raises. */
  function SummaryIf<W>(p: Progress<W>): Option<Summary> { if p.raised then None else Some(SummaryOf(p)) }

  function OpeningEntries(failed: Option<ExecutionResult>): seq<Entry> {
    match failed
    case None => []
    case Some(e) => [EntryFor(e, CompensationStarted, OfCompensation(e.executionId))]
  }

  function ClosingEntries(failed: Option<ExecutionResult>, summary: Option<Summary>): seq<Entry> {
    match (failed, summary)
    case (Some(e), Some(s)) => [EntryFor(e, CompensationCompleted, OfCompensation(s.status.Text()))]
    case _ => []
  }

  // ---------- the coordinator ----------

  /** What compensators act on. */
  class World<W> {
    var state: W

    constructor (w: W)
      ensures state == w
    {
      state := w;
    }
  }

  class CompensationCoordinator {
    const ledger: InMemoryLedger?

    constructor (l: InMemoryLedger?)
      ensures ledger == l
    {
      ledger := l;
    }

    ghost function Events(): seq<LedgerEvent>
      reads this, ledger
    {
      if ledger == null then [] else ledger.events
    }

    method AppendEvent(e: ExecutionResult, kind: EventKind, details: Details)
      modifies ledger
      ensures ledger != null ==> Events() == Recorded(old(Events()), [EntryFor(e, kind, details)])
    {
      if ledger != null {
        var _ := ledger.Append(EntryFor(e, kind, details));
      }
    }

    /** Runs one compensator between its two events; `None` when its result cannot be built. */
    method AttemptCompensation<W>(plan: Plan<W>, world: World<W>, stamp: Stamp) returns (r: Option<CompensationResult>)
      requires plan.compensator.Some?
      modifies world, ledger
      ensures var (after, output) := plan.compensator.value(old(world.state));
        var did := AttemptProgress(plan.execution, after, output, stamp);
        && world.state == after && did.results == (if r.Some? then [r.value] else []) && did.raised == r.None?
        && (ledger != null ==> Events() == Recorded(old(Events()), did.entries))
    {
      AppendEvent(plan.execution, CompensationAttempted, NoDetails);
      var (after, output) := plan.compensator.value(world.state);
      world.state := after;
      var result := ResultFor(plan.execution, stamp, output);
      if !result.Buildable() { return None; }
      var kind := if result.succeeded then CompensationSucceeded else CompensationFailed;
      AppendEvent(plan.execution, kind, OfCompensation(stamp.compensationId));
      ghost var did := AttemptProgress(plan.execution, after, output, stamp);
      RecordedTwice(old(Events()), did.entries[..1], did.entries[1..]);
      r := Some(result);
    }

    /** One turn of the loop: what the plan adds to each list, and whether it raised. */
    method HandlePlan<W>(plan: Plan<W>, world: World<W>, stamp: Stamp)
      returns (results: seq<CompensationResult>, uncompensated: seq<ExecutionResult>, raised: bool)
      modifies world, ledger
      ensures var did := Handle(plan, old(world.state), stamp);
        && results == did.results && uncompensated == did.uncompensated && raised == did.raised
        && world.state == did.world && (ledger != null ==> Events() == Recorded(old(Events()), did.entries))
    {
      results, uncompensated, raised := [], [], false;
      match ClassOf(plan) {
        case NotExecuted =>
        case ReadsOnly =>
          AppendEvent(plan.execution, SkippedReadOnly, NoDetails);
        case Lasting =>
          uncompensated := [plan.execution];
          AppendEvent(plan.execution, IrreversibleEffect, NoDetails);
        case NeedsNothing =>
          AppendEvent(plan.execution, SkippedUncompensatable, NoDetails);
        case Uncovered =>
          uncompensated := [plan.execution];
          AppendEvent(plan.execution, MissingCompensator, NoDetails);
        case Attempted =>
          var result := AttemptCompensation(plan, world, stamp);
          if result.Some? { results := [result.value]; } else { raised := true; }
      }
    }

    /** The loop over the plans, last to first, up to the first that raises. */
    method HandleAll<W>(plans: seq<Plan<W>>, world: World<W>, stamps: seq<Stamp>)
      returns (results: seq<CompensationResult>, uncompensated: seq<ExecutionResult>, raised: bool)
      requires |stamps| == |plans|
      modifies world, ledger
      ensures var did := Unwind(plans, stamps, old(world.state));
        && results == did.results && uncompensated == did.uncompensated && raised == did.raised
        && world.state == did.world && (ledger != null ==> Events() == Recorded(old(Events()), did.entries))
    {
      ghost var all, start := Unwind(plans, stamps, world.state), Events();
      ghost var done := Still(world.state, [], []);
      results, uncompensated, raised := [], [], false;
      assert plans[..|plans|] == plans && stamps[..|plans|] == stamps;
      ThenNothing(world.state, all);
      for i := |plans| downto 0
        invariant world.state == done.world && results == done.results && uncompensated == done.uncompensated
        invariant !done.raised && !raised
        invariant Then(done, Unwind(plans[..i], stamps[..i], done.world)) == all
        invariant ledger != null ==> Events() == Recorded(start, done.entries)
      {
        ghost var before, step := done, Handle(plans[i], done.world, stamps[i]);
        var more, standing, stopped := HandlePlan(plans[i], world, stamps[i]);
        results := results + more;
        uncompensated := uncompensated + standing;
        done := Then(before, step);
        UnwindStep(plans, stamps, before.world, i);
        ThenAssociates(before, step, Unwind(plans[..i], stamps[..i], step.world));
        RecordedTwice(start, before.entries, step.entries);
        if stopped { return results, uncompensated, true; }
      }
      ThenNothing(done.world, done);
    }

    /** `compensate`: the answer, the world and the audit trail are those of handling the plans
        in reverse order. A run that raises returns no summary and records no completion. */
    method Compensate<W>(plans: seq<Plan<W>>, failed: Option<ExecutionResult>, world: World<W>, stamps: seq<Stamp>)
      returns (summary: Option<Summary>)
      requires |stamps| == |plans|
      modifies world, ledger
      ensures var did := Unwind(plans, stamps, old(world.state));
        && summary == SummaryIf(did) && world.state == did.world
        && (ledger != null ==>
              Events()
              == Recorded(old(Events()), OpeningEntries(failed) + did.entries + ClosingEntries(failed, summary)))
    {
      ghost var did, start := Unwind(plans, stamps, world.state), Events();
      if failed.Some? {
        AppendEvent(failed.value, CompensationStarted, OfCompensation(failed.value.executionId));
      }
      var results, uncompensated, raised := HandleAll(plans, world, stamps);
      RecordedTwice(start, OpeningEntries(failed), did.entries);
      if raised {
        assert OpeningEntries(failed) + did.entries + [] == OpeningEntries(failed) + did.entries;
        return None;
      }
      var status := StatusOf(results, uncompensated);
      if failed.Some? {
        AppendEvent(failed.value, CompensationCompleted, OfCompensation(status.Text()));
      }
      summary := Some(Summary(status, results, uncompensated));
      RecordedTwice(start, OpeningEntries(failed) + did.entries, ClosingEntries(failed, summary));
    }
  }

  lemma ThenNothing<W>(w: W, b: Progress<W>)
    ensures Then(Still(w, [], []), b) == b && Then(b, Still(b.world, [], [])) == b
  {
  }

  lemma UnwindStep<W>(plans: seq<Plan<W>>, stamps: seq<Stamp>, w: W, i: nat)
    requires |stamps| == |plans| && i < |plans|
    ensures var step := Handle(plans[i], w, stamps[i]);
      Unwind(plans[..i + 1], stamps[..i + 1], w) == Then(step, Unwind(plans[..i], stamps[..i], step.world))
  {
    assert plans[..i + 1][..i] == plans[..i] && stamps[..i + 1][..i] == stamps[..i];
  }

  lemma ThenAssociates<W>(a: Progress<W>, b: Progress<W>, c: Progress<W>)
    ensures Then(a, Then(b, c)) == Then(Then(a, b), c)
  {
  }
}
